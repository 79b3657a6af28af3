/** A fill in the numbers of book, policy and signal, and what a run of fills pays in fees. */
module PaperFills {
  import opened Paper
  import opened PaperLaws
  import opened Schema

  /** `r` is `k` steps of 1/scale, and `x` lies less than one step beyond it, away from zero. */
  ghost predicate Steps(r: real, x: real, scale: int, k: int) {
    && r * scale as real == k as real
    && (if x >= 0.0 then k as real <= x * scale as real < k as real + 1.0 else k as real - 1.0 < x * scale as real <= k as real)
  }

  /** Rounding toward zero to a multiple of 1/scale. */
  ghost predicate Rounded(r: real, x: real, scale: int) {
    exists k: int :: Steps(r, x, scale, k)
  }

  lemma RoundDownSteps(y: real, scale: int)
    requires y >= 0.0 && scale > 0
    ensures var k := Scaled(y, scale).Floor; RoundDown(y, scale) * scale as real == k as real && k as real <= y * scale as real < k as real + 1.0
  {
    QuotientTimes(Scaled(y, scale).Floor as real, scale as real);
  }

  lemma QuantizeRounds(x: real, scale: int)
    requires scale > 0
    ensures Rounded(Quantize(x, scale), x, scale)
  {
    if x >= 0.0 {
      RoundDownSteps(x, scale);
      assert Steps(Quantize(x, scale), x, scale, Scaled(x, scale).Floor);
    } else {
      var k := Scaled(-x, scale).Floor;
      RoundDownSteps(-x, scale);
      Negated(RoundDown(-x, scale), scale as real);
      Negated(x, scale as real);
      assert Steps(Quantize(x, scale), x, scale, -k);
    }
  }

  lemma Negated(a: real, b: real)
    ensures -a * b == -(a * b)
  {
  }

  lemma SameMultiple(r: real, s: real, m: real)
    requires m > 0.0 && r * m == s * m
    ensures r == s
  {
    assert m * (r - s) == 0.0;
  }

  lemma SameStep(x: real, scale: real, k: int, l: int)
    requires scale > 0.0
    requires if x >= 0.0 then k as real <= x * scale < k as real + 1.0 else k as real - 1.0 < x * scale <= k as real
    requires if x >= 0.0 then l as real <= x * scale < l as real + 1.0 else l as real - 1.0 < x * scale <= l as real
    ensures k == l
  {
  }

  lemma RoundedOnce(r: real, s: real, x: real, scale: int)
    requires scale > 0 && Rounded(r, x, scale) && Rounded(s, x, scale)
    ensures r == s
  {
    var k: int :| Steps(r, x, scale, k);
    var l: int :| Steps(s, x, scale, l);
    SameStep(x, scale as real, k, l);
    SameMultiple(r, s, scale as real);
  }

  lemma RoundedIff(r: real, x: real, scale: int)
    requires scale > 0
    ensures Rounded(r, x, scale) <==> r == Quantize(x, scale)
  {
    QuantizeRounds(x, scale);
    if Rounded(r, x, scale) { RoundedOnce(r, Quantize(x, scale), x, scale); }
  }

  function Held(b: Book, subject: string): real {
    if subject in b.positions then b.positions[subject] else 0.0
  }

  function Paid(b: Book, subject: string): real {
    if subject in b.averagePrices then b.averagePrices[subject] else 0.0
  }

  /** What the policy lets the confidence risk: nothing up to one half, the whole share at one. */
  function Ambition(b: Book, policy: PaperRiskPolicy, s: PaperSignal): real {
    (b.cash + Held(b, s.subject) * s.observedPrice) * policy.maximumPositionFraction
    * (if s.confidence <= 0.5 then 0.0 else 2.0 * s.confidence - 1.0)
  }

  /** The position that a notional buys at a price in the direction of the signal. */
  ghost predicate IsTarget(t: real, direction: string, notional: real, price: real)
    requires price != 0.0
  {
    Rounded(t, if direction == "UP" then notional / price else -(notional / price), 100_000_000)
  }

  /** What closing a part of the position earns against its average price. */
  function Gain(held: real, average: real, quantity: real, price: real): real {
    if held > 0.0 && quantity < 0.0 then (if -quantity < held then -quantity else held) * (price - average)
    else if held < 0.0 && quantity > 0.0 then (if quantity < -held then quantity else -held) * (average - price)
    else 0.0
  }

  ghost predicate Permitted(b: Book, policy: PaperRiskPolicy, gate: PaperGateDecision, s: PaperSignal) {
    && gate.allowed && !policy.emergencyStop && (forall g :: g in b.fills ==> g.artifactId != s.artifactId)
    && s.subject in policy.allowedSubjects && (s.direction == "UP" || s.direction == "DOWN")
    && 0.0 <= s.confidence && s.confidence <= 1.0 && s.observedPrice > 0.0
    && s.requestedSlippageBps <= policy.maximumSlippageBps
    && b.dailyRealizedPnl > -(b.initialCash * policy.maximumDailyLossFraction)
  }

  /** A purchase costs more than the price observed, and a sale brings less, by so many hundredths of a percent. */
  predicate IsSlipped(price: real, observed: real, bps: real, buys: bool) {
    price == observed * (if buys then 1.0 + bps / 10000.0 else 1.0 - bps / 10000.0)
  }

  lemma SlippedIff(price: real, s: PaperSignal, side: Side)
    ensures IsSlipped(price, s.observedPrice, s.requestedSlippageBps, side == BUY) <==> price == SlippedPrice(s, side)
  {
  }

  /** The fill leads to the target at the slipped price; its label is that of the target before slippage. */
  ghost predicate LeadsToTarget(b: Book, s: PaperSignal, f: PaperFill, notional: real, plain: real)
    requires s.observedPrice > 0.0
  {
    var held := Held(b, s.subject);
    && IsTarget(plain, s.direction, notional, s.observedPrice) && plain != held
    && f.side == (if plain > held then BUY else SELL)
    && IsSlipped(f.fillPrice, s.observedPrice, s.requestedSlippageBps, plain > held) && f.fillPrice != 0.0
    && IsTarget(held + f.quantity, s.direction, notional, f.fillPrice) && f.quantity != 0.0
  }

  /** The fee is so many hundredths of a percent of the notional. */
  ghost predicate FeeIs(f: PaperFill, bps: real) {
    10000.0 * f.fee == bps * f.notional
  }

  /** Notional, fee and profit of the fill, and what the last two guards ask of them. */
  ghost predicate Affordable(b: Book, policy: PaperRiskPolicy, f: PaperFill) {
    var amount := f.quantity * f.fillPrice;
    && f.notional == (if amount < 0.0 then -amount else amount)
    && FeeIs(f, policy.feeBps)
    && f.realizedPnl == Gain(Held(b, f.subject), Paid(b, f.subject), f.quantity, f.fillPrice) - f.fee
    && b.dailyRealizedPnl + f.realizedPnl >= -(b.initialCash * policy.maximumDailyLossFraction)
    && b.cash - amount - f.fee >= 0.0
  }

  ghost predicate IsFill(b: Book, policy: PaperRiskPolicy, gate: PaperGateDecision, s: PaperSignal, f: PaperFill) {
    && Permitted(b, policy, gate, s) && f.artifactId == s.artifactId && f.subject == s.subject
    && (exists notional: real, plain: real ::
          Rounded(notional, Ambition(b, policy, s), 1_000_000) && notional > 0.0 && LeadsToTarget(b, s, f, notional, plain))
    && Affordable(b, policy, f)
  }

  lemma NotionalIff(b: Book, policy: PaperRiskPolicy, s: PaperSignal, notional: real)
    ensures Rounded(notional, Ambition(b, policy, s), 1_000_000) <==> notional == TargetNotional(b, policy, s)
  {
    RoundedIff(notional, Ambition(b, policy, s), 1_000_000);
    AmbitionIsScaledShare(b, policy, s);
  }

  lemma AmbitionIsScaledShare(b: Book, policy: PaperRiskPolicy, s: PaperSignal)
    ensures Ambition(b, policy, s) == Value(MaxNotional(b, policy, s), ConfidenceScale(s.confidence))
  {
    assert ConfidenceScale(s.confidence) == if s.confidence <= 0.5 then 0.0 else 2.0 * s.confidence - 1.0;
  }

  lemma TargetIff(t: real, direction: string, notional: real, price: real)
    requires price != 0.0
    ensures IsTarget(t, direction, notional, price) <==> t == TargetQuantity(direction, notional, price)
  {
    SignedQuotient(notional, price);
    SignOf(direction, notional);
    RoundedIff(t, Signed(direction, notional) / price, 100_000_000);
  }

  lemma SignedQuotient(notional: real, price: real)
    requires price != 0.0
    ensures -notional / price == -(notional / price)
  {
  }

  function Signed(direction: string, notional: real): real {
    if direction == "UP" then notional else -notional
  }

  lemma SignOf(direction: string, notional: real)
    ensures Sign(direction) * notional == Signed(direction, notional)
  {
  }

  lemma GainIsRealized(held: real, average: real, quantity: real, price: real)
    ensures Gain(held, average, quantity, price) == Realized(held, average, quantity, price)
  {
    SignRules(held, quantity);
    Negated(price - average, if Abs(quantity) < Abs(held) then Abs(quantity) else Abs(held));
  }

  lemma SizedIff(b: Book, policy: PaperRiskPolicy, s: PaperSignal, f: PaperFill)
    requires s.observedPrice > 0.0
    ensures (exists notional: real, plain: real ::
               Rounded(notional, Ambition(b, policy, s), 1_000_000) && notional > 0.0 && LeadsToTarget(b, s, f, notional, plain))
            <==> TargetNotional(b, policy, s) > 0.0 && IsQuoted(b, policy, s, f)
  {
    var target := TargetNotional(b, policy, s);
    if notional: real, plain: real :|
      Rounded(notional, Ambition(b, policy, s), 1_000_000) && notional > 0.0 && LeadsToTarget(b, s, f, notional, plain)
    {
      NotionalIff(b, policy, s, notional);
      LeadsIff(b, policy, s, f, plain);
    }
    if target > 0.0 && IsQuoted(b, policy, s, f) {
      NotionalIff(b, policy, s, target);
      LeadsIff(b, policy, s, f, TargetQuantity(s.direction, target, s.observedPrice));
    }
  }

  lemma LeadsIff(b: Book, policy: PaperRiskPolicy, s: PaperSignal, f: PaperFill, plain: real)
    requires s.observedPrice > 0.0
    ensures LeadsToTarget(b, s, f, TargetNotional(b, policy, s), plain) <==>
            plain == TargetQuantity(s.direction, TargetNotional(b, policy, s), s.observedPrice) && IsQuoted(b, policy, s, f)
  {
    var notional := TargetNotional(b, policy, s);
    SlippedIff(f.fillPrice, s, f.side);
    TargetIff(plain, s.direction, notional, s.observedPrice);
    if f.fillPrice != 0.0 { TargetIff(Held(b, s.subject) + f.quantity, s.direction, notional, f.fillPrice); }
  }

  /**
   * The engine decides for a fill exactly when the fill is permitted, leads to the target that the confidence justifies and
   * can be afforded, with the notional, the fee and the profit that follow from its price.
   */
  lemma DecidedIffFill(b: Book, policy: PaperRiskPolicy, gate: PaperGateDecision, s: PaperSignal, f: PaperFill)
    ensures Decide(b, policy, gate, s) == Success(f) <==> IsFill(b, policy, gate, s, f)
  {
    if Permitted(b, policy, gate, s) {
      SizedIff(b, policy, s, f);
      SizeIff(b, policy, s, f);
    }
  }

  lemma SizeIff(b: Book, policy: PaperRiskPolicy, s: PaperSignal, f: PaperFill)
    requires s.observedPrice > 0.0
    ensures Size(b, policy, s) == Success(f) <==>
            && TargetNotional(b, policy, s) > 0.0 && IsQuoted(b, policy, s, f) && Affordable(b, policy, f)
            && f.artifactId == s.artifactId && f.subject == s.subject
  {
    if Size(b, policy, s) == Success(f) { SizedFill(b, policy, s, f); }
    if TargetNotional(b, policy, s) > 0.0 && IsQuoted(b, policy, s, f) {
      assert Size(b, policy, s) == Check(b, policy, s, f.side, f.quantity, f.fillPrice);
      CheckIff(b, policy, s, f);
    }
  }

  lemma FeeIff(f: PaperFill, bps: real)
    ensures FeeIs(f, bps) <==> f.fee == Fee(f.notional, bps)
  {
  }

  /** The amounts are those of the price, and both guards let them pass. */
  ghost predicate Passes(b: Book, policy: PaperRiskPolicy, f: PaperFill, notional: real, gain: real) {
    && f.notional == notional && f.fee == Fee(notional, policy.feeBps) && f.realizedPnl == gain - f.fee
    && b.dailyRealizedPnl + f.realizedPnl >= -LossLimit(b, policy)
    && b.cash - f.quantity * f.fillPrice - f.fee >= 0.0
  }

  lemma CheckUnfolds(b: Book, policy: PaperRiskPolicy, s: PaperSignal, f: PaperFill)
    ensures Check(b, policy, s, f.side, f.quantity, f.fillPrice) == Success(f) <==>
            && f.artifactId == s.artifactId && f.subject == s.subject
            && Passes(b, policy, f, Abs(f.quantity * f.fillPrice), RealizedBeforeFee(b, s.subject, f.quantity, f.fillPrice))
  {
    var r := Check(b, policy, s, f.side, f.quantity, f.fillPrice);
    if r == Success(f) {
      assert f.artifactId == s.artifactId && f.subject == s.subject;
      assert f.notional == Abs(f.quantity * f.fillPrice);
      assert f.fee == Fee(f.notional, policy.feeBps);
      assert f.realizedPnl == RealizedBeforeFee(b, s.subject, f.quantity, f.fillPrice) - f.fee;
      assert b.dailyRealizedPnl + f.realizedPnl >= -LossLimit(b, policy);
      assert b.cash - f.quantity * f.fillPrice - f.fee >= 0.0;
    }
    if f.artifactId == s.artifactId && f.subject == s.subject
       && Passes(b, policy, f, Abs(f.quantity * f.fillPrice), RealizedBeforeFee(b, s.subject, f.quantity, f.fillPrice)) {
      assert r.Success?;
      assert r.value.notional == f.notional;
      assert r.value.fee == f.fee;
      assert r.value.realizedPnl == f.realizedPnl;
      assert r == Success(f);
    }
  }

  lemma AffordableIff(b: Book, policy: PaperRiskPolicy, f: PaperFill, notional: real, gain: real)
    requires notional == Abs(f.quantity * f.fillPrice)
    requires gain == Gain(Held(b, f.subject), Paid(b, f.subject), f.quantity, f.fillPrice)
    ensures Affordable(b, policy, f) <==> Passes(b, policy, f, notional, gain)
  {
    FeeIff(f, policy.feeBps);
  }

  lemma CheckIff(b: Book, policy: PaperRiskPolicy, s: PaperSignal, f: PaperFill)
    ensures Check(b, policy, s, f.side, f.quantity, f.fillPrice) == Success(f) <==>
            f.artifactId == s.artifactId && f.subject == s.subject && Affordable(b, policy, f)
  {
    CheckUnfolds(b, policy, s, f);
    if f.subject == s.subject {
      GainIsRealized(Held(b, f.subject), Paid(b, f.subject), f.quantity, f.fillPrice);
      AffordableIff(b, policy, f, Abs(f.quantity * f.fillPrice), RealizedBeforeFee(b, s.subject, f.quantity, f.fillPrice));
    }
  }

  /** The average price after a fill, by what the fill does to the position. */
  ghost predicate IsAverage(average: real, held: real, before: real, quantity: real, price: real) {
    var after := held + quantity;
    if after == 0.0 then average == 0.0
    else if (held >= 0.0 && quantity > 0.0) || (held <= 0.0 && quantity < 0.0) then average * after == held * before + quantity * price
    else if (held > 0.0 && after < 0.0) || (held < 0.0 && after > 0.0) then average == price
    else average == before
  }

  /** Booking pays for the fill and its fee, and changes the position of its subject only. */
  lemma BookedInNumbers(b: Book, f: PaperFill)
    ensures var after := Booked(b, f);
            && after.initialCash == b.initialCash && after.fills == b.fills + [f]
            && after.cash == b.cash - f.quantity * f.fillPrice - f.fee
            && after.dailyRealizedPnl == b.dailyRealizedPnl + f.realizedPnl
            && Held(after, f.subject) == Held(b, f.subject) + f.quantity
            && forall x :: x != f.subject ==> Held(after, x) == Held(b, x) && Paid(after, x) == Paid(b, x)
  {
  }

  /** The new average price weighs what is added, is the price after a flip, and nothing or the old one otherwise. */
  lemma BookedAverage(b: Book, f: PaperFill)
    ensures IsAverage(Paid(Booked(b, f), f.subject), Held(b, f.subject), Paid(b, f.subject), f.quantity, f.fillPrice)
  {
    AverageIs(Held(b, f.subject), Paid(b, f.subject), f.quantity, f.fillPrice);
    assert Paid(Booked(b, f), f.subject) == AverageAfter(Held(b, f.subject), Paid(b, f.subject), f.quantity, f.fillPrice);
  }

  lemma AverageIs(held: real, before: real, quantity: real, price: real)
    ensures IsAverage(AverageAfter(held, before, quantity, price), held, before, quantity, price)
  {
    SignRules(held, quantity);
    SignRules(held, held + quantity);
    if held + quantity != 0.0 && (held == 0.0 || held * quantity > 0.0) { AddingKeepsCost(held, before, quantity, price); }
  }

  ghost function Turnover(fills: seq<PaperFill>): real {
    if fills == [] then 0.0 else Turnover(fills[..|fills| - 1]) + fills[|fills| - 1].notional
  }

  /** What the traded quantities cost at their prices, sales counted against purchases. */
  ghost function Traded(fills: seq<PaperFill>): real {
    if fills == [] then 0.0 else Traded(fills[..|fills| - 1]) + fills[|fills| - 1].quantity * fills[|fills| - 1].fillPrice
  }

  /** What a book has spent beyond its trades is the fee rate on its turnover. */
  ghost predicate FeesPaid(b: Book, feeBps: real) {
    10000.0 * (b.initialCash - b.cash - Traded(b.fills)) == feeBps * Turnover(b.fills)
  }

  lemma FillPaysFee(b: Book, f: PaperFill, feeBps: real)
    requires FeesPaid(b, feeBps) && FeeIs(f, feeBps)
    ensures FeesPaid(Booked(b, f), feeBps)
  {
    var fills := Booked(b, f).fills;
    assert fills[..|fills| - 1] == b.fills;
    BookedInNumbers(b, f);
    assert feeBps * (Turnover(b.fills) + f.notional) == feeBps * Turnover(b.fills) + feeBps * f.notional;
  }

  lemma DecidedFee(b: Book, policy: PaperRiskPolicy, gate: PaperGateDecision, s: PaperSignal, f: PaperFill)
    requires Decide(b, policy, gate, s) == Success(f)
    ensures FeeIs(f, policy.feeBps)
  {
    DecidedIffFill(b, policy, gate, s, f);
  }

  lemma StepPaysFees(b: Book, policy: PaperRiskPolicy, gate: PaperGateDecision, s: PaperSignal)
    requires FeesPaid(b, policy.feeBps)
    ensures FeesPaid(Next(b, policy, gate, s), policy.feeBps)
  {
    match Decide(b, policy, gate, s)
    case Success(f) =>
      DecidedFee(b, policy, gate, s, f);
      FillPaysFee(b, f, policy.feeBps);
    case Failure(_) =>
  }

  lemma {:induction false} RunPaysFees(b: Book, policy: PaperRiskPolicy, gate: PaperGateDecision, signals: seq<PaperSignal>)
    requires FeesPaid(b, policy.feeBps)
    ensures FeesPaid(Run(b, policy, gate, signals), policy.feeBps)
    decreases |signals|
  {
    if signals != [] {
      StepPaysFees(b, policy, gate, signals[0]);
      RunPaysFees(Next(b, policy, gate, signals[0]), policy, gate, signals[1..]);
    }
  }

  /** From a fresh portfolio on, whatever the signals. */
  lemma FeesAreProportional(initialCash: real, policy: PaperRiskPolicy, gate: PaperGateDecision, signals: seq<PaperSignal>)
    ensures var b := Run(Fresh(initialCash), policy, gate, signals);
            FeesPaid(b, policy.feeBps) && b.initialCash == initialCash
  {
    FreshPaysNothing(initialCash, policy.feeBps);
    RunPaysFees(Fresh(initialCash), policy, gate, signals);
    RunKeepsInitialCash(Fresh(initialCash), policy, gate, signals);
  }

  lemma FreshPaysNothing(initialCash: real, feeBps: real)
    ensures FeesPaid(Fresh(initialCash), feeBps)
  {
  }

  lemma {:induction false} RunKeepsInitialCash(b: Book, policy: PaperRiskPolicy, gate: PaperGateDecision, signals: seq<PaperSignal>)
    ensures Run(b, policy, gate, signals).initialCash == b.initialCash
    decreases |signals|
  {
    if signals != [] { RunKeepsInitialCash(Next(b, policy, gate, signals[0]), policy, gate, signals[1..]); }
  }
}
