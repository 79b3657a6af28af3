/** What holds of the paper portfolio over every run of signals. */
module PaperLaws {
  import opened Schema
  import opened Paper
  import opened Reals

  function Next(b: Book, policy: PaperRiskPolicy, gate: PaperGateDecision, s: PaperSignal): Book {
    match Decide(b, policy, gate, s)
    case Success(f) => Booked(b, f)
    case Failure(_) => b
  }

  function Run(b: Book, policy: PaperRiskPolicy, gate: PaperGateDecision, signals: seq<PaperSignal>): Book
    decreases |signals|
  {
    if signals == [] then b
    else Run(Next(b, policy, gate, signals[0]), policy, gate, signals[1..])
  }

  function Fresh(initialCash: real): Book {
    Book(initialCash, initialCash, map[], map[], 0.0, [])
  }

  ghost function SumOver(keys: set<string>, g: string -> real): real {
    if keys == {} then 0.0
    else
      var k :| k in keys;
      g(k) + SumOver(keys - {k}, g)
  }

  lemma {:induction false} SumExtracts(keys: set<string>, g: string -> real, x: string)
    requires x in keys
    ensures SumOver(keys, g) == g(x) + SumOver(keys - {x}, g)
  {
    var k :| k in keys && SumOver(keys, g) == g(k) + SumOver(keys - {k}, g);
    if k != x {
      SumExtracts(keys - {k}, g, x);
      SumExtracts(keys - {x}, g, k);
      assert keys - {k} - {x} == keys - {x} - {k};
    }
  }

  lemma {:induction false} SumAgrees(keys: set<string>, g: string -> real, h: string -> real)
    requires forall k :: k in keys ==> g(k) == h(k)
    ensures SumOver(keys, g) == SumOver(keys, h)
  {
    if keys != {} {
      var k :| k in keys;
      SumExtracts(keys, g, k);
      SumExtracts(keys, h, k);
      SumAgrees(keys - {k}, g, h);
    }
  }

  ghost function AtCost(b: Book): string -> real {
    subject => Value(b.Position(subject), b.Average(subject))
  }

  /** The positions valued at their average prices. */
  ghost function CostBasis(b: Book): real {
    SumOver(b.positions.Keys, AtCost(b))
  }

  lemma CostBasisAfterFill(b: Book, f: PaperFill)
    ensures CostBasis(Booked(b, f)) == CostBasis(b) - AtCost(b)(f.subject) + AtCost(Booked(b, f))(f.subject)
  {
    var b' := Booked(b, f);
    var x := f.subject;
    var others := b.positions.Keys - {x};
    assert b'.positions.Keys - {x} == others;
    SumExtracts(b'.positions.Keys, AtCost(b'), x);
    SumAgrees(others, AtCost(b), AtCost(b'));
    if x in b.positions {
      SumExtracts(b.positions.Keys, AtCost(b), x);
    } else {
      assert b.positions.Keys == others;
    }
  }

  lemma SignRules(a: real, b: real)
    ensures a * b > 0.0 <==> (a > 0.0 && b > 0.0) || (a < 0.0 && b < 0.0)
    ensures a * b < 0.0 <==> (a > 0.0 && b < 0.0) || (a < 0.0 && b > 0.0)
  {
  }

  lemma QuotientTimes(x: real, d: real)
    requires d != 0.0
    ensures d * (x / d) == x
  {
  }

  /** Opening or adding: the weighted average absorbs the whole price of the trade. */
  lemma AddingKeepsCost(held: real, average: real, delta: real, price: real)
    requires held + delta != 0.0 && (held == 0.0 || held * delta > 0.0)
    ensures Value(held + delta, AverageAfter(held, average, delta, price)) == Value(held, average) + Value(delta, price)
  {
    SignRules(held, delta);
    var after := held + delta;
    var weighted := Abs(held) * average + Abs(delta) * price;
    QuotientTimes(weighted, Abs(after));
    if after < 0.0 {
      NegatedProducts(held, average);
      NegatedProducts(delta, price);
      NegatedProducts(after, weighted / Abs(after));
    }
  }

  lemma NegatedProducts(a: real, b: real)
    ensures (-a) * b == -(a * b)
  {
  }

  /** In every kind of trade, what the position costs changes by the price paid plus the profit realized. */
  lemma TradeKeepsCost(held: real, average: real, delta: real, price: real)
    ensures Value(held + delta, AverageAfter(held, average, delta, price))
         == Value(held, average) + Value(delta, price) + Realized(held, average, delta, price)
  {
    SignRules(held, delta);
    SignRules(held, held + delta);
    if held + delta != 0.0 && (held == 0.0 || held * delta > 0.0) {
      AddingKeepsCost(held, average, delta, price);
    } else if held != 0.0 && delta != 0.0 {
      ClosingKeepsCost(held, average, delta, price);
    }
  }

  /** Partial close, full close and flip. */
  lemma ClosingKeepsCost(held: real, average: real, delta: real, price: real)
    requires held * delta < 0.0
    ensures Value(held + delta, AverageAfter(held, average, delta, price))
         == Value(held, average) + Value(delta, price) + Realized(held, average, delta, price)
  {
    SignRules(held, delta);
    SignRules(held, held + delta);
    if Abs(delta) < Abs(held) {
      assert AverageAfter(held, average, delta, price) == average;
      RealizedOnPart(held, average, delta, price);
      PartAtCost(held, average, delta, price);
    } else {
      assert held + delta != 0.0 ==> AverageAfter(held, average, delta, price) == price;
      RealizedOnAll(held, average, delta, price);
      AllAtCost(held, average, delta, price);
    }
  }

  lemma RealizedOnPart(held: real, average: real, delta: real, price: real)
    requires held * delta < 0.0 && Abs(delta) < Abs(held)
    ensures Realized(held, average, delta, price) == -Value(delta, price - average)
  {
    SignRules(held, delta);
    NegatedProducts(delta, price - average);
  }

  lemma RealizedOnAll(held: real, average: real, delta: real, price: real)
    requires held * delta < 0.0 && Abs(delta) >= Abs(held)
    ensures Realized(held, average, delta, price) == Value(held, price - average)
  {
    SignRules(held, delta);
    NegatedProducts(held, price - average);
  }

  lemma PartAtCost(held: real, average: real, delta: real, price: real)
    ensures Value(held + delta, average) == Value(held, average) + Value(delta, price) - Value(delta, price - average)
  {
  }

  lemma AllAtCost(held: real, average: real, delta: real, price: real)
    ensures Value(held + delta, price) == Value(held, average) + Value(delta, price) + Value(held, price - average)
    ensures held + delta == 0.0 ==> Value(held + delta, 0.0) == Value(held + delta, price)
  {
  }

  /** Cash and positions at cost, less the profit already counted. */
  ghost function Principal(b: Book): real {
    b.cash + CostBasis(b) - b.dailyRealizedPnl
  }

  lemma SubjectAfterFill(b: Book, f: PaperFill)
    ensures Booked(b, f).Position(f.subject) == b.Position(f.subject) + f.quantity
    ensures Booked(b, f).Average(f.subject) == NewAverage(b, f.subject, f.quantity, f.fillPrice)
  {
  }

  lemma SubjectCostAfterFill(b: Book, f: PaperFill, held: real, average: real)
    requires held == b.Position(f.subject) && average == b.Average(f.subject)
    ensures AtCost(b)(f.subject) == Value(held, average)
    ensures AtCost(Booked(b, f))(f.subject) == Value(held + f.quantity, AverageAfter(held, average, f.quantity, f.fillPrice))
  {
    SubjectAfterFill(b, f);
  }

  lemma Balance(
    cash: real, basis: real, pnl: real, before: real, after: real, paid: real, realized: real, fee: real, cash': real,
    basis': real, pnl': real)
    requires after == before + paid + realized
    requires cash' == cash - (paid + fee) && basis' == basis - before + after && pnl' == pnl + (realized - fee)
    ensures cash' + basis' - pnl' == cash + basis - pnl
  {
  }

  lemma FillKeepsPrincipal(b: Book, f: PaperFill)
    requires f.realizedPnl == RealizedBeforeFee(b, f.subject, f.quantity, f.fillPrice) - f.fee
    ensures Principal(Booked(b, f)) == Principal(b)
  {
    var held, average := b.Position(f.subject), b.Average(f.subject);
    CostBasisAfterFill(b, f);
    SubjectCostAfterFill(b, f, held, average);
    TradeKeepsCost(held, average, f.quantity, f.fillPrice);
    Balance(b.cash, CostBasis(b), b.dailyRealizedPnl, AtCost(b)(f.subject), AtCost(Booked(b, f))(f.subject),
            Value(f.quantity, f.fillPrice), Realized(held, average, f.quantity, f.fillPrice), f.fee,
            Booked(b, f).cash, CostBasis(Booked(b, f)), Booked(b, f).dailyRealizedPnl);
  }

  lemma StepKeepsPrincipal(b: Book, policy: PaperRiskPolicy, gate: PaperGateDecision, s: PaperSignal)
    ensures Principal(Next(b, policy, gate, s)) == Principal(b)
  {
    if Decide(b, policy, gate, s).Success? {
      FillCarriesItsPnl(b, policy, gate, s);
      FillKeepsPrincipal(b, Decide(b, policy, gate, s).value);
    }
  }

  /** No sequence of signals, on any portfolio, changes the principal. */
  lemma {:induction false} RunKeepsPrincipal(b: Book, policy: PaperRiskPolicy, gate: PaperGateDecision, signals: seq<PaperSignal>)
    ensures Principal(Run(b, policy, gate, signals)) == Principal(b)
    decreases |signals|
  {
    if signals != [] {
      StepKeepsPrincipal(b, policy, gate, signals[0]);
      RunKeepsPrincipal(Next(b, policy, gate, signals[0]), policy, gate, signals[1..]);
    }
  }

  /** Cash plus positions at cost is initial cash plus realized profit, through opens, adds, closes and flips. */
  lemma Conservation(initialCash: real, policy: PaperRiskPolicy, gate: PaperGateDecision, signals: seq<PaperSignal>)
    ensures var b := Run(Fresh(initialCash), policy, gate, signals);
            b.cash + CostBasis(b) == initialCash + b.dailyRealizedPnl
  {
    RunKeepsPrincipal(Fresh(initialCash), policy, gate, signals);
  }

  ghost predicate FilledOnce(fills: seq<PaperFill>) {
    forall i, j :: 0 <= i < j < |fills| ==> fills[i].artifactId != fills[j].artifactId
  }

  /** Cash is never negative, an artifact fills at most once, and losses stop at the daily limit. */
  ghost predicate Safe(b: Book, policy: PaperRiskPolicy) {
    && b.cash >= 0.0
    && FilledOnce(b.fills)
    && (if b.fills == [] then b.dailyRealizedPnl == 0.0 else b.dailyRealizedPnl >= -LossLimit(b, policy))
  }

  lemma CoveredFillIsSafe(b: Book, policy: PaperRiskPolicy, f: PaperFill)
    requires Safe(b, policy) && IsCovered(b, policy, f) && forall g :: g in b.fills ==> g.artifactId != f.artifactId
    ensures Safe(Booked(b, f), policy)
  {
    OneMoreFill(b.fills, f);
    BookedBalances(b, policy, f);
  }

  lemma OneMoreFill(fills: seq<PaperFill>, f: PaperFill)
    requires FilledOnce(fills) && forall g :: g in fills ==> g.artifactId != f.artifactId
    ensures FilledOnce(fills + [f])
  {
  }

  lemma BookedBalances(b: Book, policy: PaperRiskPolicy, f: PaperFill)
    requires IsCovered(b, policy, f)
    ensures Booked(b, f).cash >= 0.0 && Booked(b, f).dailyRealizedPnl >= -LossLimit(Booked(b, f), policy)
  {
  }

  lemma FillIsCovered(b: Book, policy: PaperRiskPolicy, gate: PaperGateDecision, s: PaperSignal, f: PaperFill)
    requires Decide(b, policy, gate, s) == Success(f)
    ensures IsCovered(b, policy, f) && forall g :: g in b.fills ==> g.artifactId != f.artifactId
    ensures b.dailyRealizedPnl > -LossLimit(b, policy)
  {
    DecidedFill(b, policy, gate, s, f);
  }

  lemma StepKeepsSafe(b: Book, policy: PaperRiskPolicy, gate: PaperGateDecision, s: PaperSignal)
    requires Safe(b, policy)
    ensures Safe(Next(b, policy, gate, s), policy) && Next(b, policy, gate, s).initialCash == b.initialCash
  {
    match Decide(b, policy, gate, s)
    case Success(f) =>
      FillIsCovered(b, policy, gate, s, f);
      CoveredFillIsSafe(b, policy, f);
    case Failure(_) =>
  }

  lemma {:induction false} RunKeepsSafe(b: Book, policy: PaperRiskPolicy, gate: PaperGateDecision, signals: seq<PaperSignal>)
    requires Safe(b, policy)
    ensures Safe(Run(b, policy, gate, signals), policy) && Run(b, policy, gate, signals).initialCash == b.initialCash
    decreases |signals|
  {
    if signals != [] {
      StepKeepsSafe(b, policy, gate, signals[0]);
      RunKeepsSafe(Next(b, policy, gate, signals[0]), policy, gate, signals[1..]);
    }
  }

  /** Safety over every run of a fresh portfolio, whatever the policy. */
  lemma RunIsSafe(initialCash: real, policy: PaperRiskPolicy, gate: PaperGateDecision, signals: seq<PaperSignal>)
    requires initialCash > 0.0
    ensures Safe(Run(Fresh(initialCash), policy, gate, signals), policy)
  {
    RunKeepsSafe(Fresh(initialCash), policy, gate, signals);
  }

  lemma LossLimitIsNonnegative(b: Book, policy: PaperRiskPolicy)
    requires b.initialCash >= 0.0 && policy.maximumDailyLossFraction >= 0.0
    ensures LossLimit(b, policy) >= 0.0
  {
  }

  /** With a nonnegative loss fraction the daily loss never exceeds the limit. */
  lemma DailyLossIsBounded(initialCash: real, policy: PaperRiskPolicy, gate: PaperGateDecision, signals: seq<PaperSignal>)
    requires initialCash > 0.0 && policy.maximumDailyLossFraction >= 0.0
    ensures var b := Run(Fresh(initialCash), policy, gate, signals);
            b.initialCash == initialCash && b.dailyRealizedPnl >= -LossLimit(b, policy)
  {
    var b := Run(Fresh(initialCash), policy, gate, signals);
    RunKeepsSafe(Fresh(initialCash), policy, gate, signals);
    LossLimitIsNonnegative(b, policy);
  }

  /** Once the loss limit is reached, no later signal fills. */
  lemma {:induction false} LossBreakerIsPermanent(b: Book, policy: PaperRiskPolicy, gate: PaperGateDecision, signals: seq<PaperSignal>)
    requires b.dailyRealizedPnl <= -LossLimit(b, policy)
    ensures Run(b, policy, gate, signals) == b
    decreases |signals|
  {
    if signals != [] {
      LossBreakerTrips(b, policy, gate, signals[0]);
      LossBreakerIsPermanent(b, policy, gate, signals[1..]);
    }
  }

  lemma LossBreakerTrips(b: Book, policy: PaperRiskPolicy, gate: PaperGateDecision, s: PaperSignal)
    requires b.dailyRealizedPnl <= -LossLimit(b, policy)
    ensures Next(b, policy, gate, s) == b
  {
    if Decide(b, policy, gate, s).Success? {
      FillIsCovered(b, policy, gate, s, Decide(b, policy, gate, s).value);
    }
  }

  lemma QuantizeTruncates(x: real, scale: int)
    requires scale > 0
    ensures x >= 0.0 ==> 0.0 <= Quantize(x, scale) <= x
    ensures x <= 0.0 ==> x <= Quantize(x, scale) <= 0.0
  {
    RoundDownShrinks(if x < 0.0 then -x else x, scale);
  }

  lemma RoundDownShrinks(y: real, scale: int)
    requires y >= 0.0 && scale > 0
    ensures 0.0 <= RoundDown(y, scale) <= y
  {
    var k := scale as real;
    var n := Scaled(y, scale).Floor as real;
    assert 0.0 <= n <= Scaled(y, scale);
    QuotientTimes(n, k);
    assert k * (n / k) <= k * y;
  }

  lemma AbsTruncates(x: real, scale: int)
    requires scale > 0
    ensures Abs(Quantize(x, scale)) <= Abs(x)
  {
    QuantizeTruncates(x, scale);
  }

  /** A target never costs more than its notional, at any price. */
  lemma TargetCostsAtMostNotional(direction: string, notional: real, price: real)
    requires notional >= 0.0 && price != 0.0
    ensures Value(Abs(TargetQuantity(direction, notional, price)), Abs(price)) <= notional
  {
    var x := Sign(direction) * notional / price;
    AbsTruncates(x, QUANTITY_SCALE);
    AbsOfQuotient(Sign(direction), notional, price);
    ValueIsMonotone(Abs(TargetQuantity(direction, notional, price)), Abs(x), Abs(price));
  }

  lemma AbsOfQuotient(sign: real, notional: real, price: real)
    requires (sign == 1.0 || sign == -1.0) && notional >= 0.0 && price != 0.0
    ensures Value(Abs(sign * notional / price), Abs(price)) == notional
  {
    var x := sign * notional / price;
    QuotientTimes(sign * notional, price);
    assert price * x == sign * notional;
    SignRules(price, x);
    NegatedProducts(x, price);
    NegatedProducts(price, x);
    assert Value(Abs(x), Abs(price)) == Abs(price * x);
  }

  lemma ValueIsMonotone(a: real, b: real, price: real)
    requires a <= b && price >= 0.0
    ensures Value(a, price) <= Value(b, price)
  {
  }

  /** The notional is at most the policy's share of equity. */
  lemma NotionalWithinShare(b: Book, policy: PaperRiskPolicy, s: PaperSignal)
    requires 0.0 <= s.confidence <= 1.0 && TargetNotional(b, policy, s) > 0.0
    ensures TargetNotional(b, policy, s) <= MaxNotional(b, policy, s)
  {
    var share, scale := MaxNotional(b, policy, s), ConfidenceScale(s.confidence);
    QuantizeTruncates(Value(share, scale), NOTIONAL_SCALE);
    ScaledShare(share, scale);
  }

  lemma ScaledShare(share: real, scale: real)
    requires 0.0 <= scale <= 1.0 && Value(share, scale) > 0.0
    ensures Value(share, scale) <= share
  {
    SignRules(share, scale);
    ShareOfShare(share, 1.0 - scale);
  }

  lemma ShareOfShare(share: real, rest: real)
    requires share > 0.0 && rest >= 0.0
    ensures Value(share, 1.0 - rest) <= share
  {
    assert share * rest >= 0.0;
  }

  /** After a fill the position costs at most the allowed share of the equity before it, and has the signal's direction. */
  lemma FilledPositionIsBounded(b: Book, policy: PaperRiskPolicy, gate: PaperGateDecision, s: PaperSignal, f: PaperFill)
    requires Decide(b, policy, gate, s) == Success(f)
    ensures Value(Abs(Booked(b, f).Position(s.subject)), Abs(f.fillPrice))
         <= MaxNotional(b, policy, s)
    ensures f.fillPrice > 0.0 ==>
              if s.direction == "UP" then Booked(b, f).Position(s.subject) >= 0.0 else Booked(b, f).Position(s.subject) <= 0.0
  {
    DecidedFill(b, policy, gate, s, f);
    var notional := TargetNotional(b, policy, s);
    assert Booked(b, f).Position(s.subject) == TargetQuantity(s.direction, notional, f.fillPrice);
    TargetCostsAtMostNotional(s.direction, notional, f.fillPrice);
    NotionalWithinShare(b, policy, s);
    TargetHasDirection(s.direction, notional, f.fillPrice);
  }

  lemma TargetHasDirection(direction: string, notional: real, price: real)
    requires notional >= 0.0 && price != 0.0
    ensures price > 0.0 ==> if direction == "UP" then TargetQuantity(direction, notional, price) >= 0.0
                            else TargetQuantity(direction, notional, price) <= 0.0
  {
    if price > 0.0 {
      QuotientSign(notional, price);
      if direction == "UP" {
        QuantizeTruncates(1.0 * notional / price, QUANTITY_SCALE);
      } else {
        QuantizeTruncates(-1.0 * notional / price, QUANTITY_SCALE);
      }
    }
  }

  lemma QuantizeIsMonotoneBelowZero(x: real, y: real, scale: int)
    requires scale > 0 && x <= y <= 0.0
    ensures Quantize(x, scale) <= Quantize(y, scale)
  {
    if y < 0.0 {
      RoundDownIsMonotone(-y, -x, scale);
    } else {
      QuantizeTruncates(x, scale);
      QuantizeTruncates(y, scale);
    }
  }

  lemma RoundDownIsMonotone(a: real, b: real, scale: int)
    requires scale > 0 && 0.0 <= a <= b
    ensures RoundDown(a, scale) <= RoundDown(b, scale)
  {
    ScaledIsMonotone(a, b, scale);
    FloorIsMonotone(Scaled(a, scale), Scaled(b, scale));
    QuotientsCompare(Scaled(a, scale).Floor as real, Scaled(b, scale).Floor as real, scale as real);
  }

  lemma ScaledIsMonotone(a: real, b: real, scale: int)
    requires scale > 0 && a <= b
    ensures Scaled(a, scale) <= Scaled(b, scale)
  {
  }

  lemma FloorIsMonotone(u: real, v: real)
    requires u <= v
    ensures u.Floor <= v.Floor
  {
    assert u.Floor as real <= u;
    assert v < v.Floor as real + 1.0;
  }

  lemma QuotientsCompare(m: real, n: real, k: real)
    requires m <= n && k > 0.0
    ensures m / k <= n / k
  {
  }

  /** A short target moves up with the price. */
  lemma ShortTargetFollowsPrice(notional: real, low: real, high: real)
    requires notional >= 0.0 && 0.0 < low <= high
    ensures TargetQuantity("DOWN", notional, low) <= TargetQuantity("DOWN", notional, high)
  {
    var x, y := -1.0 * notional / low, -1.0 * notional / high;
    QuotientSign(notional, low);
    QuotientSign(notional, high);
    DenominatorsCompare(notional, low, high);
    QuantizeIsMonotoneBelowZero(x, y, QUANTITY_SCALE);
  }

  lemma DenominatorsCompare(notional: real, low: real, high: real)
    requires notional >= 0.0 && 0.0 < low <= high
    ensures -1.0 * notional / low <= -1.0 * notional / high
  {
    QuotientTimes(notional, low);
    QuotientTimes(notional, high);
    HigherPriceBuysLess(notional, low, high, notional / low, notional / high);
    NegatedQuotient(notional, low);
    NegatedQuotient(notional, high);
  }

  lemma NegatedQuotient(a: real, b: real)
    requires b > 0.0
    ensures -1.0 * a / b == -(a / b)
  {
  }

  lemma HigherPriceBuysLess(notional: real, low: real, high: real, u: real, v: real)
    requires notional >= 0.0 && 0.0 < low <= high && low * u == notional && high * v == notional
    ensures u >= v
  {
    assert v >= 0.0;
    assert (high - low) * v >= 0.0;
    assert low * (u - v) == (high - low) * v;
  }

  /**
   * The position lies strictly between the target at the observed price and the target at the slipped price it would trade
   * at, on the side of the latter.
   */
  predicate InSlippageBand(b: Book, policy: PaperRiskPolicy, s: PaperSignal)
    requires s.observedPrice > 0.0
  {
    var notional, current := TargetNotional(b, policy, s), b.Position(s.subject);
    var plain := TargetQuantity(s.direction, notional, s.observedPrice);
    || (current < plain && SlippedPrice(s, BUY) != 0.0 && TargetQuantity(s.direction, notional, SlippedPrice(s, BUY)) < current)
    || (plain < current && SlippedPrice(s, SELL) != 0.0 && current < TargetQuantity(s.direction, notional, SlippedPrice(s, SELL)))
  }

  /** For every signal the reported side is the sign of the traded quantity exactly when the position is outside the band. */
  lemma SideMatchesQuantityIffOutsideBand(b: Book, policy: PaperRiskPolicy, gate: PaperGateDecision, s: PaperSignal, f: PaperFill)
    requires Decide(b, policy, gate, s) == Success(f)
    ensures s.observedPrice > 0.0
    ensures (f.side == BUY <==> f.quantity > 0.0) <==> !InSlippageBand(b, policy, s)
  {
    DecidedFill(b, policy, gate, s, f);
  }

  lemma SlippedPricesBracket(s: PaperSignal)
    requires s.observedPrice > 0.0 && 0.0 <= s.requestedSlippageBps < 10000.0
    ensures 0.0 < SlippedPrice(s, SELL) <= s.observedPrice <= SlippedPrice(s, BUY)
  {
    var slip := s.requestedSlippageBps / 10000.0;
    assert 0.0 <= slip < 1.0;
    Slipped(s.observedPrice, slip);
  }

  lemma Slipped(price: real, slip: real)
    requires price > 0.0 && 0.0 <= slip < 1.0
    ensures 0.0 < price * (1.0 - slip) <= price <= price * (1.0 + slip)
  {
  }

  /** Slippage against the trader moves no short target to the other side of the position. */
  lemma ShortSideMatchesUnderAdverseSlippage(
    b: Book, policy: PaperRiskPolicy, gate: PaperGateDecision, s: PaperSignal, f: PaperFill)
    requires Decide(b, policy, gate, s) == Success(f) && s.direction == "DOWN" && 0.0 <= s.requestedSlippageBps < 10000.0
    ensures f.side == BUY <==> f.quantity > 0.0
  {
    SideMatchesQuantityIffOutsideBand(b, policy, gate, s, f);
    DecidedFill(b, policy, gate, s, f);
    SlippedPricesBracket(s);
    var notional := TargetNotional(b, policy, s);
    ShortTargetFollowsPrice(notional, SlippedPrice(s, SELL), s.observedPrice);
    ShortTargetFollowsPrice(notional, s.observedPrice, SlippedPrice(s, BUY));
  }

  const LOOSE_POLICY := PaperRiskPolicy({"X"}, 1.0, 1.0, 50.0, 0.0, false)
  const OPEN_GATE := PaperGateDecision(true, [])

  /** What a first signal at price 1 leaves of a fresh portfolio of 1000: a position of 999 in its direction. */
  function Opened(direction: string): Book {
    var quantity := if direction == "UP" then 999.0 else -999.0;
    var side := if direction == "UP" then BUY else SELL;
    Book(1000.0, 1000.0 - quantity, map["X" := quantity], map["X" := 1.0], 0.0, [
      PaperFill("first", "X", side, quantity, 1.0, 999.0, 0.0, 0.0)])
  }

  ghost predicate Admitted(b: Book, s: PaperSignal) {
    && (forall f :: f in b.fills ==> f.artifactId != s.artifactId) && s.subject == "X" && s.direction in {"UP", "DOWN"}
    && 0.0 <= s.confidence <= 1.0 && s.observedPrice > 0.0 && s.requestedSlippageBps <= 50.0 && b.dailyRealizedPnl > -b.initialCash
  }

  lemma LooseLimit(b: Book)
    ensures LossLimit(b, LOOSE_POLICY) == b.initialCash
  {
  }

  lemma AdmittedIsSized(b: Book, s: PaperSignal)
    requires Admitted(b, s)
    ensures Decide(b, LOOSE_POLICY, OPEN_GATE, s) == Size(b, LOOSE_POLICY, s)
  {
    LooseLimit(b);
  }

  /** A decision whose numbers are known: the notional, the targets before and after slippage, and the price. */
  lemma DecidesBy(b: Book, s: PaperSignal, notional: real, plain: real, side: Side, price: real, target: real)
    requires Admitted(b, s) && TargetNotional(b, LOOSE_POLICY, s) == notional > 0.0
    requires TargetQuantity(s.direction, notional, s.observedPrice) == plain && SlippedPrice(s, side) == price != 0.0
    requires TargetQuantity(s.direction, notional, price) == target
    requires plain != b.Position("X") && target != b.Position("X") && (side == BUY <==> plain > b.Position("X"))
    ensures Decide(b, LOOSE_POLICY, OPEN_GATE, s) == Check(b, LOOSE_POLICY, s, side, target - b.Position("X"), price)
  {
    AdmittedIsSized(b, s);
    SizedBy(b, s, notional, plain, side, price, target);
  }

  lemma SizedBy(b: Book, s: PaperSignal, notional: real, plain: real, side: Side, price: real, target: real)
    requires s.subject == "X" && s.observedPrice > 0.0 && TargetNotional(b, LOOSE_POLICY, s) == notional > 0.0
    requires TargetQuantity(s.direction, notional, s.observedPrice) == plain && SlippedPrice(s, side) == price != 0.0
    requires TargetQuantity(s.direction, notional, price) == target
    requires plain != b.Position("X") && target != b.Position("X") && (side == BUY <==> plain > b.Position("X"))
    ensures Size(b, LOOSE_POLICY, s) == Check(b, LOOSE_POLICY, s, side, target - b.Position("X"), price)
  {
  }

  lemma WholeIsKept(n: int, scale: int)
    requires scale > 0
    ensures RoundDown(n as real, scale) == n as real
  {
    assert Scaled(n as real, scale) == (n * scale) as real;
  }

  lemma NotionalBy(b: Book, s: PaperSignal, most: real, scale: real, n: nat)
    requires MaxNotional(b, LOOSE_POLICY, s) == most && ConfidenceScale(s.confidence) == scale && Value(most, scale) == n as real
    ensures TargetNotional(b, LOOSE_POLICY, s) == n as real
  {
    WholeIsKept(n, NOTIONAL_SCALE);
  }

  lemma MostOfFresh(s: PaperSignal)
    requires s.observedPrice == 1.0
    ensures MaxNotional(Fresh(1000.0), LOOSE_POLICY, s) == 1000.0
  {
  }

  lemma FirstNotional(s: PaperSignal)
    requires s.confidence == 0.9995 && s.observedPrice == 1.0
    ensures TargetNotional(Fresh(1000.0), LOOSE_POLICY, s) == 999.0
  {
    MostOfFresh(s);
    NotionalBy(Fresh(1000.0), s, 1000.0, 0.999, 999);
  }

  lemma FirstTarget(direction: string)
    ensures TargetQuantity(direction, 999.0, 1.0) == if direction == "UP" then 999.0 else -999.0
  {
    WholeIsKept(999, QUANTITY_SCALE);
  }

  lemma FirstSignalOpens(direction: string, s: PaperSignal)
    requires direction in {"UP", "DOWN"} && s == PaperSignal("first", "X", direction, 0.9995, 1.0, 0.0)
    ensures Run(Fresh(1000.0), LOOSE_POLICY, OPEN_GATE, [s]) == Opened(direction)
  {
    if direction == "UP" {
      FirstLongDecides(s);
      FirstIsBooked(s, BUY, 999.0);
      RunOfOne(Fresh(1000.0), s, Check(Fresh(1000.0), LOOSE_POLICY, s, BUY, 999.0, 1.0).value, Opened("UP"));
    } else {
      FirstShortDecides(s);
      FirstIsBooked(s, SELL, -999.0);
      RunOfOne(Fresh(1000.0), s, Check(Fresh(1000.0), LOOSE_POLICY, s, SELL, -999.0, 1.0).value, Opened("DOWN"));
    }
  }

  lemma UnslippedPrice(s: PaperSignal, side: Side)
    requires s.requestedSlippageBps == 0.0
    ensures SlippedPrice(s, side) == s.observedPrice
  {
  }

  lemma FreshHoldsNothing(b: Book)
    requires b == Fresh(1000.0)
    ensures b.Position("X") == 0.0 && b.fills == [] && b.dailyRealizedPnl > -b.initialCash
  {
  }

  lemma FirstDecides(b: Book, s: PaperSignal, side: Side, target: real)
    requires b == Fresh(1000.0) && Admitted(b, s) && s.confidence == 0.9995 && s.observedPrice == 1.0 && s.requestedSlippageBps == 0.0
    requires TargetQuantity(s.direction, 999.0, 1.0) == target != 0.0 && (side == BUY <==> target > 0.0)
    ensures Decide(b, LOOSE_POLICY, OPEN_GATE, s) == Check(b, LOOSE_POLICY, s, side, target, 1.0)
  {
    FreshHoldsNothing(b);
    FirstNotional(s);
    UnslippedPrice(s, side);
    DecidesBy(b, s, 999.0, target, side, 1.0, target);
  }

  lemma FirstLongDecides(s: PaperSignal)
    requires s == PaperSignal("first", "X", "UP", 0.9995, 1.0, 0.0)
    ensures Decide(Fresh(1000.0), LOOSE_POLICY, OPEN_GATE, s) == Check(Fresh(1000.0), LOOSE_POLICY, s, BUY, 999.0, 1.0)
  {
    FreshHoldsNothing(Fresh(1000.0));
    FirstTarget(s.direction);
    FirstDecides(Fresh(1000.0), s, BUY, 999.0);
  }

  lemma FirstShortDecides(s: PaperSignal)
    requires s == PaperSignal("first", "X", "DOWN", 0.9995, 1.0, 0.0)
    ensures Decide(Fresh(1000.0), LOOSE_POLICY, OPEN_GATE, s) == Check(Fresh(1000.0), LOOSE_POLICY, s, SELL, -999.0, 1.0)
  {
    FreshHoldsNothing(Fresh(1000.0));
    FirstTarget(s.direction);
    FirstDecides(Fresh(1000.0), s, SELL, -999.0);
  }

  lemma RunOfOne(b: Book, s: PaperSignal, f: PaperFill, after: Book)
    requires Decide(b, LOOSE_POLICY, OPEN_GATE, s) == Success(f) && Booked(b, f) == after
    ensures Run(b, LOOSE_POLICY, OPEN_GATE, [s]) == after
  {
    assert [s][1..] == [];
  }

  lemma OpeningAverage(average: real, delta: real, price: real)
    requires delta != 0.0
    ensures AverageAfter(0.0, average, delta, price) == price
  {
    QuotientTimes(Abs(delta) * price, Abs(delta));
    SameProduct(Abs(delta), Abs(delta) * price / Abs(delta), price);
  }

  lemma SameProduct(k: real, x: real, y: real)
    requires k > 0.0 && k * x == k * y
    ensures x == y
  {
    assert k * (x - y) == 0.0;
  }

  lemma FirstIsBooked(s: PaperSignal, side: Side, quantity: real)
    requires s.artifactId == "first" && s.subject == "X"
    requires (quantity == 999.0 && side == BUY) || (quantity == -999.0 && side == SELL)
    ensures Check(Fresh(1000.0), LOOSE_POLICY, s, side, quantity, 1.0).Success?
    ensures Booked(Fresh(1000.0), Check(Fresh(1000.0), LOOSE_POLICY, s, side, quantity, 1.0).value)
            == Opened(if side == BUY then "UP" else "DOWN")
  {
    var fill := PaperFill("first", "X", side, quantity, 1.0, 999.0, 0.0, 0.0);
    FirstPasses(s, side, quantity, fill);
    OpeningAverage(0.0, quantity, 1.0);
  }

  lemma FirstPasses(s: PaperSignal, side: Side, quantity: real, fill: PaperFill)
    requires s.artifactId == "first" && s.subject == "X" && (quantity == 999.0 || quantity == -999.0)
    requires fill == PaperFill("first", "X", side, quantity, 1.0, 999.0, 0.0, 0.0)
    ensures Check(Fresh(1000.0), LOOSE_POLICY, s, side, quantity, 1.0) == Success(fill)
  {
  }

  lemma FullTarget(direction: string, slippage: real)
    requires direction in {"UP", "DOWN"}
    ensures TargetNotional(Opened(direction), LOOSE_POLICY, PaperSignal("second", "X", direction, 1.0, 1.0, slippage)) == 1000.0
  {
    var b, s := Opened(direction), PaperSignal("second", "X", direction, 1.0, 1.0, slippage);
    assert MaxNotional(b, LOOSE_POLICY, s) == 1000.0 && ConfidenceScale(1.0) == 1.0 && Value(1000.0, 1.0) == 1000.0;
    assert RoundDown(1000.0, NOTIONAL_SCALE) == 1000.0;
  }

  /** The targets of 1000 at the prices 1 and 1.005. */
  lemma SlippedTargets()
    ensures TargetQuantity("UP", 1000.0, 1.0) == 1000.0 && TargetQuantity("DOWN", 1000.0, 1.0) == -1000.0
    ensures TargetQuantity("UP", 1000.0, 1.005) == 995.02487562 && TargetQuantity("DOWN", 1000.0, 1.005) == -995.02487562
  {
    assert 99502487562.0 <= 1000.0 / 1.005 * 100000000.0 < 99502487563.0;
    assert RoundDown(1000.0 / 1.005, QUANTITY_SCALE) == 995.02487562;
    assert RoundDown(1000.0, QUANTITY_SCALE) == 1000.0;
    assert -(-1000.0 / 1.005) == 1000.0 / 1.005;
  }

  lemma SecondPasses(direction: string, s: PaperSignal, side: Side, quantity: real)
    requires (direction == "UP" && quantity == -3.97512438) || (direction == "DOWN" && quantity == 3.97512438)
    requires s.subject == "X"
    ensures Check(Opened(direction), LOOSE_POLICY, s, side, quantity, 1.005).Success?
    ensures var fill := Check(Opened(direction), LOOSE_POLICY, s, side, quantity, 1.005).value; fill.side == side && fill.quantity == quantity
  {
  }

  lemma SecondDecides(direction: string, s: PaperSignal, side: Side, quantity: real)
    requires (direction == "UP" && s == PaperSignal("second", "X", "UP", 1.0, 1.0, 50.0) && side == BUY && quantity == -3.97512438)
             || (direction == "DOWN" && s == PaperSignal("second", "X", "DOWN", 1.0, 1.0, -50.0) && side == SELL && quantity == 3.97512438)
    ensures Decide(Opened(direction), LOOSE_POLICY, OPEN_GATE, s) == Check(Opened(direction), LOOSE_POLICY, s, side, quantity, 1.005)
  {
    FullTarget(direction, s.requestedSlippageBps);
    SlippedTargets();
    assert SlippedPrice(s, side) == 1.005;
    var sign := if direction == "UP" then 1.0 else -1.0;
    DecidesBy(Opened(direction), s, 1000.0, sign * 1000.0, side, 1.005, sign * 995.02487562);
  }

  /** Two signals on a fresh portfolio, the second of which is filled with the label BUY and sells. */
  lemma BuyThatSells()
    ensures var b := Run(Fresh(1000.0), LOOSE_POLICY, OPEN_GATE, [PaperSignal("first", "X", "UP", 0.9995, 1.0, 0.0)]);
            var r := Decide(b, LOOSE_POLICY, OPEN_GATE, PaperSignal("second", "X", "UP", 1.0, 1.0, 50.0));
            r.Success? && r.value.side == BUY && r.value.quantity < 0.0
  {
    FirstSignalOpens("UP", PaperSignal("first", "X", "UP", 0.9995, 1.0, 0.0));
    var s := PaperSignal("second", "X", "UP", 1.0, 1.0, 50.0);
    SecondDecides("UP", s, BUY, -3.97512438);
    SecondPasses("UP", s, BUY, -3.97512438);
  }

  /** A negative slippage passes the limit, and a short signal with one is filled with the label SELL and buys. */
  lemma SellThatBuys()
    ensures var b := Run(Fresh(1000.0), LOOSE_POLICY, OPEN_GATE, [PaperSignal("first", "X", "DOWN", 0.9995, 1.0, 0.0)]);
            var r := Decide(b, LOOSE_POLICY, OPEN_GATE, PaperSignal("second", "X", "DOWN", 1.0, 1.0, -50.0));
            r.Success? && r.value.side == SELL && r.value.quantity > 0.0
  {
    FirstSignalOpens("DOWN", PaperSignal("first", "X", "DOWN", 0.9995, 1.0, 0.0));
    var s := PaperSignal("second", "X", "DOWN", 1.0, 1.0, -50.0);
    SecondDecides("DOWN", s, SELL, 3.97512438);
    SecondPasses("DOWN", s, SELL, 3.97512438);
  }

  ghost function LedgerQuantity(fills: seq<PaperFill>, subject: string): real {
    if fills == [] then 0.0
    else
      var last := fills[|fills| - 1];
      LedgerQuantity(fills[..|fills| - 1], subject) + if last.subject == subject then last.quantity else 0.0
  }

  ghost function LedgerOutlay(fills: seq<PaperFill>): real {
    if fills == [] then 0.0
    else
      var last := fills[|fills| - 1];
      LedgerOutlay(fills[..|fills| - 1]) + (last.quantity * last.fillPrice + last.fee)
  }

  ghost function LedgerPnl(fills: seq<PaperFill>): real {
    if fills == [] then 0.0 else LedgerPnl(fills[..|fills| - 1]) + fills[|fills| - 1].realizedPnl
  }

  /** Every balance can be recomputed from the list of fills alone. */
  ghost predicate Reconciled(b: Book) {
    && (forall subject :: b.Position(subject) == LedgerQuantity(b.fills, subject))
    && b.cash == b.initialCash - LedgerOutlay(b.fills)
    && b.dailyRealizedPnl == LedgerPnl(b.fills)
  }

  lemma FillKeepsReconciled(b: Book, f: PaperFill)
    requires Reconciled(b)
    ensures Reconciled(Booked(b, f))
  {
    var fills := Booked(b, f).fills;
    assert fills[..|fills| - 1] == b.fills;
    forall subject ensures Booked(b, f).Position(subject) == LedgerQuantity(fills, subject) {
      assert b.Position(subject) == LedgerQuantity(b.fills, subject);
    }
  }

  lemma {:induction false} RunReconciles(b: Book, policy: PaperRiskPolicy, gate: PaperGateDecision, signals: seq<PaperSignal>)
    requires Reconciled(b)
    ensures Reconciled(Run(b, policy, gate, signals))
    decreases |signals|
  {
    if signals != [] {
      match Decide(b, policy, gate, signals[0]) {
        case Success(f) => FillKeepsReconciled(b, f);
        case Failure(_) =>
      }
      RunReconciles(Next(b, policy, gate, signals[0]), policy, gate, signals[1..]);
    }
  }
}
