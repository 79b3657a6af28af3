/** Paper trading: sizing, fills and accounting in exact arithmetic. */
module Paper {
  import opened Schema

  datatype PaperGateDecision = PaperGateDecision(allowed: bool, reasons: seq<string>)

  datatype PaperRiskPolicy = PaperRiskPolicy(
    allowedSubjects: set<string>,
    maximumPositionFraction: real,
    maximumDailyLossFraction: real,
    maximumSlippageBps: real,
    feeBps: real,
    emergencyStop: bool)

  datatype PaperSignal = PaperSignal(
    artifactId: Id,
    subject: string,
    direction: string,
    confidence: real,
    observedPrice: real,
    requestedSlippageBps: real)

  datatype Side = BUY | SELL

  datatype PaperFill = PaperFill(
    artifactId: Id,
    subject: string,
    side: Side,
    quantity: real,
    fillPrice: real,
    notional: real,
    fee: real,
    realizedPnl: real)

  datatype Rejection =
    | GateClosed | EmergencyStop | DuplicateArtifact | SubjectNotAllowed | BadDirection | BadConfidence | BadPrice
    | SlippageExceeded | DailyLossReached | ConfidenceTooLow | AlreadyAtTarget | DivisionByZero | WouldExceedDailyLoss
    | InsufficientCash

  /** The values of a portfolio's fields. */
  datatype Book = Book(
    initialCash: real,
    cash: real,
    positions: map<string, real>,
    averagePrices: map<string, real>,
    dailyRealizedPnl: real,
    fills: seq<PaperFill>)
  {
    function Position(subject: string): real {
      if subject in positions then positions[subject] else 0.0
    }

    function Average(subject: string): real {
      if subject in averagePrices then averagePrices[subject] else 0.0
    }
  }

  function Abs(x: real): real {
    if x < 0.0 then -x else x
  }

  function Scaled(x: real, scale: int): real {
    x * scale as real
  }

  function RoundDown(x: real, scale: int): real
    requires scale > 0
  {
    Scaled(x, scale).Floor as real / scale as real
  }

  /** Rounding toward zero to a multiple of 1/scale. */
  function Quantize(x: real, scale: int): real
    requires scale > 0
  {
    if x < 0.0 then -RoundDown(-x, scale) else RoundDown(x, scale)
  }

  const NOTIONAL_SCALE := 1_000_000
  const QUANTITY_SCALE := 100_000_000

  function Value(quantity: real, price: real): real {
    quantity * price
  }

  /** Cash plus the position in the signal's subject; positions in other subjects are not priced. */
  function Equity(b: Book, subject: string, price: real): real {
    b.cash + b.Position(subject) * price
  }

  /** The profit realized by the closing part of a trade against a position and its average price. */
  function Realized(held: real, average: real, delta: real, price: real): real {
    if held == 0.0 || held * delta >= 0.0 then 0.0
    else
      var closing := if Abs(delta) < Abs(held) then Abs(delta) else Abs(held);
      var direction := if held > 0.0 then 1.0 else -1.0;
      closing * (price - average) * direction
  }

  /** The average price after a trade: none, a weighted average, the new price after a flip, or the old average. */
  function AverageAfter(held: real, average: real, delta: real, price: real): real {
    var after := held + delta;
    if after == 0.0 then 0.0
    else if held == 0.0 || held * delta > 0.0 then (Abs(held) * average + Abs(delta) * price) / Abs(after)
    else if held * after < 0.0 then price
    else average
  }

  function RealizedBeforeFee(b: Book, subject: string, delta: real, price: real): real {
    Realized(b.Position(subject), b.Average(subject), delta, price)
  }

  function NewAverage(b: Book, subject: string, delta: real, price: real): real {
    AverageAfter(b.Position(subject), b.Average(subject), delta, price)
  }

  function LossLimit(b: Book, policy: PaperRiskPolicy): real {
    b.initialCash * policy.maximumDailyLossFraction
  }

  function Sign(direction: string): real {
    if direction == "UP" then 1.0 else -1.0
  }

  function MaxNotional(b: Book, policy: PaperRiskPolicy, s: PaperSignal): real {
    Equity(b, s.subject, s.observedPrice) * policy.maximumPositionFraction
  }

  function ConfidenceScale(confidence: real): real {
    var scaled := (confidence - 0.5) * 2.0;
    if 0.0 > scaled then 0.0 else scaled
  }

  /** The notional that the signal's confidence justifies. */
  function TargetNotional(b: Book, policy: PaperRiskPolicy, s: PaperSignal): real {
    Quantize(Value(MaxNotional(b, policy, s), ConfidenceScale(s.confidence)), NOTIONAL_SCALE)
  }

  /** The signed position that a notional buys at a price. */
  function TargetQuantity(direction: string, notional: real, price: real): real
    requires price != 0.0
  {
    Quantize(Sign(direction) * notional / price, QUANTITY_SCALE)
  }

  function SlippedPrice(s: PaperSignal, side: Side): real {
    var slip := s.requestedSlippageBps / 10000.0;
    s.observedPrice * (if side == BUY then 1.0 + slip else 1.0 - slip)
  }

  /** All checks and all sizing, in the engine's order; what passes is the fill to book. */
  function Decide(b: Book, policy: PaperRiskPolicy, gate: PaperGateDecision, s: PaperSignal): Result<PaperFill, Rejection> {
    if !gate.allowed then Failure(GateClosed)
    else if policy.emergencyStop then Failure(EmergencyStop)
    else if exists f :: f in b.fills && f.artifactId == s.artifactId then Failure(DuplicateArtifact)
    else if s.subject !in policy.allowedSubjects then Failure(SubjectNotAllowed)
    else if s.direction !in {"UP", "DOWN"} then Failure(BadDirection)
    else if !(0.0 <= s.confidence <= 1.0) then Failure(BadConfidence)
    else if s.observedPrice <= 0.0 then Failure(BadPrice)
    else if s.requestedSlippageBps > policy.maximumSlippageBps then Failure(SlippageExceeded)
    else if b.dailyRealizedPnl <= -LossLimit(b, policy) then Failure(DailyLossReached)
    else Size(b, policy, s)
  }

  function Size(b: Book, policy: PaperRiskPolicy, s: PaperSignal): Result<PaperFill, Rejection>
    requires s.observedPrice > 0.0
  {
    var targetNotional := TargetNotional(b, policy, s);
    if targetNotional <= 0.0 then Failure(ConfidenceTooLow)
    else
      var current := b.Position(s.subject);
      var preliminaryDelta := TargetQuantity(s.direction, targetNotional, s.observedPrice) - current;
      if preliminaryDelta == 0.0 then Failure(AlreadyAtTarget)
      else
        var side := if preliminaryDelta > 0.0 then BUY else SELL;
        var fillPrice := SlippedPrice(s, side);
        if fillPrice == 0.0 then Failure(DivisionByZero)
        else
          var quantity := TargetQuantity(s.direction, targetNotional, fillPrice) - current;
          if quantity == 0.0 then Failure(AlreadyAtTarget)
          else Check(b, policy, s, side, quantity, fillPrice)
  }

  function Fee(notional: real, feeBps: real): real {
    notional * feeBps / 10000.0
  }

  function Check(b: Book, policy: PaperRiskPolicy, s: PaperSignal, side: Side, quantity: real, fillPrice: real)
    : Result<PaperFill, Rejection>
  {
    var notional := Abs(quantity * fillPrice);
    var fee := Fee(notional, policy.feeBps);
    var realized := RealizedBeforeFee(b, s.subject, quantity, fillPrice) - fee;
    if b.dailyRealizedPnl + realized < -LossLimit(b, policy) then Failure(WouldExceedDailyLoss)
    else if b.cash - quantity * fillPrice - fee < 0.0 then Failure(InsufficientCash)
    else Success(PaperFill(s.artifactId, s.subject, side, quantity, fillPrice, notional, fee, realized))
  }

  /** The book after a fill. */
  function Booked(b: Book, f: PaperFill): Book {
    b.(cash := b.cash - (Value(f.quantity, f.fillPrice) + f.fee),
       positions := b.positions[f.subject := b.Position(f.subject) + f.quantity],
       averagePrices := b.averagePrices[f.subject := NewAverage(b, f.subject, f.quantity, f.fillPrice)],
       dailyRealizedPnl := b.dailyRealizedPnl + f.realizedPnl,
       fills := b.fills + [f])
  }

  /** Everything that is known of a fill that passed the checks. */
  ghost predicate IsFillFor(b: Book, policy: PaperRiskPolicy, s: PaperSignal, f: PaperFill) {
    && f.artifactId == s.artifactId && f.subject == s.subject
    && (forall g :: g in b.fills ==> g.artifactId != s.artifactId)
    && s.direction in {"UP", "DOWN"} && 0.0 <= s.confidence <= 1.0 && s.observedPrice > 0.0
    && TargetNotional(b, policy, s) > 0.0
    && IsQuoted(b, policy, s, f)
    && b.dailyRealizedPnl > -LossLimit(b, policy)
    && IsCovered(b, policy, f)
  }

  ghost predicate IsQuoted(b: Book, policy: PaperRiskPolicy, s: PaperSignal, f: PaperFill)
    requires s.observedPrice > 0.0
  {
    var notional := TargetNotional(b, policy, s);
    var current := b.Position(s.subject);
    var unslipped := TargetQuantity(s.direction, notional, s.observedPrice);
    && unslipped != current
    && f.side == (if unslipped > current then BUY else SELL)
    && f.fillPrice == SlippedPrice(s, f.side) && f.fillPrice != 0.0
    && f.quantity == TargetQuantity(s.direction, notional, f.fillPrice) - current && f.quantity != 0.0
  }

  /** What the last two guards established. */
  ghost predicate IsCovered(b: Book, policy: PaperRiskPolicy, f: PaperFill) {
    && f.realizedPnl == RealizedBeforeFee(b, f.subject, f.quantity, f.fillPrice) - f.fee
    && b.dailyRealizedPnl + f.realizedPnl >= -LossLimit(b, policy)
    && b.cash - f.quantity * f.fillPrice - f.fee >= 0.0
  }

  lemma CheckedFill(b: Book, policy: PaperRiskPolicy, s: PaperSignal, side: Side, quantity: real, price: real, f: PaperFill)
    requires Check(b, policy, s, side, quantity, price) == Success(f)
    ensures f.artifactId == s.artifactId && f.subject == s.subject
    ensures f.side == side && f.quantity == quantity && f.fillPrice == price
    ensures IsCovered(b, policy, f)
  {
  }

  lemma SizedFill(b: Book, policy: PaperRiskPolicy, s: PaperSignal, f: PaperFill)
    requires s.observedPrice > 0.0 && Size(b, policy, s) == Success(f)
    ensures f.artifactId == s.artifactId && f.subject == s.subject
    ensures TargetNotional(b, policy, s) > 0.0 && IsQuoted(b, policy, s, f) && IsCovered(b, policy, f)
  {
    var notional := TargetNotional(b, policy, s);
    var current := b.Position(s.subject);
    var side := if TargetQuantity(s.direction, notional, s.observedPrice) - current > 0.0 then BUY else SELL;
    var price := SlippedPrice(s, side);
    CheckedFill(b, policy, s, side, TargetQuantity(s.direction, notional, price) - current, price, f);
  }

  lemma DecidedFill(b: Book, policy: PaperRiskPolicy, gate: PaperGateDecision, s: PaperSignal, f: PaperFill)
    requires Decide(b, policy, gate, s) == Success(f)
    ensures IsFillFor(b, policy, s, f) && gate.allowed && !policy.emergencyStop
  {
    SizedFill(b, policy, s, f);
  }

  lemma FillCarriesItsPnl(b: Book, policy: PaperRiskPolicy, gate: PaperGateDecision, s: PaperSignal)
    requires Decide(b, policy, gate, s).Success?
    ensures var f := Decide(b, policy, gate, s).value;
            f.subject == s.subject && f.realizedPnl == RealizedBeforeFee(b, f.subject, f.quantity, f.fillPrice) - f.fee
  {
    DecidedFill(b, policy, gate, s, Decide(b, policy, gate, s).value);
  }

  class PaperPortfolio {
    const initialCash: real
    var cash: real
    var positions: map<string, real>
    var averagePrices: map<string, real>
    var dailyRealizedPnl: real
    var fills: seq<PaperFill>

    function Contents(): Book
      reads this
    {
      Book(initialCash, cash, positions, averagePrices, dailyRealizedPnl, fills)
    }

    constructor (initialCash: real)
      requires initialCash > 0.0
      ensures Contents() == Book(initialCash, initialCash, map[], map[], 0.0, [])
    {
      this.initialCash := initialCash;
      cash := initialCash;
      positions, averagePrices, dailyRealizedPnl, fills := map[], map[], 0.0, [];
    }
  }

  class PaperTradeEngine {
    const portfolio: PaperPortfolio
    const policy: PaperRiskPolicy
    const gate: PaperGateDecision

    constructor (portfolio: PaperPortfolio, policy: PaperRiskPolicy, gate: PaperGateDecision)
      ensures this.portfolio == portfolio && this.policy == policy && this.gate == gate
    {
      this.portfolio, this.policy, this.gate := portfolio, policy, gate;
    }

    /** Books a fill or raises; whatever is rejected leaves the portfolio as it was. */
    method Process(s: PaperSignal) returns (r: Result<PaperFill, Rejection>)
      modifies portfolio
      ensures r == Decide(old(portfolio.Contents()), policy, gate, s)
      ensures r.Failure? ==> portfolio.Contents() == old(portfolio.Contents())
      ensures r.Success? ==> portfolio.Contents() == Booked(old(portfolio.Contents()), r.value)
    {
      r := Decide(portfolio.Contents(), policy, gate, s);
      if r.Success? {
        FillCarriesItsPnl(portfolio.Contents(), policy, gate, s);
        Commit(r.value);
      }
    }

    method Commit(f: PaperFill)
      requires f.realizedPnl == RealizedBeforeFee(portfolio.Contents(), f.subject, f.quantity, f.fillPrice) - f.fee
      modifies portfolio
      ensures portfolio.Contents() == Booked(old(portfolio.Contents()), f)
    {
      var realized := ApplyPosition(f.subject, f.quantity, f.fillPrice, f.fee);
      assert realized == f.realizedPnl;
      portfolio.fills := portfolio.fills + [f];
    }

    method ApplyPosition(subject: string, delta: real, price: real, fee: real) returns (realized: real)
      modifies portfolio
      ensures realized == RealizedBeforeFee(old(portfolio.Contents()), subject, delta, price) - fee
      ensures var b := old(portfolio.Contents());
              portfolio.Contents() == b.(
                cash := b.cash - (Value(delta, price) + fee),
                positions := b.positions[subject := b.Position(subject) + delta],
                averagePrices := b.averagePrices[subject := NewAverage(b, subject, delta, price)],
                dailyRealizedPnl := b.dailyRealizedPnl + realized)
    {
      var b := portfolio.Contents();
      realized := RealizedBeforeFee(b, subject, delta, price) - fee;
      var newQuantity := b.Position(subject) + delta;
      var newAverage := NewAverage(b, subject, delta, price);
      portfolio.cash := portfolio.cash - (Value(delta, price) + fee);
      portfolio.positions := portfolio.positions[subject := newQuantity];
      portfolio.averagePrices := portfolio.averagePrices[subject := newAverage];
      portfolio.dailyRealizedPnl := portfolio.dailyRealizedPnl + realized;
    }
  }
}
