/** Evaluation runs one transaction at a time: other clients and other evaluators may act between any two of them. */
module Interleaving {
  import opened Evaluation
  import opened EvaluationLaws
  import opened Lineage
  import opened Lists
  import opened Schema
  import opened Store

  /** Where a run stands between two of its transactions: at the next prediction, before a report, or before a payment. */
  datatype Stage =
    | Choosing
    | Reporting(p: Artifact, o: Observation, record: EvaluationRecord)
    | Paying(p: Artifact, record: EvaluationRecord, correct: bool)

  datatype Progress = Running | Ended | Raised

  /** A run with the predictions it still has to settle; a run that raised keeps the stage at which it did. */
  datatype Evaluator = Evaluator(inputs: Inputs, due: seq<Artifact>, stage: Stage, progress: Progress)

  /** `waived` lists the predictions whose payment fell away because their worker was not registered. */
  datatype Shared = Shared(db: Database, clock: int, evaluators: seq<Evaluator>, waived: seq<Id>)

  /** Another client's transaction, a new run on some list it has read, or the next transaction of a run. */
  datatype Move = Other(t: Transaction) | Start(inputs: Inputs, due: seq<Artifact>) | Advance(e: nat)

  /** A run takes up its next prediction. */
  function Choose(db: Database, ev: Evaluator, rules: Rules): (Database, Evaluator)
    requires ev.due != []
  {
    var p, rest := ev.due[0], ev.(due := ev.due[1..]);
    var observation, drawn := ev.inputs.resolver(p), ev.inputs.drawn(p.id);
    if observation.None? then (db, rest)
    else if !ObservationValid(observation.value) then (db, rest.(progress := Raised))
    else if !InWindow(p, observation.value, ev.inputs.now) then
      var reported := AppendArtifact(db, AnomalyFor(p, observation.value, drawn, ev.inputs.now), rules);
      if reported.Success? then (reported.value, rest) else (db, rest.(progress := Raised))
    else if !Readable(p) then (db, rest.(progress := Raised))
    else
      var record := RecordFor(p, observation.value, ev.inputs.clusterSize(p.id), drawn.evaluationId);
      var recorded := AppendEvaluation(db, record, rules);
      if recorded.Success? then (recorded.value, rest.(stage := Reporting(p, observation.value, record)))
      else (db, rest.(progress := Raised))
  }

  /** The next transaction of a run that is going on. */
  function Turn(db: Database, ev: Evaluator, rules: Rules): (Database, Evaluator) {
    match ev.stage
    case Choosing => if ev.due == [] then (db, ev.(progress := Ended)) else Choose(db, ev, rules)
    case Reporting(p, o, record) =>
      var reported := AppendArtifact(db, OutcomeFor(p, o, ev.inputs.drawn(p.id)), rules);
      if reported.Success? then (reported.value, ev.(stage := Paying(p, record, Correct(p, o)))) else (db, ev.(progress := Raised))
    case Paying(p, record, correct) =>
      var (paid, ending) := Pay(db, p, record, correct, ev.inputs.drawn(p.id).eventId);
      if ending.Scored? then (paid, ev.(stage := Choosing)) else (db, ev.(progress := Raised))
  }

  predicate Waives(db: Database, ev: Evaluator) {
    ev.stage.Paying? && ev.stage.p.workerId !in db.workers
  }

  /** Other clients neither evaluate nor act as the evaluator; a run reads stored predictions; clocks do not run backward. */
  predicate Allowed(w: Shared, m: Move) {
    match m
    case Other(Appending(a)) => !(a.kind == OUTCOME && a.workerId == EVALUATOR)
    case Other(Evaluating(_)) => false
    case Other(Budgeting(_, _, _, reason, _)) => reason != EVALUATION_REASON
    case Other(_) => true
    case Start(inputs, due) => w.clock <= inputs.now && forall p :: p in due ==> p in w.db.artifacts
    case Advance(e) => e < |w.evaluators| && w.evaluators[e].progress.Running?
  }

  /** Other clients may do anything at any time but score, report as the evaluator and pay for evaluations. */
  lemma OthersAreFree(w: Shared, t: Transaction)
    ensures Allowed(w, Other(t)) <==>
            !t.Evaluating? && !(t.Appending? && t.artifact.kind == OUTCOME && t.artifact.workerId == "swarm-evaluator")
            && !(t.Budgeting? && t.reason == "matured_prediction_evaluation")
  {
  }

  /** A move that is not allowed does not happen. */
  function Moved(w: Shared, m: Move, rules: Rules): Shared {
    if !Allowed(w, m) then w
    else
      match m
      case Other(t) => w.(db := Apply(w.db, t, rules))
      case Start(inputs, due) => w.(clock := inputs.now, evaluators := w.evaluators + [Evaluator(inputs, due, Choosing, Running)])
      case Advance(e) =>
        var ev := w.evaluators[e];
        var (db, after) := Turn(w.db, ev, rules);
        Shared(db, w.clock, w.evaluators[e := after], if Waives(w.db, ev) then w.waived + [ev.stage.p.id] else w.waived)
  }

  function AfterMoves(start: Shared, moves: seq<Move>, rules: Rules): Shared {
    if moves == [] then start else Moved(AfterMoves(start, moves[..|moves| - 1], rules), moves[|moves| - 1], rules)
  }

  function AtReporting(p: Id): Evaluator -> bool {
    (ev: Evaluator) => ev.stage.Reporting? && ev.stage.p.id == p
  }

  function AtPaying(p: Id): Evaluator -> bool {
    (ev: Evaluator) => ev.stage.Paying? && ev.stage.p.id == p
  }

  function Same(p: Id): Id -> bool {
    (q: Id) => q == p
  }

  /**
   * A prediction has at most one record. The record has been reported or some run stands before the report of it, and the
   * report has been paid for or waived, or some run stands before the payment.
   */
  ghost predicate Tallied(w: Shared, p: Id) {
    && RecordsOf(w.db, p) <= 1
    && RecordsOf(w.db, p) == OutcomesOf(w.db, p) + CountIf(AtReporting(p), w.evaluators)
    && OutcomesOf(w.db, p) == PaymentsOf(w.db, p) + CountIf(AtPaying(p), w.evaluators) + CountIf(Same(p), w.waived)
  }

  /** What a run works on is stored, and it does not look past the clock. */
  ghost predicate Grounded(db: Database, clock: int, ev: Evaluator) {
    && ev.inputs.now <= clock && (forall p :: p in ev.due ==> p in db.artifacts)
  }

  ghost predicate Steady(w: Shared) {
    && LineageKept(w.db) && (forall r :: r in w.db.evaluations ==> Timely(w.db, r, w.clock))
    && (forall i {:trigger w.evaluators[i]} :: 0 <= i < |w.evaluators| ==> Grounded(w.db, w.clock, w.evaluators[i]))
    && (forall p: Id :: Tallied(w, p))
  }

  lemma CountUpdate<T>(f: T -> bool, s: seq<T>, i: nat, x: T)
    requires i < |s|
    ensures CountIf(f, s[i := x]) + (if f(s[i]) then 1 else 0) == CountIf(f, s) + (if f(x) then 1 else 0)
  {
    assert s == s[..i] + [s[i]] + s[i + 1..] && s[i := x] == s[..i] + [x] + s[i + 1..];
    CountConcat(f, s[..i] + [s[i]], s[i + 1..]);
    CountConcat(f, s[..i] + [x], s[i + 1..]);
    CountOneMore(f, s[..i], s[i]);
    CountOneMore(f, s[..i], x);
  }

  /** The stage of one run after its turn, for the tally of one prediction. */
  lemma StageCounts(w: Shared, e: nat, after: Evaluator, p: Id)
    requires e < |w.evaluators|
    ensures var evs, ev := w.evaluators[e := after], w.evaluators[e];
            && CountIf(AtReporting(p), evs) + (if AtReporting(p)(ev) then 1 else 0)
               == CountIf(AtReporting(p), w.evaluators) + (if AtReporting(p)(after) then 1 else 0)
            && CountIf(AtPaying(p), evs) + (if AtPaying(p)(ev) then 1 else 0)
               == CountIf(AtPaying(p), w.evaluators) + (if AtPaying(p)(after) then 1 else 0)
  {
    CountUpdate(AtReporting(p), w.evaluators, e, after);
    CountUpdate(AtPaying(p), w.evaluators, e, after);
  }

  function Ones(b: bool): int {
    if b then 1 else 0
  }

  /** A turn of a run keeps, for each prediction, the gap between its records, its reports, its payments and the run's stage. */
  ghost predicate GapsKept(db: Database, ev: Evaluator, next: Database, after: Evaluator, q: Id) {
    && (RecordsOf(db, q) <= 1 ==> RecordsOf(next, q) <= 1)
    && RecordsOf(next, q) - OutcomesOf(next, q) - Ones(AtReporting(q)(after))
       == RecordsOf(db, q) - OutcomesOf(db, q) - Ones(AtReporting(q)(ev))
    && OutcomesOf(next, q) - PaymentsOf(next, q) - Ones(AtPaying(q)(after))
       == OutcomesOf(db, q) - PaymentsOf(db, q) - Ones(AtPaying(q)(ev)) + Ones(Waives(db, ev) && ev.stage.p.id == q)
  }

  lemma OtherArtifactCounts(db: Database, a: Artifact, rules: Rules, q: Id)
    requires AppendArtifact(db, a, rules).Success?
    ensures var next := AppendArtifact(db, a, rules).value;
            && RecordsOf(next, q) == RecordsOf(db, q) && PaymentsOf(next, q) == PaymentsOf(db, q)
            && OutcomesOf(next, q) == OutcomesOf(db, q) + if Reports(q)(a) then 1 else 0
  {
    CountOneMore(Reports(q), db.artifacts, a);
  }

  lemma AnomalyKeepsGaps(db: Database, a: Artifact, rules: Rules, ev: Evaluator, after: Evaluator, q: Id)
    requires AppendArtifact(db, a, rules).Success? && a.kind == ANOMALY && ev.stage.Choosing? && after.stage.Choosing?
    ensures GapsKept(db, ev, AppendArtifact(db, a, rules).value, after, q)
  {
    OtherArtifactCounts(db, a, rules, q);
    assert !Reports(q)(a) && !Waives(db, ev);
    assert !AtReporting(q)(ev) && !AtReporting(q)(after) && !AtPaying(q)(ev) && !AtPaying(q)(after);
  }

  lemma RecordKeepsGaps(db: Database, r: EvaluationRecord, rules: Rules, ev: Evaluator, after: Evaluator, q: Id)
    requires AppendEvaluation(db, r, rules).Success? && ev.stage.Choosing?
    requires after.stage.Reporting? && after.stage.p.id == r.predictionId
    ensures GapsKept(db, ev, AppendEvaluation(db, r, rules).value, after, q)
  {
    RecordingCounts(db, r, rules, q);
  }

  lemma ChooseKeepsGaps(db: Database, ev: Evaluator, rules: Rules, q: Id)
    requires ev.due != [] && ev.stage.Choosing?
    ensures var (next, after) := Choose(db, ev, rules); GapsKept(db, ev, next, after, q)
  {
    var p, after := ev.due[0], Choose(db, ev, rules).1;
    var observation, drawn := ev.inputs.resolver(p), ev.inputs.drawn(p.id);
    if observation.Some? && ObservationValid(observation.value) {
      var o := observation.value;
      if !InWindow(p, o, ev.inputs.now) {
        var anomaly := AnomalyFor(p, o, drawn, ev.inputs.now);
        if AppendArtifact(db, anomaly, rules).Success? { AnomalyKeepsGaps(db, anomaly, rules, ev, after, q); }
      } else if Readable(p) {
        var record := RecordFor(p, o, ev.inputs.clusterSize(p.id), drawn.evaluationId);
        if AppendEvaluation(db, record, rules).Success? { RecordKeepsGaps(db, record, rules, ev, after, q); }
      }
    }
  }

  lemma ReportKeepsGaps(db: Database, ev: Evaluator, rules: Rules, q: Id)
    requires ev.stage.Reporting?
    ensures var (next, after) := Turn(db, ev, rules); GapsKept(db, ev, next, after, q)
  {
    var outcome := OutcomeFor(ev.stage.p, ev.stage.o, ev.inputs.drawn(ev.stage.p.id));
    if AppendArtifact(db, outcome, rules).Success? { OtherArtifactCounts(db, outcome, rules, q); }
  }

  lemma PayKeepsGaps(db: Database, ev: Evaluator, rules: Rules, q: Id)
    requires ev.stage.Paying?
    ensures var (next, after) := Turn(db, ev, rules); GapsKept(db, ev, next, after, q)
  {
    var p, eventId := ev.stage.p, ev.inputs.drawn(ev.stage.p.id).eventId;
    var (paid, ending) := Pay(db, p, ev.stage.record, ev.stage.correct, eventId);
    if ending.Scored? && p.workerId in db.workers {
      PayingCounts(db, paid.events[|db.events|], paid.workers, q);
    }
  }

  lemma TurnKeepsGaps(db: Database, ev: Evaluator, rules: Rules, q: Id)
    ensures var (next, after) := Turn(db, ev, rules); GapsKept(db, ev, next, after, q)
  {
    match ev.stage
    case Choosing => if ev.due != [] { ChooseKeepsGaps(db, ev, rules, q); }
    case Reporting(_, _, _) => ReportKeepsGaps(db, ev, rules, q);
    case Paying(_, _, _) => PayKeepsGaps(db, ev, rules, q);
  }

  lemma AdvanceKeepsTally(w: Shared, e: nat, rules: Rules, q: Id)
    requires Allowed(w, Advance(e)) && Tallied(w, q)
    ensures Tallied(Moved(w, Advance(e), rules), q)
  {
    var (next, after) := Turn(w.db, w.evaluators[e], rules);
    TurnKeepsGaps(w.db, w.evaluators[e], rules, q);
    StageCounts(w, e, after, q);
    if Waives(w.db, w.evaluators[e]) { CountOneMore(Same(q), w.waived, w.evaluators[e].stage.p.id); }
  }

  /** A turn keeps the lineage, only appends artifacts, and records inside the window. */
  lemma TurnStaysGrounded(db: Database, ev: Evaluator, rules: Rules, clock: int)
    requires LineageKept(db) && (forall r :: r in db.evaluations ==> Timely(db, r, clock)) && Grounded(db, clock, ev)
    ensures var (next, after) := Turn(db, ev, rules);
            && LineageKept(next) && (forall r :: r in next.evaluations ==> Timely(next, r, clock)) && Grounded(next, clock, after)
            && db.artifacts <= next.artifacts
  {
    match ev.stage
    case Choosing => if ev.due != [] { ChooseStaysGrounded(db, ev, rules, clock); }
    case Reporting(p, o, _) => AppendStaysTimely(db, OutcomeFor(p, o, ev.inputs.drawn(p.id)), rules, clock);
    case Paying(p, record, correct) => PayStaysGrounded(db, p, record, correct, ev.inputs.drawn(p.id).eventId, clock);
  }

  lemma PayStaysGrounded(db: Database, p: Artifact, record: EvaluationRecord, correct: bool, eventId: string, clock: int)
    requires LineageKept(db) && forall r :: r in db.evaluations ==> Timely(db, r, clock)
    ensures var next := Pay(db, p, record, correct, eventId).0;
            LineageKept(next) && (forall r :: r in next.evaluations ==> Timely(next, r, clock)) && next.artifacts == db.artifacts
  {
    var next := Pay(db, p, record, correct, eventId).0;
    forall r | r in next.evaluations ensures Timely(next, r, clock) { TimelyStays(db, next, r, clock, clock); }
  }

  lemma AppendStaysTimely(db: Database, a: Artifact, rules: Rules, clock: int)
    requires LineageKept(db) && forall r :: r in db.evaluations ==> Timely(db, r, clock)
    ensures var next := Apply(db, Appending(a), rules);
            LineageKept(next) && (forall r :: r in next.evaluations ==> Timely(next, r, clock)) && db.artifacts <= next.artifacts
  {
    ApplyKeepsLineage(db, Appending(a), rules);
    var next := Apply(db, Appending(a), rules);
    forall r | r in next.evaluations ensures Timely(next, r, clock) { TimelyStays(db, next, r, clock, clock); }
  }

  lemma ChooseStaysGrounded(db: Database, ev: Evaluator, rules: Rules, clock: int)
    requires LineageKept(db) && (forall r :: r in db.evaluations ==> Timely(db, r, clock)) && Grounded(db, clock, ev) && ev.due != []
    ensures var (next, after) := Choose(db, ev, rules);
            && LineageKept(next) && (forall r :: r in next.evaluations ==> Timely(next, r, clock)) && Grounded(next, clock, after)
            && db.artifacts <= next.artifacts
  {
    var p := ev.due[0];
    var observation, drawn := ev.inputs.resolver(p), ev.inputs.drawn(p.id);
    assert p in ev.due;
    if observation.Some? && ObservationValid(observation.value) {
      var o := observation.value;
      if !InWindow(p, o, ev.inputs.now) {
        AppendStaysTimely(db, AnomalyFor(p, o, drawn, ev.inputs.now), rules, clock);
      } else if Readable(p) {
        var record := RecordFor(p, o, ev.inputs.clusterSize(p.id), drawn.evaluationId);
        if AppendEvaluation(db, record, rules).Success? { RecordingStaysTimely(db, p, o, record, rules, clock, clock); }
      }
    }
  }

  lemma OthersStayGrounded(w: Shared, next: Database, clock: int)
    requires Steady(w) && w.db.artifacts <= next.artifacts && w.clock <= clock
    ensures forall i {:trigger w.evaluators[i]} :: 0 <= i < |w.evaluators| ==> Grounded(next, clock, w.evaluators[i])
  {
    assert forall a :: a in w.db.artifacts ==> a in next.artifacts;
    forall i {:trigger w.evaluators[i]} | 0 <= i < |w.evaluators| ensures Grounded(next, clock, w.evaluators[i]) {
      assert Grounded(w.db, w.clock, w.evaluators[i]);
    }
  }

  lemma AdvanceStaysSteady(w: Shared, e: nat, rules: Rules)
    requires Steady(w) && Allowed(w, Advance(e))
    ensures Steady(Moved(w, Advance(e), rules))
  {
    var next := Moved(w, Advance(e), rules);
    assert Grounded(w.db, w.clock, w.evaluators[e]);
    TurnStaysGrounded(w.db, w.evaluators[e], rules, w.clock);
    OthersStayGrounded(w, next.db, w.clock);
    forall q: Id ensures Tallied(next, q) {
      assert Tallied(w, q);
      AdvanceKeepsTally(w, e, rules, q);
    }
  }

  lemma StartStaysSteady(w: Shared, inputs: Inputs, due: seq<Artifact>, rules: Rules)
    requires Steady(w) && Allowed(w, Start(inputs, due))
    ensures Steady(Moved(w, Start(inputs, due), rules))
  {
    var next := Moved(w, Start(inputs, due), rules);
    var ev := Evaluator(inputs, due, Choosing, Running);
    OthersStayGrounded(w, w.db, inputs.now);
    forall r | r in next.db.evaluations ensures Timely(next.db, r, next.clock) { TimelyStays(w.db, w.db, r, w.clock, next.clock); }
    forall q: Id ensures Tallied(next, q) {
      assert Tallied(w, q);
      CountOneMore(AtReporting(q), w.evaluators, ev);
      CountOneMore(AtPaying(q), w.evaluators, ev);
    }
  }

  /** What another client does changes none of the counts. */
  lemma OtherCounts(w: Shared, t: Transaction, rules: Rules, q: Id)
    requires Allowed(w, Other(t))
    ensures var next := Apply(w.db, t, rules);
            RecordsOf(next, q) == RecordsOf(w.db, q) && OutcomesOf(next, q) == OutcomesOf(w.db, q) && PaymentsOf(next, q) == PaymentsOf(w.db, q)
  {
    if Attempt(w.db, t, rules).Success? {
      match t
      case Appending(a) => OtherArtifactCounts(w.db, a, rules, q);
      case Budgeting(_, _, _, _, _) =>
        var next := Apply(w.db, t, rules);
        PayingCounts(w.db, next.events[|w.db.events|], next.workers, q);
      case _ =>
    }
  }

  lemma OtherStaysSteady(w: Shared, t: Transaction, rules: Rules)
    requires Steady(w) && Allowed(w, Other(t))
    ensures Steady(Moved(w, Other(t), rules))
  {
    var next := Moved(w, Other(t), rules);
    ApplyKeepsLineage(w.db, t, rules);
    assert w.db.artifacts <= next.db.artifacts && next.db.evaluations == w.db.evaluations;
    forall r | r in next.db.evaluations ensures Timely(next.db, r, w.clock) { TimelyStays(w.db, next.db, r, w.clock, w.clock); }
    OthersStayGrounded(w, next.db, w.clock);
    forall q: Id ensures Tallied(next, q) {
      assert Tallied(w, q);
      OtherCounts(w, t, rules, q);
    }
  }

  lemma MoveStaysSteady(w: Shared, m: Move, rules: Rules)
    requires Steady(w)
    ensures Steady(Moved(w, m, rules))
  {
    if Allowed(w, m) {
      match m
      case Other(t) => OtherStaysSteady(w, t, rules);
      case Start(inputs, due) => StartStaysSteady(w, inputs, due, rules);
      case Advance(e) => AdvanceStaysSteady(w, e, rules);
    }
  }

  lemma UntouchedIsSteady(db: Database, clock: int)
    requires Untouched(db)
    ensures Steady(Shared(db, clock, [], []))
  {
    forall p: Id ensures Tallied(Shared(db, clock, [], []), p) {
      CountNone(Scores(p), db.evaluations);
      CountNone(Reports(p), db.artifacts);
      CountNone(Pays(p), db.events);
    }
  }

  /**
   * However the transactions of any number of runs and of other clients interleave: every prediction is scored at most
   * once, inside its window, and its record is at every moment reported or awaiting its report, and its report paid for,
   * waived or awaiting its payment, each exactly once.
   */
  lemma {:induction false} EveryInterleavingScoresOnce(db: Database, clock: int, moves: seq<Move>, rules: Rules)
    requires Untouched(db)
    ensures Steady(AfterMoves(Shared(db, clock, [], []), moves, rules))
  {
    var start := Shared(db, clock, [], []);
    if moves == [] {
      UntouchedIsSteady(db, clock);
    } else {
      EveryInterleavingScoresOnce(db, clock, moves[..|moves| - 1], rules);
      MoveStaysSteady(AfterMoves(start, moves[..|moves| - 1], rules), moves[|moves| - 1], rules);
    }
  }

  /** When no run stands in the middle of a settlement, every record is reported, and paid for unless that was waived. */
  lemma NothingIsLostBetweenSettlements(w: Shared, p: Id)
    requires Steady(w) && forall ev :: ev in w.evaluators ==> ev.stage.Choosing?
    ensures RecordsOf(w.db, p) == OutcomesOf(w.db, p) == PaymentsOf(w.db, p) + CountIf(Same(p), w.waived)
  {
    assert Tallied(w, p);
    CountNone(AtReporting(p), w.evaluators);
    CountNone(AtPaying(p), w.evaluators);
  }

  function StagesLeft(stage: Stage): nat {
    match stage
    case Choosing => 0
    case Reporting(_, _, _) => 2
    case Paying(_, _, _) => 1
  }

  /** A run that is left alone, to its end. */
  function Alone(db: Database, ev: Evaluator, rules: Rules): (Database, Evaluator)
    decreases if ev.progress.Running? then 1 else 0, |ev.due|, StagesLeft(ev.stage)
  {
    if !ev.progress.Running? then (db, ev)
    else
      var (next, after) := Turn(db, ev, rules);
      Alone(next, after, rules)
  }

  /** Settling the first prediction before the others. */
  lemma {:induction false} FirstSettlement(db: Database, due: seq<Artifact>, inputs: Inputs, rules: Rules)
    requires due != []
    ensures var (next, ending) := Settle(db, due[0], inputs, rules);
            var all := SettleAll(db, due, inputs, rules);
            if ending.Aborted? then all.db == next && all.aborted
            else all.db == SettleAll(next, due[1..], inputs, rules).db && all.aborted == SettleAll(next, due[1..], inputs, rules).aborted
  {
    var n := |due| - 1;
    var init := due[..n];
    if n == 0 {
      assert init == [] && due[1..] == [];
    } else {
      FirstSettlement(db, init, inputs, rules);
      assert due[1..][..n - 1] == init[1..];
    }
  }

  /** One prediction of a run that is left alone: up to three turns amount to its settlement. */
  lemma TurnsAreSettlement(db: Database, inputs: Inputs, due: seq<Artifact>, rules: Rules)
    requires due != []
    ensures var (next, ending) := Settle(db, due[0], inputs, rules);
            var (last, ended) := Alone(db, Evaluator(inputs, due, Choosing, Running), rules);
            if ending.Aborted? then last == next && ended.progress.Raised?
            else (last, ended) == Alone(next, Evaluator(inputs, due[1..], Choosing, Running), rules)
  {
    var p, ev := due[0], Evaluator(inputs, due, Choosing, Running);
    var (chosen, after) := Choose(db, ev, rules);
    assert Alone(db, ev, rules) == Alone(chosen, after, rules);
    if after.stage.Reporting? {
      var (reported, paying) := Turn(chosen, after, rules);
      assert Alone(chosen, after, rules) == Alone(reported, paying, rules);
      if paying.progress.Running? {
        var (paid, done) := Turn(reported, paying, rules);
        assert Alone(reported, paying, rules) == Alone(paid, done, rules);
      }
    }
  }

  /** A run that is left alone does what the run in one step does, and raises when that does. */
  lemma {:induction false} AloneIsSettleAll(db: Database, inputs: Inputs, due: seq<Artifact>, rules: Rules)
    ensures var (last, ended) := Alone(db, Evaluator(inputs, due, Choosing, Running), rules);
            var report := SettleAll(db, due, inputs, rules);
            last == report.db && ended.progress == if report.aborted then Raised else Ended
    decreases |due|
  {
    if due != [] {
      var (next, ending) := Settle(db, due[0], inputs, rules);
      TurnsAreSettlement(db, inputs, due, rules);
      FirstSettlement(db, due, inputs, rules);
      AloneIsSettleAll(next, inputs, due[1..], rules);
    }
  }
}
