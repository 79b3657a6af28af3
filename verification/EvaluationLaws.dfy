/** What evaluation keeps: each prediction is scored at most once, inside its window, with one outcome and one payment. */
module EvaluationLaws {
  import opened Evaluation
  import opened Lineage
  import opened Lists
  import opened Ordering
  import opened Provenance
  import opened Schema
  import opened Store

  function Scores(p: Id): EvaluationRecord -> bool {
    (r: EvaluationRecord) => r.predictionId == p
  }

  function Reports(p: Id): Artifact -> bool {
    (a: Artifact) => a.kind == OUTCOME && a.workerId == EVALUATOR && p in a.parentArtifacts
  }

  function Pays(p: Id): BudgetEvent -> bool {
    (e: BudgetEvent) => e.reason == EVALUATION_REASON && e.related == Some(p)
  }

  /** How often a prediction has been scored, reported by the evaluator, and paid for. */
  function RecordsOf(db: Database, p: Id): nat {
    CountIf(Scores(p), db.evaluations)
  }

  function OutcomesOf(db: Database, p: Id): nat {
    CountIf(Reports(p), db.artifacts)
  }

  function PaymentsOf(db: Database, p: Id): nat {
    CountIf(Pays(p), db.events)
  }

  /**
   * One record, one outcome and one payment at most, in this order. `exact` when every record is reported, and exactly the
   * predictions in `payable`, all of which are recorded, are paid for.
   */
  ghost predicate Counted(db: Database, p: Id, exact: bool, payable: set<Id>) {
    && PaymentsOf(db, p) <= OutcomesOf(db, p) <= RecordsOf(db, p) <= 1
    && (RecordsOf(db, p) == 1 ==> p in Ids(db.artifacts))
    && (exact ==> OutcomesOf(db, p) == RecordsOf(db, p))
    && (exact ==> PaymentsOf(db, p) == if p in payable then 1 else 0)
    && (p in payable ==> RecordsOf(db, p) == 1)
  }

  /** The record was observed no earlier than its prediction matured and no later than the clock. */
  ghost predicate Timely(db: Database, r: EvaluationRecord, clock: int) {
    exists a :: a in db.artifacts && a.id == r.predictionId && a.prediction.Some?
                && a.prediction.value.evaluationAt <= r.evaluatedAt <= clock
  }

  ghost predicate Sound(db: Database, clock: int) {
    && LineageKept(db)
    && (forall r :: r in db.evaluations ==> Timely(db, r, clock))
  }

  ghost predicate Evaluates(db: Database, clock: int, exact: bool, payable: set<Id>) {
    Sound(db, clock) && forall p: Id :: Counted(db, p, exact, payable)
  }

  lemma EvaluatedIffRecorded(db: Database, p: Id)
    ensures Evaluated(db, p) <==> RecordsOf(db, p) > 0
  {
    CountNone(Scores(p), db.evaluations);
  }

  lemma TimelyStays(db: Database, next: Database, r: EvaluationRecord, clock: int, later: int)
    requires Timely(db, r, clock) && clock <= later && forall a :: a in db.artifacts ==> a in next.artifacts
    ensures Timely(next, r, later)
  {
    var a :| a in db.artifacts && a.id == r.predictionId && a.prediction.Some?
             && a.prediction.value.evaluationAt <= r.evaluatedAt <= clock;
    assert a in next.artifacts;
  }

  lemma AppendingStaysSound(db: Database, a: Artifact, rules: Rules, clock: int)
    requires Sound(db, clock) && AppendArtifact(db, a, rules).Success?
    ensures Sound(AppendArtifact(db, a, rules).value, clock)
  {
    var next := AppendArtifact(db, a, rules).value;
    AppendKeepsLineage(db, a, rules);
    forall r | r in next.evaluations ensures Timely(next, r, clock) { TimelyStays(db, next, r, clock, clock); }
  }

  lemma AppendingKeepsCount(db: Database, a: Artifact, rules: Rules, p: Id, exact: bool, payable: set<Id>)
    requires Counted(db, p, exact, payable) && AppendArtifact(db, a, rules).Success?
    requires !(a.kind == OUTCOME && a.workerId == EVALUATOR)
    ensures Counted(AppendArtifact(db, a, rules).value, p, exact, payable)
  {
    IdsOfMore(db.artifacts, a);
    CountOneMore(Reports(p), db.artifacts, a);
  }

  /** An artifact that is no evaluator's outcome changes no count. */
  lemma AppendingKeepsCounts(db: Database, a: Artifact, rules: Rules, clock: int, exact: bool, payable: set<Id>)
    requires Evaluates(db, clock, exact, payable) && AppendArtifact(db, a, rules).Success?
    requires !(a.kind == OUTCOME && a.workerId == EVALUATOR)
    ensures Evaluates(AppendArtifact(db, a, rules).value, clock, exact, payable)
  {
    AppendingStaysSound(db, a, rules, clock);
    forall p: Id ensures Counted(AppendArtifact(db, a, rules).value, p, exact, payable) {
      AppendingKeepsCount(db, a, rules, p, exact, payable);
    }
  }

  lemma RecordingCounts(db: Database, r: EvaluationRecord, rules: Rules, p: Id)
    requires AppendEvaluation(db, r, rules).Success?
    ensures RecordsOf(AppendEvaluation(db, r, rules).value, p) == RecordsOf(db, p) + if p == r.predictionId then 1 else 0
    ensures p == r.predictionId ==> RecordsOf(db, p) == 0 && p in Ids(db.artifacts)
  {
    CountOneMore(Scores(p), db.evaluations, r);
    EvaluatedIffRecorded(db, p);
  }

  lemma RecordingStaysTimely(db: Database, p: Artifact, o: Observation, record: EvaluationRecord, rules: Rules, clock: int, now: int)
    requires (forall r :: r in db.evaluations ==> Timely(db, r, clock)) && clock <= now
    requires p in db.artifacts && InWindow(p, o, now) && record.predictionId == p.id && record.evaluatedAt == o.observedAt
    requires AppendEvaluation(db, record, rules).Success?
    ensures var next := AppendEvaluation(db, record, rules).value; forall r :: r in next.evaluations ==> Timely(next, r, now)
  {
    var next := AppendEvaluation(db, record, rules).value;
    forall r | r in next.evaluations ensures Timely(next, r, now) {
      if r in db.evaluations {
        TimelyStays(db, next, r, clock, now);
      } else {
        assert p in next.artifacts;
      }
    }
  }

  /** After the first transaction of a scoring: the new record has no report yet. */
  lemma RecordingKeepsCounts(
    db: Database, p: Artifact, o: Observation, record: EvaluationRecord, rules: Rules, clock: int, now: int, exact: bool,
    payable: set<Id>)
    requires Evaluates(db, clock, exact, payable) && clock <= now
    requires p in db.artifacts && InWindow(p, o, now) && record.predictionId == p.id && record.evaluatedAt == o.observedAt
    requires AppendEvaluation(db, record, rules).Success?
    ensures var next := AppendEvaluation(db, record, rules).value;
            && Evaluates(next, now, false, payable)
            && (forall q: Id :: q != p.id ==> Counted(next, q, exact, payable))
            && RecordsOf(next, p.id) == 1 && OutcomesOf(next, p.id) == 0 && PaymentsOf(next, p.id) == 0 && p.id !in payable
  {
    var next := AppendEvaluation(db, record, rules).value;
    RecordingStaysTimely(db, p, o, record, rules, clock, now);
    forall q: Id | q != p.id ensures Counted(next, q, exact, payable) {
      assert Counted(db, q, exact, payable);
      RecordingCounts(db, record, rules, q);
    }
    assert Counted(db, p.id, exact, payable);
    RecordingCounts(db, record, rules, p.id);
    assert Counted(next, p.id, false, payable);
    forall q: Id ensures Counted(next, q, false, payable) {
      assert q != p.id ==> Counted(next, q, exact, payable);
    }
  }

  /** All predictions but one are counted exactly; that one has these counts, and is not yet payable. */
  ghost predicate CountedBut(
    db: Database, p: Id, outcomes: nat, payments: nat, clock: int, exact: bool, payable: set<Id>)
  {
    && Evaluates(db, clock, false, payable)
    && (forall q: Id :: q != p ==> Counted(db, q, exact, payable))
    && RecordsOf(db, p) == 1 && OutcomesOf(db, p) == outcomes && PaymentsOf(db, p) == payments && p !in payable
  }

  lemma ReportingKeepsOthers(
    db: Database, p: Artifact, o: Observation, drawn: Drawn, rules: Rules, q: Id, exact: bool, payable: set<Id>)
    requires Counted(db, q, exact, payable) && q != p.id && AppendArtifact(db, OutcomeFor(p, o, drawn), rules).Success?
    ensures Counted(AppendArtifact(db, OutcomeFor(p, o, drawn), rules).value, q, exact, payable)
  {
    IdsOfMore(db.artifacts, OutcomeFor(p, o, drawn));
    CountOneMore(Reports(q), db.artifacts, OutcomeFor(p, o, drawn));
  }

  lemma ReportingIsCounted(db: Database, p: Artifact, o: Observation, drawn: Drawn, rules: Rules, payable: set<Id>)
    requires Counted(db, p.id, false, payable) && RecordsOf(db, p.id) == 1 && OutcomesOf(db, p.id) == 0
    requires AppendArtifact(db, OutcomeFor(p, o, drawn), rules).Success?
    ensures var next := AppendArtifact(db, OutcomeFor(p, o, drawn), rules).value;
            && Counted(next, p.id, false, payable)
            && RecordsOf(next, p.id) == 1 && OutcomesOf(next, p.id) == 1 && PaymentsOf(next, p.id) == PaymentsOf(db, p.id)
  {
    IdsOfMore(db.artifacts, OutcomeFor(p, o, drawn));
    CountOneMore(Reports(p.id), db.artifacts, OutcomeFor(p, o, drawn));
  }

  lemma ReportingCounts(
    db: Database, p: Artifact, o: Observation, drawn: Drawn, rules: Rules, clock: int, exact: bool, payable: set<Id>)
    requires CountedBut(db, p.id, 0, 0, clock, exact, payable)
    requires AppendArtifact(db, OutcomeFor(p, o, drawn), rules).Success?
    ensures CountedBut(AppendArtifact(db, OutcomeFor(p, o, drawn), rules).value, p.id, 1, 0, clock, exact, payable)
  {
    var next := AppendArtifact(db, OutcomeFor(p, o, drawn), rules).value;
    AppendingStaysSound(db, OutcomeFor(p, o, drawn), rules, clock);
    ReportingIsCounted(db, p, o, drawn, rules, payable);
    forall q: Id | q != p.id ensures Counted(next, q, exact, payable) && Counted(next, q, false, payable) {
      ReportingKeepsOthers(db, p, o, drawn, rules, q, exact, payable);
      ReportingKeepsOthers(db, p, o, drawn, rules, q, false, payable);
    }
  }

  lemma PayingCounts(db: Database, e: BudgetEvent, w: map<Id, Worker>, q: Id)
    ensures PaymentsOf(db.(events := db.events + [e], workers := w), q) ==
            PaymentsOf(db, q) + if e.reason == EVALUATION_REASON && e.related == Some(q) then 1 else 0
  {
    CountOneMore(Pays(q), db.events, e);
  }

  /** A scored prediction of a worker who is registered becomes payable. */
  function Credited(payable: set<Id>, db: Database, p: Artifact, ending: Ending): set<Id> {
    if ending.Scored? && p.workerId in db.workers then payable + {p.id} else payable
  }

  lemma PayCompletes(
    db: Database, p: Artifact, record: EvaluationRecord, correct: bool, eventId: string, clock: int, exact: bool, payable: set<Id>)
    requires CountedBut(db, p.id, 1, 0, clock, exact, payable) && p in db.artifacts
    requires Pay(db, p, record, correct, eventId).1.Scored?
    ensures var (next, ending) := Pay(db, p, record, correct, eventId);
            Evaluates(next, clock, exact, Credited(payable, db, p, ending))
  {
    var (next, ending) := Pay(db, p, record, correct, eventId);
    var credited := Credited(payable, db, p, ending);
    forall q: Id ensures PaymentsOf(next, q) == PaymentsOf(db, q) + if q == p.id && p.workerId in db.workers then 1 else 0 {
      if p.workerId in db.workers { PayingCounts(db, next.events[|db.events|], next.workers, q); }
    }
    forall q: Id ensures Counted(next, q, exact, credited) {
      assert q != p.id ==> Counted(db, q, exact, payable);
      assert Counted(db, q, false, payable);
    }
    forall r | r in next.evaluations ensures Timely(next, r, clock) { TimelyStays(db, next, r, clock, clock); }
  }

  lemma ReportAndPayKeepCounts(
    db: Database, p: Artifact, o: Observation, record: EvaluationRecord, drawn: Drawn, rules: Rules, now: int, exact: bool,
    payable: set<Id>)
    requires CountedBut(db, p.id, 0, 0, now, exact, payable) && p in db.artifacts
    requires AppendArtifact(db, OutcomeFor(p, o, drawn), rules).Success?
    ensures var (next, ending) := Pay(AppendArtifact(db, OutcomeFor(p, o, drawn), rules).value, p, record, Correct(p, o), drawn.eventId);
            Evaluates(next, now, exact && !ending.Aborted?, Credited(payable, db, p, ending))
  {
    var reported := AppendArtifact(db, OutcomeFor(p, o, drawn), rules).value;
    ReportingCounts(db, p, o, drawn, rules, now, exact, payable);
    if Pay(reported, p, record, Correct(p, o), drawn.eventId).1.Scored? {
      PayCompletes(reported, p, record, Correct(p, o), drawn.eventId, now, exact, payable);
    }
  }

  /** The scoring of one prediction inside its window. */
  lemma ScoreKeepsCounts(
    db: Database, p: Artifact, o: Observation, record: EvaluationRecord, drawn: Drawn, rules: Rules, clock: int, now: int,
    exact: bool, payable: set<Id>)
    requires Evaluates(db, clock, exact, payable) && clock <= now
    requires p in db.artifacts && InWindow(p, o, now) && record.predictionId == p.id && record.evaluatedAt == o.observedAt
    ensures var (next, ending) := Score(db, p, o, record, drawn, rules);
            Evaluates(next, now, exact && !ending.Aborted?, Credited(payable, db, p, ending))
  {
    var recorded := AppendEvaluation(db, record, rules);
    if recorded.Success? {
      RecordingKeepsCounts(db, p, o, record, rules, clock, now, exact, payable);
      if AppendArtifact(recorded.value, OutcomeFor(p, o, drawn), rules).Success? {
        ReportAndPayKeepCounts(recorded.value, p, o, record, drawn, rules, now, exact, payable);
      }
    } else {
      ClockMayAdvance(db, clock, now, exact, false, payable);
    }
  }

  lemma ClockMayAdvance(db: Database, clock: int, now: int, exact: bool, still: bool, payable: set<Id>)
    requires Evaluates(db, clock, exact, payable) && clock <= now && (still ==> exact)
    ensures Evaluates(db, now, still, payable)
  {
    forall r | r in db.evaluations ensures Timely(db, r, now) { TimelyStays(db, db, r, clock, now); }
    forall p: Id ensures Counted(db, p, still, payable) { assert Counted(db, p, exact, payable); }
  }

  lemma ContaminateKeepsCounts(
    db: Database, anomaly: Artifact, rules: Rules, clock: int, exact: bool, payable: set<Id>)
    requires Evaluates(db, clock, exact, payable) && anomaly.kind == ANOMALY
    ensures var (next, ending) := Contaminate(db, anomaly, rules); Evaluates(next, clock, exact && !ending.Aborted?, payable)
  {
    if AppendArtifact(db, anomaly, rules).Success? {
      AppendingKeepsCounts(db, anomaly, rules, clock, exact, payable);
    } else {
      ClockMayAdvance(db, clock, clock, exact, false, payable);
    }
  }

  lemma SettleKeepsCounts(
    db: Database, p: Artifact, inputs: Inputs, rules: Rules, clock: int, exact: bool, payable: set<Id>)
    requires Evaluates(db, clock, exact, payable) && clock <= inputs.now && p in db.artifacts
    ensures var (next, ending) := Settle(db, p, inputs, rules);
            Evaluates(next, inputs.now, exact && !ending.Aborted?, Credited(payable, db, p, ending))
  {
    var observation := inputs.resolver(p);
    if observation.None? || !ObservationValid(observation.value) {
      ClockMayAdvance(db, clock, inputs.now, exact, exact && observation.None?, payable);
    } else {
      var o, drawn := observation.value, inputs.drawn(p.id);
      if InWindow(p, o, inputs.now) {
        var record := RecordFor(p, o, inputs.clusterSize(p.id), drawn.evaluationId);
        ClockMayAdvance(db, clock, inputs.now, exact, false, payable);
        if Readable(p) { ScoreKeepsCounts(db, p, o, record, drawn, rules, clock, inputs.now, exact, payable); }
      } else {
        ClockMayAdvance(db, clock, inputs.now, exact, exact, payable);
        ContaminateKeepsCounts(db, AnomalyFor(p, o, drawn, inputs.now), rules, inputs.now, exact, payable);
      }
    }
  }

  /** A settlement only appends artifacts, registers nobody, and scores the prediction it is about. */
  lemma SettleOnlyAppends(db: Database, p: Artifact, inputs: Inputs, rules: Rules)
    ensures var (next, ending) := Settle(db, p, inputs, rules);
            && db.artifacts <= next.artifacts && next.workers.Keys == db.workers.Keys
            && (ending.Scored? ==> ending.record.predictionId == p.id)
  {
    var observation := inputs.resolver(p);
    if observation.Some? && ObservationValid(observation.value) && InWindow(p, observation.value, inputs.now) {
      var o, drawn := observation.value, inputs.drawn(p.id);
      ScoreOnlyAppends(db, p, o, RecordFor(p, o, inputs.clusterSize(p.id), drawn.evaluationId), drawn, rules);
    }
  }

  lemma ScoreOnlyAppends(db: Database, p: Artifact, o: Observation, record: EvaluationRecord, drawn: Drawn, rules: Rules)
    ensures var (next, ending) := Score(db, p, o, record, drawn, rules);
            && db.artifacts <= next.artifacts && next.workers.Keys == db.workers.Keys
            && (ending.Scored? ==> ending.record == record)
  {
  }

  ghost predicate IsRegistered(db: Database, p: Id) {
    exists a :: a in db.artifacts && a.id == p && a.workerId in db.workers
  }

  /** The predictions among the scored ones whose worker is registered. */
  ghost function Payable(db: Database, records: seq<EvaluationRecord>): set<Id> {
    set r | r in records && IsRegistered(db, r.predictionId) :: r.predictionId
  }

  lemma PayableOneMore(db: Database, records: seq<EvaluationRecord>, r: EvaluationRecord, p: Artifact)
    requires LineageKept(db) && p in db.artifacts && r.predictionId == p.id
    ensures Payable(db, records + [r]) == Payable(db, records) + if p.workerId in db.workers then {p.id} else {}
  {
    assert IsRegistered(db, p.id) <==> p.workerId in db.workers by {
      if a :| a in db.artifacts && a.id == p.id && a.workerId in db.workers { OneArtifactPerId(db.artifacts, a, p); }
    }
    var more := records + [r];
    assert more[|records|] == r;
    assert forall x :: x in more <==> x in records || x == r;
    forall id ensures id in Payable(db, more) <==> id in Payable(db, records) || (id == p.id && p.workerId in db.workers) {
      if id in Payable(db, records) {
        var x :| x in records && IsRegistered(db, x.predictionId) && x.predictionId == id;
        assert x in more;
      }
    }
  }

  lemma {:induction false} SettleAllKeepsCounts(
    db: Database, due: seq<Artifact>, inputs: Inputs, rules: Rules, clock: int, exact: bool, payable: set<Id>)
    requires Evaluates(db, clock, exact, payable) && clock <= inputs.now && forall p :: p in due ==> p in db.artifacts
    ensures var report := SettleAll(db, due, inputs, rules);
            && Evaluates(report.db, inputs.now, exact && !report.aborted, payable + Payable(db, report.records))
            && db.artifacts <= report.db.artifacts && report.db.workers.Keys == db.workers.Keys
  {
    if due == [] {
      assert payable + Payable(db, []) == payable;
      ClockMayAdvance(db, clock, inputs.now, exact, exact, payable);
    } else {
      SettleAllKeepsCounts(db, due[..|due| - 1], inputs, rules, clock, exact, payable);
      var before := SettleAll(db, due[..|due| - 1], inputs, rules);
      if !before.aborted {
        var p := due[|due| - 1];
        assert p in due && p in before.db.artifacts;
        SettleKeepsCounts(before.db, p, inputs, rules, inputs.now, exact, payable + Payable(db, before.records));
        SettleOnlyAppends(before.db, p, inputs, rules);
        OneMoreSettlement(db, before, p, inputs, rules, payable);
      }
    }
  }

  lemma OneMoreSettlement(db: Database, before: Report, p: Artifact, inputs: Inputs, rules: Rules, payable: set<Id>)
    requires LineageKept(db) && p in db.artifacts && before.db.workers.Keys == db.workers.Keys
    ensures var ending := Settle(before.db, p, inputs, rules).1;
            Credited(payable + Payable(db, before.records), before.db, p, ending)
            == payable + Payable(db, if ending.Scored? then before.records + [ending.record] else before.records)
  {
    SettleOnlyAppends(before.db, p, inputs, rules);
    var ending := Settle(before.db, p, inputs, rules).1;
    if ending.Scored? { PayableOneMore(db, before.records, ending.record, p); }
  }

  /** The due predictions are stored, mature, and not yet evaluated. */
  lemma DueArePending(db: Database, now: int, listing: (Artifact, Artifact) -> bool, p: Artifact)
    requires p in DuePredictions(db, now, listing)
    ensures p in db.artifacts && IsPrediction(p) && IsDue(db, p, now)
  {
    var due := (a: Artifact) => if IsDue(db, a, now) then Some(a) else None;
    FilterMapMembers(due, Candidates(db, listing));
    FilterMapMembers(PREDICTION_OF, db.artifacts);
    var all := FilterMap(PREDICTION_OF, db.artifacts);
    MembersOfEqualMultisets(SortBy(listing, all), all);
    assert p in SortBy(listing, all);
  }

  /** A transaction of any other client, or one evaluation run. */
  datatype Step = Client(t: Transaction) | EvaluateDue(inputs: Inputs, listing: (Artifact, Artifact) -> bool)

  /**
   * `exact` until a run is aborted; `payable` collects the predictions whose worker was registered when they were scored.
   */
  datatype World = World(db: Database, clock: int, exact: bool, payable: set<Id>)

  ghost function Next(w: World, step: Step, rules: Rules): World {
    match step
    case Client(t) => w.(db := Apply(w.db, t, rules))
    case EvaluateDue(inputs, listing) =>
      var report := EvaluationRun(w.db, inputs, listing, rules);
      World(report.db, inputs.now, w.exact && !report.aborted, w.payable + Payable(w.db, report.records))
  }

  /** Other clients neither evaluate nor act as the evaluator; clocks do not run backward. */
  predicate Admissible(w: World, step: Step) {
    match step
    case Client(Appending(a)) => !(a.kind == OUTCOME && a.workerId == EVALUATOR)
    case Client(Evaluating(_)) => false
    case Client(Budgeting(_, _, _, reason, _)) => reason != EVALUATION_REASON
    case Client(_) => true
    case EvaluateDue(inputs, _) => w.clock <= inputs.now
  }

  ghost function RunFrom(start: World, steps: seq<Step>, rules: Rules): World {
    if steps == [] then start else Next(RunFrom(start, steps[..|steps| - 1], rules), steps[|steps| - 1], rules)
  }

  ghost predicate AllAdmissible(start: World, steps: seq<Step>, rules: Rules) {
    steps == [] || (AllAdmissible(start, steps[..|steps| - 1], rules)
                    && Admissible(RunFrom(start, steps[..|steps| - 1], rules), steps[|steps| - 1]))
  }

  /** Any store, before the evaluator has touched it. */
  ghost predicate Untouched(db: Database) {
    && LineageKept(db) && db.evaluations == []
    && (forall a :: a in db.artifacts ==> !(a.kind == OUTCOME && a.workerId == EVALUATOR))
    && (forall e :: e in db.events ==> e.reason != EVALUATION_REASON)
  }

  lemma UntouchedIsCounted(db: Database, clock: int)
    requires Untouched(db)
    ensures Evaluates(db, clock, true, {})
  {
    forall p: Id ensures Counted(db, p, true, {}) {
      CountNone(Scores(p), db.evaluations);
      CountNone(Reports(p), db.artifacts);
      CountNone(Pays(p), db.events);
    }
  }

  lemma OtherTablesKeepCounts(db: Database, next: Database, clock: int, exact: bool, payable: set<Id>)
    requires Evaluates(db, clock, exact, payable)
    requires next.artifacts == db.artifacts && next.edges == db.edges && next.evaluations == db.evaluations
    requires forall p: Id :: PaymentsOf(next, p) == PaymentsOf(db, p)
    ensures Evaluates(next, clock, exact, payable)
  {
    forall p: Id ensures Counted(next, p, exact, payable) { assert Counted(db, p, exact, payable); }
    forall r | r in next.evaluations ensures Timely(next, r, clock) { TimelyStays(db, next, r, clock, clock); }
  }

  lemma ClientKeepsCounts(db: Database, t: Transaction, rules: Rules, clock: int, exact: bool, payable: set<Id>)
    requires Evaluates(db, clock, exact, payable) && Admissible(World(db, clock, exact, payable), Client(t))
    ensures Evaluates(Apply(db, t, rules), clock, exact, payable)
  {
    if Attempt(db, t, rules).Success? {
      match t
      case Appending(a) => AppendingKeepsCounts(db, a, rules, clock, exact, payable);
      case Registering(_, _, _) => OtherTablesKeepCounts(db, Apply(db, t, rules), clock, exact, payable);
      case Budgeting(_, _, _, _, _) =>
        var next := Apply(db, t, rules);
        forall p: Id ensures PaymentsOf(next, p) == PaymentsOf(db, p) {
          PayingCounts(db, next.events[|db.events|], next.workers, p);
        }
        OtherTablesKeepCounts(db, next, clock, exact, payable);
      case Hinting(_, _) => OtherTablesKeepCounts(db, Apply(db, t, rules), clock, exact, payable);
    }
  }

  lemma RunKeepsCounts(
    db: Database, inputs: Inputs, listing: (Artifact, Artifact) -> bool, rules: Rules, clock: int, exact: bool, payable: set<Id>)
    requires Evaluates(db, clock, exact, payable) && clock <= inputs.now
    ensures var report := EvaluationRun(db, inputs, listing, rules);
            Evaluates(report.db, inputs.now, exact && !report.aborted, payable + Payable(db, report.records))
  {
    var due := DuePredictions(db, inputs.now, listing);
    if AllParse(Candidates(db, listing), inputs.normalize) {
      forall p | p in due ensures p in db.artifacts { DueArePending(db, inputs.now, listing, p); }
      SettleAllKeepsCounts(db, due, inputs, rules, clock, exact, payable);
    } else {
      assert payable + Payable(db, []) == payable;
      ClockMayAdvance(db, clock, inputs.now, exact, false, payable);
    }
  }

  lemma StepKeepsCounts(w: World, step: Step, rules: Rules)
    requires Evaluates(w.db, w.clock, w.exact, w.payable) && Admissible(w, step)
    ensures var next := Next(w, step, rules); Evaluates(next.db, next.clock, next.exact, next.payable)
  {
    match step
    case Client(t) => ClientKeepsCounts(w.db, t, rules, w.clock, w.exact, w.payable);
    case EvaluateDue(inputs, listing) =>
      RunKeepsCounts(w.db, inputs, listing, rules, w.clock, w.exact, w.payable);
  }

  /**
   * Over any run of evaluations with forward clocks, interleaved with any transactions of other clients: every prediction
   * is scored at most once, observed between its maturity and the clock, reported and paid for at most once; and while no
   * evaluation run has been aborted, reported exactly when scored, and paid for exactly when its worker was registered at
   * the time it was scored.
   */
  lemma {:induction false} EveryRunEvaluatesOnce(start: World, steps: seq<Step>, rules: Rules)
    requires Untouched(start.db) && start.exact && start.payable == {} && AllAdmissible(start, steps, rules)
    ensures var w := RunFrom(start, steps, rules); Evaluates(w.db, w.clock, w.exact, w.payable)
  {
    if steps == [] {
      UntouchedIsCounted(start.db, start.clock);
    } else {
      EveryRunEvaluatesOnce(start, steps[..|steps| - 1], rules);
      StepKeepsCounts(RunFrom(start, steps[..|steps| - 1], rules), steps[|steps| - 1], rules);
    }
  }

  /** The step is an evaluation run that scores this prediction while its worker is registered. */
  ghost predicate ScoresRegistered(w: World, step: Step, rules: Rules, p: Id) {
    step.EvaluateDue? && IsRegistered(w.db, p) &&
    exists r :: r in EvaluationRun(w.db, step.inputs, step.listing, rules).records && r.predictionId == p
  }

  lemma PayableGrows(w: World, step: Step, rules: Rules, p: Id)
    ensures p in Next(w, step, rules).payable <==> p in w.payable || ScoresRegistered(w, step, rules, p)
  {
  }

  ghost predicate ScoresRegisteredAt(start: World, steps: seq<Step>, rules: Rules, k: int, p: Id)
    requires 0 <= k < |steps|
  {
    ScoresRegistered(RunFrom(start, steps[..k], rules), steps[k], rules, p)
  }

  ghost function StepScores(start: World, steps: seq<Step>, rules: Rules, p: Id): int -> bool {
    (k: int) => 0 <= k < |steps| && ScoresRegisteredAt(start, steps, rules, k, p)
  }

  ghost predicate SomeBelow(n: int, f: int -> bool) {
    exists k :: 0 <= k < n && f(k)
  }

  lemma SomeBelowNext(n: nat, f: int -> bool, g: int -> bool)
    requires forall k :: 0 <= k < n ==> f(k) == g(k)
    ensures SomeBelow(n + 1, f) <==> SomeBelow(n, g) || f(n)
  {
    if k :| 0 <= k < n && g(k) { assert f(k); }
  }

  lemma OneMoreStepScores(start: World, steps: seq<Step>, rules: Rules, p: Id)
    requires steps != []
    ensures var init := steps[..|steps| - 1];
            SomeBelow(|steps|, StepScores(start, steps, rules, p))
            <==> SomeBelow(|init|, StepScores(start, init, rules, p)) || StepScores(start, steps, rules, p)(|init|)
  {
    var init := steps[..|steps| - 1];
    forall k | 0 <= k < |init| ensures StepScores(start, steps, rules, p)(k) == StepScores(start, init, rules, p)(k) {
      EarlierStepScores(start, steps, rules, k, p);
    }
    SomeBelowNext(|init|, StepScores(start, steps, rules, p), StepScores(start, init, rules, p));
  }

  /** What `payable` collects. */
  lemma {:induction false} PayableIffScoredWhileRegistered(start: World, steps: seq<Step>, rules: Rules, p: Id)
    requires start.payable == {}
    ensures p in RunFrom(start, steps, rules).payable <==> SomeBelow(|steps|, StepScores(start, steps, rules, p))
  {
    if steps != [] {
      PayableIffScoredWhileRegistered(start, steps[..|steps| - 1], rules, p);
      LastStepScores(start, steps, rules, p);
      OneMoreStepScores(start, steps, rules, p);
    }
  }

  lemma LastStepScores(start: World, steps: seq<Step>, rules: Rules, p: Id)
    requires steps != []
    ensures p in RunFrom(start, steps, rules).payable
            <==> p in RunFrom(start, steps[..|steps| - 1], rules).payable || ScoresRegisteredAt(start, steps, rules, |steps| - 1, p)
  {
    PayableGrows(RunFrom(start, steps[..|steps| - 1], rules), steps[|steps| - 1], rules, p);
  }

  lemma EarlierStepScores(start: World, steps: seq<Step>, rules: Rules, k: nat, p: Id)
    requires k < |steps| - 1
    ensures ScoresRegisteredAt(start, steps, rules, k, p) == ScoresRegisteredAt(start, steps[..|steps| - 1], rules, k, p)
  {
    assert steps[..|steps| - 1][..k] == steps[..k];
  }

  /** An outcome from outside the window changes nothing but the report of it: one anomaly child of the prediction. */
  lemma ContaminationOnlyReports(db: Database, p: Artifact, inputs: Inputs, rules: Rules)
    requires var o := inputs.resolver(p); o.Some? && ObservationValid(o.value) && !InWindow(p, o.value, inputs.now)
    ensures var (next, ending) := Settle(db, p, inputs, rules);
            if ending.Contaminated? then
              && |next.artifacts| == |db.artifacts| + 1
              && next.artifacts[|db.artifacts|].kind == ANOMALY && next.artifacts[|db.artifacts|].parentArtifacts == [p.id]
              && next == db.(artifacts := next.artifacts, edges := db.edges + {(inputs.drawn(p.id).artifactId, p.id)})
              && db.artifacts <= next.artifacts
            else ending.Aborted? && next == db
  {
    var a := AnomalyFor(p, inputs.resolver(p).value, inputs.drawn(p.id), inputs.now);
    assert a.Lineage() == [p.id];
    assert EdgesOf(a) == {(a.id, p.id)};
  }

  /** What the database already holds rules out none of the identifiers drawn. */
  ghost predicate Unused(db: Database, record: EvaluationRecord, outcome: Artifact, eventId: string, rules: Rules) {
    && !RecordTaken(db, record, rules)
    && outcome.id !in Ids(db.artifacts) && !HashTaken(db.artifacts, rules.artifactHash(outcome), rules)
    && !EventTaken(db.events, eventId)
  }

  /** All scores are probabilities, and the clamps leave them as computed. */
  lemma ScoresAreProbabilities(p: Artifact, o: Observation, clusterSize: nat, evaluationId: string)
    requires IsProbability(p.confidence) && ObservationValid(o)
    ensures var r := RecordFor(p, o, clusterSize, evaluationId);
            var miss := p.confidence - Indicator(Correct(p, o));
            && r.brier == miss * miss && r.calibration == 1.0 - miss * miss
            && IsProbability(r.brier) && IsProbability(r.calibration) && IsProbability(r.usefulness)
            && 0.0 < r.uniqueness <= 1.0 && r.cost >= 0.0 && r.tokens >= 0
  {
    var miss := p.confidence - Indicator(Correct(p, o));
    SquareOfSmall(miss);
    var n := (if clusterSize == 0 then 1 else clusterSize) as real;
    assert 0.0 < 1.0 / n <= 1.0;
  }

  lemma SquareOfSmall(x: real)
    requires -1.0 <= x <= 1.0
    ensures 0.0 <= x * x <= 1.0
  {
    if x >= 0.0 { assert x * x <= x * 1.0; } else { assert x * x == (-x) * (-x) <= (-x) * 1.0; }
  }

  /** No single settlement moves a budget by more than six up or down. */
  lemma DeltaIsBounded(p: Artifact, o: Observation, clusterSize: nat, evaluationId: string)
    requires IsProbability(p.confidence) && ObservationValid(o)
    ensures -6.0 < BudgetDelta(RecordFor(p, o, clusterSize, evaluationId), Correct(p, o)) <= 5.0
  {
    ScoresAreProbabilities(p, o, clusterSize, evaluationId);
  }

  /**
   * A mature prediction with a settlement inside its window is scored, reported and paid for in full exactly when its cost
   * and token count can be read and the record and the outcome artifact pass the checks. If only the outcome fails them,
   * the record stays behind alone; otherwise nothing is left.
   */
  lemma ScoringCompletesIff(db: Database, p: Artifact, inputs: Inputs, rules: Rules)
    requires p in db.artifacts && IsPrediction(p) && IsProbability(p.confidence) && !Evaluated(db, p.id) && LineageKept(db)
    requires inputs.resolver(p).Some? && ObservationValid(inputs.resolver(p).value)
    requires InWindow(p, inputs.resolver(p).value, inputs.now)
    requires var o, drawn := inputs.resolver(p).value, inputs.drawn(p.id);
             Unused(db, RecordFor(p, o, inputs.clusterSize(p.id), drawn.evaluationId), OutcomeFor(p, o, drawn), drawn.eventId, rules)
    ensures var o, drawn := inputs.resolver(p).value, inputs.drawn(p.id);
            var record, outcome := RecordFor(p, o, inputs.clusterSize(p.id), drawn.evaluationId), OutcomeFor(p, o, drawn);
            var (next, ending) := Settle(db, p, inputs, rules);
            && (ending == Scored(record) <==> Readable(p) && rules.recordOk(record) && rules.artifactOk(outcome))
            && (ending != Scored(record) ==> ending == Aborted)
            && (!Readable(p) || !rules.recordOk(record) ==> next == db)
            && (Readable(p) && rules.recordOk(record) ==> next.evaluations == db.evaluations + [record])
            && (Readable(p) && rules.recordOk(record) && !rules.artifactOk(outcome) ==> next.artifacts == db.artifacts && next.events == db.events)
            && (ending == Scored(record) ==>
                  && next.artifacts == db.artifacts + [outcome]
                  && |next.events| == |db.events| + (if p.workerId in db.workers then 1 else 0))
  {
    var o, drawn := inputs.resolver(p).value, inputs.drawn(p.id);
    var record, outcome := RecordFor(p, o, inputs.clusterSize(p.id), drawn.evaluationId), OutcomeFor(p, o, drawn);
    ScoresAreProbabilities(p, o, inputs.clusterSize(p.id), drawn.evaluationId);
    StoredIsFound(db.artifacts, p);
    assert AppendEvaluation(db, record, rules).Success? <==> rules.recordOk(record);
    if rules.recordOk(record) {
      var recorded := AppendEvaluation(db, record, rules).value;
      OutcomeIsAppended(recorded, p, o, drawn, rules);
      if rules.artifactOk(outcome) {
        IdsOfMore(db.artifacts, outcome);
        assert !Blank(EVALUATION_REASON) by { assert EVALUATION_REASON[0] in EVALUATION_REASON && EVALUATION_REASON[0] == 'm'; }
      }
    }
  }

  lemma StoredIsFound(artifacts: seq<Artifact>, p: Artifact)
    requires Chronological(artifacts) && p in artifacts
    ensures Find(artifacts, p.id) == Some(p)
  {
    OneArtifactPerId(artifacts, p, Find(artifacts, p.id).value);
  }

  lemma OutcomeIsAppended(db: Database, p: Artifact, o: Observation, drawn: Drawn, rules: Rules)
    requires p in db.artifacts && o.sourceRefs != []
    requires drawn.artifactId !in Ids(db.artifacts) && !HashTaken(db.artifacts, rules.artifactHash(OutcomeFor(p, o, drawn)), rules)
    ensures AppendArtifact(db, OutcomeFor(p, o, drawn), rules).Success? <==> rules.artifactOk(OutcomeFor(p, o, drawn))
  {
    var outcome := OutcomeFor(p, o, drawn);
    assert outcome.Lineage() == [p.id];
    assert p.id in Ids(db.artifacts);
    assert Parents(outcome) == {p.id};
  }

  /** A record without its outcome is never completed later: the prediction is not due again. */
  lemma ScoredIsNeverDueAgain(db: Database, now: int, listing: (Artifact, Artifact) -> bool, p: Artifact)
    requires Evaluated(db, p.id)
    ensures p !in DuePredictions(db, now, listing)
  {
    if p in DuePredictions(db, now, listing) { DueArePending(db, now, listing, p); }
  }

  const SAMPLE := Artifact(
    "p", 0, "w", PREDICTION, "subject", ["source"], 0.5, [], [], ACTIVE, Some(PredictionFields(UP, 1.0, 1)), Some(0.0), Some(0), "")

  /** A leading source reference must not be blank; everything else passes. */
  const BLANK_REFUSED := Rules(
    (a: Artifact) => a.sourceRefs != [] && !Blank(a.sourceRefs[0]), (a: Artifact) => a.id, (r: EvaluationRecord) => true,
    (r: EvaluationRecord) => r.id, (n: nat) => "")

  const BLANK_SETTLEMENT := Inputs(
    1, (a: Artifact) => Some(Observation(true, 1.0, UP, 1, [" "], None)), (id: Id) => Drawn("e", "o", "b", ""), (id: Id) => 1,
    (ref: string) => Some(ref))

  /** A settlement whose only source reference is blank is recorded, and its outcome is lost. */
  lemma BlankSourceLosesOutcome()
    ensures var db := EMPTY.(artifacts := [SAMPLE]);
            var (next, ending) := Settle(db, SAMPLE, BLANK_SETTLEMENT, BLANK_REFUSED);
            && db == Apply(EMPTY, Appending(SAMPLE), BLANK_REFUSED)
            && ending == Aborted && Evaluated(next, SAMPLE.id) && next.artifacts == db.artifacts
  {
    var db := EMPTY.(artifacts := [SAMPLE]);
    SampleIsStored();
    var o, drawn := BLANK_SETTLEMENT.resolver(SAMPLE).value, BLANK_SETTLEMENT.drawn(SAMPLE.id);
    assert OutcomeFor(SAMPLE, o, drawn).sourceRefs == [" "];
    assert Chronological(db.artifacts) && SAMPLE in db.artifacts;
    ScoringCompletesIff(db, SAMPLE, BLANK_SETTLEMENT, BLANK_REFUSED);
    var next := Settle(db, SAMPLE, BLANK_SETTLEMENT, BLANK_REFUSED).0;
    assert next.evaluations[0] in next.evaluations;
  }

  lemma SampleIsStored()
    ensures Apply(EMPTY, Appending(SAMPLE), BLANK_REFUSED) == EMPTY.(artifacts := [SAMPLE])
  {
    assert !Blank("source") by { assert "source"[0] == 's' && "source"[0] in "source"; }
    assert EdgesOf(SAMPLE) == {};
  }
}
