/** The append-only store: artifacts and their lineage, evaluations, workers and their budget ledger. */
module Store {
  import opened Ordering
  import opened Reachability
  import opened Schema

  datatype EvaluationRecord = EvaluationRecord(
    id: string,
    predictionId: Id,
    realizedDirection: Direction,
    brier: real,
    calibration: real,
    usefulness: real,
    uniqueness: real,
    cost: real,
    tokens: int,
    evaluatedAt: int,
    sourceRefs: seq<string>)

  datatype Worker = Worker(budget: real, pattern: Option<string>)

  datatype BudgetEvent = BudgetEvent(id: string, workerId: Id, delta: real, reason: string, related: Option<Id>)

  /** The tables, each in insertion order where order is kept. An edge leads from a child to its parent. */
  datatype Database = Database(
    artifacts: seq<Artifact>,
    edges: Edges<Id>,
    evaluations: seq<EvaluationRecord>,
    workers: map<Id, Worker>,
    events: seq<BudgetEvent>)

  const EMPTY := Database([], {}, [], map[], [])

  /**
   * The checks and digests that are left abstract: identifiers, timestamps, texts, secrets and size of artifacts and of
   * records, the two content hashes, and the numbering of workers.
   */
  datatype Rules = Rules(
    artifactOk: Artifact -> bool,
    artifactHash: Artifact -> string,
    recordOk: EvaluationRecord -> bool,
    recordHash: EvaluationRecord -> string,
    workerName: nat -> Id)

  /** For examples: everything is well formed, identifiers are their own digests, and workers are called A and B. */
  const LENIENT := Rules(
    (a: Artifact) => true, (a: Artifact) => a.id, (r: EvaluationRecord) => true, (r: EvaluationRecord) => r.id,
    (n: nat) => if n == 1 then "A" else "B")

  datatype StoreError =
    | MalformedArtifact | NoSources | BadConfidence | SelfReference | DuplicateLineage
    | MissingPrediction | UnexpectedPrediction | EarlyEvaluation | MagnitudeWithoutSignal
    | MissingLineage(missing: set<Id>) | DuplicateKey
    | NotAPrediction | MalformedRecord
    | BadWorkerCount | NegativeBudget | NoCapability
    | UnknownWorker | NoReason | UnknownArtifact

  /** Why an artifact fails validation, if it does. */
  function Refusal(a: Artifact, rules: Rules): Option<StoreError> {
    if !rules.artifactOk(a) then Some(MalformedArtifact)
    else if a.sourceRefs == [] then Some(NoSources)
    else if !IsProbability(a.confidence) then Some(BadConfidence)
    else if a.id in a.Lineage() then Some(SelfReference)
    else if !Distinct(a.Lineage()) then Some(DuplicateLineage)
    else if a.kind == PREDICTION then
      if a.prediction.None? then Some(MissingPrediction)
      else if a.prediction.value.evaluationAt <= a.createdAt then Some(EarlyEvaluation)
      else if a.prediction.value.expectedDirection == NO_SIGNAL && a.prediction.value.expectedMagnitude != 0.0 then
        Some(MagnitudeWithoutSignal)
      else None
    else if a.prediction.Some? then Some(UnexpectedPrediction)
    else None
  }

  function Ids(artifacts: seq<Artifact>): set<Id> {
    set a | a in artifacts :: a.id
  }

  function Parents(a: Artifact): set<Id> {
    set p | p in a.Lineage()
  }

  function EdgesOf(a: Artifact): Edges<Id> {
    set p | p in a.Lineage() :: (a.id, p)
  }

  /** The row with this key, if there is one. */
  function Find(artifacts: seq<Artifact>, id: Id): (r: Option<Artifact>)
    ensures r.Some? <==> id in Ids(artifacts)
    ensures r.Some? ==> r.value in artifacts && r.value.id == id
  {
    if artifacts == [] then None
    else if artifacts[0].id == id then Some(artifacts[0])
    else Find(artifacts[1..], id)
  }

  predicate HashTaken(artifacts: seq<Artifact>, hash: string, rules: Rules) {
    exists a :: a in artifacts && rules.artifactHash(a) == hash
  }

  function AppendArtifact(db: Database, a: Artifact, rules: Rules): Result<Database, StoreError> {
    var missing := Parents(a) - Ids(db.artifacts);
    if Refusal(a, rules).Some? then Failure(Refusal(a, rules).value)
    else if missing != {} then Failure(MissingLineage(missing))
    else if a.id in Ids(db.artifacts) || HashTaken(db.artifacts, rules.artifactHash(a), rules) then Failure(DuplicateKey)
    else Success(db.(artifacts := db.artifacts + [a], edges := db.edges + EdgesOf(a)))
  }

  predicate RecordValid(r: EvaluationRecord, rules: Rules) {
    && rules.recordOk(r)
    && IsProbability(r.brier) && IsProbability(r.calibration) && IsProbability(r.usefulness) && IsProbability(r.uniqueness)
    && r.cost >= 0.0 && r.tokens >= 0 && r.sourceRefs != []
  }

  predicate Evaluated(db: Database, predictionId: Id) {
    exists r :: r in db.evaluations && r.predictionId == predictionId
  }

  predicate RecordTaken(db: Database, r: EvaluationRecord, rules: Rules) {
    exists e :: e in db.evaluations && (e.id == r.id || rules.recordHash(e) == rules.recordHash(r))
  }

  function AppendEvaluation(db: Database, r: EvaluationRecord, rules: Rules): Result<Database, StoreError> {
    if !RecordValid(r, rules) then Failure(MalformedRecord)
    else
      var prediction := Find(db.artifacts, r.predictionId);
      if prediction.None? || prediction.value.kind != PREDICTION then Failure(NotAPrediction)
      else if Evaluated(db, r.predictionId) || RecordTaken(db, r, rules) then Failure(DuplicateKey)
      else Success(db.(evaluations := db.evaluations + [r]))
  }

  /** `INSERT OR IGNORE` for workers numbered from one: those already registered keep what they have. */
  function Enrolled(workers: map<Id, Worker>, count: nat, initialBudget: real, rules: Rules): map<Id, Worker> {
    if count == 0 then workers
    else
      var before := Enrolled(workers, count - 1, initialBudget, rules);
      if rules.workerName(count) in before then before
      else before[rules.workerName(count) := Worker(initialBudget, None)]
  }

  function RegisterWorkers(db: Database, count: int, initialBudget: real, capable: bool, rules: Rules): Result<Database, StoreError> {
    if count < 1 || count > 1000 then Failure(BadWorkerCount)
    else if initialBudget < 0.0 then Failure(NegativeBudget)
    else if !capable then Failure(NoCapability)
    else Success(db.(workers := Enrolled(db.workers, count, initialBudget, rules)))
  }

  predicate Blank(text: string) {
    forall c :: c in text ==> c in {' ', '\t', '\n', '\r'}
  }

  predicate EventTaken(events: seq<BudgetEvent>, id: string) {
    exists e :: e in events && e.id == id
  }

  function NotBelowZero(x: real): real {
    if x < 0.0 then 0.0 else x
  }

  /** A budget never falls below zero; the ledger records the change that was applied, not the one requested. */
  function AppendBudgetEvent(db: Database, id: string, workerId: Id, delta: real, reason: string, related: Option<Id>)
    : Result<Database, StoreError>
  {
    if Blank(reason) then Failure(NoReason)
    else if workerId !in db.workers then Failure(UnknownWorker)
    else if EventTaken(db.events, id) then Failure(DuplicateKey)
    else if related.Some? && related.value !in Ids(db.artifacts) then Failure(UnknownArtifact)
    else
      var current := db.workers[workerId].budget;
      var next := NotBelowZero(current + delta);
      Success(db.(
        events := db.events + [BudgetEvent(id, workerId, next - current, reason, related)],
        workers := db.workers[workerId := db.workers[workerId].(budget := next)]))
  }

  function SetBehavioralPattern(db: Database, workerId: Id, pattern: Option<string>): Result<Database, StoreError> {
    if workerId !in db.workers then Failure(UnknownWorker)
    else Success(db.(workers := db.workers[workerId := db.workers[workerId].(pattern := pattern)]))
  }

  /** One committed or rolled-back transaction of any client. */
  datatype Transaction =
    | Appending(artifact: Artifact)
    | Evaluating(record: EvaluationRecord)
    | Registering(count: int, initialBudget: real, capable: bool)
    | Budgeting(id: string, workerId: Id, delta: real, reason: string, related: Option<Id>)
    | Hinting(worker: Id, pattern: Option<string>)

  function Attempt(db: Database, t: Transaction, rules: Rules): Result<Database, StoreError> {
    match t
    case Appending(a) => AppendArtifact(db, a, rules)
    case Evaluating(r) => AppendEvaluation(db, r, rules)
    case Registering(count, budget, capable) => RegisterWorkers(db, count, budget, capable, rules)
    case Budgeting(id, w, delta, reason, related) => AppendBudgetEvent(db, id, w, delta, reason, related)
    case Hinting(w, pattern) => SetBehavioralPattern(db, w, pattern)
  }

  /** A transaction that fails is rolled back. */
  function Apply(db: Database, t: Transaction, rules: Rules): Database {
    var r := Attempt(db, t, rules);
    if r.Success? then r.value else db
  }

  function Run(ts: seq<Transaction>, rules: Rules): Database {
    if ts == [] then EMPTY else Apply(Run(ts[..|ts| - 1], rules), ts[|ts| - 1], rules)
  }

  /** The artifact store, whose methods commit or leave every table as it was. */
  class ArtifactStore {
    const rules: Rules
    var artifacts: seq<Artifact>
    var edges: Edges<Id>
    var evaluations: seq<EvaluationRecord>
    var workers: map<Id, Worker>
    var events: seq<BudgetEvent>

    constructor (rules: Rules)
      ensures Db() == EMPTY && this.rules == rules
    {
      this.rules := rules;
      artifacts, edges, evaluations, workers, events := [], {}, [], map[], [];
    }

    function Db(): Database
      reads this
    {
      Database(artifacts, edges, evaluations, workers, events)
    }

    method AddArtifact(a: Artifact) returns (r: Result<string, StoreError>)
      modifies this`artifacts, this`edges
      ensures Db() == Apply(old(Db()), Appending(a), rules)
      ensures r == match AppendArtifact(old(Db()), a, rules)
                   case Success(_) => Success(rules.artifactHash(a))
                   case Failure(e) => Failure(e)
    {
      var refusal := Refusal(a, rules);
      if refusal.Some? { return Failure(refusal.value); }
      var missing := Parents(a) - Ids(artifacts);
      if missing != {} { return Failure(MissingLineage(missing)); }
      if a.id in Ids(artifacts) || HashTaken(artifacts, rules.artifactHash(a), rules) { return Failure(DuplicateKey); }
      artifacts := artifacts + [a];
      var lineage := a.Lineage();
      for i := 0 to |lineage|
        invariant artifacts == old(artifacts) + [a] && evaluations == old(evaluations)
        invariant workers == old(workers) && events == old(events)
        invariant edges == old(edges) + set j | 0 <= j < i :: (a.id, lineage[j])
      {
        edges := edges + {(a.id, lineage[i])};
      }
      assert (set j | 0 <= j < |lineage| :: (a.id, lineage[j])) == EdgesOf(a);
      r := Success(rules.artifactHash(a));
    }

    method AddEvaluation(record: EvaluationRecord) returns (r: Result<string, StoreError>)
      modifies this`evaluations
      ensures Db() == Apply(old(Db()), Evaluating(record), rules)
      ensures r == match AppendEvaluation(old(Db()), record, rules)
                   case Success(_) => Success(rules.recordHash(record))
                   case Failure(e) => Failure(e)
    {
      if !RecordValid(record, rules) { return Failure(MalformedRecord); }
      var prediction := Find(artifacts, record.predictionId);
      if prediction.None? || prediction.value.kind != PREDICTION { return Failure(NotAPrediction); }
      if Evaluated(Db(), record.predictionId) || RecordTaken(Db(), record, rules) { return Failure(DuplicateKey); }
      evaluations := evaluations + [record];
      r := Success(rules.recordHash(record));
    }

    method Enrol(count: int, initialBudget: real, capable: bool) returns (r: Result<(), StoreError>)
      modifies this`workers
      ensures Db() == Apply(old(Db()), Registering(count, initialBudget, capable), rules)
      ensures r.Success? <==> RegisterWorkers(old(Db()), count, initialBudget, capable, rules).Success?
    {
      if count < 1 || count > 1000 { return Failure(BadWorkerCount); }
      if initialBudget < 0.0 { return Failure(NegativeBudget); }
      if !capable { return Failure(NoCapability); }
      for i := 0 to count
        invariant workers == Enrolled(old(workers), i, initialBudget, rules)
        invariant Db() == old(Db()).(workers := workers)
      {
        var workerId := rules.workerName(i + 1);
        if workerId !in workers { workers := workers[workerId := Worker(initialBudget, None)]; }
      }
      r := Success(());
    }

    method AddBudgetEvent(id: string, workerId: Id, delta: real, reason: string, related: Option<Id>)
      returns (r: Result<real, StoreError>)
      modifies this`workers, this`events
      ensures Db() == Apply(old(Db()), Budgeting(id, workerId, delta, reason, related), rules)
      ensures match AppendBudgetEvent(old(Db()), id, workerId, delta, reason, related)
              case Success(_) => workerId in workers && r == Success(workers[workerId].budget)
              case Failure(e) => r == Failure(e)
    {
      if Blank(reason) { return Failure(NoReason); }
      if workerId !in workers { return Failure(UnknownWorker); }
      if EventTaken(events, id) { return Failure(DuplicateKey); }
      if related.Some? && related.value !in Ids(artifacts) { return Failure(UnknownArtifact); }
      var currentBudget := workers[workerId].budget;
      var nextBudget := NotBelowZero(currentBudget + delta);
      events := events + [BudgetEvent(id, workerId, nextBudget - currentBudget, reason, related)];
      workers := workers[workerId := workers[workerId].(budget := nextBudget)];
      r := Success(nextBudget);
    }
  }
}
