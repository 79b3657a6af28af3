/** What a round of workers adds to the store, and what it leaves of their budgets. */
module OrchestrationLaws {
  import opened Lineage
  import opened Lists
  import opened Orchestration
  import opened Ordering
  import opened Schema
  import opened Store

  function Budget(db: Database, w: Id): real {
    if w in db.workers then db.workers[w].budget else 0.0
  }

  /** The references of `a` whose reward goes to `v`. */
  function PaysTo(artifacts: seq<Artifact>, a: Artifact, v: Id, registered: set<Id>): Id -> bool {
    (p: Id) => Rewarded(artifacts, a, p, registered) && Find(artifacts, p).value.workerId == v
  }

  /** How many rewards an artifact earns a worker. */
  function Credits(artifacts: seq<Artifact>, a: Artifact, v: Id, registered: set<Id>): nat {
    CountIf(PaysTo(artifacts, a, v, registered), RewardList(a))
  }

  function CreditsTo(artifacts: seq<Artifact>, v: Id, registered: set<Id>): Artifact -> nat {
    (a: Artifact) => Credits(artifacts, a, v, registered)
  }

  /** How many rewards a list of artifacts earns a worker. */
  function Earned(artifacts: seq<Artifact>, from: seq<Artifact>, v: Id, registered: set<Id>): nat {
    Total(CreditsTo(artifacts, v, registered), from)
  }

  /** What a failure takes from a budget: one unit, or all there is. */
  function Penalty(budget: real): real {
    if budget < 1.0 then budget else 1.0
  }

  /** The artifact that a worker leaves in a round. */
  function LeftBy(plan: Plan, w: Id, fails: bool): Artifact {
    if fails || plan.generate(w).None? then CritiqueOf(w, plan.subject, plan.ticket(w)) else plan.generate(w).value
  }

  /** The worker's generation would be stored now. */
  predicate Succeeds(db: Database, w: Id, plan: Plan, rules: Rules) {
    var a := plan.generate(w);
    a.Some? && OutputValid(w, plan.subject, a.value, rules) && AppendArtifact(db, a.value, rules).Success?
  }

  /** The report of the worker's failure would be stored now. */
  predicate CanReport(db: Database, w: Id, plan: Plan, rules: Rules) {
    AppendArtifact(db, CritiqueOf(w, plan.subject, plan.ticket(w)), rules).Success?
  }

  /** The event identifiers that a worker's ticket may use. */
  ghost predicate Uses(plan: Plan, w: Id, event: string) {
    event == plan.ticket(w).penaltyEvent || exists p: Id :: event == plan.ticket(w).rewardEvent(p)
  }

  /** Every identifier drawn for a budget event is used for one event only. */
  ghost predicate TicketsFresh(events: seq<BudgetEvent>, order: seq<Id>, plan: Plan) {
    && (forall w, event :: w in order && Uses(plan, w, event) ==> !EventTaken(events, event))
    && (forall w, v, event :: w in order && v in order && Uses(plan, w, event) && Uses(plan, v, event) ==> w == v)
    && (forall w, p: Id, q: Id :: w in order && plan.ticket(w).rewardEvent(p) == plan.ticket(w).rewardEvent(q) ==> p == q)
    && (forall w, p: Id :: w in order ==> plan.ticket(w).rewardEvent(p) != plan.ticket(w).penaltyEvent)
  }

  lemma UniqueMembers<T(!new)>(s: seq<T>)
    ensures Distinct(Unique(s)) && forall x :: x in Unique(s) <==> x in s
  {
    UniqueIsDistinct(s);
    assert forall x :: x in Unique(s) <==> x in Elements(Unique(s));
  }

  lemma RewardListIsDistinct(a: Artifact)
    ensures Distinct(RewardList(a)) && forall p :: p in RewardList(a) <==> p in a.Lineage()
  {
    UniqueMembers(a.Lineage());
    DistinctIsCanonical(Unique(a.Lineage()), RewardList(a));
    MembersOfEqualMultisets(Unique(a.Lineage()), RewardList(a));
  }

  ghost predicate NoDebts(db: Database) {
    forall w: Id :: w in db.workers ==> db.workers[w].budget >= 0.0
  }

  lemma EventTakenIff(events: seq<BudgetEvent>, e: BudgetEvent, id: string)
    ensures EventTaken(events + [e], id) <==> EventTaken(events, id) || e.id == id
  {
    assert e in events + [e];
    assert forall x :: x in events ==> x in events + [e];
  }

  /** One reward is taken in full. */
  lemma RewardOnePays(db: Database, a: Artifact, p: Id, registered: set<Id>, event: Id -> string)
    requires registered <= db.workers.Keys && NoDebts(db) && !EventTaken(db.events, event(p))
    ensures var (next, ok) := RewardOne(db, a, p, registered, event);
            && ok && NoDebts(next) && next.workers.Keys == db.workers.Keys
            && next.artifacts == db.artifacts && next.edges == db.edges && next.evaluations == db.evaluations
            && (forall v: Id :: Budget(next, v) == Budget(db, v) + if PaysTo(db.artifacts, a, v, registered)(p) then REUSE_REWARD else 0.0)
            && (forall id: string :: EventTaken(next.events, id) ==> EventTaken(db.events, id) || id == event(p))
  {
    assert !Blank(REUSE_REASON) by { assert REUSE_REASON[0] == 'd' && REUSE_REASON[0] in REUSE_REASON; }
    if Rewarded(db.artifacts, a, p, registered) {
      var next := RewardOne(db, a, p, registered, event).0;
      forall id: string | EventTaken(next.events, id) ensures EventTaken(db.events, id) || id == event(p) {
        EventTakenIff(db.events, next.events[|db.events|], id);
      }
    }
  }

  /** All rewards of an artifact are taken in full. */
  lemma {:induction false} RewardAllPays(db: Database, a: Artifact, parents: seq<Id>, registered: set<Id>, event: Id -> string)
    requires registered <= db.workers.Keys && NoDebts(db) && Distinct(parents)
    requires forall p: Id :: !EventTaken(db.events, event(p))
    requires forall p: Id, q: Id :: event(p) == event(q) ==> p == q
    ensures var (next, ok) := RewardAll(db, a, parents, registered, event);
            && ok && NoDebts(next) && next.workers.Keys == db.workers.Keys
            && next.artifacts == db.artifacts && next.edges == db.edges && next.evaluations == db.evaluations
            && (forall v: Id :: Budget(next, v) == Budget(db, v) + REUSE_REWARD * CountIf(PaysTo(db.artifacts, a, v, registered), parents) as real)
            && (forall id: string :: EventTaken(next.events, id) ==> EventTaken(db.events, id) || exists p :: p in parents && id == event(p))
  {
    if parents != [] {
      var n := |parents| - 1;
      var init, p := parents[..n], parents[n];
      RewardAllPays(db, a, init, registered, event);
      var before := RewardAll(db, a, init, registered, event).0;
      assert p !in init && parents == init + [p];
      assert !EventTaken(before.events, event(p));
      RewardOnePays(before, a, p, registered, event);
    }
  }

  /** The state of a round between two completions, for a worker that has not completed yet. */
  ghost predicate Ready(db: Database, w: Id, plan: Plan) {
    && LineageKept(db) && NoDebts(db) && plan.registered <= db.workers.Keys && w in db.workers
    && (forall event :: Uses(plan, w, event) ==> !EventTaken(db.events, event))
    && (forall p: Id, q: Id :: plan.ticket(w).rewardEvent(p) == plan.ticket(w).rewardEvent(q) ==> p == q)
    && (forall p: Id :: plan.ticket(w).rewardEvent(p) != plan.ticket(w).penaltyEvent)
  }

  /** One completion adds one artifact, pays its rewards, and takes the penalty from a worker that fails. */
  ghost predicate Completed(before: Round, after: Round, w: Id, plan: Plan, fails: bool) {
    && LineageKept(after.db) && NoDebts(after.db) && after.db.workers.Keys == before.db.workers.Keys
    && var added := LeftBy(plan, w, fails);
    && after.db.artifacts == before.db.artifacts + [added] && added.workerId == w && added.subject == plan.subject
    && after.stored == before.stored + [added.id]
    && after.failed == (if fails then before.failed + [w] else before.failed)
    && (forall v: Id :: Budget(after.db, v) == Budget(before.db, v)
                          + REUSE_REWARD * Credits(after.db.artifacts, added, v, plan.registered) as real
                          - if v == w && fails then Penalty(Budget(before.db, w)) else 0.0)
    && (forall id: string :: EventTaken(after.db.events, id) ==> EventTaken(before.db.events, id) || Uses(plan, w, id))
  }

  lemma CritiqueEarnsNothing(artifacts: seq<Artifact>, w: Id, plan: Plan, v: Id)
    ensures Credits(artifacts, CritiqueOf(w, plan.subject, plan.ticket(w)), v, plan.registered) == 0
  {
    var critique := CritiqueOf(w, plan.subject, plan.ticket(w));
    assert critique.Lineage() == [];
    RewardListIsDistinct(critique);
    assert RewardList(critique) == [];
  }

  lemma FailureCompletes(round: Round, w: Id, plan: Plan, rules: Rules)
    requires Ready(round.db, w, plan) && CanReport(round.db, w, plan, rules)
    ensures !RecordFailure(round, w, plan, rules).aborted == !round.aborted
    ensures Completed(round, RecordFailure(round, w, plan, rules), w, plan, true)
  {
    var critique := CritiqueOf(w, plan.subject, plan.ticket(w));
    AppendKeepsLineage(round.db, critique, rules);
    IdsOfMore(round.db.artifacts, critique);
    assert !Blank(FAILURE_REASON) by { assert FAILURE_REASON[0] == 'i' && FAILURE_REASON[0] in FAILURE_REASON; }
    assert Uses(plan, w, plan.ticket(w).penaltyEvent);
    var after := RecordFailure(round, w, plan, rules);
    forall id: string | EventTaken(after.db.events, id) ensures EventTaken(round.db.events, id) || Uses(plan, w, id) {
      EventTakenIff(round.db.events, after.db.events[|round.db.events|], id);
    }
    forall v: Id ensures Credits(after.db.artifacts, critique, v, plan.registered) == 0 {
      CritiqueEarnsNothing(after.db.artifacts, w, plan, v);
    }
  }

  lemma RewardsOfOutput(db: Database, w: Id, a: Artifact, plan: Plan, rules: Rules)
    requires Ready(db, w, plan) && AppendArtifact(db, a, rules).Success?
    ensures var committed := AppendArtifact(db, a, rules).value;
            var (next, ok) := RewardAll(committed, a, RewardList(a), plan.registered, plan.ticket(w).rewardEvent);
            && ok && LineageKept(next) && NoDebts(next) && next.workers.Keys == db.workers.Keys
            && next.artifacts == db.artifacts + [a]
            && (forall v: Id :: Budget(next, v) == Budget(db, v) + REUSE_REWARD * Credits(next.artifacts, a, v, plan.registered) as real)
            && (forall id: string :: EventTaken(next.events, id) ==> EventTaken(db.events, id) || Uses(plan, w, id))
  {
    var committed := AppendArtifact(db, a, rules).value;
    AppendKeepsLineage(db, a, rules);
    RewardListIsDistinct(a);
    forall p: Id ensures !EventTaken(committed.events, plan.ticket(w).rewardEvent(p)) {
      assert Uses(plan, w, plan.ticket(w).rewardEvent(p));
    }
    RewardAllPays(committed, a, RewardList(a), plan.registered, plan.ticket(w).rewardEvent);
  }

  lemma SuccessCompletes(round: Round, w: Id, plan: Plan, rules: Rules)
    requires Ready(round.db, w, plan) && Succeeds(round.db, w, plan, rules)
    ensures !Complete(round, w, plan, rules).aborted == !round.aborted
    ensures Completed(round, Complete(round, w, plan, rules), w, plan, false)
  {
    var a := plan.generate(w).value;
    RewardsOfOutput(round.db, w, a, plan, rules);
    var after := Complete(round, w, plan, rules);
    assert after.stored == round.stored + [a.id] && after.failed == round.failed;
  }

  /**
   * How a completion ends is decided by the store it finds: it fails exactly when its output cannot be stored, and aborts
   * the round exactly when the report of the failure cannot be stored either.
   */
  lemma CompletionIsDecided(round: Round, w: Id, plan: Plan, rules: Rules)
    requires Ready(round.db, w, plan) && !round.aborted
    ensures var after, fails := Complete(round, w, plan, rules), !Succeeds(round.db, w, plan, rules);
            && (after.aborted <==> fails && !CanReport(round.db, w, plan, rules))
            && (!after.aborted ==> Completed(round, after, w, plan, fails))
  {
    if Succeeds(round.db, w, plan, rules) {
      SuccessCompletes(round, w, plan, rules);
    } else if CanReport(round.db, w, plan, rules) {
      FailureCompletes(round, w, plan, rules);
    }
  }

  lemma {:induction false} FindIsStable(artifacts: seq<Artifact>, more: seq<Artifact>, p: Id)
    requires p in Ids(artifacts)
    ensures Find(artifacts + more, p) == Find(artifacts, p)
  {
    if artifacts[0].id != p {
      assert (artifacts + more)[1..] == artifacts[1..] + more;
      assert p in Ids(artifacts[1..]);
      FindIsStable(artifacts[1..], more, p);
    }
  }

  lemma {:induction false} CountSame<T>(f: T -> bool, g: T -> bool, s: seq<T>)
    requires forall x :: x in s ==> f(x) == g(x)
    ensures CountIf(f, s) == CountIf(g, s)
  {
    if s != [] { CountSame(f, g, s[..|s| - 1]); }
  }

  /** What an artifact earns others depends on the rows of its references only. */
  lemma CreditsAgree(artifacts: seq<Artifact>, others: seq<Artifact>, a: Artifact, v: Id, registered: set<Id>)
    requires forall p :: p in Parents(a) ==> Find(artifacts, p) == Find(others, p)
    ensures Credits(artifacts, a, v, registered) == Credits(others, a, v, registered)
  {
    RewardListIsDistinct(a);
    forall p | p in RewardList(a) ensures PaysTo(artifacts, a, v, registered)(p) == PaysTo(others, a, v, registered)(p) {
      assert p in Parents(a);
    }
    CountSame(PaysTo(artifacts, a, v, registered), PaysTo(others, a, v, registered), RewardList(a));
  }

  /** What stored artifacts earn others does not change as the store grows. */
  lemma EarnedIsStable(artifacts: seq<Artifact>, more: seq<Artifact>, from: seq<Artifact>, v: Id, registered: set<Id>)
    requires forall a :: a in from ==> Parents(a) <= Ids(artifacts)
    ensures Earned(artifacts + more, from, v, registered) == Earned(artifacts, from, v, registered)
  {
    forall a | a in from ensures Credits(artifacts + more, a, v, registered) == Credits(artifacts, a, v, registered) {
      forall p | p in Parents(a) ensures Find(artifacts + more, p) == Find(artifacts, p) { FindIsStable(artifacts, more, p); }
      CreditsAgree(artifacts + more, artifacts, a, v, registered);
    }
    TotalSame(CreditsTo(artifacts + more, v, registered), CreditsTo(artifacts, v, registered), from);
  }

  lemma ParentsAreStored(artifacts: seq<Artifact>, a: Artifact)
    requires Chronological(artifacts) && a in artifacts
    ensures Parents(a) <= Ids(artifacts)
  {
    var i :| 0 <= i < |artifacts| && artifacts[i] == a;
    assert forall b :: b in artifacts[..i] ==> b in artifacts;
  }

  /** A round may start: its workers are registered, each takes part once, and all event identifiers are fresh. */
  ghost predicate MayStart(db: Database, order: seq<Id>, plan: Plan) {
    && LineageKept(db) && NoDebts(db) && plan.registered <= db.workers.Keys
    && Distinct(order) && (forall w :: w in order ==> w in db.workers)
    && TicketsFresh(db.events, order, plan)
  }

  /** The place of a worker in the order of completion. */
  function Place(order: seq<Id>, v: Id): (i: nat)
    ensures i <= |order| && (v in order ==> i < |order| && order[i] == v)
  {
    if order == [] then 0
    else
      var last := |order| - 1;
      assert order == order[..last] + [order[last]];
      if v in order[..last] then Place(order[..last], v) else if order[last] == v then last else |order|
  }

  /** The artifacts of the round, in the order in which they were stored. */
  function Added(start: Database, r: Round): seq<Artifact>
    requires |start.artifacts| <= |r.db.artifacts|
  {
    r.db.artifacts[|start.artifacts|..]
  }

  /** What a worker holds when it completes: its budget at the start and the rewards of the completions before it. */
  function Held(start: Database, order: seq<Id>, r: Round, plan: Plan, v: Id): real
    requires |start.artifacts| <= |r.db.artifacts| && |Added(start, r)| == |order|
  {
    Budget(start, v) + REUSE_REWARD * Earned(r.db.artifacts, Added(start, r)[..Place(order, v)], v, plan.registered) as real
  }

  ghost predicate BudgetFollows(start: Database, order: seq<Id>, r: Round, plan: Plan, v: Id)
    requires |start.artifacts| <= |r.db.artifacts| && |Added(start, r)| == |order|
  {
    Budget(r.db, v) == Budget(start, v)
      + REUSE_REWARD * Earned(r.db.artifacts, Added(start, r), v, plan.registered) as real
      - if v in r.failed then Penalty(Held(start, order, r, plan, v)) else 0.0
  }

  /** The `i`-th artifact is the one left by the worker that completed `i`-th, and the `i`-th reported. */
  ghost predicate EachLeftOne(added: seq<Artifact>, order: seq<Id>, r: Round, plan: Plan) {
    && |added| == |order| == |r.stored|
    && forall i {:trigger added[i]} :: 0 <= i < |added| ==>
         && added[i] == LeftBy(plan, order[i], order[i] in r.failed) && added[i].id == r.stored[i]
         && added[i].workerId == order[i] && added[i].subject == plan.subject
  }

  /** One artifact for each completion, after those that were there before. */
  ghost predicate OneArtifactEach(start: Database, order: seq<Id>, r: Round, plan: Plan) {
    && |start.artifacts| <= |r.db.artifacts| && r.db.artifacts[..|start.artifacts|] == start.artifacts
    && EachLeftOne(Added(start, r), order, r, plan)
  }

  ghost predicate RoundKeeps(start: Database, order: seq<Id>, r: Round, plan: Plan) {
    && LineageKept(r.db) && NoDebts(r.db) && r.db.workers.Keys == start.workers.Keys
    && (forall w :: w in r.failed ==> w in order)
    && (forall id: string :: EventTaken(r.db.events, id) ==> EventTaken(start.events, id) || exists w :: w in order && Uses(plan, w, id))
  }

  /** Artifacts, budgets and events after a round. */
  ghost predicate Accounted(start: Database, order: seq<Id>, r: Round, plan: Plan) {
    && OneArtifactEach(start, order, r, plan) && RoundKeeps(start, order, r, plan)
    && forall v: Id :: BudgetFollows(start, order, r, plan, v)
  }

  lemma MayStartShorter(db: Database, order: seq<Id>, plan: Plan)
    requires MayStart(db, order, plan) && order != []
    ensures MayStart(db, order[..|order| - 1], plan) && order[|order| - 1] !in order[..|order| - 1]
  {
    assert forall w :: w in order[..|order| - 1] ==> w in order;
  }

  lemma NextIsReady(start: Database, order: seq<Id>, plan: Plan, before: Round)
    requires MayStart(start, order, plan) && order != [] && RoundKeeps(start, order[..|order| - 1], before, plan)
    ensures Ready(before.db, order[|order| - 1], plan)
  {
    var w := order[|order| - 1];
    MayStartShorter(start, order, plan);
    assert w in order;
    forall event | Uses(plan, w, event) ensures !EventTaken(before.db.events, event) { EventIsUnused(start, order, plan, event); }
  }

  lemma EventIsUnused(start: Database, order: seq<Id>, plan: Plan, event: string)
    requires MayStart(start, order, plan) && order != [] && Uses(plan, order[|order| - 1], event)
    ensures !EventTaken(start.events, event) && forall v :: v in order[..|order| - 1] ==> !Uses(plan, v, event)
  {
    MayStartShorter(start, order, plan);
    assert order[|order| - 1] in order;
    forall v | v in order[..|order| - 1] ensures !Uses(plan, v, event) { assert v in order; }
  }

  /** Everything a completion starts from and leaves, with the order split before it. */
  ghost predicate OneMore(start: Database, init: seq<Id>, w: Id, before: Round, after: Round, plan: Plan, fails: bool) {
    && w !in init && OneArtifactEach(start, init, before, plan) && RoundKeeps(start, init, before, plan)
    && Completed(before, after, w, plan, fails)
  }

  lemma AddedOneMore(start: Database, init: seq<Id>, w: Id, before: Round, after: Round, plan: Plan, fails: bool)
    requires OneMore(start, init, w, before, after, plan, fails)
    ensures Added(start, after) == Added(start, before) + [LeftBy(plan, w, fails)]
    ensures OneArtifactEach(start, init + [w], after, plan)
  {
    var added, order := Added(start, after), init + [w];
    forall i | 0 <= i < |added|
      ensures added[i] == LeftBy(plan, order[i], order[i] in after.failed) && added[i].id == after.stored[i]
      ensures added[i].workerId == order[i] && added[i].subject == plan.subject
    {
      if i < |init| {
        assert added[i] == Added(start, before)[i] && order[i] == init[i] && init[i] in init;
      }
    }
  }

  lemma KeepsOneMore(start: Database, init: seq<Id>, w: Id, before: Round, after: Round, plan: Plan, fails: bool)
    requires OneMore(start, init, w, before, after, plan, fails)
    ensures RoundKeeps(start, init + [w], after, plan)
  {
    var order := init + [w];
    assert w in order && forall v :: v in init ==> v in order;
    forall id: string | EventTaken(after.db.events, id)
      ensures EventTaken(start.events, id) || exists v :: v in order && Uses(plan, v, id)
    {
      if EventTaken(before.db.events, id) && !EventTaken(start.events, id) {
        var v :| v in init && Uses(plan, v, id);
        assert v in order;
      }
    }
  }

  lemma EarnedOneMore(start: Database, init: seq<Id>, w: Id, before: Round, after: Round, plan: Plan, fails: bool, v: Id, k: nat)
    requires OneMore(start, init, w, before, after, plan, fails) && k <= |init|
    ensures |Added(start, before)| == |init| && Added(start, after) == Added(start, before) + [LeftBy(plan, w, fails)]
    ensures Earned(after.db.artifacts, Added(start, after)[..k], v, plan.registered)
            == Earned(before.db.artifacts, Added(start, before)[..k], v, plan.registered)
    ensures Earned(after.db.artifacts, Added(start, after), v, plan.registered)
            == Earned(before.db.artifacts, Added(start, before), v, plan.registered)
               + Credits(after.db.artifacts, LeftBy(plan, w, fails), v, plan.registered)
  {
    var added := LeftBy(plan, w, fails);
    AddedOneMore(start, init, w, before, after, plan, fails);
    var from := Added(start, before);
    assert Added(start, after)[..k] == from[..k] && forall a :: a in from[..k] ==> a in from;
    forall a | a in from ensures Parents(a) <= Ids(before.db.artifacts) { ParentsAreStored(before.db.artifacts, a); }
    EarnedIsStable(before.db.artifacts, [added], from[..k], v, plan.registered);
    EarnedIsStable(before.db.artifacts, [added], from, v, plan.registered);
    TotalOneMore(CreditsTo(after.db.artifacts, v, plan.registered), from, added);
  }

  lemma PlaceOneMore(init: seq<Id>, w: Id, v: Id)
    requires w !in init
    ensures Place(init + [w], v) == if v in init then Place(init, v) else if v == w then |init| else |init| + 1
  {
    assert (init + [w])[..|init|] == init;
    if v !in init { PlaceOfOther(init, v); }
  }

  lemma {:induction false} PlaceOfOther(order: seq<Id>, v: Id)
    requires v !in order
    ensures Place(order, v) == |order|
  {
  }

  lemma HeldOneMore(start: Database, init: seq<Id>, w: Id, before: Round, after: Round, plan: Plan, fails: bool, v: Id)
    requires OneMore(start, init, w, before, after, plan, fails)
    requires v in init || (v == w && BudgetFollows(start, init, before, plan, w))
    ensures OneArtifactEach(start, init + [w], after, plan)
    ensures Held(start, init + [w], after, plan, v) == if v in init then Held(start, init, before, plan, v) else Budget(before.db, v)
  {
    AddedOneMore(start, init, w, before, after, plan, fails);
    PlaceOneMore(init, w, v);
    if v in init {
      EarnedOneMore(start, init, w, before, after, plan, fails, v, Place(init, v));
    } else {
      EarnedOneMore(start, init, w, before, after, plan, fails, v, |init|);
      WholeAdded(start, before, |init|);
    }
  }

  lemma WholeAdded(start: Database, r: Round, n: nat)
    requires |start.artifacts| <= |r.db.artifacts| && |Added(start, r)| == n
    ensures Added(start, r)[..n] == Added(start, r)
  {
  }

  lemma BudgetOneMore(start: Database, init: seq<Id>, w: Id, before: Round, after: Round, plan: Plan, fails: bool, v: Id)
    requires OneMore(start, init, w, before, after, plan, fails)
    requires BudgetFollows(start, init, before, plan, v) && BudgetFollows(start, init, before, plan, w)
    ensures OneArtifactEach(start, init + [w], after, plan) && BudgetFollows(start, init + [w], after, plan, v)
  {
    AddedOneMore(start, init, w, before, after, plan, fails);
    EarnedOneMore(start, init, w, before, after, plan, fails, v, 0);
    if v in after.failed { HeldOneMore(start, init, w, before, after, plan, fails, v); }
    SumAsReal(
      Earned(before.db.artifacts, Added(start, before), v, plan.registered),
      Credits(after.db.artifacts, LeftBy(plan, w, fails), v, plan.registered));
  }

  lemma SumAsReal(m: nat, n: nat)
    ensures REUSE_REWARD * (m + n) as real == REUSE_REWARD * m as real + REUSE_REWARD * n as real
  {
  }

  /**
   * In a round that is not aborted, in any order of completion: every worker leaves exactly one artifact, its output or the
   * report of its failure; a failure is never recorded after an output was committed; and each budget ends at its start
   * plus a quarter for every reuse by others, less what a failure takes from what the worker held when it completed.
   */
  lemma {:induction false} RoundIsAccounted(start: Database, order: seq<Id>, plan: Plan, rules: Rules)
    requires MayStart(start, order, plan) && !RunRound(start, order, plan, rules).aborted
    ensures Accounted(start, order, RunRound(start, order, plan, rules), plan)
  {
    if order != [] {
      var init, w := order[..|order| - 1], order[|order| - 1];
      MayStartShorter(start, order, plan);
      assert order == init + [w];
      var before, after := LastCompletion(start, init, w, plan, rules);
      RoundIsAccounted(start, init, plan, rules);
      NextIsReady(start, order, plan, before);
      CompletionIsDecided(before, w, plan, rules);
      AccountedOneMore(start, init, w, before, after, plan, !Succeeds(before.db, w, plan, rules));
    } else {
      EmptyRoundIsAccounted(start, plan);
    }
  }

  lemma LastCompletion(start: Database, init: seq<Id>, w: Id, plan: Plan, rules: Rules) returns (before: Round, after: Round)
    ensures before == RunRound(start, init, plan, rules) && after == RunRound(start, init + [w], plan, rules)
    ensures after == if before.aborted then before else Complete(before, w, plan, rules)
  {
    assert (init + [w])[..|init|] == init;
    before, after := RunRound(start, init, plan, rules), RunRound(start, init + [w], plan, rules);
  }

  lemma EmptyRoundIsAccounted(start: Database, plan: Plan)
    requires MayStart(start, [], plan)
    ensures Accounted(start, [], Round(start, [], [], false), plan)
  {
  }

  lemma AccountedOneMore(start: Database, init: seq<Id>, w: Id, before: Round, after: Round, plan: Plan, fails: bool)
    requires w !in init && Accounted(start, init, before, plan) && Completed(before, after, w, plan, fails)
    ensures Accounted(start, init + [w], after, plan)
  {
    AddedOneMore(start, init, w, before, after, plan, fails);
    KeepsOneMore(start, init, w, before, after, plan, fails);
    forall v: Id ensures BudgetFollows(start, init + [w], after, plan, v) {
      BudgetOneMore(start, init, w, before, after, plan, fails, v);
    }
  }
}
