/** When the order in which the workers of a round complete does not matter. */
module RoundOrder {
  import opened Lineage
  import opened Lists
  import opened Orchestration
  import opened OrchestrationLaws
  import opened Ordering
  import opened Schema
  import opened Store

  /** The same workers failed. */
  ghost predicate SameFailures(r: Round, q: Round) {
    forall w: Id :: w in r.failed <==> w in q.failed
  }

  function Leaves(plan: Plan, failed: seq<Id>): Id -> Artifact {
    (w: Id) => LeftBy(plan, w, w in failed)
  }

  /** A round that may start and is not aborted. */
  ghost predicate Finished(start: Database, order: seq<Id>, plan: Plan, rules: Rules) {
    MayStart(start, order, plan) && !RunRound(start, order, plan, rules).aborted
  }

  lemma AddedIsMapped(start: Database, order: seq<Id>, plan: Plan, rules: Rules)
    requires Finished(start, order, plan, rules)
    ensures var r := RunRound(start, order, plan, rules);
            Accounted(start, order, r, plan) && Added(start, r) == Map(Leaves(plan, r.failed), order)
  {
    RoundIsAccounted(start, order, plan, rules);
  }

  lemma MapsAgree(plan: Plan, r: Round, q: Round, t: seq<Id>)
    requires SameFailures(r, q)
    ensures Map(Leaves(plan, r.failed), t) == Map(Leaves(plan, q.failed), t)
  {
  }

  lemma PermutedStart(start: Database, s: seq<Id>, t: seq<Id>, plan: Plan)
    requires MayStart(start, s, plan) && multiset(s) == multiset(t)
    ensures MayStart(start, t, plan) && |s| == |t| && forall w :: w in s <==> w in t
  {
    DistinctIsCanonical(s, t);
    MembersOfEqualMultisets(s, t);
    assert |multiset(s)| == |s| && |multiset(t)| == |t|;
  }

  /** With the same failures, the same artifacts are stored, if in another order. */
  lemma SameArtifacts(start: Database, s: seq<Id>, t: seq<Id>, plan: Plan, rules: Rules)
    requires Finished(start, s, plan, rules) && Finished(start, t, plan, rules) && multiset(s) == multiset(t)
    requires SameFailures(RunRound(start, s, plan, rules), RunRound(start, t, plan, rules))
    ensures var r, q := RunRound(start, s, plan, rules), RunRound(start, t, plan, rules);
            && Accounted(start, s, r, plan) && Accounted(start, t, q, plan)
            && multiset(Added(start, r)) == multiset(Added(start, q))
            && multiset(r.db.artifacts) == multiset(q.db.artifacts)
  {
    var r, q := RunRound(start, s, plan, rules), RunRound(start, t, plan, rules);
    AddedIsMapped(start, s, plan, rules);
    AddedIsMapped(start, t, plan, rules);
    MapsAgree(plan, r, q, t);
    MapPermutes(Leaves(plan, r.failed), s, t);
    WholeIsPermuted(start.artifacts, r.db.artifacts, q.db.artifacts);
  }

  lemma WholeIsPermuted<T>(prefix: seq<T>, s: seq<T>, t: seq<T>)
    requires prefix <= s && prefix <= t && multiset(s[|prefix|..]) == multiset(t[|prefix|..])
    ensures multiset(s) == multiset(t)
  {
    assert s == prefix + s[|prefix|..] && t == prefix + t[|prefix|..];
  }

  lemma FindAgrees(artifacts: seq<Artifact>, others: seq<Artifact>, p: Id)
    requires Chronological(artifacts) && Chronological(others) && multiset(artifacts) == multiset(others)
    ensures Find(artifacts, p) == Find(others, p)
  {
    MembersOfEqualMultisets(artifacts, others);
    var a, b := Find(artifacts, p), Find(others, p);
    if a.Some? && b.Some? { OneArtifactPerId(artifacts, a.value, b.value); }
  }

  /** What is earned depends on neither the order of the store nor that of the artifacts. */
  lemma EarnedPermutes(
    artifacts: seq<Artifact>, others: seq<Artifact>, from: seq<Artifact>, permuted: seq<Artifact>, v: Id, registered: set<Id>)
    requires Chronological(artifacts) && Chronological(others) && multiset(artifacts) == multiset(others)
    requires multiset(from) == multiset(permuted)
    ensures Earned(artifacts, from, v, registered) == Earned(others, permuted, v, registered)
  {
    forall a | a in permuted ensures Credits(artifacts, a, v, registered) == Credits(others, a, v, registered) {
      forall p | p in Parents(a) ensures Find(artifacts, p) == Find(others, p) { FindAgrees(artifacts, others, p); }
      CreditsAgree(artifacts, others, a, v, registered);
    }
    TotalPermutes(CreditsTo(artifacts, v, registered), from, permuted);
    TotalSame(CreditsTo(artifacts, v, registered), CreditsTo(others, v, registered), permuted);
  }

  /**
   * Two orders of completion with the same failures leave the same artifacts, and a worker the same budget exactly when it
   * did not fail or its failure took as much both times.
   */
  lemma OrdersCompare(start: Database, s: seq<Id>, t: seq<Id>, plan: Plan, rules: Rules, v: Id)
    requires Finished(start, s, plan, rules) && Finished(start, t, plan, rules) && multiset(s) == multiset(t)
    requires SameFailures(RunRound(start, s, plan, rules), RunRound(start, t, plan, rules))
    ensures var r, q := RunRound(start, s, plan, rules), RunRound(start, t, plan, rules);
            && Accounted(start, s, r, plan) && Accounted(start, t, q, plan)
            && multiset(r.db.artifacts) == multiset(q.db.artifacts)
            && (Budget(r.db, v) == Budget(q.db, v) <==>
                v !in r.failed || Penalty(Held(start, s, r, plan, v)) == Penalty(Held(start, t, q, plan, v)))
  {
    SameArtifacts(start, s, t, plan, rules);
    RoundsCompare(start, s, RunRound(start, s, plan, rules), t, RunRound(start, t, plan, rules), plan, v);
  }

  lemma RoundsCompare(start: Database, s: seq<Id>, r: Round, t: seq<Id>, q: Round, plan: Plan, v: Id)
    requires Accounted(start, s, r, plan) && Accounted(start, t, q, plan) && SameFailures(r, q)
    requires multiset(Added(start, r)) == multiset(Added(start, q)) && multiset(r.db.artifacts) == multiset(q.db.artifacts)
    ensures Budget(r.db, v) == Budget(q.db, v) <==>
            v !in r.failed || Penalty(Held(start, s, r, plan, v)) == Penalty(Held(start, t, q, plan, v))
  {
    EarnedPermutes(r.db.artifacts, q.db.artifacts, Added(start, r), Added(start, q), v, plan.registered);
    assert BudgetFollows(start, s, r, plan, v) && BudgetFollows(start, t, q, plan, v);
  }

  /** In particular when those who fail start with one unit. */
  lemma SolventOrdersAgree(start: Database, s: seq<Id>, t: seq<Id>, plan: Plan, rules: Rules)
    requires Finished(start, s, plan, rules) && Finished(start, t, plan, rules) && multiset(s) == multiset(t)
    requires SameFailures(RunRound(start, s, plan, rules), RunRound(start, t, plan, rules))
    requires forall w :: w in RunRound(start, s, plan, rules).failed ==> Budget(start, w) >= 1.0
    ensures forall v: Id :: Budget(RunRound(start, s, plan, rules).db, v) == Budget(RunRound(start, t, plan, rules).db, v)
  {
    forall v: Id ensures Budget(RunRound(start, s, plan, rules).db, v) == Budget(RunRound(start, t, plan, rules).db, v) {
      OrdersCompare(start, s, t, plan, rules, v);
    }
  }

  /** What a worker leaves if it completes first. */
  function FirstLeft(start: Database, plan: Plan, rules: Rules): Id -> Artifact {
    (w: Id) => LeftBy(plan, w, !Succeeds(start, w, plan, rules))
  }

  predicate KeysClash(a: Artifact, b: Artifact, rules: Rules) {
    a.id == b.id || rules.artifactHash(a) == rules.artifactHash(b)
  }

  predicate IsFresh(artifacts: seq<Artifact>, a: Artifact, rules: Rules) {
    a.id !in Ids(artifacts) && !HashTaken(artifacts, rules.artifactHash(a), rules)
  }

  /** What another worker of the round leaves is this reference of `a`, and does not itself keep `a` out. */
  ghost predicate Provides(start: Database, order: seq<Id>, w: Id, plan: Plan, rules: Rules, a: Artifact, p: Id) {
    exists v :: v in order && v != w && IsProvider(start, v, plan, rules, a, p)
  }

  predicate IsProvider(start: Database, v: Id, plan: Plan, rules: Rules, a: Artifact, p: Id) {
    var left := FirstLeft(start, plan, rules)(v);
    left.id == p && rules.artifactHash(left) != rules.artifactHash(a)
  }

  /** The worker's output is refused at first, for nothing but references that others of the round provide. */
  ghost predicate Unlockable(start: Database, order: seq<Id>, w: Id, plan: Plan, rules: Rules) {
    var a := plan.generate(w);
    && a.Some? && OutputValid(w, plan.subject, a.value, rules) && IsFresh(start.artifacts, a.value, rules)
    && forall p :: p in Parents(a.value) && p !in Ids(start.artifacts) ==> Provides(start, order, w, plan, rules, a.value, p)
  }

  /**
   * The outputs do not depend on each other: reports of failures can be stored, no two workers leave the same key, and no
   * refused output only waits for what others leave. All of this can be told before the round.
   */
  ghost predicate Independent(start: Database, order: seq<Id>, plan: Plan, rules: Rules) {
    && (forall w :: w in order && !Succeeds(start, w, plan, rules) ==> CanReport(start, w, plan, rules))
    && (forall v, w :: v in order && w in order && v != w ==>
          !KeysClash(FirstLeft(start, plan, rules)(v), FirstLeft(start, plan, rules)(w), rules))
    && (forall w :: w in order && !Succeeds(start, w, plan, rules) ==> !Unlockable(start, order, w, plan, rules))
  }

  lemma AppendableIff(db: Database, a: Artifact, rules: Rules)
    ensures AppendArtifact(db, a, rules).Success?
            <==> Refusal(a, rules).None? && Parents(a) <= Ids(db.artifacts) && IsFresh(db.artifacts, a, rules)
  {
    var missing := Parents(a) - Ids(db.artifacts);
    if missing == {} {
      forall p | p in Parents(a) ensures p in Ids(db.artifacts) { assert p !in missing; }
    }
  }

  lemma KeysOfMore(artifacts: seq<Artifact>, more: seq<Artifact>, a: Artifact, rules: Rules)
    ensures Ids(artifacts + more) == Ids(artifacts) + Ids(more)
    ensures IsFresh(artifacts + more, a, rules) <==> IsFresh(artifacts, a, rules) && forall b :: b in more ==> !KeysClash(a, b, rules)
  {
    var all := artifacts + more;
    assert forall b :: b in all <==> b in artifacts || b in more;
    forall id ensures id in Ids(all) <==> id in Ids(artifacts) || id in Ids(more) {}
    if forall b :: b in more ==> !KeysClash(a, b, rules) {
      if IsFresh(artifacts, a, rules) {
        forall b | b in all ensures !KeysClash(a, b, rules) {}
      }
    }
  }

  /** The store after some workers that ended as they would have ended first. */
  ghost predicate AsIfFirst(start: Database, t: seq<Id>, r: Round, plan: Plan, rules: Rules) {
    && !r.aborted && r.db.artifacts == start.artifacts + Map(FirstLeft(start, plan, rules), t)
    && forall w: Id :: w in r.failed <==> w in t && !Succeeds(start, w, plan, rules)
  }

  lemma MappedMembers<T, U>(f: T -> U, s: seq<T>)
    ensures forall x :: x in s ==> f(x) in Map(f, s)
    ensures forall y :: y in Map(f, s) ==> exists x :: x in s && f(x) == y
  {
    forall x | x in s ensures f(x) in Map(f, s) {
      var i :| 0 <= i < |s| && s[i] == x;
      assert Map(f, s)[i] == f(x);
    }
    forall y | y in Map(f, s) ensures exists x :: x in s && f(x) == y {
      var i :| 0 <= i < |s| && Map(f, s)[i] == y;
      assert s[i] in s;
    }
  }

  lemma FreshAmong(start: Database, t: seq<Id>, a: Artifact, plan: Plan, rules: Rules)
    requires IsFresh(start.artifacts, a, rules)
    requires forall v :: v in t ==> !KeysClash(FirstLeft(start, plan, rules)(v), a, rules)
    ensures IsFresh(start.artifacts + Map(FirstLeft(start, plan, rules), t), a, rules)
  {
    MappedMembers(FirstLeft(start, plan, rules), t);
    KeysOfMore(start.artifacts, Map(FirstLeft(start, plan, rules), t), a, rules);
  }

  /** What others left does not keep a worker from storing what it would have stored first. */
  lemma StillAppendable(start: Database, t: seq<Id>, db: Database, a: Artifact, plan: Plan, rules: Rules)
    requires db.artifacts == start.artifacts + Map(FirstLeft(start, plan, rules), t)
    requires AppendArtifact(start, a, rules).Success?
    requires forall v :: v in t ==> !KeysClash(FirstLeft(start, plan, rules)(v), a, rules)
    ensures AppendArtifact(db, a, rules).Success?
  {
    AppendableIff(start, a, rules);
    AppendableIff(db, a, rules);
    FreshAmong(start, t, a, plan, rules);
    KeysOfMore(start.artifacts, Map(FirstLeft(start, plan, rules), t), a, rules);
  }

  /** A reference that the store has gained is provided by a worker that has completed. */
  lemma GainedIsProvided(start: Database, order: seq<Id>, t: seq<Id>, w: Id, db: Database, a: Artifact, plan: Plan, rules: Rules, p: Id)
    requires db.artifacts == start.artifacts + Map(FirstLeft(start, plan, rules), t) && w !in t && forall v :: v in t ==> v in order
    requires AppendArtifact(db, a, rules).Success? && p in Parents(a) && p !in Ids(start.artifacts)
    ensures Provides(start, order, w, plan, rules, a, p)
  {
    var left := Map(FirstLeft(start, plan, rules), t);
    AppendableIff(db, a, rules);
    KeysOfMore(start.artifacts, left, a, rules);
    MappedMembers(FirstLeft(start, plan, rules), t);
    assert p in Ids(left);
    var b :| b in left && b.id == p;
    var v :| v in t && FirstLeft(start, plan, rules)(v) == b;
    assert IsProvider(start, v, plan, rules, a, p);
  }

  /** So an output that succeeds later than first was unlockable. */
  lemma LateSuccessIsUnlockable(start: Database, order: seq<Id>, t: seq<Id>, w: Id, db: Database, plan: Plan, rules: Rules)
    requires db.artifacts == start.artifacts + Map(FirstLeft(start, plan, rules), t) && w !in t && forall v :: v in t ==> v in order
    requires Succeeds(db, w, plan, rules)
    ensures Unlockable(start, order, w, plan, rules)
  {
    var a := plan.generate(w).value;
    AppendableIff(db, a, rules);
    KeysOfMore(start.artifacts, Map(FirstLeft(start, plan, rules), t), a, rules);
    forall p | p in Parents(a) && p !in Ids(start.artifacts) ensures Provides(start, order, w, plan, rules, a, p) {
      GainedIsProvided(start, order, t, w, db, a, plan, rules, p);
    }
  }

  /** A worker of an independent round ends, after any others, as it would have ended first. */
  lemma EndsAsFirst(start: Database, order: seq<Id>, t: seq<Id>, w: Id, db: Database, plan: Plan, rules: Rules)
    requires Independent(start, order, plan, rules) && w in order && w !in t && forall v :: v in t ==> v in order
    requires db.artifacts == start.artifacts + Map(FirstLeft(start, plan, rules), t)
    ensures Succeeds(db, w, plan, rules) == Succeeds(start, w, plan, rules)
    ensures !Succeeds(start, w, plan, rules) ==> CanReport(db, w, plan, rules)
  {
    NoClashes(start, order, t, w, plan, rules);
    var left := FirstLeft(start, plan, rules)(w);
    assert AppendArtifact(start, left, rules).Success?;
    StillAppendable(start, t, db, left, plan, rules);
    if !Succeeds(start, w, plan, rules) && Succeeds(db, w, plan, rules) {
      LateSuccessIsUnlockable(start, order, t, w, db, plan, rules);
    }
  }

  lemma NoClashes(start: Database, order: seq<Id>, t: seq<Id>, w: Id, plan: Plan, rules: Rules)
    requires Independent(start, order, plan, rules) && w in order && w !in t && forall v :: v in t ==> v in order
    ensures forall v :: v in t ==> !KeysClash(FirstLeft(start, plan, rules)(v), FirstLeft(start, plan, rules)(w), rules)
    ensures !Succeeds(start, w, plan, rules) ==> CanReport(start, w, plan, rules) && !Unlockable(start, order, w, plan, rules)
  {
  }

  lemma AsIfFirstOneMore(start: Database, init: seq<Id>, w: Id, before: Round, after: Round, plan: Plan, rules: Rules)
    requires AsIfFirst(start, init, before, plan, rules) && w !in init && !after.aborted
    requires Completed(before, after, w, plan, !Succeeds(start, w, plan, rules))
    ensures AsIfFirst(start, init + [w], after, plan, rules)
  {
    MapOneMore(FirstLeft(start, plan, rules), init, w);
    Associative(start.artifacts, Map(FirstLeft(start, plan, rules), init), [FirstLeft(start, plan, rules)(w)]);
    assert forall v :: v in init + [w] <==> v in init || v == w;
  }

  /** What comes before a completion in a round that may start. */
  lemma BeforeCompletion(start: Database, init: seq<Id>, w: Id, plan: Plan, rules: Rules)
    requires MayStart(start, init + [w], plan) && !RunRound(start, init, plan, rules).aborted
    ensures Finished(start, init, plan, rules) && w !in init && Ready(RunRound(start, init, plan, rules).db, w, plan)
  {
    var order := init + [w];
    assert order[..|init|] == init && order[|init|] == w;
    MayStartShorter(start, order, plan);
    RoundIsAccounted(start, init, plan, rules);
    NextIsReady(start, order, plan, RunRound(start, init, plan, rules));
  }

  lemma StartShorter(start: Database, init: seq<Id>, w: Id, plan: Plan)
    requires MayStart(start, init + [w], plan)
    ensures MayStart(start, init, plan) && w !in init
  {
    var order := init + [w];
    assert order[..|init|] == init && order[|init|] == w;
    MayStartShorter(start, order, plan);
  }

  /** In an independent round the failures can be told beforehand, whoever completes when. */
  lemma {:induction false} IndependentRound(start: Database, order: seq<Id>, t: seq<Id>, plan: Plan, rules: Rules)
    requires MayStart(start, t, plan) && Independent(start, order, plan, rules) && forall w :: w in t ==> w in order
    ensures AsIfFirst(start, t, RunRound(start, t, plan, rules), plan, rules)
  {
    if t == [] {
      assert start.artifacts + [] == start.artifacts;
    } else {
      var init, w := t[..|t| - 1], t[|t| - 1];
      assert t == init + [w];
      StartShorter(start, init, w, plan);
      IndependentRound(start, order, init, plan, rules);
      IndependentCompletion(start, order, init, w, plan, rules);
    }
  }

  lemma IndependentCompletion(start: Database, order: seq<Id>, init: seq<Id>, w: Id, plan: Plan, rules: Rules)
    requires MayStart(start, init + [w], plan) && Independent(start, order, plan, rules) && w in order && forall v :: v in init ==> v in order
    requires AsIfFirst(start, init, RunRound(start, init, plan, rules), plan, rules)
    ensures AsIfFirst(start, init + [w], RunRound(start, init + [w], plan, rules), plan, rules)
  {
    var before, after := LastCompletion(start, init, w, plan, rules);
    BeforeCompletion(start, init, w, plan, rules);
    EndsAsFirst(start, order, init, w, before.db, plan, rules);
    CompletionIsDecided(before, w, plan, rules);
    AsIfFirstOneMore(start, init, w, before, after, plan, rules);
  }
}
