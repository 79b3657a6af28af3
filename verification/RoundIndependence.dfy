/** The exact condition under which the order of completion of a round does not matter, and rounds that do not meet it. */
module RoundIndependence {
  import opened Lists
  import opened Orchestration
  import opened OrchestrationLaws
  import opened Ordering
  import opened RoundOrder
  import opened Schema
  import opened Store

  /** No order aborts the round, and the same workers fail in all of them. */
  ghost predicate FailuresAgree(start: Database, order: seq<Id>, plan: Plan, rules: Rules) {
    forall t: seq<Id> :: multiset(t) == multiset(order) ==>
      !RunRound(start, t, plan, rules).aborted && SameFailures(RunRound(start, order, plan, rules), RunRound(start, t, plan, rules))
  }

  ghost predicate BudgetsAgree(start: Database, order: seq<Id>, plan: Plan, rules: Rules) {
    forall t: seq<Id> :: multiset(t) == multiset(order) ==>
      SameBudgets(RunRound(start, order, plan, rules), RunRound(start, t, plan, rules))
  }

  ghost predicate SameBudgets(r: Round, q: Round) {
    forall v: Id :: Budget(r.db, v) == Budget(q.db, v)
  }

  lemma {:induction false} PrefixStands(start: Database, t: seq<Id>, k: nat, plan: Plan, rules: Rules)
    requires Finished(start, t, plan, rules) && k <= |t|
    ensures Finished(start, t[..k], plan, rules)
    ensures forall w :: w in t[..k] ==>
              (w in RunRound(start, t[..k], plan, rules).failed <==> w in RunRound(start, t, plan, rules).failed)
  {
    if k == |t| {
      assert t[..k] == t;
    } else {
      var init, w := t[..|t| - 1], t[|t| - 1];
      assert t == init + [w] && init[..k] == t[..k];
      var fails := CompletionStands(start, init, w, plan, rules);
      PrefixStands(start, init, k, plan, rules);
      forall v | v in t[..k] ensures v in RunRound(start, init, plan, rules).failed <==> v in RunRound(start, t, plan, rules).failed {
        assert v in init && v != w;
      }
    }
  }

  lemma CompletionStands(start: Database, init: seq<Id>, w: Id, plan: Plan, rules: Rules) returns (fails: bool)
    requires Finished(start, init + [w], plan, rules)
    ensures var before, after := RunRound(start, init, plan, rules), RunRound(start, init + [w], plan, rules);
            && Finished(start, init, plan, rules) && w !in init && (forall v :: v in before.failed ==> v in init)
            && fails == !Succeeds(before.db, w, plan, rules) && (fails ==> CanReport(before.db, w, plan, rules))
            && after.failed == if fails then before.failed + [w] else before.failed
  {
    var before, after := LastCompletion(start, init, w, plan, rules);
    BeforeCompletion(start, init, w, plan, rules);
    RoundIsAccounted(start, init, plan, rules);
    CompletionIsDecided(before, w, plan, rules);
    fails := !Succeeds(before.db, w, plan, rules);
  }

  /** Any distinct workers of a round may be the first to complete. */
  lemma StartWith(order: seq<Id>, first: seq<Id>) returns (t: seq<Id>)
    requires Distinct(order) && Distinct(first) && forall w :: w in first ==> w in order
    ensures multiset(t) == multiset(order) && first <= t && t[|first|..] == Without(order, first)
  {
    var rest := Without(order, first);
    WithoutKeepsDistinct(order, first);
    t := first + rest;
    DistinctConcat(first, rest);
    assert forall w :: w in t <==> w in first || w in rest;
    DistinctWithSameElements(t, order);
  }

  /** If failures agree, a worker that completes after some others fails or not as it does in the given order. */
  lemma DecidedAfter(start: Database, order: seq<Id>, first: seq<Id>, w: Id, plan: Plan, rules: Rules)
    requires MayStart(start, order, plan) && FailuresAgree(start, order, plan, rules)
    requires Distinct(first) && w !in first && w in order && forall v :: v in first ==> v in order
    ensures Finished(start, first, plan, rules)
    ensures forall v :: v in first ==>
              (v in RunRound(start, first, plan, rules).failed <==> v in RunRound(start, order, plan, rules).failed)
    ensures var db := RunRound(start, first, plan, rules).db;
            && (w in RunRound(start, order, plan, rules).failed <==> !Succeeds(db, w, plan, rules))
            && (!Succeeds(db, w, plan, rules) ==> CanReport(db, w, plan, rules))
  {
    DistinctConcat(first, [w]);
    var t := StartWith(order, first + [w]);
    PermutedStart(start, order, t, plan);
    assert t[..|first| + 1] == first + [w] && t[..|first|] == first;
    PrefixStands(start, t, |first|, plan, rules);
    PrefixStands(start, t, |first| + 1, plan, rules);
    var fails := CompletionStands(start, first, w, plan, rules);
    assert w in first + [w];
  }

  lemma FailsAsFirst(start: Database, order: seq<Id>, w: Id, plan: Plan, rules: Rules)
    requires MayStart(start, order, plan) && FailuresAgree(start, order, plan, rules) && w in order
    ensures w in RunRound(start, order, plan, rules).failed <==> !Succeeds(start, w, plan, rules)
    ensures !Succeeds(start, w, plan, rules) ==> CanReport(start, w, plan, rules)
  {
    DecidedAfter(start, order, [], w, plan, rules);
  }

  lemma FirstOnesLeave(start: Database, order: seq<Id>, first: seq<Id>, w: Id, plan: Plan, rules: Rules)
    requires MayStart(start, order, plan) && FailuresAgree(start, order, plan, rules)
    requires Distinct(first) && w !in first && w in order && forall v :: v in first ==> v in order
    ensures RunRound(start, first, plan, rules).db.artifacts == start.artifacts + Map(FirstLeft(start, plan, rules), first)
  {
    DecidedAfter(start, order, first, w, plan, rules);
    AddedIsMapped(start, first, plan, rules);
    var r := RunRound(start, first, plan, rules);
    forall v | v in first ensures v in r.failed <==> !Succeeds(start, v, plan, rules) { FailsAsFirst(start, order, v, plan, rules); }
    LeavesAgree(start, first, r.failed, plan, rules);
    AddedIsRest(start, r);
  }

  lemma LeavesAgree(start: Database, t: seq<Id>, failed: seq<Id>, plan: Plan, rules: Rules)
    requires forall v :: v in t ==> (v in failed <==> !Succeeds(start, v, plan, rules))
    ensures Map(Leaves(plan, failed), t) == Map(FirstLeft(start, plan, rules), t)
  {
    forall i | 0 <= i < |t| ensures Leaves(plan, failed)(t[i]) == FirstLeft(start, plan, rules)(t[i]) { assert t[i] in t; }
  }

  lemma AddedIsRest(start: Database, r: Round)
    requires |start.artifacts| <= |r.db.artifacts| && r.db.artifacts[..|start.artifacts|] == start.artifacts
    ensures r.db.artifacts == start.artifacts + Added(start, r)
  {
  }

  lemma KeysDiffer(start: Database, order: seq<Id>, v: Id, w: Id, plan: Plan, rules: Rules)
    requires MayStart(start, order, plan) && FailuresAgree(start, order, plan, rules) && v in order && w in order && v != w
    ensures !KeysClash(FirstLeft(start, plan, rules)(v), FirstLeft(start, plan, rules)(w), rules)
  {
    FailsAsFirst(start, order, w, plan, rules);
    DecidedAfter(start, order, [v], w, plan, rules);
    FirstOnesLeave(start, order, [v], w, plan, rules);
    var db, left := RunRound(start, [v], plan, rules).db, FirstLeft(start, plan, rules)(w);
    AppendableIff(db, left, rules);
    KeysOfMore(start.artifacts, Map(FirstLeft(start, plan, rules), [v]), left, rules);
    assert Map(FirstLeft(start, plan, rules), [v])[0] in Map(FirstLeft(start, plan, rules), [v]);
  }

  lemma {:induction false} Those(order: seq<Id>, p: Id -> bool) returns (chosen: seq<Id>)
    requires Distinct(order)
    ensures Distinct(chosen) && forall v :: v in chosen <==> v in order && p(v)
  {
    if order == [] {
      chosen := [];
    } else {
      var init, w := order[..|order| - 1], order[|order| - 1];
      assert order == init + [w] && w !in init;
      var some := Those(init, p);
      chosen := if p(w) then some + [w] else some;
    }
  }

  /** Who leaves what `a` refers to, without keeping it out. */
  function Serves(start: Database, plan: Plan, rules: Rules, a: Artifact, w: Id): Id -> bool {
    (v: Id) => v != w && FirstLeft(start, plan, rules)(v).id in Parents(a) && IsProvider(start, v, plan, rules, a, FirstLeft(start, plan, rules)(v).id)
  }

  /** The artifacts of exactly those who serve the refused output. */
  ghost predicate Served(
    start: Database, order: seq<Id>, first: seq<Id>, w: Id, left: seq<Artifact>, plan: Plan, rules: Rules, a: Artifact)
  {
    && (forall v :: v in first <==> v in order && Serves(start, plan, rules, a, w)(v))
    && left == Map(FirstLeft(start, plan, rules), first)
  }

  lemma ServedParents(
    start: Database, order: seq<Id>, first: seq<Id>, w: Id, left: seq<Artifact>, plan: Plan, rules: Rules, a: Artifact, p: Id)
    requires Served(start, order, first, w, left, plan, rules, a) && p in Parents(a) && Provides(start, order, w, plan, rules, a, p)
    ensures p in Ids(left)
  {
    var v :| v in order && v != w && IsProvider(start, v, plan, rules, a, p);
    assert Serves(start, plan, rules, a, w)(v);
    MappedMembers(FirstLeft(start, plan, rules), first);
    assert FirstLeft(start, plan, rules)(v) in left;
  }

  lemma ServedKeys(
    start: Database, order: seq<Id>, first: seq<Id>, w: Id, left: seq<Artifact>, plan: Plan, rules: Rules, a: Artifact, b: Artifact)
    requires Served(start, order, first, w, left, plan, rules, a) && a.id !in a.Lineage() && b in left
    ensures !KeysClash(a, b, rules)
  {
    MappedMembers(FirstLeft(start, plan, rules), first);
    var v :| v in first && FirstLeft(start, plan, rules)(v) == b;
    assert Serves(start, plan, rules, a, w)(v);
  }

  lemma NotOwnParent(a: Artifact, rules: Rules)
    requires Refusal(a, rules).None?
    ensures a.id !in a.Lineage()
  {
  }

  lemma ServedIsAppendable(start: Database, order: seq<Id>, first: seq<Id>, w: Id, db: Database, plan: Plan, rules: Rules)
    requires Unlockable(start, order, w, plan, rules)
    requires forall v :: v in first <==> v in order && Serves(start, plan, rules, plan.generate(w).value, w)(v)
    requires db.artifacts == start.artifacts + Map(FirstLeft(start, plan, rules), first)
    ensures Succeeds(db, w, plan, rules)
  {
    var a, left := plan.generate(w).value, Map(FirstLeft(start, plan, rules), first);
    KeysOfMore(start.artifacts, left, a, rules);
    forall p | p in Parents(a) ensures p in Ids(db.artifacts) {
      if p !in Ids(start.artifacts) { ServedParents(start, order, first, w, left, plan, rules, a, p); }
    }
    NotOwnParent(a, rules);
    forall b | b in left ensures !KeysClash(a, b, rules) { ServedKeys(start, order, first, w, left, plan, rules, a, b); }
    AppendableIff(db, a, rules);
  }

  lemma NothingUnlocks(start: Database, order: seq<Id>, w: Id, plan: Plan, rules: Rules)
    requires MayStart(start, order, plan) && FailuresAgree(start, order, plan, rules) && w in order
    requires !Succeeds(start, w, plan, rules)
    ensures !Unlockable(start, order, w, plan, rules)
  {
    if Unlockable(start, order, w, plan, rules) {
      var first := Those(order, Serves(start, plan, rules, plan.generate(w).value, w));
      FailsAsFirst(start, order, w, plan, rules);
      DecidedAfter(start, order, first, w, plan, rules);
      FirstOnesLeave(start, order, first, w, plan, rules);
      ServedIsAppendable(start, order, first, w, RunRound(start, first, plan, rules).db, plan, rules);
    }
  }

  /** No order aborts and the same workers fail in every order, exactly when the outputs of the round are independent. */
  lemma FailuresAgreeIffIndependent(start: Database, order: seq<Id>, plan: Plan, rules: Rules)
    requires MayStart(start, order, plan)
    ensures FailuresAgree(start, order, plan, rules) <==> Independent(start, order, plan, rules)
  {
    if FailuresAgree(start, order, plan, rules) {
      forall w | w in order && !Succeeds(start, w, plan, rules)
        ensures CanReport(start, w, plan, rules) && !Unlockable(start, order, w, plan, rules)
      {
        FailsAsFirst(start, order, w, plan, rules);
        NothingUnlocks(start, order, w, plan, rules);
      }
      forall v, w | v in order && w in order && v != w
        ensures !KeysClash(FirstLeft(start, plan, rules)(v), FirstLeft(start, plan, rules)(w), rules)
      {
        KeysDiffer(start, order, v, w, plan, rules);
      }
    }
    if Independent(start, order, plan, rules) {
      IndependentRound(start, order, order, plan, rules);
      forall t: seq<Id> | multiset(t) == multiset(order)
        ensures AsIfFirst(start, t, RunRound(start, t, plan, rules), plan, rules) && forall w :: w in t <==> w in order
      {
        PermutedStart(start, order, t, plan);
        IndependentRound(start, order, t, plan, rules);
      }
    }
  }

  /** What a worker of the round would earn another if it completed first. */
  function FirstCredit(start: Database, plan: Plan, rules: Rules, v: Id): Id -> nat {
    (w: Id) => Credits(start.artifacts, FirstLeft(start, plan, rules)(w), v, plan.registered)
  }

  /** What the round will earn a worker; this, too, can be told before the round. */
  function Expected(start: Database, order: seq<Id>, plan: Plan, rules: Rules, v: Id): nat {
    Total(FirstCredit(start, plan, rules, v), order)
  }

  lemma FirstCreditStays(start: Database, more: seq<Artifact>, w: Id, plan: Plan, rules: Rules, v: Id)
    ensures Credits(start.artifacts + more, FirstLeft(start, plan, rules)(w), v, plan.registered) == FirstCredit(start, plan, rules, v)(w)
  {
    var left := FirstLeft(start, plan, rules)(w);
    if Succeeds(start, w, plan, rules) { AppendableIff(start, left, rules); }
    assert Parents(left) <= Ids(start.artifacts);
    forall p | p in Parents(left) ensures Find(start.artifacts + more, p) == Find(start.artifacts, p) {
      FindIsStable(start.artifacts, more, p);
    }
    CreditsAgree(start.artifacts + more, start.artifacts, left, v, plan.registered);
  }

  lemma EarnedByFirst(start: Database, more: seq<Artifact>, t: seq<Id>, plan: Plan, rules: Rules, v: Id)
    ensures Earned(start.artifacts + more, Map(FirstLeft(start, plan, rules), t), v, plan.registered)
            == Total(FirstCredit(start, plan, rules, v), t)
  {
    var f, g, h := CreditsTo(start.artifacts + more, v, plan.registered), FirstLeft(start, plan, rules), FirstCredit(start, plan, rules, v);
    forall w | w in t ensures f(g(w)) == h(w) { FirstCreditStays(start, more, w, plan, rules, v); }
    TotalOfMap(f, g, h, t);
  }

  /** What a worker will hold when it completes in this order. */
  function WillHold(start: Database, t: seq<Id>, plan: Plan, rules: Rules, v: Id): real {
    Budget(start, v) + REUSE_REWARD * Total(FirstCredit(start, plan, rules, v), t[..Place(t, v)]) as real
  }

  lemma HeldAsIfFirst(start: Database, t: seq<Id>, r: Round, plan: Plan, rules: Rules, v: Id)
    requires AsIfFirst(start, t, r, plan, rules)
    ensures |start.artifacts| <= |r.db.artifacts| && |Added(start, r)| == |t|
    ensures Held(start, t, r, plan, v) == WillHold(start, t, plan, rules, v)
  {
    var k := Place(t, v);
    assert Added(start, r) == Map(FirstLeft(start, plan, rules), t);
    assert Added(start, r)[..k] == Map(FirstLeft(start, plan, rules), t[..k]);
    EarnedByFirst(start, Added(start, r), t[..k], plan, rules, v);
    assert r.db.artifacts == start.artifacts + Added(start, r);
  }

  lemma IndependentOrders(start: Database, order: seq<Id>, t: seq<Id>, plan: Plan, rules: Rules)
    requires MayStart(start, order, plan) && Independent(start, order, plan, rules) && multiset(t) == multiset(order)
    ensures Finished(start, t, plan, rules) && AsIfFirst(start, t, RunRound(start, t, plan, rules), plan, rules)
    ensures forall w :: w in t <==> w in order
  {
    PermutedStart(start, order, t, plan);
    IndependentRound(start, order, t, plan, rules);
  }

  /** The workers that fail keep what they have or earn nothing. */
  ghost predicate Affordable(start: Database, order: seq<Id>, plan: Plan, rules: Rules) {
    forall v :: v in order && !Succeeds(start, v, plan, rules) ==> Budget(start, v) >= 1.0 || Expected(start, order, plan, rules, v) == 0
  }

  /** Two orders of an independent round leave a worker the same budget exactly when its failure takes as much in both. */
  lemma IndependentCompare(start: Database, order: seq<Id>, s: seq<Id>, t: seq<Id>, plan: Plan, rules: Rules, v: Id)
    requires MayStart(start, order, plan) && Independent(start, order, plan, rules)
    requires multiset(s) == multiset(order) == multiset(t)
    ensures Budget(RunRound(start, s, plan, rules).db, v) == Budget(RunRound(start, t, plan, rules).db, v)
            <==> (v in order && !Succeeds(start, v, plan, rules)
                  ==> Penalty(WillHold(start, s, plan, rules, v)) == Penalty(WillHold(start, t, plan, rules, v)))
  {
    IndependentOrders(start, order, s, plan, rules);
    IndependentOrders(start, order, t, plan, rules);
    OrdersCompare(start, s, t, plan, rules, v);
    HeldAsIfFirst(start, s, RunRound(start, s, plan, rules), plan, rules, v);
    HeldAsIfFirst(start, t, RunRound(start, t, plan, rules), plan, rules, v);
  }

  lemma PenaltyAgrees(start: Database, order: seq<Id>, t: seq<Id>, plan: Plan, rules: Rules, v: Id)
    requires multiset(t) == multiset(order) && (Budget(start, v) >= 1.0 || Expected(start, order, plan, rules, v) == 0)
    ensures Penalty(WillHold(start, t, plan, rules, v)) == Penalty(Budget(start, v))
  {
    var f := FirstCredit(start, plan, rules, v);
    TotalPermutes(f, t, order);
    PartOfTotal(f, t, Place(t, v));
    PenaltiesCompare(Budget(start, v), Total(f, t[..Place(t, v)]));
  }

  lemma PartOfTotal<T>(f: T -> nat, s: seq<T>, k: nat)
    requires k <= |s|
    ensures Total(f, s[..k]) <= Total(f, s)
  {
    TotalConcat(f, s[..k], s[k..]);
    assert s == s[..k] + s[k..];
  }

  /** Rewards before a failure raise what it takes exactly when the budget alone would be clipped. */
  lemma PenaltiesCompare(budget: real, rewards: nat)
    ensures Penalty(budget + REUSE_REWARD * rewards as real) == Penalty(budget) <==> budget >= 1.0 || rewards == 0
  {
  }

  lemma AffordableBudgetsAgree(start: Database, order: seq<Id>, t: seq<Id>, plan: Plan, rules: Rules)
    requires MayStart(start, order, plan) && Independent(start, order, plan, rules) && multiset(t) == multiset(order)
    requires Affordable(start, order, plan, rules)
    ensures SameBudgets(RunRound(start, order, plan, rules), RunRound(start, t, plan, rules))
  {
    forall v: Id ensures Budget(RunRound(start, order, plan, rules).db, v) == Budget(RunRound(start, t, plan, rules).db, v) {
      IndependentCompare(start, order, order, t, plan, rules, v);
      if v in order && !Succeeds(start, v, plan, rules) {
        PenaltyAgrees(start, order, order, plan, rules, v);
        PenaltyAgrees(start, order, t, plan, rules, v);
      }
    }
  }

  /** Any worker may be the first to complete, or the last. */
  lemma FirstAndLast(order: seq<Id>, v: Id) returns (rest: seq<Id>)
    requires Distinct(order) && v in order
    ensures multiset([v] + rest) == multiset(order) == multiset(rest + [v]) && v !in rest
    ensures Place([v] + rest, v) == 0 && Place(rest + [v], v) == |rest|
  {
    rest := Without(order, [v]);
    var s := StartWith(order, [v]);
    assert s == [v] + rest;
    var t := rest + [v];
    assert s[Place(s, v)] == v && t[Place(t, v)] == v && s[0] == v && t[|rest|] == v && v in s && v in t;
  }

  lemma OthersEarnAll(start: Database, order: seq<Id>, rest: seq<Id>, v: Id, plan: Plan, rules: Rules)
    requires multiset(order) == multiset(rest + [v]) && !Succeeds(start, v, plan, rules)
    ensures Total(FirstCredit(start, plan, rules, v), rest) == Expected(start, order, plan, rules, v)
  {
    var f := FirstCredit(start, plan, rules, v);
    TotalPermutes(f, order, rest + [v]);
    TotalOneMore(f, rest, v);
    CritiqueEarnsNothing(start.artifacts, v, plan, v);
    assert FirstLeft(start, plan, rules)(v) == CritiqueOf(v, plan.subject, plan.ticket(v));
    assert f(v) == 0;
  }

  lemma AgreeingBudgetsAreAffordable(start: Database, order: seq<Id>, plan: Plan, rules: Rules, v: Id)
    requires MayStart(start, order, plan) && Independent(start, order, plan, rules) && BudgetsAgree(start, order, plan, rules)
    requires v in order && !Succeeds(start, v, plan, rules)
    ensures Budget(start, v) >= 1.0 || Expected(start, order, plan, rules, v) == 0
  {
    var rest := FirstAndLast(order, v);
    var s, t := [v] + rest, rest + [v];
    IndependentCompare(start, order, s, t, plan, rules, v);
    BudgetsOf(start, order, s, t, plan, rules, v);
    ExtremesHeld(start, order, rest, v, plan, rules);
    PenaltiesCompare(Budget(start, v), Expected(start, order, plan, rules, v));
  }

  /** A worker that fails holds its budget alone when it completes first, and everything it will earn when it is last. */
  lemma ExtremesHeld(start: Database, order: seq<Id>, rest: seq<Id>, v: Id, plan: Plan, rules: Rules)
    requires multiset(order) == multiset(rest + [v]) && !Succeeds(start, v, plan, rules)
    requires Place([v] + rest, v) == 0 && Place(rest + [v], v) == |rest|
    ensures WillHold(start, [v] + rest, plan, rules, v) == Budget(start, v)
    ensures WillHold(start, rest + [v], plan, rules, v) == Budget(start, v) + REUSE_REWARD * Expected(start, order, plan, rules, v) as real
  {
    OthersEarnAll(start, order, rest, v, plan, rules);
    assert ([v] + rest)[..0] == [] && (rest + [v])[..|rest|] == rest;
  }

  lemma BudgetsOf(start: Database, order: seq<Id>, s: seq<Id>, t: seq<Id>, plan: Plan, rules: Rules, v: Id)
    requires BudgetsAgree(start, order, plan, rules) && multiset(s) == multiset(order) == multiset(t)
    ensures Budget(RunRound(start, s, plan, rules).db, v) == Budget(RunRound(start, t, plan, rules).db, v)
  {
    assert SameBudgets(RunRound(start, order, plan, rules), RunRound(start, s, plan, rules));
    assert SameBudgets(RunRound(start, order, plan, rules), RunRound(start, t, plan, rules));
  }

  /**
   * The order of completion does not matter, to whether the round aborts, to who fails and to any budget, exactly when the
   * outputs are independent and whoever fails has one unit to lose or nothing to earn.
   */
  lemma OrderIsIrrelevantIff(start: Database, order: seq<Id>, plan: Plan, rules: Rules)
    requires MayStart(start, order, plan)
    ensures FailuresAgree(start, order, plan, rules) && BudgetsAgree(start, order, plan, rules)
            <==> Independent(start, order, plan, rules) && Affordable(start, order, plan, rules)
  {
    FailuresAgreeIffIndependent(start, order, plan, rules);
    if Independent(start, order, plan, rules) {
      if BudgetsAgree(start, order, plan, rules) {
        forall v | v in order && !Succeeds(start, v, plan, rules)
          ensures Budget(start, v) >= 1.0 || Expected(start, order, plan, rules, v) == 0
        {
          AgreeingBudgetsAreAffordable(start, order, plan, rules, v);
        }
      }
      if Affordable(start, order, plan, rules) {
        forall t: seq<Id> | multiset(t) == multiset(order)
          ensures SameBudgets(RunRound(start, order, plan, rules), RunRound(start, t, plan, rules))
        {
          AffordableBudgetsAgree(start, order, t, plan, rules);
        }
      }
    }
  }
}
