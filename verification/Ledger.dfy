/** The budget ledger: in every reachable state each budget is the first grant plus the recorded changes. */
module Ledger {
  import opened Schema
  import opened Store

  /** The sum of the changes recorded for a worker. */
  function Recorded(events: seq<BudgetEvent>, w: Id): real {
    if events == [] then 0.0
    else
      var last := events[|events| - 1];
      Recorded(events[..|events| - 1], w) + if last.workerId == w then last.delta else 0.0
  }

  /** The grants after one more registration: whoever has a grant keeps it. */
  function GrantMore(granted: map<Id, real>, count: nat, amount: real, rules: Rules): map<Id, real> {
    if count == 0 then granted
    else
      var before := GrantMore(granted, count - 1, amount, rules);
      if rules.workerName(count) in before then before else before[rules.workerName(count) := amount]
  }

  function GrantedBy(before: map<Id, real>, t: Transaction, rules: Rules): map<Id, real> {
    if t.Registering? && 1 <= t.count <= 1000 && t.initialBudget >= 0.0 && t.capable
    then GrantMore(before, t.count, t.initialBudget, rules)
    else before
  }

  /** What each worker was first registered with, read off the transactions alone. */
  function Granted(ts: seq<Transaction>, rules: Rules): map<Id, real> {
    if ts == [] then map[] else GrantedBy(Granted(ts[..|ts| - 1], rules), ts[|ts| - 1], rules)
  }

  ghost predicate Balanced(db: Database, granted: map<Id, real>, w: Id) {
    && (w in db.workers <==> w in granted)
    && (w in db.workers ==> db.workers[w].budget == granted[w] + Recorded(db.events, w) && db.workers[w].budget >= 0.0)
    && (w !in db.workers ==> Recorded(db.events, w) == 0.0)
  }

  /** Every budget equals the grant plus the recorded changes, and is not negative. */
  ghost predicate Reconciled(db: Database, granted: map<Id, real>) {
    forall w: Id :: Balanced(db, granted, w)
  }

  lemma {:induction false} EnrolledMatchesGrants(db: Database, granted: map<Id, real>, count: nat, amount: real, rules: Rules)
    requires Reconciled(db, granted) && amount >= 0.0
    ensures Reconciled(db.(workers := Enrolled(db.workers, count, amount, rules)), GrantMore(granted, count, amount, rules))
  {
    if count > 0 {
      EnrolledMatchesGrants(db, granted, count - 1, amount, rules);
      var name := rules.workerName(count);
      var before := db.(workers := Enrolled(db.workers, count - 1, amount, rules));
      assert Balanced(before, GrantMore(granted, count - 1, amount, rules), name);
      forall w: Id ensures Balanced(db.(workers := Enrolled(db.workers, count, amount, rules)), GrantMore(granted, count, amount, rules), w) {
        assert Balanced(before, GrantMore(granted, count - 1, amount, rules), w);
      }
    }
  }

  lemma RecordedOneMore(events: seq<BudgetEvent>, e: BudgetEvent, w: Id)
    ensures Recorded(events + [e], w) == Recorded(events, w) + if e.workerId == w then e.delta else 0.0
  {
    assert (events + [e])[..|events|] == events;
  }

  lemma BudgetingStaysBalanced(db: Database, granted: map<Id, real>, w: Id, t: Transaction, rules: Rules)
    requires Balanced(db, granted, w) && t.Budgeting?
    ensures Balanced(Apply(db, t, rules), granted, w)
  {
    var r := AppendBudgetEvent(db, t.id, t.workerId, t.delta, t.reason, t.related);
    if r.Success? {
      var current := db.workers[t.workerId].budget;
      RecordedOneMore(db.events, BudgetEvent(t.id, t.workerId, NotBelowZero(current + t.delta) - current, t.reason, t.related), w);
    }
  }

  lemma ApplyReconciles(db: Database, granted: map<Id, real>, t: Transaction, rules: Rules)
    requires Reconciled(db, granted)
    ensures Reconciled(Apply(db, t, rules), GrantedBy(granted, t, rules))
  {
    if t.Registering? {
      if 1 <= t.count <= 1000 && t.initialBudget >= 0.0 { EnrolledMatchesGrants(db, granted, t.count, t.initialBudget, rules); }
    } else {
      forall w: Id ensures Balanced(Apply(db, t, rules), granted, w) {
        assert Balanced(db, granted, w);
        if t.Budgeting? { BudgetingStaysBalanced(db, granted, w, t, rules); }
      }
    }
  }

  /**
   * After any transactions, in any order, by any clients: a worker's budget is what it was first registered with plus the
   * changes in the ledger, and is not negative; clipping and repeated registration leave no gap.
   */
  lemma {:induction false} LedgerReconciles(ts: seq<Transaction>, rules: Rules)
    ensures Reconciled(Run(ts, rules), Granted(ts, rules))
  {
    if ts != [] {
      LedgerReconciles(ts[..|ts| - 1], rules);
      ApplyReconciles(Run(ts[..|ts| - 1], rules), Granted(ts[..|ts| - 1], rules), ts[|ts| - 1], rules);
    }
  }
}
