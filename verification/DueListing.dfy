/** Which predictions an evaluation run sees: the listing is cut off, and evaluated predictions keep their place in it. */
module DueListing {
  import opened Evaluation
  import opened EvaluationLaws
  import opened Lineage
  import opened Lists
  import opened Ordering
  import opened Provenance
  import opened Schema
  import opened Store

  type Listing = (Artifact, Artifact) -> bool

  /** An order of rows in which only rows with one key tie, such as that by creation time and then identifier. */
  ghost predicate IsListing(listing: Listing) {
    TotalPreorder(listing) && forall a: Artifact, b: Artifact :: listing(a, b) && listing(b, a) ==> a.id == b.id
  }

  function Predictions(db: Database): seq<Artifact> {
    FilterMap(PREDICTION_OF, db.artifacts)
  }

  function Precedes(listing: Listing, p: Artifact): Artifact -> bool {
    (q: Artifact) => q.id != p.id && listing(q, p)
  }

  /** How many stored predictions stand before this one. */
  function Rank(db: Database, listing: Listing, p: Artifact): nat {
    CountIf(Precedes(listing, p), Predictions(db))
  }

  predicate IsPending(db: Database, p: Artifact, now: int) {
    p in db.artifacts && IsPrediction(p) && IsDue(db, p, now)
  }

  /** Whatever the order of the listing: due is what is listed and awaits evaluation. */
  lemma DueIffListed(db: Database, now: int, listing: Listing, p: Artifact)
    ensures p in DuePredictions(db, now, listing) <==> p in Candidates(db, listing) && IsDue(db, p, now)
  {
    var due := (a: Artifact) => if IsDue(db, a, now) then Some(a) else None;
    FilterMapMembers(due, Candidates(db, listing));
    if p in Candidates(db, listing) && IsDue(db, p, now) { assert due(p) == Some(p); }
  }

  lemma PredictionsAreStored(db: Database, p: Artifact)
    ensures p in Predictions(db) <==> p in db.artifacts && IsPrediction(p)
  {
    FilterMapMembers(PREDICTION_OF, db.artifacts);
    if p in db.artifacts && IsPrediction(p) { assert PREDICTION_OF(p) == Some(p); }
  }

  lemma {:induction false} CountAtMost<T>(f: T -> bool, s: seq<T>)
    ensures CountIf(f, s) <= |s|
  {
    if s != [] { CountAtMost(f, s[..|s| - 1]); }
  }

  lemma {:induction false} CountAll<T>(f: T -> bool, s: seq<T>)
    requires forall x :: x in s ==> f(x)
    ensures CountIf(f, s) == |s|
  {
    if s != [] { CountAll(f, s[..|s| - 1]); }
  }

  lemma CountSplit<T>(f: T -> bool, s: seq<T>, k: nat)
    requires k <= |s| && forall j :: k <= j < |s| ==> !f(s[j])
    ensures CountIf(f, s) <= k
    ensures (forall j :: 0 <= j < k ==> f(s[j])) ==> CountIf(f, s) == k
  {
    CountConcat(f, s[..k], s[k..]);
    assert s == s[..k] + s[k..];
    CountNone(f, s[k..]);
    CountAtMost(f, s[..k]);
    if forall j :: 0 <= j < k ==> f(s[j]) { CountAll(f, s[..k]); }
  }

  lemma OneComesFirst(listing: Listing, a: Artifact, b: Artifact)
    requires IsListing(listing) && listing(a, b) && a.id != b.id
    ensures !listing(b, a)
  {
  }

  /** From the place of a row on, no row precedes it; before its place every row with another key does. */
  lemma RankAtPlace(all: seq<Artifact>, listing: Listing, k: nat)
    requires IsListing(listing) && SortedBy(listing, all) && k < |all|
    ensures CountIf(Precedes(listing, all[k]), all) <= k
    ensures (forall j :: 0 <= j < k ==> all[j].id != all[k].id) ==> CountIf(Precedes(listing, all[k]), all) == k
  {
    var p := all[k];
    forall j | k <= j < |all| ensures !Precedes(listing, p)(all[j]) {
      if all[j].id != p.id { OneComesFirst(listing, p, all[j]); }
    }
    CountSplit(Precedes(listing, p), all, k);
  }

  lemma SortedPredictions(db: Database, listing: Listing) returns (all: seq<Artifact>)
    requires IsListing(listing)
    ensures SortedBy(listing, all) && multiset(all) == multiset(Predictions(db))
    ensures Candidates(db, listing) == if |all| <= LISTING_LIMIT then all else all[..LISTING_LIMIT]
    ensures forall p: Artifact :: Rank(db, listing, p) == CountIf(Precedes(listing, p), all)
    ensures forall p :: p in all <==> p in db.artifacts && IsPrediction(p)
  {
    all := SortBy(listing, Predictions(db));
    SortBySorts(listing, Predictions(db));
    MembersOfEqualMultisets(all, Predictions(db));
    forall p: Artifact ensures Rank(db, listing, p) == CountIf(Precedes(listing, p), all) {
      CountPermutes(Precedes(listing, p), Predictions(db), all);
    }
    forall p ensures p in all <==> p in db.artifacts && IsPrediction(p) { PredictionsAreStored(db, p); }
  }

  /** A listed prediction has fewer than the limit before it. */
  lemma ListedIsRanked(db: Database, listing: Listing, p: Artifact)
    requires IsListing(listing) && p in Candidates(db, listing)
    ensures p in db.artifacts && IsPrediction(p) && Rank(db, listing, p) < LISTING_LIMIT
  {
    var all := SortedPredictions(db, listing);
    var k :| 0 <= k < |Candidates(db, listing)| && Candidates(db, listing)[k] == p;
    assert all[k] == p;
    RankAtPlace(all, listing, k);
    CountAtMost(Precedes(listing, p), all);
  }

  /** For a stored prediction it is also enough. */
  lemma RankedIsListed(db: Database, listing: Listing, p: Artifact)
    requires IsListing(listing) && LineageKept(db) && p in db.artifacts && IsPrediction(p) && Rank(db, listing, p) < LISTING_LIMIT
    ensures p in Candidates(db, listing)
  {
    var all := SortedPredictions(db, listing);
    assert p in all;
    var k := FirstPlace(all, p);
    forall j | 0 <= j < k ensures all[j].id != all[k].id {
      assert all[j] in all;
      if all[j].id == p.id { OneArtifactPerId(db.artifacts, all[j], p); }
    }
    RankAtPlace(all, listing, k);
    if |all| > LISTING_LIMIT { assert all[..LISTING_LIMIT][k] == p; }
  }

  lemma {:induction false} FirstPlace<T>(s: seq<T>, x: T) returns (k: nat)
    requires x in s
    ensures k < |s| && s[k] == x && forall j :: 0 <= j < k ==> s[j] != x
  {
    if s[0] == x {
      k := 0;
    } else {
      var l := FirstPlace(s[1..], x);
      k := l + 1;
      assert forall j :: 0 < j < k ==> s[j] == s[1..][j - 1];
    }
  }

  /** The exact meaning of being due: pending, and with fewer stored predictions before it than the listing holds. */
  lemma DueIffPendingAndRanked(db: Database, now: int, listing: Listing, p: Artifact)
    requires IsListing(listing) && LineageKept(db)
    ensures p in DuePredictions(db, now, listing) <==> IsPending(db, p, now) && Rank(db, listing, p) < LISTING_LIMIT
  {
    DueIffListed(db, now, listing, p);
    if p in Candidates(db, listing) { ListedIsRanked(db, listing, p); }
    if IsPending(db, p, now) && Rank(db, listing, p) < LISTING_LIMIT { RankedIsListed(db, listing, p); }
  }

  /** All pending predictions are due exactly when none of them stands behind the limit. */
  lemma AllPendingAreDueIff(db: Database, now: int, listing: Listing)
    requires IsListing(listing) && LineageKept(db)
    ensures (forall p :: IsPending(db, p, now) ==> p in DuePredictions(db, now, listing))
            <==> forall p :: IsPending(db, p, now) ==> Rank(db, listing, p) < LISTING_LIMIT
  {
    forall p ensures p in DuePredictions(db, now, listing) <==> IsPending(db, p, now) && Rank(db, listing, p) < LISTING_LIMIT {
      DueIffPendingAndRanked(db, now, listing, p);
    }
  }

  /** Which is the case as long as the listing holds all predictions. */
  lemma RankBelowSize(db: Database, listing: Listing, p: Artifact)
    requires p in db.artifacts && IsPrediction(p)
    ensures Rank(db, listing, p) < |Predictions(db)|
  {
    PredictionsAreStored(db, p);
    var f, all := Precedes(listing, p), Predictions(db);
    var k :| 0 <= k < |all| && all[k] == p;
    assert all == all[..k] + [p] + all[k + 1..];
    CountConcat(f, all[..k] + [p], all[k + 1..]);
    CountConcat(f, all[..k], [p]);
    CountNone(f, [p]);
    CountAtMost(f, all[..k]);
    CountAtMost(f, all[k + 1..]);
  }

  lemma RankOnlyGrows(db: Database, later: Database, listing: Listing, p: Artifact)
    requires db.artifacts <= later.artifacts
    ensures Rank(db, listing, p) <= Rank(later, listing, p)
  {
    var added := later.artifacts[|db.artifacts|..];
    assert later.artifacts == db.artifacts + added;
    FilterMapConcat(PREDICTION_OF, db.artifacts, added);
    CountConcat(Precedes(listing, p), Predictions(db), FilterMap(PREDICTION_OF, added));
  }

  lemma {:induction false} SettleAllOnlyAppends(db: Database, due: seq<Artifact>, inputs: Inputs, rules: Rules)
    ensures db.artifacts <= SettleAll(db, due, inputs, rules).db.artifacts
  {
    if due != [] {
      SettleAllOnlyAppends(db, due[..|due| - 1], inputs, rules);
      SettleOnlyAppends(SettleAll(db, due[..|due| - 1], inputs, rules).db, due[|due| - 1], inputs, rules);
    }
  }

  lemma {:induction false} RunsOnlyAppend(start: World, steps: seq<Step>, rules: Rules)
    ensures start.db.artifacts <= RunFrom(start, steps, rules).db.artifacts
  {
    if steps != [] {
      var w, step := RunFrom(start, steps[..|steps| - 1], rules), steps[|steps| - 1];
      RunsOnlyAppend(start, steps[..|steps| - 1], rules);
      if step.EvaluateDue? && AllParse(Candidates(w.db, step.listing), step.inputs.normalize) {
        SettleAllOnlyAppends(w.db, DuePredictions(w.db, step.inputs.now, step.listing), step.inputs, rules);
      }
    }
  }

  /**
   * Evaluating makes no room: once a prediction stands behind the limit it is never due again, whatever evaluation runs and
   * other clients do and however late it is.
   */
  lemma BehindTheLimitNeverDue(start: World, steps: seq<Step>, rules: Rules, now: int, listing: Listing, p: Artifact)
    requires IsListing(listing) && Rank(start.db, listing, p) >= LISTING_LIMIT
    ensures p !in DuePredictions(RunFrom(start, steps, rules).db, now, listing)
  {
    var later := RunFrom(start, steps, rules).db;
    RunsOnlyAppend(start, steps, rules);
    RankOnlyGrows(start.db, later, listing, p);
    DueIffListed(later, now, listing, p);
    if p in Candidates(later, listing) { ListedIsRanked(later, listing, p); }
  }

  /** The `i`-th prediction of a crowd. */
  function Numbered(i: nat): Artifact {
    Artifact(
      seq(i, _ => 'a'), i, "w", PREDICTION, "subject", ["source"], 0.5, [], [], ACTIVE, Some(PredictionFields(UP, 1.0, i + 1)),
      Some(0.0), Some(0), "")
  }

  const BY_AGE: Listing := (a: Artifact, b: Artifact) => a.createdAt < b.createdAt || (a.createdAt == b.createdAt && Le(a.id, b.id))

  function AppendCrowd(n: nat): seq<Transaction> {
    if n == 0 then [] else AppendCrowd(n - 1) + [Appending(Numbered(n - 1))]
  }

  lemma ByAgeIsListing()
    ensures IsListing(BY_AGE)
  {
    LtIsStrictTotalOrder();
  }

  ghost predicate IsCrowd(db: Database, n: nat) {
    |db.artifacts| == n && (forall i :: 0 <= i < n ==> db.artifacts[i] == Numbered(i)) && db.evaluations == []
  }

  lemma OneMoreIsStored(before: Database, n: nat)
    requires IsCrowd(before, n)
    ensures IsCrowd(Apply(before, Appending(Numbered(n)), LENIENT), n + 1)
  {
    var a := Numbered(n);
    assert |a.id| == n && a.Lineage() == [];
    forall b | b in before.artifacts ensures b.id != a.id { assert |b.id| < n; }
    assert AppendArtifact(before, a, LENIENT).Success?;
  }

  lemma {:induction false} CrowdIsStored(n: nat)
    ensures IsCrowd(Run(AppendCrowd(n), LENIENT), n)
  {
    if n > 0 {
      CrowdIsStored(n - 1);
      CrowdSize(n - 1);
      assert AppendCrowd(n)[..n - 1] == AppendCrowd(n - 1);
      OneMoreIsStored(Run(AppendCrowd(n - 1), LENIENT), n - 1);
    }
  }

  lemma {:induction false} CrowdSize(n: nat)
    ensures |AppendCrowd(n)| == n && (n > 0 ==> AppendCrowd(n)[n - 1] == Appending(Numbered(n - 1)))
  {
    if n > 0 { CrowdSize(n - 1); }
  }

  lemma {:induction false} AllPredictions(s: seq<Artifact>)
    requires forall a :: a in s ==> IsPrediction(a)
    ensures FilterMap(PREDICTION_OF, s) == s
  {
    if s != [] {
      var last := |s| - 1;
      AllPredictions(s[..last]);
      assert s[last] in s && PREDICTION_OF(s[last]) == Some(s[last]);
      assert s == s[..last] + [s[last]];
    }
  }

  lemma RankInCrowd(db: Database, n: nat)
    requires |db.artifacts| == n + 1 && forall i :: 0 <= i <= n ==> db.artifacts[i] == Numbered(i)
    ensures Rank(db, BY_AGE, Numbered(n)) == n
  {
    var all, f := db.artifacts, Precedes(BY_AGE, Numbered(n));
    AllPredictions(all);
    forall i | 0 <= i < n ensures f(all[i]) { assert |all[i].id| == i; }
    CountSplit(f, all, n);
  }

  /** Behind a crowd of at least the limit, a mature prediction that nobody evaluated is pending and never due. */
  lemma CrowdedOut(n: nat, steps: seq<Step>, now: int)
    requires n >= LISTING_LIMIT && now > n
    ensures var w := World(Run(AppendCrowd(n + 1), LENIENT), now, true, {});
            && IsPending(w.db, Numbered(n), now)
            && Numbered(n) !in DuePredictions(RunFrom(w, steps, LENIENT).db, now, BY_AGE)
  {
    var w := World(Run(AppendCrowd(n + 1), LENIENT), now, true, {});
    CrowdIsStored(n + 1);
    assert w.db.artifacts[n] in w.db.artifacts;
    RankInCrowd(w.db, n);
    ByAgeIsListing();
    BehindTheLimitNeverDue(w, steps, LENIENT, now, BY_AGE, Numbered(n));
  }
}
