/** Selection depends neither on the order of the rows nor on the outcomes. */
module BaselineLaws {
  import opened Baselines
  import opened Lists
  import opened Ordering
  import opened Schema

  /** The rows of one case carry its identifier. */
  ghost predicate OneCase(items: seq<Candidate>) {
    forall c, d :: c in items && d in items ==> c.caseId == d.caseId
  }

  lemma BestOfRowsIgnoresOrder(atLeast: (Candidate, Candidate) -> bool, s: seq<Candidate>, t: seq<Candidate>, all: seq<Candidate>)
    requires IsOrder(atLeast) && s != [] && t != [] && forall x :: x in s <==> x in t
    requires DistinctWorkers(all) && forall x :: x in s ==> x in all
    ensures Best(atLeast, s) == Best(atLeast, t)
  {
    OrdersAreTotal();
    forall x, y | x in s && y in s && atLeast(x, y) && atLeast(y, x) ensures x == y {
      TiesShareWorker(x, y, atLeast);
      SameWorkerSameCandidate(all, x, y);
    }
    BestIgnoresOrder(atLeast, s, t);
  }

  lemma RepresentativesPermute(s: seq<Candidate>, t: seq<Candidate>)
    requires multiset(s) == multiset(t) && DistinctWorkers(s)
    ensures multiset(Representatives(s)) == multiset(Representatives(t))
  {
    DistinctByPermutes(WORKER_OF, s, t);
    MembersOfEqualMultisets(s, t);
    RepresentativesAreChampions(s);
    RepresentativesAreChampions(t);
    RepresentativesAreDistinct(s);
    RepresentativesAreDistinct(t);
    DistinctWithSameElements(Representatives(s), Representatives(t));
  }

  lemma WherePermutes(keep: Candidate -> bool, s: seq<Candidate>, t: seq<Candidate>)
    requires multiset(s) == multiset(t)
    ensures multiset(Where(keep, s)) == multiset(Where(keep, t)) && |Where(keep, s)| == |Where(keep, t)|
  {
    FilterMapPermutes((c: Candidate) => if keep(c) then Some(c) else None, s, t);
    assert |multiset(Where(keep, s))| == |Where(keep, s)| && |multiset(Where(keep, t))| == |Where(keep, t)|;
  }

  lemma {:induction false} SumConcat(s: seq<real>, t: seq<real>)
    ensures Sum(s + t) == Sum(s) + Sum(t)
  {
    if t == [] {
      assert s + t == s;
    } else {
      SumConcat(s, t[..|t| - 1]);
      assert (s + t)[..|s + t| - 1] == s + t[..|t| - 1];
    }
  }

  lemma TakeOut(s: seq<real>, j: nat) returns (rest: seq<real>)
    requires j < |s|
    ensures |rest| < |s| && multiset(s) == multiset(rest) + multiset{s[j]} && Sum(s) == Sum(rest) + s[j]
  {
    var before, here, after := s[..j], [s[j]], s[j + 1..];
    assert s == before + here + after;
    MultisetMiddle(before, here, after);
    SumConcat(before, here);
    SumConcat(before + here, after);
    SumConcat(before, after);
    assert here[..0] == [] && Sum(here) == s[j];
    rest := before + after;
  }

  lemma {:induction false} SumPermutes(s: seq<real>, t: seq<real>)
    requires multiset(s) == multiset(t)
    ensures Sum(s) == Sum(t)
    decreases |s|
  {
    if s == [] {
      assert |multiset(t)| == |t|;
    } else {
      var j := Somewhere(s[0], s, t);
      var s' := TakeOut(s, 0);
      var t' := TakeOut(t, j);
      MultisetCancel(multiset(s'), multiset(t'), multiset{s[0]});
      SumPermutes(s', t');
    }
  }

  lemma {:induction false} BestBySameOrder<T>(f: (T, T) -> bool, g: (T, T) -> bool, s: seq<T>)
    requires s != [] && forall x, y :: f(x, y) == g(x, y)
    ensures Best(f, s) == Best(g, s)
  {
    if |s| > 1 { BestBySameOrder(f, g, s[..|s| - 1]); }
  }

  lemma VotesPermute(s: seq<Candidate>, t: seq<Candidate>)
    requires multiset(s) == multiset(t)
    ensures forall d, e :: ByVotes(s)(d, e) == ByVotes(t)(d, e)
  {
    forall d ensures |Where(Predicting(d), s)| == |Where(Predicting(d), t)|
                     && Sum(Map(CONFIDENCE_OF, Where(Predicting(d), s))) == Sum(Map(CONFIDENCE_OF, Where(Predicting(d), t))) {
      WherePermutes(Predicting(d), s, t);
      MapPermutes(CONFIDENCE_OF, Where(Predicting(d), s), Where(Predicting(d), t));
      SumPermutes(Map(CONFIDENCE_OF, Where(Predicting(d), s)), Map(CONFIDENCE_OF, Where(Predicting(d), t)));
    }
  }

  lemma VotesAreTotal(reps: seq<Candidate>)
    ensures TotalOrder(ByVotes(reps))
  {
    forall d: Direction, e: Direction | d.Rank() == e.Rank() ensures d == e {}
  }

  lemma MajorityIgnoresOrder(s: seq<Candidate>, t: seq<Candidate>)
    requires multiset(s) == multiset(t) && s != [] && t != []
    ensures MajorityDirection(s) == MajorityDirection(t)
  {
    VotesPermute(s, t);
    VotesAreTotal(s);
    var listed, others := Unique(Map(DIRECTION_OF, s)), Unique(Map(DIRECTION_OF, t));
    forall d: Direction ensures d in listed <==> d in others {
      DirectionIsListed(s, d);
      DirectionIsListed(t, d);
      WherePermutes(Predicting(d), s, t);
    }
    BestIgnoresOrder(ByVotes(s), listed, others);
    BestBySameOrder(ByVotes(s), ByVotes(t), others);
  }

  /** The rows of a case may come in any order. */
  lemma SelectionIgnoresRowOrder(m: Method, s: seq<Candidate>, t: seq<Candidate>, digest: string -> nat)
    requires multiset(s) == multiset(t) && s != [] && t != [] && DistinctWorkers(s) && OneCase(s)
    ensures Select(m, s, digest) == Select(m, t, digest)
  {
    MembersOfEqualMultisets(s, t);
    match m
    case SingleLuna => BestOfRowsIgnoresOrder(BY_WORKER, s, t, s);
    case RandomBaseline =>
      BestOfRowsIgnoresOrder(BY_WORKER, s, t, s);
      assert t[0] in s && s[0] in s;
    case Swarm => BestOfRowsIgnoresOrder(BY_SCORE_THEN_CONFIDENCE, s, t, s);
    case BestOfN =>
      RepresentativesStay(s, t);
      BestOfRowsIgnoresOrder(BY_CONFIDENCE_THEN_SCORE, Representatives(s), Representatives(t), s);
    case MajorityVote =>
      RepresentativesStay(s, t);
      MajorityVoteIgnoresOrder(Representatives(s), Representatives(t), s);
  }

  lemma RepresentativesStay(s: seq<Candidate>, t: seq<Candidate>)
    requires multiset(s) == multiset(t) && s != [] && t != [] && DistinctWorkers(s)
    ensures var p, q := Representatives(s), Representatives(t);
            && p != [] && q != [] && multiset(p) == multiset(q) && (forall x :: x in p <==> x in q)
            && forall x :: x in p ==> x in s
  {
    RepresentativesPermute(s, t);
    RepresentativesExist(s);
    RepresentativesExist(t);
    RepresentativesAreChampions(s);
    MembersOfEqualMultisets(Representatives(s), Representatives(t));
  }

  lemma MajorityVoteIgnoresOrder(p: seq<Candidate>, q: seq<Candidate>, all: seq<Candidate>)
    requires p != [] && q != [] && multiset(p) == multiset(q) && DistinctWorkers(all) && forall x :: x in p ==> x in all
    ensures var d := MajorityDirection(p);
            && MajorityDirection(q) == d && Where(Predicting(d), p) != [] && Where(Predicting(d), q) != []
            && Best(BY_CONFIDENCE, Where(Predicting(d), p)) == Best(BY_CONFIDENCE, Where(Predicting(d), q))
  {
    MajorityIgnoresOrder(p, q);
    var d := MajorityDirection(p);
    DirectionIsListed(p, d);
    WherePermutes(Predicting(d), p, q);
    WhereMembers(Predicting(d), p);
    MembersOfEqualMultisets(Where(Predicting(d), p), Where(Predicting(d), q));
    BestOfRowsIgnoresOrder(BY_CONFIDENCE, Where(Predicting(d), p), Where(Predicting(d), q), all);
  }

  /** A candidate with its outcome struck out. */
  const BLIND: Candidate -> Candidate := (c: Candidate) => c.(realized := NO_SIGNAL)

  lemma MapLast<T, U>(f: T -> U, s: seq<T>)
    requires s != []
    ensures Map(f, s) == Map(f, s[..|s| - 1]) + [f(s[|s| - 1])]
  {
  }

  lemma MapTwice<U>(f: Candidate -> U, s: seq<Candidate>)
    requires forall c :: f(BLIND(c)) == f(c)
    ensures Map(f, Map(BLIND, s)) == Map(f, s)
  {
  }

  /** A comparison that does not look at what `f` changes. */
  ghost predicate Ignores<T(!new)>(atLeast: (T, T) -> bool, f: T -> T) {
    forall x, y :: atLeast(f(x), f(y)) == atLeast(x, y)
  }

  lemma {:induction false} BestOfMapped<T(!new)>(atLeast: (T, T) -> bool, f: T -> T, s: seq<T>)
    requires Ignores(atLeast, f) && s != []
    ensures Best(atLeast, Map(f, s)) == f(Best(atLeast, s))
  {
    if |s| > 1 {
      BestOfMapped(atLeast, f, s[..|s| - 1]);
      MapLast(f, s);
      assert Map(f, s)[..|s| - 1] == Map(f, s[..|s| - 1]);
    }
  }

  lemma OrdersIgnoreOutcomes(atLeast: (Candidate, Candidate) -> bool)
    requires IsOrder(atLeast)
    ensures Ignores(atLeast, BLIND)
  {
  }

  lemma BestOfBlind(atLeast: (Candidate, Candidate) -> bool, s: seq<Candidate>)
    requires IsOrder(atLeast) && s != []
    ensures Best(atLeast, Map(BLIND, s)) == BLIND(Best(atLeast, s))
  {
    OrdersIgnoreOutcomes(atLeast);
    BestOfMapped(atLeast, BLIND, s);
  }

  lemma {:induction false} WhereOfBlind(keep: Candidate -> bool, s: seq<Candidate>)
    requires forall c :: keep(BLIND(c)) == keep(c)
    ensures Where(keep, Map(BLIND, s)) == Map(BLIND, Where(keep, s))
  {
    if s != [] {
      WhereOfBlind(keep, s[..|s| - 1]);
      MapLast(BLIND, s);
      assert Map(BLIND, s)[..|s| - 1] == Map(BLIND, s[..|s| - 1]);
    }
  }

  lemma ChampionOfBlind(items: seq<Candidate>, cluster: string)
    ensures Champion(Map(BLIND, items))(cluster)
            == match Champion(items)(cluster) { case Some(c) => Some(BLIND(c)) case None => None }
  {
    WhereOfBlind(InCluster(cluster), items);
    var members := Where(InCluster(cluster), items);
    if members != [] { BestOfBlind(BY_CONFIDENCE, members); }
  }

  lemma {:induction false} ChampionsOfBlind(items: seq<Candidate>, clusters: seq<string>)
    ensures FilterMap(Champion(Map(BLIND, items)), clusters) == Map(BLIND, FilterMap(Champion(items), clusters))
  {
    if clusters != [] {
      ChampionsOfBlind(items, clusters[..|clusters| - 1]);
      ChampionOfBlind(items, clusters[|clusters| - 1]);
    }
  }

  lemma RepresentativesOfBlind(items: seq<Candidate>)
    ensures Representatives(Map(BLIND, items)) == Map(BLIND, Representatives(items))
  {
    MapTwice(CLUSTER_OF, items);
    ChampionsOfBlind(items, Unique(Map(CLUSTER_OF, items)));
  }

  lemma MajorityOfBlind(reps: seq<Candidate>)
    requires reps != []
    ensures MajorityDirection(Map(BLIND, reps)) == MajorityDirection(reps)
  {
    MapTwice(DIRECTION_OF, reps);
    forall d ensures |Where(Predicting(d), Map(BLIND, reps))| == |Where(Predicting(d), reps)|
                     && Sum(Map(CONFIDENCE_OF, Where(Predicting(d), Map(BLIND, reps)))) == Sum(Map(CONFIDENCE_OF, Where(Predicting(d), reps))) {
      WhereOfBlind(Predicting(d), reps);
      MapTwice(CONFIDENCE_OF, Where(Predicting(d), reps));
    }
    BestBySameOrder(ByVotes(Map(BLIND, reps)), ByVotes(reps), Unique(Map(DIRECTION_OF, reps)));
  }

  lemma MajorityVoteOfBlind(reps: seq<Candidate>)
    requires reps != []
    ensures var d := MajorityDirection(reps);
            Where(Predicting(d), reps) != [] &&
            MajorityDirection(Map(BLIND, reps)) == d && Where(Predicting(d), Map(BLIND, reps)) != [] &&
            Best(BY_CONFIDENCE, Where(Predicting(d), Map(BLIND, reps))) == BLIND(Best(BY_CONFIDENCE, Where(Predicting(d), reps)))
  {
    MajorityOfBlind(reps);
    var d := MajorityDirection(reps);
    DirectionIsListed(reps, d);
    WhereOfBlind(Predicting(d), reps);
    BestOfBlind(BY_CONFIDENCE, Where(Predicting(d), reps));
  }

  lemma SelectionOfBlind(m: Method, items: seq<Candidate>, digest: string -> nat)
    requires items != []
    ensures BLIND(Select(m, Map(BLIND, items), digest)) == BLIND(Select(m, items, digest))
  {
    match m
    case SingleLuna => BestOfBlind(BY_WORKER, items);
    case RandomBaseline => BestOfBlind(BY_WORKER, items);
    case Swarm => BestOfBlind(BY_SCORE_THEN_CONFIDENCE, items);
    case BestOfN =>
      RepresentativesExist(items);
      RepresentativesOfBlind(items);
      BestOfBlind(BY_CONFIDENCE_THEN_SCORE, Representatives(items));
    case MajorityVote =>
      RepresentativesExist(items);
      RepresentativesOfBlind(items);
      MajorityVoteOfBlind(Representatives(items));
  }

  /** No selector looks ahead: rows that differ in their outcomes only lead to choices that differ in their outcomes only. */
  lemma SelectionIsHindsightFree(m: Method, items: seq<Candidate>, others: seq<Candidate>, digest: string -> nat)
    requires items != [] && others != [] && Map(BLIND, items) == Map(BLIND, others)
    ensures var c, d := Select(m, items, digest), Select(m, others, digest);
            c.workerId == d.workerId && c.direction == d.direction && c.confidence == d.confidence && BLIND(c) == BLIND(d)
  {
    SelectionOfBlind(m, items, digest);
    SelectionOfBlind(m, others, digest);
    assert BLIND(Select(m, items, digest)) == BLIND(Select(m, others, digest));
  }
}
