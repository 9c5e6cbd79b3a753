/** Binary-relevance metrics: recall, reciprocal rank and NDCG of one ranking. */
module RankingEvaluation {
  import opened Prelude
  import opened Metrics

  datatype RetrievalMetrics = RetrievalMetrics(recallAtK: real, reciprocalRank: real, ndcgAtK: real) {
    /** What constructing the record validates. */
    predicate Valid() {
      0.0 <= recallAtK <= 1.0 && 0.0 <= reciprocalRank <= 1.0 && 0.0 <= ndcgAtK <= 1.0
    }
  }

  function Hits(selected: seq<string>, relevant: set<string>): nat {
    if selected == [] then 0
    else Hits(selected[..|selected| - 1], relevant) + (if selected[|selected| - 1] in relevant then 1 else 0)
  }

  /** The rank of the first relevant item, counting from 1. */
  function FirstRank(selected: seq<string>, relevant: set<string>): (r: Option<nat>)
    ensures r.None? <==> forall i :: 0 <= i < |selected| ==> selected[i] !in relevant
    ensures r.Some? ==> 1 <= r.value <= |selected| && selected[r.value - 1] in relevant
                        && forall i :: 0 <= i < r.value - 1 ==> selected[i] !in relevant
  {
    if selected == [] then None
    else if selected[0] in relevant then Some(1)
    else
      match FirstRank(selected[1..], relevant)
      case None => None
      case Some(rank) => Some(rank + 1)
  }

  function Indicator(selected: seq<string>, relevant: set<string>): seq<real> {
    seq(|selected|, i requires 0 <= i < |selected| => if selected[i] in relevant then 1.0 else 0.0)
  }

  function Ones(n: nat): seq<real> {
    seq(n, _ => 1.0)
  }

  /** `evaluate_ranking`; building the record raises when a value leaves [0, 1]. */
  function EvaluateRanking(ranked: seq<string>, relevant: set<string>, k: int,
                           d: nat -> real): Result<RetrievalMetrics> {
    if k < 1 then Err("evaluation_k")
    else
      var selected := Take(ranked, k);
      var recall := if relevant != {} then Hits(selected, relevant) as real / |relevant| as real else 1.0;
      var first := FirstRank(selected, relevant);
      var reciprocal := if first.Some? then 1.0 / first.value as real else 0.0;
      var dcg := Dcg(Indicator(selected, relevant), d, |selected|);
      var idealHits := if |relevant| < k then |relevant| else k;
      var ideal := Dcg(Ones(idealHits), d, idealHits);
      var metrics := RetrievalMetrics(recall, reciprocal, if ideal != 0.0 then dcg / ideal else 1.0);
      if metrics.Valid() then Ok(metrics) else Err("validation")
  }

  // ---------------------------------------------------------------------------
  // Bounds
  // ---------------------------------------------------------------------------

  lemma {:induction false} IndicatorTotal(selected: seq<string>, relevant: set<string>, n: nat)
    ensures Total(Indicator(selected, relevant), n) == Hits(Take(selected, n), relevant) as real
  {
    if n > 0 {
      IndicatorTotal(selected, relevant, n - 1);
      if n <= |selected| {
        assert Take(selected, n)[..n - 1] == Take(selected, n - 1);
        assert Take(selected, n)[n - 1] == selected[n - 1];
      }
    }
  }

  lemma {:induction false} OnesTotal(m: nat, n: nat)
    ensures Total(Ones(m), n) == (if n < m then n else m) as real
  {
    if n > 0 { OnesTotal(m, n - 1); }
  }

  lemma {:induction false} HitsAtMost(selected: seq<string>, relevant: set<string>, n: nat)
    requires n <= |selected|
    ensures Hits(selected[..n], relevant) <= n && Hits(selected[..n], relevant) <= Hits(selected, relevant)
    decreases |selected|
  {
    if n < |selected| {
      HitsAtMost(selected[..|selected| - 1], relevant, n);
      assert selected[..|selected| - 1][..n] == selected[..n];
    } else if n > 0 {
      HitsAtMost(selected[..n - 1], relevant, n - 1);
      assert selected[..n] == selected && selected[..n - 1][..n - 1] == selected[..n - 1];
    }
  }

  /** The hits of a ranking, wherever they are, discount to no more than as many hits at the top. */
  lemma DcgAtMostIdeal(selected: seq<string>, relevant: set<string>, d: nat -> real, m: nat)
    requires IsDiscount(d) && Hits(selected, relevant) <= m
    ensures 0.0 <= Dcg(Indicator(selected, relevant), d, |selected|) <= Dcg(Ones(m), d, m)
  {
    var g, h, n := Indicator(selected, relevant), Ones(m), |selected|;
    forall j | 0 <= j <= n ensures Total(g, j) <= Total(h, j) {
      IndicatorTotal(selected, relevant, j);
      OnesTotal(m, j);
      assert Take(selected, j) == selected[..j];
      HitsAtMost(selected, relevant, j);
    }
    DominatingPrefixes(g, h, d, n);
    DcgNonNegative(g, d, n);
    EndOfOnes(d, m, n);
  }

  /** Ranks beyond the ones add nothing, ranks before their end only less. */
  lemma {:induction false} EndOfOnes(d: nat -> real, m: nat, n: nat)
    requires IsDiscount(d)
    ensures Dcg(Ones(m), d, n) <= Dcg(Ones(m), d, m)
    decreases if n < m then m - n else n - m
  {
    if n < m {
      EndOfOnes(d, m, n + 1);
    } else if n > m {
      EndOfOnes(d, m, n - 1);
    }
  }

  lemma {:induction false} OnesPositive(d: nat -> real, m: nat, n: nat)
    requires IsDiscount(d) && 1 <= n <= m
    ensures Dcg(Ones(m), d, n) > 0.0
  {
    if n == 1 {
      assert Dcg(Ones(m), d, 0) == 0.0;
    } else {
      OnesPositive(d, m, n - 1);
    }
  }

  lemma FractionIsBounded(a: real, b: real)
    requires b > 0.0 && a >= 0.0
    ensures a / b >= 0.0 && (a / b <= 1.0 <==> a <= b)
  {
    var q := a / b;
    assert q * b == a;
    if q < 0.0 { PositiveProduct(-q, b); }
    if q > 1.0 { PositiveProduct(q - 1.0, b); }
    if q <= 1.0 { ScaleDown(b, 1.0, q); }
  }

  /**
   * The metrics of a ranking are well defined exactly when it does not count more hits at the cut-off than there are
   * relevant items: repeating a relevant identifier is the only way to leave [0, 1].
   */
  lemma MetricsExistExactly(ranked: seq<string>, relevant: set<string>, k: int, d: nat -> real)
    requires IsDiscount(d) && k >= 1
    ensures EvaluateRanking(ranked, relevant, k, d).Ok? <==>
                relevant == {} || Hits(Take(ranked, k), relevant) <= |relevant|
  {
    var selected := Take(ranked, k);
    var hits := Hits(selected, relevant);
    var idealHits := if |relevant| < k then |relevant| else k;
    var first := FirstRank(selected, relevant);
    if first.Some? { FractionIsBounded(1.0, first.value as real); }
    HitsAtMost(selected, relevant, |selected|);
    assert selected[..|selected|] == selected;
    if relevant != {} {
      FractionIsBounded(hits as real, |relevant| as real);
      if hits <= |relevant| {
        DcgAtMostIdeal(selected, relevant, d, idealHits);
        OnesPositive(d, idealHits, idealHits);
        FractionIsBounded(Dcg(Indicator(selected, relevant), d, |selected|), Dcg(Ones(idealHits), d, idealHits));
      }
    }
  }

  lemma {:induction false} DistinctHits(selected: seq<string>, relevant: set<string>)
    requires Distinct(selected)
    ensures Hits(selected, relevant) <= |relevant|
    decreases |selected|
  {
    if selected != [] {
      var front, last := selected[..|selected| - 1], selected[|selected| - 1];
      if last in relevant {
        DistinctHits(front, relevant - {last});
        HitsElsewhere(front, relevant, last);
      } else {
        DistinctHits(front, relevant);
      }
    }
  }

  lemma {:induction false} HitsElsewhere(selected: seq<string>, relevant: set<string>, x: string)
    requires forall i :: 0 <= i < |selected| ==> selected[i] != x
    ensures Hits(selected, relevant - {x}) == Hits(selected, relevant)
  {
    if selected != [] { HitsElsewhere(selected[..|selected| - 1], relevant, x); }
  }

  /** Every ranking without repeated identifiers has metrics, all of them in [0, 1]. */
  lemma DistinctRankingsHaveMetrics(ranked: seq<string>, relevant: set<string>, k: int, d: nat -> real)
    requires IsDiscount(d) && k >= 1 && Distinct(Take(ranked, k))
    ensures EvaluateRanking(ranked, relevant, k, d).Ok? && EvaluateRanking(ranked, relevant, k, d).value.Valid()
  {
    DistinctHits(Take(ranked, k), relevant);
    MetricsExistExactly(ranked, relevant, k, d);
  }

  /** Repeating a relevant identifier makes recall exceed 1, and the record cannot be built. */
  lemma RepeatedHitsRaise(d: nat -> real)
    requires IsDiscount(d)
    ensures EvaluateRanking(["a", "a"], {"a"}, 2, d) == Err("validation")
  {
    var ranked, relevant := ["a", "a"], {"a"};
    assert Take(ranked, 2) == ranked && ranked[..1] == ["a"] && ["a"][..0] == [];
    assert Hits(ranked, relevant) == 2;
    MetricsExistExactly(ranked, relevant, 2, d);
  }

  /** Relevant items first, and as many as the cut-off has room for: NDCG is 1. */
  lemma RelevantFirstScoresOne(ranked: seq<string>, relevant: set<string>, k: int, d: nat -> real)
    requires IsDiscount(d) && k >= 1 && Distinct(Take(ranked, k)) && relevant != {}
    requires var m := if |relevant| < k then |relevant| else k;
             m <= |ranked| && forall i :: 0 <= i < m ==> ranked[i] in relevant
    ensures EvaluateRanking(ranked, relevant, k, d).Ok? && EvaluateRanking(ranked, relevant, k, d).value.ndcgAtK == 1.0
  {
    DistinctRankingsHaveMetrics(ranked, relevant, k, d);
    var selected := Take(ranked, k);
    DistinctHits(selected, relevant);
    HitsAtMost(selected, relevant, |selected|);
    assert selected[..|selected|] == selected;
    TopDcg(selected, relevant, d, if |relevant| < k then |relevant| else k);
  }

  lemma TopDcg(selected: seq<string>, relevant: set<string>, d: nat -> real, m: nat)
    requires IsDiscount(d) && 1 <= m <= |selected| && Hits(selected, relevant) <= m
    requires forall i :: 0 <= i < m ==> selected[i] in relevant
    ensures Dcg(Indicator(selected, relevant), d, |selected|) == Dcg(Ones(m), d, m) > 0.0
    ensures Dcg(Indicator(selected, relevant), d, |selected|) / Dcg(Ones(m), d, m) == 1.0
  {
    DcgAtMostIdeal(selected, relevant, d, m);
    TopHits(selected, relevant, d, m, m);
    DcgOnlyGrows(Indicator(selected, relevant), d, m, |selected|);
    OnesPositive(d, m, m);
  }

  lemma {:induction false} TopHits(selected: seq<string>, relevant: set<string>, d: nat -> real, m: nat, n: nat)
    requires n <= m <= |selected| && forall i :: 0 <= i < m ==> selected[i] in relevant
    ensures Dcg(Indicator(selected, relevant), d, n) == Dcg(Ones(m), d, n)
  {
    if n > 0 { TopHits(selected, relevant, d, m, n - 1); }
  }

  // ---------------------------------------------------------------------------
  // recall_at_k of the other metrics module, which counts different items
  // ---------------------------------------------------------------------------

  function RecallAtK(retrieved: seq<string>, relevant: set<string>, k: int): Result<real> {
    if k < 1 then Err("k")
    else if relevant == {} then Ok(if Take(retrieved, k) == [] then 1.0 else 0.0)
    else Ok(|Elements(Take(retrieved, k)) * relevant| as real / |relevant| as real)
  }

  function Elements(s: seq<string>): set<string> {
    set x | x in s
  }

  /** This recall stays in [0, 1] for every ranking, and is 1 exactly when nothing relevant is missing. */
  lemma RecallIsBounded(retrieved: seq<string>, relevant: set<string>, k: int)
    requires k >= 1
    ensures RecallAtK(retrieved, relevant, k).Ok? && 0.0 <= RecallAtK(retrieved, relevant, k).value <= 1.0
    ensures relevant != {} ==>
              (RecallAtK(retrieved, relevant, k).value == 1.0 <==> forall x :: x in relevant ==>
               x in Take(retrieved, k))
  {
    if relevant != {} {
      var found := Elements(Take(retrieved, k)) * relevant;
      SubsetCount(found, relevant);
      FractionIsBounded(|found| as real, |relevant| as real);
      assert found == relevant <==> forall x :: x in relevant ==> x in Take(retrieved, k);
      if found != relevant {
        assert |found| < |relevant|;
        var q := |found| as real / |relevant| as real;
        assert q * |relevant| as real == |found| as real;
      }
    }
  }
}
