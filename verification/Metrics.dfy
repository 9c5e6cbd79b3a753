/**
 * Ranking metrics. The discount is any positive non-increasing sequence and the gain any monotone function with
 * gain(0) = 0, which covers 1 / log2(rank + 1) and 2 ** relevance - 1.
 */
module Metrics {
  import opened Prelude

  ghost predicate IsDiscount(d: nat -> real) {
    && (forall i: nat :: d(i) > 0.0)
    && (forall i: nat, j: nat :: i <= j ==> d(i) >= d(j))
  }

  ghost predicate IsGain(gain: real -> real) {
    gain(0.0) == 0.0 && forall a: real, b: real :: 0.0 <= a <= b ==> gain(a) <= gain(b)
  }

  predicate Distinct(s: seq<string>) {
    forall i, j :: 0 <= i < j < |s| ==> s[i] != s[j]
  }

  // ---------------------------------------------------------------------------
  // Sums over the first ranks
  // ---------------------------------------------------------------------------

  /** What rank `i + 1` is worth; ranks beyond the end of the list are worth nothing. */
  function At(gains: seq<real>, i: nat): real {
    if i < |gains| then gains[i] else 0.0
  }

  /** Discounted cumulative gain of the first `n` ranks. */
  function Dcg(gains: seq<real>, d: nat -> real, n: nat): real {
    if n == 0 then 0.0 else Dcg(gains, d, n - 1) + At(gains, n - 1) * d(n)
  }

  function Total(gains: seq<real>, n: nat): real {
    if n == 0 then 0.0 else Total(gains, n - 1) + At(gains, n - 1)
  }

  /** Abel's inequality: if every prefix of `h` is worth at least that of `g`, so is the discounted sum. */
  lemma {:induction false} PrefixesDecide(g: seq<real>, h: seq<real>, d: nat -> real, n: nat)
    requires IsDiscount(d) && forall j :: 0 <= j <= n ==> Total(g, j) <= Total(h, j)
    ensures Dcg(h, d, n) - Dcg(g, d, n) >= (Total(h, n) - Total(g, n)) * d(n)
  {
    if n > 0 {
      PrefixesDecide(g, h, d, n - 1);
      AbelStep(Dcg(g, d, n - 1), Dcg(h, d, n - 1), Total(h, n - 1) - Total(g, n - 1), At(g, n - 1), At(h, n - 1),
               d(n - 1), d(n));
    }
  }

  lemma AbelStep(dg: real, dh: real, gap: real, g: real, h: real, high: real, low: real)
    requires dh - dg >= gap * high && gap >= 0.0 && high >= low
    ensures (dh + h * low) - (dg + g * low) >= (gap + h - g) * low
  {
    ScaleDown(gap, high, low);
    assert (gap + h - g) * low == gap * low + h * low - g * low;
  }

  lemma ScaleDown(gap: real, high: real, low: real)
    requires gap >= 0.0 && high >= low
    ensures gap * high >= gap * low
  {
  }

  lemma DominatingPrefixes(g: seq<real>, h: seq<real>, d: nat -> real, n: nat)
    requires IsDiscount(d) && forall j :: 0 <= j <= n ==> Total(g, j) <= Total(h, j)
    ensures Dcg(g, d, n) <= Dcg(h, d, n)
  {
    PrefixesDecide(g, h, d, n);
    ScaleDown(Total(h, n) - Total(g, n), d(n), 0.0);
  }

  lemma {:induction false} DcgNonNegative(gains: seq<real>, d: nat -> real, n: nat)
    requires IsDiscount(d) && forall i :: 0 <= i < |gains| ==> gains[i] >= 0.0
    ensures Dcg(gains, d, n) >= 0.0
  {
    if n > 0 {
      DcgNonNegative(gains, d, n - 1);
      ScaleDown(At(gains, n - 1), d(n), 0.0);
    }
  }

  // ---------------------------------------------------------------------------
  // Rearrangement
  // ---------------------------------------------------------------------------

  ghost predicate NoneNegative(worth: string -> real) {
    forall x :: worth(x) >= 0.0
  }

  function Worths(items: seq<string>, worth: string -> real): seq<real> {
    seq(|items|, i requires 0 <= i < |items| => worth(items[i]))
  }

  function Sum(items: seq<string>, worth: string -> real): real {
    if items == [] then 0.0 else worth(items[0]) + Sum(items[1..], worth)
  }

  predicate Descending(items: seq<string>, worth: string -> real) {
    forall i, j :: 0 <= i <= j < |items| ==> worth(items[i]) >= worth(items[j])
  }

  lemma {:induction false} SumAppends(items: seq<string>, x: string, worth: string -> real)
    ensures Sum(items + [x], worth) == Sum(items, worth) + worth(x)
  {
    if items == [] {
      assert (items + [x])[1..] == [];
    } else {
      assert (items + [x])[1..] == items[1..] + [x];
      SumAppends(items[1..], x, worth);
    }
  }

  lemma {:induction false} TotalIsSum(items: seq<string>, worth: string -> real, n: nat)
    ensures Total(Worths(items, worth), n) == Sum(Take(items, n), worth)
  {
    if n > 0 {
      TotalIsSum(items, worth, n - 1);
      if n <= |items| {
        assert Take(items, n) == Take(items, n - 1) + [items[n - 1]];
        SumAppends(Take(items, n - 1), items[n - 1], worth);
      }
    }
  }

  /** `items` without position `i`. */
  function Without(items: seq<string>, i: nat): seq<string>
    requires i < |items|
  {
    items[..i] + items[i + 1..]
  }

  lemma {:induction false} SumSplits(items: seq<string>, i: nat, worth: string -> real)
    requires i < |items|
    ensures Sum(items, worth) == Sum(Without(items, i), worth) + worth(items[i])
  {
    if i == 0 {
      assert Without(items, 0) == items[1..];
    } else {
      SumSplits(items[1..], i - 1, worth);
      assert Without(items, i)[1..] == Without(items[1..], i - 1) && Without(items, i)[0] == items[0];
    }
  }

  lemma WithoutHolds(items: seq<string>, i: nat, x: string)
    requires Distinct(items) && i < |items|
    ensures Distinct(Without(items, i))
    ensures x in Without(items, i) ==> x in items && x != items[i]
  {
    var rest := Without(items, i);
    forall j | 0 <= j < |rest| ensures rest[j] == items[if j < i then j else j + 1] {}
  }

  lemma {:induction false} WorthlessSum(items: seq<string>, worth: string -> real)
    requires forall x :: x in items ==> worth(x) == 0.0
    ensures Sum(items, worth) == 0.0
  {
    if items != [] { WorthlessSum(items[1..], worth); }
  }

  predicate Covered(items: seq<string>, sorted: seq<string>, worth: string -> real) {
    forall x :: x in items ==> x in sorted || worth(x) == 0.0
  }

  lemma RestIsCovered(items: seq<string>, sorted: seq<string>, i: nat, worth: string -> real)
    requires Distinct(items) && Covered(items, sorted, worth) && sorted != [] && i < |items|
    requires sorted[0] in items ==> items[i] == sorted[0]
    ensures Covered(Without(items, i), sorted[1..], worth)
  {
    forall x | x in Without(items, i) ensures x in sorted[1..] || worth(x) == 0.0 {
      WithoutHolds(items, i, x);
      if x in sorted {
        var j :| 0 <= j < |sorted| && sorted[j] == x;
        assert sorted[1..][j - 1] == x;
      }
    }
  }

  /** The position of `x`, or the last one if it does not occur. */
  lemma PositionOf(items: seq<string>, x: string) returns (i: nat)
    requires items != []
    ensures i < |items| && (x in items ==> items[i] == x)
  {
    i := |items| - 1;
    if x in items { i :| 0 <= i < |items| && items[i] == x; }
  }

  lemma NothingBeatsTheFirst(sorted: seq<string>, worth: string -> real, x: string)
    requires sorted != [] && Descending(sorted, worth) && worth(sorted[0]) >= 0.0
    requires x in sorted || worth(x) == 0.0
    ensures worth(x) <= worth(sorted[0]) && Descending(sorted[1..], worth)
  {
    if x in sorted {
      var j :| 0 <= j < |sorted| && sorted[j] == x;
    }
  }

  /** Set aside one item worth no more than the best, such that the rest is covered without the best. */
  lemma SetAside(items: seq<string>, sorted: seq<string>, worth: string -> real) returns (rest: seq<string>)
    requires Distinct(items) && Descending(sorted, worth) && NoneNegative(worth) && Covered(items, sorted, worth)
    requires sorted != [] && items != []
    ensures Distinct(rest) && |rest| == |items| - 1 && Covered(rest, sorted[1..], worth)
    ensures Sum(items, worth) <= Sum(rest, worth) + worth(sorted[0])
  {
    var i := PositionOf(items, sorted[0]);
    rest := Without(items, i);
    SumSplits(items, i, worth);
    WithoutHolds(items, i, sorted[0]);
    RestIsCovered(items, sorted, i, worth);
    assert items[i] in items;
    NothingBeatsTheFirst(sorted, worth, items[i]);
  }

  /** The first items of a descending list are worth at least as much as equally many different items. */
  lemma {:induction false} BestComeFirst(items: seq<string>, sorted: seq<string>, worth: string -> real)
    requires Distinct(items) && Descending(sorted, worth) && NoneNegative(worth) && Covered(items, sorted, worth)
    ensures Sum(items, worth) <= Sum(Take(sorted, |items|), worth)
    decreases |sorted|
  {
    if items == [] {
    } else if sorted == [] {
      WorthlessSum(items, worth);
    } else {
      var rest := SetAside(items, sorted, worth);
      BestComeFirst(rest, sorted[1..], worth);
      TakeSplits(sorted, |items|, worth);
    }
  }

  lemma TakeSplits(sorted: seq<string>, n: nat, worth: string -> real)
    requires sorted != [] && n >= 1
    ensures Sum(Take(sorted, n), worth) == worth(sorted[0]) + Sum(Take(sorted[1..], n - 1), worth)
  {
    assert Take(sorted, n)[1..] == Take(sorted[1..], n - 1);
  }

  /** Rearrangement: no different items are worth more, discounted, than the same number in descending order. */
  lemma DescendingIsBest(items: seq<string>, sorted: seq<string>, worth: string -> real, d: nat -> real, k: nat)
    requires IsDiscount(d) && Distinct(items) && Descending(sorted, worth) && NoneNegative(worth)
    requires Covered(items, sorted, worth)
    ensures Dcg(Worths(items, worth), d, k) <= Dcg(Worths(sorted, worth), d, k)
  {
    forall j | 0 <= j <= k ensures Total(Worths(items, worth), j) <= Total(Worths(sorted, worth), j) {
      TotalIsSum(items, worth, j);
      TotalIsSum(sorted, worth, j);
      var first := Take(items, j);
      forall x | x in first ensures x in items {}
      BestComeFirst(first, sorted, worth);
      if |first| < j {
        PrefixIsLess(sorted, worth, |first|, j);
      }
    }
    DominatingPrefixes(Worths(items, worth), Worths(sorted, worth), d, k);
  }

  lemma {:induction false} PrefixIsLess(sorted: seq<string>, worth: string -> real, m: nat, n: nat)
    requires m <= n && NoneNegative(worth)
    ensures Sum(Take(sorted, m), worth) <= Sum(Take(sorted, n), worth)
  {
    if m < n {
      PrefixIsLess(sorted, worth, m, n - 1);
      if n <= |sorted| {
        assert Take(sorted, n) == Take(sorted, n - 1) + [sorted[n - 1]];
        SumAppends(Take(sorted, n - 1), sorted[n - 1], worth);
      }
    }
  }

  lemma {:induction false} DcgOnlyGrows(gains: seq<real>, d: nat -> real, m: nat, n: nat)
    requires IsDiscount(d) && m <= n && forall i :: 0 <= i < |gains| ==> gains[i] >= 0.0
    ensures Dcg(gains, d, m) <= Dcg(gains, d, n)
  {
    if m < n {
      DcgOnlyGrows(gains, d, m, n - 1);
      ScaleDown(At(gains, n - 1), d(n), 0.0);
    }
  }

  /** The first `n` ranks decide about the first `n` ranks. */
  lemma {:induction false} TakeDecides(items: seq<string>, worth: string -> real, d: nat -> real, n: nat, k: nat)
    requires n <= k
    ensures Dcg(Worths(items, worth), d, n) == Dcg(Worths(Take(items, k), worth), d, n)
  {
    if n > 0 { TakeDecides(items, worth, d, n - 1, k); }
  }

  // ---------------------------------------------------------------------------
  // NDCG with graded relevance
  // ---------------------------------------------------------------------------

  predicate NonNegative(relevance: map<string, real>) {
    forall x :: x in relevance ==> relevance[x] >= 0.0
  }

  function Worth(relevance: map<string, real>, gain: real -> real): string -> real {
    x => gain(if x in relevance then relevance[x] else 0.0)
  }

  /** Every judged item once, by descending relevance. */
  ghost predicate SortedByRelevance(relevance: map<string, real>, keys: seq<string>) {
    && Distinct(keys) && (forall x :: x in keys <==> x in relevance)
    && (forall i, j :: 0 <= i <= j < |keys| ==> relevance[keys[i]] >= relevance[keys[j]])
  }

  lemma WorthIsNonNegative(relevance: map<string, real>, gain: real -> real)
    requires IsGain(gain) && NonNegative(relevance)
    ensures NoneNegative(Worth(relevance, gain))
    ensures forall x :: x !in relevance ==> Worth(relevance, gain)(x) == 0.0
  {
  }

  lemma SortedIsDescending(relevance: map<string, real>, keys: seq<string>, gain: real -> real)
    requires IsGain(gain) && NonNegative(relevance) && SortedByRelevance(relevance, keys)
    ensures Descending(keys, Worth(relevance, gain))
  {
    forall i, j | 0 <= i <= j < |keys| ensures Worth(relevance, gain)(keys[i]) >= Worth(relevance, gain)(keys[j]) {
      assert keys[i] in keys && keys[j] in keys;
    }
  }

  method MostRelevant(relevance: map<string, real>, todo: set<string>) returns (best: string)
    requires todo != {} && todo <= relevance.Keys
    ensures best in todo && forall x :: x in todo ==> relevance[x] <= relevance[best]
  {
    best :| best in todo;
    var left := todo - {best};
    while left != {}
      invariant left <= todo && best in todo
      invariant forall x :: x in todo - left ==> relevance[x] <= relevance[best]
    {
      var x :| x in left;
      left := left - {x};
      if relevance[x] > relevance[best] { best := x; }
    }
  }

  /** The order `sorted(..., reverse=True)` puts the judged items in. */
  method SortKeys(relevance: map<string, real>) returns (keys: seq<string>)
    ensures SortedByRelevance(relevance, keys)
  {
    keys := [];
    var todo := relevance.Keys;
    while todo != {}
      invariant todo <= relevance.Keys && Distinct(keys)
      invariant forall x :: x in keys <==> x in relevance && x !in todo
      invariant forall i, j :: 0 <= i <= j < |keys| ==>
                  keys[i] in relevance && keys[j] in relevance && relevance[keys[i]] >= relevance[keys[j]]
      invariant forall i, x :: 0 <= i < |keys| && x in todo ==>
                    keys[i] in relevance && relevance[keys[i]] >= relevance[x]
    {
      var best := MostRelevant(relevance, todo);
      todo := todo - {best};
      keys := keys + [best];
    }
  }

  function Ratio(dcg: real, ideal: real): real {
    if ideal == 0.0 then 0.0 else dcg / ideal
  }

  /** `ndcg_at_k`. When the first `k` ranks repeat no identifier the value lies in [0, 1]. */
  method NdcgAtK(retrieved: seq<string>, relevance: map<string, real>, k: int, gain: real -> real, d: nat -> real)
    returns (r: Result<real>, ghost keys: seq<string>)
    ensures r.Ok? <==> k >= 1 && NonNegative(relevance)
    ensures r.Ok? ==>
              && SortedByRelevance(relevance, keys)
              && var worth := Worth(relevance, gain);
                 r.value == Ratio(Dcg(Worths(retrieved, worth), d, k), Dcg(Worths(keys, worth), d, k))
    ensures r.Ok? && IsGain(gain) && IsDiscount(d) && Distinct(Take(retrieved, k)) ==> 0.0 <= r.value <= 1.0
  {
    keys := [];
    if k < 1 || exists x :: x in relevance && relevance[x] < 0.0 { return Err("invalid"), keys; }
    var worth := Worth(relevance, gain);
    var dcg := Dcg(Worths(retrieved, worth), d, k);
    var sorted := SortKeys(relevance);
    keys := sorted;
    var ideal := Dcg(Worths(sorted, worth), d, k);
    if IsGain(gain) && IsDiscount(d) && Distinct(Take(retrieved, k)) {
      NdcgIsBounded(retrieved, relevance, k, gain, d, sorted);
    }
    r := Ok(if ideal == 0.0 then 0.0 else dcg / ideal);
  }

  lemma RatioIsBounded(dcg: real, ideal: real)
    requires 0.0 <= dcg <= ideal
    ensures 0.0 <= Ratio(dcg, ideal) <= 1.0
  {
    if ideal > 0.0 {
      var q := dcg / ideal;
      assert q * ideal == dcg;
      if q > 1.0 { ScaleDown(ideal, q, 1.0); PositiveProduct(q - 1.0, ideal); }
      if q < 0.0 { PositiveProduct(-q, ideal); }
    }
  }

  /** For every ranking whose first `k` identifiers differ: DCG is at most the ideal DCG. */
  lemma NdcgIsBounded(retrieved: seq<string>, relevance: map<string, real>, k: nat, gain: real -> real, d: nat -> real,
                      keys: seq<string>)
    requires IsGain(gain) && IsDiscount(d) && NonNegative(relevance) && SortedByRelevance(relevance, keys)
    requires Distinct(Take(retrieved, k))
    ensures var worth := Worth(relevance, gain);
            var dcg, ideal := Dcg(Worths(retrieved, worth), d, k), Dcg(Worths(keys, worth), d, k);
            0.0 <= dcg <= ideal && 0.0 <= Ratio(dcg, ideal) <= 1.0
  {
    var worth, top := Worth(relevance, gain), Take(retrieved, k);
    WorthIsNonNegative(relevance, gain);
    SortedIsDescending(relevance, keys, gain);
    JudgedAreCovered(top, relevance, gain, keys);
    TakeDecides(retrieved, worth, d, k, k);
    DescendingIsBest(top, keys, worth, d, k);
    DcgNonNegative(Worths(top, worth), d, k);
    RatioIsBounded(Dcg(Worths(top, worth), d, k), Dcg(Worths(keys, worth), d, k));
  }

  // ---------------------------------------------------------------------------
  // When the value is 1
  // ---------------------------------------------------------------------------

  /** The first `k` ranks differ and go down in worth, and nothing judged that is missing from them is worth more. */
  predicate BestFirst(retrieved: seq<string>, relevance: map<string, real>, k: nat, worth: string -> real) {
    var top := Take(retrieved, k);
    && Distinct(top) && Descending(top, worth)
    && forall y :: y in relevance && y !in top ==>
         if |top| < k then worth(y) == 0.0 else forall i :: 0 <= i < |top| ==> worth(y) <= worth(top[i])
  }

  /**
   * A ranking that starts with the most relevant items in order attains the ideal: the value is 1 as soon as some item
   * `x` has a positive gain.
   */
  lemma PerfectRankingScoresOne(retrieved: seq<string>, relevance: map<string, real>, k: nat, gain: real -> real,
                                d: nat -> real, keys: seq<string>, x: string)
    requires IsGain(gain) && IsDiscount(d) && NonNegative(relevance) && SortedByRelevance(relevance, keys)
    requires BestFirst(retrieved, relevance, k, Worth(relevance, gain)) && k >= 1
    requires x in relevance && gain(relevance[x]) > 0.0
    ensures var worth := Worth(relevance, gain);
            Ratio(Dcg(Worths(retrieved, worth), d, k), Dcg(Worths(keys, worth), d, k)) == 1.0
  {
    var worth := Worth(relevance, gain);
    PerfectTotal(retrieved, relevance, k, gain, d, keys);
    IdealIsPositive(relevance, k, gain, d, keys, x);
    RatioOfEquals(Dcg(Worths(keys, worth), d, k));
  }

  lemma RatioOfEquals(a: real)
    requires a > 0.0
    ensures Ratio(a, a) == 1.0
  {
  }

  lemma PerfectTotal(retrieved: seq<string>, relevance: map<string, real>, k: nat, gain: real -> real, d: nat -> real,
                     keys: seq<string>)
    requires IsGain(gain) && IsDiscount(d) && NonNegative(relevance) && SortedByRelevance(relevance, keys)
    requires BestFirst(retrieved, relevance, k, Worth(relevance, gain)) && k >= 1
    ensures var worth := Worth(relevance, gain);
            Dcg(Worths(retrieved, worth), d, k) == Dcg(Worths(keys, worth), d, k)
  {
    var worth, top := Worth(relevance, gain), Take(retrieved, k);
    WorthIsNonNegative(relevance, gain);
    SortedIsDescending(relevance, keys, gain);
    NdcgIsBounded(retrieved, relevance, k, gain, d, keys);
    TakeDecides(retrieved, worth, d, k, k);
    TopIsBest(keys, top, worth, d, k);
  }

  /** Nothing is worth more in the first `k` ranks than items in descending order that leave nothing better out. */
  lemma TopIsBest(keys: seq<string>, top: seq<string>, worth: string -> real, d: nat -> real, k: nat)
    requires IsDiscount(d) && NoneNegative(worth) && |top| <= k && k >= 1
    requires Distinct(keys) && Descending(keys, worth) && Descending(top, worth)
    requires forall y :: y in keys && y !in top ==>
               if |top| < k then worth(y) == 0.0 else forall i :: 0 <= i < |top| ==> worth(y) <= worth(top[i])
    ensures Dcg(Worths(keys, worth), d, k) <= Dcg(Worths(top, worth), d, k)
  {
    if |top| < k {
      DescendingIsBest(keys, top, worth, d, k);
    } else {
      var rest := Missing(keys, top);
      MissingAre(keys, top, worth);
      forall i, j | 0 <= i < |top| && 0 <= j < |rest| ensures worth(top[i]) >= worth(rest[j]) {
        assert rest[j] in rest;
      }
      DescendingIsBest(keys, top + rest, worth, d, k);
      assert Take(top + rest, k) == top;
      TakeDecides(top + rest, worth, d, k, k);
    }
  }

  /** What of `keys` is not in `top`, in order. */
  function Missing(keys: seq<string>, top: seq<string>): seq<string> {
    if keys == [] then []
    else (if keys[0] in top then [] else [keys[0]]) + Missing(keys[1..], top)
  }

  lemma {:induction false} MissingAre(keys: seq<string>, top: seq<string>, worth: string -> real)
    requires Descending(keys, worth)
    ensures forall x :: x in Missing(keys, top) <==> x in keys && x !in top
    ensures Descending(Missing(keys, top), worth)
  {
    if keys != [] {
      MissingAre(keys[1..], top, worth);
      assert keys == [keys[0]] + keys[1..];
      forall x | x in keys[1..] ensures worth(keys[0]) >= worth(x) {
        var i :| 0 <= i < |keys[1..]| && keys[1..][i] == x;
        assert keys[i + 1] == x;
      }
    }
  }

  lemma JudgedAreCovered(retrieved: seq<string>, relevance: map<string, real>, gain: real -> real, keys: seq<string>)
    requires IsGain(gain) && SortedByRelevance(relevance, keys)
    ensures Covered(retrieved, keys, Worth(relevance, gain))
  {
  }

  lemma IdealIsPositive(relevance: map<string, real>, k: nat, gain: real -> real, d: nat -> real, keys: seq<string>,
                        x: string)
    requires IsGain(gain) && IsDiscount(d) && NonNegative(relevance) && SortedByRelevance(relevance, keys) && k >= 1
    requires x in relevance && gain(relevance[x]) > 0.0
    ensures Dcg(Worths(keys, Worth(relevance, gain)), d, k) > 0.0
  {
    var worth := Worth(relevance, gain);
    WorthIsNonNegative(relevance, gain);
    SortedIsDescending(relevance, keys, gain);
    assert x in keys;
    var i :| 0 <= i < |keys| && keys[i] == x;
    assert worth(keys[0]) >= worth(keys[i]) == worth(x) > 0.0;
    FirstRankCounts(Worths(keys, worth), d, k);
  }

  lemma {:induction false} FirstRankCounts(gains: seq<real>, d: nat -> real, n: nat)
    requires IsDiscount(d) && gains != [] && gains[0] > 0.0 && n >= 1
    requires forall i :: 0 <= i < |gains| ==> gains[i] >= 0.0
    ensures Dcg(gains, d, n) > 0.0
  {
    if n == 1 {
      assert Dcg(gains, d, 0) == 0.0;
      PositiveProduct(gains[0], d(1));
    } else {
      FirstRankCounts(gains, d, n - 1);
      ScaleDown(At(gains, n - 1), d(n), 0.0);
    }
  }

  lemma PositiveProduct(a: real, b: real)
    requires a > 0.0 && b > 0.0
    ensures a * b > 0.0
  {
  }

  // ---------------------------------------------------------------------------
  // When it can exceed 1
  // ---------------------------------------------------------------------------

  lemma {:induction false} FirstRepeat(s: seq<string>) returns (j: nat)
    requires !Distinct(s)
    ensures 0 < j < |s| && Distinct(s[..j]) && s[j] in s[..j]
  {
    var n := |s| - 1;
    if Distinct(s[..n]) {
      j := n;
    } else {
      j := FirstRepeat(s[..n]);
      assert s[..n][..j] == s[..j];
    }
  }

  /** A repeated item is counted twice: judging just the items before the first repetition relevant exceeds 1. */
  lemma RepeatsExceedOne(retrieved: seq<string>, k: nat, gain: real -> real, d: nat -> real)
    returns (relevance: map<string, real>, keys: seq<string>)
    requires IsGain(gain) && IsDiscount(d) && gain(1.0) > 0.0 && !Distinct(Take(retrieved, k))
    ensures NonNegative(relevance) && SortedByRelevance(relevance, keys)
    ensures var worth := Worth(relevance, gain);
            Ratio(Dcg(Worths(retrieved, worth), d, k), Dcg(Worths(keys, worth), d, k)) > 1.0
  {
    var j := FirstRepeat(Take(retrieved, k));
    keys := Take(retrieved, k)[..j];
    assert keys == Take(retrieved, j) && retrieved[j] in keys;
    relevance := map x | x in keys :: 1.0;
    var worth := Worth(relevance, gain);
    WorthIsNonNegative(relevance, gain);
    RepeatAddsMore(retrieved, j, k, worth, d);
    RatioExceedsOne(Dcg(Worths(retrieved, worth), d, k), Dcg(Worths(keys, worth), d, k));
  }

  /** Something worthwhile at rank `j + 1` lifts the sum above that of the first `j` ranks alone. */
  lemma RepeatAddsMore(items: seq<string>, j: nat, k: nat, worth: string -> real, d: nat -> real)
    requires IsDiscount(d) && NoneNegative(worth) && 0 < j < k && j < |items|
    requires worth(items[0]) > 0.0 && worth(items[j]) > 0.0
    ensures Dcg(Worths(items, worth), d, k) > Dcg(Worths(Take(items, j), worth), d, k) > 0.0
  {
    var all, first := Worths(items, worth), Worths(Take(items, j), worth);
    NothingAfter(first, d, k);
    TakeDecides(items, worth, d, j, j);
    FirstRankCounts(first, d, j);
    PositiveProduct(all[j], d(j + 1));
    DcgOnlyGrows(all, d, j + 1, k);
  }

  /** Ranks beyond the end add nothing. */
  lemma {:induction false} NothingAfter(gains: seq<real>, d: nat -> real, n: nat)
    requires |gains| <= n
    ensures Dcg(gains, d, n) == Dcg(gains, d, |gains|)
  {
    if |gains| < n { NothingAfter(gains, d, n - 1); }
  }

  lemma RatioExceedsOne(dcg: real, ideal: real)
    requires dcg > ideal > 0.0
    ensures Ratio(dcg, ideal) > 1.0
  {
    SumExceeds(ideal, dcg - ideal);
  }

  ghost predicate NeverExceedsOne(retrieved: seq<string>, k: nat, gain: real -> real, d: nat -> real) {
    forall relevance, keys {:trigger SortedByRelevance(relevance, keys)} ::
      NonNegative(relevance) && SortedByRelevance(relevance, keys) ==>
        var worth := Worth(relevance, gain);
        0.0 <= Ratio(Dcg(Worths(retrieved, worth), d, k), Dcg(Worths(keys, worth), d, k)) <= 1.0
  }

  /** The value lies in [0, 1] whatever is judged relevant if and only if the first `k` identifiers differ. */
  lemma BoundedExactlyWhenDistinct(retrieved: seq<string>, k: nat, gain: real -> real, d: nat -> real)
    requires IsGain(gain) && IsDiscount(d) && gain(1.0) > 0.0
    ensures NeverExceedsOne(retrieved, k, gain, d) <==> Distinct(Take(retrieved, k))
  {
    if Distinct(Take(retrieved, k)) {
      forall relevance, keys | NonNegative(relevance) && SortedByRelevance(relevance, keys)
        ensures var worth := Worth(relevance, gain);
                0.0 <= Ratio(Dcg(Worths(retrieved, worth), d, k), Dcg(Worths(keys, worth), d, k)) <= 1.0
      {
        NdcgIsBounded(retrieved, relevance, k, gain, d, keys);
      }
    } else {
      var relevance, keys := RepeatsExceedOne(retrieved, k, gain, d);
    }
  }

  lemma SumExceeds(a: real, b: real)
    requires a > 0.0 && b > 0.0
    ensures (a + b) / a > 1.0
  {
    var q := (a + b) / a;
    assert q * a == a + b;
    if q <= 1.0 { ProductNonNegative(1.0 - q, a); }
  }
}
