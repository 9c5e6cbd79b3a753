/** Greedy final selection under a relevance threshold and a limit per document. */
module Cleaning {
  import opened Prelude
  import opened Ranking

  datatype Reason = DuplicateChunk | BelowThreshold | PerDocumentLimit

  datatype CleanResult = CleanResult(candidates: seq<Candidate>, excluded: seq<(Candidate, Reason)>)

  // ---------------------------------------------------------------------------
  // What may be selected
  // ---------------------------------------------------------------------------

  predicate FirstOccurrence(s: seq<Candidate>, i: nat)
    requires i < |s|
  {
    forall j :: 0 <= j < i ==> s[j].chunkId != s[i].chunkId
  }

  /** Selectable positions: the first of its chunk, and relevant enough there. */
  predicate Eligible(s: seq<Candidate>, threshold: real, i: nat)
    requires i < |s|
  {
    FirstOccurrence(s, i) && s[i].score.finalScore >= threshold
  }

  /** Eligible positions below `n` in document `d`. */
  function EligibleIn(s: seq<Candidate>, threshold: real, n: nat, d: string): set<nat>
    requires n <= |s|
  {
    set i: nat | i < n && Eligible(s, threshold, i) && s[i].documentId == d
  }

  /** A selection that respects every limit. */
  ghost predicate Feasible(s: seq<Candidate>, threshold: real, limit: nat, topK: nat, selection: set<nat>) {
    && (forall i :: i in selection ==> i < |s| && Eligible(s, threshold, i))
    && (forall d {:trigger InDocument(s, selection, d)} :: |InDocument(s, selection, d)| <= limit)
    && |selection| <= topK
  }

  ghost function InDocument(s: seq<Candidate>, selection: set<nat>, d: string): set<nat> {
    set i | i in selection && i < |s| && s[i].documentId == d
  }

  // ---------------------------------------------------------------------------
  // The most that can be selected
  // ---------------------------------------------------------------------------

  /** The sum over documents of what each can contribute. */
  ghost function Capacity(s: seq<Candidate>, threshold: real, limit: nat, n: nat, documents: set<string>): nat
    requires n <= |s|
  {
    if documents == {} then 0
    else
      var d :| d in documents;
      MinNat(limit, |EligibleIn(s, threshold, n, d)|) + Capacity(s, threshold, limit, n, documents - {d})
  }

  lemma {:induction false} CapacitySplits(s: seq<Candidate>, threshold: real, limit: nat, n: nat,
                                          documents: set<string>, d: string)
    requires n <= |s| && d in documents
    ensures Capacity(s, threshold, limit, n, documents)
            == MinNat(limit, |EligibleIn(s, threshold, n, d)|) + Capacity(s, threshold, limit, n, documents - {d})
    decreases |documents|
  {
    var e :| e in documents && Capacity(s, threshold, limit, n, documents)
             == MinNat(limit, |EligibleIn(s, threshold, n, e)|) + Capacity(s, threshold, limit, n, documents - {e});
    if e != d {
      CapacitySplits(s, threshold, limit, n, documents - {e}, d);
      CapacitySplits(s, threshold, limit, n, documents - {d}, e);
      assert documents - {e} - {d} == documents - {d} - {e};
    }
  }

  /** Documents that the next position does not belong to contribute as before. */
  lemma {:induction false} CapacityElsewhere(s: seq<Candidate>, threshold: real, limit: nat, n: nat,
                                             documents: set<string>)
    requires n < |s| && (s[n].documentId !in documents || !Eligible(s, threshold, n))
    ensures Capacity(s, threshold, limit, n + 1, documents) == Capacity(s, threshold, limit, n, documents)
    decreases |documents|
  {
    if documents != {} {
      var d :| d in documents;
      CapacitySplits(s, threshold, limit, n, documents, d);
      CapacitySplits(s, threshold, limit, n + 1, documents, d);
      CapacityElsewhere(s, threshold, limit, n, documents - {d});
      EligibleNext(s, threshold, n, d);
    }
  }

  /** The greedy rule: an eligible position is taken while its document has room. */
  predicate Taken(s: seq<Candidate>, threshold: real, limit: nat, i: nat)
    requires i < |s|
  {
    Eligible(s, threshold, i) && |EligibleIn(s, threshold, i, s[i].documentId)| < limit
  }

  lemma EligibleNext(s: seq<Candidate>, threshold: real, n: nat, d: string)
    requires n < |s|
    ensures |EligibleIn(s, threshold, n + 1, d)|
            == |EligibleIn(s, threshold, n, d)| + (if Eligible(s, threshold, n) && s[n].documentId == d then 1 else 0)
  {
    assert EligibleIn(s, threshold, n + 1, d)
           == EligibleIn(s, threshold, n, d) + (if Eligible(s, threshold, n) && s[n].documentId == d then {n} else {});
  }

  lemma CapacityGrows(s: seq<Candidate>, threshold: real, limit: nat, n: nat, documents: set<string>)
    requires n < |s| && s[n].documentId in documents
    ensures Capacity(s, threshold, limit, n + 1, documents)
            == Capacity(s, threshold, limit, n, documents) + (if Taken(s, threshold, limit, n) then 1 else 0)
  {
    var d := s[n].documentId;
    if Eligible(s, threshold, n) {
      CapacitySplits(s, threshold, limit, n, documents, d);
      CapacitySplits(s, threshold, limit, n + 1, documents, d);
      CapacityElsewhere(s, threshold, limit, n, documents - {d});
      EligibleNext(s, threshold, n, d);
    } else {
      CapacityElsewhere(s, threshold, limit, n, documents);
    }
  }

  lemma {:induction false} NothingYet(s: seq<Candidate>, threshold: real, limit: nat, documents: set<string>)
    ensures Capacity(s, threshold, limit, 0, documents) == 0
    decreases |documents|
  {
    if documents != {} {
      var d :| d in documents;
      CapacitySplits(s, threshold, limit, 0, documents, d);
      NothingYet(s, threshold, limit, documents - {d});
      assert EligibleIn(s, threshold, 0, d) == {};
    }
  }

  function DocumentsOf(s: seq<Candidate>): set<string> {
    set i | 0 <= i < |s| :: s[i].documentId
  }

  ghost function WithinDocuments(s: seq<Candidate>, selection: set<nat>, documents: set<string>): set<nat> {
    set i | i in selection && i < |s| && s[i].documentId in documents
  }

  lemma {:induction false} SelectionFits(s: seq<Candidate>, threshold: real, limit: nat, topK: nat, selection: set<nat>,
                                         documents: set<string>)
    requires Feasible(s, threshold, limit, topK, selection)
    ensures |WithinDocuments(s, selection, documents)| <= Capacity(s, threshold, limit, |s|, documents)
    decreases |documents|
  {
    if documents == {} {
      assert WithinDocuments(s, selection, documents) == {};
    } else {
      var d :| d in documents;
      CapacitySplits(s, threshold, limit, |s|, documents, d);
      SelectionFits(s, threshold, limit, topK, selection, documents - {d});
      var here, rest := InDocument(s, selection, d), WithinDocuments(s, selection, documents - {d});
      assert WithinDocuments(s, selection, documents) == here + rest;
      assert here <= EligibleIn(s, threshold, |s|, d);
      SubsetCount(here, EligibleIn(s, threshold, |s|, d));
    }
  }

  /** No feasible selection has more members than `min(topK, capacity)`. */
  lemma NoFeasibleSelectionIsLarger(s: seq<Candidate>, threshold: real, limit: nat, topK: nat, selection: set<nat>)
    requires Feasible(s, threshold, limit, topK, selection)
    ensures |selection| <= MinNat(topK, Capacity(s, threshold, limit, |s|, DocumentsOf(s)))
  {
    SelectionFits(s, threshold, limit, topK, selection, DocumentsOf(s));
    assert WithinDocuments(s, selection, DocumentsOf(s)) == selection;
  }

  /** A selection of different chunks at any of their positions, within every limit. */
  ghost predicate DistinctSelection(s: seq<Candidate>, threshold: real, limit: nat, topK: nat, selection: set<nat>) {
    && (forall i :: i in selection ==> i < |s| && s[i].score.finalScore >= threshold)
    && (forall i, j :: i in selection && j in selection && i != j ==> s[i].chunkId != s[j].chunkId)
    && (forall d {:trigger InDocument(s, selection, d)} :: |InDocument(s, selection, d)| <= limit)
    && |selection| <= topK
  }

  /** A repeated chunk is of the same document, and relevant enough where it first occurs if it is so later. */
  predicate FirstDecides(s: seq<Candidate>, threshold: real) {
    forall i, j :: 0 <= i < j < |s| && s[i].chunkId == s[j].chunkId ==>
      && s[i].documentId == s[j].documentId
      && (s[j].score.finalScore >= threshold ==> s[i].score.finalScore >= threshold)
  }

  /** Where the chunk at position `i` first occurs, which is not before `from`. */
  function FirstOf(s: seq<Candidate>, i: nat, from: nat): (first: nat)
    requires from <= i < |s| && forall j :: 0 <= j < from ==> s[j].chunkId != s[i].chunkId
    ensures first <= i && s[first].chunkId == s[i].chunkId && FirstOccurrence(s, first)
    decreases i - from
  {
    if s[from].chunkId == s[i].chunkId then from else FirstOf(s, i, from + 1)
  }

  ghost function Firsts(s: seq<Candidate>, selection: set<nat>): set<nat>
    requires forall i :: i in selection ==> i < |s|
  {
    set i | i in selection :: FirstOf(s, i, 0)
  }

  lemma {:induction false} FirstsAreAsMany(s: seq<Candidate>, selection: set<nat>)
    requires forall i :: i in selection ==> i < |s|
    requires forall i, j :: i in selection && j in selection && i != j ==> s[i].chunkId != s[j].chunkId
    ensures |Firsts(s, selection)| == |selection|
    decreases |selection|
  {
    if selection == {} {
      assert Firsts(s, selection) == {};
    } else {
      var i :| i in selection;
      FirstsAreAsMany(s, selection - {i});
      assert Firsts(s, selection) == Firsts(s, selection - {i}) + {FirstOf(s, i, 0)};
    }
  }

  /** So no selection of different chunks is larger either. */
  lemma NoDistinctSelectionIsLarger(s: seq<Candidate>, threshold: real, limit: nat, topK: nat, selection: set<nat>)
    requires DistinctSelection(s, threshold, limit, topK, selection) && FirstDecides(s, threshold)
    ensures |selection| <= MinNat(topK, Capacity(s, threshold, limit, |s|, DocumentsOf(s)))
  {
    var firsts := Firsts(s, selection);
    FirstsAreAsMany(s, selection);
    forall d ensures |InDocument(s, firsts, d)| <= limit {
      FirstsAreAsMany(s, InDocument(s, selection, d));
      assert InDocument(s, firsts, d) == Firsts(s, InDocument(s, selection, d));
    }
    assert Feasible(s, threshold, limit, topK, firsts);
    NoFeasibleSelectionIsLarger(s, threshold, limit, topK, firsts);
  }

  // ---------------------------------------------------------------------------
  // The greedy loop
  // ---------------------------------------------------------------------------

  function TakenPositions(s: seq<Candidate>, threshold: real, limit: nat, n: nat): seq<nat>
    requires n <= |s|
  {
    if n == 0 then []
    else TakenPositions(s, threshold, limit, n - 1) + (if Taken(s, threshold, limit, n - 1) then [n - 1] else [])
  }

  function PassedPositions(s: seq<Candidate>, threshold: real, limit: nat, n: nat): seq<nat>
    requires n <= |s|
  {
    if n == 0 then []
    else PassedPositions(s, threshold, limit, n - 1) + (if Taken(s, threshold, limit, n - 1) then [] else [n - 1])
  }

  predicate Increasing(r: seq<nat>) {
    forall j, k :: 0 <= j < k < |r| ==> r[j] < r[k]
  }

  function Elements(r: seq<nat>): set<nat> {
    set i | i in r
  }

  lemma {:induction false} IncreasingCount(r: seq<nat>)
    requires Increasing(r)
    ensures |Elements(r)| == |r|
  {
    if r != [] {
      var front, last := r[..|r| - 1], r[|r| - 1];
      IncreasingCount(front);
      assert r == front + [last];
      assert Elements(r) == Elements(front) + {last};
    }
  }

  lemma IncreasingAppends(r: seq<nat>, x: nat)
    requires Increasing(r) && forall i :: i in r ==> i < x
    ensures Increasing(r + [x]) && Increasing(r + [])
  {
    assert forall k :: 0 <= k < |r| ==> r[k] in r;
  }

  lemma {:induction false} TakenAre(s: seq<Candidate>, threshold: real, limit: nat, n: nat)
    requires n <= |s|
    ensures Increasing(TakenPositions(s, threshold, limit, n))
    ensures forall i :: i in TakenPositions(s, threshold, limit, n) <==> 0 <= i < n && Taken(s, threshold, limit, i)
  {
    if n > 0 {
      TakenAre(s, threshold, limit, n - 1);
      IncreasingAppends(TakenPositions(s, threshold, limit, n - 1), n - 1);
    }
  }

  lemma {:induction false} PassedAre(s: seq<Candidate>, threshold: real, limit: nat, n: nat)
    requires n <= |s|
    ensures Increasing(PassedPositions(s, threshold, limit, n))
    ensures forall i :: i in PassedPositions(s, threshold, limit, n) <==> 0 <= i < n && !Taken(s, threshold, limit, i)
    ensures |PassedPositions(s, threshold, limit, n)| + |TakenPositions(s, threshold, limit, n)| == n
  {
    if n > 0 {
      var before := PassedPositions(s, threshold, limit, n - 1);
      PassedAre(s, threshold, limit, n - 1);
      IncreasingAppends(before, n - 1);
      assert PassedPositions(s, threshold, limit, n) == before
          + (if Taken(s, threshold, limit, n - 1) then [] else [n - 1]);
    }
  }

  function ReasonFor(s: seq<Candidate>, threshold: real, i: nat): Reason
    requires i < |s|
  {
    if !FirstOccurrence(s, i) then DuplicateChunk
    else if s[i].score.finalScore < threshold then BelowThreshold
    else PerDocumentLimit
  }

  function Placed(c: Candidate, rank: nat): Candidate {
    c.(score := c.score.(finalRank := Some(rank)))
  }

  /** Kept: the taken positions of the scanned prefix with ranks 1, 2, ...; excluded: the others, with the reason. */
  ghost predicate CleanedFrom(s: seq<Candidate>, threshold: real, limit: nat, scanned: nat, r: CleanResult)
    requires scanned <= |s|
  {
    && KeptFrom(s, TakenPositions(s, threshold, limit, scanned), r.candidates)
    && ExcludedFrom(s, threshold, PassedPositions(s, threshold, limit, scanned), r.excluded)
  }

  predicate KeptFrom(s: seq<Candidate>, taken: seq<nat>, kept: seq<Candidate>) {
    |kept| == |taken| && forall k :: 0 <= k < |taken| ==> taken[k] < |s| && kept[k] == Placed(s[taken[k]], k + 1)
  }

  predicate ExcludedFrom(s: seq<Candidate>, threshold: real, passed: seq<nat>, excluded: seq<(Candidate, Reason)>) {
    |excluded| == |passed|
    && forall k :: 0 <= k < |passed| ==>
         passed[k] < |s| && excluded[k] == (s[passed[k]], ReasonFor(s, threshold, passed[k]))
  }

  lemma {:induction false} TakenCount(s: seq<Candidate>, threshold: real, limit: nat, n: nat, documents: set<string>)
    requires n <= |s| && DocumentsOf(s) <= documents
    ensures |TakenPositions(s, threshold, limit, n)| == Capacity(s, threshold, limit, n, documents)
  {
    if n == 0 {
      NothingYet(s, threshold, limit, documents);
    } else {
      TakenCount(s, threshold, limit, n - 1, documents);
      assert s[n - 1].documentId in DocumentsOf(s);
      CapacityGrows(s, threshold, limit, n - 1, documents);
    }
  }

  /** Later positions only add selections. */
  lemma {:induction false} TakenPrefix(s: seq<Candidate>, threshold: real, limit: nat, m: nat, n: nat)
    requires m <= n <= |s|
    ensures TakenPositions(s, threshold, limit, m) <= TakenPositions(s, threshold, limit, n)
  {
    if m < n { TakenPrefix(s, threshold, limit, m, n - 1); }
  }

  function CountOf(counts: map<string, nat>, d: string): nat {
    if d in counts then counts[d] else 0
  }

  ghost predicate KnowsCounts(s: seq<Candidate>, threshold: real, limit: nat, n: nat, counts: map<string, nat>)
    requires n <= |s|
  {
    forall d {:trigger CountOf(counts, d)} :: CountOf(counts, d) == MinNat(limit, |EligibleIn(s, threshold, n, d)|)
  }

  lemma CountsStep(s: seq<Candidate>, threshold: real, limit: nat, n: nat, counts: map<string, nat>)
    requires n < |s| && KnowsCounts(s, threshold, limit, n, counts)
    ensures Eligible(s, threshold, n) ==> (Taken(s, threshold, limit, n) <==> CountOf(counts, s[n].documentId) < limit)
    ensures KnowsCounts(s, threshold, limit, n + 1,
                        if Taken(s, threshold, limit, n)
                        then counts[s[n].documentId := CountOf(counts, s[n].documentId) + 1] else counts)
  {
    var d := s[n].documentId;
    var counts' := if Taken(s, threshold, limit, n) then counts[d := CountOf(counts, d) + 1] else counts;
    assert CountOf(counts, d) == MinNat(limit, |EligibleIn(s, threshold, n, d)|);
    forall e ensures CountOf(counts', e) == MinNat(limit, |EligibleIn(s, threshold, n + 1, e)|) {
      EligibleNext(s, threshold, n, e);
      assert CountOf(counts, e) == MinNat(limit, |EligibleIn(s, threshold, n, e)|);
    }
  }

  ghost predicate Seen(s: seq<Candidate>, n: nat, seen: set<string>)
    requires n <= |s|
  {
    && (forall i :: 0 <= i < n ==> s[i].chunkId in seen)
    && (forall id :: id in seen ==> exists i :: 0 <= i < n && s[i].chunkId == id)
  }

  lemma SeenStep(s: seq<Candidate>, n: nat, seen: set<string>)
    requires n < |s| && Seen(s, n, seen)
    ensures FirstOccurrence(s, n) <==> s[n].chunkId !in seen
    ensures Seen(s, n + 1, seen + {s[n].chunkId})
  {
  }

  lemma KeepNext(s: seq<Candidate>, threshold: real, limit: nat, n: nat, r: CleanResult)
    requires n < |s| && CleanedFrom(s, threshold, limit, n, r) && Taken(s, threshold, limit, n)
    ensures CleanedFrom(s, threshold, limit, n + 1, r.(candidates := r.candidates + [Placed(s[n], |r.candidates| + 1)]))
  {
  }

  lemma PassNext(s: seq<Candidate>, threshold: real, limit: nat, n: nat, r: CleanResult)
    requires n < |s| && CleanedFrom(s, threshold, limit, n, r) && !Taken(s, threshold, limit, n)
    ensures CleanedFrom(s, threshold, limit, n + 1, r.(excluded := r.excluded + [(s[n], ReasonFor(s, threshold, n))]))
  {
  }

  lemma GreedyIsMaximal(s: seq<Candidate>, threshold: real, limit: nat, topK: nat, n: nat)
    requires n <= |s| && |TakenPositions(s, threshold, limit, n)| <= topK
    requires n == |s| || |TakenPositions(s, threshold, limit, n)| == topK
    ensures |TakenPositions(s, threshold, limit, n)| == MinNat(topK, Capacity(s, threshold, limit, |s|, DocumentsOf(s)))
  {
    TakenPrefix(s, threshold, limit, n, |s|);
    TakenCount(s, threshold, limit, |s|, DocumentsOf(s));
  }

  /**
   * `clean_candidates`. The scan stops when `topK` candidates are kept; `scanned` is how far it got. What it keeps is
   * as much as any selection under the same limits could.
   */
  method CleanCandidates(s: seq<Candidate>, threshold: real, limit: nat, topK: nat)
    returns (r: CleanResult, scanned: nat)
    requires topK >= 1
    ensures scanned <= |s| && CleanedFrom(s, threshold, limit, scanned, r)
    ensures scanned < |s| ==> |r.candidates| == topK
    ensures |r.candidates| == MinNat(topK, Capacity(s, threshold, limit, |s|, DocumentsOf(s)))
  {
    var kept: seq<Candidate>, excluded: seq<(Candidate, Reason)> := [], [];
    var counts: map<string, nat>, seen: set<string> := map[], {};
    assert forall d :: EligibleIn(s, threshold, 0, d) == {};
    scanned := 0;
    while scanned < |s|
      invariant 0 <= scanned <= |s| && Seen(s, scanned, seen)
      invariant KnowsCounts(s, threshold, limit, scanned, counts)
      invariant CleanedFrom(s, threshold, limit, scanned, CleanResult(kept, excluded))
      invariant |kept| < topK
    {
      var i, candidate := scanned, s[scanned];
      CountsStep(s, threshold, limit, i, counts);
      SeenStep(s, i, seen);
      scanned := scanned + 1;
      if candidate.chunkId in seen {
        PassNext(s, threshold, limit, i, CleanResult(kept, excluded));
        excluded := excluded + [(candidate, DuplicateChunk)];
        assert seen + {candidate.chunkId} == seen;
        continue;
      }
      seen := seen + {candidate.chunkId};
      if candidate.score.finalScore < threshold {
        PassNext(s, threshold, limit, i, CleanResult(kept, excluded));
        excluded := excluded + [(candidate, BelowThreshold)];
        continue;
      }
      var count := CountOf(counts, candidate.documentId);
      if count >= limit {
        PassNext(s, threshold, limit, i, CleanResult(kept, excluded));
        excluded := excluded + [(candidate, PerDocumentLimit)];
        continue;
      }
      KeepNext(s, threshold, limit, i, CleanResult(kept, excluded));
      counts := counts[candidate.documentId := count + 1];
      kept := kept + [Placed(candidate, |kept| + 1)];
      if |kept| >= topK { break; }
    }
    r := CleanResult(kept, excluded);
    GreedyIsMaximal(s, threshold, limit, topK, scanned);
  }

  /**
   * What is kept is itself a feasible selection, in input order, and together with what is excluded is the scanned
   * prefix.
   */
  lemma KeptIsFeasible(s: seq<Candidate>, threshold: real, limit: nat, topK: nat, scanned: nat, r: CleanResult)
    requires scanned <= |s| && CleanedFrom(s, threshold, limit, scanned, r) && |r.candidates| <= topK
    ensures var taken, passed := TakenPositions(s, threshold, limit, scanned),
            PassedPositions(s, threshold, limit, scanned);
            && Feasible(s, threshold, limit, topK, Elements(taken)) && |Elements(taken)| == |r.candidates|
            && |r.candidates| + |r.excluded| == scanned && Increasing(taken) && Increasing(passed)
            && forall i :: 0 <= i < scanned ==> (i in taken <==> i !in passed)
  {
    var taken := TakenPositions(s, threshold, limit, scanned);
    TakenAre(s, threshold, limit, scanned);
    PassedAre(s, threshold, limit, scanned);
    IncreasingCount(taken);
    forall d ensures |InDocument(s, Elements(taken), d)| <= limit {
      FewPerDocument(s, threshold, limit, scanned, d);
      assert InDocument(s, Elements(taken), d) == TakenIn(s, threshold, limit, scanned, d);
    }
  }

  function TakenIn(s: seq<Candidate>, threshold: real, limit: nat, n: nat, d: string): set<nat>
    requires n <= |s|
  {
    set i: nat | i < n && Taken(s, threshold, limit, i) && s[i].documentId == d
  }

  lemma TakenNext(s: seq<Candidate>, threshold: real, limit: nat, n: nat, d: string)
    requires n < |s|
    ensures |TakenIn(s, threshold, limit, n + 1, d)|
            == |TakenIn(s, threshold, limit, n, d)|
                + (if Taken(s, threshold, limit, n) && s[n].documentId == d then 1 else 0)
  {
    assert TakenIn(s, threshold, limit, n + 1, d)
           == TakenIn(s, threshold, limit, n, d)
               + (if Taken(s, threshold, limit, n) && s[n].documentId == d then {n} else {});
  }

  lemma {:induction false} FewPerDocument(s: seq<Candidate>, threshold: real, limit: nat, n: nat, d: string)
    requires n <= |s|
    ensures |TakenIn(s, threshold, limit, n, d)| <= limit
  {
    if n > 0 {
      FewPerDocument(s, threshold, limit, n - 1, d);
      TakenNext(s, threshold, limit, n - 1, d);
      assert TakenIn(s, threshold, limit, n - 1, d) <= EligibleIn(s, threshold, n - 1, d);
      SubsetCount(TakenIn(s, threshold, limit, n - 1, d), EligibleIn(s, threshold, n - 1, d));
    }
  }
}
