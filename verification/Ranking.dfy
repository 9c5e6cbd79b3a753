/** Retrieval candidates and the order they are sorted in: descending score, then ascending chunk identifier. */
module Ranking {
  import opened Prelude
  import opened StringOrder

  datatype Score = Score(
    finalScore: real,
    fullTextScore: Option<real>,
    vectorScore: Option<real>,
    fusionScore: Option<real>,
    rerankScore: Option<real>,
    fullTextRank: Option<nat>,
    vectorRank: Option<nat>,
    fusionRank: Option<nat>,
    rerankRank: Option<nat>,
    finalRank: Option<nat>)

  datatype Candidate = Candidate(
    tenantId: string,
    knowledgeBaseId: string,
    documentId: string,
    documentVersionId: string,
    chunkId: string,
    content: string,
    score: Score)

  /** A candidate under consideration, with the score that ranks it. */
  datatype Ranked = Ranked(candidate: Candidate, key: real)

  predicate Before(a: Ranked, b: Ranked) {
    a.key > b.key || (a.key == b.key && Below(a.candidate.chunkId, b.candidate.chunkId))
  }

  predicate InOrder(s: seq<Ranked>) {
    forall i, j :: 0 <= i < j < |s| ==> Before(s[i], s[j])
  }

  predicate DistinctIds(items: set<Ranked>) {
    forall a, b :: a in items && b in items && a.candidate.chunkId == b.candidate.chunkId ==> a == b
  }

  lemma BeforeIsTotal(a: Ranked, b: Ranked)
    ensures Before(a, b) || Before(b, a) || a.candidate.chunkId == b.candidate.chunkId
  {
    Total(a.candidate.chunkId, b.candidate.chunkId);
  }

  lemma BeforeIsTransitive(a: Ranked, b: Ranked, c: Ranked)
    requires Before(a, b) && Before(b, c)
    ensures Before(a, c)
  {
    if a.key == b.key == c.key { Transitive(a.candidate.chunkId, b.candidate.chunkId, c.candidate.chunkId); }
  }

  lemma BeforeIsAsymmetric(a: Ranked, b: Ranked)
    requires Before(a, b)
    ensures !Before(b, a) && a != b
  {
    if a.key == b.key { Asymmetric(a.candidate.chunkId, b.candidate.chunkId); }
  }

  method Best(items: set<Ranked>) returns (best: Ranked)
    requires items != {} && DistinctIds(items)
    ensures best in items && forall x :: x in items && x != best ==> Before(best, x)
  {
    best :| best in items;
    var todo := items - {best};
    while todo != {}
      invariant todo <= items && best in items
      invariant forall x :: x in items - todo && x != best ==> Before(best, x)
    {
      var next :| next in todo;
      todo := todo - {next};
      BeforeIsTotal(next, best);
      if Before(next, best) {
        forall x | x in items - todo && x != next ensures Before(next, x) {
          if x != best { BeforeIsTransitive(next, best, x); }
        }
        best := next;
      }
    }
  }

  /** `sorted` by descending score, then identifier. */
  method SortRanked(items: set<Ranked>) returns (r: seq<Ranked>)
    requires DistinctIds(items)
    ensures InOrder(r) && (forall x :: x in r <==> x in items)
  {
    r := [];
    var todo := items;
    while todo != {}
      invariant todo <= items && InOrder(r)
      invariant forall x :: x in r <==> x in items - todo
      invariant forall i, x :: 0 <= i < |r| && x in todo ==> Before(r[i], x)
    {
      var best := Best(todo);
      todo := todo - {best};
      r := r + [best];
    }
  }

  /** There is only one such order, so the sort has only one possible answer. */
  lemma {:induction false} OrderIsUnique(a: seq<Ranked>, b: seq<Ranked>)
    requires InOrder(a) && InOrder(b) && forall x :: x in a <==> x in b
    ensures a == b
    decreases |a|
  {
    assert b != [] ==> b[0] in b;
    if a != [] {
      assert a[0] in a && a[0] in b && b[0] in a;
      FirstIsSame(a, b);
      forall x ensures x in a[1..] <==> x in b[1..] {
        if x in a[1..] { RestIsLater(a, x); RestHolds(b, x); }
        if x in b[1..] { RestIsLater(b, x); RestHolds(a, x); }
      }
      OrderIsUnique(a[1..], b[1..]);
      assert a == [a[0]] + a[1..] && b == [b[0]] + b[1..];
    }
  }

  lemma FirstIsSame(a: seq<Ranked>, b: seq<Ranked>)
    requires InOrder(a) && InOrder(b) && a != [] && b != [] && a[0] in b && b[0] in a
    ensures a[0] == b[0]
  {
    if a[0] != b[0] {
      var i :| 0 <= i < |b| && b[i] == a[0];
      var j :| 0 <= j < |a| && a[j] == b[0];
      BeforeIsAsymmetric(a[0], b[0]);
      assert false;
    }
  }

  lemma RestIsLater(a: seq<Ranked>, x: Ranked)
    requires InOrder(a) && a != [] && x in a[1..]
    ensures x in a && x != a[0]
  {
    var i :| 0 <= i < |a[1..]| && a[1..][i] == x;
    assert a[i + 1] == x;
    BeforeIsAsymmetric(a[0], x);
  }

  lemma RestHolds(b: seq<Ranked>, x: Ranked)
    requires b != [] && x != b[0]
    ensures x in b ==> x in b[1..]
  {
    if x in b {
      var i :| 0 <= i < |b| && b[i] == x;
      assert b[1..][i - 1] == x;
    }
  }

  predicate UniqueIds(s: seq<Candidate>) {
    forall i, j :: 0 <= i < j < |s| ==> s[i].chunkId != s[j].chunkId
  }

  function IdsOf(s: seq<Candidate>): (ids: set<string>)
    ensures forall id :: id in ids <==> exists i :: 0 <= i < |s| && s[i].chunkId == id
  {
    set i | 0 <= i < |s| :: s[i].chunkId
  }

  /** Elements in order have different identifiers when the set they come from does. */
  lemma OrderedIdsDiffer(s: seq<Ranked>, items: set<Ranked>)
    requires InOrder(s) && DistinctIds(items) && forall x :: x in s ==> x in items
    ensures forall i, j :: 0 <= i < j < |s| ==> s[i].candidate.chunkId != s[j].candidate.chunkId
  {
    forall i, j | 0 <= i < j < |s| ensures s[i].candidate.chunkId != s[j].candidate.chunkId {
      BeforeIsAsymmetric(s[i], s[j]);
      assert s[i] in items && s[j] in items;
    }
  }
}
