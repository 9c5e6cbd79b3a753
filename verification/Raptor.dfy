/** The RAPTOR tree: pairs of neighbours are summarised level by level. */
module Raptor {
  import opened Prelude
  import opened Texts

  /** A chunk; building the record found its content not blank. */
  datatype Chunk = Chunk(id: string, tenantId: string, knowledgeBaseId: string, documentVersionId: string,
                         content: string)

  datatype Node = Node(id: string, level: nat, text: string, sources: seq<string>, children: seq<string>)

  predicate NotBlank(chunks: seq<Chunk>) {
    forall i :: 0 <= i < |chunks| ==> Split(chunks[i].content) != []
  }

  function Scope(c: Chunk): (string, string, string) {
    (c.tenantId, c.knowledgeBaseId, c.documentVersionId)
  }

  predicate SameScope(chunks: seq<Chunk>) {
    forall i :: 0 <= i < |chunks| ==> Scope(chunks[i]) == Scope(chunks[0])
  }

  // ---------------------------------------------------------------------------
  // Which chunks a node covers
  // ---------------------------------------------------------------------------

  function Pow2(level: nat): (p: nat)
    ensures p >= 1
  {
    if level == 0 then 1 else 2 * Pow2(level - 1)
  }

  /** Nodes of a level over `n` chunks: `n / 2^level`, rounded up. */
  function Width(n: nat, level: nat): nat {
    if level == 0 then n else (Width(n, level - 1) + 1) / 2
  }

  function First(i: nat, level: nat): nat { i * Pow2(level) }

  function Last(n: nat, i: nat, level: nat): nat {
    if (i + 1) * Pow2(level) < n then (i + 1) * Pow2(level) else n
  }

  /** The halving recursion computes the ceiling of n / 2^level. */
  lemma {:induction false} WidthIsCeiling(n: nat, level: nat)
    ensures Width(n, level) * Pow2(level) >= n
    ensures n > 0 ==> Width(n, level) >= 1 && (Width(n, level) - 1) * Pow2(level) < n
  {
    if level > 0 {
      WidthIsCeiling(n, level - 1);
      HalvedCeiling(n, Width(n, level - 1), Pow2(level - 1));
    }
  }

  lemma HalvedCeiling(n: nat, w: nat, p: nat)
    requires w * p >= n && (n > 0 ==> w >= 1 && (w - 1) * p < n)
    ensures (w + 1) / 2 * (2 * p) >= n
    ensures n > 0 ==> (w + 1) / 2 >= 1 && ((w + 1) / 2 - 1) * (2 * p) < n
  {
    var h := (w + 1) / 2;
    assert 2 * h >= w && 2 * h <= w + 1;
    assert h * (2 * p) == (2 * h) * p;
    assert (2 * h) * p >= w * p by { Scale(w, 2 * h, p); }
    if n > 0 {
      assert (h - 1) * (2 * p) == (2 * h - 2) * p;
      Scale(2 * h - 2, w - 1, p);
    }
  }

  lemma Scale(a: int, b: int, p: nat)
    requires a <= b
    ensures a * p <= b * p
  {
  }

  /** A node of a level covers at least one chunk. */
  lemma CoversSome(n: nat, i: nat, level: nat)
    requires i < Width(n, level)
    ensures First(i, level) < Last(n, i, level) <= n
  {
    if n == 0 {
      NoWidth(level);
    } else {
      WidthIsCeiling(n, level);
      Scale(i, Width(n, level) - 1, Pow2(level));
      assert (i + 1) * Pow2(level) == i * Pow2(level) + Pow2(level);
    }
  }

  lemma {:induction false} NoWidth(level: nat)
    ensures Width(0, level) == 0
  {
    if level > 0 { NoWidth(level - 1); }
  }

  /** A parent covers what its one or two children cover. */
  lemma ParentCovers(n: nat, i: nat, level: nat)
    requires i < Width(n, level + 1)
    ensures 2 * i < Width(n, level)
    ensures First(i, level + 1) == First(2 * i, level)
    ensures 2 * i + 1 < Width(n, level) ==>
              Last(n, 2 * i, level) == First(2 * i + 1, level) && Last(n, i, level + 1) == Last(n, 2 * i + 1, level)
    ensures 2 * i + 1 >= Width(n, level) ==> Last(n, i, level + 1) == Last(n, 2 * i, level)
  {
    DoubleStep(i, Pow2(level));
    WidthIsCeiling(n, level);
    if 2 * i + 1 < Width(n, level) { CoversSome(n, 2 * i + 1, level); }
  }

  lemma DoubleStep(i: nat, p: nat)
    ensures i * (2 * p) == (2 * i) * p && (i + 1) * (2 * p) == (2 * i + 1 + 1) * p
    ensures (2 * i + 1) * p == (2 * i) * p + p && (2 * i + 1 + 1) * p == (2 * i + 1) * p + p
  {
  }

  // ---------------------------------------------------------------------------
  // The tree
  // ---------------------------------------------------------------------------

  function Ids(chunks: seq<Chunk>): seq<string> {
    seq(|chunks|, i requires 0 <= i < |chunks| => chunks[i].id)
  }

  function Contents(chunks: seq<Chunk>): seq<string> {
    seq(|chunks|, i requires 0 <= i < |chunks| => chunks[i].content)
  }

  predicate DistinctIds(chunks: seq<Chunk>) {
    forall i, j :: 0 <= i < j < |chunks| ==> chunks[i].id != chunks[j].id
  }

  /** The elements from `lo` up to `hi`. */
  function Range(s: seq<string>, lo: nat, hi: nat): seq<string> {
    if lo <= hi <= |s| then s[lo..hi] else []
  }

  /** The texts a node summarises. */
  function Covered(chunks: seq<Chunk>, i: nat, level: nat): seq<string> {
    Range(Contents(chunks), First(i, level), Last(|chunks|, i, level))
  }

  /** The identifiers of the chunks a node stems from. */
  function Origins(chunks: seq<Chunk>, i: nat, level: nat): seq<string> {
    Range(Ids(chunks), First(i, level), Last(|chunks|, i, level))
  }

  /** The first `limit` words of the joined texts. */
  function Summary(texts: seq<string>, limit: nat): string {
    Join(Take(Split(Join(texts)), limit))
  }

  ghost predicate NodeOk(chunks: seq<Chunk>, limit: nat, level: nat, i: nat, node: Node)
    requires i < Width(|chunks|, level)
  {
    && node.level == level && node.sources == Unique(Origins(chunks, i, level))
    && node.text == (if level == 0 then chunks[i].content else Summary(Covered(chunks, i, level), limit))
  }

  ghost predicate LevelOk(chunks: seq<Chunk>, limit: nat, level: nat, nodes: seq<Node>) {
    && |nodes| == Width(|chunks|, level)
    && forall i {:trigger NodeOk(chunks, limit, level, i, nodes[i])} :: 0 <= i < |nodes| ==>
         NodeOk(chunks, limit, level, i, nodes[i])
  }

  /** Node `i` lists the nodes `2 * i` and, if there is one, `2 * i + 1` of the level below. */
  predicate ChildrenAt(below: seq<Node>, i: nat, node: Node) {
    && 2 * i < |below|
    && node.children == if 2 * i + 1 < |below| then [below[2 * i].id, below[2 * i + 1].id] else [below[2 * i].id]
  }

  predicate ChildrenOk(below: seq<Node>, nodes: seq<Node>) {
    && |nodes| == (|below| + 1) / 2
    && forall i {:trigger ChildrenAt(below, i, nodes[i])} :: 0 <= i < |nodes| ==> ChildrenAt(below, i, nodes[i])
  }

  ghost predicate TreeOk(chunks: seq<Chunk>, limit: nat, maxLevels: nat, levels: seq<seq<Node>>) {
    && 1 <= |levels| <= maxLevels
    && (forall l :: 0 <= l < |levels| ==> LevelOk(chunks, limit, l, levels[l]))
    && (forall l :: 0 < l < |levels| ==> ChildrenOk(levels[l - 1], levels[l]) && |levels[l]| < |levels[l - 1]|)
    && (forall l :: 0 <= l < |levels| - 1 ==> |levels[l]| > 1)
    && (|levels[|levels| - 1]| == 1 || |levels| == maxLevels)
  }

  function Flatten(lists: seq<seq<string>>): seq<string> {
    if lists == [] then [] else lists[0] + Flatten(lists[1..])
  }

  function ChildLists(nodes: seq<Node>): seq<seq<string>> {
    seq(|nodes|, i requires 0 <= i < |nodes| => nodes[i].children)
  }

  function NodeIds(nodes: seq<Node>): seq<string> {
    seq(|nodes|, i requires 0 <= i < |nodes| => nodes[i].id)
  }

  lemma {:induction false} FlattenAppends(lists: seq<seq<string>>, last: seq<string>)
    ensures Flatten(lists + [last]) == Flatten(lists) + last
  {
    if lists == [] {
      assert lists + [last] == [last] && Flatten([last]) == last + Flatten([]);
    } else {
      assert (lists + [last])[1..] == lists[1..] + [last];
      FlattenAppends(lists[1..], last);
    }
  }

  /** The first `n` child lists, one after the other, are the first `2 * n` nodes below. */
  lemma {:induction false} FirstChildren(below: seq<Node>, nodes: seq<Node>, n: nat)
    requires ChildrenOk(below, nodes) && n <= |nodes|
    ensures Flatten(ChildLists(nodes)[..n]) == NodeIds(below)[..if 2 * n < |below| then 2 * n else |below|]
  {
    if n > 0 {
      FirstChildren(below, nodes, n - 1);
      assert ChildrenAt(below, n - 1, nodes[n - 1]);
      assert ChildLists(nodes)[..n] == ChildLists(nodes)[..n - 1] + [nodes[n - 1].children];
      FlattenAppends(ChildLists(nodes)[..n - 1], nodes[n - 1].children);
    }
  }

  /** The child lists of a level, one after the other, are exactly the level below. */
  lemma ChildrenPartition(below: seq<Node>, nodes: seq<Node>)
    requires ChildrenOk(below, nodes)
    ensures Flatten(ChildLists(nodes)) == NodeIds(below)
  {
    FirstChildren(below, nodes, |nodes|);
    assert ChildLists(nodes)[..|nodes|] == ChildLists(nodes);
  }

  // ---------------------------------------------------------------------------
  // Building
  // ---------------------------------------------------------------------------

  /** `tuple(dict.fromkeys(...))`: the first occurrence of each, in order. */
  function Unique(s: seq<string>): seq<string> {
    if s == [] then []
    else
      var front := Unique(s[..|s| - 1]);
      if s[|s| - 1] in front then front else front + [s[|s| - 1]]
  }

  lemma {:induction false} UniqueHolds(s: seq<string>, x: string)
    ensures x in Unique(s) <==> x in s
  {
    if s != [] {
      UniqueHolds(s[..|s| - 1], x);
      assert s == s[..|s| - 1] + [s[|s| - 1]];
    }
  }

  lemma UniqueAppends(s: seq<string>, x: string)
    ensures Unique(s + [x]) == if x in s then Unique(s) else Unique(s) + [x]
  {
    assert (s + [x])[..|s|] == s;
    UniqueHolds(s, x);
  }

  lemma {:induction false} UniqueIsDistinct(s: seq<string>)
    ensures forall i, j :: 0 <= i < j < |Unique(s)| ==> Unique(s)[i] != Unique(s)[j]
  {
    if s != [] { UniqueIsDistinct(s[..|s| - 1]); }
  }

  /** Removing repetitions in the parts first changes nothing. */
  lemma {:induction false} UniqueOfParts(a: seq<string>, b: seq<string>)
    ensures Unique(Unique(a) + Unique(b)) == Unique(a + b)
    decreases |b|
  {
    if b == [] {
      UniqueIsDistinct(a);
      DistinctIsUnique(Unique(a));
      assert Unique(a) + Unique(b) == Unique(a) && a + b == a;
    } else {
      var front, x := b[..|b| - 1], b[|b| - 1];
      assert b == front + [x] && a + b == (a + front) + [x];
      UniqueOfParts(a, front);
      UniqueHolds(a, x);
      UniqueHolds(front, x);
      UniqueAppends(front, x);
      UniqueAppends(a + front, x);
      if x !in front {
        assert Unique(a) + (Unique(front) + [x]) == (Unique(a) + Unique(front)) + [x];
        UniqueAppends(Unique(a) + Unique(front), x);
      }
    }
  }

  lemma {:induction false} DistinctIsUnique(s: seq<string>)
    requires forall i, j :: 0 <= i < j < |s| ==> s[i] != s[j]
    ensures Unique(s) == s
  {
    if s != [] {
      DistinctIsUnique(s[..|s| - 1]);
      assert s == s[..|s| - 1] + [s[|s| - 1]];
    }
  }

  function NodeId(version: string, level: nat, index: nat): string {
    "raptor_" + version + "_" + Decimal(level) + "_" + Decimal(index)
  }

  function Parent(id: string, level: nat, children: seq<Node>, limit: nat): Node
    requires 1 <= |children| <= 2
  {
    var sources := if |children| == 1 then children[0].sources else children[0].sources + children[1].sources;
    var text := if |children| == 1 then children[0].text else children[0].text + " " + children[1].text;
    Node(id, level, Join(Take(Split(text), limit)), Unique(sources),
         if |children| == 1 then [children[0].id] else [children[0].id, children[1].id])
  }

  /** Up to the limit, the words of a node are the words it covers, however often they were truncated below. */
  lemma NodeWords(chunks: seq<Chunk>, limit: nat, level: nat, i: nat, node: Node)
    requires i < Width(|chunks|, level) && NodeOk(chunks, limit, level, i, node)
    ensures Take(Split(node.text), limit) == Take(WordsOf(Covered(chunks, i, level)), limit)
  {
    CoversSome(|chunks|, i, level);
    var texts := Covered(chunks, i, level);
    SplitJoinedTexts(texts);
    if level == 0 {
      assert texts == [chunks[i].content];
      assert WordsOf(texts) == Split(chunks[i].content) + WordsOf([]);
    } else {
      SplitIsWords([], Join(texts));
      var words := Take(Split(Join(texts)), limit);
      SplitJoin(words);
    }
  }

  /** A last node without a neighbour is summarised alone. */
  lemma LoneCovers(chunks: seq<Chunk>, level: nat, i: nat)
    requires i < Width(|chunks|, level + 1) && 2 * i + 1 == Width(|chunks|, level)
    ensures Covered(chunks, i, level + 1) == Covered(chunks, 2 * i, level)
    ensures Origins(chunks, i, level + 1) == Origins(chunks, 2 * i, level)
  {
    ParentCovers(|chunks|, i, level);
  }

  lemma ParentOfOne(chunks: seq<Chunk>, id: string, limit: nat, level: nat, i: nat, child: Node)
    requires i < Width(|chunks|, level + 1) && 2 * i + 1 == Width(|chunks|, level)
    requires NodeOk(chunks, limit, level, 2 * i, child)
    ensures NodeOk(chunks, limit, level + 1, i, Parent(id, level + 1, [child], limit))
  {
    LoneCovers(chunks, level, i);
    NodeWords(chunks, limit, level, 2 * i, child);
    SplitJoinedTexts(Covered(chunks, i, level + 1));
    UniqueIsDistinct(Origins(chunks, 2 * i, level));
    DistinctIsUnique(child.sources);
  }

  lemma PairWords(a: string, b: string, left: seq<string>, right: seq<string>, limit: nat)
    requires Take(Split(a), limit) == Take(WordsOf(left), limit) && Take(Split(b), limit) == Take(WordsOf(right), limit)
    ensures Join(Take(Split(a + " " + b), limit)) == Summary(left + right, limit)
  {
    SplitAtSpace([], a, b);
    TakeTwice(Split(a), Split(b), limit);
    TakeTwice(WordsOf(left), WordsOf(right), limit);
    WordsAppend(left, right);
    SplitJoinedTexts(left + right);
  }

  /** Two neighbours cover adjoining ranges. */
  lemma PairCovers(chunks: seq<Chunk>, level: nat, i: nat)
    requires i < Width(|chunks|, level + 1) && 2 * i + 1 < Width(|chunks|, level)
    ensures Covered(chunks, i, level + 1) == Covered(chunks, 2 * i, level) + Covered(chunks, 2 * i + 1, level)
    ensures Origins(chunks, i, level + 1) == Origins(chunks, 2 * i, level) + Origins(chunks, 2 * i + 1, level)
  {
    ParentCovers(|chunks|, i, level);
    CoversSome(|chunks|, i, level + 1);
    CoversSome(|chunks|, 2 * i, level);
    CoversSome(|chunks|, 2 * i + 1, level);
  }

  lemma PairSources(chunks: seq<Chunk>, level: nat, i: nat)
    requires i < Width(|chunks|, level + 1) && 2 * i + 1 < Width(|chunks|, level)
    ensures Unique(Unique(Origins(chunks, 2 * i, level)) + Unique(Origins(chunks, 2 * i + 1, level)))
            == Unique(Origins(chunks, i, level + 1))
  {
    PairCovers(chunks, level, i);
    UniqueOfParts(Origins(chunks, 2 * i, level), Origins(chunks, 2 * i + 1, level));
  }

  /** A parent of two nodes, each known only by its first words. */
  lemma PairParent(id: string, level: nat, a: Node, b: Node, left: seq<string>, right: seq<string>, limit: nat)
    requires Take(Split(a.text), limit) == Take(WordsOf(left), limit)
    requires Take(Split(b.text), limit) == Take(WordsOf(right), limit)
    ensures var parent := Parent(id, level, [a, b], limit);
            && parent.level == level && parent.sources == Unique(a.sources + b.sources)
            && parent.text == Summary(left + right, limit)
  {
    PairWords(a.text, b.text, left, right, limit);
  }

  lemma ParentOfTwo(chunks: seq<Chunk>, id: string, limit: nat, level: nat, i: nat, a: Node, b: Node)
    requires i < Width(|chunks|, level + 1) && 2 * i + 1 < Width(|chunks|, level)
    requires NodeOk(chunks, limit, level, 2 * i, a) && NodeOk(chunks, limit, level, 2 * i + 1, b)
    ensures NodeOk(chunks, limit, level + 1, i, Parent(id, level + 1, [a, b], limit))
  {
    var left, right := Covered(chunks, 2 * i, level), Covered(chunks, 2 * i + 1, level);
    assert Take(Split(a.text), limit) == Take(WordsOf(left), limit) by { NodeWords(chunks, limit, level, 2 * i, a); }
    assert Take(Split(b.text), limit) == Take(WordsOf(right), limit) by {
      NodeWords(chunks, limit, level, 2 * i + 1, b);
    }
    PairParent(id, level + 1, a, b, left, right, limit);
    assert Covered(chunks, i, level + 1) == left + right by { PairCovers(chunks, level, i); }
    assert Unique(a.sources + b.sources) == Unique(Origins(chunks, i, level + 1)) by { PairSources(chunks, level, i); }
  }

  /** A summary is empty only when no word may be kept. */
  lemma SummaryIsText(chunks: seq<Chunk>, limit: nat, level: nat, i: nat)
    requires NotBlank(chunks) && i < Width(|chunks|, level)
    ensures Summary(Covered(chunks, i, level), limit) == [] <==> limit == 0
  {
    CoversSome(|chunks|, i, level);
    var texts := Covered(chunks, i, level);
    assert texts[0] == chunks[First(i, level)].content;
    SplitJoinedTexts(texts);
    SplitIsWords([], Join(texts));
    var words := Split(Join(texts));
    assert words != [] && IsWord(words[0]);
  }

  /** The first `count` parents of `current`. */
  ghost predicate ParentsOk(chunks: seq<Chunk>, limit: nat, level: nat, current: seq<Node>, parents: seq<Node>) {
    && |parents| <= Width(|chunks|, level + 1) && 2 * |parents| <= |current| + 1
    && (forall i {:trigger NodeOk(chunks, limit, level + 1, i, parents[i])} :: 0 <= i < |parents| ==>
          NodeOk(chunks, limit, level + 1, i, parents[i]))
    && (forall i {:trigger ChildrenAt(current, i, parents[i])} :: 0 <= i < |parents| ==>
        ChildrenAt(current, i, parents[i]))
  }

  function Children(current: seq<Node>, i: nat): (children: seq<Node>)
    requires 2 * i < |current|
    ensures 1 <= |children| <= 2
  {
    if 2 * i + 1 < |current| then [current[2 * i], current[2 * i + 1]] else [current[2 * i]]
  }

  lemma ParentIsOk(chunks: seq<Chunk>, id: string, limit: nat, level: nat, current: seq<Node>, i: nat)
    requires LevelOk(chunks, limit, level, current) && 2 * i < |current|
    ensures i < Width(|chunks|, level + 1)
    ensures NodeOk(chunks, limit, level + 1, i, Parent(id, level + 1, Children(current, i), limit))
  {
    var a := current[2 * i];
    assert NodeOk(chunks, limit, level, 2 * i, a);
    if 2 * i + 1 < |current| {
      var b := current[2 * i + 1];
      assert NodeOk(chunks, limit, level, 2 * i + 1, b);
      ParentOfTwo(chunks, id, limit, level, i, a, b);
      assert Children(current, i) == [a, b];
    } else {
      ParentOfOne(chunks, id, limit, level, i, a);
      assert Children(current, i) == [a];
    }
  }

  lemma NodeHasText(chunks: seq<Chunk>, limit: nat, level: nat, i: nat, node: Node)
    requires NotBlank(chunks) && i < Width(|chunks|, level) && level >= 1 && NodeOk(chunks, limit, level, i, node)
    ensures node.text == [] <==> limit == 0
  {
    SummaryIsText(chunks, limit, level, i);
  }

  /** The body of the inner loop: the parent of the children at `2 * i`. */
  method BuildParent(chunks: seq<Chunk>, version: string, limit: nat, level: nat, current: seq<Node>, i: nat)
    returns (parent: Node)
    requires NotBlank(chunks) && LevelOk(chunks, limit, level, current) && 2 * i < |current|
    ensures i < Width(|chunks|, level + 1) && NodeOk(chunks, limit, level + 1, i, parent)
    ensures ChildrenAt(current, i, parent)
    ensures parent.text == [] <==> limit == 0
  {
    var index := 2 * i;
    var children := if index + 2 <= |current| then current[index..index + 2] else current[index..];
    assert children == Children(current, i);
    var id := NodeId(version, level + 1, i);
    parent := Parent(id, level + 1, children, limit);
    ParentIsOk(chunks, id, limit, level, current, i);
    NodeHasText(chunks, limit, level + 1, i, parent);
  }

  /** The nodes above `current`; an empty summary raises. */
  method BuildParents(chunks: seq<Chunk>, version: string, limit: nat, level: nat, current: seq<Node>)
    returns (r: Result<seq<Node>>)
    requires NotBlank(chunks) && LevelOk(chunks, limit, level, current) && |current| > 1
    ensures r.Ok? <==> limit >= 1
    ensures r.Ok? ==>
              && LevelOk(chunks, limit, level + 1, r.value) && ChildrenOk(current, r.value)
              && |r.value| < |current|
  {
    var parents: seq<Node> := [];
    var index := 0;
    while index < |current|
      invariant index == 2 * |parents| && ParentsOk(chunks, limit, level, current, parents)
      invariant limit == 0 ==> parents == []
    {
      assert index / 2 == |parents| && 2 * |parents| < |current|;
      var parent := BuildParent(chunks, version, limit, level, current, |parents|);
      if parent.text == [] { return Err("validation"); }
      MoreParents(chunks, limit, level, current, parents, parent);
      parents := parents + [parent];
      index := index + 2;
    }
    r := Ok(parents);
  }

  lemma MoreParents(chunks: seq<Chunk>, limit: nat, level: nat, current: seq<Node>, parents: seq<Node>, parent: Node)
    requires ParentsOk(chunks, limit, level, current, parents)
    requires |parents| < Width(|chunks|, level + 1) && 2 * |parents| < |current|
    requires NodeOk(chunks, limit, level + 1, |parents|, parent) && ChildrenAt(current, |parents|, parent)
    ensures ParentsOk(chunks, limit, level, current, parents + [parent])
  {
    var more := parents + [parent];
    forall i | 0 <= i < |more| ensures NodeOk(chunks, limit, level + 1, i, more[i]) && ChildrenAt(current, i, more[i]) {
      if i < |parents| { assert NodeOk(chunks, limit, level + 1, i, parents[i]) && ChildrenAt(current, i, parents[i]); }
    }
  }

  lemma LeavesOk(chunks: seq<Chunk>, limit: nat, nodes: seq<Node>)
    requires |nodes| == |chunks|
    requires forall i :: 0 <= i < |chunks| ==>
               nodes[i] == Node("raptor_leaf_" + chunks[i].id, 0, chunks[i].content, [chunks[i].id], [])
    ensures LevelOk(chunks, limit, 0, nodes)
  {
    forall i | 0 <= i < |nodes| ensures NodeOk(chunks, limit, 0, i, nodes[i]) {
      CoversSome(|chunks|, i, 0);
      assert Ids(chunks)[i..i + 1] == [chunks[i].id];
      DistinctIsUnique([chunks[i].id]);
    }
  }

  /** What building promises for good input. */
  predicate Buildable(chunks: seq<Chunk>, maxLevels: int, limit: nat) {
    && chunks != [] && 1 <= maxLevels <= 4 && SameScope(chunks)
    && (limit >= 1 || |chunks| == 1 || maxLevels == 1)
  }

  /** `build`. Each level is shorter than the one below, so the source's convergence error cannot be raised. */
  method Build(chunks: seq<Chunk>, version: string, maxLevels: int, limit: nat) returns (r: Result<seq<seq<Node>>>)
    requires NotBlank(chunks)
    ensures r.Ok? <==> Buildable(chunks, maxLevels, limit)
    ensures r.Ok? ==> TreeOk(chunks, limit, maxLevels, r.value)
  {
    if chunks == [] || !(1 <= maxLevels <= 4) { return Err("raptor_bounds"); }
    if exists i :: 0 <= i < |chunks| && Scope(chunks[i]) != Scope(chunks[0]) { return Err("raptor_scope"); }
    var current := seq(|chunks|, i requires 0 <= i < |chunks| =>
                                   Node("raptor_leaf_" + chunks[i].id, 0, chunks[i].content, [chunks[i].id], []));
    LeavesOk(chunks, limit, current);
    var levels := [current];
    var level := 1;
    while |current| > 1 && level < maxLevels
      invariant 1 <= level == |levels| <= maxLevels && current == levels[level - 1]
      invariant forall l :: 0 <= l < level ==> LevelOk(chunks, limit, l, levels[l])
      invariant forall l :: 0 < l < level ==> ChildrenOk(levels[l - 1], levels[l]) && |levels[l]| < |levels[l - 1]|
      invariant forall l :: 0 <= l < level - 1 ==> |levels[l]| > 1
      invariant level > 1 ==> limit >= 1
      invariant |levels[0]| == |chunks|
      decreases maxLevels - level
    {
      var parents := BuildParents(chunks, version, limit, level - 1, current);
      if parents.Err? { return Err("validation"); }
      assert |parents.value| < |levels[|levels| - 1]|;
      current := parents.value;
      levels := levels + [current];
      level := level + 1;
    }
    assert |levels[0]| >= 1;
    WidthIsCeiling(|chunks|, level - 1);
    r := Ok(levels);
  }

  /**
   * Node `i` of level `l` stems from exactly the chunks from `i * 2^l` to `min(n, (i + 1) * 2^l)`, and above the leaves
   * its text is the first `limit` words of their joined contents, as if they had been summarised in one go.
   */
  lemma NodesSummariseTheirChunks(chunks: seq<Chunk>, limit: nat, maxLevels: nat, levels: seq<seq<Node>>, l: nat,
                                  i: nat)
    requires TreeOk(chunks, limit, maxLevels, levels) && l < |levels| && i < |levels[l]| && DistinctIds(chunks)
    ensures var lo, hi := i * Pow2(l), if (i + 1) * Pow2(l) < |chunks| then (i + 1) * Pow2(l) else |chunks|;
            && lo < hi <= |chunks| && levels[l][i].sources == Ids(chunks)[lo..hi]
            && (l >= 1 ==> levels[l][i].text == Join(Take(Split(Join(Contents(chunks)[lo..hi])), limit)))
  {
    assert LevelOk(chunks, limit, l, levels[l]);
    assert NodeOk(chunks, limit, l, i, levels[l][i]);
    CoversSome(|chunks|, i, l);
    DistinctIsUnique(Origins(chunks, i, l));
  }
}
