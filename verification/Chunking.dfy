/** Token windows with overlap, and the grouping of blocks into sections before it. */
module Chunking {
  import opened Prelude
  import opened Texts

  // ---------------------------------------------------------------------------
  // Windows
  // ---------------------------------------------------------------------------

  /** Where a token lies in the text. */
  datatype Span = Span(start: nat, end: nat)

  /** What the token pattern matches: disjoint pieces in order, none of them empty or ending in white space. */
  predicate Tokens(text: string, spans: seq<Span>) {
    && (forall i :: 0 <= i < |spans| ==>
          spans[i].start < spans[i].end <= |text|
          && !IsSpace(text[spans[i].start]) && !IsSpace(text[spans[i].end - 1]))
    && (forall i, j :: 0 <= i < j < |spans| ==> spans[i].end <= spans[j].start)
  }

  /** Tokens `lo` up to `hi`. */
  datatype Window = Window(lo: nat, hi: nat)

  function CeilDiv(a: nat, b: nat): nat
    requires b >= 1
  {
    (a + b - 1) / b
  }

  /** The number of windows over `n > 0` tokens. */
  function WindowCount(n: nat, limit: nat, overlap: nat): nat
    requires overlap < limit && n > 0
  {
    1 + CeilDiv(if n > limit then n - limit else 0, limit - overlap)
  }

  /** Window `k` starts `limit - overlap` tokens after the one before it and is cut at the last token. */
  function WindowAt(n: nat, limit: nat, overlap: nat, k: nat): Window
    requires overlap < limit
  {
    var lo := k * (limit - overlap);
    Window(lo, if lo + limit < n then lo + limit else n)
  }

  lemma {:induction false} CountNext(n: nat, limit: nat, overlap: nat, k: nat)
    requires overlap < limit && n > 0
    requires k * (limit - overlap) < n
    requires k > 0 ==> (k - 1) * (limit - overlap) + limit < n
    ensures k * (limit - overlap) + limit >= n ==> WindowCount(n, limit, overlap) == k + 1
    ensures k * (limit - overlap) + limit < n ==> WindowCount(n, limit, overlap) > k + 1
  {
    var step := limit - overlap;
    var rest := if n > limit then n - limit else 0;
    if k * step + limit >= n {
      CeilIs(rest, step, k);
    } else {
      CeilAbove(rest, step, k);
    }
  }

  lemma CeilIs(a: nat, b: nat, q: nat)
    requires b >= 1 && a <= q * b && (q > 0 ==> (q - 1) * b < a) && (q == 0 ==> a == 0)
    ensures CeilDiv(a, b) == q
  {
    if q > 0 {
      var r := a + b - 1 - q * b;
      assert (q - 1) * b == q * b - b;
      DivideExactly(q, r, b);
    } else {
      DivideExactly(0, b - 1, b);
    }
  }

  lemma CeilAbove(a: nat, b: nat, q: nat)
    requires b >= 1 && q * b < a
    ensures CeilDiv(a, b) > q
  {
    if CeilDiv(a, b) <= q {
      DivideBack(a + b - 1, b);
      Grows(CeilDiv(a, b), q, b);
      assert false;
    }
  }

  lemma DivideExactly(q: nat, r: int, b: nat)
    requires b >= 1 && 0 <= r < b
    ensures (q * b + r) / b == q
  {
    var d := (q * b + r) / b;
    DivideBack(q * b + r, b);
    if d < q { Grows(d + 1, q, b); }
    if d > q { Grows(q + 1, d, b); }
  }

  lemma DivideBack(a: nat, b: nat)
    requires b >= 1
    ensures (a / b) * b <= a < (a / b) * b + b && (a / b + 1) * b == (a / b) * b + b
  {
  }

  lemma Grows(a: nat, b: nat, c: nat)
    requires a <= b
    ensures a * c <= b * c && (a + 1) * c == a * c + c
  {
  }

  predicate WindowsOk(n: nat, limit: nat, overlap: nat, windows: seq<Window>)
    requires overlap < limit
  {
    && (n == 0 ==> windows == [])
    && (n > 0 ==>
          && |windows| == WindowCount(n, limit, overlap)
          && forall k :: 0 <= k < |windows| ==> windows[k] == WindowAt(n, limit, overlap, k))
  }

  /**
   * The loop of `_split`, which both chunkers share, on token positions. `start` advances because the overlap is
   * smaller than the limit.
   */
  method SplitWindows(n: nat, limit: nat, overlap: nat) returns (windows: seq<Window>)
    requires overlap < limit
    ensures WindowsOk(n, limit, overlap, windows)
    ensures forall k :: 0 <= k < |windows| ==>
                windows[k].lo < windows[k].hi <= n && windows[k].hi - windows[k].lo <= limit
  {
    windows := [];
    if n == 0 { return; }
    var start := 0;
    while start < n
      invariant start == |windows| * (limit - overlap) && start < n
      invariant |windows| > 0 ==> (|windows| - 1) * (limit - overlap) + limit < n
      invariant forall k :: 0 <= k < |windows| ==> windows[k] == WindowAt(n, limit, overlap, k)
      invariant forall k :: 0 <= k < |windows| ==>
                    windows[k].lo < windows[k].hi <= n && windows[k].hi - windows[k].lo <= limit
      decreases n - start
    {
      ghost var k := |windows|;
      CountNext(n, limit, overlap, k);
      var end := if start + limit < n then start + limit else n;
      windows := windows + [Window(start, end)];
      if end == n { break; }
      Grows(k, k, limit - overlap);
      start := end - overlap;
    }
  }

  function Piece<T>(tokens: seq<T>, w: Window): seq<T>
    requires w.lo <= w.hi <= |tokens|
  {
    tokens[w.lo..w.hi]
  }

  predicate Fit(n: nat, windows: seq<Window>) {
    forall k :: 0 <= k < |windows| ==> windows[k].lo < windows[k].hi <= n
  }

  /** The first window, then what each later one adds beyond its overlap. */
  function Rebuilt<T>(tokens: seq<T>, windows: seq<Window>, overlap: nat, count: nat): seq<T>
    requires count <= |windows| && Fit(|tokens|, windows)
    requires forall k :: 0 < k < |windows| ==> overlap <= windows[k].hi - windows[k].lo
  {
    if count == 0 then []
    else if count == 1 then Piece(tokens, windows[0])
    else Rebuilt(tokens, windows, overlap, count - 1) + Piece(tokens, windows[count - 1])[overlap..]
  }

  /**
   * Windows hold at most `limit` tokens, neighbours share exactly `overlap` of them, every window but the last is
   * full, and the last one ends with the text.
   */
  lemma WindowsOverlapExactly(n: nat, limit: nat, overlap: nat, windows: seq<Window>)
    requires overlap < limit && n > 0 && WindowsOk(n, limit, overlap, windows) && Fit(n, windows)
    ensures windows != [] && windows[0].lo == 0 && windows[|windows| - 1].hi == n
    ensures forall k :: 0 <= k < |windows| ==> windows[k].hi - windows[k].lo <= limit
    ensures forall k :: 0 <= k < |windows| - 1 ==> windows[k].hi - windows[k].lo == limit
    ensures forall k :: 0 < k < |windows| ==>
                windows[k - 1].hi - windows[k].lo == overlap && windows[k - 1].hi < windows[k].hi
  {
    var step, count := limit - overlap, |windows|;
    assert windows[0] == WindowAt(n, limit, overlap, 0);
    LastWindowEnds(n, limit, overlap, count - 1);
    forall k | 0 <= k < count - 1
      ensures k * step + limit < n && windows[k] == Window(k * step, k * step + limit)
    {
      EarlierWindowIsFull(n, limit, overlap, k);
      assert windows[k] == WindowAt(n, limit, overlap, k);
    }
    assert windows[count - 1] == WindowAt(n, limit, overlap, count - 1);
    forall k | 0 < k < count
      ensures windows[k - 1].hi - windows[k].lo == overlap && windows[k - 1].hi < windows[k].hi
    {
      Grows(k - 1, k - 1, step);
      assert windows[k - 1] == Window((k - 1) * step, (k - 1) * step + limit);
      assert windows[k] == WindowAt(n, limit, overlap, k);
      assert windows[k].lo == (k - 1) * step + step;
    }
  }

  lemma LastWindowEnds(n: nat, limit: nat, overlap: nat, k: nat)
    requires overlap < limit && n > 0 && k + 1 == WindowCount(n, limit, overlap)
    ensures k * (limit - overlap) + limit >= n
  {
    var step := limit - overlap;
    var rest := if n > limit then n - limit else 0;
    DivideBack(rest + step - 1, step);
    assert k == CeilDiv(rest, step);
  }

  lemma EarlierWindowIsFull(n: nat, limit: nat, overlap: nat, k: nat)
    requires overlap < limit && n > 0 && k + 1 < WindowCount(n, limit, overlap)
    ensures k * (limit - overlap) + limit < n
  {
    var step := limit - overlap;
    var rest := if n > limit then n - limit else 0;
    DivideBack(rest + step - 1, step);
    Grows(k, CeilDiv(rest, step), step);
    Grows(k + 1, CeilDiv(rest, step), step);
  }

  function WindowsOf(n: nat, limit: nat, overlap: nat): seq<Window>
    requires overlap < limit
  {
    if n == 0 then [] else seq(WindowCount(n, limit, overlap), k requires 0 <= k => WindowAt(n, limit, overlap, k))
  }

  /** There is only one way to cut, and no window of it is empty. */
  lemma WindowsAreUnique(n: nat, limit: nat, overlap: nat, windows: seq<Window>)
    requires overlap < limit
    ensures WindowsOk(n, limit, overlap, windows) <==> windows == WindowsOf(n, limit, overlap)
    ensures Fit(n, WindowsOf(n, limit, overlap))
  {
    if n > 0 {
      var all := WindowsOf(n, limit, overlap);
      forall k | 0 <= k < |all| ensures all[k].lo < all[k].hi <= n {
        if k > 0 {
          EarlierWindowIsFull(n, limit, overlap, k - 1);
          Grows(k - 1, k - 1, limit - overlap);
        }
      }
    }
  }

  /** Dropping each later window's first `overlap` tokens rebuilds the token sequence. */
  lemma {:induction false} WindowsRebuild<T>(tokens: seq<T>, limit: nat, overlap: nat, windows: seq<Window>, count: nat)
    requires overlap < limit && |tokens| > 0 && WindowsOk(|tokens|, limit, overlap, windows) && Fit(|tokens|, windows)
    requires 1 <= count <= |windows|
    requires forall k :: 0 < k < |windows| ==> overlap <= windows[k].hi - windows[k].lo
    ensures Rebuilt(tokens, windows, overlap, count) == tokens[..windows[count - 1].hi]
    ensures count == |windows| ==> Rebuilt(tokens, windows, overlap, count) == tokens
  {
    WindowsOverlapExactly(|tokens|, limit, overlap, windows);
    if count > 1 {
      WindowsRebuild(tokens, limit, overlap, windows, count - 1);
      var before, w := windows[count - 2], windows[count - 1];
      assert Piece(tokens, w)[overlap..] == tokens[before.hi..w.hi];
    }
  }

  lemma LaterWindowsExceedOverlap(n: nat, limit: nat, overlap: nat, windows: seq<Window>)
    requires overlap < limit && n > 0 && WindowsOk(n, limit, overlap, windows) && Fit(n, windows)
    ensures forall k :: 0 < k < |windows| ==> overlap < windows[k].hi - windows[k].lo
  {
    WindowsOverlapExactly(n, limit, overlap, windows);
  }

  // ---------------------------------------------------------------------------
  // Their texts
  // ---------------------------------------------------------------------------

  function StripLeft(s: string): string {
    if s != [] && IsSpace(s[0]) then StripLeft(s[1..]) else s
  }

  function StripRight(s: string): string {
    if s != [] && IsSpace(s[|s| - 1]) then StripRight(s[..|s| - 1]) else s
  }

  /** The text of a window: from the start of its first token to the end of its last. */
  function TextAt(text: string, spans: seq<Span>, w: Window): string
    requires Tokens(text, spans) && w.lo < w.hi <= |spans|
  {
    assert spans[w.lo].start < spans[w.hi - 1].end;
    text[spans[w.lo].start..spans[w.hi - 1].end]
  }

  /** It is not blank, and stripping it changes nothing. */
  lemma WindowText(text: string, spans: seq<Span>, w: Window)
    requires Tokens(text, spans) && w.lo < w.hi <= |spans|
    ensures TextAt(text, spans, w) != [] && StripRight(StripLeft(TextAt(text, spans, w))) == TextAt(text, spans, w)
  {
  }

  function TextsAt(text: string, spans: seq<Span>, windows: seq<Window>): seq<(string, nat)>
    requires Tokens(text, spans) && Fit(|spans|, windows)
  {
    seq(|windows|, k requires 0 <= k < |windows| => (TextAt(text, spans, windows[k]), windows[k].hi - windows[k].lo))
  }

  /** The windows of a text, each with its number of tokens. */
  function Pieces(text: string, spans: seq<Span>, limit: nat, overlap: nat): seq<(string, nat)>
    requires overlap < limit && Tokens(text, spans)
  {
    WindowsAreUnique(|spans|, limit, overlap, []);
    TextsAt(text, spans, WindowsOf(|spans|, limit, overlap))
  }

  predicate AllFit(pieces: seq<(string, nat)>, limit: nat) {
    forall k :: 0 <= k < |pieces| ==> pieces[k].0 != [] && 1 <= pieces[k].1 <= limit
  }

  lemma WindowsFit(n: nat, limit: nat, overlap: nat)
    requires overlap < limit
    ensures Fit(n, WindowsOf(n, limit, overlap))
    ensures WindowsOf(n, limit, overlap) == [] <==> n == 0
    ensures forall k :: 0 <= k < |WindowsOf(n, limit, overlap)| ==>
              WindowsOf(n, limit, overlap)[k].hi - WindowsOf(n, limit, overlap)[k].lo <= limit
  {
    WindowsAreUnique(n, limit, overlap, WindowsOf(n, limit, overlap));
    if n > 0 { WindowsOverlapExactly(n, limit, overlap, WindowsOf(n, limit, overlap)); }
  }

  lemma TextsFit(text: string, spans: seq<Span>, windows: seq<Window>, limit: nat)
    requires Tokens(text, spans) && Fit(|spans|, windows)
    requires forall k :: 0 <= k < |windows| ==> windows[k].hi - windows[k].lo <= limit
    ensures AllFit(TextsAt(text, spans, windows), limit)
  {
    forall k | 0 <= k < |windows| ensures TextAt(text, spans, windows[k]) != [] { WindowText(text, spans, windows[k]); }
  }

  lemma PiecesFit(text: string, spans: seq<Span>, limit: nat, overlap: nat)
    requires overlap < limit && Tokens(text, spans)
    ensures AllFit(Pieces(text, spans, limit, overlap), limit)
    ensures Pieces(text, spans, limit, overlap) == [] <==> spans == []
  {
    WindowsFit(|spans|, limit, overlap);
    TextsFit(text, spans, WindowsOf(|spans|, limit, overlap), limit);
  }

  /** What `_split` appends for its windows. The text of a window is never blank, so none is dropped. */
  method CutTexts(text: string, spans: seq<Span>, windows: seq<Window>) returns (output: seq<(string, nat)>)
    requires Tokens(text, spans) && Fit(|spans|, windows)
    ensures output == TextsAt(text, spans, windows)
  {
    output := [];
    for k := 0 to |windows|
      invariant output == TextsAt(text, spans, windows)[..k]
    {
      var w := windows[k];
      WindowText(text, spans, w);
      var content := text[spans[w.lo].start..spans[w.hi - 1].end];
      if StripRight(StripLeft(content)) != [] { output := output + [(content, w.hi - w.lo)]; }
    }
  }

  /** `_split`: contents with their token counts. */
  method SplitText(text: string, spans: seq<Span>, limit: nat, overlap: nat) returns (output: seq<(string, nat)>)
    requires overlap < limit && Tokens(text, spans)
    ensures output == Pieces(text, spans, limit, overlap)
  {
    var windows := SplitWindows(|spans|, limit, overlap);
    WindowsAreUnique(|spans|, limit, overlap, windows);
    output := CutTexts(text, spans, windows);
  }

  /** The effective bounds of `chunk`: a requested limit overrides, and the overlap is kept below it. */
  function EffectiveOverlap(configured: nat, limit: nat): (overlap: nat)
    requires limit >= 1
    ensures overlap < limit && overlap <= configured && (configured < limit ==> overlap == configured)
  {
    if configured < limit - 1 then configured else limit - 1
  }

  datatype Record = Record(sequence: nat, group: nat, content: string, tokenCount: nat)

  function Numbered(pieces: seq<(string, nat)>, group: nat, base: nat): seq<Record> {
    seq(|pieces|, k requires 0 <= k < |pieces| => Record(base + k, group, pieces[k].0, pieces[k].1))
  }

  predicate Grouped(texts: seq<string>, spans: seq<seq<Span>>) {
    |spans| == |texts| && forall g :: 0 <= g < |texts| ==> Tokens(texts[g], spans[g])
  }

  /** The windows of every group. */
  function AllPieces(texts: seq<string>, spans: seq<seq<Span>>, limit: nat, overlap: nat): seq<seq<(string, nat)>>
    requires overlap < limit && Grouped(texts, spans)
  {
    seq(|texts|, g requires 0 <= g < |texts| && Grouped(texts, spans) => Pieces(texts[g], spans[g], limit, overlap))
  }

  /** The pieces of the first `n` groups in order, numbered through. */
  function RecordsOf(groups: seq<seq<(string, nat)>>, n: nat): seq<Record>
    requires n <= |groups|
  {
    if n == 0 then []
    else RecordsOf(groups, n - 1) + Numbered(groups[n - 1], n - 1, |RecordsOf(groups, n - 1)|)
  }

  /** `chunk`. */
  method Chunk(texts: seq<string>, spans: seq<seq<Span>>, requested: Option<nat>, maxTokens: nat, overlapTokens: nat)
    returns (records: seq<Record>)
    requires Grouped(texts, spans) && overlapTokens < maxTokens && (requested.Some? ==> requested.value >= 1)
    ensures var limit := requested.GetOr(maxTokens);
            records == RecordsOf(AllPieces(texts, spans, limit, EffectiveOverlap(overlapTokens, limit)), |texts|)
  {
    var limit := requested.GetOr(maxTokens);
    var overlap := EffectiveOverlap(overlapTokens, limit);
    records := [];
    for g := 0 to |texts|
      invariant records == RecordsOf(AllPieces(texts, spans, limit, overlap), g)
    {
      var pieces := SplitText(texts[g], spans[g], limit, overlap);
      records := records + Numbered(pieces, g, |records|);
    }
  }

  /** Record `i` carries its number, belongs to one of the first `n` groups, and is neither empty nor over the limit. */
  predicate RecordOk(records: seq<Record>, n: nat, limit: nat, i: nat)
    requires i < |records|
  {
    && records[i].sequence == i && records[i].group < n && records[i].content != []
    && 1 <= records[i].tokenCount <= limit
  }

  predicate NoLaterGroup(records: seq<Record>, i: nat, j: nat)
    requires i < |records| && j < |records|
  {
    records[i].group <= records[j].group
  }

  /** Numbered from 0 in the order of `n` groups, no content empty or over the limit. */
  ghost predicate InOrder(records: seq<Record>, n: nat, limit: nat) {
    && (forall i {:trigger RecordOk(records, n, limit, i)} :: 0 <= i < |records| ==> RecordOk(records, n, limit, i))
    && (forall i, j {:trigger NoLaterGroup(records, i, j)} :: 0 <= i < j < |records| ==> NoLaterGroup(records, i, j))
  }

  ghost predicate HasGroup(records: seq<Record>, group: nat) {
    exists i :: 0 <= i < |records| && records[i].group == group
  }

  lemma OrderAppends(records: seq<Record>, pieces: seq<(string, nat)>, n: nat, limit: nat)
    requires InOrder(records, n, limit) && AllFit(pieces, limit)
    ensures InOrder(records + Numbered(pieces, n, |records|), n + 1, limit)
  {
    var all, m := records + Numbered(pieces, n, |records|), n + 1;
    forall i | 0 <= i < |all| ensures RecordOk(all, m, limit, i) {
      if i < |records| { assert RecordOk(records, n, limit, i); }
    }
    forall i, j | 0 <= i < j < |all| ensures NoLaterGroup(all, i, j) {
      if i < |records| { assert RecordOk(records, n, limit, i); }
      if j < |records| { assert NoLaterGroup(records, i, j); }
    }
  }

  lemma GroupAppends(records: seq<Record>, pieces: seq<(string, nat)>, n: nat, group: nat)
    ensures HasGroup(records, group) ==> HasGroup(records + Numbered(pieces, n, |records|), group)
    ensures group == n && pieces != [] ==> HasGroup(records + Numbered(pieces, n, |records|), group)
  {
    var all := records + Numbered(pieces, n, |records|);
    if HasGroup(records, group) {
      var i :| 0 <= i < |records| && records[i].group == group;
      assert all[i].group == group;
    }
    if group == n && pieces != [] { assert all[|records|].group == n; }
  }

  lemma {:induction false} RecordsInOrder(groups: seq<seq<(string, nat)>>, n: nat, limit: nat)
    requires n <= |groups| && forall g :: 0 <= g < |groups| ==> AllFit(groups[g], limit)
    ensures InOrder(RecordsOf(groups, n), n, limit)
  {
    if n > 0 {
      RecordsInOrder(groups, n - 1, limit);
      OrderAppends(RecordsOf(groups, n - 1), groups[n - 1], n - 1, limit);
    }
  }

  lemma {:induction false} RecordsCover(groups: seq<seq<(string, nat)>>, n: nat, group: nat)
    requires group < n <= |groups| && groups[group] != []
    ensures HasGroup(RecordsOf(groups, n), group)
  {
    if group < n - 1 { RecordsCover(groups, n - 1, group); }
    GroupAppends(RecordsOf(groups, n - 1), groups[n - 1], n - 1, group);
  }

  /**
   * The records are numbered from 0 in the order of their groups, no content is empty or over the limit, and every
   * group with a token has a record.
   */
  lemma RecordsCoverGroups(texts: seq<string>, spans: seq<seq<Span>>, limit: nat, overlap: nat)
    requires overlap < limit && Grouped(texts, spans)
    ensures var records := RecordsOf(AllPieces(texts, spans, limit, overlap), |texts|);
            && InOrder(records, |texts|, limit)
            && forall g :: 0 <= g < |texts| && |spans[g]| > 0 ==> HasGroup(records, g)
  {
    var groups := AllPieces(texts, spans, limit, overlap);
    forall g | 0 <= g < |texts| ensures AllFit(groups[g], limit) && (groups[g] == [] <==> spans[g] == []) {
      PiecesFit(texts[g], spans[g], limit, overlap);
    }
    RecordsInOrder(groups, |texts|, limit);
    forall g | 0 <= g < |texts| && |spans[g]| > 0 ensures HasGroup(RecordsOf(groups, |texts|), g) {
      RecordsCover(groups, |texts|, g);
    }
  }

  // ---------------------------------------------------------------------------
  // Grouping
  // ---------------------------------------------------------------------------

  datatype Kind = Paragraph | Heading | Table | Image

  datatype Block = Block(id: string, kind: Kind, text: string)

  function Concat(groups: seq<seq<Block>>): seq<Block> {
    if groups == [] then [] else Concat(groups[..|groups| - 1]) + groups[|groups| - 1]
  }

  predicate HeadingsLead(group: seq<Block>) {
    forall i :: 0 < i < |group| ==> group[i].kind != Heading
  }

  /** A section boundary is there for a reason: a heading follows, or an isolated block is on one of its sides. */
  predicate Justified(before: seq<Block>, after: seq<Block>, isolate: Block -> bool)
    requires before != [] && after != []
  {
    after[0].kind == Heading || isolate(after[0]) || isolate(before[|before| - 1])
  }

  predicate SectionOk(group: seq<Block>, isolate: Block -> bool) {
    && group != [] && HeadingsLead(group)
    && forall i :: 0 <= i < |group| && isolate(group[i]) ==> |group| == 1
  }

  /** The only way to cut the blocks into sections, in order, losing and repeating nothing. */
  ghost predicate Sections(blocks: seq<Block>, isolate: Block -> bool, groups: seq<seq<Block>>) {
    && Concat(groups) == blocks
    && (forall g :: 0 <= g < |groups| ==> SectionOk(groups[g], isolate))
    && (forall g :: 0 < g < |groups| ==> Justified(groups[g - 1], groups[g], isolate))
  }

  lemma ConcatAppends(groups: seq<seq<Block>>, group: seq<Block>)
    ensures Concat(groups + [group]) == Concat(groups) + group
  {
    assert (groups + [group])[..|groups|] == groups;
  }

  /** What `_heading_sections` has built so far, with the section it is still filling. */
  ghost predicate SectionsSoFar(blocks: seq<Block>, n: nat, isolate: Block -> bool, groups: seq<seq<Block>>,
                                current: seq<Block>)
    requires n <= |blocks|
  {
    && Concat(groups) + current == blocks[..n]
    && (forall g :: 0 <= g < |groups| ==> SectionOk(groups[g], isolate))
    && (forall g :: 0 < g < |groups| ==> Justified(groups[g - 1], groups[g], isolate))
    && HeadingsLead(current) && (forall i :: 0 <= i < |current| ==> !isolate(current[i]))
    && (groups != [] && current != [] ==> Justified(groups[|groups| - 1], current, isolate))
    && (groups != [] && current == [] ==> isolate(groups[|groups| - 1][|groups[|groups| - 1]| - 1]))
  }

  /** Closing the section being filled. */
  lemma SectionCloses(blocks: seq<Block>, n: nat, isolate: Block -> bool, groups: seq<seq<Block>>, current: seq<Block>)
    requires n <= |blocks| && SectionsSoFar(blocks, n, isolate, groups, current) && current != []
    ensures Sections(blocks[..n], isolate, groups + [current])
  {
    ConcatAppends(groups, current);
  }

  lemma PlainNext(blocks: seq<Block>, n: nat, isolate: Block -> bool, groups: seq<seq<Block>>, current: seq<Block>)
    requires n < |blocks| && SectionsSoFar(blocks, n, isolate, groups, current)
    requires !isolate(blocks[n]) && (blocks[n].kind != Heading || current == [])
    ensures SectionsSoFar(blocks, n + 1, isolate, groups, current + [blocks[n]])
  {
    assert blocks[..n + 1] == blocks[..n] + [blocks[n]];
    assert Concat(groups) + (current + [blocks[n]]) == (Concat(groups) + current) + [blocks[n]];
  }

  lemma HeadingNext(blocks: seq<Block>, n: nat, isolate: Block -> bool, groups: seq<seq<Block>>, current: seq<Block>)
    requires n < |blocks| && SectionsSoFar(blocks, n, isolate, groups, current)
    requires !isolate(blocks[n]) && blocks[n].kind == Heading && current != []
    ensures SectionsSoFar(blocks, n + 1, isolate, groups + [current], [blocks[n]])
  {
    SectionCloses(blocks, n, isolate, groups, current);
    assert blocks[..n + 1] == blocks[..n] + [blocks[n]];
  }

  /** An isolated block becomes a section of its own, after whatever was being filled is closed. */
  lemma IsolatedNext(blocks: seq<Block>, n: nat, isolate: Block -> bool, closed: seq<seq<Block>>)
    requires n < |blocks| && Sections(blocks[..n], isolate, closed) && isolate(blocks[n])
    ensures SectionsSoFar(blocks, n + 1, isolate, closed + [[blocks[n]]], [])
  {
    ConcatAppends(closed, [blocks[n]]);
    assert blocks[..n + 1] == blocks[..n] + [blocks[n]];
    assert Concat(closed + [[blocks[n]]]) + [] == blocks[..n + 1];
  }

  lemma NothingOpen(blocks: seq<Block>, n: nat, isolate: Block -> bool, groups: seq<seq<Block>>)
    requires n <= |blocks| && SectionsSoFar(blocks, n, isolate, groups, [])
    ensures Sections(blocks[..n], isolate, groups)
  {
    assert Concat(groups) + [] == Concat(groups);
  }

  /** `_heading_sections`. */
  method HeadingSections(blocks: seq<Block>, isolate: Block -> bool) returns (groups: seq<seq<Block>>)
    ensures Sections(blocks, isolate, groups)
  {
    groups := [];
    var current: seq<Block> := [];
    for n := 0 to |blocks|
      invariant SectionsSoFar(blocks, n, isolate, groups, current)
    {
      var block := blocks[n];
      if isolate(block) {
        if current != [] {
          SectionCloses(blocks, n, isolate, groups, current);
          groups := groups + [current];
          current := [];
        } else {
          NothingOpen(blocks, n, isolate, groups);
        }
        IsolatedNext(blocks, n, isolate, groups);
        groups := groups + [[block]];
      } else if block.kind == Heading && current != [] {
        HeadingNext(blocks, n, isolate, groups, current);
        groups := groups + [current];
        current := [block];
      } else {
        PlainNext(blocks, n, isolate, groups, current);
        current := current + [block];
      }
    }
    assert blocks[..|blocks|] == blocks;
    if current != [] {
      SectionCloses(blocks, |blocks|, isolate, groups, current);
      groups := groups + [current];
    }
  }

  /** `_book`; `chapter` says whether a heading's text looks like a chapter title, which turns out not to matter. */
  method BookSections(blocks: seq<Block>, chapter: string -> bool) returns (groups: seq<seq<Block>>)
    ensures Sections(blocks, (b: Block) => false, groups)
  {
    groups := [];
    var current: seq<Block> := [];
    ghost var isolate := (b: Block) => false;
    for n := 0 to |blocks|
      invariant SectionsSoFar(blocks, n, isolate, groups, current)
    {
      var block := blocks[n];
      if block.kind == Heading && (chapter(block.text) || current != []) {
        if current != [] {
          HeadingNext(blocks, n, isolate, groups, current);
          groups := groups + [current];
        } else {
          PlainNext(blocks, n, isolate, groups, current);
        }
        current := [block];
      } else {
        PlainNext(blocks, n, isolate, groups, current);
        current := current + [block];
      }
    }
    assert blocks[..|blocks|] == blocks;
    if current != [] {
      SectionCloses(blocks, |blocks|, isolate, groups, current);
      groups := groups + [current];
    }
  }

  // ---------------------------------------------------------------------------
  // There is only one such sectioning
  // ---------------------------------------------------------------------------

  /** A cut is allowed just before position `p`. */
  predicate Boundary(blocks: seq<Block>, isolate: Block -> bool, p: nat)
    requires 0 < p < |blocks|
  {
    blocks[p].kind == Heading || isolate(blocks[p]) || isolate(blocks[p - 1])
  }

  lemma {:induction false} ConcatIsEmpty(groups: seq<seq<Block>>)
    requires forall g :: 0 <= g < |groups| ==> groups[g] != []
    ensures Concat(groups) == [] <==> groups == []
  {
  }

  lemma ConcatSplits(groups: seq<seq<Block>>)
    requires groups != []
    ensures Concat(groups) == Concat(groups[..|groups| - 1]) + groups[|groups| - 1]
  {
  }

  /** The last section starts at an allowed cut, and there is none inside it. */
  lemma LastSectionStarts(blocks: seq<Block>, isolate: Block -> bool, groups: seq<seq<Block>>)
    requires Sections(blocks, isolate, groups) && groups != []
    ensures var start := |blocks| - |groups[|groups| - 1]|;
            && 0 <= start < |blocks| && groups[|groups| - 1] == blocks[start..]
            && Concat(groups[..|groups| - 1]) == blocks[..start]
            && (start > 0 ==> Boundary(blocks, isolate, start))
            && forall p :: start < p < |blocks| ==> !Boundary(blocks, isolate, p)
  {
    var last, front := groups[|groups| - 1], groups[..|groups| - 1];
    var start := |blocks| - |last|;
    ConcatSplits(groups);
    assert last == blocks[start..] && Concat(front) == blocks[..start];
    ConcatIsEmpty(front);
    if start > 0 {
      ConcatSplits(front);
      var before := front[|front| - 1];
      assert blocks[..start][start - 1] == before[|before| - 1];
      assert Justified(before, last, isolate) && blocks[start] == last[0];
    }
    forall p | start < p < |blocks| ensures !Boundary(blocks, isolate, p) {
      assert blocks[p] == last[p - start] && blocks[p - 1] == last[p - 1 - start];
    }
  }

  /** Two sectionings of the same blocks are equal. */
  lemma {:induction false} SectionsAreUnique(blocks: seq<Block>, isolate: Block -> bool, a: seq<seq<Block>>,
                                             b: seq<seq<Block>>)
    requires Sections(blocks, isolate, a) && Sections(blocks, isolate, b)
    ensures a == b
    decreases |blocks|
  {
    ConcatIsEmpty(a);
    ConcatIsEmpty(b);
    if a != [] {
      LastSectionStarts(blocks, isolate, a);
      LastSectionStarts(blocks, isolate, b);
      var start := |blocks| - |a[|a| - 1]|;
      assert start == |blocks| - |b[|b| - 1]|;
      SectionsAreUnique(blocks[..start], isolate, a[..|a| - 1], b[..|b| - 1]);
      assert a == a[..|a| - 1] + [a[|a| - 1]] && b == b[..|b| - 1] + [b[|b| - 1]];
    }
  }
}
