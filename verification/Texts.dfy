/** `str.split()` and `" ".join(...)` on code points. */
module Texts {
  import opened Prelude

  /** The code points Python counts as white space. */
  predicate IsSpace(c: char) {
    c in {'\t', '\n', '\U{B}', '\U{C}', '\r', '\U{1C}', '\U{1D}', '\U{1E}', '\U{1F}', ' ', '\U{85}', '\U{A0}',
          '\U{1680}',
          '\U{2000}', '\U{2001}', '\U{2002}', '\U{2003}', '\U{2004}', '\U{2005}', '\U{2006}', '\U{2007}', '\U{2008}',
          '\U{2009}', '\U{200A}', '\U{2028}', '\U{2029}', '\U{202F}', '\U{205F}', '\U{3000}'}
  }

  predicate IsWord(s: string) {
    s != [] && forall i :: 0 <= i < |s| ==> !IsSpace(s[i])
  }

  predicate AllWords(words: seq<string>) {
    forall i :: 0 <= i < |words| ==> IsWord(words[i])
  }

  /** The words of `s`, given the word `open` that the text before `s` ended in (empty if it ended in white space). */
  function SplitFrom(open: string, s: string): seq<string>
    decreases |s|
  {
    if s == [] then (if open == [] then [] else [open])
    else if IsSpace(s[0]) then (if open == [] then [] else [open]) + SplitFrom([], s[1..])
    else SplitFrom(open + [s[0]], s[1..])
  }

  /** `s.split()`: the maximal runs without white space. */
  function Split(s: string): seq<string> { SplitFrom([], s) }

  function Join(words: seq<string>): string {
    if words == [] then []
    else if |words| == 1 then words[0]
    else words[0] + " " + Join(words[1..])
  }

  lemma {:induction false} SplitIsWords(open: string, s: string)
    requires open == [] || IsWord(open)
    ensures AllWords(SplitFrom(open, s))
    decreases |s|
  {
    if s != [] {
      if IsSpace(s[0]) { SplitIsWords([], s[1..]); } else { SplitIsWords(open + [s[0]], s[1..]); }
    }
  }

  /** White space ends a word, whatever follows. */
  lemma {:induction false} SplitAtSpace(open: string, a: string, b: string)
    ensures SplitFrom(open, a + " " + b) == SplitFrom(open, a) + Split(b)
    decreases |a|
  {
    var whole := a + " " + b;
    if a == [] {
      assert whole[0] == ' ' && whole[1..] == b;
    } else {
      assert whole[0] == a[0] && whole[1..] == a[1..] + " " + b;
      if IsSpace(a[0]) { SplitAtSpace([], a[1..], b); } else { SplitAtSpace(open + [a[0]], a[1..], b); }
    }
  }

  lemma {:induction false} SplitWord(open: string, w: string)
    requires forall i :: 0 <= i < |w| ==> !IsSpace(w[i])
    ensures SplitFrom(open, w) == if open + w == [] then [] else [open + w]
    decreases |w|
  {
    if w != [] {
      SplitWord(open + [w[0]], w[1..]);
      assert open + [w[0]] + w[1..] == open + w;
    } else {
      assert open + w == open;
    }
  }

  /** Joining words and splitting again gives the words back. */
  lemma {:induction false} SplitJoin(words: seq<string>)
    requires AllWords(words)
    ensures Split(Join(words)) == words
  {
    if |words| == 1 {
      SplitWord([], words[0]);
      assert [] + words[0] == words[0];
    } else if words != [] {
      SplitAtSpace([], words[0], Join(words[1..]));
      SplitWord([], words[0]);
      assert [] + words[0] == words[0];
      SplitJoin(words[1..]);
      assert words == [words[0]] + words[1..];
    }
  }

  /** The words of several texts in order. */
  function WordsOf(texts: seq<string>): seq<string> {
    if texts == [] then [] else Split(texts[0]) + WordsOf(texts[1..])
  }

  /** The words of joined texts are the words of the texts. */
  lemma {:induction false} SplitJoinedTexts(texts: seq<string>)
    ensures Split(Join(texts)) == WordsOf(texts)
  {
    if |texts| == 1 {
      assert WordsOf(texts) == Split(texts[0]) + WordsOf([]);
    } else if texts != [] {
      SplitAtSpace([], texts[0], Join(texts[1..]));
      SplitJoinedTexts(texts[1..]);
    }
  }

  lemma {:induction false} WordsAppend(a: seq<string>, b: seq<string>)
    ensures WordsOf(a + b) == WordsOf(a) + WordsOf(b)
  {
    if a == [] {
      assert a + b == b;
    } else {
      assert (a + b)[1..] == a[1..] + b;
      WordsAppend(a[1..], b);
    }
  }

  /** Truncating the parts first does not change the truncated whole. */
  lemma TakeTwice<T>(a: seq<T>, b: seq<T>, k: nat)
    ensures Take(Take(a, k) + Take(b, k), k) == Take(a + b, k)
  {
  }
}
