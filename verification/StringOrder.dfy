/** The order in which strings are sorted: lexicographic by code point. */
module StringOrder {

  predicate Below(a: string, b: string) {
    b != [] && (a == [] || a[0] < b[0] || (a[0] == b[0] && Below(a[1..], b[1..])))
  }

  lemma {:induction false} Total(a: string, b: string)
    ensures Below(a, b) || a == b || Below(b, a)
  {
    if a != [] && b != [] && a[0] == b[0] {
      Total(a[1..], b[1..]);
      assert a == [a[0]] + a[1..] && b == [b[0]] + b[1..];
    }
  }

  lemma {:induction false} Transitive(a: string, b: string, c: string)
    requires Below(a, b) && Below(b, c)
    ensures Below(a, c)
  {
    if a != [] && a[0] == b[0] && b[0] == c[0] { Transitive(a[1..], b[1..], c[1..]); }
  }

  lemma {:induction false} Asymmetric(a: string, b: string)
    requires Below(a, b)
    ensures !Below(b, a) && a != b
  {
    if a != [] && a[0] == b[0] { Asymmetric(a[1..], b[1..]); }
  }

  predicate Ascending(s: seq<string>) {
    forall i, j :: 0 <= i < j < |s| ==> Below(s[i], s[j])
  }

  /** The least string of a set. */
  method Least(keys: set<string>) returns (least: string)
    requires keys != {}
    ensures least in keys && forall k :: k in keys && k != least ==> Below(least, k)
  {
    least :| least in keys;
    var todo := keys - {least};
    while todo != {}
      invariant todo <= keys && least in keys
      invariant forall k :: k in keys - todo && k != least ==> Below(least, k)
    {
      var k :| k in todo;
      todo := todo - {k};
      Total(k, least);
      if Below(k, least) {
        forall x | x in keys - todo && x != k ensures Below(k, x) {
          if x != least { Transitive(k, least, x); }
        }
        least := k;
      }
    }
  }

  /** `sorted` over the keys of a dictionary. */
  method Sorted(keys: set<string>) returns (r: seq<string>)
    ensures Ascending(r) && (forall k :: k in r <==> k in keys)
  {
    r := [];
    var todo := keys;
    while todo != {}
      invariant todo <= keys && Ascending(r)
      invariant forall k :: k in r <==> k in keys - todo
      invariant forall i, k :: 0 <= i < |r| && k in todo ==> Below(r[i], k)
    {
      var least := Least(todo);
      todo := todo - {least};
      r := r + [least];
    }
  }

  /** A set has only one sorted listing. */
  lemma {:induction false} AscendingIsUnique(a: seq<string>, b: seq<string>)
    requires Ascending(a) && Ascending(b) && forall k :: k in a <==> k in b
    ensures a == b
    decreases |a|
  {
    assert b != [] ==> b[0] in b;
    if a != [] {
      assert a[0] in a && a[0] in b && b[0] in a;
      SameFirst(a, b);
      forall k ensures k in a[1..] <==> k in b[1..] {
        if k in a[1..] { LaterIsAbove(a, k); LaterIsIn(b, k); }
        if k in b[1..] { LaterIsAbove(b, k); LaterIsIn(a, k); }
      }
      AscendingIsUnique(a[1..], b[1..]);
      assert a == [a[0]] + a[1..] && b == [b[0]] + b[1..];
    }
  }

  lemma SameFirst(a: seq<string>, b: seq<string>)
    requires Ascending(a) && Ascending(b) && a != [] && b != [] && a[0] in b && b[0] in a
    ensures a[0] == b[0]
  {
    if a[0] != b[0] {
      var i :| 0 <= i < |b| && b[i] == a[0];
      var j :| 0 <= j < |a| && a[j] == b[0];
      Asymmetric(a[0], b[0]);
      assert false;
    }
  }

  lemma LaterIsAbove(a: seq<string>, k: string)
    requires Ascending(a) && a != [] && k in a[1..]
    ensures k in a && k != a[0]
  {
    var i :| 0 <= i < |a[1..]| && a[1..][i] == k;
    assert a[i + 1] == k;
    Asymmetric(a[0], k);
  }

  lemma LaterIsIn(b: seq<string>, k: string)
    requires b != [] && k != b[0]
    ensures k in b ==> k in b[1..]
  {
    if k in b {
      var i :| 0 <= i < |b| && b[i] == k;
      assert b[1..][i - 1] == k;
    }
  }
}
