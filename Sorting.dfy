/** `Array.prototype.sort` as the engine uses it: every call site sorts by a
    key in a fixed direction, either a number, highest first (comparators of
    the form `(a, b) => key(b) - key(a)`), or a string, in ascending code
    order (`localeCompare`, modelled as code-point order). Both sorts are
    stable insertion sorts returning a sorted permutation of their input. */
module Sorting {

  /** Keys never increase along `s`. */
  predicate SortedDesc<T>(s: seq<T>, key: T -> real)
  {
    forall i, j :: 0 <= i < j < |s| ==> key(s[i]) >= key(s[j])
  }

  /** Inserts `x` before the first element whose key it reaches, so that it
      stays ahead of elements with an equal key. */
  function InsertDesc<T>(x: T, s: seq<T>, key: T -> real): (r: seq<T>)
    ensures multiset(r) == multiset(s) + multiset{x}
    ensures |r| == |s| + 1
  {
    if s == [] then [x]
    else if key(x) >= key(s[0]) then [x] + s
    else
      assert s == [s[0]] + s[1..];
      [s[0]] + InsertDesc(x, s[1..], key)
  }

  /** A head whose key reaches every key of a sorted tail keeps it sorted. */
  lemma ConsSortedDesc<T>(h: T, t: seq<T>, key: T -> real)
    requires SortedDesc(t, key)
    requires forall k :: 0 <= k < |t| ==> key(h) >= key(t[k])
    ensures SortedDesc([h] + t, key)
  {
    var r := [h] + t;
    forall i, j | 0 <= i < j < |r| ensures key(r[i]) >= key(r[j]) {
      assert r[j] == t[j - 1];
      if i > 0 {
        assert r[i] == t[i - 1];
      }
    }
  }

  /** Inserting `x` into the tail of a sorted list that `x` cannot lead
      leaves the head's key the largest. */
  lemma HeadDominatesInsertDesc<T>(x: T, s: seq<T>, key: T -> real)
    requires s != [] && SortedDesc(s, key) && key(x) < key(s[0])
    ensures forall k :: 0 <= k < |InsertDesc(x, s[1..], key)| ==> key(s[0]) >= key(InsertDesc(x, s[1..], key)[k])
  {
    var t := InsertDesc(x, s[1..], key);
    forall k | 0 <= k < |t| ensures key(s[0]) >= key(t[k]) {
      assert t[k] in multiset(s[1..]) + multiset{x};
      if t[k] != x {
        assert t[k] in s[1..];
      }
    }
  }

  lemma {:induction false} InsertDescKeepsSorted<T>(x: T, s: seq<T>, key: T -> real)
    requires SortedDesc(s, key)
    ensures SortedDesc(InsertDesc(x, s, key), key)
  {
    if s != [] && key(x) < key(s[0]) {
      assert SortedDesc(s[1..], key);
      InsertDescKeepsSorted(x, s[1..], key);
      HeadDominatesInsertDesc(x, s, key);
      ConsSortedDesc(s[0], InsertDesc(x, s[1..], key), key);
    } else if s != [] {
      ConsSortedDesc(x, s, key);
    }
  }

  /** The stable sort of `s`, highest key first. */
  function SortDesc<T>(s: seq<T>, key: T -> real): (r: seq<T>)
    ensures multiset(r) == multiset(s)
    ensures |r| == |s|
    ensures SortedDesc(r, key)
  {
    if s == [] then []
    else
      var rest := SortDesc(s[1..], key);
      assert s == [s[0]] + s[1..];
      InsertDescKeepsSorted(s[0], rest, key);
      InsertDesc(s[0], rest, key)
  }

  /** Code-point lexicographic order on strings: `a` comes no later than `b`. */
  predicate LexLe(a: string, b: string)
  {
    a == [] || (b != [] && (a[0] < b[0] || (a[0] == b[0] && LexLe(a[1..], b[1..]))))
  }

  lemma {:induction false} LexLeTotal(a: string, b: string)
    ensures LexLe(a, b) || LexLe(b, a)
  {
    if a != [] && b != [] && a[0] == b[0] {
      LexLeTotal(a[1..], b[1..]);
    }
  }

  lemma {:induction false} LexLeTransitive(a: string, b: string, c: string)
    requires LexLe(a, b) && LexLe(b, c)
    ensures LexLe(a, c)
  {
    if a != [] && b != [] && c != [] && a[0] == b[0] && b[0] == c[0] {
      LexLeTransitive(a[1..], b[1..], c[1..]);
    }
  }

  lemma {:induction false} LexLeAntisymmetric(a: string, b: string)
    requires LexLe(a, b) && LexLe(b, a)
    ensures a == b
  {
    if a != [] && b != [] {
      LexLeAntisymmetric(a[1..], b[1..]);
      assert a == [a[0]] + a[1..] && b == [b[0]] + b[1..];
    }
  }

  /** String keys never decrease along `s`. */
  predicate SortedByName<T>(s: seq<T>, key: T -> string)
  {
    forall i, j :: 0 <= i < j < |s| ==> LexLe(key(s[i]), key(s[j]))
  }

  /** Inserts `x` before the first element it does not follow. */
  function InsertByName<T>(x: T, s: seq<T>, key: T -> string): (r: seq<T>)
    ensures multiset(r) == multiset(s) + multiset{x}
    ensures |r| == |s| + 1
  {
    if s == [] then [x]
    else if LexLe(key(x), key(s[0])) then [x] + s
    else
      assert s == [s[0]] + s[1..];
      [s[0]] + InsertByName(x, s[1..], key)
  }

  /** A head that precedes every key of a sorted tail keeps it sorted. */
  lemma ConsSortedByName<T>(h: T, t: seq<T>, key: T -> string)
    requires SortedByName(t, key)
    requires forall k :: 0 <= k < |t| ==> LexLe(key(h), key(t[k]))
    ensures SortedByName([h] + t, key)
  {
    var r := [h] + t;
    forall i, j | 0 <= i < j < |r| ensures LexLe(key(r[i]), key(r[j])) {
      assert r[j] == t[j - 1];
      if i > 0 {
        assert r[i] == t[i - 1];
      }
    }
  }

  lemma HeadLeadsInsertByName<T>(x: T, s: seq<T>, key: T -> string)
    requires s != [] && SortedByName(s, key) && LexLe(key(s[0]), key(x))
    ensures forall k :: 0 <= k < |InsertByName(x, s[1..], key)| ==> LexLe(key(s[0]), key(InsertByName(x, s[1..], key)[k]))
  {
    var t := InsertByName(x, s[1..], key);
    forall k | 0 <= k < |t| ensures LexLe(key(s[0]), key(t[k])) {
      assert t[k] in multiset(s[1..]) + multiset{x};
      if t[k] != x {
        assert t[k] in s[1..];
      }
    }
  }

  lemma {:induction false} InsertByNameKeepsSorted<T>(x: T, s: seq<T>, key: T -> string)
    requires SortedByName(s, key)
    ensures SortedByName(InsertByName(x, s, key), key)
  {
    if s == [] {
    } else if LexLe(key(x), key(s[0])) {
      forall k | 0 <= k < |s| ensures LexLe(key(x), key(s[k])) {
        if k > 0 {
          LexLeTransitive(key(x), key(s[0]), key(s[k]));
        }
      }
      ConsSortedByName(x, s, key);
    } else {
      LexLeTotal(key(x), key(s[0]));
      assert SortedByName(s[1..], key);
      InsertByNameKeepsSorted(x, s[1..], key);
      HeadLeadsInsertByName(x, s, key);
      ConsSortedByName(s[0], InsertByName(x, s[1..], key), key);
    }
  }

  /** The stable sort of `s` by string key, ascending. */
  function SortByName<T>(s: seq<T>, key: T -> string): (r: seq<T>)
    ensures multiset(r) == multiset(s)
    ensures |r| == |s|
    ensures SortedByName(r, key)
  {
    if s == [] then []
    else
      var rest := SortByName(s[1..], key);
      assert s == [s[0]] + s[1..];
      InsertByNameKeepsSorted(s[0], rest, key);
      InsertByName(s[0], rest, key)
  }
}
