/** Shared vocabulary of the engine: optional values, clamping and the few
    JavaScript array and string operations the scanners rely on. */
module Common {

  datatype Option<+T> = None | Some(value: T)

  /** `Math.min(hi, Math.max(lo, x))`. */
  function Clamp(x: int, lo: int, hi: int): (r: int)
    requires lo <= hi
    ensures lo <= r <= hi
    ensures lo <= x <= hi ==> r == x
    ensures x < lo ==> r == lo
    ensures hi < x ==> r == hi
  {
    if x < lo then lo else if hi < x then hi else x
  }

  /** `Math.abs`. */
  function Abs(x: real): (r: real)
    ensures 0.0 <= r
    ensures r == x || r == -x
  {
    if x < 0.0 then -x else x
  }

  /** `Math.max` of two values. */
  function Max(a: real, b: real): (r: real)
    ensures a <= r && b <= r
    ensures r == a || r == b
  {
    if a < b then b else a
  }

  /** `Math.min` of two values. */
  function Min(a: real, b: real): (r: real)
    ensures r <= a && r <= b
    ensures r == a || r == b
  {
    if a < b then a else b
  }

  /** A numeric JSON field: `null`, absent, or a number. */
  datatype RawValue = Null | Undefined | Num(n: real)

  /** JavaScript `v || fallback` on a numeric field: null, absent and zero fall back. */
  function OrElse(v: RawValue, fallback: real): (r: real)
    ensures v.Num? && v.n != 0.0 ==> r == v.n
    ensures !(v.Num? && v.n != 0.0) ==> r == fallback
  {
    if v.Num? && v.n != 0.0 then v.n else fallback
  }

  /** A JavaScript number that a division of finite numbers can produce. */
  datatype JsNumber = Finite(v: real) | PosInfinity | NegInfinity | NaN

  /** JavaScript `x / y` on finite operands: a zero divisor (always `+0` in
      this model) gives the infinity of the numerator's sign, or `NaN` for
      `0 / 0`. */
  function JsDiv(x: real, y: real): JsNumber
  {
    if y != 0.0 then Finite(x / y)
    else if x > 0.0 then PosInfinity
    else if x < 0.0 then NegInfinity
    else NaN
  }

  /** JavaScript `n > c`: `NaN` compares false, the infinities as expected. */
  predicate JsGreater(n: JsNumber, c: real)
  {
    match n
    case Finite(v) => v > c
    case PosInfinity => true
    case NegInfinity => false
    case NaN => false
  }

  /** JavaScript `n < c`. */
  predicate JsLess(n: JsNumber, c: real)
  {
    match n
    case Finite(v) => v < c
    case PosInfinity => false
    case NegInfinity => true
    case NaN => false
  }

  /** Against a non-negative divisor, comparing the quotient with `c`
      compares the numerator with `c` times the divisor; a zero divisor
      included, where the quotient is an infinity or `NaN`. */
  lemma JsDivCompare(x: real, y: real, c: real)
    requires y >= 0.0
    ensures JsGreater(JsDiv(x, y), c) <==> x > c * y
    ensures JsLess(JsDiv(x, y), c) <==> x < c * y
  {
    if y > 0.0 {
      var q := x / y;
      assert q * y == x;
      if q > c {
        assert q * y > c * y;
      } else {
        assert q * y <= c * y;
      }
      if q < c {
        assert q * y < c * y;
      } else {
        assert q * y >= c * y;
      }
    } else {
      assert c * y == 0.0;
    }
  }

  /** JavaScript truthiness of a possibly absent string. */
  predicate Truthy(s: Option<string>)
  {
    s.Some? && s.value != ""
  }

  /** JavaScript `s || fallback` on a possibly absent string. */
  function OrDefault(s: Option<string>, fallback: string): (r: string)
    ensures Truthy(s) ==> r == s.value
    ensures !Truthy(s) ==> r == fallback
  {
    if Truthy(s) then s.value else fallback
  }

  predicate StartsWith(s: string, prefix: string)
  {
    |prefix| <= |s| && s[..|prefix|] == prefix
  }

  /** JavaScript `s.includes(p)`. */
  predicate Contains(s: string, p: string)
    decreases |s|
  {
    StartsWith(s, p) || (s != [] && Contains(s[1..], p))
  }

  /** JavaScript `s.replace(p, "")` with a string pattern: the first
      occurrence of `p`, if there is one, is cut out. */
  function RemoveFirst(s: string, p: string): (r: string)
    decreases |s|
    ensures !Contains(s, p) ==> r == s
    ensures Contains(s, p) ==> |r| + |p| == |s|
  {
    if StartsWith(s, p) then s[|p|..]
    else if s == [] then s
    else [s[0]] + RemoveFirst(s[1..], p)
  }

  /** When `p` occurs, `s` is the result with `p` put back at index `i`. */
  lemma {:induction false} RemoveFirstSplits(s: string, p: string) returns (i: nat)
    requires Contains(s, p)
    ensures i <= |RemoveFirst(s, p)| && s == RemoveFirst(s, p)[..i] + p + RemoveFirst(s, p)[i..]
    decreases |s|
  {
    if StartsWith(s, p) {
      i := 0;
      assert s == p + s[|p|..];
    } else {
      var k := RemoveFirstSplits(s[1..], p);
      assert RemoveFirst(s, p) == [s[0]] + RemoveFirst(s[1..], p);
      PrependSplit(s[0], RemoveFirst(s[1..], p), p, k);
      assert s == [s[0]] + s[1..];
      i := k + 1;
    }
  }

  /** Putting `c` in front of both sides moves the split point by one. */
  lemma PrependSplit<T>(c: T, rest: seq<T>, p: seq<T>, k: nat)
    requires k <= |rest|
    ensures ([c] + rest)[..k + 1] + p + ([c] + rest)[k + 1..] == [c] + (rest[..k] + p + rest[k..])
  {
    assert ([c] + rest)[..k + 1] == [c] + rest[..k];
    assert ([c] + rest)[k + 1..] == rest[k..];
  }

  /** JavaScript `s.split(c)[0]`: the part of `s` before the first `c`. */
  function BeforeFirst(s: string, c: char): (r: string)
    ensures r <= s
    ensures c !in r
    ensures |r| < |s| ==> s[|r|] == c
  {
    if s == [] || s[0] == c then [] else [s[0]] + BeforeFirst(s[1..], c)
  }

  /** The index JavaScript `Array.prototype.find` stops at: the first element
      satisfying `p`. */
  function FindFirst<T>(s: seq<T>, p: T -> bool): (r: Option<nat>)
    ensures r.None? <==> forall j :: 0 <= j < |s| ==> !p(s[j])
    ensures r.Some? ==> r.value < |s| && p(s[r.value])
    ensures r.Some? ==> forall j :: 0 <= j < r.value ==> !p(s[j])
  {
    if s == [] then None
    else if p(s[0]) then Some(0)
    else match FindFirst(s[1..], p)
      case None => None
      case Some(k) => Some(k + 1)
  }

  /** `a` can be obtained from `b` by deleting elements, keeping the order. */
  predicate IsSubsequence<T(==)>(a: seq<T>, b: seq<T>)
    decreases |b|
  {
    if a == [] then true
    else if b == [] then false
    else (a[0] == b[0] && IsSubsequence(a[1..], b[1..])) || IsSubsequence(a, b[1..])
  }

  /** The results of `job` over `xs` that are present, in order: the
      source's `if (analysis) results.push(analysis)`. */
  function Collect<T, U>(xs: seq<T>, job: T -> Option<U>): (r: seq<U>)
    ensures |r| <= |xs|
  {
    if xs == [] then []
    else
      var rest := Collect(xs[..|xs| - 1], job);
      match job(xs[|xs| - 1])
      case Some(u) => rest + [u]
      case None => rest
  }

  /** Every collected value is the result of the job on one of the inputs. */
  lemma {:induction false} CollectSound<T, U>(xs: seq<T>, job: T -> Option<U>)
    ensures forall u :: u in Collect(xs, job) ==> exists k :: 0 <= k < |xs| && job(xs[k]) == Some(u)
  {
    if xs != [] {
      var init := xs[..|xs| - 1];
      CollectSound(init, job);
      forall u | u in Collect(xs, job)
        ensures exists k :: 0 <= k < |xs| && job(xs[k]) == Some(u)
      {
        if u in Collect(init, job) {
          var k :| 0 <= k < |init| && job(init[k]) == Some(u);
          assert xs[k] == init[k];
        } else {
          assert job(xs[|xs| - 1]) == Some(u);
        }
      }
    }
  }

  /** Every present result of the job is collected. */
  lemma {:induction false} CollectComplete<T, U>(xs: seq<T>, job: T -> Option<U>)
    ensures forall k :: 0 <= k < |xs| && job(xs[k]).Some? ==> job(xs[k]).value in Collect(xs, job)
  {
    if xs != [] {
      var init := xs[..|xs| - 1];
      CollectComplete(init, job);
      forall k | 0 <= k < |xs| && job(xs[k]).Some?
        ensures job(xs[k]).value in Collect(xs, job)
      {
        if k < |init| {
          assert xs[k] == init[k];
        }
      }
    }
  }

  /** When the job yields a value for every input, nothing is dropped. */
  lemma {:induction false} CollectTotal<T, U>(xs: seq<T>, job: T -> Option<U>)
    requires forall k :: 0 <= k < |xs| ==> job(xs[k]).Some?
    ensures |Collect(xs, job)| == |xs|
  {
    if xs != [] {
      var init := xs[..|xs| - 1];
      assert forall k :: 0 <= k < |init| ==> init[k] == xs[k];
      CollectTotal(init, job);
    }
  }

  /** Extending the inputs by one appends that input's result, if any. */
  lemma CollectStep<T, U>(xs: seq<T>, k: nat, job: T -> Option<U>)
    requires k < |xs|
    ensures Collect(xs[..k + 1], job) ==
      Collect(xs[..k], job) + (match job(xs[k]) case Some(u) => [u] case None => [])
  {
    assert xs[..k + 1][..k] == xs[..k];
  }

  /** Collecting over a longer prefix appends what the added slice yields. */
  lemma CollectSlices<T, U>(xs: seq<T>, i: nat, j: nat, job: T -> Option<U>)
    requires i <= j <= |xs|
    ensures Collect(xs[..j], job) == Collect(xs[..i], job) + Collect(xs[i..j], job)
  {
    assert xs[..j] == xs[..i] + xs[i..j];
    CollectAppend(xs[..i], xs[i..j], job);
  }

  /** Collecting over a concatenation collects over each part in turn. */
  lemma {:induction false} CollectAppend<T, U>(xs: seq<T>, ys: seq<T>, job: T -> Option<U>)
    ensures Collect(xs + ys, job) == Collect(xs, job) + Collect(ys, job)
    decreases |ys|
  {
    if ys != [] {
      var init := ys[..|ys| - 1];
      CollectAppend(xs, init, job);
      assert (xs + ys)[..|xs + ys| - 1] == xs + init;
      assert (xs + ys)[|xs + ys| - 1] == ys[|ys| - 1];
    } else {
      assert xs + ys == xs;
    }
  }

  /** The sum of `f` over `s`, accumulated front to back. */
  function SumOf<T>(s: seq<T>, f: T -> int): int
  {
    if s == [] then 0 else SumOf(s[..|s| - 1], f) + f(s[|s| - 1])
  }

  lemma {:induction false} SumOfAppend<T>(u: seq<T>, v: seq<T>, f: T -> int)
    ensures SumOf(u + v, f) == SumOf(u, f) + SumOf(v, f)
    decreases |v|
  {
    if v == [] {
      assert u + v == u;
    } else {
      SumOfAppend(u, v[..|v| - 1], f);
      assert (u + v)[..|u + v| - 1] == u + v[..|v| - 1];
    }
  }

  /** Taking out the element at `i` takes its term out of the sum. */
  lemma SumOfRemove<T>(b: seq<T>, i: nat, f: T -> int)
    requires i < |b|
    ensures SumOf(b, f) == SumOf(b[..i] + b[i + 1..], f) + f(b[i])
  {
    var x, front, back := b[i], b[..i], b[i + 1..];
    assert b == front + ([x] + back);
    SumOfAppend(front, [x] + back, f);
    SumOfAppend([x], back, f);
    SumOfSingleton(x, f);
    SumOfAppend(front, back, f);
  }

  lemma SumOfSingleton<T>(x: T, f: T -> int)
    ensures SumOf([x], f) == f(x)
  {
    assert [x][..0] == [];
  }

  /** Taking out the element at `i` takes one copy out of the multiset. */
  lemma MultisetRemove<T>(b: seq<T>, i: nat)
    requires i < |b|
    ensures multiset(b[..i] + b[i + 1..]) == multiset(b) - multiset{b[i]}
  {
    assert b == b[..i] + [b[i]] + b[i + 1..];
    assert multiset(b) == multiset(b[..i]) + multiset{b[i]} + multiset(b[i + 1..]);
  }

  /** The sum does not depend on the order of the elements. */
  lemma {:induction false} SumOfPermutation<T>(a: seq<T>, b: seq<T>, f: T -> int)
    requires multiset(a) == multiset(b)
    ensures SumOf(a, f) == SumOf(b, f)
    decreases |a|
  {
    if a == [] {
      assert |multiset(b)| == 0;
    } else {
      var x := a[|a| - 1];
      var init := a[..|a| - 1];
      assert a == init + [x];
      assert multiset(a) == multiset(init) + multiset{x};
      assert x in multiset(b);
      var i :| 0 <= i < |b| && b[i] == x;
      var rest := b[..i] + b[i + 1..];
      MultisetRemove(b, i);
      assert multiset(init) == multiset(rest);
      SumOfPermutation(init, rest, f);
      SumOfRemove(b, i, f);
      assert SumOf(a, f) == SumOf(init, f) + f(x);
    }
  }

  /** Bounds on every term bound the sum. */
  lemma {:induction false} SumOfBetween<T>(s: seq<T>, f: T -> int, lo: int, hi: int)
    requires forall k :: 0 <= k < |s| ==> lo <= f(s[k]) <= hi
    ensures |s| * lo <= SumOf(s, f) <= |s| * hi
  {
    if s != [] {
      var init := s[..|s| - 1];
      assert forall k :: 0 <= k < |init| ==> init[k] == s[k];
      SumOfBetween(init, f, lo, hi);
      assert |s| * lo == |init| * lo + lo;
      assert |s| * hi == |init| * hi + hi;
    }
  }
}
