/**
 * JavaScript value conventions shared by every game module: optional values,
 * the two defaulting operators (`??` and numeric `||`), `Math.max`/`Math.min`,
 * `Math.floor`, the truncating `%` of JavaScript numbers, and a mutable array
 * that functions push into and splice.
 */
module Js {

  /** A property that may be missing (`undefined` or `null`). */
  datatype Option<+T> = None | Some(value: T)

  /** `a ?? d`: only a missing value is replaced by the default. */
  function Coalesce<T>(a: Option<T>, d: T): T
  {
    if a.Some? then a.value else d
  }

  /** `a || d` on a number: every falsy number (missing or 0) is replaced. */
  function OrNum(a: Option<real>, d: real): real
  {
    if a.Some? && a.value != 0.0 then a.value else d
  }

  /** `a || d` on a string: a missing or empty string is replaced. */
  function OrStr(a: Option<string>, d: string): string
  {
    if a.Some? && a.value != "" then a.value else d
  }

  /** `!x` on an optional number read as a boolean: missing or 0. */
  predicate FalsyNum(a: Option<real>)
  {
    a.None? || a.value == 0.0
  }

  function Max(a: real, b: real): real
  {
    if a >= b then a else b
  }

  function Min(a: real, b: real): real
  {
    if a <= b then a else b
  }

  function Abs(a: real): real
  {
    if a >= 0.0 then a else -a
  }

  /** `Math.floor` of a number. */
  function Floor(r: real): int
  {
    r.Floor
  }

  /**
   * JavaScript `a % n` on integral numbers: the remainder truncates toward
   * zero, so it takes the sign of `a` (Dafny's own `%` is Euclidean).
   */
  function JsRem(a: int, n: int): (r: int)
    requires n != 0
    ensures a >= 0 ==> 0 <= r < (if n > 0 then n else -n)
    ensures a < 0 ==> -(if n > 0 then n else -n) < r <= 0
  {
    var m := if n > 0 then n else -n;
    if a >= 0 then a % m else -((-a) % m)
  }

  /** Sum of a sequence of reals. */
  function Sum(s: seq<real>): real
  {
    if s == [] then 0.0 else s[0] + Sum(s[1..])
  }

  /**
   * A JavaScript array that the game code mutates in place (`push`, `splice`,
   * element writes). Every array is its own object, so two arrays passed to
   * one function are distinct.
   */
  class List<T> {
    var elems: seq<T>

    constructor (init: seq<T>)
      ensures elems == init
    {
      elems := init;
    }
  }

  /** The elements of `s` that satisfy `keep`, in their original order. */
  function Filter<T>(s: seq<T>, keep: T -> bool): (r: seq<T>)
    ensures |r| <= |s|
  {
    if s == [] then [] else (if keep(s[0]) then [s[0]] else []) + Filter(s[1..], keep)
  }

  /** Filtering distributes over concatenation, so relative order is kept. */
  lemma {:induction false} FilterAppend<T>(a: seq<T>, b: seq<T>, keep: T -> bool)
    ensures Filter(a + b, keep) == Filter(a, keep) + Filter(b, keep)
  {
    if a == [] {
      assert a + b == b;
    } else {
      var head := if keep(a[0]) then [a[0]] else [];
      assert (a + b)[0] == a[0];
      assert (a + b)[1..] == a[1..] + b;
      assert Filter(a + b, keep) == head + Filter(a[1..] + b, keep);
      FilterAppend(a[1..], b, keep);
      assert Filter(a, keep) == head + Filter(a[1..], keep);
    }
  }

  /**
   * One step of a back-to-front splice loop over `m`: with the elements at
   * `i` and above already filtered, element `i-1` is either kept in place or
   * spliced out, and either way the elements from `i-1` on are filtered.
   */
  lemma CullBackStep<T>(m: seq<T>, i: nat, keep: T -> bool)
    requires 0 < i <= |m|
    ensures var cur := m[..i] + Filter(m[i..], keep);
      && cur[i - 1] == m[i - 1]
      && (keep(m[i - 1]) ==> cur == m[..i - 1] + Filter(m[i - 1..], keep))
      && (!keep(m[i - 1]) ==> cur[..i - 1] + cur[i..] == m[..i - 1] + Filter(m[i - 1..], keep))
  {
    var cur := m[..i] + Filter(m[i..], keep);
    assert m[i - 1..][0] == m[i - 1] && m[i - 1..][1..] == m[i..];
    assert Filter(m[i - 1..], keep) == (if keep(m[i - 1]) then [m[i - 1]] else []) + Filter(m[i..], keep);
    if keep(m[i - 1]) {
      assert m[..i] == m[..i - 1] + [m[i - 1]];
    } else {
      assert cur[..i - 1] == m[..i - 1];
      assert cur[i..] == Filter(m[i..], keep);
    }
  }

  /** The back-to-front splice loop is done once it reaches the front. */
  lemma CullBackDone<T>(m: seq<T>, keep: T -> bool)
    ensures m[..0] + Filter(m[0..], keep) == Filter(m, keep)
  {
    assert m[..0] == [] && m[0..] == m;
  }

  /** An element survives the filter exactly when it was there and is kept. */
  lemma {:induction false} FilterMembership<T>(s: seq<T>, keep: T -> bool, x: T)
    ensures x in Filter(s, keep) <==> x in s && keep(x)
  {
    if s != [] {
      FilterMembership(s[1..], keep, x);
      assert x in s <==> x == s[0] || x in s[1..];
    }
  }

  /** Each kept value keeps its multiplicity; every other value disappears. */
  lemma {:induction false} FilterCount<T>(s: seq<T>, keep: T -> bool, x: T)
    ensures multiset(Filter(s, keep))[x] == if keep(x) then multiset(s)[x] else 0
  {
    if s != [] {
      FilterCount(s[1..], keep, x);
      assert s == [s[0]] + s[1..];
    }
  }

  /** When every element is kept the filter is the identity. */
  lemma {:induction false} FilterAll<T>(s: seq<T>, keep: T -> bool)
    requires forall i :: 0 <= i < |s| ==> keep(s[i])
    ensures Filter(s, keep) == s
  {
    if s != [] {
      FilterAll(s[1..], keep);
    }
  }

  /** Filtering one more element at the back of a sequence. */
  lemma FilterSnoc<T>(s: seq<T>, x: T, keep: T -> bool)
    ensures Filter(s + [x], keep) == Filter(s, keep) + (if keep(x) then [x] else [])
  {
    FilterAppend(s, [x], keep);
    assert Filter([x], keep) == (if keep(x) then [x] else []) + Filter([x][1..], keep);
  }

  /** Splicing out an element the filter drops does not change the filter. */
  lemma {:induction false} FilterSplice<T>(s: seq<T>, i: nat, keep: T -> bool)
    requires i < |s| && !keep(s[i])
    ensures Filter(s[..i] + s[i + 1..], keep) == Filter(s, keep)
  {
    var a, c := s[..i], s[i + 1..];
    var xc := [s[i]] + c;
    assert s == a + xc;
    assert xc != [] && xc[0] == s[i] && xc[1..] == c;
    assert Filter(xc, keep) == Filter(c, keep);
    FilterAppend(a, xc, keep);
    FilterAppend(a, c, keep);
  }

  /** Filtering by a weaker condition first changes nothing. */
  lemma {:induction false} FilterAbsorb<T>(s: seq<T>, p: T -> bool, q: T -> bool)
    requires forall x :: q(x) ==> p(x)
    ensures Filter(Filter(s, p), q) == Filter(s, q)
  {
    if s != [] {
      FilterAbsorb(s[1..], p, q);
      FilterAppend(if p(s[0]) then [s[0]] else [], Filter(s[1..], p), q);
    }
  }

  /** `Math.sin` and `Math.cos`, which the model does not compute. */
  datatype Trig = Trig(sin: real -> real, cos: real -> real)

  /** `||` and `??` disagree exactly on a present zero. */
  lemma OrNumVersusCoalesce(a: Option<real>, d: real)
    ensures OrNum(a, d) != Coalesce(a, d) <==> a == Some(0.0) && d != 0.0
  {
  }
}
