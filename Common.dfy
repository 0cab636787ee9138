/**
 * Shared vocabulary of the model: the optional value that Python spells
 * `None`, and the small numeric helpers (`min`, `max`, `abs`, `int()`)
 * that the trading code applies to its floating-point values. Floats are
 * modelled as exact `real`s throughout.
 */
module Common {

  datatype Option<+T> = None | Some(value: T) {
    function GetOr(default: T): T {
      match this
      case Some(v) => v
      case None => default
    }
  }

  function Min(a: real, b: real): (r: real)
    ensures r <= a && r <= b && (r == a || r == b)
  {
    if a <= b then a else b
  }

  function Max(a: real, b: real): (r: real)
    ensures r >= a && r >= b && (r == a || r == b)
  {
    if a >= b then a else b
  }

  function MinInt(a: int, b: int): (r: int)
    ensures r <= a && r <= b && (r == a || r == b)
  {
    if a <= b then a else b
  }

  function MaxInt(a: int, b: int): (r: int)
    ensures r >= a && r >= b && (r == a || r == b)
  {
    if a >= b then a else b
  }

  function Abs(x: real): (r: real)
    ensures r >= 0.0 && (r == x || r == -x)
  {
    if x < 0.0 then -x else x
  }

  /** Python's `max(lo, min(hi, x))`: clamp into [lo, hi] when lo <= hi. */
  function Clamp(x: real, lo: real, hi: real): (r: real)
    ensures lo <= hi ==> lo <= r <= hi
    ensures lo <= x <= hi ==> r == x
  {
    Max(lo, Min(hi, x))
  }

  /** Python's `int(x)` on a float: truncation toward zero. */
  function Trunc(x: real): (r: int)
    ensures x >= 0.0 ==> 0 <= r && r as real <= x < r as real + 1.0
    ensures x < 0.0 ==> r <= 0 && r as real - 1.0 < x <= r as real
  {
    if x >= 0.0 then x.Floor else -((-x).Floor)
  }

  /**
   * Float multiplication of two variable quantities. Such products are
   * written through this function, and their sign and size come from
   * `MulBounds`, so that proofs need no non-linear arithmetic.
   */
  function Mul(a: real, b: real): real
  {
    a * b
  }

  lemma NonNegProduct(a: real, b: real)
    requires 0.0 <= a && 0.0 <= b
    ensures 0.0 <= a * b
  {
  }

  /** A product of non-negative factors is non-negative, and a factor at most 1 does not enlarge the other. */
  lemma MulBounds(a: real, b: real)
    ensures 0.0 <= a && 0.0 <= b ==> 0.0 <= Mul(a, b)
    ensures 0.0 <= a && b <= 1.0 ==> Mul(a, b) <= a
    ensures 0.0 <= b && a <= 1.0 ==> Mul(a, b) <= b
  {
    if 0.0 <= a && 0.0 <= b {
      NonNegProduct(a, b);
    }
    if 0.0 <= a && b <= 1.0 {
      NonNegProduct(a, 1.0 - b);
      assert a * (1.0 - b) == a - a * b;
    }
    if 0.0 <= b && a <= 1.0 {
      NonNegProduct(b, 1.0 - a);
      assert b * (1.0 - a) == b - a * b;
    }
  }

  lemma PosProduct(a: real, b: real)
    requires 0.0 < a && 0.0 < b
    ensures 0.0 < a * b
  {
  }

  /** Dividing by a positive number keeps the sign of the dividend. */
  lemma DivSign(x: real, y: real)
    requires 0.0 < y
    ensures x / y > 0.0 <==> x > 0.0
    ensures x / y < 0.0 <==> x < 0.0
  {
    var q := x / y;
    assert q * y == x;
    if q > 0.0 {
      PosProduct(q, y);
    } else if q < 0.0 {
      PosProduct(-q, y);
    }
  }

  /** `max(0, c * x) == c * max(0, x)` for a non-negative factor `c`. */
  lemma ScaleMax(c: real, x: real)
    requires 0.0 <= c
    ensures Max(0.0, Mul(c, x)) == Mul(c, Max(0.0, x))
  {
    if x <= 0.0 {
      NonNegProduct(c, -x);
      assert c * (-x) == -(c * x);
    } else {
      NonNegProduct(c, x);
    }
  }

  /** A quotient of a part by a positive whole lies in [0, 1]. */
  lemma DivUnit(x: real, n: real)
    requires 0.0 <= x <= n && 0.0 < n
    ensures 0.0 <= x / n <= 1.0
  {
    var q := x / n;
    assert q * n == x;
  }

  /** A quotient of a signed part by a positive whole lies in [-1, 1]. */
  lemma DivSignedUnit(x: real, n: real)
    requires -n <= x <= n && 0.0 < n
    ensures -1.0 <= x / n <= 1.0
  {
    if x >= 0.0 {
      DivUnit(x, n);
    } else {
      DivUnit(-x, n);
      assert -x / n == -(x / n);
    }
  }

  /** Scaling by a non-negative factor preserves order. */
  lemma MulMonotone(a: real, b: real, c: real)
    requires 0.0 <= a && b <= c
    ensures Mul(a, b) <= Mul(a, c)
  {
    NonNegProduct(a, c - b);
    assert a * (c - b) == a * c - a * b;
  }

  lemma QuotientTimesDivisor(x: real, y: real)
    requires y != 0.0
    ensures Mul(x / y, y) == x
  {
  }

  /** Scaling by a non-negative factor on the right preserves order. */
  lemma ScaleLe(a: real, b: real, c: real)
    requires a <= b && 0.0 <= c
    ensures Mul(a, c) <= Mul(b, c)
  {
    NonNegProduct(b - a, c);
    assert (b - a) * c == b * c - a * c;
  }

  /** Scaling by a positive factor on the right preserves strict order. */
  lemma ScaleLt(a: real, b: real, c: real)
    requires a < b && 0.0 < c
    ensures Mul(a, c) < Mul(b, c)
  {
    PosProduct(b - a, c);
    assert (b - a) * c == b * c - a * c;
  }

  /**
   * `int(t / d)` for a non-negative `t` and a positive `d` is the largest
   * whole number of `d`s that fits in `t`.
   */
  lemma TruncQuotientBounds(t: real, d: real)
    requires d > 0.0
    ensures t >= 0.0 ==>
              Mul(Trunc(t / d) as real, d) <= t < Mul(Trunc(t / d) as real + 1.0, d)
  {
    if t >= 0.0 {
      var q := t / d;
      DivSign(t, d);
      QuotientTimesDivisor(t, d);
      var n := Trunc(q) as real;
      ScaleLe(n, q, d);
      ScaleLt(q, n + 1.0, d);
    }
  }

  /** Dividing by a positive number preserves order. */
  lemma DivLe(a: real, b: real, d: real)
    requires a <= b && 0.0 < d
    ensures a / d <= b / d
  {
    DivSign(b - a, d);
    assert (b - a) / d == b / d - a / d;
  }

  lemma MulCommutes(a: real, b: real)
    ensures Mul(a, b) == Mul(b, a)
  {
  }

  lemma MulDistributes(a: real, x: real, y: real)
    ensures Mul(a, x + y) == Mul(a, x) + Mul(a, y)
  {
  }

  /** Scaling by a non-zero number and dividing by it again is the identity. */
  lemma MulDivCancel(a: real, n: real)
    requires n != 0.0
    ensures Mul(a, n) / n == a
  {
  }

  /** A list comprehension `[f(x) for x in s]`. */
  function MapSeq<A, B>(f: A -> B, s: seq<A>): (r: seq<B>)
    ensures |r| == |s|
  {
    if s == [] then [] else [f(s[0])] + MapSeq(f, s[1..])
  }

  lemma {:induction false} MapSeqAt<A, B>(f: A -> B, s: seq<A>, i: int)
    requires 0 <= i < |s|
    ensures MapSeq(f, s)[i] == f(s[i])
  {
    if i > 0 {
      MapSeqAt(f, s[1..], i - 1);
    }
  }

  /** A list comprehension with a condition, `[x for x in s if f(x)]`. */
  function Filter<T(!new)>(f: T -> bool, s: seq<T>): (r: seq<T>)
    ensures |r| <= |s|
    ensures forall x :: x in r <==> x in s && f(x)
  {
    if s == [] then []
    else Filter(f, s[..|s| - 1]) + (if f(s[|s| - 1]) then [s[|s| - 1]] else [])
  }

  /** Python's slice `s[:n]`, where a negative `n` counts from the end. */
  function Take<T>(s: seq<T>, n: int): (r: seq<T>)
    ensures |r| <= |s| && r == s[..|r|]
    ensures 0 <= n <= |s| ==> |r| == n
    ensures n > |s| ==> r == s
    ensures n < 0 ==> |r| == MaxInt(0, |s| + n)
  {
    if n >= 0 then (if n <= |s| then s[..n] else s)
    else if |s| + n >= 0 then s[..|s| + n]
    else []
  }

  /** No element occurs twice: the keys of a dictionary in insertion order. */
  predicate NoDuplicates<T(==)>(s: seq<T>)
  {
    forall i, j :: 0 <= i < j < |s| ==> s[i] != s[j]
  }

  /** A dictionary whose keys are listed once each in `keys` has `|keys|` entries. */
  lemma {:induction false} MapSizeOfKeys<K, V>(m: map<K, V>, keys: seq<K>)
    requires NoDuplicates(keys) && forall k :: k in m <==> k in keys
    ensures |m| == |keys|
  {
    if keys != [] {
      var last := keys[|keys| - 1];
      var init := keys[..|keys| - 1];
      assert forall k :: k in init <==> k in keys && k != last by {
        forall k | k in keys && k != last ensures k in init {
          var i :| 0 <= i < |keys| && keys[i] == k;
          assert i < |keys| - 1;
          assert init[i] == k;
        }
      }
      MapSizeOfKeys(m - {last}, init);
    }
  }
}
