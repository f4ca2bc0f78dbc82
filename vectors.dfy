/**
 * Exact real vector arithmetic used by the K-Means engine: inner products,
 * squared distances, sums and the arg-max / arg-min reductions that the
 * tensor operations perform along one axis.
 */
module Vectors {

  type Vector = seq<real>

  function Dot(a: Vector, b: Vector): real
    requires |a| == |b|
  {
    if |a| == 0 then 0.0 else a[0] * b[0] + Dot(a[1..], b[1..])
  }

  /** ‖a‖², the `a.pow(2).sum(dim=-2)` of one point. */
  function SqNorm(a: Vector): real
  {
    Dot(a, a)
  }

  /** ‖a − b‖², written out coordinate by coordinate. */
  function SqDist(a: Vector, b: Vector): (r: real)
    requires |a| == |b|
    ensures r >= 0.0
  {
    if |a| == 0 then 0.0 else Square(a[0] - b[0]) + SqDist(a[1..], b[1..])
  }

  /** The identity behind `euc_sim`: 2·aᵀb − ‖a‖² − ‖b‖² is −‖a − b‖². */
  lemma {:induction false} PolarIdentity(a: Vector, b: Vector)
    requires |a| == |b|
    ensures 2.0 * Dot(a, b) - SqNorm(a) - SqNorm(b) == -SqDist(a, b)
  {
    if |a| > 0 {
      PolarIdentity(a[1..], b[1..]);
      var x, y := a[0], b[0];
      assert 2.0 * (x * y) - x * x - y * y == -Square(x - y);
    }
  }

  /** Two vectors are at squared distance zero exactly when they are equal. */
  lemma {:induction false} SqDistZeroIff(a: Vector, b: Vector)
    requires |a| == |b|
    ensures SqDist(a, b) == 0.0 <==> a == b
  {
    if |a| > 0 {
      SqDistZeroIff(a[1..], b[1..]);
      assert a == [a[0]] + a[1..];
      assert b == [b[0]] + b[1..];
      if a[0] != b[0] {
        SquarePositive(a[0] - b[0]);
      }
    }
  }

  function Square(x: real): real
  {
    x * x
  }

  lemma SquarePositive(x: real)
    requires x != 0.0
    ensures Square(x) > 0.0
  {
    ProductOfNonZero(x);
    calc {
      Square(x);
    ==
      x * x;
    >
      0.0;
    }
  }

  lemma ProductOfNonZero(x: real)
    requires x != 0.0
    ensures x * x > 0.0
  {
  }

  function Zeros(d: nat): Vector
  {
    seq(d, _ => 0.0)
  }

  function Sum(s: seq<real>): real
  {
    if |s| == 0 then 0.0 else s[0] + Sum(s[1..])
  }

  /** Index of a largest element (`max(dim=-1)` / `argmax`); the first one on ties. */
  function ArgMax(s: seq<real>): (r: nat)
    requires |s| >= 1
    ensures r < |s|
    ensures forall j :: 0 <= j < |s| ==> s[j] <= s[r]
  {
    if |s| == 1 then 0
    else
      var m := ArgMax(s[..|s| - 1]);
      if s[|s| - 1] > s[m] then |s| - 1 else m
  }

  /** Index of a smallest element (`argmin`); the first one on ties. */
  function ArgMin(s: seq<real>): (r: nat)
    requires |s| >= 1
    ensures r < |s|
    ensures forall j :: 0 <= j < |s| ==> s[r] <= s[j]
  {
    if |s| == 1 then 0
    else
      var m := ArgMin(s[..|s| - 1]);
      if s[|s| - 1] < s[m] then |s| - 1 else m
  }

  /** The largest element: the values half of `max(dim=-1)`. */
  function MaxOf(s: seq<real>): (r: real)
    requires |s| >= 1
    ensures r in s
    ensures forall j :: 0 <= j < |s| ==> s[j] <= r
  {
    if |s| == 1 then s[0]
    else
      var m := MaxOf(s[1..]);
      assert forall j :: 1 <= j < |s| ==> s[j] == s[1..][j - 1];
      if s[0] >= m then s[0] else m
  }

  /** The value `max(dim=-1)` returns is the element at the index it returns. */
  lemma MaxOfIsAtArgMax(s: seq<real>)
    requires |s| >= 1
    ensures MaxOf(s) == s[ArgMax(s)]
  {
    var r := ArgMax(s);
    var m := MaxOf(s);
    assert s[r] <= m;
    var j :| 0 <= j < |s| && s[j] == m;
    assert s[j] <= s[r];
  }

  /** The smallest element, defined on its own (independently of ArgMin). */
  function MinOf(s: seq<real>): (r: real)
    requires |s| >= 1
    ensures r in s
    ensures forall j :: 0 <= j < |s| ==> r <= s[j]
  {
    if |s| == 1 then s[0]
    else
      var m := MinOf(s[1..]);
      assert forall j :: 1 <= j < |s| ==> s[j] == s[1..][j - 1];
      if s[0] <= m then s[0] else m
  }

  /** A sum of non-negative terms is non-negative. */
  lemma {:induction false} SumNonNegative(s: seq<real>)
    requires forall j :: 0 <= j < |s| ==> s[j] >= 0.0
    ensures Sum(s) >= 0.0
  {
    if |s| > 0 {
      SumNonNegative(s[1..]);
    }
  }

  /** Negating every term negates the sum. */
  lemma {:induction false} SumNegated(s: seq<real>, t: seq<real>)
    requires |s| == |t|
    requires forall j :: 0 <= j < |s| ==> s[j] == -t[j]
    ensures Sum(s) == -Sum(t)
  {
    if |s| > 0 {
      SumNegated(s[1..], t[1..]);
    }
  }
}
