/**
 * The JavaScript number operations the core uses, on exact rationals and integers:
 * `Math.round`, `Math.ceil`, `Math.floor` and the integer remainder `%`.
 */
module Numeric {

  /** `Math.round(x)`: the nearest integer, halves rounded up. */
  function Round(x: real): int {
    (x + 0.5).Floor
  }

  /** `Math.ceil(x)`. */
  function Ceil(x: real): int {
    -((-x).Floor)
  }

  /** `Math.abs` on integers. */
  function Abs(x: int): nat {
    if x < 0 then -x else x
  }

  /** The `%` operator on integers: truncating, the result has the sign of the dividend. */
  function JsRem(a: int, b: int): (r: int)
    requires b != 0
    ensures Abs(r) < Abs(b)
    ensures a >= 0 ==> r == a % Abs(b)
  {
    var m := Abs(a) % Abs(b);
    if a < 0 then -m else m
  }

  /** `Math.max(...xs, 1)` for a list of naturals. */
  function MaxAtLeastOne(xs: seq<nat>): (m: nat)
    ensures m >= 1
    ensures forall i :: 0 <= i < |xs| ==> xs[i] <= m
    ensures m == 1 || exists i :: 0 <= i < |xs| && xs[i] == m
  {
    if xs == [] then 1
    else
      var rest := MaxAtLeastOne(xs[..|xs| - 1]);
      if xs[|xs| - 1] > rest then xs[|xs| - 1] else rest
  }

  lemma RoundCharacterization(x: real, n: int)
    requires n as real <= x + 0.5 < n as real + 1.0
    ensures Round(x) == n
  {
  }

  /** `Math.round(x)` lies within half a unit of `x`. */
  lemma RoundNear(x: real)
    ensures x - 0.5 < Round(x) as real <= x + 0.5
  {
  }

  /** Subtracting an integer commutes with rounding. */
  lemma RoundShift(x: real, n: int)
    ensures Round(x - n as real) == Round(x) - n
  {
  }

  lemma RoundBounds(x: real, lo: int, hi: int)
    requires lo as real <= x <= hi as real
    ensures lo <= Round(x) <= hi
  {
  }

  lemma CeilBounds(x: real, lo: int, hi: int)
    requires lo as real <= x <= hi as real
    ensures lo <= Ceil(x) <= hi
  {
  }

  /** `Math.ceil` of a positive number is at least one. */
  lemma CeilPositive(x: real)
    requires x > 0.0
    ensures Ceil(x) >= 1
  {
  }

  /** `Math.ceil(n / 7)` on naturals: the least number of weeks that cover `n` days. */
  lemma CeilWeeks(n: nat)
    ensures var c := Ceil(n as real / 7.0);
            c >= 0 && (c - 1) * 7 < n <= c * 7
  {
    var x := n as real / 7.0;
    var c := Ceil(x);
    assert (c - 1) as real < x <= c as real;
    assert ((c - 1) * 7) as real == (c - 1) as real * 7.0;
  }

  /** `Math.ceil((a / m) * k)` for a share `a` of a positive maximum `m`. */
  lemma CeilScale(a: nat, m: nat, k: nat)
    requires m >= 1
    ensures var c := Ceil(a as real / m as real * k as real);
            && (a <= m ==> 0 <= c <= k)
            && (a > 0 && k > 0 ==> c >= 1)
            && (a == 0 ==> c == 0)
            && (a == m ==> c == k)
  {
    var x := a as real / m as real * k as real;
    if a <= m {
      ShareBelowWhole(a, m, k);
      CeilBounds(x, 0, k);
    }
    if a > 0 && k > 0 {
      SharePositive(a, m, k);
      CeilPositive(x);
    }
    if a == m {
      WholeShare(a, m, k);
    }
  }

  lemma SharePositive(a: nat, m: nat, k: nat)
    requires m >= 1 && a > 0 && k > 0
    ensures a as real / m as real * k as real > 0.0
  {
    var f := a as real / m as real;
    assert f * m as real == a as real;
    assert f > 0.0;
  }

  lemma WholeShare(a: nat, m: nat, k: nat)
    requires m >= 1 && a == m
    ensures a as real / m as real * k as real == k as real
  {
    assert a as real / m as real == 1.0;
  }

  /** `Math.round((a / m) * k)` for a share `a` of a positive maximum `m`. */
  lemma RoundScale(a: nat, m: nat, k: nat)
    requires m >= 1
    ensures var r := Round(a as real / m as real * k as real);
            && (a <= m ==> 0 <= r <= k)
            && (a == 0 ==> r == 0)
            && (a == m ==> r == k)
  {
    var x := a as real / m as real * k as real;
    if a <= m {
      ShareBelowWhole(a, m, k);
      assert 0 as real <= x <= k as real;
      RoundBounds(x, 0, k);
    }
    if a == m {
      WholeShare(a, m, k);
    }
  }

  lemma ShareBelowWhole(a: nat, m: nat, k: nat)
    requires 1 <= m && a <= m
    ensures 0.0 <= a as real / m as real * k as real <= k as real
  {
    var f := a as real / m as real;
    assert f <= 1.0;
    assert f * k as real <= 1.0 * k as real;
  }
}
