/** JavaScript values and arithmetic the game relies on: `undefined`/`null`,
    NaN, `Math.round`, and the mean of a list of numbers. */
module JsValues {

  /** A value that may be `undefined` or `null`. */
  datatype Option<T> = None | Some(value: T)

  /** A JavaScript number that may be NaN. Numbers are exact reals here;
      NaN only ever arises from dividing zero by zero. */
  datatype Num = Finite(value: real) | NaN

  /** Truthiness of a number: 0 and NaN are falsy. */
  predicate Truthy(n: Num) {
    n.Finite? && n.value != 0.0
  }

  /** `Math.round(x)`: the nearest integer, halves rounded up. */
  function Round(x: real): (r: int)
    ensures r as real <= x + 0.5 < r as real + 1.0
  {
    (x + 0.5).Floor
  }

  function Max(a: int, b: int): int { if a >= b then a else b }
  function Min(a: int, b: int): int { if a <= b then a else b }
  function MaxReal(a: real, b: real): real { if a >= b then a else b }
  function MinReal(a: real, b: real): real { if a <= b then a else b }

  function Sum(xs: seq<real>): real
  {
    if xs == [] then 0.0 else Sum(xs[..|xs| - 1]) + xs[|xs| - 1]
  }

  /** `xs.reduce((s, t) => s + t, 0) / xs.length`: NaN for the empty list. */
  function Mean(xs: seq<real>): (m: Num)
    ensures m.Finite? <==> |xs| > 0
  {
    if |xs| == 0 then NaN else Finite(Sum(xs) / |xs| as real)
  }

  /** Rounding commutes with adding an integer. */
  lemma RoundShift(n: int, x: real)
    ensures Round(n as real + x) == n + Round(x)
  {
  }

  /** Rounding is monotone. */
  lemma RoundMonotone(x: real, y: real)
    requires x <= y
    ensures Round(x) <= Round(y)
  {
  }

  /** A value between two integers rounds to a value between them. */
  lemma RoundWithin(x: real, lo: int, hi: int)
    requires lo as real <= x <= hi as real
    ensures lo <= Round(x) <= hi
  {
    RoundMonotone(lo as real, x);
    RoundMonotone(x, hi as real);
  }

  /** A sum of non-negative numbers is non-negative, and positive when one is. */
  lemma {:induction false} SumPositive(xs: seq<real>)
    requires forall i :: 0 <= i < |xs| ==> xs[i] >= 0.0
    ensures Sum(xs) >= 0.0
    ensures (exists i :: 0 <= i < |xs| && xs[i] > 0.0) ==> Sum(xs) > 0.0
  {
    if xs != [] {
      var p := xs[..|xs| - 1];
      assert forall i :: 0 <= i < |p| ==> p[i] == xs[i];
      SumPositive(p);
      if exists i :: 0 <= i < |xs| && xs[i] > 0.0 {
        var i :| 0 <= i < |xs| && xs[i] > 0.0;
        if i < |p| { assert p[i] > 0.0; }
      }
    }
  }

  /** The mean of positive numbers is a positive number. */
  lemma MeanPositive(xs: seq<real>)
    requires |xs| > 0
    requires forall i :: 0 <= i < |xs| ==> xs[i] > 0.0
    ensures Mean(xs).Finite? && Mean(xs).value > 0.0
  {
    SumPositive(xs);
    assert xs[0] > 0.0;
  }

  /** `part / whole` for counts: the share times the whole gives back the
      part, and a share of at most the whole lies in [0, 1], 1 exactly for
      the whole and 0 for nothing. */
  lemma FractionBounds(part: nat, whole: nat)
    requires 0 < whole && part <= whole
    ensures part as real / whole as real * whole as real == part as real
    ensures 0.0 <= part as real / whole as real <= 1.0
    ensures part == whole ==> part as real / whole as real == 1.0
    ensures part == 0 ==> part as real / whole as real == 0.0
  {
    var q, w := part as real / whole as real, whole as real;
    assert q * w == part as real;
    assert (1.0 - q) * w == (whole - part) as real;
  }
}
