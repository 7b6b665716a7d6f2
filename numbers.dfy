/** Arithmetic shared by the stacking and value-axis code: running sums over
    sequences of values, and JavaScript numbers that may have become NaN. */
module Numbers {

  /** The sum of `s`, accumulated left to right as a running total. */
  function Sum(s: seq<real>): real
  {
    if |s| == 0 then 0.0 else Sum(s[..|s| - 1]) + s[|s| - 1]
  }

  predicate NonNegative(s: seq<real>)
  {
    forall i :: 0 <= i < |s| ==> 0.0 <= s[i]
  }

  /** Extending a prefix by one element adds that element to its sum. */
  lemma PrefixSumStep(s: seq<real>, i: nat)
    requires i < |s|
    ensures Sum(s[..i + 1]) == Sum(s[..i]) + s[i]
  {
    assert s[..i + 1][..i] == s[..i];
  }

  /** Over non-negative values, prefix sums are non-negative and never decrease. */
  lemma {:induction false} PrefixSumMonotone(s: seq<real>, i: nat, j: nat)
    requires i <= j <= |s|
    requires NonNegative(s)
    ensures 0.0 <= Sum(s[..i]) <= Sum(s[..j])
    decreases j
  {
    if i < j {
      PrefixSumMonotone(s, i, j - 1);
      PrefixSumStep(s, j - 1);
    } else if 0 < i {
      PrefixSumMonotone(s, i - 1, i - 1);
      PrefixSumStep(s, i - 1);
    } else {
      assert s[..0] == [];
    }
  }

  /** A JavaScript number as far as this model needs one: a real value, or NaN,
      which is what arithmetic on `undefined` produces and then propagates. */
  datatype Num = Real(value: real) | NaN

  /** JavaScript `+` on numbers: NaN if either side is NaN. */
  function Plus(a: Num, b: Num): (r: Num)
    ensures r.Real? <==> a.Real? && b.Real?
  {
    if a.Real? && b.Real? then Real(a.value + b.value) else NaN
  }
}
