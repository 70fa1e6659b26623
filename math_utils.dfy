/** `MathUtils.max(int...)`: the maximum of a non-empty int array. */
module MathUtils {

  /** Java's 32-bit `int`. */
  newtype Int32 = x: int | -0x8000_0000 <= x < 0x8000_0000

  /** `Math.max(a, b)`. */
  function MathMax(a: Int32, b: Int32): Int32
  {
    if a >= b then a else b
  }

  /** The maximum of `s`, folding `MathMax` from the left as the loop does. */
  function MaxOf(s: seq<Int32>): Int32
    requires |s| >= 1
    decreases |s|
  {
    if |s| == 1 then s[0] else MathMax(MaxOf(s[..|s| - 1]), s[|s| - 1])
  }

  lemma {:induction false} MaxOfIsUpperBound(s: seq<Int32>)
    requires |s| >= 1
    ensures forall i :: 0 <= i < |s| ==> s[i] <= MaxOf(s)
    decreases |s|
  {
    if |s| > 1 {
      var init := s[..|s| - 1];
      MaxOfIsUpperBound(init);
      assert forall i :: 0 <= i < |s| - 1 ==> s[i] == init[i];
    }
  }

  lemma {:induction false} MaxOfIsElement(s: seq<Int32>)
    requires |s| >= 1
    ensures MaxOf(s) in s
    decreases |s|
  {
    if |s| > 1 {
      var init := s[..|s| - 1];
      MaxOfIsElement(init);
      assert init <= s;
    }
  }

  /** The loop of `MathUtils.max`; the array is only read (no modifies clause). At
      least one value must be provided: for an empty array `MathUtils.max`'s
      `values[0]` raises an index-out-of-bounds error. */
  method Max(values: array<Int32>) returns (maximum: Int32)
    requires values.Length >= 1
    ensures maximum == MaxOf(values[..])
    ensures forall i :: 0 <= i < values.Length ==> values[i] <= maximum
    ensures exists i :: 0 <= i < values.Length && values[i] == maximum
  {
    maximum := values[0];
    for i := 1 to values.Length
      invariant maximum == MaxOf(values[..i])
    {
      assert values[..i + 1][..i] == values[..i];
      maximum := MathMax(maximum, values[i]);
    }
    assert values[..values.Length] == values[..];
    MaxOfIsUpperBound(values[..]);
    MaxOfIsElement(values[..]);
  }

  /** `max(1, -2, 0)` is `1`. */
  method MaxWithSeveralValues() returns (actual: Int32)
    ensures actual == 1
  {
    var values := new Int32[3];
    values[0], values[1], values[2] := 1, -2, 0;
    actual := Max(values);
    assert values[..] == [1, -2, 0];
  }
}
