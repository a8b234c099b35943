/** The animated average-rating stars (src/components/AnimatedAverageStars.tsx): the fill
    each of the five stars animates to for a given average. */
module AverageStars {
  const StarCount := 5

  /** The whole stars of an average: `Math.floor(value)`. */
  function FullStars(value: real): int {
    value.Floor
  }

  /** Whether the star after the whole ones is half filled. */
  predicate HasHalf(value: real) {
    value - FullStars(value) as real >= 0.5
  }

  /** Star `i`'s target fill: full below the whole stars, half at the next one when the
      fraction reaches one half, empty otherwise. */
  function TargetFill(i: int, value: real): (f: real)
    ensures f == 1.0 || f == 0.5 || f == 0.0
    ensures f == 1.0 <==> i < FullStars(value)
    ensures f == 0.5 <==> i == FullStars(value) && HasHalf(value)
  {
    if i < FullStars(value) then 1.0
    else if i == FullStars(value) && HasHalf(value) then 0.5
    else 0.0
  }

  /** The effect's `forEach` over the five animations, collecting each target fill. */
  method TargetFills(value: real) returns (fills: seq<real>)
    ensures |fills| == StarCount
    ensures forall i :: 0 <= i < StarCount ==> fills[i] == TargetFill(i, value)
  {
    fills := [];
    var i := 0;
    while i < StarCount
      invariant 0 <= i <= StarCount && |fills| == i
      invariant forall k :: 0 <= k < i ==> fills[k] == TargetFill(k, value)
    {
      fills := fills + [TargetFill(i, value)];
      i := i + 1;
    }
  }

  /** Fills never grow from left to right, and at most one star is half filled. */
  lemma FillsShape(value: real, i: int, j: int)
    requires i < j
    ensures TargetFill(i, value) >= TargetFill(j, value)
    ensures !(TargetFill(i, value) == 0.5 && TargetFill(j, value) == 0.5)
  {
  }

  function Sum(s: seq<real>): real {
    if s == [] then 0.0 else s[0] + Sum(s[1..])
  }

  lemma SumOfFive(s: seq<real>)
    requires |s| == 5
    ensures Sum(s) == s[0] + s[1] + s[2] + s[3] + s[4]
  {
    var t1 := s[1..];
    var t2 := t1[1..];
    var t3 := t2[1..];
    var t4 := t3[1..];
    assert t4[1..] == [];
    assert Sum(t4) == s[4];
    assert Sum(t3) == s[3] + s[4];
    assert Sum(t2) == s[2] + s[3] + s[4];
    assert Sum(t1) == s[1] + s[2] + s[3] + s[4];
  }

  /** For an average between 0 and 5 the five fills add up to the whole stars, plus one
      half when the fraction reaches it. */
  lemma FillsSum(value: real)
    requires 0.0 <= value <= 5.0
    ensures var fills := seq(StarCount, i => TargetFill(i, value));
            Sum(fills) == FullStars(value) as real + (if HasHalf(value) then 0.5 else 0.0)
  {
    var fills := seq(StarCount, i => TargetFill(i, value));
    SumOfFive(fills);
    var f := FullStars(value);
    assert 0 <= f <= 5;
    assert f == 5 ==> !HasHalf(value);
    if f == 0 {} else if f == 1 {} else if f == 2 {} else if f == 3 {} else if f == 4 {} else {}
  }
}
