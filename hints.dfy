/** The interval that `getHint` in day3/advanced-script.js reports. */
module Hints {

  /** A closed interval [lo, hi] reported to the player. */
  datatype Interval = Interval(lo: int, hi: int)

  function Max(a: int, b: int): int { if a >= b then a else b }

  function Min(a: int, b: int): int { if a <= b then a else b }

  /** `hintRange`: a quarter of the range's width, rounded down, but at least 10.
      Dafny's `/` by a positive divisor rounds down like `Math.floor`. */
  function HintRange(minRange: int, maxRange: int): (w: int)
    ensures w >= 10
    ensures 4 * w >= maxRange - minRange - 3
  {
    Max((maxRange - minRange) / 4, 10)
  }

  /** The hint interval, computed as the script does, with the two corrections
      that widen a bound lying within 3 of the target to 5 from the target.
      Its contract states that the corrections never take effect, and that the
      interval lies within the range and contains the target. */
  function Hint(minRange: int, maxRange: int, target: int): (r: Interval)
    ensures r.lo == Max(minRange, target - HintRange(minRange, maxRange))
    ensures r.hi == Min(maxRange, target + HintRange(minRange, maxRange))
    ensures minRange <= target <= maxRange ==> minRange <= r.lo <= target <= r.hi <= maxRange
  {
    var hintRange := HintRange(minRange, maxRange);
    var newMin := Max(minRange, target - hintRange);
    var newMax := Min(maxRange, target + hintRange);
    var newMin' := if target - newMin < 3 then Max(minRange, target - 5) else newMin;
    var newMax' := if newMax - target < 3 then Min(maxRange, target + 5) else newMax;
    Interval(newMin', newMax')
  }

  /** The interval is at least as wide as the range or 10, whichever is
      smaller; for every row of the difficulty table that is 10. */
  lemma HintWidth(minRange: int, maxRange: int, target: int)
    requires minRange <= target <= maxRange
    ensures Hint(minRange, maxRange, target).hi - Hint(minRange, maxRange, target).lo
            >= Min(maxRange - minRange, 10)
  {
  }
}
