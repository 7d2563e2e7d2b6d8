/**
 Angle windows that repeat every 360 degrees (schedule/schedule_calculator.cpp),
 with doubles read as reals. The reference notion is the unbounded one: some integer
 number of turns brings the window onto the value or the segment.
 */
module PeriodicWindow {

  const CIRCLE := 360.0
  const EPSILON := 0.000000001

  function Min(a: real, b: real): real { if b < a then b else a }

  function Max(a: real, b: real): real { if a < b then b else a }

  /** The remainder of C's fmod by one turn: it has the sign of x. */
  function FMod(x: real): (r: real)
    ensures -CIRCLE < r < CIRCLE
    ensures x >= 0.0 ==> 0.0 <= r
    ensures x <= 0.0 ==> r <= 0.0
  {
    if x >= 0.0 then
      x - CIRCLE * (x / CIRCLE).Floor as real
    else
      x + CIRCLE * (-x / CIRCLE).Floor as real
  }

  function Turns(k: int): real { CIRCLE * k as real }

  /** x and y differ by a whole number of turns. */
  ghost predicate SameAngle(x: real, y: real) {
    exists k: int :: x - y == Turns(k)
  }

  lemma FModSameAngle(x: real)
    ensures SameAngle(x, FMod(x))
  {
    if x >= 0.0 {
      var k := (x / CIRCLE).Floor;
      assert x - FMod(x) == Turns(k);
    } else {
      var k := -(-x / CIRCLE).Floor;
      assert x - FMod(x) == Turns(k);
    }
  }

  lemma SameAngleSymmetric(x: real, y: real)
    requires SameAngle(x, y)
    ensures SameAngle(y, x)
  {
    var k: int :| x - y == Turns(k);
    assert y - x == Turns(-k);
  }

  lemma SameAngleShift(x: real, y: real, k: int)
    requires SameAngle(x, y)
    ensures SameAngle(x + Turns(k), y)
  {
    var j: int :| x - y == Turns(j);
    assert x + Turns(k) - y == Turns(j + k);
  }

  function NormalizeAngle360(angle: real): (r: real)
    ensures 0.0 <= r < CIRCLE
  {
    var normalized := FMod(angle);
    if normalized < 0.0 then normalized + CIRCLE else normalized
  }

  lemma NormalizeSameAngle(angle: real)
    ensures SameAngle(NormalizeAngle360(angle), angle)
  {
    FModSameAngle(angle);
    SameAngleSymmetric(angle, FMod(angle));
    SameAngleShift(FMod(angle), angle, 0);
    SameAngleShift(FMod(angle), angle, 1);
  }

  function UnwrapAngle(previousUnwrapped: real, currentWrapped: real): real {
    var delta := currentWrapped - NormalizeAngle360(previousUnwrapped);
    previousUnwrapped +
    if delta > 180.0 then delta - CIRCLE else if delta < -180.0 then delta + CIRCLE else delta
  }

  /** Unwrapping follows the sampled angle, and a sample in [0, 360) is reached by at most half a turn. */
  lemma UnwrapFollows(previous: real, current: real)
    ensures SameAngle(UnwrapAngle(previous, current), current)
    ensures 0.0 <= current < CIRCLE ==> -180.0 <= UnwrapAngle(previous, current) - previous <= 180.0
  {
    NormalizeSameAngle(previous);
    SameAngleSymmetric(NormalizeAngle360(previous), previous);
    var k: int :| previous - NormalizeAngle360(previous) == Turns(k);
    assert SameAngle(current, current) by {
      assert current - current == Turns(0);
    }
    SameAngleShift(current, current, k - 1);
    SameAngleShift(current, current, k);
    SameAngleShift(current, current, k + 1);
  }

  /** Some turn of the window [center - tolerance, center + tolerance] holds the value. */
  ghost predicate InWindow(value: real, center: real, tolerance: real) {
    exists k: int :: OnTurn(value, value, center, tolerance, k)
  }

  /** The k-th turn of the window, widened by epsilon, meets the interval [lo, hi]. */
  predicate OnTurn(lo: real, hi: real, center: real, tolerance: real, k: int) {
    hi >= center - tolerance + CIRCLE * k as real - EPSILON &&
    lo <= center + tolerance + CIRCLE * k as real + EPSILON
  }

  /** Some turn of the window meets the segment between a and b. */
  ghost predicate MeetsWindow(a: real, b: real, center: real, tolerance: real) {
    exists k: int :: OnTurn(Min(a, b), Max(a, b), center, tolerance, k)
  }

  predicate ValueWithinPeriodicWindow(value: real, center: real, tolerance: real) {
    var distance := if value < center then center - value else value - center;
    var wrapped := FMod(distance);
    Min(wrapped, CIRCLE - wrapped) <= tolerance + EPSILON
  }

  /** Circular distance by one fmod decides membership in any of the infinitely many turns. */
  lemma ValueWindowExact(value: real, center: real, tolerance: real)
    ensures ValueWithinPeriodicWindow(value, center, tolerance) <==> InWindow(value, center, tolerance)
  {
    var distance := if value < center then center - value else value - center;
    var wrapped := FMod(distance);
    var n := (distance / CIRCLE).Floor;
    assert distance == wrapped + CIRCLE * n as real;
    if ValueWithinPeriodicWindow(value, center, tolerance) {
      var turns := if wrapped <= CIRCLE - wrapped then n else n + 1;
      assert OnTurn(value, value, center, tolerance, if value < center then -turns else turns);
    }
    forall k: int | OnTurn(value, value, center, tolerance, k)
      ensures ValueWithinPeriodicWindow(value, center, tolerance)
    {
      var turns := if value < center then -k else k;
      if turns <= n {
        assert CIRCLE * turns as real <= CIRCLE * n as real;
      } else {
        assert CIRCLE * turns as real >= CIRCLE * (n + 1) as real;
      }
    }
  }

  /** Membership in the periodic window depends on the angle only. */
  lemma WindowIsPeriodic(x: real, y: real, center: real, tolerance: real)
    requires SameAngle(x, y)
    ensures InWindow(x, center, tolerance) <==> InWindow(y, center, tolerance)
  {
    var j: int :| x - y == Turns(j);
    forall k: int | OnTurn(x, x, center, tolerance, k)
      ensures InWindow(y, center, tolerance)
    {
      assert OnTurn(y, y, center, tolerance, k - j);
    }
    forall k: int | OnTurn(y, y, center, tolerance, k)
      ensures InWindow(x, center, tolerance)
    {
      assert OnTurn(x, x, center, tolerance, k + j);
    }
  }

  predicate SegmentIntersectsRange(a: real, b: real, minValue: real, maxValue: real) {
    Max(a, b) >= minValue - EPSILON && Min(a, b) <= maxValue + EPSILON
  }

  function Ceiling(x: real): int { -((-x).Floor) }

  /** Turns outside the searched range cannot meet the segment. */
  lemma FarTurnsMiss(lo: real, hi: real, center: real, tolerance: real, k: int)
    requires OnTurn(lo, hi, center, tolerance, k)
    ensures ((lo - (center + tolerance)) / CIRCLE).Floor - 1 <= k
    ensures k <= Ceiling((hi - (center - tolerance)) / CIRCLE) + 1
  {
    var low := (lo - (center + tolerance)) / CIRCLE;
    var high := (hi - (center - tolerance)) / CIRCLE;
    assert low - 1.0 <= k as real <= high + 1.0;
  }

  /** The finite loop over periods decides the unbounded question. */
  method SegmentIntersectsPeriodicWindow(a: real, b: real, center: real, tolerance: real)
    returns (r: bool)
    ensures r <==> MeetsWindow(a, b, center, tolerance)
  {
    var lo, hi := Min(a, b), Max(a, b);
    var firstPeriod := ((lo - (center + tolerance)) / CIRCLE).Floor - 1;
    var lastPeriod := Ceiling((hi - (center - tolerance)) / CIRCLE) + 1;
    var period := firstPeriod;
    while period <= lastPeriod
      invariant firstPeriod <= period
      invariant forall k: int :: firstPeriod <= k < period ==> !OnTurn(lo, hi, center, tolerance, k)
    {
      var shift := period as real * CIRCLE;
      if SegmentIntersectsRange(lo, hi, center - tolerance + shift, center + tolerance + shift) {
        assert OnTurn(lo, hi, center, tolerance, period);
        return true;
      }
      period := period + 1;
    }
    forall k: int | OnTurn(lo, hi, center, tolerance, k)
      ensures false
    {
      FarTurnsMiss(lo, hi, center, tolerance, k);
    }
    return false;
  }
}
