/** Python's numeric built-ins on floats, modelled on exact reals: `abs`, `int()` (truncation
    toward zero), `max(min(x, hi), lo)`, and the linear angle-to-position map
    `math.floor(angle * (end - start) / full + start)` the PTZ drivers use. */
module Numbers {

  function Abs(x: real): (r: real)
    ensures r >= 0.0 && (r == x || r == -x)
  {
    if x < 0.0 then -x else x
  }

  /** `int(x)`: the integer part, rounded toward zero. */
  function Trunc(x: real): (r: int)
    ensures x >= 0.0 ==> r >= 0 && r as real <= x < r as real + 1.0
    ensures x < 0.0 ==> r <= 0 && r as real - 1.0 < x <= r as real
    ensures Abs(x) < 1.0 ==> r == 0
  {
    if x >= 0.0 then x.Floor else -((-x).Floor)
  }

  /** `int()` of a whole number gives it back. */
  lemma TruncWhole(n: int)
    ensures Trunc(n as real) == n
  {
    if n < 0 {
      assert (-(n as real)).Floor == -n;
    }
  }

  /** `max(min(x, hi), lo)`: within [lo, hi] when that range is not empty, and `x` itself
      when it already lies there. */
  function Clamp(x: real, lo: real, hi: real): (r: real)
    ensures lo <= hi ==> lo <= r <= hi
    ensures lo <= x <= hi ==> r == x
    ensures x > hi ==> r == (if hi < lo then lo else hi)
  {
    var m := if x <= hi then x else hi;
    if m >= lo then m else lo
  }

  /** `math.floor(angle * (end - start) / full + start)`. */
  function MapAngle(angle: real, full: real, start: int, end: int): int
    requires full > 0.0
  {
    Ramp(angle, full, start, end).Floor
  }

  /** The linear part of the map, before `math.floor`. */
  function Ramp(angle: real, full: real, start: int, end: int): real
    requires full > 0.0
  {
    angle * (end - start) as real / full + start as real
  }

  /** The map sends 0 to `start` and `full` to `end`. */
  lemma MapAngleEnds(full: real, start: int, end: int)
    requires full > 0.0
    ensures MapAngle(0.0, full, start, end) == start
    ensures MapAngle(full, full, start, end) == end
  {
    assert full * (end - start) as real / full == (end - start) as real;
  }

  lemma FloorMonotone(x: real, y: real)
    requires x <= y
    ensures x.Floor <= y.Floor
  {
    assert x.Floor as real <= x <= y < y.Floor as real + 1.0;
  }

  lemma ScaleMonotone(a: real, b: real, span: real, full: real)
    requires a <= b && span >= 0.0 && full > 0.0
    ensures a * span / full <= b * span / full
  {
    var k := span / full;
    assert k >= 0.0;
    assert a * span / full == a * k;
    assert b * span / full == b * k;
    assert (b - a) * k >= 0.0;
  }

  /** For an increasing range the map never decreases. */
  lemma MapAngleMonotone(a: real, b: real, full: real, start: int, end: int)
    requires full > 0.0 && start <= end && a <= b
    ensures MapAngle(a, full, start, end) <= MapAngle(b, full, start, end)
  {
    ScaleMonotone(a, b, (end - start) as real, full);
    assert Ramp(a, full, start, end) <= Ramp(b, full, start, end);
    FloorMonotone(Ramp(a, full, start, end), Ramp(b, full, start, end));
  }

  /** An angle between 0 and `full` lands between `start` and `end`. */
  lemma MapAngleRange(a: real, full: real, start: int, end: int)
    requires full > 0.0 && start <= end && 0.0 <= a <= full
    ensures start <= MapAngle(a, full, start, end) <= end
  {
    MapAngleEnds(full, start, end);
    MapAngleMonotone(0.0, a, full, start, end);
    MapAngleMonotone(a, full, full, start, end);
  }
}
