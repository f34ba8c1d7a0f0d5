/** `src/tracking/ibvs_tracker.py`: image-based visual servoing. From a normalised bounding
    box it computes pan, tilt and zoom velocities with a proportional law on the centring
    error and on the log of the area ratio, saturates them, low-pass filters them and
    truncates them to integers. `math.log` is the parameter `ln`, with no property assumed. */
module IbvsTracker {
  import opened Wrappers
  import opened Numbers

  const DesiredArea := 0.3
  const DeadZone := 0.01
  const MaxPan := 10.0
  const MaxTilt := 10.0
  const MaxZoom := 0.03
  const LambdaPan := 20.0
  const LambdaTilt := 20.0
  const LambdaZoom := 0.0008
  const Alpha := 0.7
  const MinArea := 0.000001
  const MissLimit := 50

  /** An error below the dead-zone threshold counts as none. */
  function DeadBand(error: real): (r: real)
    ensures Abs(error) < DeadZone ==> r == 0.0
    ensures Abs(error) >= DeadZone ==> r == error
  {
    if Abs(error) < DeadZone then 0.0 else error
  }

  /** `max(min(v, limit), -limit)`. */
  function Saturate(v: real, limit: real): (r: real)
    requires limit >= 0.0
    ensures Abs(r) <= limit
    ensures Abs(v) <= limit ==> r == v
  {
    Clamp(v, -limit, limit)
  }

  /** The low-pass filter: SMOOTHING_ALPHA of the previous output, the rest of the new one.
      The result lies between the two. */
  function Smooth(prev: real, v: real): (r: real)
    ensures prev <= v ==> prev <= r <= v
    ensures v <= prev ==> v <= r <= prev
  {
    Alpha * prev + (1.0 - Alpha) * v
  }

  /** Velocities (pan, tilt, zoom). */
  type Velocity = (real, real, real)

  predicate Bounded(v: Velocity)
  {
    Abs(v.0) <= MaxPan && Abs(v.1) <= MaxTilt && Abs(v.2) <= MaxZoom
  }

  /** A box [x1, y1, x2, y2]. */
  datatype Box = Box(x1: real, y1: real, x2: real, y2: real)

  /** The box of a list of four values. */
  function BoxOf(values: seq<real>): Box
    requires |values| == 4
  {
    Box(values[0], values[1], values[2], values[3])
  }

  /** Not degenerate: x1 < x2 and y1 < y2. */
  predicate Proper(b: Box)
  {
    b.x1 < b.x2 && b.y1 < b.y2
  }

  function Area(b: Box): real
  {
    (b.x2 - b.x1) * (b.y2 - b.y1)
  }

  /** The raw, saturated velocities for a box, before smoothing. */
  function Command(b: Box, ln: real -> real): (r: Velocity)
    ensures Bounded(r)
  {
    var errorX := DeadBand((b.x1 + b.x2) / 2.0 - 0.5);
    var errorY := DeadBand((b.y1 + b.y2) / 2.0 - 0.5);
    var errorArea := ln(Area(b) / DesiredArea);
    (Saturate(-LambdaPan * errorX, MaxPan),
     Saturate(-LambdaTilt * errorY, MaxTilt),
     Saturate(-LambdaZoom * errorArea, MaxZoom))
  }

  /** The new smoothed velocities. */
  function Control(prev: Velocity, b: Box, ln: real -> real): Velocity
  {
    var v := Command(b, ln);
    (Smooth(prev.0, v.0), Smooth(prev.1, v.1), Smooth(prev.2, v.2))
  }

  /** The smoothed velocities never leave the saturation limits. */
  lemma ControlBounded(prev: Velocity, b: Box, ln: real -> real)
    requires Bounded(prev)
    ensures Bounded(Control(prev, b, ln))
  {
    var v := Command(b, ln);
    assert Abs(Smooth(prev.0, v.0)) <= MaxPan;
    assert Abs(Smooth(prev.1, v.1)) <= MaxTilt;
    assert Abs(Smooth(prev.2, v.2)) <= MaxZoom;
  }

  /** A box whose centre lies within the dead zone of the image centre commands no pan or
      tilt, so those outputs decay geometrically toward 0. */
  lemma CentredDecays(prev: Velocity, b: Box, ln: real -> real)
    requires Abs((b.x1 + b.x2) / 2.0 - 0.5) < DeadZone && Abs((b.y1 + b.y2) / 2.0 - 0.5) < DeadZone
    ensures Control(prev, b, ln).0 == Alpha * prev.0
    ensures Control(prev, b, ln).1 == Alpha * prev.1
  {
  }

  /** The integer velocities returned: `int()` of the smoothed values. */
  function Output(v: Velocity): (int, int, int)
  {
    (Trunc(v.0), Trunc(v.1), Trunc(v.2))
  }

  /** Bounded velocities come out within [-10, 10] for pan and tilt, and the zoom output,
      bounded by 0.03, always truncates to 0. */
  lemma OutputOfBounded(v: Velocity)
    requires Bounded(v)
    ensures -10 <= Output(v).0 <= 10 && -10 <= Output(v).1 <= 10
    ensures Output(v).2 == 0
  {
  }

  class IBVSTracker {
    var prevPan: real
    var prevTilt: real
    var prevZoom: real
    var missed: int

    function Previous(): Velocity
      reads this
    {
      (prevPan, prevTilt, prevZoom)
    }

    /** The filter state stays within the saturation limits, and the miss count is never
        negative. */
    predicate Valid()
      reads this
    {
      Bounded(Previous()) && missed >= 0
    }

    constructor ()
      ensures Valid() && Previous() == (0.0, 0.0, 0.0) && missed == 0
    {
      prevPan, prevTilt, prevZoom := 0.0, 0.0, 0.0;
      missed := 0;
    }

    /** `update(boxn)`. A missing box or one without four values counts a miss and returns
        (0, 0, 0) once more than 50 misses are counted in a row, None before. A degenerate box
        returns None and changes nothing. A proper box resets the miss count; a box of area at
        most 1e-6 then returns None; any other box advances the filter and returns its
        truncated output. */
    method Update(box: Option<seq<real>>, ln: real -> real) returns (r: Option<(int, int, int)>)
      requires Valid()
      modifies this
      ensures Valid()
      ensures box.None? || |box.value| != 4 ==>
        && missed == old(missed) + 1
        && Previous() == old(Previous())
        && r == (if missed > MissLimit then Some((0, 0, 0)) else None)
      ensures box.Some? && |box.value| == 4 && !Proper(BoxOf(box.value)) ==> r.None? && unchanged(this)
      ensures box.Some? && |box.value| == 4 && Proper(BoxOf(box.value)) ==> missed == 0
      ensures box.Some? && |box.value| == 4 && Proper(BoxOf(box.value)) && Area(BoxOf(box.value)) <= MinArea ==>
        r.None? && Previous() == old(Previous())
      ensures box.Some? && |box.value| == 4 && Proper(BoxOf(box.value)) && Area(BoxOf(box.value)) > MinArea ==>
        && Previous() == Control(old(Previous()), BoxOf(box.value), ln)
        && r == Some(Output(Previous()))
      ensures r.Some? ==> r.value.2 == 0
    {
      if box.None? || |box.value| != 4 {
        missed := missed + 1;
        if missed > MissLimit {
          return Some((0, 0, 0));
        }
        return None;
      }
      var b := BoxOf(box.value);
      if b.x2 <= b.x1 || b.y2 <= b.y1 {
        return None;
      }
      missed := 0;
      r := Steer(b, ln);
    }

    /** The part of `update` after a proper box has reset the miss count. */
    method Steer(b: Box, ln: real -> real) returns (r: Option<(int, int, int)>)
      requires Valid() && Proper(b)
      modifies this
      ensures Valid() && missed == old(missed)
      ensures Area(b) <= MinArea ==> r.None? && Previous() == old(Previous())
      ensures Area(b) > MinArea ==> Previous() == Control(old(Previous()), b, ln) && r == Some(Output(Previous()))
      ensures r.Some? ==> r.value.2 == 0
    {
      var errorX := (b.x1 + b.x2) / 2.0 - 0.5;
      var errorY := (b.y1 + b.y2) / 2.0 - 0.5;
      if Abs(errorX) < DeadZone {
        errorX := 0.0;
      }
      if Abs(errorY) < DeadZone {
        errorY := 0.0;
      }
      assert errorX == DeadBand((b.x1 + b.x2) / 2.0 - 0.5);
      assert errorY == DeadBand((b.y1 + b.y2) / 2.0 - 0.5);
      var area := Area(b);
      if area <= MinArea {
        return None;
      }
      var errorArea := ln(area / DesiredArea);
      var panVel := Saturate(-LambdaPan * errorX, MaxPan);
      var tiltVel := Saturate(-LambdaTilt * errorY, MaxTilt);
      var zoomVel := Saturate(-LambdaZoom * errorArea, MaxZoom);
      assert (panVel, tiltVel, zoomVel) == Command(b, ln);
      ControlBounded(Previous(), b, ln);
      prevPan := Smooth(prevPan, panVel);
      prevTilt := Smooth(prevTilt, tiltVel);
      prevZoom := Smooth(prevZoom, zoomVel);
      OutputOfBounded(Previous());
      r := Some(Output(Previous()));
    }
  }
}
