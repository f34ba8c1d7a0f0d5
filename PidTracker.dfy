/** `src/tracking/pid_tracker.py`: three PID controllers steer pan, tilt and zoom from a
    normalised bounding box. The controllers come from an external library: each is modelled
    as an opaque state of type `S` and a step function giving the next state and the output
    for an input at a time `now`. The step functions are parameters with no property
    assumed. */
module PidTracker {
  import opened Wrappers

  /** `calculate_distance_from_center(boxn)`: the offset of the image centre (0.5, 0.5) from
      the box centre; unpacking anything but four values raises ValueError. */
  function DistanceFromCenter(boxn: seq<real>): (r: Result<(real, real)>)
    ensures r.Ok? <==> |boxn| == 4
    ensures r.Err? ==> r.error == ValueError
  {
    if |boxn| != 4 then Err(ValueError)
    else
      var x1, y1, x2, y2 := boxn[0], boxn[1], boxn[2], boxn[3];
      var boxCenterX := (x1 + x2) / 2.0;
      var boxCenterY := (y1 + y2) / 2.0;
      Ok((0.5 - boxCenterX, 0.5 - boxCenterY))
  }

  predicate Normalised(boxn: seq<real>)
  {
    forall i :: 0 <= i < |boxn| ==> 0.0 <= boxn[i] <= 1.0
  }

  /** For normalised coordinates both offsets lie in [-0.5, 0.5]; an offset is 0 exactly when
      the box is centred on that axis; mirroring the box about the image centre negates both
      offsets. */
  lemma DistanceProperties(x1: real, y1: real, x2: real, y2: real)
    ensures var (dx, dy) := DistanceFromCenter([x1, y1, x2, y2]).value;
      && (Normalised([x1, y1, x2, y2]) ==> -0.5 <= dx <= 0.5 && -0.5 <= dy <= 0.5)
      && (dx == 0.0 <==> x1 + x2 == 1.0)
      && (dy == 0.0 <==> y1 + y2 == 1.0)
      && DistanceFromCenter([1.0 - x2, 1.0 - y2, 1.0 - x1, 1.0 - y1]).value == (-dx, -dy)
  {
    var b := [x1, y1, x2, y2];
    if Normalised(b) {
      assert 0.0 <= b[0] <= 1.0 && 0.0 <= b[1] <= 1.0 && 0.0 <= b[2] <= 1.0 && 0.0 <= b[3] <= 1.0;
    }
  }

  /** One controller call: the next state and the output for `input` at time `now`. */
  type Step<!S> = (S, real, real) -> (S, real)

  class PIDTracker<S> {
    const panStep: Step<S>
    const tiltStep: Step<S>
    const zoomStep: Step<S>
    var panPid: S
    var tiltPid: S
    var zoomPid: S

    constructor (panStep: Step<S>, tiltStep: Step<S>, zoomStep: Step<S>, pan0: S, tilt0: S, zoom0: S)
      ensures this.panStep == panStep && this.tiltStep == tiltStep && this.zoomStep == zoomStep
      ensures panPid == pan0 && tiltPid == tilt0 && zoomPid == zoom0
    {
      this.panStep, this.tiltStep, this.zoomStep := panStep, tiltStep, zoomStep;
      panPid, tiltPid, zoomPid := pan0, tilt0, zoom0;
    }

    /** `update(boxn)`: None for no box, with the controllers untouched. Otherwise the pan
        controller gets the horizontal offset, the tilt controller the vertical one and the
        zoom controller the box width; the result is (pan, -tilt, zoom). */
    method Update(boxn: Option<seq<real>>, now: real) returns (r: Result<Option<(real, real, real)>>)
      modifies this
      ensures boxn.None? ==> r == Ok(None) && unchanged(this)
      ensures boxn.Some? && |boxn.value| != 4 ==> r == Err(ValueError) && unchanged(this)
      ensures boxn.Some? && |boxn.value| == 4 ==>
        var (dx, dy) := DistanceFromCenter(boxn.value).value;
        var (pan, panOut) := panStep(old(panPid), dx, now);
        var (tilt, tiltOut) := tiltStep(old(tiltPid), dy, now);
        var (zoom, zoomOut) := zoomStep(old(zoomPid), boxn.value[2] - boxn.value[0], now);
        && (panPid, tiltPid, zoomPid) == (pan, tilt, zoom)
        && r == Ok(Some((panOut, -tiltOut, zoomOut)))
    {
      if boxn.None? {
        return Ok(None);
      }
      var distance := DistanceFromCenter(boxn.value);
      if distance.Err? {
        return Err(distance.error);
      }
      var (dx, dy) := distance.value;
      var (pan, panAngle) := panStep(panPid, dx, now);
      panPid := pan;
      var (tilt, tiltAngle) := tiltStep(tiltPid, dy, now);
      tiltPid := tilt;
      var (zoom, zoomLevel) := zoomStep(zoomPid, boxn.value[2] - boxn.value[0], now);
      zoomPid := zoom;
      r := Ok(Some((panAngle, -tiltAngle, zoomLevel)));
    }
  }
}
