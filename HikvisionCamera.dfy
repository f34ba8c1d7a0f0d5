/** `src/devices/camera/vendors/hikvision/ds_2dy9250iax_a.py`: the DS-2DY9250IAX-A driver
    of the camera device layer. It works in logical pan/tilt/zoom units and converts to the
    camera's hardware units (azimuth 1 to 3600, elevation -900 to 400, zoom 10 to 67) with a
    range-mapping helper. That helper (`map_range`) and the BaseVendor ranges, angle
    tolerance and rate-limit interval it relies on are not part of this model: they are
    parameters of the driver, with no properties assumed. */
module HikvisionCamera {
  import opened Wrappers
  import opened Numbers
  import opened Decorators
  import HikvisionPtz

  /** `map_range(x, in_min, in_max, out_min, out_max)`. */
  type MapRange = (real, real, real, real, real) -> real

  /** The BaseVendor constants the driver reads. */
  datatype Limits = Limits(panRange: Range, tiltRange: Range, zoomRange: Range,
                           angleTolerance: real, rateLimitInterval: real)

  const PanHardware := Range(1, 3600)
  const TiltHardware := Range(-900, 400)
  const ZoomHardware := Range(10, 67)

  /** A position in logical units: (pan, tilt, zoom). */
  type Logical = (real, real, int)

  /** A position in hardware units: (azimuth, elevation, zoom). */
  type Hardware = (int, int, int)

  function Forward(m: MapRange, x: real, logical: Range, hardware: Range): real
  {
    m(x, logical.min as real, logical.max as real, hardware.min as real, hardware.max as real)
  }

  function Backward(m: MapRange, x: int, logical: Range, hardware: Range): real
  {
    m(x as real, hardware.min as real, hardware.max as real, logical.min as real, logical.max as real)
  }

  /** `_convert_logical_to_hardware`: the azimuth from the pan, the elevation from the tilt,
      each truncated by `int()`. */
  function LogicalToHardware(limits: Limits, m: MapRange, target: Logical): (r: Hardware)
  {
    (Trunc(Forward(m, target.0, limits.panRange, PanHardware)),
     Trunc(Forward(m, target.1, limits.tiltRange, TiltHardware)),
     Trunc(Forward(m, target.2 as real, limits.zoomRange, ZoomHardware)))
  }

  /** `_convert_hardware_to_logical(elevation, azimuth, zoom)` as written: the pan is mapped
      from the hardware ELEVATION through the pan ranges, and the tilt from the AZIMUTH
      through the tilt ranges. */
  function AsWrittenHardwareToLogical(limits: Limits, m: MapRange, elevation: int, azimuth: int, zoom: int): Logical
  {
    (Backward(m, elevation, limits.panRange, PanHardware),
     Backward(m, azimuth, limits.tiltRange, TiltHardware),
     Trunc(Backward(m, zoom, limits.zoomRange, ZoomHardware)))
  }

  /** The conversion back to logical units as the forward conversion implies it: the pan from
      the azimuth, the tilt from the elevation. */
  function HardwareToLogical(limits: Limits, m: MapRange, elevation: int, azimuth: int, zoom: int): Logical
  {
    (Backward(m, azimuth, limits.panRange, PanHardware),
     Backward(m, elevation, limits.tiltRange, TiltHardware),
     Trunc(Backward(m, zoom, limits.zoomRange, ZoomHardware)))
  }

  /** Linear interpolation between the two ranges: one possible `map_range`, used here only to
      exhibit how the two conversions back differ. */
  function LinearMap(x: real, inMin: real, inMax: real, outMin: real, outMax: real): real
  {
    if inMax == inMin then outMin else (x - inMin) * (outMax - outMin) / (inMax - inMin) + outMin
  }

  lemma LinearMapSame(x: real, lo: real, hi: real)
    requires lo != hi
    ensures LinearMap(x, lo, hi, lo, hi) == x
  {
    assert (x - lo) * (hi - lo) / (hi - lo) == x - lo;
  }

  /** Logical ranges equal to the hardware ones: with a linear `map_range` both conversions
      are then the identity on whole numbers. */
  function SameRanges(tolerance: real, interval: real): Limits
  {
    Limits(PanHardware, TiltHardware, ZoomHardware, tolerance, interval)
  }

  lemma LinearWhole(n: int, r: Range)
    requires r.min != r.max
    ensures Trunc(Forward(LinearMap, n as real, r, r)) == n
    ensures Backward(LinearMap, n, r, r) == n as real
  {
    LinearMapSame(n as real, r.min as real, r.max as real);
    TruncWhole(n);
  }

  /** With a linear map and logical ranges equal to the hardware ranges, a move to pan 1800,
      tilt 0 sends azimuth 1800 and elevation 0; a refresh that reads back exactly those
      values gives, as written, pan 0 and tilt 1800. */
  lemma AsWrittenRefreshSwapsAxes(tolerance: real, interval: real, zoom: int)
    ensures var limits := SameRanges(tolerance, interval);
      var (azimuth, elevation, zoomHw) := LogicalToHardware(limits, LinearMap, (1800.0, 0.0, zoom));
      && azimuth == 1800 && elevation == 0
      && AsWrittenHardwareToLogical(limits, LinearMap, elevation, azimuth, zoomHw).0 == 0.0
      && AsWrittenHardwareToLogical(limits, LinearMap, elevation, azimuth, zoomHw).1 == 1800.0
  {
    LinearWhole(1800, PanHardware);
    LinearWhole(0, TiltHardware);
    LinearWhole(0, PanHardware);
    LinearWhole(1800, TiltHardware);
    LinearWhole(zoom, ZoomHardware);
  }

  /** With the corrected conversion, the same setting reads back every whole-number logical
      position that was sent. */
  lemma RefreshAfterMove(tolerance: real, interval: real, pan: int, tilt: int, zoom: int)
    ensures var limits := SameRanges(tolerance, interval);
      var (azimuth, elevation, zoomHw) := LogicalToHardware(limits, LinearMap, (pan as real, tilt as real, zoom));
      HardwareToLogical(limits, LinearMap, elevation, azimuth, zoomHw) == (pan as real, tilt as real, zoom)
  {
    LinearWhole(pan, PanHardware);
    LinearWhole(tilt, TiltHardware);
    LinearWhole(zoom, ZoomHardware);
  }

  /** The target of `_set_absolute_ptz_position`: each None axis keeps its current value. */
  function AbsoluteTarget(current: Logical, pan: Option<real>, tilt: Option<real>, zoom: Option<int>): Logical
  {
    (if pan.Some? then pan.value else current.0,
     if tilt.Some? then tilt.value else current.1,
     if zoom.Some? then zoom.value else current.2)
  }

  /** The target of `_set_relative_ptz_position`: current plus the offset on each axis that
      has one. */
  function RelativeTarget(current: Logical, pan: Option<real>, tilt: Option<real>, zoom: Option<int>): Logical
  {
    (if pan.Some? then current.0 + pan.value else current.0,
     if tilt.Some? then current.1 + tilt.value else current.1,
     if zoom.Some? then current.2 + zoom.value else current.2)
  }

  /** Whether `_set_absolute_ptz_position` sends a command: the movement is not small (pan and
      tilt within the tolerance and the same zoom) and the rate-limit interval has elapsed. */
  predicate MoveDue(limits: Limits, current: Logical, target: Logical, lastUpdate: real, now: real)
  {
    var small := Abs(target.0 - current.0) < limits.angleTolerance
                 && Abs(target.1 - current.1) < limits.angleTolerance
                 && target.2 == current.2;
    !small && now - lastUpdate >= limits.rateLimitInterval
  }

  /** No axis given, or no offset given, asks for the current position, which is never sent
      under a positive tolerance; a request within the rate-limit interval is never sent; a
      zoom change alone is sent once the interval has elapsed. */
  lemma MoveDueCases(limits: Limits, current: Logical, lastUpdate: real, now: real, zoom: int)
    ensures limits.angleTolerance > 0.0 ==>
      && !MoveDue(limits, current, AbsoluteTarget(current, None, None, None), lastUpdate, now)
      && !MoveDue(limits, current, RelativeTarget(current, None, None, None), lastUpdate, now)
    ensures now - lastUpdate < limits.rateLimitInterval ==>
      forall target :: !MoveDue(limits, current, target, lastUpdate, now)
    ensures now - lastUpdate >= limits.rateLimitInterval && zoom != current.2 ==>
      MoveDue(limits, current, AbsoluteTarget(current, None, None, Some(zoom)), lastUpdate, now)
  {
    assert AbsoluteTarget(current, None, None, None) == current;
    assert RelativeTarget(current, None, None, None) == current;
  }

  /** A relative move by given offsets targets the same position as an absolute move to the
      current values plus those offsets. */
  lemma RelativeIsAbsolute(current: Logical, pan: real, tilt: real, zoom: int)
    ensures RelativeTarget(current, Some(pan), Some(tilt), Some(zoom))
         == AbsoluteTarget(current, Some(current.0 + pan), Some(current.1 + tilt), Some(current.2 + zoom))
    ensures RelativeTarget(current, None, None, None) == current
  {
  }

  /** An absolute command in hardware units. */
  function AbsoluteCommand(hw: Hardware): HikvisionPtz.Command
  {
    HikvisionPtz.Absolute(hw.1 as real, hw.0 as real, hw.2 as real)
  }

  /** `_start_continuous` multiplies the speed by SPEED_MULTIPLIER with no clamping: a moving
      axis runs at exactly fifteen times the requested speed, however large. */
  lemma ContinuousSpeedUnclamped(speed: int, axis: string, panClockwise: bool, tiltClockwise: bool)
    requires HikvisionPtz.ValidAxis(axis) && axis != "Y" && speed > 0
    ensures Abs(HikvisionPtz.CalculatePanTilt(axis, speed * 15, panClockwise, tiltClockwise).0 as real) == (speed * 15) as real
  {
    HikvisionPtz.PanTiltOfAxis(axis, speed * 15, panClockwise, tiltClockwise);
  }

  class DS2DY9250IAXA {
    const initialized: bool
    const hasClient: bool
    const limits: Limits
    const mapRange: MapRange
    var currentPan: real
    var currentTilt: real
    var currentZoom: int
    var currentAzimuth: int
    var currentElevation: int
    var currentZoomHw: int
    var lastAngleUpdateTime: real
    var status: Option<HikvisionPtz.StatusReading>
    var sent: seq<HikvisionPtz.Command>

    /** `is_initialized`. */
    predicate IsInitialized()
    {
      initialized && hasClient
    }

    function Current(): Logical
      reads this
    {
      (currentPan, currentTilt, currentZoom)
    }

    function CurrentHardware(): Hardware
      reads this
    {
      (currentAzimuth, currentElevation, currentZoomHw)
    }

    /** `__init__`: initialised with a host, a user name and a password; the client exists
        only when connecting succeeded (a failure is only logged). Without credentials the
        source returns before setting the position caches, the last update time and the
        status; here they still get their initial values, which no method reads while the
        driver is uninitialised (each returns at once). */
    constructor (name: string, host: string, username: string, password: string,
                 limits: Limits, mapRange: MapRange, connects: bool)
      ensures IsInitialized() <==> host != "" && username != "" && password != "" && connects
      ensures this.limits == limits && this.mapRange == mapRange
      ensures Current() == (0.0, 0.0, 1) && CurrentHardware() == (0, 0, 1) && lastAngleUpdateTime == 0.0
      ensures status.None? && sent == []
    {
      initialized := host != "" && username != "" && password != "";
      hasClient := host != "" && username != "" && password != "" && connects;
      this.limits := limits;
      this.mapRange := mapRange;
      currentPan, currentTilt, currentZoom := 0.0, 0.0, 1;
      currentAzimuth, currentElevation, currentZoomHw := 0, 0, 1;
      lastAngleUpdateTime := 0.0;
      status := None;
      sent := [];
    }

    /** `_set_absolute_ptz_position`: nothing happens unless the driver is initialised and
        MoveDue holds. Then the time is recorded BEFORE sending, and the logical and hardware
        caches change only when the camera accepted the command. */
    method SetAbsolutePtzPosition(pan: Option<real>, tilt: Option<real>, zoom: Option<int>, now: real, accepted: bool)
      returns (r: bool)
      modifies this
      ensures !IsInitialized() ==> !r && unchanged(this)
      ensures IsInitialized() && !MoveDue(limits, old(Current()), AbsoluteTarget(old(Current()), pan, tilt, zoom),
                                          old(lastAngleUpdateTime), now)
        ==> !r && unchanged(this)
      ensures IsInitialized() && MoveDue(limits, old(Current()), AbsoluteTarget(old(Current()), pan, tilt, zoom),
                                         old(lastAngleUpdateTime), now)
        ==> var target := AbsoluteTarget(old(Current()), pan, tilt, zoom);
            var hw := LogicalToHardware(limits, mapRange, target);
            && r == accepted
            && lastAngleUpdateTime == now
            && sent == old(sent) + [AbsoluteCommand(hw)]
            && Current() == (if accepted then target else old(Current()))
            && CurrentHardware() == (if accepted then hw else old(CurrentHardware()))
      ensures status == old(status)
    {
      if !IsInitialized() {
        return false;
      }
      var target := AbsoluteTarget(Current(), pan, tilt, zoom);
      var deltaPan := Abs(target.0 - currentPan);
      var deltaTilt := Abs(target.1 - currentTilt);
      var movementSmall := deltaPan < limits.angleTolerance && deltaTilt < limits.angleTolerance
                           && target.2 == currentZoom;
      var dt := now - lastAngleUpdateTime;
      if movementSmall || dt < limits.rateLimitInterval {
        return false;
      }
      r := SendAbsolute(target, now, accepted);
    }

    /** The part of `_set_absolute_ptz_position` after the gate: the time is recorded, the
        command sent, and both caches updated only when the camera accepted it. */
    method SendAbsolute(target: Logical, now: real, accepted: bool) returns (r: bool)
      modifies this
      ensures var hw := LogicalToHardware(limits, mapRange, target);
        && r == accepted
        && lastAngleUpdateTime == now
        && sent == old(sent) + [AbsoluteCommand(hw)]
        && Current() == (if accepted then target else old(Current()))
        && CurrentHardware() == (if accepted then hw else old(CurrentHardware()))
      ensures status == old(status)
    {
      lastAngleUpdateTime := now;
      var hw := LogicalToHardware(limits, mapRange, target);
      sent := sent + [AbsoluteCommand(hw)];
      if accepted {
        currentPan, currentTilt, currentZoom := target.0, target.1, target.2;
        currentAzimuth, currentElevation, currentZoomHw := hw.0, hw.1, hw.2;
      }
      r := accepted;
    }

    /** `_set_relative_ptz_position`: an absolute move to RelativeTarget. */
    method SetRelativePtzPosition(pan: Option<real>, tilt: Option<real>, zoom: Option<int>, now: real, accepted: bool)
      returns (r: bool)
      modifies this
      ensures !IsInitialized() ==> !r && unchanged(this)
      ensures IsInitialized() && !MoveDue(limits, old(Current()), RelativeTarget(old(Current()), pan, tilt, zoom),
                                          old(lastAngleUpdateTime), now)
        ==> !r && unchanged(this)
      ensures IsInitialized() && MoveDue(limits, old(Current()), RelativeTarget(old(Current()), pan, tilt, zoom),
                                         old(lastAngleUpdateTime), now)
        ==> var target := RelativeTarget(old(Current()), pan, tilt, zoom);
            var hw := LogicalToHardware(limits, mapRange, target);
            && r == accepted
            && lastAngleUpdateTime == now
            && sent == old(sent) + [AbsoluteCommand(hw)]
            && Current() == (if accepted then target else old(Current()))
            && CurrentHardware() == (if accepted then hw else old(CurrentHardware()))
      ensures status == old(status)
    {
      var target := RelativeTarget(Current(), pan, tilt, zoom);
      r := SetAbsolutePtzPosition(Some(target.0), Some(target.1), Some(target.2), now, accepted);
    }

    /** `_start_continuous`: speed times SPEED_MULTIPLIER on the axes named in `axis`, with
        neither clamping nor axis validation. */
    method StartContinuous(speed: int, axis: string, panClockwise: bool, tiltClockwise: bool, accepted: bool)
      returns (r: bool)
      modifies this
      ensures !IsInitialized() ==> !r && unchanged(this)
      ensures IsInitialized() ==> r == accepted
      ensures IsInitialized() ==>
        var (pan, tilt) := HikvisionPtz.CalculatePanTilt(axis, speed * 15, panClockwise, tiltClockwise);
        sent == old(sent) + [HikvisionPtz.Continuous(pan, tilt)]
      ensures Current() == old(Current()) && CurrentHardware() == old(CurrentHardware())
      ensures lastAngleUpdateTime == old(lastAngleUpdateTime) && status == old(status)
    {
      if !IsInitialized() {
        return false;
      }
      var (pan, tilt) := HikvisionPtz.CalculatePanTilt(axis, speed * 15, panClockwise, tiltClockwise);
      sent := sent + [HikvisionPtz.Continuous(pan, tilt)];
      r := accepted;
    }

    /** `_update_status`, corrected: a readable reply sets the hardware cache and, through
        the corrected conversion back (pan from the azimuth, tilt from the elevation, where
        the code as written swaps them; AsWrittenRefreshSwapsAxes), the logical one. */
    method UpdateStatus(reply: Option<HikvisionPtz.StatusReading>)
      modifies this
      ensures !IsInitialized() || reply.None? ==> unchanged(this)
      ensures IsInitialized() && reply.Some? ==>
        var reading := reply.value;
        && CurrentHardware() == (reading.azimuth, reading.elevation, reading.zoom)
        && Current() == HardwareToLogical(limits, mapRange, reading.elevation, reading.azimuth, reading.zoom)
        && status == reply
      ensures lastAngleUpdateTime == old(lastAngleUpdateTime) && sent == old(sent)
    {
      if !IsInitialized() || reply.None? {
        return;
      }
      currentAzimuth := reply.value.azimuth;
      currentElevation := reply.value.elevation;
      currentZoomHw := reply.value.zoom;
      var (pan, tilt, zoom) := HardwareToLogical(limits, mapRange, currentElevation, currentAzimuth, currentZoomHw);
      currentPan, currentTilt, currentZoom := pan, tilt, zoom;
      status := reply;
    }

    /** `stop_continuous`, corrected as UpdateStatus is: a zero-speed command, then a status
        refresh through the corrected conversion back. */
    method StopContinuous(reply: Option<HikvisionPtz.StatusReading>)
      modifies this
      ensures !IsInitialized() ==> unchanged(this)
      ensures IsInitialized() ==> sent == old(sent) + [HikvisionPtz.Continuous(0, 0)]
      ensures IsInitialized() && reply.Some? ==>
        var reading := reply.value;
        && CurrentHardware() == (reading.azimuth, reading.elevation, reading.zoom)
        && Current() == HardwareToLogical(limits, mapRange, reading.elevation, reading.azimuth, reading.zoom)
        && status == reply
      ensures reply.None? ==> Current() == old(Current()) && CurrentHardware() == old(CurrentHardware())
      ensures lastAngleUpdateTime == old(lastAngleUpdateTime)
    {
      if IsInitialized() {
        sent := sent + [HikvisionPtz.Continuous(0, 0)];
      }
      UpdateStatus(reply);
    }
  }
}
