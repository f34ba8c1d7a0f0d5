/** `src/ptz_devices/vendors/hikvision/ds_2dy9250iax_a.py`: the DS-2DY9250IAX-A PTZ driver.
    Speed, axis and direction become a continuous pan/tilt command; a logical angle pair
    becomes an absolute position, sent only when the change exceeds the angle tolerance and
    at least one second has passed since the previous move. The camera's HTTP client is
    modelled by the commands it is asked to send (`sent`) and by the outcome of each send
    (`accepted`, the status `reply`), given as parameters; the clock is the `now` parameter. */
module HikvisionPtz {
  import opened Wrappers
  import opened Strings
  import opened Numbers

  const MinSpeed := 1
  const MaxSpeed := 7
  const SpeedMultiplier := 15
  const AngleTolerance := 1.5
  const MinInterval := 1.0

  /** `_normalize_speed`: clamp to [MIN_SPEED, MAX_SPEED], then scale by SPEED_MULTIPLIER. */
  function NormalizeSpeed(speed: int): (r: int)
    ensures MinSpeed * SpeedMultiplier <= r <= MaxSpeed * SpeedMultiplier
    ensures r % SpeedMultiplier == 0
    ensures MinSpeed <= speed <= MaxSpeed ==> r == speed * SpeedMultiplier
    ensures speed < MinSpeed ==> r == MinSpeed * SpeedMultiplier
    ensures speed > MaxSpeed ==> r == MaxSpeed * SpeedMultiplier
  {
    (if speed < MinSpeed then MinSpeed else if speed > MaxSpeed then MaxSpeed else speed) * SpeedMultiplier
  }

  /** VALID_AXES. */
  predicate ValidAxis(axis: string)
  {
    axis == "X" || axis == "Y" || axis == "XY"
  }

  /** `_validate_axis`: the upper-cased axis when it is valid, DEFAULT_AXIS ("XY") otherwise. */
  function ValidateAxis(axis: string): (r: string)
    ensures ValidAxis(r)
    ensures ValidAxis(Upper(axis)) ==> r == Upper(axis)
    ensures !ValidAxis(Upper(axis)) ==> r == "XY"
  {
    var normalized := Upper(axis);
    if ValidAxis(normalized) then normalized else "XY"
  }

  lemma UpperOfValid(axis: string)
    requires ValidAxis(axis)
    ensures Upper(axis) == axis
  {
    assert |Upper(axis)| == |axis|;
  }

  lemma UpperTwice(s: string)
    ensures Upper(Upper(s)) == Upper(s)
  {
    assert |Upper(Upper(s))| == |Upper(s)|;
    forall i | 0 <= i < |s|
      ensures Upper(Upper(s))[i] == Upper(s)[i]
    {
      assert Upper(s)[i] == UpperChar(s[i]);
    }
  }

  /** Validating twice changes nothing, and upper- or lower-case spellings of an axis name
      select the same axis. */
  lemma ValidateAxisIdempotent(axis: string)
    ensures ValidateAxis(ValidateAxis(axis)) == ValidateAxis(axis)
    ensures ValidateAxis(Upper(axis)) == ValidateAxis(axis)
  {
    UpperOfValid(ValidateAxis(axis));
    UpperTwice(axis);
  }

  /** `_calculate_pan_tilt`: the speed, signed by the direction flag, on each axis whose
      letter occurs in `axis`; 0 on the others. */
  function CalculatePanTilt(axis: string, speed: int, panClockwise: bool, tiltClockwise: bool): (r: (int, int))
  {
    var pan := if 'X' in axis then (if panClockwise then speed else -speed) else 0;
    var tilt := if 'Y' in axis then (if tiltClockwise then speed else -speed) else 0;
    (pan, tilt)
  }

  /** On a validated axis with a positive speed: "X" moves only the pan, "Y" only the tilt,
      "XY" both; a moving axis runs at exactly `speed`, in the direction its flag gives. */
  lemma PanTiltOfAxis(axis: string, speed: int, panClockwise: bool, tiltClockwise: bool)
    requires ValidAxis(axis) && speed > 0
    ensures var (pan, tilt) := CalculatePanTilt(axis, speed, panClockwise, tiltClockwise);
      && (pan != 0 <==> axis != "Y")
      && (tilt != 0 <==> axis != "X")
      && (pan != 0 ==> Abs(pan as real) == speed as real && (pan > 0 <==> panClockwise))
      && (tilt != 0 ==> Abs(tilt as real) == speed as real && (tilt > 0 <==> tiltClockwise))
  {
    if axis == "X" {
      assert 'X' in axis && 'Y' !in axis;
    } else if axis == "Y" {
      assert 'X' !in axis && 'Y' in axis;
    } else {
      assert axis[0] == 'X' && axis[1] == 'Y';
    }
  }

  /** `_build_continuous_movement_xml`. */
  function ContinuousXml(pan: int, tilt: int): string
  {
    "<PTZData><pan>" + IntToString(pan) + "</pan><tilt>" + IntToString(tilt) + "</tilt></PTZData>"
  }

  lemma NoBracketInInt(i: int)
    ensures '<' !in IntToString(i)
  {
    var d := NatToString(if i < 0 then -i else i);
    NotInDigits(d, '<');
    if i < 0 {
      assert IntToString(i) == "-" + d;
    }
  }

  lemma IntToStringInjective(a: int, b: int)
    requires IntToString(a) == IntToString(b)
    ensures a == b
  {
    ParseIntOfString(a);
    ParseIntOfString(b);
  }

  /** Two texts that both run up to a first `c` and agree agree on the part before it. */
  lemma SplitAtFirst(a: string, b: string, x: string, y: string, c: char)
    requires c !in a && c !in b && a + [c] + x == b + [c] + y
    ensures a == b && x == y
  {
    assert (a + [c] + x)[|a|] == c && (b + [c] + y)[|b|] == c;
    assert forall i :: 0 <= i < |b| ==> (b + [c] + y)[i] == b[i];
    assert forall i :: 0 <= i < |a| ==> (a + [c] + x)[i] == a[i];
    assert a == (a + [c] + x)[..|a|];
    assert b == (b + [c] + y)[..|b|];
    assert x == (a + [c] + x)[|a| + 1..];
    assert y == (b + [c] + y)[|b| + 1..];
  }

  /** A text made of fixed pieces, each after the first starting with '<', around two fields
      free of '<' determines both fields. */
  lemma TwoFieldsInjective(head: string, mid: string, tail: string, p1: string, t1: string, p2: string, t2: string)
    requires '<' !in p1 && '<' !in p2 && '<' !in t1 && '<' !in t2
    requires |mid| > 0 && mid[0] == '<' && |tail| > 0 && tail[0] == '<'
    requires head + p1 + mid + t1 + tail == head + p2 + mid + t2 + tail
    ensures p1 == p2 && t1 == t2
  {
    var s1 := head + p1 + mid + t1 + tail;
    var s2 := head + p2 + mid + t2 + tail;
    var m := mid[1..];
    var l := tail[1..];
    assert mid == ['<'] + m && tail == ['<'] + l;
    assert s1[|head|..] == p1 + ['<'] + (m + t1 + tail);
    assert s2[|head|..] == p2 + ['<'] + (m + t2 + tail);
    SplitAtFirst(p1, p2, m + t1 + tail, m + t2 + tail, '<');
    assert (m + t1 + tail)[|m|..] == t1 + ['<'] + l;
    assert (m + t2 + tail)[|m|..] == t2 + ['<'] + l;
    SplitAtFirst(t1, t2, l, l, '<');
  }

  /** The continuous command text determines the pan and tilt it carries. */
  lemma ContinuousXmlInjective(pan1: int, tilt1: int, pan2: int, tilt2: int)
    requires ContinuousXml(pan1, tilt1) == ContinuousXml(pan2, tilt2)
    ensures pan1 == pan2 && tilt1 == tilt2
  {
    NoBracketInInt(pan1);
    NoBracketInInt(pan2);
    NoBracketInInt(tilt1);
    NoBracketInInt(tilt2);
    var mid := "</pan><tilt>";
    var tail := "</tilt></PTZData>";
    assert mid[0] == '<' && tail[0] == '<';
    TwoFieldsInjective("<PTZData><pan>", mid, tail, IntToString(pan1), IntToString(tilt1),
                       IntToString(pan2), IntToString(tilt2));
    IntToStringInjective(pan1, pan2);
    IntToStringInjective(tilt1, tilt2);
  }

  /** `_angle_to_azimuth`: a logical angle of 0 to 90 degrees spread over the configured
      azimuth range. */
  function AngleToAzimuth(angle: real, startAzimuth: int, endAzimuth: int): int
  {
    MapAngle(angle, 90.0, startAzimuth, endAzimuth)
  }

  /** For an increasing range, angles from 0 to 90 stay inside it, and a larger angle never
      gives a smaller azimuth. */
  lemma AngleToAzimuthRange(angle: real, other: real, startAzimuth: int, endAzimuth: int)
    requires startAzimuth <= endAzimuth && 0.0 <= angle <= 90.0
    ensures startAzimuth <= AngleToAzimuth(angle, startAzimuth, endAzimuth) <= endAzimuth
    ensures angle <= other ==> AngleToAzimuth(angle, startAzimuth, endAzimuth) <= AngleToAzimuth(other, startAzimuth, endAzimuth)
  {
    MapAngleRange(angle, 90.0, startAzimuth, endAzimuth);
    if angle <= other {
      MapAngleMonotone(angle, other, 90.0, startAzimuth, endAzimuth);
    }
  }

  /** 0 degrees is the start of the range and 90 its end. */
  lemma AngleToAzimuthEnds(startAzimuth: int, endAzimuth: int)
    ensures AngleToAzimuth(0.0, startAzimuth, endAzimuth) == startAzimuth
    ensures AngleToAzimuth(90.0, startAzimuth, endAzimuth) == endAzimuth
  {
    MapAngleEnds(90.0, startAzimuth, endAzimuth);
  }

  /** A command the driver asks the camera to carry out. */
  datatype Command = Absolute(elevation: real, azimuth: real, zoom: real) | Continuous(pan: int, tilt: int)

  /** The `AbsoluteHigh` values of a status reply. */
  datatype StatusReading = StatusReading(zoom: int, elevation: int, azimuth: int)

  /** The continuous command `start_continuous` sends. */
  function ContinuousCommand(speed: int, axis: string, panClockwise: bool, tiltClockwise: bool): Command
  {
    var (pan, tilt) := CalculatePanTilt(ValidateAxis(axis), NormalizeSpeed(speed), panClockwise, tiltClockwise);
    Continuous(pan, tilt)
  }

  /** Whatever the requested speed and axis, a continuous command moves each axis at 0 or at
      a multiple of 15 between 15 and 105, and always moves at least one axis. */
  lemma ContinuousCommandBounds(speed: int, axis: string, panClockwise: bool, tiltClockwise: bool)
    ensures var c := ContinuousCommand(speed, axis, panClockwise, tiltClockwise);
      && c.Continuous?
      && (c.pan != 0 || c.tilt != 0)
      && (c.pan == 0 || (15.0 <= Abs(c.pan as real) <= 105.0 && c.pan % 15 == 0))
      && (c.tilt == 0 || (15.0 <= Abs(c.tilt as real) <= 105.0 && c.tilt % 15 == 0))
  {
    PanTiltOfAxis(ValidateAxis(axis), NormalizeSpeed(speed), panClockwise, tiltClockwise);
  }

  /** `x if x is not None else current`. */
  function OrCurrent(x: Option<real>, current: real): real
  {
    if x.Some? then x.value else current
  }

  /** The (phi, theta) `go_to_angle` moves to, or None when it sends nothing: no angle given,
      less than MIN_INTERVAL since the last move, or both changes below ANGLE_TOLERANCE. */
  function AngleTarget(phi: Option<real>, theta: Option<real>, currentPhi: real, currentTheta: real,
                       lastUpdate: real, now: real): (r: Option<(real, real)>)
    ensures phi.None? && theta.None? ==> r.None?
    ensures now - lastUpdate < MinInterval ==> r.None?
    ensures r.Some? ==> r.value == (OrCurrent(phi, currentPhi), OrCurrent(theta, currentTheta))
    ensures r.Some? <==>
              && (phi.Some? || theta.Some?)
              && now - lastUpdate >= MinInterval
              && (Abs(OrCurrent(phi, currentPhi) - currentPhi) >= AngleTolerance
                  || Abs(OrCurrent(theta, currentTheta) - currentTheta) >= AngleTolerance)
  {
    if phi.None? && theta.None? then None
    else
      var targetPhi := OrCurrent(phi, currentPhi);
      var targetTheta := OrCurrent(theta, currentTheta);
      var small := Abs(targetPhi - currentPhi) < AngleTolerance && Abs(targetTheta - currentTheta) < AngleTolerance;
      if small || now - lastUpdate < MinInterval then None else Some((targetPhi, targetTheta))
  }

  /** Asking again for the angles just reached sends nothing, and so does any request in the
      second after a move. */
  lemma AngleTargetSettles(phi: real, theta: real, lastUpdate: real, now: real, later: real)
    requires later - now < MinInterval
    ensures AngleTarget(Some(phi), Some(theta), phi, theta, lastUpdate, later).None?
    ensures forall p, t, cp, ct :: AngleTarget(p, t, cp, ct, now, later).None?
  {
    assert Abs(phi - phi) < AngleTolerance;
  }

  /** The driver: the configuration fixed by `__init__` and the cached PTZ state. An
      instance whose credentials were incomplete has `initialized` false; its other fields
      are never read by the operations modelled here. */
  class DS2DY9250IAXA {
    const initialized: bool
    const startAzimuth: Option<int>
    const endAzimuth: Option<int>
    var currentElevation: real
    var currentAzimuth: real
    var currentZoom: real
    var currentPhi: real
    var currentTheta: real
    var lastAngleUpdateTime: real
    var status: Option<StatusReading>
    var sent: seq<Command>

    /** The cached (elevation, azimuth, zoom). */
    function Position(): (real, real, real)
      reads this
    {
      (currentElevation, currentAzimuth, currentZoom)
    }

    /** The cached (phi, theta) and the time of the last angle move. */
    function Tracking(): (real, real, real)
      reads this
    {
      (currentPhi, currentTheta, lastAngleUpdateTime)
    }

    /** `__init__`: initialised only with a host, a user name and a password; then the
        position is 0, the angles -50 and no status has been read. */
    constructor (host: string, username: string, password: string, startAzimuth: Option<int>, endAzimuth: Option<int>)
      ensures initialized <==> host != "" && username != "" && password != ""
      ensures this.startAzimuth == startAzimuth && this.endAzimuth == endAzimuth
      ensures Position() == (0.0, 0.0, 0.0) && Tracking() == (-50.0, -50.0, 0.0)
      ensures status.None? && sent == []
    {
      initialized := host != "" && username != "" && password != "";
      this.startAzimuth := startAzimuth;
      this.endAzimuth := endAzimuth;
      currentElevation, currentAzimuth, currentZoom := 0.0, 0.0, 0.0;
      currentPhi, currentTheta, lastAngleUpdateTime := -50.0, -50.0, 0.0;
      status := None;
      sent := [];
    }

    /** `set_absolute_ptz_position`: the command is sent; the cached position changes only
        when the camera accepted it. An uninitialised driver has no client attribute, so the
        call raises AttributeError. */
    method SetAbsolutePtzPosition(elevation: real, azimuth: real, zoom: real, accepted: bool) returns (r: Result<bool>)
      modifies this
      ensures !initialized ==> r == Err(AttributeError) && unchanged(this)
      ensures initialized ==> r == Ok(accepted) && sent == old(sent) + [Absolute(elevation, azimuth, zoom)]
      ensures initialized ==> Position() == if accepted then (elevation, azimuth, zoom) else old(Position())
      ensures Tracking() == old(Tracking()) && status == old(status)
    {
      if !initialized {
        return Err(AttributeError);
      }
      sent := sent + [Absolute(elevation, azimuth, zoom)];
      if accepted {
        currentElevation, currentAzimuth, currentZoom := elevation, azimuth, zoom;
      }
      r := Ok(accepted);
    }

    /** `start_continuous`: the normalised speed on the validated axis, in the requested
        directions. */
    method StartContinuous(speed: int, axis: string, panClockwise: bool, tiltClockwise: bool, accepted: bool)
      returns (r: Result<bool>)
      modifies this
      ensures !initialized ==> r == Err(AttributeError) && unchanged(this)
      ensures initialized ==> r == Ok(accepted)
      ensures initialized ==> sent == old(sent) + [ContinuousCommand(speed, axis, panClockwise, tiltClockwise)]
      ensures Position() == old(Position()) && Tracking() == old(Tracking()) && status == old(status)
    {
      var normalizedSpeed := NormalizeSpeed(speed);
      var validatedAxis := ValidateAxis(axis);
      var (pan, tilt) := CalculatePanTilt(validatedAxis, normalizedSpeed, panClockwise, tiltClockwise);
      if !initialized {
        return Err(AttributeError);
      }
      sent := sent + [Continuous(pan, tilt)];
      r := Ok(accepted);
    }

    /** `_update_status`: a readable reply replaces the cached position and status; an
        unreadable one (None) changes nothing. */
    method UpdateStatus(reply: Option<StatusReading>) returns (r: Result<()>)
      modifies this
      ensures !initialized ==> r == Err(AttributeError) && unchanged(this)
      ensures initialized ==> r == Ok(())
      ensures initialized && reply.Some? ==>
        Position() == (reply.value.elevation as real, reply.value.azimuth as real, reply.value.zoom as real)
        && status == reply
      ensures reply.None? ==> Position() == old(Position()) && status == old(status)
      ensures Tracking() == old(Tracking()) && sent == old(sent)
    {
      if !initialized {
        return Err(AttributeError);
      }
      if reply.Some? {
        currentZoom := reply.value.zoom as real;
        currentElevation := reply.value.elevation as real;
        currentAzimuth := reply.value.azimuth as real;
        status := reply;
      }
      r := Ok(());
    }

    /** `stop_continuous`: a zero-speed continuous command, then a status refresh. */
    method StopContinuous(reply: Option<StatusReading>) returns (r: Result<()>)
      modifies this
      ensures !initialized ==> r == Err(AttributeError) && unchanged(this)
      ensures initialized ==> r == Ok(()) && sent == old(sent) + [Continuous(0, 0)]
      ensures initialized && reply.Some? ==>
        Position() == (reply.value.elevation as real, reply.value.azimuth as real, reply.value.zoom as real)
        && status == reply
      ensures reply.None? ==> Position() == old(Position()) && status == old(status)
      ensures Tracking() == old(Tracking())
    {
      if !initialized {
        return Err(AttributeError);
      }
      sent := sent + [Continuous(0, 0)];
      r := UpdateStatus(reply);
    }

    /** `go_to_angle`: False when uninitialised or when AngleTarget says no move is due.
        Otherwise the new angles and the time are recorded BEFORE the command is sent, so
        they advance even when the camera refuses it; the azimuth comes from phi through the
        configured range (TypeError when the range is missing) and the elevation is theta
        itself. */
    method GoToAngle(phi: Option<real>, theta: Option<real>, now: real, accepted: bool) returns (r: Result<bool>)
      modifies this
      ensures !initialized ==> r == Ok(false) && unchanged(this)
      ensures initialized && AngleTarget(phi, theta, old(currentPhi), old(currentTheta), old(lastAngleUpdateTime), now).None?
        ==> r == Ok(false) && unchanged(this)
      ensures initialized && AngleTarget(phi, theta, old(currentPhi), old(currentTheta), old(lastAngleUpdateTime), now).Some?
        ==> var (targetPhi, targetTheta) := AngleTarget(phi, theta, old(currentPhi), old(currentTheta),
                                                        old(lastAngleUpdateTime), now).value;
            && Tracking() == (targetPhi, targetTheta, now)
            && status == old(status)
            && (startAzimuth.None? || endAzimuth.None? ==>
                  r == Err(TypeError) && sent == old(sent) && Position() == old(Position()))
            && (startAzimuth.Some? && endAzimuth.Some? ==>
                  var azimuth := AngleToAzimuth(targetPhi, startAzimuth.value, endAzimuth.value) as real;
                  && r == Ok(accepted)
                  && sent == old(sent) + [Absolute(targetTheta, azimuth, old(currentZoom))]
                  && Position() == if accepted then (targetTheta, azimuth, old(currentZoom)) else old(Position()))
    {
      if !initialized {
        return Ok(false);
      }
      if phi.None? && theta.None? {
        return Ok(false);
      }
      var dt := now - lastAngleUpdateTime;
      var targetPhi := if phi.Some? then phi.value else currentPhi;
      var targetTheta := if theta.Some? then theta.value else currentTheta;
      var deltaPhi := Abs(targetPhi - currentPhi);
      var deltaTheta := Abs(targetTheta - currentTheta);
      var angleChangeSmall := deltaPhi < AngleTolerance && deltaTheta < AngleTolerance;
      var tooSoon := dt < MinInterval;
      if angleChangeSmall || tooSoon {
        return Ok(false);
      }
      lastAngleUpdateTime := now;
      currentPhi := targetPhi;
      currentTheta := targetTheta;
      if startAzimuth.None? || endAzimuth.None? {
        return Err(TypeError);
      }
      var azimuth := AngleToAzimuth(targetPhi, startAzimuth.value, endAzimuth.value);
      var elevation := targetTheta;
      r := SetAbsolutePtzPosition(elevation, azimuth as real, currentZoom, accepted);
    }
  }
}
