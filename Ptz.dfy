/** `src/ptz/ptz.py`: the plain Hikvision PTZ wrapper. It caches the last requested
    elevation, azimuth and zoom and maps a logical angle of 0 to 30 degrees onto azimuths 750
    to 1200. The camera client is modelled by the commands sent to it (`sent`) and by the
    outcome of each request, given as a parameter. */
module Ptz {
  import opened Wrappers
  import opened Numbers

  /** An absolute-position request. */
  datatype Command = Absolute(elevation: real, azimuth: real, zoom: real)

  /** The azimuth `set_angle` computes: floor(angle * (1200 - 750) / 30 + 750). */
  function AngleAzimuth(angle: real): int
  {
    MapAngle(angle, 30.0, 750, 1200)
  }

  /** Angle 0 gives azimuth 750 and angle 30 gives 1200; in between the azimuth stays in
      [750, 1200] and never decreases as the angle grows. */
  lemma AngleAzimuthRange(angle: real, other: real)
    ensures AngleAzimuth(0.0) == 750 && AngleAzimuth(30.0) == 1200
    ensures 0.0 <= angle <= 30.0 ==> 750 <= AngleAzimuth(angle) <= 1200
    ensures angle <= other ==> AngleAzimuth(angle) <= AngleAzimuth(other)
  {
    MapAngleEnds(30.0, 750, 1200);
    if 0.0 <= angle <= 30.0 {
      MapAngleRange(angle, 30.0, 750, 1200);
    }
    if angle <= other {
      MapAngleMonotone(angle, other, 30.0, 750, 1200);
    }
  }

  class PTZ {
    const hasClient: bool
    var azimuth: real
    var elevation: real
    var zoom: real
    var angle: real
    var sent: seq<Command>

    function Position(): (real, real, real)
      reads this
    {
      (elevation, azimuth, zoom)
    }

    /** `__init__`: everything at 0; a client is created unless both the user name and the
        password are empty. */
    constructor (host: string, username: string, password: string)
      ensures hasClient <==> username != "" || password != ""
      ensures Position() == (0.0, 0.0, 0.0) && angle == 0.0 && sent == []
    {
      hasClient := !(username == "" && password == "");
      azimuth, elevation, zoom, angle := 0.0, 0.0, 0.0, 0.0;
      sent := [];
    }

    /** `set_position`: without a client, False and no change. With one, the fields take the
        requested values BEFORE the command is sent, so they keep them even when the camera
        refuses it and False is returned. */
    method SetPosition(elevation: real, azimuth: real, zoom: real, accepted: bool) returns (r: bool)
      modifies this
      ensures !hasClient ==> !r && unchanged(this)
      ensures hasClient ==> r == accepted && Position() == (elevation, azimuth, zoom)
      ensures hasClient ==> sent == old(sent) + [Absolute(elevation, azimuth, zoom)]
      ensures angle == old(angle)
    {
      if !hasClient {
        return false;
      }
      this.elevation, this.azimuth, this.zoom := elevation, azimuth, zoom;
      sent := sent + [Absolute(elevation, azimuth, zoom)];
      r := accepted;
    }

    /** `get_status`: the camera's reply; the empty answer (None here) without a client or
        when the request fails. */
    method GetStatus<S>(reply: Option<S>) returns (r: Option<S>)
      ensures r == if hasClient then reply else None
    {
      if !hasClient {
        return None;
      }
      r := reply;
    }

    /** `set_angle`: the angle is stored, then the current elevation and zoom are re-sent with
        the azimuth the angle maps to. */
    method SetAngle(angle: real, accepted: bool)
      modifies this
      ensures this.angle == angle
      ensures !hasClient ==> Position() == old(Position()) && sent == old(sent)
      ensures hasClient ==> Position() == (old(elevation), AngleAzimuth(angle) as real, old(zoom))
      ensures hasClient ==> sent == old(sent) + [Absolute(old(elevation), AngleAzimuth(angle) as real, old(zoom))]
    {
      this.angle := angle;
      var azimuth := AngleAzimuth(angle);
      var _ := SetPosition(elevation, azimuth as real, zoom, accepted);
    }
  }
}
