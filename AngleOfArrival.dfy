/** `AngleOfArrivalEstimator`: channel k of N microphones faces bearing k·coverage/N; a
    bearing is the direction of the energy-weighted sum of the channel unit vectors, and
    successive bearings are smoothed along the shortest arc. cos, sin and atan2 are
    parameters of the model. */
module AngleOfArrival {
  import opened Wrappers

  const DefaultCoverage: real := 360.0
  const DefaultSmoothing: real := 0.8
  /** Below this total energy the frame is silent. */
  const Silence: real := 0.00000001

  /** Python's float `x % 360`: the remainder takes the sign of the modulus. */
  function Mod360(x: real): (r: real)
    ensures 0.0 <= r < 360.0
  {
    x - 360.0 * (x / 360.0).Floor as real
  }

  lemma Mod360Shift(x: real, k: int)
    ensures Mod360(x + 360.0 * k as real) == Mod360(x)
  {
    assert (x + 360.0 * k as real) / 360.0 == x / 360.0 + k as real;
    assert ((x / 360.0) + k as real).Floor == (x / 360.0).Floor + k;
  }

  lemma Mod360OfRange(x: real)
    requires 0.0 <= x < 360.0
    ensures Mod360(x) == x
  {
    assert (x / 360.0).Floor == 0;
  }

  /** `np.linspace(0, coverage, n, endpoint=False)`. */
  function Bearings(n: nat, coverage: real): (b: seq<real>)
    ensures |b| == n
  {
    if n == 0 then [] else seq(n, k => k as real * (coverage / n as real))
  }

  /** The bearings start at 0, climb in equal steps and stop short of the coverage. */
  lemma BearingsSpaced(n: nat, coverage: real)
    requires n > 0 && coverage > 0.0
    ensures Bearings(n, coverage)[0] == 0.0
    ensures forall k :: 0 <= k < n ==> 0.0 <= Bearings(n, coverage)[k] < coverage
    ensures forall k :: 0 <= k < n - 1 ==>
      Bearings(n, coverage)[k + 1] - Bearings(n, coverage)[k] == coverage / n as real
  {
    var step := coverage / n as real;
    assert step * n as real == coverage;
    assert step > 0.0;
    forall k | 0 <= k < n ensures 0.0 <= Bearings(n, coverage)[k] < coverage {
      assert k as real * step <= (n - 1) as real * step;
      assert (n - 1) as real * step == coverage - step;
    }
  }

  function Sum(s: seq<real>): real
  {
    if |s| == 0 then 0.0 else Sum(s[..|s| - 1]) + s[|s| - 1]
  }

  /** Each energy over the total. */
  function Weights(e: seq<real>): (w: seq<real>)
    requires Sum(e) != 0.0
    ensures |w| == |e|
  {
    seq(|e|, k requires 0 <= k < |e| => e[k] / Sum(e))
  }

  lemma {:induction false} SumDivided(e: seq<real>, t: real)
    requires t != 0.0
    ensures Sum(seq(|e|, k requires 0 <= k < |e| => e[k] / t)) == Sum(e) / t
    decreases |e|
  {
    var d := seq(|e|, k requires 0 <= k < |e| => e[k] / t);
    if |e| > 0 {
      var e' := e[..|e| - 1];
      SumDivided(e', t);
      assert d[..|d| - 1] == seq(|e'|, k requires 0 <= k < |e'| => e'[k] / t);
      assert Sum(e') / t + e[|e| - 1] / t == (Sum(e') + e[|e| - 1]) / t;
    }
  }

  /** The weights sum to one. */
  lemma WeightsSumToOne(e: seq<real>)
    requires Sum(e) != 0.0
    ensures Sum(Weights(e)) == 1.0
  {
    var t := Sum(e);
    var d := seq(|e|, k requires 0 <= k < |e| => e[k] / t);
    SumDivided(e, t);
    assert Weights(e) == d;
    assert t / t == 1.0;
  }

  /** Σ w[k]·v[k]. */
  function Dot(w: seq<real>, v: seq<real>): real
    requires |w| == |v|
  {
    if |w| == 0 then 0.0 else Dot(w[..|w| - 1], v[..|v| - 1]) + w[|w| - 1] * v[|v| - 1]
  }

  function Map(f: real -> real, s: seq<real>): (r: seq<real>)
    ensures |r| == |s|
  {
    seq(|s|, k requires 0 <= k < |s| => f(s[k]))
  }

  /** The unsmoothed bearing, in degrees within [0, 360). `cosDeg` and `sinDeg` take degrees;
      `atan2Deg(y, x)` is atan2 in degrees. */
  function RawBearing(e: seq<real>, bearings: seq<real>, cosDeg: real -> real, sinDeg: real -> real,
                      atan2Deg: (real, real) -> real): (theta: real)
    requires |e| == |bearings| && Sum(e) != 0.0
    ensures 0.0 <= theta < 360.0
  {
    var w := Weights(e);
    Mod360(atan2Deg(Dot(w, Map(sinDeg, bearings)), Dot(w, Map(cosDeg, bearings))))
  }

  /** The shortest signed arc from `prev` to `raw`: ((raw - prev + 540) % 360) - 180. */
  function AngleDiff(raw: real, prev: real): (d: real)
    ensures -180.0 <= d < 180.0
  {
    Mod360(raw - prev + 540.0) - 180.0
  }

  /** Walking the arc from `prev` lands on `raw`, modulo a whole turn. */
  lemma AngleDiffLands(raw: real, prev: real)
    ensures Mod360(prev + AngleDiff(raw, prev)) == Mod360(raw)
  {
    var f := ((raw - prev + 540.0) / 360.0).Floor;
    assert prev + AngleDiff(raw, prev) == raw + 360.0 * (1 - f) as real;
    Mod360Shift(raw, 1 - f);
  }

  /** `(prev + alpha * d) % 360`. */
  function Smooth(prev: real, raw: real, alpha: real): (theta: real)
    ensures 0.0 <= theta < 360.0
  {
    Mod360(prev + alpha * AngleDiff(raw, prev))
  }

  /** With alpha = 1 the smoothed bearing is the new raw bearing; with alpha = 0 it stays put. */
  lemma SmoothExtremes(prev: real, raw: real)
    requires 0.0 <= prev < 360.0 && 0.0 <= raw < 360.0
    ensures Smooth(prev, raw, 1.0) == raw
    ensures Smooth(prev, raw, 0.0) == prev
  {
    AngleDiffLands(raw, prev);
    Mod360OfRange(raw);
    Mod360OfRange(prev);
  }

  /** The stored bearing after a non-silent frame: the raw bearing on the first one. */
  function NextTheta(prev: Option<real>, raw: real, alpha: real): real
  {
    if prev.None? then raw else Smooth(prev.value, raw, alpha)
  }

  class AngleOfArrivalEstimator {
    const nbChannels: nat
    const angleCoverage: real
    const smoothing: real
    const anglesDeg: seq<real>
    var thetaSmooth: Option<real>

    /** A stored bearing lies in [0, 360). */
    ghost predicate Valid()
      reads this
    {
      |anglesDeg| == nbChannels && (thetaSmooth.Some? ==> 0.0 <= thetaSmooth.value < 360.0)
    }

    constructor (nbChannels: nat, angleCoverage: real, smoothing: real)
      ensures Valid()
      ensures this.nbChannels == nbChannels && this.angleCoverage == angleCoverage
      ensures this.smoothing == smoothing
      ensures anglesDeg == Bearings(nbChannels, angleCoverage) && thetaSmooth == None
    {
      this.nbChannels := nbChannels;
      this.angleCoverage := angleCoverage;
      this.smoothing := smoothing;
      this.anglesDeg := Bearings(nbChannels, angleCoverage);
      this.thetaSmooth := None;
    }

    /** `estimate`: a silent frame returns the stored bearing untouched; otherwise the raw
        bearing is stored (first frame) or blended in, and the stored bearing is returned. */
    method Estimate(energies: seq<real>, cosDeg: real -> real, sinDeg: real -> real,
                    atan2Deg: (real, real) -> real) returns (r: Option<real>)
      requires Valid() && |energies| == nbChannels
      modifies this
      ensures Valid() && r == thetaSmooth
      ensures Sum(energies) < Silence ==> thetaSmooth == old(thetaSmooth)
      ensures Sum(energies) >= Silence ==>
        thetaSmooth == Some(NextTheta(old(thetaSmooth),
          RawBearing(energies, anglesDeg, cosDeg, sinDeg, atan2Deg), smoothing))
    {
      if Sum(energies) < Silence {
        return thetaSmooth;
      }
      var thetaEst := RawBearing(energies, anglesDeg, cosDeg, sinDeg, atan2Deg);
      if thetaSmooth.None? {
        thetaSmooth := Some(thetaEst);
      } else {
        thetaSmooth := Some(Smooth(thetaSmooth.value, thetaEst, smoothing));
      }
      return thetaSmooth;
    }
  }
}
