/** Frame energy (`compute_energy`) and the mean square under `compute_rms`. */
module Energy {
  import opened Wrappers

  /** Σ s² over the frame, summed from the first sample to the last. */
  function Energy(s: seq<real>): (e: real)
    ensures e >= 0.0
  {
    if |s| == 0 then 0.0 else Energy(s[..|s| - 1]) + s[|s| - 1] * s[|s| - 1]
  }

  lemma EnergyEmpty()
    ensures Energy([]) == 0.0
  {
  }

  /** energy(a ++ b) == energy(a) + energy(b). */
  lemma {:induction false} EnergyAppend(a: seq<real>, b: seq<real>)
    ensures Energy(a + b) == Energy(a) + Energy(b)
    decreases |b|
  {
    if |b| == 0 {
      assert a + b == a;
    } else {
      EnergyAppend(a, b[..|b| - 1]);
      assert (a + b)[..|a + b| - 1] == a + b[..|b| - 1];
    }
  }

  /** `compute_rms` before its square root: E / N, and ZeroDivisionError on an empty frame. */
  function MeanSquare(s: seq<real>): (r: Result<real>)
    ensures r.Err? <==> |s| == 0
    ensures r.Err? ==> r.error == ZeroDivisionError
    ensures r.Ok? ==> r.value >= 0.0 && r.value * |s| as real == Energy(s)
  {
    if |s| == 0 then Err(ZeroDivisionError) else Ok(Energy(s) / |s| as real)
  }
}
