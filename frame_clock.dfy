/**
  The per-frame `tick` of src/script.js, as far as it keeps state: the time
  since the previous frame and the terrain material's `uTime` uniform. The
  clock itself is an input (the elapsed time a tick reads).
 */
module FrameClock {

  /** The terrain material's uniforms that hold numbers (the texture
      uniform is not modelled). */
  class TerrainUniforms {
    var uElevation: real
    var uTextureFrequency: real
    var uTime: real

    constructor ()
      ensures uElevation == 2.0 && uTextureFrequency == 10.0 && uTime == 0.0
    {
      uElevation := 2.0;
      uTextureFrequency := 10.0;
      uTime := 0.0;
    }
  }

  /** The state `tick` keeps between frames. */
  class FrameDriver {
    var lastElapsedTime: real
    const uniforms: TerrainUniforms

    /** The time uniform always shows the elapsed time of the last tick. */
    ghost predicate Valid()
      reads this, uniforms
    {
      uniforms.uTime == lastElapsedTime
    }

    constructor (uniforms: TerrainUniforms)
      requires uniforms.uTime == 0.0
      ensures Valid() && this.uniforms == uniforms && lastElapsedTime == 0.0
    {
      this.uniforms := uniforms;
      lastElapsedTime := 0.0;
    }

    /** One frame: the time since the previous frame is computed, then the
        elapsed time is recorded and written into `uTime`; the other
        uniforms are untouched. */
    method Tick(elapsedTime: real) returns (deltaTime: real)
      requires Valid()
      modifies this, uniforms
      ensures Valid()
      ensures deltaTime == elapsedTime - old(lastElapsedTime)
      ensures lastElapsedTime == elapsedTime && uniforms.uTime == elapsedTime
      ensures uniforms.uElevation == old(uniforms.uElevation)
      ensures uniforms.uTextureFrequency == old(uniforms.uTextureFrequency)
    {
      deltaTime := elapsedTime - lastElapsedTime;
      lastElapsedTime := elapsedTime;

      // Update terrain
      uniforms.uTime := elapsedTime;
    }
  }

  /** The deltas reported by successive ticks reading the elapsed times
      `times`, when the previous tick had recorded `last`. */
  function Deltas(last: real, times: seq<real>): (ds: seq<real>)
    ensures |ds| == |times|
    decreases |times|
  {
    if times == [] then [] else [times[0] - last] + Deltas(times[0], times[1..])
  }

  /** Successive ticks reading the elapsed times `times` report exactly
      `Deltas` of those times, and leave the last of them recorded. */
  method TickAll(driver: FrameDriver, times: seq<real>) returns (deltas: seq<real>)
    requires driver.Valid()
    modifies driver, driver.uniforms
    ensures driver.Valid()
    ensures deltas == Deltas(old(driver.lastElapsedTime), times)
    ensures times != [] ==> driver.lastElapsedTime == times[|times| - 1]
    ensures times == [] ==> driver.lastElapsedTime == old(driver.lastElapsedTime)
    ensures driver.uniforms.uElevation == old(driver.uniforms.uElevation)
    ensures driver.uniforms.uTextureFrequency == old(driver.uniforms.uTextureFrequency)
  {
    ghost var start := driver.lastElapsedTime;
    ghost var elevation := driver.uniforms.uElevation;
    ghost var frequency := driver.uniforms.uTextureFrequency;
    deltas := [];
    var i := 0;
    while i < |times|
      invariant 0 <= i <= |times|
      invariant driver.Valid()
      invariant deltas + Deltas(driver.lastElapsedTime, times[i..]) == Deltas(start, times)
      invariant i > 0 ==> driver.lastElapsedTime == times[i - 1]
      invariant i == 0 ==> driver.lastElapsedTime == start
      invariant driver.uniforms.uElevation == elevation
      invariant driver.uniforms.uTextureFrequency == frequency
    {
      assert times[i..][1..] == times[i + 1..];
      var deltaTime := driver.Tick(times[i]);
      deltas := deltas + [deltaTime];
      i := i + 1;
    }
  }

  function Sum(xs: seq<real>): real
  {
    if xs == [] then 0.0 else xs[0] + Sum(xs[1..])
  }

  /** Over any run of frames the deltas add up to the time between the
      tick before the run and the last tick of the run. */
  lemma {:induction false} DeltasTelescope(last: real, times: seq<real>)
    requires times != []
    ensures Sum(Deltas(last, times)) == times[|times| - 1] - last
    decreases |times|
  {
    if |times| > 1 {
      DeltasTelescope(times[0], times[1..]);
    }
  }

  /** With a clock that never goes back, no delta is negative. */
  lemma {:induction false} DeltasNonNegative(last: real, times: seq<real>)
    requires times != [] ==> last <= times[0]
    requires forall i, j :: 0 <= i < j < |times| ==> times[i] <= times[j]
    ensures forall k :: 0 <= k < |times| ==> Deltas(last, times)[k] >= 0.0
    decreases |times|
  {
    if times != [] {
      DeltasNonNegative(times[0], times[1..]);
      var ds := Deltas(last, times);
      forall k | 0 <= k < |times|
        ensures ds[k] >= 0.0
      {
        if k > 0 {
          assert ds[k] == Deltas(times[0], times[1..])[k - 1];
        }
      }
    }
  }

  /** Each delta is the difference of the elapsed times of two consecutive
      ticks, the first measured from `last`. */
  lemma {:induction false} DeltaAt(last: real, times: seq<real>, k: nat)
    requires k < |times|
    ensures Deltas(last, times)[k] == times[k] - (if k == 0 then last else times[k - 1])
    decreases k
  {
    if k > 0 {
      DeltaAt(times[0], times[1..], k - 1);
    }
  }
}
