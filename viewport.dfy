/**
  The viewport bookkeeping of src/script.js: the `sizes` object (window size
  and clamped device pixel ratio), the depth render target of the bokeh
  pass, and the window-resize handler that keeps them in step.
 */
module Viewport {
  import JsMath

  /** The largest pixel ratio the script renders at. */
  const MaxPixelRatio: real := 2.0

  /** `Math.min(window.devicePixelRatio, 2)`: the device ratio, capped at 2. */
  function ClampPixelRatio(devicePixelRatio: real): (r: real)
    ensures r <= MaxPixelRatio && r <= devicePixelRatio
    ensures r == devicePixelRatio || r == MaxPixelRatio
  {
    JsMath.Min(devicePixelRatio, MaxPixelRatio)
  }

  /** The `sizes` object: CSS size of the window and the pixel ratio used. */
  class Sizes {
    var width: int
    var height: int
    var pixelRatio: real

    /** The ratio is never above the cap. */
    ghost predicate Valid()
      reads this
    {
      pixelRatio <= MaxPixelRatio
    }

    constructor (innerWidth: int, innerHeight: int, devicePixelRatio: real)
      ensures Valid()
      ensures width == innerWidth && height == innerHeight
      ensures pixelRatio == ClampPixelRatio(devicePixelRatio)
    {
      width := innerWidth;
      height := innerHeight;
      pixelRatio := ClampPixelRatio(devicePixelRatio);
    }
  }

  /** The size of the bokeh pass's depth render target, in device pixels. */
  class DepthTarget {
    var width: real
    var height: real

    /** The bokeh pass is created with a depth target of the window's size
        in device pixels. */
    constructor (sizes: Sizes)
      ensures InSync(sizes, this)
      ensures width == sizes.width as real * sizes.pixelRatio
      ensures height == sizes.height as real * sizes.pixelRatio
    {
      width := sizes.width as real * sizes.pixelRatio;
      height := sizes.height as real * sizes.pixelRatio;
    }
  }

  /** The invariant the resize handler restores: the depth target measures
      the window in device pixels. */
  ghost predicate InSync(sizes: Sizes, depth: DepthTarget)
    reads sizes, depth
  {
    && depth.width == sizes.width as real * sizes.pixelRatio
    && depth.height == sizes.height as real * sizes.pixelRatio
  }

  /** The window's `resize` listener: records the new window size and
      clamped ratio, then resizes the depth target to match. */
  method OnResize(sizes: Sizes, depth: DepthTarget, innerWidth: int, innerHeight: int, devicePixelRatio: real)
    modifies sizes, depth
    ensures sizes.width == innerWidth && sizes.height == innerHeight
    ensures sizes.pixelRatio == ClampPixelRatio(devicePixelRatio)
    ensures depth.width == innerWidth as real * ClampPixelRatio(devicePixelRatio)
    ensures depth.height == innerHeight as real * ClampPixelRatio(devicePixelRatio)
    ensures sizes.Valid() && InSync(sizes, depth)
  {
    // Update sizes
    sizes.width := innerWidth;
    sizes.height := innerHeight;
    sizes.pixelRatio := ClampPixelRatio(devicePixelRatio);

    // Update passes
    depth.width := sizes.width as real * sizes.pixelRatio;
    depth.height := sizes.height as real * sizes.pixelRatio;
  }

  /** Resizing a window to 1920 x 1080 on a screen reporting a ratio of 3
      renders at ratio 2, into a 3840 x 2160 depth target. */
  method ResizeToFullHd() returns (width: real, height: real)
    ensures width == 3840.0 && height == 2160.0
  {
    var sizes := new Sizes(800, 600, 1.0);
    var depth := new DepthTarget(sizes);
    OnResize(sizes, depth, 1920, 1080, 3.0);
    width, height := depth.width, depth.height;
  }
}
