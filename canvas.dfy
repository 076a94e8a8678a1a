/**
  The part of an HTML canvas 2D context that the stripe texture uses:
  `clearRect`, `fillRect`, `globalAlpha` and `fillStyle`.

  The raster keeps, for every pixel, the list of paints laid on it since it
  was last cleared, oldest first. How the browser blends those layers into
  one colour is not modelled; which fills cover a pixel, in which order and
  with which colour and alpha, is.
 */
module Canvas {

  /** One layer left on a pixel by `fillRect`: the fill style and the global
      alpha in force when the rectangle was filled. */
  datatype Paint = Paint(colour: string, alpha: real)

  /** A rectangle as the canvas API takes it: corner and signed extent. */
  datatype Rect = Rect(x: int, y: int, w: int, h: int)

  /** A drawing call on the context. */
  datatype DrawOp = Clear(area: Rect) | Fill(area: Rect, paint: Paint)

  /** Whether coordinate `v` lies in the half-open span that starts at
      `start` and extends by `len`; a negative extent reaches backwards,
      since the canvas normalises rectangles with a negative width or height. */
  predicate InSpan(start: int, len: int, v: int)
  {
    if len >= 0 then start <= v < start + len else start + len <= v < start
  }

  /** Whether pixel `(x, y)` lies inside rectangle `r`. */
  predicate Covers(r: Rect, x: int, y: int)
  {
    InSpan(r.x, r.w, x) && InSpan(r.y, r.h, y)
  }

  /** The layers of pixel `(x, y)` after one drawing call. */
  function Apply(op: DrawOp, layers: seq<Paint>, x: int, y: int): seq<Paint>
  {
    match op
    case Clear(area) => if Covers(area, x, y) then [] else layers
    case Fill(area, paint) => if Covers(area, x, y) then layers + [paint] else layers
  }

  /** The layers of pixel `(x, y)` after the calls `ops`, in order, starting
      from `layers`. */
  function Replay(ops: seq<DrawOp>, layers: seq<Paint>, x: int, y: int): seq<Paint>
    decreases |ops|
  {
    if ops == [] then layers
    else Apply(ops[|ops| - 1], Replay(ops[..|ops| - 1], layers, x, y), x, y)
  }

  /** Replaying one more call is applying it to what came before. */
  lemma ReplaySnoc(ops: seq<DrawOp>, op: DrawOp, layers: seq<Paint>, x: int, y: int)
    ensures Replay(ops + [op], layers, x, y) == Apply(op, Replay(ops, layers, x, y), x, y)
  {
    assert (ops + [op])[..|ops|] == ops;
  }

  /** Replaying the first `k + 1` calls is applying call `k` to the replay of
      the first `k`. */
  lemma ReplayStep(ops: seq<DrawOp>, k: nat, layers: seq<Paint>, x: int, y: int)
    requires k < |ops|
    ensures Replay(ops[..k + 1], layers, x, y) == Apply(ops[k], Replay(ops[..k], layers, x, y), x, y)
  {
    assert ops[..k + 1][..k] == ops[..k];
  }

  /** Once a pixel has been cleared, nothing painted on it before survives:
      what it holds afterwards depends only on the later calls. */
  lemma {:induction false} ReplayAfterClear(area: Rect, ops: seq<DrawOp>, before: seq<Paint>, x: int, y: int)
    requires Covers(area, x, y)
    ensures Replay([Clear(area)] + ops, before, x, y) == Replay(ops, [], x, y)
    decreases |ops|
  {
    if ops != [] {
      var init := ops[..|ops| - 1];
      assert [Clear(area)] + ops == ([Clear(area)] + init) + [ops[|ops| - 1]];
      assert ops == init + [ops[|ops| - 1]];
      ReplaySnoc([Clear(area)] + init, ops[|ops| - 1], before, x, y);
      ReplaySnoc(init, ops[|ops| - 1], [], x, y);
      ReplayAfterClear(area, init, before, x, y);
    }
  }

  /** Replaying two runs of calls one after the other is replaying the
      second over the result of the first. */
  lemma {:induction false} ReplayAppend(first: seq<DrawOp>, ops: seq<DrawOp>, layers: seq<Paint>, x: int, y: int)
    ensures Replay(first + ops, layers, x, y) == Replay(ops, Replay(first, layers, x, y), x, y)
    decreases |ops|
  {
    if ops == [] {
      assert first + ops == first;
    } else {
      var init := ops[..|ops| - 1];
      var last := ops[|ops| - 1];
      assert first + ops == (first + init) + [last];
      assert ops == init + [last];
      ReplaySnoc(first + init, last, layers, x, y);
      ReplaySnoc(init, last, Replay(first, layers, x, y), x, y);
      ReplayAppend(first, init, layers, x, y);
    }
  }

  /** Making call `k` after the first `k` calls of `ops` extends the history
      to the first `k + 1`. */
  lemma HistoryStep(done: seq<DrawOp>, ops: seq<DrawOp>, k: nat)
    requires k < |ops|
    ensures (done + ops[..k]) + [ops[k]] == done + ops[..k + 1]
  {
    assert ops[..k + 1] == ops[..k] + [ops[k]];
  }

  /** A whole buffer as a value: `r[y][x]` holds the layers on pixel `(x, y)`. */
  type Raster = seq<seq<seq<Paint>>>

  /** The buffer after one drawing call, applied to every pixel. */
  function DrawAll(op: DrawOp, r: Raster): Raster
  {
    seq(|r|, y requires 0 <= y < |r| =>
      seq(|r[y]|, x requires 0 <= x < |r[y]| => Apply(op, r[y][x], x, y)))
  }

  /** The buffer after the calls `ops`, in order, starting from `r`. */
  function ReplayAll(ops: seq<DrawOp>, r: Raster): Raster
  {
    seq(|r|, y requires 0 <= y < |r| =>
      seq(|r[y]|, x requires 0 <= x < |r[y]| => Replay(ops, r[y][x], x, y)))
  }

  /** On the whole buffer: replaying two runs of calls one after the other is
      replaying the second over the result of the first. */
  lemma ReplayAllAppend(first: seq<DrawOp>, ops: seq<DrawOp>, r: Raster)
    ensures ReplayAll(first + ops, r) == ReplayAll(ops, ReplayAll(first, r))
  {
    var lhs := ReplayAll(first + ops, r);
    var rhs := ReplayAll(ops, ReplayAll(first, r));
    forall y | 0 <= y < |r|
      ensures lhs[y] == rhs[y]
    {
      forall x | 0 <= x < |r[y]|
        ensures lhs[y][x] == rhs[y][x]
      {
        ReplayAppend(first, ops, r[y][x], x, y);
      }
    }
  }

  /** A canvas's 2D drawing context: its pixel buffer and the two pieces of
      drawing state the stripe texture sets. */
  class Context2D {
    const width: nat
    const height: nat
    /** `pixels[y, x]` holds the layers on pixel `(x, y)`, oldest first. */
    const pixels: array2<seq<Paint>>
    var globalAlpha: real
    var fillStyle: string
    /** The drawing calls made on the context so far, oldest first, and the
        buffer it started with. */
    ghost var history: seq<DrawOp>
    ghost var origin: Raster

    ghost predicate Valid()
    {
      pixels.Length0 == height && pixels.Length1 == width
    }

    /** The buffer is the replay of every drawing call made so far over the
        buffer the context started with. */
    ghost predicate Tracks()
      reads this`history, this`origin, pixels
    {
      && |origin| == pixels.Length0
      && (forall y :: 0 <= y < |origin| ==> |origin[y]| == pixels.Length1)
      && forall y, x :: 0 <= y < pixels.Length0 && 0 <= x < pixels.Length1 ==>
           pixels[y, x] == Replay(history, origin[y][x], x, y)
    }

    /** The same fact about the whole buffer. */
    lemma TracksLayers()
      requires Tracks()
      ensures Layers() == ReplayAll(history, origin)
    {
      var now := Layers();
      var want := ReplayAll(history, origin);
      forall y | 0 <= y < pixels.Length0
        ensures now[y] == want[y]
      {
      }
    }

    /** The buffer's contents as a value: `Layers()[y][x]` is `pixels[y, x]`. */
    ghost function Layers(): (r: Raster)
      reads pixels
      ensures |r| == pixels.Length0
    {
      seq(pixels.Length0, y requires 0 <= y < pixels.Length0 reads pixels =>
        seq(pixels.Length1, x requires 0 <= x < pixels.Length1 reads pixels => pixels[y, x]))
    }

    /** A fresh canvas of the given size: fully transparent, alpha 1,
        fill style black (the canvas defaults). */
    constructor (width: nat, height: nat)
      ensures Valid() && Tracks() && fresh(pixels) && history == []
      ensures this.width == width && this.height == height
      ensures forall y, x :: 0 <= y < height && 0 <= x < width ==> pixels[y, x] == []
      ensures globalAlpha == 1.0 && fillStyle == "#000000"
    {
      this.width := width;
      this.height := height;
      pixels := new seq<Paint>[height, width]((y, x) => []);
      globalAlpha := 1.0;
      fillStyle := "#000000";
      history := [];
      origin := seq(height, _ => seq(width, _ => []));
    }

    /** The `globalAlpha` setter: a value outside [0, 1] is ignored. */
    method SetGlobalAlpha(alpha: real)
      modifies this`globalAlpha
      ensures globalAlpha == if 0.0 <= alpha <= 1.0 then alpha else old(globalAlpha)
    {
      if 0.0 <= alpha <= 1.0 {
        globalAlpha := alpha;
      }
    }

    /** The `fillStyle` setter (colour strings are kept as given). */
    method SetFillStyle(style: string)
      modifies this`fillStyle
      ensures fillStyle == style
    {
      fillStyle := style;
    }

    /** Performs one drawing call on every pixel of the buffer. */
    method Draw(op: DrawOp)
      requires Valid() && Tracks()
      modifies pixels, this`history
      ensures Layers() == DrawAll(op, old(Layers()))
      ensures history == old(history) + [op] && Tracks()
    {
      ghost var was := Layers();
      forall y, x | 0 <= y < pixels.Length0 && 0 <= x < pixels.Length1 {
        pixels[y, x] := Apply(op, pixels[y, x], x, y);
      }
      ghost var now := Layers();
      var want := DrawAll(op, was);
      forall y | 0 <= y < height
        ensures now[y] == want[y]
      {
      }
      history := history + [op];
      forall y, x | 0 <= y < pixels.Length0 && 0 <= x < pixels.Length1
        ensures pixels[y, x] == Replay(history, origin[y][x], x, y)
      {
        ReplaySnoc(old(history), op, origin[y][x], x, y);
      }
    }

    /** `clearRect(x, y, w, h)`: the covered pixels become transparent,
        the others keep their layers. */
    method ClearRect(x: int, y: int, w: int, h: int)
      requires Valid() && Tracks()
      modifies pixels, this`history
      ensures Layers() == DrawAll(Clear(Rect(x, y, w, h)), old(Layers()))
      ensures history == old(history) + [Clear(Rect(x, y, w, h))] && Tracks()
    {
      Draw(Clear(Rect(x, y, w, h)));
    }

    /** `fillRect(x, y, w, h)`: each covered pixel gains one layer in the
        current fill style and global alpha, on top of what it had. */
    method FillRect(x: int, y: int, w: int, h: int)
      requires Valid() && Tracks()
      modifies pixels, this`history
      ensures Layers() == DrawAll(Fill(Rect(x, y, w, h), Paint(fillStyle, globalAlpha)), old(Layers()))
      ensures history == old(history) + [Fill(Rect(x, y, w, h), Paint(fillStyle, globalAlpha))] && Tracks()
    {
      Draw(Fill(Rect(x, y, w, h), Paint(fillStyle, globalAlpha)));
    }
  }
}
