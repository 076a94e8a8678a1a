/**
  The terrain's stripe texture (`terrain.texture` in src/script.js): a small
  canvas holding one thick "big" line across the top and `linesCount - 1`
  thin, translucent "small" lines below it, evenly spaced.

  The layout is given by specification functions of the texture parameters
  (`StripeOps`: the drawing calls in order; `RowLayers`: what each row ends
  up holding), the method `StripeTexture.Update` is proved to perform exactly
  those calls, and the lemmas state the geometry of the bands.
 */
module Stripes {
  import opened JsMath
  import opened Canvas

  /** The texture's tunable fields. */
  datatype TextureParams = TextureParams(
    width: nat,
    height: nat,
    linesCount: int,
    bigLineWidth: real,
    smallLineWidth: real,
    smallLineAlpha: real)

  const BigLineColour: string := "blue"
  const SmallLineColour: string := "#ffffff"

  /** The parameters the script starts with. */
  const DefaultParams: TextureParams := TextureParams(32, 128, 5, 0.04, 0.01, 0.5)

  /** Height in rows of the big band. */
  function BigPx(p: TextureParams): int
  {
    Round(p.height as real * p.bigLineWidth)
  }

  /** Height in rows of each small band. */
  function SmallPx(p: TextureParams): int
  {
    Round(p.height as real * p.smallLineWidth)
  }

  /** How many small bands are drawn: the loop runs `linesCount - 1` times,
      that is, not at all when `linesCount <= 1`. */
  function SmallCount(p: TextureParams): nat
  {
    if p.linesCount > 1 then p.linesCount - 1 else 0
  }

  /** Distance between consecutive small bands: the space below the big
      band divided by `linesCount`, rounded once, before it is multiplied. */
  function Step(p: TextureParams): int
    requires p.linesCount != 0
  {
    Round((p.height - BigPx(p)) as real / p.linesCount as real)
  }

  /** Top row of small band `i`. */
  function SmallTop(p: TextureParams, i: nat): int
    requires p.linesCount != 0
  {
    BigPx(p) + Step(p) * (i + 1)
  }

  /** The alpha small bands are painted with. The context ignores an alpha
      outside [0, 1], so such a value leaves the alpha 1 set for the big band. */
  function SmallAlpha(p: TextureParams): real
  {
    if 0.0 <= p.smallLineAlpha <= 1.0 then p.smallLineAlpha else 1.0
  }

  /** The paint of the big band: blue at full alpha. */
  const BigPaint: Paint := Paint(BigLineColour, 1.0)

  function SmallPaint(p: TextureParams): Paint
  {
    Paint(SmallLineColour, SmallAlpha(p))
  }

  function SmallBand(p: TextureParams, i: nat): Rect
    requires p.linesCount != 0
  {
    Rect(0, SmallTop(p, i), p.width, SmallPx(p))
  }

  /** The drawing calls `update` makes, in order: clear the whole texture,
      fill the big band, then fill small bands 0, 1, ... */
  function StripeOps(p: TextureParams): seq<DrawOp>
  {
    [Clear(Rect(0, 0, p.width, p.height)), Fill(Rect(0, 0, p.width, BigPx(p)), BigPaint)]
    + seq(SmallCount(p), i requires 0 <= i < SmallCount(p) => Fill(SmallBand(p, i), SmallPaint(p)))
  }

  /** The call that paints small band `i`. */
  lemma SmallOpAt(p: TextureParams, i: nat)
    requires i < SmallCount(p)
    ensures |StripeOps(p)| == 2 + SmallCount(p)
    ensures StripeOps(p)[2 + i] == Fill(SmallBand(p, i), SmallPaint(p))
  {
  }

  /** Number of small bands among the first `k` that cover row `y`. */
  function CoveringBands(p: TextureParams, y: int, k: nat): nat
    requires k <= SmallCount(p)
  {
    if k == 0 then 0
    else CoveringBands(p, y, k - 1) + (if InSpan(SmallTop(p, k - 1), SmallPx(p), y) then 1 else 0)
  }

  function Repeat(paint: Paint, n: nat): seq<Paint>
  {
    seq(n, _ => paint)
  }

  /** Reference definition of a finished row: the big paint if the row lies
      in the big band, then one small paint per small band covering it. */
  function RowLayers(p: TextureParams, y: int): seq<Paint>
  {
    (if InSpan(0, BigPx(p), y) then [BigPaint] else [])
    + Repeat(SmallPaint(p), CoveringBands(p, y, SmallCount(p)))
  }

  /** The clear and the big band leave on an in-texture pixel only the big
      paint, and only when its row lies in the big band. */
  lemma ReplayPrefixBase(p: TextureParams, before: seq<Paint>, x: int, y: int)
    requires 0 <= x < p.width && 0 <= y < p.height
    ensures Replay(StripeOps(p)[..2], before, x, y)
            == (if InSpan(0, BigPx(p), y) then [BigPaint] else [])
  {
    var ops := StripeOps(p);
    assert ops[..2] == [Clear(Rect(0, 0, p.width, p.height)), Fill(Rect(0, 0, p.width, BigPx(p)), BigPaint)];
    var pre := ops[..2];
    assert pre[..1][..0] == [];
    assert pre[..1] == [pre[0]];
  }

  /** Filling small band `k` puts one more small paint on the pixels it
      covers and leaves the others as they were. */
  lemma ReplayPrefixStep(p: TextureParams, before: seq<Paint>, x: int, y: int, k: nat)
    requires 0 <= x < p.width
    requires k < SmallCount(p)
    ensures Replay(StripeOps(p)[..2 + k + 1], before, x, y)
            == Replay(StripeOps(p)[..2 + k], before, x, y)
               + (if InSpan(SmallTop(p, k), SmallPx(p), y) then [SmallPaint(p)] else [])
  {
    var ops := StripeOps(p);
    SmallOpAt(p, k);
    ReplayStep(ops, 2 + k, before, x, y);
  }

  /** Replaying the clear, the big band and the first `k` small bands leaves
      on an in-texture pixel the big paint (if its row is in the big band) and
      one small paint per covering band, whatever the pixel held before. */
  lemma {:induction false} ReplayPrefix(p: TextureParams, before: seq<Paint>, x: int, y: int, k: nat)
    requires 0 <= x < p.width && 0 <= y < p.height
    requires k <= SmallCount(p)
    ensures Replay(StripeOps(p)[..2 + k], before, x, y)
            == (if InSpan(0, BigPx(p), y) then [BigPaint] else []) + Repeat(SmallPaint(p), CoveringBands(p, y, k))
  {
    if k == 0 {
      ReplayPrefixBase(p, before, x, y);
    } else {
      ReplayPrefix(p, before, x, y, k - 1);
      ReplayPrefixStep(p, before, x, y, k - 1);
      var n := CoveringBands(p, y, k - 1);
      assert Repeat(SmallPaint(p), n) + [SmallPaint(p)] == Repeat(SmallPaint(p), n + 1);
    }
  }

  /** The top row `update` computes for small band `i`, from the big band's
      height `big`, is `SmallTop`. */
  lemma SmallTopFrom(p: TextureParams, big: int, i: nat)
    requires p.linesCount != 0 && big == BigPx(p)
    ensures big + Round((p.height - big) as real / p.linesCount as real) * (i + 1) == SmallTop(p, i)
  {
  }

  /** The call `update` makes for small band `i`, with the top row and
      height it computes, is call `2 + i` of `StripeOps`. */
  lemma SmallOpFrom(p: TextureParams, big: int, i: nat, top: int, h: int)
    requires i < SmallCount(p) && big == BigPx(p) && h == SmallPx(p)
    requires top == big + Round((p.height - big) as real / p.linesCount as real) * (i + 1)
    ensures StripeOps(p)[2 + i] == Fill(Rect(0, top, p.width, h), SmallPaint(p))
  {
    SmallTopFrom(p, big, i);
    SmallOpAt(p, i);
  }

  /** Every in-texture pixel ends up holding exactly its row's reference
      layers: the clear erases what was there, each band spans the full
      width, and the layers are stacked big band first, then small bands in
      order. */
  lemma StripeOpsReplay(p: TextureParams, before: seq<Paint>, x: int, y: int)
    requires 0 <= x < p.width && 0 <= y < p.height
    ensures Replay(StripeOps(p), before, x, y) == RowLayers(p, y)
  {
    ReplayPrefix(p, before, x, y, SmallCount(p));
    assert StripeOps(p)[..2 + SmallCount(p)] == StripeOps(p);
  }

  /** Once a context whose buffer is the replay of `done` over `origin` has
      made the calls of `update` as well, its buffer is the replay of those
      calls over the old buffer, which is the reference texture. */
  lemma UpdateReplay(p: TextureParams, done: seq<DrawOp>, origin: Raster)
    requires |ReplayAll(done, origin)| == p.height
    requires forall y :: 0 <= y < p.height ==> |ReplayAll(done, origin)[y]| == p.width
    ensures ReplayAll(done + StripeOps(p), origin) == ReplayAll(StripeOps(p), ReplayAll(done, origin))
    ensures ReplayAll(done + StripeOps(p), origin) == RowRaster(p)
  {
    ReplayAllAppend(done, StripeOps(p), origin);
    StripeRaster(p, ReplayAll(done, origin));
  }

  /** Reference definition of the finished texture: `height` rows of
      `width` pixels, every pixel of row `y` holding `RowLayers(p, y)`. */
  function RowRaster(p: TextureParams): Raster
  {
    seq(p.height, y requires 0 <= y < p.height => seq(p.width, _ => RowLayers(p, y)))
  }

  /** Replaying the calls of `update` over any `width` x `height` buffer
      gives the reference texture: nothing that was there before survives. */
  lemma StripeRaster(p: TextureParams, before: Raster)
    requires |before| == p.height
    requires forall y :: 0 <= y < p.height ==> |before[y]| == p.width
    ensures ReplayAll(StripeOps(p), before) == RowRaster(p)
  {
    var got := ReplayAll(StripeOps(p), before);
    var want := RowRaster(p);
    forall y | 0 <= y < p.height
      ensures got[y] == want[y]
    {
      forall x | 0 <= x < p.width
        ensures got[y][x] == want[y][x]
      {
        StripeOpsReplay(p, before[y][x], x, y);
      }
    }
  }

  /** `update` clears the whole texture first, paints the big band (row 0,
      full width, `BigPx` rows, blue at alpha 1) next, and then exactly
      `linesCount - 1` small bands (none when `linesCount <= 1`), full width,
      `SmallPx` rows each, white at the small alpha, in increasing `i`. */
  lemma StripeOrder(p: TextureParams)
    ensures |StripeOps(p)| == 2 + (if p.linesCount > 1 then p.linesCount - 1 else 0)
    ensures StripeOps(p)[0] == Clear(Rect(0, 0, p.width, p.height))
    ensures StripeOps(p)[1] == Fill(Rect(0, 0, p.width, BigPx(p)), Paint("blue", 1.0))
    ensures forall k :: 2 <= k < |StripeOps(p)| ==>
              p.linesCount >= 2 &&
              StripeOps(p)[k] == Fill(Rect(0, BigPx(p) + Step(p) * (k - 1), p.width, SmallPx(p)),
                                      Paint("#ffffff", SmallAlpha(p)))
  {
  }

  /** Consecutive small bands are exactly one `Step` apart. */
  lemma BandSpacing(p: TextureParams, i: nat)
    requires p.linesCount != 0
    ensures SmallTop(p, i + 1) - SmallTop(p, i) == Step(p)
  {
  }

  /** With a positive step the small bands' tops strictly increase with `i`. */
  lemma BandsIncreasing(p: TextureParams, i: nat, j: nat)
    requires p.linesCount != 0 && Step(p) > 0
    requires i < j
    ensures SmallTop(p, i) < SmallTop(p, j)
  {
  }

  /** When the big band fits in the texture, the step is not negative and no
      small band starts above the end of the big band. */
  lemma BandsBelowBigBand(p: TextureParams, i: nat)
    requires p.linesCount > 0 && BigPx(p) <= p.height
    ensures Step(p) >= 0
    ensures SmallTop(p, i) >= BigPx(p) + Step(p)
  {
  }

  /** A row gets a small paint if and only if some small band covers it. */
  lemma {:induction false} CoveringBandsPositive(p: TextureParams, y: int, k: nat)
    requires k <= SmallCount(p)
    ensures CoveringBands(p, y, k) > 0 <==>
              exists i :: 0 <= i < k && InSpan(SmallTop(p, i), SmallPx(p), y)
  {
    if k > 0 {
      CoveringBandsPositive(p, y, k - 1);
      if InSpan(SmallTop(p, k - 1), SmallPx(p), y) {
        assert exists i :: 0 <= i < k && InSpan(SmallTop(p, i), SmallPx(p), y);
      }
    }
  }

  /** What a finished row holds: blue at alpha 1 exactly when the row is in
      the big band (as the first layer), a small paint exactly when some small
      band covers it, and nothing else. */
  lemma RowContents(p: TextureParams, y: int)
    ensures BigPaint in RowLayers(p, y) <==> InSpan(0, BigPx(p), y)
    ensures SmallPaint(p) in RowLayers(p, y) <==>
              exists i :: 0 <= i < SmallCount(p) && InSpan(SmallTop(p, i), SmallPx(p), y)
    ensures forall q :: q in RowLayers(p, y) ==> q == BigPaint || q == SmallPaint(p)
    ensures InSpan(0, BigPx(p), y) ==> RowLayers(p, y)[0] == BigPaint
  {
    CoveringBandsPositive(p, y, SmallCount(p));
    var n := CoveringBands(p, y, SmallCount(p));
    var rest := Repeat(SmallPaint(p), n);
    assert BigPaint !in rest;
    if n > 0 {
      assert rest[0] == SmallPaint(p);
    }
  }

  /** Row `y` is covered by small band `j` and by no earlier band, when bands
      are no taller than the step between them. */
  lemma {:induction false} NoEarlierBand(p: TextureParams, y: int, j: nat, k: nat)
    requires j < SmallCount(p) && k <= j
    requires 0 <= SmallPx(p) <= Step(p)
    ensures InSpan(SmallTop(p, j), SmallPx(p), y) ==> CoveringBands(p, y, k) == 0
  {
    if k > 0 && InSpan(SmallTop(p, j), SmallPx(p), y) {
      NoEarlierBand(p, y, j, k - 1);
      StepGap(Step(p), j, k - 1);
      assert SmallTop(p, j) >= SmallTop(p, k - 1) + Step(p);
    }
  }

  /** Multiples `a + 1` and `b + 1` of a non-negative step, with `b < a`,
      are at least one step apart. */
  lemma StepGap(s: int, a: nat, b: nat)
    requires s >= 0 && b < a
    ensures s * (a + 1) >= s * (b + 1) + s
  {
    var d := a - b;
    assert a + 1 == (b + 1) + d;
    assert s * (a + 1) == s * (b + 1) + s * d;
    assert s * d == s + s * (d - 1);
    assert s * (d - 1) >= 0;
  }

  /** Small bands no taller than the step between them never overlap: each
      row is covered by at most one of them. */
  lemma {:induction false} BandsDisjoint(p: TextureParams, y: int, k: nat)
    requires k <= SmallCount(p)
    requires 0 <= SmallPx(p) && (p.linesCount != 0 ==> SmallPx(p) <= Step(p))
    ensures CoveringBands(p, y, k) <= 1
  {
    if k > 0 {
      if InSpan(SmallTop(p, k - 1), SmallPx(p), y) {
        NoEarlierBand(p, y, k - 1, k - 1);
      } else {
        BandsDisjoint(p, y, k - 1);
      }
    }
  }

  /** With a big band that fits in the texture and small bands no taller
      than their spacing (the defaults among them), no row is painted twice,
      so no two fills are ever blended. */
  lemma OneLayerPerRow(p: TextureParams, y: int)
    requires p.linesCount > 0
    requires 0 <= BigPx(p) <= p.height
    requires 0 <= SmallPx(p) <= Step(p)
    ensures |RowLayers(p, y)| <= 1
  {
    BandsDisjoint(p, y, SmallCount(p));
    if InSpan(0, BigPx(p), y) && CoveringBands(p, y, SmallCount(p)) > 0 {
      CoveringBandsPositive(p, y, SmallCount(p));
      var i :| 0 <= i < SmallCount(p) && InSpan(SmallTop(p, i), SmallPx(p), y);
      BandsBelowBigBand(p, i);
      assert false;
    }
  }

  /** The default texture, 32 x 128 with 5 lines: a 5-row big band and four
      1-row small bands at rows 30, 55, 80 and 105. */
  lemma DefaultLayout()
    ensures BigPx(DefaultParams) == 5 && SmallPx(DefaultParams) == 1
    ensures Step(DefaultParams) == 25 && SmallCount(DefaultParams) == 4
    ensures SmallTop(DefaultParams, 0) == 30 && SmallTop(DefaultParams, 1) == 55
    ensures SmallTop(DefaultParams, 2) == 80 && SmallTop(DefaultParams, 3) == 105
  {
  }

  /** The finished default texture, row by row: rows 0 to 4 blue at alpha 1,
      rows 30, 55, 80 and 105 white at alpha 0.5, every other row empty. */
  lemma DefaultRows(y: int)
    requires 0 <= y < 128
    ensures RowLayers(DefaultParams, y)
            == if y < 5 then [Paint("blue", 1.0)]
               else if y == 30 || y == 55 || y == 80 || y == 105 then [Paint("#ffffff", 0.5)]
               else []
  {
    DefaultLayout();
    var p := DefaultParams;
    assert CoveringBands(p, y, 1) == (if y == 30 then 1 else 0);
    assert CoveringBands(p, y, 2) == (if y == 30 || y == 55 then 1 else 0);
    assert CoveringBands(p, y, 3) == (if y == 30 || y == 55 || y == 80 then 1 else 0);
    assert CoveringBands(p, y, 4) == (if y == 30 || y == 55 || y == 80 || y == 105 then 1 else 0);
  }

  /** Nothing keeps the small bands inside the texture: at the default size,
      82 lines give a step of 2 and the last small band starts at row 167,
      beyond the 128 rows of the texture (the canvas clips it away). */
  lemma SmallBandsCanOverrunTexture()
    ensures var p := DefaultParams.(linesCount := 82);
            SmallCount(p) == 81 && Step(p) == 2 && SmallTop(p, 80) == 167 > p.height
  {
  }

  /** The texture object: its parameters and the canvas it paints into. */
  class StripeTexture {
    var linesCount: int
    var bigLineWidth: real
    var smallLineWidth: real
    var smallLineAlpha: real
    const width: nat
    const height: nat
    const context: Context2D

    /** The canvas has the texture's size and its buffer follows the drawing
        calls made on it. */
    ghost predicate Valid()
      reads context, context.pixels
    {
      context.Valid() && context.Tracks() && context.width == width && context.height == height
    }

    function Params(): TextureParams
      reads this
    {
      TextureParams(width, height, linesCount, bigLineWidth, smallLineWidth, smallLineAlpha)
    }

    /** The texture as the script sets it up: default parameters and a
        fresh, transparent 32 x 128 canvas. */
    constructor ()
      ensures Valid() && fresh(context) && fresh(context.pixels)
      ensures Params() == DefaultParams
      ensures forall y, x :: 0 <= y < height && 0 <= x < width ==> context.pixels[y, x] == []
    {
      linesCount := 5;
      bigLineWidth := 0.04;
      smallLineWidth := 0.01;
      smallLineAlpha := 0.5;
      width := 32;
      height := 128;
      context := new Context2D(32, 128);
    }

    /** The small-lines part of `terrain.texture.update`: after the clear
        and the big band, fills the `linesCount - 1` small bands in order,
        so that the context has made every call of `StripeOps`. */
    method DrawSmallLines(actualBigLineWidth: int, ghost done: seq<DrawOp>)
      requires Valid()
      requires actualBigLineWidth == BigPx(Params())
      requires context.history == done + StripeOps(Params())[..2]
      requires context.globalAlpha == 1.0 && context.fillStyle == BigLineColour
      modifies context, context.pixels
      ensures Valid() && context.origin == old(context.origin)
      ensures context.history == done + StripeOps(Params())
      ensures context.globalAlpha == if SmallCount(Params()) > 0 then SmallAlpha(Params()) else 1.0
      ensures context.fillStyle == if SmallCount(Params()) > 0 then SmallLineColour else BigLineColour
    {
      ghost var p := Params();
      ghost var ops := StripeOps(p);
      ghost var origin := context.origin;
      var actualSmallLineWidth := Round(height as real * smallLineWidth);
      var smallLinesCount := linesCount - 1;
      var i := 0;
      while i < smallLinesCount
        invariant 0 <= i <= SmallCount(p)
        invariant Valid()
        invariant context.history == done + ops[..2 + i] && context.origin == origin
        invariant i == 0 ==> context.globalAlpha == 1.0 && context.fillStyle == BigLineColour
        invariant i > 0 ==> context.globalAlpha == SmallAlpha(p) && context.fillStyle == SmallLineColour
      {
        var top := actualBigLineWidth + Round((height - actualBigLineWidth) as real / linesCount as real) * (i + 1);
        context.SetGlobalAlpha(smallLineAlpha);
        context.SetFillStyle(SmallLineColour);
        SmallOpFrom(p, actualBigLineWidth, i, top, actualSmallLineWidth);
        context.FillRect(0, top, width, actualSmallLineWidth);
        HistoryStep(done, ops, 2 + i);
        i := i + 1;
      }
      assert ops[..2 + i] == ops by {
        StripeOrder(p);
      }
    }

    /** `terrain.texture.update`: repaints the whole texture from its
        parameters. Every pixel then holds the reference layers of its row,
        whatever it held before, and the context is left with the alpha and
        fill style of the last fill. */
    method Update()
      requires Valid()
      modifies context, context.pixels
      ensures Valid()
      ensures context.history == old(context.history) + StripeOps(Params())
      ensures context.Layers() == ReplayAll(StripeOps(Params()), old(context.Layers()))
      ensures context.Layers() == RowRaster(Params())
      ensures context.globalAlpha == if SmallCount(Params()) > 0 then SmallAlpha(Params()) else 1.0
      ensures context.fillStyle == if SmallCount(Params()) > 0 then SmallLineColour else BigLineColour
    {
      var p := Params();
      ghost var ops := StripeOps(p);
      ghost var done := context.history;
      ghost var before := context.Layers();
      ghost var origin := context.origin;
      context.TracksLayers();
      assert ops[0] == Clear(Rect(0, 0, width, height)) && ops[..0] == [] by {
        StripeOrder(p);
      }
      context.ClearRect(0, 0, width, height);

      // Big lines
      var actualBigLineWidth := Round(height as real * bigLineWidth);
      context.SetGlobalAlpha(1.0);
      context.SetFillStyle(BigLineColour);
      assert ops[1] == Fill(Rect(0, 0, width, actualBigLineWidth), Paint(context.fillStyle, context.globalAlpha)) by {
        StripeOrder(p);
      }
      context.FillRect(0, 0, width, actualBigLineWidth);
      assert context.history == done + ops[..2] by {
        assert ops[..2] == [ops[0], ops[1]];
      }

      // Small lines
      DrawSmallLines(actualBigLineWidth, done);
      context.TracksLayers();
      UpdateReplay(p, done, origin);
    }
  }
}
