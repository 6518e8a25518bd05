/** The viewer: a pan-and-zoom camera, the per-frame input it consumes, and
    the frame loop that lays a text out as a grid of glyphs. */
module Viewer {
  import opened Geometry
  import opened DrawLists
  import opened Glyphs

  // Camera

  /** The translation after zooming by `zoom` about `origin` and panning by
      `pan`: t * zoom - origin * zoom + origin + pan. */
  function ZoomTranslate(t: Vec2, pan: Vec2, origin: Vec2, zoom: real): (r: Vec2)
    ensures r.x - pan.x - origin.x == (t.x - origin.x) * zoom
    ensures r.y - pan.y - origin.y == (t.y - origin.y) * zoom
    ensures zoom == 1.0 ==> r == Add(t, pan)
  {
    Add(Add(Sub(Scale(t, zoom), Scale(origin, zoom)), origin), pan)
  }

  /** The camera maps world point w to screen point w * scale + translate. */
  function ToScreen(w: Vec2, translate: Vec2, scale: real): Vec2 {
    Add(Scale(w, scale), translate)
  }

  /** The inverse map, screen point to world point: (p - translate) / scale. */
  function ToWorld(p: Vec2, translate: Vec2, scale: real): Vec2
    requires scale != 0.0
  {
    Vec2((p.x - translate.x) / scale, (p.y - translate.y) / scale)
  }

  lemma DivCancel(a: real, s: real, z: real)
    requires s != 0.0 && z != 0.0
    ensures (a * z) / (s * z) == a / s
  {
    var q := a / s;
    assert a == q * s;
    assert a * z == q * (s * z);
  }

  /** The two maps are inverse to each other. */
  lemma WorldScreenInverse(w: Vec2, translate: Vec2, scale: real)
    requires scale != 0.0
    ensures ToWorld(ToScreen(w, translate, scale), translate, scale) == w
  {
    assert (w.x * scale) / scale == w.x;
    assert (w.y * scale) / scale == w.y;
  }

  /** The camera of a fresh `DrawContext` is the identity: the visible world
      rectangle is the screen itself, [0, width] x [0, height]. */
  lemma InitialViewIsScreen(size: Size, w: Vec2)
    ensures var ctx := NewDrawContext(size);
      && ScreenLeftTop(ctx) == Zero2
      && ScreenRightBottom(ctx) == Vec2(size.x as real, size.y as real)
      && ToScreen(w, ctx.translate, ctx.scale) == w
      && ToWorld(w, ctx.translate, ctx.scale) == w
  {
  }

  /** The visible rectangle the glyph cull uses is the world image of the
      screen's corners (0, 0) and (width, height). */
  lemma ScreenCornersAreWorld(ctx: DrawContext)
    requires ctx.scale != 0.0
    ensures ScreenLeftTop(ctx) == ToWorld(Zero2, ctx.translate, ctx.scale)
    ensures ScreenRightBottom(ctx) ==
      ToWorld(Vec2(ctx.screenSize.x as real, ctx.screenSize.y as real), ctx.translate, ctx.scale)
  {
  }

  /** Zooming without panning keeps the world point under `origin` where it
      is on screen. */
  lemma ZoomFixesOrigin(t: Vec2, scale: real, origin: Vec2, zoom: real)
    requires scale != 0.0 && zoom != 0.0
    ensures ToWorld(origin, ZoomTranslate(t, Zero2, origin, zoom), scale * zoom) == ToWorld(origin, t, scale)
  {
    var t' := ZoomTranslate(t, Zero2, origin, zoom);
    var s' := scale * zoom;
    ZoomFixesAxis(t.x, t'.x, scale, s', origin.x, zoom);
    ZoomFixesAxis(t.y, t'.y, scale, s', origin.y, zoom);
  }

  /** One coordinate of `ZoomFixesOrigin`, the zoomed translation being `tz`
      and the zoomed scale `sz`. */
  lemma ZoomFixesAxis(t: real, tz: real, scale: real, sz: real, o: real, zoom: real)
    requires scale != 0.0 && zoom != 0.0
    requires tz == t * zoom - o * zoom + o + 0.0 && sz == scale * zoom
    ensures (o - tz) / sz == (o - t) / scale
  {
    assert o - tz == (o - t) * zoom;
    DivCancel(o - t, scale, zoom);
  }

  /** The camera state. */
  class Transform {
    var scale: real
    var translate: Vec2
    var screenSize: Size

    /** `Transform::default()` */
    constructor Default()
      ensures scale == 1.0 && translate == Zero2 && screenSize == Size(1, 1)
    {
      scale := 1.0;
      translate := Zero2;
      screenSize := Size(1, 1);
    }

    method PanZoom(pan: Vec2, origin: Vec2, zoom: real)
      modifies this
      ensures translate == ZoomTranslate(old(translate), pan, origin, zoom)
      ensures scale == old(scale) * zoom
      ensures screenSize == old(screenSize)
    {
      translate := Add(Add(Sub(Scale(translate, zoom), Scale(origin, zoom)), origin), pan);
      scale := scale * zoom;
    }
  }

  const MinScale: real := 0.1
  const MaxScale: real := 16.0

  /** The pinch zoom factor, 1 - pinch * 0.02, reduced so that the new scale
      stays in [0.1, 16]. */
  function ClampZoom(scale: real, pinch: real): (r: real)
    requires scale != 0.0
    ensures scale * (1.0 - pinch * 0.02) < MinScale ==> scale * r == MinScale
    ensures MinScale <= scale * (1.0 - pinch * 0.02) <= MaxScale ==> r == 1.0 - pinch * 0.02
    ensures scale * (1.0 - pinch * 0.02) > MaxScale ==> scale * r == MaxScale
  {
    assert scale * (MinScale / scale) == MinScale;
    assert scale * (MaxScale / scale) == MaxScale;
    var zoom := 1.0 - pinch * 0.02;
    if scale * zoom < MinScale then MinScale / scale
    else if scale * zoom > MaxScale then MaxScale / scale
    else zoom
  }

  /** For any pinch and any positive scale, the zoomed scale lies in
      [0.1, 16]; when the unclamped product is in range, the factor is
      1 - pinch * 0.02 itself. */
  lemma ClampedScaleInRange(scale: real, pinch: real)
    requires scale > 0.0
    ensures MinScale <= scale * ClampZoom(scale, pinch) <= MaxScale
    ensures MinScale <= scale * (1.0 - pinch * 0.02) <= MaxScale ==>
      ClampZoom(scale, pinch) == 1.0 - pinch * 0.02
  {
  }

  /** At a bound, zooming further past it keeps the scale at that bound. */
  lemma ClampHoldsAtBound(scale: real, pinch: real)
    requires scale > 0.0
    ensures scale == MaxScale && pinch <= 0.0 ==> scale * ClampZoom(scale, pinch) == MaxScale
    ensures scale == MinScale && pinch >= 0.0 ==> scale * ClampZoom(scale, pinch) == MinScale
  {
    ClampedScaleInRange(scale, pinch);
  }

  /** With no wheel and no pinch the camera is left as it is. */
  lemma QuietFrame(t: Vec2, scale: real, origin: Vec2)
    requires MinScale <= scale <= MaxScale
    ensures ClampZoom(scale, 0.0) == 1.0
    ensures scale * ClampZoom(scale, 0.0) == scale
    ensures ZoomTranslate(t, Vec2(-0.0, -0.0), origin, 1.0) == t
  {
  }

  /** Input gathered between two frames. */
  class Io {
    var screenSize: Size
    var pixelRatio: real
    var mouse: Vec2
    var wheel: Vec2
    var wheelPinch: real

    constructor ()
      ensures screenSize == Size(1, 1) && pixelRatio == 1.0
      ensures mouse == Zero2 && wheel == Zero2 && wheelPinch == 0.0
    {
      screenSize := Size(1, 1);
      pixelRatio := 1.0;
      mouse := Zero2;
      wheel := Zero2;
      wheelPinch := 0.0;
    }

    /** Consumes the scroll and pinch deltas. */
    method Reset()
      modifies this
      ensures wheel == Zero2 && wheelPinch == 0.0
      ensures screenSize == old(screenSize) && pixelRatio == old(pixelRatio) && mouse == old(mouse)
    {
      wheel := Zero2;
      wheelPinch := 0.0;
    }
  }

  // Text layout

  /** A laid-out glyph with its horizontal advance in font units. */
  datatype GlyphEntry = GlyphEntry(glyph: GlyphData, advance: real)

  /** The font scale of the text and its line height. */
  const TextScale: real := 0.2
  const LineHeight: real := 1000.0 * TextScale

  /** The pen position after a row of glyphs: the sum of the scaled advances. */
  function Advance(line: seq<GlyphEntry>): real {
    if line == [] then 0.0
    else Advance(line[..|line| - 1]) + line[|line| - 1].advance * TextScale
  }

  /** The sum of the unscaled advances. */
  function SumAdvances(line: seq<GlyphEntry>): real {
    if line == [] then 0.0 else SumAdvances(line[..|line| - 1]) + line[|line| - 1].advance
  }

  /** The pen after glyph j is 0.2 times the advances before it. */
  lemma {:induction false} AdvanceIsScaledSum(line: seq<GlyphEntry>)
    ensures Advance(line) == TextScale * SumAdvances(line)
  {
    if line != [] {
      AdvanceIsScaledSum(line[..|line| - 1]);
    }
  }

  /** The origin of glyph `j` on row `row`. */
  function PenAt(line: seq<GlyphEntry>, j: nat, row: nat): Vec2
    requires j <= |line|
  {
    Vec2(Advance(line[..j]), LineHeight * (row + 1) as real)
  }

  /** The draw list after placing one row of glyphs, left to right. */
  function LayoutLine(d: DrawListData, ctx: DrawContext, line: seq<GlyphEntry>, row: nat): (r: DrawListData)
    requires d.cmds != [] && ctx.scale != 0.0
    ensures |r.cmds| == |d.cmds|
  {
    if line == [] then d
    else
      var n := |line| - 1;
      PlaceGlyph(LayoutLine(d, ctx, line[..n], row), ctx, PenAt(line, n, row), TextScale, line[n].glyph)
  }

  /** Placing glyph j after glyphs 0 .. j - 1 of a row. */
  lemma LayoutLineStep(d: DrawListData, ctx: DrawContext, line: seq<GlyphEntry>, j: nat, row: nat)
    requires d.cmds != [] && ctx.scale != 0.0 && j < |line|
    ensures Advance(line[..j + 1]) == Advance(line[..j]) + line[j].advance * TextScale
    ensures LayoutLine(d, ctx, line[..j + 1], row) == PlaceGlyph(LayoutLine(d, ctx, line[..j], row), ctx,
      Vec2(Advance(line[..j]), LineHeight * (row + 1) as real), TextScale, line[j].glyph)
  {
    assert line[..j + 1][..j] == line[..j];
  }

  /** The draw list after placing every row, top to bottom. */
  function Layout(d: DrawListData, ctx: DrawContext, lines: seq<seq<GlyphEntry>>): (r: DrawListData)
    requires d.cmds != [] && ctx.scale != 0.0
    ensures |r.cmds| == |d.cmds|
  {
    if lines == [] then d
    else
      var n := |lines| - 1;
      LayoutLine(Layout(d, ctx, lines[..n]), ctx, lines[n], n)
  }

  /** Every glyph of the table was made by the outline builder. */
  predicate GlyphTable(lines: seq<seq<GlyphEntry>>) {
    forall l, j :: 0 <= l < |lines| && 0 <= j < |lines[l]| ==> Built(lines[l][j].glyph)
  }

  lemma {:induction false} LayoutLineKeeps(d: DrawListData, ctx: DrawContext, line: seq<GlyphEntry>, row: nat)
    requires d.cmds != [] && ctx.scale != 0.0
    requires forall j :: 0 <= j < |line| ==> Built(line[j].glyph)
    ensures var e := LayoutLine(d, ctx, line, row);
      && (WellFormed(d) ==> WellFormed(e))
      && (IndicesBelow(d.idxBuffer, |d.vtxBuffer|) ==> IndicesBelow(e.idxBuffer, |e.vtxBuffer|))
  {
    if line != [] {
      var n := |line| - 1;
      LayoutLineKeeps(d, ctx, line[..n], row);
      BuiltInRange(line[n].glyph);
      PlaceGlyphKeeps(LayoutLine(d, ctx, line[..n], row), ctx, PenAt(line, n, row), TextScale, line[n].glyph);
    }
  }

  /** Laying out a table of builder glyphs keeps the draw-list invariants. */
  lemma {:induction false} LayoutKeeps(d: DrawListData, ctx: DrawContext, lines: seq<seq<GlyphEntry>>)
    requires d.cmds != [] && ctx.scale != 0.0
    requires GlyphTable(lines)
    ensures var e := Layout(d, ctx, lines);
      && (WellFormed(d) ==> WellFormed(e))
      && (IndicesBelow(d.idxBuffer, |d.vtxBuffer|) ==> IndicesBelow(e.idxBuffer, |e.vtxBuffer|))
  {
    if lines != [] {
      var n := |lines| - 1;
      assert GlyphTable(lines[..n]) by {
        forall l, j | 0 <= l < n && 0 <= j < |lines[..n][l]| ensures Built(lines[..n][l][j].glyph) {
          assert lines[..n][l] == lines[l];
        }
      }
      LayoutKeeps(d, ctx, lines[..n]);
      assert forall j :: 0 <= j < |lines[n]| ==> Built(lines[n][j].glyph);
      LayoutLineKeeps(Layout(d, ctx, lines[..n]), ctx, lines[n], n);
    }
  }

  /** The text colour of the frame: opaque black. */
  const TextColor: Color := Vec4(0.0, 0.0, 0.0, 1.0)

  /** The draw list a frame submits: one text layer, then the laid-out text. */
  function Frame(d: DrawListData, ctx: DrawContext, lines: seq<seq<GlyphEntry>>): DrawListData
    requires ctx.scale != 0.0
  {
    Layout(OpenTextLayer(d, TextColor), ctx, lines)
  }

  /** A frame of builder glyphs drawn onto a well-formed list leaves it
      well-formed and in range, and ends in a text layer. */
  lemma FrameKeeps(d: DrawListData, ctx: DrawContext, lines: seq<seq<GlyphEntry>>)
    requires ctx.scale != 0.0 && GlyphTable(lines)
    ensures var e := Frame(d, ctx, lines);
      && (WellFormed(d) ==> WellFormed(e) && e.cmds[|e.cmds| - 1].isText)
      && (IndicesBelow(d.idxBuffer, |d.vtxBuffer|) ==> IndicesBelow(e.idxBuffer, |e.vtxBuffer|))
  {
    var o := OpenTextLayer(d, TextColor);
    if WellFormed(d) {
      TextLayerHeader(d, TextColor);
    }
    if IndicesBelow(d.idxBuffer, |d.vtxBuffer|) {
      GrowTextIndices(d, TextColor);
    }
    LayoutKeeps(o, ctx, lines);
    LayoutLastLayer(o, ctx, lines);
  }

  lemma GrowTextIndices(d: DrawListData, col: Color)
    requires IndicesBelow(d.idxBuffer, |d.vtxBuffer|)
    ensures var o := OpenTextLayer(d, col); IndicesBelow(o.idxBuffer, |o.vtxBuffer|)
  {
    var o := OpenTextLayer(d, col);
    forall i | 0 <= i < |o.idxBuffer| ensures o.idxBuffer[i] < |o.vtxBuffer| {
      if i >= |d.idxBuffer| {
        assert o.idxBuffer[i] == QuadIndices(|d.vtxBuffer|)[i - |d.idxBuffer|];
      }
    }
  }

  lemma {:induction false} LayoutLineLastLayer(d: DrawListData, ctx: DrawContext, line: seq<GlyphEntry>, row: nat)
    requires d.cmds != [] && ctx.scale != 0.0
    ensures var e := LayoutLine(d, ctx, line, row); e.cmds[|e.cmds| - 1].isText == d.cmds[|d.cmds| - 1].isText
  {
    if line != [] {
      var n := |line| - 1;
      LayoutLineLastLayer(d, ctx, line[..n], row);
      var d' := LayoutLine(d, ctx, line[..n], row);
      BumpLastFacts(d'.cmds, line[n].glyph.numOfElems);
    }
  }

  lemma {:induction false} LayoutLastLayer(d: DrawListData, ctx: DrawContext, lines: seq<seq<GlyphEntry>>)
    requires d.cmds != [] && ctx.scale != 0.0
    ensures var e := Layout(d, ctx, lines); e.cmds[|e.cmds| - 1].isText == d.cmds[|d.cmds| - 1].isText
  {
    if lines != [] {
      var n := |lines| - 1;
      LayoutLastLayer(d, ctx, lines[..n]);
      LayoutLineLastLayer(Layout(d, ctx, lines[..n]), ctx, lines[n], n);
    }
  }

  /** The viewer: camera, draw list, the camera state handed to the
      drawing code, and the text to show as rows of glyphs. */
  class Gl2d {
    var transform: Transform
    var drawList: DrawList
    var drawContext: DrawContext
    var glyphs: seq<seq<GlyphEntry>>

    /** The scale stays in [0.1, 16], the draw context has a usable scale,
        the draw list keeps its invariants, and the glyphs are builder meshes. */
    predicate Valid()
      reads this, transform, drawList
    {
      && MinScale <= transform.scale <= MaxScale
      && drawContext.scale > 0.0
      && drawList.Valid() && drawList.IndicesInRange()
      && GlyphTable(glyphs)
    }

    /** `Gl2d::new`, given the glyph table the font provides. */
    constructor (glyphs: seq<seq<GlyphEntry>>)
      requires GlyphTable(glyphs)
      ensures Valid() && fresh(transform) && fresh(drawList)
      ensures drawList.Data() == Empty
      ensures drawContext == NewDrawContext(Size(1000, 1000)).(bgColor := Vec4(0.0, 0.0, 0.0, 0.0))
      ensures transform.scale == 1.0 && transform.translate == Zero2 && transform.screenSize == Size(1, 1)
      ensures this.glyphs == glyphs
    {
      drawList := new DrawList();
      var ctx := NewDrawContext(Size(1000, 1000));
      drawContext := ctx.(bgColor := Vec4(0.0, 0.0, 0.0, 0.0));
      transform := new Transform.Default();
      this.glyphs := glyphs;
    }

    /** Applies the frame's input to the camera, consumes it, clears the
        draw list and copies the camera into the draw context. */
    method BeginFrame(io: Io)
      requires Valid()
      modifies this, transform, drawList, io
      ensures Valid()
      ensures transform == old(transform) && drawList == old(drawList) && glyphs == old(glyphs)
      ensures var zoom := ClampZoom(old(transform.scale), old(io.wheelPinch));
        && transform.scale == old(transform.scale) * zoom
        && transform.translate ==
             ZoomTranslate(old(transform.translate), Vec2(-old(io.wheel.x), -old(io.wheel.y)), old(io.mouse), zoom)
      ensures transform.screenSize == old(io.screenSize)
      ensures drawList.Data() == Empty
      ensures drawContext == old(drawContext).(pixelRatio := old(io.pixelRatio), scale := transform.scale,
                                               translate := transform.translate, screenSize := transform.screenSize)
      ensures io.wheel == Zero2 && io.wheelPinch == 0.0
      ensures io.screenSize == old(io.screenSize) && io.pixelRatio == old(io.pixelRatio) && io.mouse == old(io.mouse)
    {
      var pixelRatio := ApplyInput(transform, io);
      drawList.Clear();
      drawContext := drawContext.(pixelRatio := pixelRatio, scale := transform.scale,
                                  translate := transform.translate, screenSize := transform.screenSize);
    }

    /** Opens the text layer and lays the text out: glyph j of row L at
        (0.2 * the advances before it, 200 * (L + 1)), at scale 0.2. */
    method Draw()
      requires Valid()
      modifies drawList
      ensures Valid()
      ensures drawList.Data() == Frame(old(drawList.Data()), drawContext, glyphs)
    {
      ghost var d := drawList.Data();
      drawList.NewTextLayer(TextColor);
      ghost var o := drawList.Data();
      var lineno := 0;
      while lineno < |glyphs|
        invariant 0 <= lineno <= |glyphs|
        invariant drawList.Data() == Layout(o, drawContext, glyphs[..lineno])
      {
        assert glyphs[..lineno + 1][..lineno] == glyphs[..lineno];
        assert forall j :: 0 <= j < |glyphs[lineno]| ==> Built(glyphs[lineno][j].glyph);
        DrawRow(drawList, drawContext, glyphs[lineno], lineno);
        lineno := lineno + 1;
      }
      assert glyphs[..lineno] == glyphs;
      FrameKeeps(d, drawContext, glyphs);
    }
  }

  /** The camera half of `Gl2d.BeginFrame`: the screen size, then the pan by
      the negated wheel and the clamped pinch zoom about the mouse; the
      input's deltas are consumed. Returns the pixel ratio. */
  method ApplyInput(transform: Transform, io: Io) returns (pixelRatio: real)
    requires MinScale <= transform.scale <= MaxScale
    modifies transform, io
    ensures MinScale <= transform.scale <= MaxScale
    ensures pixelRatio == old(io.pixelRatio)
    ensures var zoom := ClampZoom(old(transform.scale), old(io.wheelPinch));
      && transform.scale == old(transform.scale) * zoom
      && transform.translate ==
           ZoomTranslate(old(transform.translate), Vec2(-old(io.wheel.x), -old(io.wheel.y)), old(io.mouse), zoom)
    ensures transform.screenSize == old(io.screenSize)
    ensures io.wheel == Zero2 && io.wheelPinch == 0.0
    ensures io.screenSize == old(io.screenSize) && io.pixelRatio == old(io.pixelRatio) && io.mouse == old(io.mouse)
  {
    transform.screenSize := io.screenSize;
    pixelRatio := io.pixelRatio;
    var pan := Vec2(-io.wheel.x, -io.wheel.y);
    var origin := io.mouse;
    var zoom := ClampZoom(transform.scale, io.wheelPinch);
    ClampedScaleInRange(transform.scale, io.wheelPinch);
    transform.PanZoom(pan, origin, zoom);
    io.Reset();
  }

  /** One row of `Draw`: the pen starts at x = 0 and advances by each
      glyph's scaled advance. */
  method DrawRow(dl: DrawList, ctx: DrawContext, line: seq<GlyphEntry>, lineno: nat)
    requires dl.cmds != [] && ctx.scale != 0.0
    modifies dl
    ensures dl.Data() == LayoutLine(old(dl.Data()), ctx, line, lineno)
  {
    ghost var d := dl.Data();
    var x := 0.0;
    var j := 0;
    while j < |line|
      invariant 0 <= j <= |line| && dl.cmds != []
      invariant x == Advance(line[..j])
      invariant dl.Data() == LayoutLine(d, ctx, line[..j], lineno)
    {
      var e := line[j];
      AddGlyph(dl, ctx, Vec2(x, LineHeight * (lineno + 1) as real), TextScale, e.glyph);
      LayoutLineStep(d, ctx, line, j, lineno);
      x := x + e.advance * TextScale;
      j := j + 1;
    }
    assert line[..j] == line;
  }
}
