/** Glyph tessellation: an outline builder that turns a font outline into a
    triangle mesh (a fan around each contour's first point plus one curve
    patch per quadratic segment), and the placement of such a mesh into a
    draw list, culled against the visible world rectangle. */
module Glyphs {
  import opened Geometry
  import opened DrawLists

  datatype Option<T> = None | Some(value: T)

  /** A glyph bounding box in font units (y pointing up). */
  datatype Rect = Rect(xMin: int, yMin: int, xMax: int, yMax: int)

  /** The value held by a `Glyph` at one moment. */
  datatype GlyphData = GlyphData(
    idxBuffer: seq<nat>, vtxBuffer: seq<Vert>, numOfElems: nat, boundingBox: Option<Rect>)

  /** `Glyph::default()` */
  const NoGlyph := GlyphData([], [], 0, None)

  /** The colour every builder triangle carries. */
  const Ink: Color := Vec4(0.0, 0.0, 1.0 / 255.0, 1.0)

  /** The glyph after one triangle over three fresh vertices `t`. */
  function AddTri(g: GlyphData, t: seq<Vert>): GlyphData
    requires |t| == 3
  {
    var n := |g.vtxBuffer|;
    g.(idxBuffer := g.idxBuffer + [n, n + 1, n + 2],
       vtxBuffer := g.vtxBuffer + t,
       numOfElems := g.numOfElems + 1)
  }

  /** A filled (fan) triangle: tags (0,1), (0,1), (1,1). */
  function FanTri(a: Vec2, b: Vec2, c: Vec2, col: Color): seq<Vert> {
    [At(a, 0.0, 1.0, col), At(b, 0.0, 1.0, col), At(c, 1.0, 1.0, col)]
  }

  /** A quadratic curve patch: tags (0,0), (0.5,0), (1,1), the (u, v)
      coordinates of the Loop-Blinn technique over start, control, end. */
  function CurveTri(a: Vec2, b: Vec2, c: Vec2, col: Color): seq<Vert> {
    [At(a, 0.0, 0.0, col), At(b, 0.5, 0.0, col), At(c, 1.0, 1.0, col)]
  }

  /** The (z, w) tags of a vertex. */
  function Tags(v: Vert): Vec2 { Vec2(v.pos.z, v.pos.w) }

  const FanTags := [Vec2(0.0, 1.0), Vec2(0.0, 1.0), Vec2(1.0, 1.0)]
  const CurveTags := [Vec2(0.0, 0.0), Vec2(0.5, 0.0), Vec2(1.0, 1.0)]

  /** Triangle `j` of the vertex list carries the fan or the curve tags. */
  predicate TriangleTagged(vs: seq<Vert>, j: nat) {
    && 3 * j + 3 <= |vs|
    && var tags := [Tags(vs[3 * j]), Tags(vs[3 * j + 1]), Tags(vs[3 * j + 2])];
      tags == FanTags || tags == CurveTags
  }

  /** The shape of every mesh the builder makes: each triangle owns three
      fresh vertices (so `idx[i] == i`), every vertex has the ink colour,
      and every triangle is tagged as fan or as curve. */
  predicate Built(g: GlyphData) {
    && |g.vtxBuffer| == |g.idxBuffer| == 3 * g.numOfElems
    && (forall i :: 0 <= i < |g.idxBuffer| ==> g.idxBuffer[i] == i)
    && (forall i :: 0 <= i < |g.vtxBuffer| ==> g.vtxBuffer[i].col == Ink)
    && (forall j :: 0 <= j < g.numOfElems ==> TriangleTagged(g.vtxBuffer, j))
  }

  lemma BuiltInRange(g: GlyphData)
    requires Built(g)
    ensures IndicesBelow(g.idxBuffer, |g.vtxBuffer|)
    ensures |g.idxBuffer| == 3 * g.numOfElems
  {
  }

  /** Adding a fan or curve triangle in ink keeps the builder's mesh shape. */
  lemma AddTriBuilt(g: GlyphData, t: seq<Vert>)
    requires Built(g) && |t| == 3
    requires forall i :: 0 <= i < 3 ==> t[i].col == Ink
    requires [Tags(t[0]), Tags(t[1]), Tags(t[2])] == FanTags
          || [Tags(t[0]), Tags(t[1]), Tags(t[2])] == CurveTags
    ensures Built(AddTri(g, t))
  {
    var e := AddTri(g, t);
    forall j | 0 <= j < e.numOfElems
      ensures TriangleTagged(e.vtxBuffer, j)
    {
      if j < g.numOfElems {
        assert TriangleTagged(g.vtxBuffer, j);
        assert e.vtxBuffer[3 * j] == g.vtxBuffer[3 * j];
        assert e.vtxBuffer[3 * j + 1] == g.vtxBuffer[3 * j + 1];
        assert e.vtxBuffer[3 * j + 2] == g.vtxBuffer[3 * j + 2];
      } else {
        assert 3 * j == |g.vtxBuffer|;
        assert e.vtxBuffer[3 * j..3 * j + 3] == t;
      }
    }
  }

  /** One event of a glyph outline, as a font parser reports it; y points up. */
  datatype OutlineEvent =
    | Move(x: real, y: real)
    | Line(x: real, y: real)
    | Quad(x1: real, y1: real, x: real, y: real)
    | Cubic(x1: real, y1: real, x2: real, y2: real, x: real, y: real)
    | ClosePath

  /** The value held by a `GlyphBuilder`. */
  datatype BuilderState = BuilderState(firstPoint: Vec2, currentPoint: Vec2, contourCount: nat, glyph: GlyphData)

  /** `GlyphBuilder::default()` */
  const NewBuilder := BuilderState(Zero2, Zero2, 0, NoGlyph)

  /** Font y points up, screen y points down. */
  function Flip(x: real, y: real): Vec2 { Vec2(x, -y) }

  /** The fan triangle a segment ending at `p` adds: none for the first
      segment of a contour, (first, current, p) for every later one. */
  function FanStep(s: BuilderState, p: Vec2): GlyphData {
    if s.contourCount + 1 >= 2 then AddTri(s.glyph, FanTri(s.firstPoint, s.currentPoint, p, Ink))
    else s.glyph
  }

  /** The builder after one outline event; cubic segments are not supported. */
  function Step(s: BuilderState, e: OutlineEvent): (r: Option<BuilderState>)
    ensures r.None? <==> e.Cubic?
  {
    match e
    case Move(x, y) => Some(BuilderState(Flip(x, y), Flip(x, y), 0, s.glyph))
    case Line(x, y) =>
      Some(BuilderState(s.firstPoint, Flip(x, y), s.contourCount + 1, FanStep(s, Flip(x, y))))
    case Quad(x1, y1, x, y) =>
      var g := AddTri(FanStep(s, Flip(x, y)), CurveTri(s.currentPoint, Flip(x1, y1), Flip(x, y), Ink));
      Some(BuilderState(s.firstPoint, Flip(x, y), s.contourCount + 1, g))
    case Cubic(_, _, _, _, _, _) => None
    case ClosePath => Some(s.(currentPoint := s.firstPoint, contourCount := 0))
  }

  /** The builder after a whole event sequence, or `None` once a cubic
      segment has been met. The mesh only grows, by at most two triangles
      per event, and the bounding box is left alone. */
  function Run(s: BuilderState, es: seq<OutlineEvent>): (r: Option<BuilderState>)
    ensures r.Some? ==>
      && s.glyph.vtxBuffer <= r.value.glyph.vtxBuffer
      && s.glyph.idxBuffer <= r.value.glyph.idxBuffer
      && s.glyph.numOfElems <= r.value.glyph.numOfElems <= s.glyph.numOfElems + 2 * |es|
      && r.value.glyph.boundingBox == s.glyph.boundingBox
  {
    if es == [] then Some(s)
    else
      match Run(s, es[..|es| - 1])
      case None => None
      case Some(t) => Step(t, es[|es| - 1])
  }

  /** `Glyph::new` on an outline: the mesh the builder makes, with the
      bounding box the parser reports. */
  function Outline(es: seq<OutlineEvent>, rect: Option<Rect>): (r: Option<GlyphData>)
    ensures r.Some? ==> r.value.boundingBox == rect && r.value.numOfElems <= 2 * |es|
  {
    match Run(NewBuilder, es)
    case None => None
    case Some(t) => Some(t.glyph.(boundingBox := rect))
  }

  /** Running two event sequences one after the other is running their
      concatenation. */
  lemma {:induction false} RunAppend(s: BuilderState, a: seq<OutlineEvent>, b: seq<OutlineEvent>)
    ensures Run(s, a + b) == if Run(s, a).None? then None else Run(Run(s, a).value, b)
    decreases |b|
  {
    if b == [] {
      assert a + b == a;
    } else {
      var b' := b[..|b| - 1];
      assert (a + b)[..|a + b| - 1] == a + b';
      assert (a + b)[|a + b| - 1] == b[|b| - 1];
      RunAppend(s, a, b');
    }
  }

  /** The builder keeps the mesh shape through every event sequence. */
  lemma {:induction false} RunBuilt(s: BuilderState, es: seq<OutlineEvent>)
    requires Built(s.glyph)
    ensures Run(s, es).Some? ==> Built(Run(s, es).value.glyph)
  {
    if es != [] {
      RunBuilt(s, es[..|es| - 1]);
      var r := Run(s, es[..|es| - 1]);
      if r.Some? {
        StepBuilt(r.value, es[|es| - 1]);
      }
    }
  }

  lemma StepBuilt(s: BuilderState, e: OutlineEvent)
    requires Built(s.glyph)
    ensures Step(s, e).Some? ==> Built(Step(s, e).value.glyph)
  {
    match e
    case Line(x, y) =>
      FanStepBuilt(s, Flip(x, y));
    case Quad(x1, y1, x, y) =>
      FanStepBuilt(s, Flip(x, y));
      AddTriBuilt(FanStep(s, Flip(x, y)), CurveTri(s.currentPoint, Flip(x1, y1), Flip(x, y), Ink));
    case _ =>
  }

  lemma FanStepBuilt(s: BuilderState, p: Vec2)
    requires Built(s.glyph)
    ensures Built(FanStep(s, p))
  {
    if s.contourCount + 1 >= 2 {
      AddTriBuilt(s.glyph, FanTri(s.firstPoint, s.currentPoint, p, Ink));
    }
  }

  /** Every glyph made from an outline has the builder's mesh shape, so all
      its indices name its own vertices, and it keeps the parser's box. */
  lemma OutlineBuilt(es: seq<OutlineEvent>, rect: Option<Rect>)
    ensures Outline(es, rect).Some? ==>
      && Built(Outline(es, rect).value)
      && IndicesBelow(Outline(es, rect).value.idxBuffer, |Outline(es, rect).value.vtxBuffer|)
      && Outline(es, rect).value.boundingBox == rect
  {
    assert Built(NewBuilder.glyph);
    RunBuilt(NewBuilder, es);
  }

  /** An outline fails exactly when it holds a cubic segment. */
  lemma {:induction false} RunFailsIffCubic(s: BuilderState, es: seq<OutlineEvent>)
    ensures Run(s, es).None? <==> exists i :: 0 <= i < |es| && es[i].Cubic?
  {
    if es != [] {
      var init := es[..|es| - 1];
      RunFailsIffCubic(s, init);
      if exists i :: 0 <= i < |init| && init[i].Cubic? {
        var i :| 0 <= i < |init| && init[i].Cubic?;
        assert es[i].Cubic?;
      }
      if exists i :: 0 <= i < |es| && es[i].Cubic? {
        var i :| 0 <= i < |es| && es[i].Cubic?;
        if i < |init| {
          assert init[i].Cubic?;
        }
      }
    }
  }

  lemma OutlineFailsIffCubic(es: seq<OutlineEvent>, rect: Option<Rect>)
    ensures Outline(es, rect).None? <==> exists i :: 0 <= i < |es| && es[i].Cubic?
  {
    RunFailsIffCubic(NewBuilder, es);
  }

  /** A segment of a contour: a line or a quadratic curve. */
  predicate Segments(es: seq<OutlineEvent>) {
    forall i :: 0 <= i < |es| ==> es[i].Line? || es[i].Quad?
  }

  /** The number of quadratic segments. */
  function Quads(es: seq<OutlineEvent>): nat {
    if es == [] then 0
    else Quads(es[..|es| - 1]) + (if es[|es| - 1].Quad? then 1 else 0)
  }

  /** The fan triangles `k` further segments add to a contour that already
      has `c`: one per segment except the contour's first. */
  function Fans(c: nat, k: nat): nat {
    if c >= 1 then k else if k == 0 then 0 else k - 1
  }

  /** `k` segments after `c` earlier ones add one fan triangle per segment
      past the contour's first, one curve patch per quadratic segment, and
      leave the contour's first point where it was. */
  lemma {:induction false} SegmentsCount(s: BuilderState, es: seq<OutlineEvent>)
    requires Segments(es)
    ensures Run(s, es).Some?
    ensures var t := Run(s, es).value;
      && t.firstPoint == s.firstPoint
      && t.contourCount == s.contourCount + |es|
      && t.glyph.numOfElems == s.glyph.numOfElems + Fans(s.contourCount, |es|) + Quads(es)
  {
    if es != [] {
      var init := es[..|es| - 1];
      assert Segments(init) by {
        forall i | 0 <= i < |init| ensures init[i].Line? || init[i].Quad? {
          assert init[i] == es[i];
        }
      }
      SegmentsCount(s, init);
      assert es[|es| - 1].Line? || es[|es| - 1].Quad?;
    }
  }

  /** A contour of `k` segments, `q` of them quadratic, opened by a move,
      yields max(0, k - 1) + q triangles. */
  lemma ContourTriangles(s: BuilderState, x: real, y: real, es: seq<OutlineEvent>)
    requires Segments(es)
    ensures Run(s, [Move(x, y)] + es).Some?
    ensures Run(s, [Move(x, y)] + es).value.glyph.numOfElems ==
      s.glyph.numOfElems + (if |es| == 0 then 0 else |es| - 1) + Quads(es)
  {
    RunAppend(s, [Move(x, y)], es);
    assert [Move(x, y)][..0] == [];
    var t := Run(s, [Move(x, y)]).value;
    assert t.contourCount == 0 && t.glyph == s.glyph;
    SegmentsCount(t, es);
  }

  /** A unit square: one move and three lines make a fan of two triangles
      around the first corner; closing adds nothing. */
  lemma SquareOutline()
    ensures var es := [Move(0.0, 0.0), Line(1.0, 0.0), Line(1.0, 1.0), Line(0.0, 1.0), ClosePath];
      Outline(es, None) == Some(GlyphData(
        [0, 1, 2, 3, 4, 5],
        FanTri(Vec2(0.0, 0.0), Vec2(1.0, 0.0), Vec2(1.0, -1.0), Ink)
          + FanTri(Vec2(0.0, 0.0), Vec2(1.0, -1.0), Vec2(0.0, -1.0), Ink),
        2, None))
  {
    var es := [Move(0.0, 0.0), Line(1.0, 0.0), Line(1.0, 1.0), Line(0.0, 1.0), ClosePath];
    var a, b, c := Vec2(0.0, 0.0), Vec2(1.0, 0.0), Vec2(1.0, -1.0);
    assert es[..1][..0] == [] && es[..2][..1] == es[..1] && es[..3][..2] == es[..2];
    assert es[..4][..3] == es[..3] && es[..5][..4] == es[..4];
    assert Run(NewBuilder, es[..1]) == Some(BuilderState(a, a, 0, NoGlyph));
    assert Run(NewBuilder, es[..2]) == Some(BuilderState(a, b, 1, NoGlyph));
    var g1 := AddTri(NoGlyph, FanTri(a, b, c, Ink));
    assert Run(NewBuilder, es[..3]) == Some(BuilderState(a, c, 2, g1));
    var g2 := AddTri(g1, FanTri(a, c, Vec2(0.0, -1.0), Ink));
    assert Run(NewBuilder, es[..4]) == Some(BuilderState(a, Vec2(0.0, -1.0), 3, g2));
    assert es[..5] == es;
    assert Run(NewBuilder, es) == Some(BuilderState(a, a, 0, g2));
    assert g2.idxBuffer == [0, 1, 2] + [3, 4, 5] == [0, 1, 2, 3, 4, 5];
    assert g2.vtxBuffer == [] + FanTri(a, b, c, Ink) + FanTri(a, c, Vec2(0.0, -1.0), Ink);
    assert Outline(es, None) == Some(g2);
    assert g2 == GlyphData([0, 1, 2, 3, 4, 5], FanTri(a, b, c, Ink) + FanTri(a, c, Vec2(0.0, -1.0), Ink), 2, None);
  }

  /** A glyph under construction. */
  class Glyph {
    var idxBuffer: seq<nat>
    var vtxBuffer: seq<Vert>
    var numOfElems: nat
    var boundingBox: Option<Rect>

    function Data(): GlyphData
      reads this
    {
      GlyphData(idxBuffer, vtxBuffer, numOfElems, boundingBox)
    }

    /** `Glyph::default()` */
    constructor ()
      ensures Data() == NoGlyph
    {
      idxBuffer := [];
      vtxBuffer := [];
      numOfElems := 0;
      boundingBox := None;
    }

    /** A capacity hint only; it has no effect on the contents. */
    method Reserve(idxCount: nat, vtxCount: nat)
    {
    }

    /** Returns the handle of the new vertex: the previous vertex count. */
    method PushVert(vert: Vert) returns (handle: nat)
      modifies this
      ensures handle == old(|vtxBuffer|)
      ensures Data() == old(Data()).(vtxBuffer := old(vtxBuffer) + [vert])
    {
      handle := |vtxBuffer|;
      vtxBuffer := vtxBuffer + [vert];
    }

    /** Appends the triangle (a, b, c). */
    method PushElem(a: nat, b: nat, c: nat)
      modifies this
      ensures Data() == old(Data()).(idxBuffer := old(idxBuffer) + [a, b, c], numOfElems := old(numOfElems) + 1)
    {
      idxBuffer := idxBuffer + [a];
      idxBuffer := idxBuffer + [b];
      idxBuffer := idxBuffer + [c];
      numOfElems := numOfElems + 1;
    }
  }

  /** The outline builder: the contour's first point, the pen position, the
      number of segments in the current contour, and the mesh so far. */
  class GlyphBuilder {
    var firstPoint: Vec2
    var currentPoint: Vec2
    var contourCount: nat
    var glyph: Glyph

    function State(): BuilderState
      reads this, glyph
    {
      BuilderState(firstPoint, currentPoint, contourCount, glyph.Data())
    }

    /** `GlyphBuilder::default()` */
    constructor ()
      ensures State() == NewBuilder && fresh(glyph)
    {
      firstPoint := Zero2;
      currentPoint := Zero2;
      contourCount := 0;
      glyph := new Glyph();
    }

    method AddTriangle(a: Vec2, b: Vec2, c: Vec2, col: Color)
      modifies glyph
      ensures glyph.Data() == AddTri(old(glyph.Data()), FanTri(a, b, c, col))
    {
      glyph.Reserve(3, 3);
      var ia := glyph.PushVert(At(a, 0.0, 1.0, col));
      var ib := glyph.PushVert(At(b, 0.0, 1.0, col));
      var ic := glyph.PushVert(At(c, 1.0, 1.0, col));
      glyph.PushElem(ia, ib, ic);
    }

    method AddCurve(a: Vec2, b: Vec2, c: Vec2, col: Color)
      modifies glyph
      ensures glyph.Data() == AddTri(old(glyph.Data()), CurveTri(a, b, c, col))
    {
      glyph.Reserve(3, 3);
      var ia := glyph.PushVert(At(a, 0.0, 0.0, col));
      var ib := glyph.PushVert(At(b, 0.5, 0.0, col));
      var ic := glyph.PushVert(At(c, 1.0, 1.0, col));
      glyph.PushElem(ia, ib, ic);
    }

    /** Hands over the mesh built so far. */
    method Build() returns (g: Glyph)
      ensures g == glyph
    {
      g := glyph;
    }

    method MoveTo(x: real, y: real)
      modifies this
      ensures glyph == old(glyph)
      ensures Step(old(State()), Move(x, y)) == Some(State())
    {
      firstPoint := Vec2(x, -y);
      currentPoint := firstPoint;
      contourCount := 0;
    }

    method LineTo(x: real, y: real)
      modifies this, glyph
      ensures glyph == old(glyph)
      ensures Step(old(State()), Line(x, y)) == Some(State())
    {
      contourCount := contourCount + 1;
      var newPoint := Vec2(x, -y);
      if contourCount >= 2 {
        AddTriangle(firstPoint, currentPoint, newPoint, Ink);
      }
      currentPoint := newPoint;
    }

    method QuadTo(x1: real, y1: real, x: real, y: real)
      modifies this, glyph
      ensures glyph == old(glyph)
      ensures Step(old(State()), Quad(x1, y1, x, y)) == Some(State())
    {
      contourCount := contourCount + 1;
      var newPoint := Vec2(x, -y);
      if contourCount >= 2 {
        AddTriangle(firstPoint, currentPoint, newPoint, Ink);
      }
      AddCurve(currentPoint, Vec2(x1, -y1), newPoint, Ink);
      currentPoint := newPoint;
    }

    /** Cubic segments are not implemented: the call reports failure and
        changes nothing. */
    method CurveTo(x1: real, y1: real, x2: real, y2: real, x: real, y: real) returns (supported: bool)
      ensures !supported
      ensures Step(State(), Cubic(x1, y1, x2, y2, x, y)).None?
    {
      supported := false;
    }

    method Close()
      modifies this
      ensures glyph == old(glyph)
      ensures Step(old(State()), ClosePath) == Some(State())
    {
      currentPoint := firstPoint;
      contourCount := 0;
    }
  }

  /** `Glyph::new`: drives a fresh builder with the outline the font parser
      reports, then attaches the parser's bounding box. An outline with a
      cubic segment fails. */
  method NewGlyph(outline: seq<OutlineEvent>, rect: Option<Rect>) returns (r: Option<Glyph>)
    ensures r.None? <==> Outline(outline, rect).None?
    ensures r.Some? ==> fresh(r.value) && Outline(outline, rect) == Some(r.value.Data())
  {
    var builder := new GlyphBuilder();
    var i := 0;
    while i < |outline|
      invariant 0 <= i <= |outline|
      invariant fresh(builder) && fresh(builder.glyph)
      invariant Run(NewBuilder, outline[..i]) == Some(builder.State())
    {
      assert outline[..i + 1][..i] == outline[..i];
      match outline[i] {
        case Move(x, y) => builder.MoveTo(x, y);
        case Line(x, y) => builder.LineTo(x, y);
        case Quad(x1, y1, x, y) => builder.QuadTo(x1, y1, x, y);
        case ClosePath => builder.Close();
        case Cubic(x1, y1, x2, y2, x, y) =>
          var supported := builder.CurveTo(x1, y1, x2, y2, x, y);
          RunAppend(NewBuilder, outline[..i + 1], outline[i + 1..]);
          assert outline[..i + 1] + outline[i + 1..] == outline;
          return None;
      }
      i := i + 1;
    }
    assert outline[..i] == outline;
    var glyph := builder.Build();
    glyph.boundingBox := rect;
    return Some(glyph);
  }

  // Placement

  /** The world-space corners of the visible screen: the inverse of the
      camera map x -> x * scale + translate. */
  function ScreenLeftTop(ctx: DrawContext): Vec2
    requires ctx.scale != 0.0
  {
    Vec2(-ctx.translate.x / ctx.scale, -ctx.translate.y / ctx.scale)
  }

  function ScreenRightBottom(ctx: DrawContext): Vec2
    requires ctx.scale != 0.0
  {
    Vec2((ctx.screenSize.x as real - ctx.translate.x) / ctx.scale,
         (ctx.screenSize.y as real - ctx.translate.y) / ctx.scale)
  }

  /** A point of glyph space (y already flipped) placed at `pos` with `s`. */
  function Place(p: Vec2, pos: Vec2, s: real): Vec2 { Add(Scale(p, s), pos) }

  /** The top-left corner of the placed box: (x_min, -y_max). */
  function BoxLeftTop(bb: Rect, pos: Vec2, s: real): Vec2 {
    Place(Vec2(bb.xMin as real, -(bb.yMax as real)), pos, s)
  }

  /** The bottom-right corner of the placed box: (x_max, -y_min). */
  function BoxRightBottom(bb: Rect, pos: Vec2, s: real): Vec2 {
    Place(Vec2(bb.xMax as real, -(bb.yMin as real)), pos, s)
  }

  /** The bottom-right corner as the cull test computes it: y_min is not
      negated, so the test puts the box's bottom edge at +y_min, the mirror
      image of the glyph's real bottom edge at -y_min. */
  function BoxRightBottomAsWritten(bb: Rect, pos: Vec2, s: real): Vec2 {
    Place(Vec2(bb.xMax as real, bb.yMin as real), pos, s)
  }

  /** Inclusive overlap of two axis-aligned rectangles. */
  predicate Overlaps(lt: Vec2, rb: Vec2, slt: Vec2, srb: Vec2) {
    lt.x <= srb.x && rb.x >= slt.x && lt.y <= srb.y && rb.y >= slt.y
  }

  /** The placed bounding box meets the visible rectangle. */
  predicate Hit(ctx: DrawContext, pos: Vec2, s: real, bb: Rect)
    requires ctx.scale != 0.0
  {
    Overlaps(BoxLeftTop(bb, pos, s), BoxRightBottom(bb, pos, s), ScreenLeftTop(ctx), ScreenRightBottom(ctx))
  }

  /** The test `add_glyph` performs, with the bottom edge misplaced. */
  predicate HitAsWritten(ctx: DrawContext, pos: Vec2, s: real, bb: Rect)
    requires ctx.scale != 0.0
  {
    Overlaps(BoxLeftTop(bb, pos, s), BoxRightBottomAsWritten(bb, pos, s), ScreenLeftTop(ctx), ScreenRightBottom(ctx))
  }

  /** The two tests differ only in the bottom edge: a box reaching below the
      baseline (y_min <= 0) is tested with a bottom edge that is too high, so
      the test as written passes less often; a box wholly above it
      (y_min >= 0) is tested with one too low, so it passes more often. */
  lemma AsWrittenAgainstFixed(ctx: DrawContext, pos: Vec2, s: real, bb: Rect)
    requires ctx.scale != 0.0 && s >= 0.0
    ensures bb.yMin <= 0 && HitAsWritten(ctx, pos, s, bb) ==> Hit(ctx, pos, s, bb)
    ensures bb.yMin >= 0 && Hit(ctx, pos, s, bb) ==> HitAsWritten(ctx, pos, s, bb)
    ensures bb.yMin == 0 ==> (Hit(ctx, pos, s, bb) <==> HitAsWritten(ctx, pos, s, bb))
  {
    if bb.yMin <= 0 {
      MulMono(bb.yMin as real, -(bb.yMin as real), s);
    }
    if bb.yMin >= 0 {
      MulMono(-(bb.yMin as real), bb.yMin as real, s);
    }
  }

  /** The point lies in the visible world rectangle. */
  predicate OnScreen(ctx: DrawContext, q: Vec2)
    requires ctx.scale != 0.0
  {
    var slt := ScreenLeftTop(ctx);
    var srb := ScreenRightBottom(ctx);
    slt.x <= q.x <= srb.x && slt.y <= q.y <= srb.y
  }

  /** The glyph-space point lies inside the box (y flipped). */
  predicate InBox(bb: Rect, p: Vec2) {
    bb.xMin as real <= p.x <= bb.xMax as real && -(bb.yMax as real) <= p.y <= -(bb.yMin as real)
  }

  lemma MulMono(a: real, b: real, s: real)
    requires a <= b && s >= 0.0
    ensures a * s <= b * s
  {
    assert (b - a) * s >= 0.0;
  }

  /** Culling is sound: a glyph-space point inside the box that lands on
      screen makes the test pass; so a culled glyph has no vertex on screen. */
  lemma CullIsSound(ctx: DrawContext, pos: Vec2, s: real, bb: Rect, p: Vec2)
    requires ctx.scale != 0.0 && s >= 0.0
    requires InBox(bb, p) && OnScreen(ctx, Place(p, pos, s))
    ensures Hit(ctx, pos, s, bb)
  {
    MulMono(bb.xMin as real, p.x, s);
    MulMono(p.x, bb.xMax as real, s);
    MulMono(-(bb.yMax as real), p.y, s);
    MulMono(p.y, -(bb.yMin as real), s);
  }

  /** The test as written drops a glyph whose lower part is on screen: box
      x in [0, 10], y in [-10, 10], placed at the origin with scale 1, camera
      shifted up by 5, so the visible rectangle starts at y = 5 and the
      glyph-space point (0, 7) inside the box is on screen. */
  lemma CullAsWrittenDropsVisible()
    ensures var ctx := DrawContext(Size(1000, 1000), 1.0, Vec2(0.0, -5.0), 1.0, Vec4(0.0, 0.0, 0.0, 0.0));
      var bb := Rect(0, -10, 10, 10);
      && InBox(bb, Vec2(0.0, 7.0))
      && OnScreen(ctx, Place(Vec2(0.0, 7.0), Zero2, 1.0))
      && !HitAsWritten(ctx, Zero2, 1.0, bb)
      && Hit(ctx, Zero2, 1.0, bb)
  {
  }

  /** A glyph whose placed box, [200, 300] x [200, 300], lies outside the
      visible rectangle [0, 100] x [0, 100] leaves the draw list as it was. */
  lemma CullDropsOffscreen(d: DrawListData, g: GlyphData)
    requires d.cmds != [] && g.boundingBox == Some(Rect(-50, -50, 50, 50))
    ensures var ctx := DrawContext(Size(100, 100), 1.0, Zero2, 1.0, Vec4(0.0, 0.0, 0.0, 0.0));
      && BoxLeftTop(g.boundingBox.value, Vec2(250.0, 250.0), 1.0) == Vec2(200.0, 200.0)
      && BoxRightBottom(g.boundingBox.value, Vec2(250.0, 250.0), 1.0) == Vec2(300.0, 300.0)
      && PlaceGlyph(d, ctx, Vec2(250.0, 250.0), 1.0, g) == d
  {
  }

  /** A vertex placed at `pos` with scale `s`: z, w and colour kept. */
  function PlaceVert(v: Vert, pos: Vec2, s: real): Vert {
    var xy := Place(XY(v.pos), pos, s);
    Vert(Vec4(xy.x, xy.y, v.pos.z, v.pos.w), v.col)
  }

  function PlaceVerts(vs: seq<Vert>, pos: Vec2, s: real): (r: seq<Vert>)
    ensures |r| == |vs| && forall i :: 0 <= i < |vs| ==> r[i] == PlaceVert(vs[i], pos, s)
  {
    seq(|vs|, i requires 0 <= i < |vs| => PlaceVert(vs[i], pos, s))
  }

  /** Local indices shifted to name the copies at the end of a vertex buffer of length `base`. */
  function Rebase(idx: seq<nat>, base: nat): (r: seq<nat>)
    ensures |r| == |idx| && forall i :: 0 <= i < |idx| ==> r[i] == idx[i] + base
  {
    seq(|idx|, i requires 0 <= i < |idx| => idx[i] + base)
  }

  /** The draw list after `add_glyph`: unchanged when the glyph has a box
      that the cull test as written rejects, otherwise the placed copy of
      its mesh is appended to the last layer, whatever came before kept. */
  function PlaceGlyph(d: DrawListData, ctx: DrawContext, pos: Vec2, s: real, g: GlyphData): (r: DrawListData)
    requires d.cmds != []
    requires g.boundingBox.Some? ==> ctx.scale != 0.0
    ensures g.boundingBox.Some? && !HitAsWritten(ctx, pos, s, g.boundingBox.value) ==> r == d
    ensures g.boundingBox.None? || HitAsWritten(ctx, pos, s, g.boundingBox.value) ==>
      && |r.cmds| == |d.cmds| && r.cmds[..|d.cmds| - 1] == d.cmds[..|d.cmds| - 1]
      && SumElems(r.cmds) == SumElems(d.cmds) + g.numOfElems
      && |r.vtxBuffer| == |d.vtxBuffer| + |g.vtxBuffer| && r.vtxBuffer[..|d.vtxBuffer|] == d.vtxBuffer
      && |r.idxBuffer| == |d.idxBuffer| + |g.idxBuffer| && r.idxBuffer[..|d.idxBuffer|] == d.idxBuffer
  {
    if g.boundingBox.Some? && !HitAsWritten(ctx, pos, s, g.boundingBox.value) then d
    else
      BumpLastFacts(d.cmds, g.numOfElems);
      Grow(d, PlaceVerts(g.vtxBuffer, pos, s), Rebase(g.idxBuffer, |d.vtxBuffer|), g.numOfElems)
  }

  /** Placement with the corrected cull test `Hit`: a glyph is dropped only
      when no point of its box is on screen (`CullIsSound`). */
  function PlaceGlyphFixed(d: DrawListData, ctx: DrawContext, pos: Vec2, s: real, g: GlyphData): (r: DrawListData)
    requires d.cmds != []
    requires g.boundingBox.Some? ==> ctx.scale != 0.0
    ensures r == d || r == Grow(d, PlaceVerts(g.vtxBuffer, pos, s), Rebase(g.idxBuffer, |d.vtxBuffer|), g.numOfElems)
    ensures s >= 0.0 && g.boundingBox.Some? && |g.vtxBuffer| > 0 ==>
      forall p :: InBox(g.boundingBox.value, p) && OnScreen(ctx, Place(p, pos, s)) ==> r != d
  {
    if g.boundingBox.Some? && !Hit(ctx, pos, s, g.boundingBox.value) then
      assert s >= 0.0 ==> forall p :: InBox(g.boundingBox.value, p) ==> !OnScreen(ctx, Place(p, pos, s)) by {
        if s >= 0.0 {
          forall p | InBox(g.boundingBox.value, p) ensures !OnScreen(ctx, Place(p, pos, s)) {
            if OnScreen(ctx, Place(p, pos, s)) {
              CullIsSound(ctx, pos, s, g.boundingBox.value, p);
            }
          }
        }
      }
      d
    else
      Grow(d, PlaceVerts(g.vtxBuffer, pos, s), Rebase(g.idxBuffer, |d.vtxBuffer|), g.numOfElems)
  }

  /** On the input of `CullAsWrittenDropsVisible`, `add_glyph` as written
      drops a glyph with a vertex, while the corrected placement draws it. */
  lemma AsWrittenDropsGlyph(d: DrawListData, g: GlyphData)
    requires d.cmds != [] && g.boundingBox == Some(Rect(0, -10, 10, 10)) && |g.vtxBuffer| > 0
    ensures var ctx := DrawContext(Size(1000, 1000), 1.0, Vec2(0.0, -5.0), 1.0, Vec4(0.0, 0.0, 0.0, 0.0));
      && PlaceGlyph(d, ctx, Zero2, 1.0, g) == d
      && PlaceGlyphFixed(d, ctx, Zero2, 1.0, g) != d
  {
    CullAsWrittenDropsVisible();
  }

  /** Placement keeps the draw-list invariants: tiling when the glyph has
      three indices per triangle, and the index bound when the glyph's own
      indices name its own vertices. */
  lemma PlaceGlyphKeeps(d: DrawListData, ctx: DrawContext, pos: Vec2, s: real, g: GlyphData)
    requires d.cmds != []
    requires g.boundingBox.Some? ==> ctx.scale != 0.0
    ensures WellFormed(d) && |g.idxBuffer| == 3 * g.numOfElems ==>
      WellFormed(PlaceGlyph(d, ctx, pos, s, g))
    ensures IndicesBelow(d.idxBuffer, |d.vtxBuffer|) && IndicesBelow(g.idxBuffer, |g.vtxBuffer|) ==>
      var e := PlaceGlyph(d, ctx, pos, s, g); IndicesBelow(e.idxBuffer, |e.vtxBuffer|)
  {
    if !(g.boundingBox.Some? && !HitAsWritten(ctx, pos, s, g.boundingBox.value)) {
      var verts := PlaceVerts(g.vtxBuffer, pos, s);
      var idx := Rebase(g.idxBuffer, |d.vtxBuffer|);
      if WellFormed(d) && |g.idxBuffer| == 3 * g.numOfElems {
        GrowWellFormed(d, verts, idx, g.numOfElems);
      }
      if IndicesBelow(d.idxBuffer, |d.vtxBuffer|) && IndicesBelow(g.idxBuffer, |g.vtxBuffer|) {
        GrowIndicesBelow(d, verts, idx, g.numOfElems);
      }
    }
  }

  /** A drawn glyph's mesh is copied faithfully: the `k`-th new index names
      the placed copy of the vertex the glyph's `k`-th index names. */
  lemma PlacedMesh(d: DrawListData, ctx: DrawContext, pos: Vec2, s: real, g: GlyphData, k: nat)
    requires d.cmds != []
    requires g.boundingBox.Some? ==> ctx.scale != 0.0
    requires g.boundingBox.None? || HitAsWritten(ctx, pos, s, g.boundingBox.value)
    requires IndicesBelow(g.idxBuffer, |g.vtxBuffer|) && k < |g.idxBuffer|
    ensures var e := PlaceGlyph(d, ctx, pos, s, g);
      && |e.idxBuffer| == |d.idxBuffer| + |g.idxBuffer|
      && e.idxBuffer[|d.idxBuffer| + k] < |e.vtxBuffer|
      && e.vtxBuffer[e.idxBuffer[|d.idxBuffer| + k]] == PlaceVert(g.vtxBuffer[g.idxBuffer[k]], pos, s)
  {
    var e := PlaceGlyph(d, ctx, pos, s, g);
    assert e.idxBuffer[|d.idxBuffer| + k] == g.idxBuffer[k] + |d.vtxBuffer|;
  }

  /** `DrawList::add_glyph` */
  method AddGlyph(dl: DrawList, ctx: DrawContext, position: Vec2, scale: real, glyph: GlyphData)
    requires dl.cmds != []
    requires glyph.boundingBox.Some? ==> ctx.scale != 0.0
    modifies dl
    ensures dl.Data() == PlaceGlyph(old(dl.Data()), ctx, position, scale, glyph)
    ensures old(dl.Valid()) && |glyph.idxBuffer| == 3 * glyph.numOfElems ==> dl.Valid()
    ensures old(dl.IndicesInRange()) && IndicesBelow(glyph.idxBuffer, |glyph.vtxBuffer|) ==>
      dl.IndicesInRange()
  {
    PlaceGlyphKeeps(dl.Data(), ctx, position, scale, glyph);
    if glyph.boundingBox.Some? {
      var bb := glyph.boundingBox.value;
      var hit := Overlaps(BoxLeftTop(bb, position, scale), BoxRightBottomAsWritten(bb, position, scale),
                          ScreenLeftTop(ctx), ScreenRightBottom(ctx));
      if !hit {
        return;
      }
    }
    ghost var d := dl.Data();
    var base := |dl.vtxBuffer|;
    dl.idxBuffer := dl.idxBuffer + Rebase(glyph.idxBuffer, base);
    var i := 0;
    while i < |glyph.vtxBuffer|
      invariant 0 <= i <= |glyph.vtxBuffer|
      invariant dl.cmds == d.cmds && dl.idxBuffer == d.idxBuffer + Rebase(glyph.idxBuffer, base)
      invariant dl.vtxBuffer == d.vtxBuffer + PlaceVerts(glyph.vtxBuffer[..i], position, scale)
    {
      var v := glyph.vtxBuffer[i];
      var xy := Add(Scale(XY(v.pos), scale), position);
      dl.vtxBuffer := dl.vtxBuffer + [Vert(Vec4(xy.x, xy.y, v.pos.z, v.pos.w), v.col)];
      assert PlaceVerts(glyph.vtxBuffer[..i + 1], position, scale)
          == PlaceVerts(glyph.vtxBuffer[..i], position, scale) + [PlaceVert(v, position, scale)];
      i := i + 1;
    }
    assert glyph.vtxBuffer[..i] == glyph.vtxBuffer;
    var last := dl.cmds[|dl.cmds| - 1];
    dl.cmds := dl.cmds[..|dl.cmds| - 1] + [last.(numOfElems := last.numOfElems + glyph.numOfElems)];
  }
}
