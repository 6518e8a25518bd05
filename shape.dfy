/** The shape tessellators: thick lines with round caps, rings and squares.
    Each appends its vertices to a `DrawList` and its triangles to the list's
    last layer. */
module Shapes {
  import opened Geometry
  import opened DrawLists

  /** A round-cap sample: an offset from a line end. `NotANumber` is the one
      sample `LineParams::new` produces when it asks for no segments, from the
      angle 0 * 2 / 0 * PI; every comparison with it is false. */
  datatype CapSample = Point(offset: Vec2) | NotANumber

  /** `LineParams`: half the thickness and the precomputed cap samples. */
  datatype LineParams = LineParams(halfThickness: real, capSegments: seq<CapSample>)

  /** The cap level of detail of a line `thickness` wide at camera `scale`:
      none up to one pixel, else ceil(1.5 * thickness * scale) cast to usize. */
  function CapSegmentCount(thickness: real, scale: real): (k: nat)
    ensures thickness * scale <= 1.0 ==> k == 0
    ensures thickness * scale > 1.0 ==> k >= 2
    ensures thickness * scale > 1.0 && Ceil(thickness * scale * 1.5) <= UsizeMax ==>
      (k as real) - 1.0 < thickness * scale * 1.5 <= k as real
  {
    var resolution := thickness * scale;
    if resolution <= 1.0 then 0 else SaturatingToUsize(Ceil(resolution * 1.5))
  }

  /** The angle of sample `i` of `k` around the full turn: i * 2 / k * PI. */
  function SampleAngle(i: nat, k: nat): real
    requires k > 0
  {
    (i as real) * 2.0 / (k as real) * PI
  }

  /** Sample `i` of the `k + 1` samples a cap of `k` segments takes, each the
      unit vector at its angle scaled by half the thickness. */
  function CapSampleAt(m: Math, i: nat, k: nat, half: real): CapSample {
    if k == 0 then NotANumber else Point(Scale(Unit(m, SampleAngle(i, k)), half))
  }

  /** The samples i = 0, 1, ..., k (both ends of the range included). */
  function CapSamples(m: Math, k: nat, half: real): (r: seq<CapSample>)
    ensures |r| == k + 1
    ensures forall i :: 0 <= i <= k ==> r[i] == CapSampleAt(m, i, k, half)
  {
    seq(k + 1, i requires 0 <= i => CapSampleAt(m, i, k, half))
  }

  /** `LineParams::new(scale, thickness)`: half the thickness and the k + 1
      cap samples of the cap level of detail k, all defined points when
      there are caps, and the single undefined sample when there are none. */
  function NewLineParams(m: Math, scale: real, thickness: real): (r: LineParams)
    ensures r.halfThickness == thickness * 0.5
    ensures |r.capSegments| == CapSegmentCount(thickness, scale) + 1
    ensures thickness * scale <= 1.0 ==> r.capSegments == [NotANumber]
    ensures thickness * scale > 1.0 ==> forall i :: 0 <= i < |r.capSegments| ==> r.capSegments[i].Point?
  {
    var r := LineParams(thickness * 0.5, CapSamples(m, CapSegmentCount(thickness, scale), thickness * 0.5));
    assert thickness * scale <= 1.0 ==> r.capSegments[0] == NotANumber;
    r
  }

  /** `LineParams::vtx_count`: the vertex reservation. */
  function VtxCount(p: LineParams): nat { 4 + |p.capSegments| }

  /** `LineParams::idx_count`: the index reservation. */
  function IdxCount(p: LineParams): nat { (2 + |p.capSegments|) * 3 }

  /** The vertex reservation of any parameters is exactly the number of
      vertices a line drawn with them has; for `LineParams::new` that is
      5 + k, k the cap level of detail. */
  lemma VtxCountExact(m: Math, scale: real, thickness: real, params: LineParams,
                      p1: Vec2, p2: Vec2, d: Vec2, col: Color)
    ensures VtxCount(params) == |LineVerts(p1, p2, d, params.capSegments, col)|
    ensures VtxCount(NewLineParams(m, scale, thickness)) == 5 + CapSegmentCount(thickness, scale)
  {
  }

  /** The index reservation of any parameters is exactly the number of
      indices a line drawn with them has; for `LineParams::new` that is
      3 * (3 + k). */
  lemma IdxCountExact(m: Math, scale: real, thickness: real, params: LineParams, n: nat, h: Vec2)
    ensures IdxCount(params) == |LineIndices(n, Sides(params.capSegments, h))|
    ensures IdxCount(NewLineParams(m, scale, thickness)) == 3 * (3 + CapSegmentCount(thickness, scale))
  {
  }

  /** The samples `add_line` draws: none without caps, else the `k + 1` of
      `LineParams::new`. */
  function AddLineSamples(m: Math, thickness: real, scale: real): seq<CapSample> {
    var k := CapSegmentCount(thickness, scale);
    if k == 0 then [] else CapSamples(m, k, thickness * 0.5)
  }

  /** The half-width offset along the line: the unit direction from p1 to p2
      scaled by half the thickness (zero when p1 == p2). */
  function LineOffset(m: Math, p1: Vec2, p2: Vec2, half: real): Vec2 {
    Scale(TryNormalize(m, Sub(p2, p1)), half)
  }

  /** The offset `d` turned a quarter turn, pointing to the v2/v3 side. */
  function Horizon(d: Vec2): Vec2 { Vec2(-d.y, d.x) }

  function Dot(a: Vec2, b: Vec2): real { a.x * b.x + a.y * b.y }

  /** The four corners of the line body around p1 and p2, in push order. */
  function BodyVerts(p1: Vec2, p2: Vec2, d: Vec2, col: Color): seq<Vert> {
    [ At(Vec2(p1.x + d.y, p1.y - d.x), 0.0, 1.0, col),
      At(Vec2(p2.x + d.y, p2.y - d.x), 0.0, 1.0, col),
      At(Vec2(p2.x - d.y, p2.y + d.x), 0.0, 1.0, col),
      At(Vec2(p1.x - d.y, p1.y + d.x), 0.0, 1.0, col) ]
  }

  /** The body triangles (v0, v1, v2) and (v0, v2, v3) over handles from `n`. */
  function BodyIndices(n: nat): seq<nat> { [n, n + 1, n + 2, n, n + 2, n + 3] }

  /** `r.perp(&horizon) < 0.`: whether a sample belongs to the cap at p1. */
  predicate OnFirstEnd(s: CapSample, horizon: Vec2) {
    s.Point? && Perp(s.offset, horizon) < 0.0
  }

  /** The vertex a sample adds: the sample offset from the end it belongs to. */
  function CapVert(s: CapSample, p1: Vec2, p2: Vec2, horizon: Vec2, col: Color): Vert {
    var end := if OnFirstEnd(s, horizon) then p1 else p2;
    At(if s.Point? then Add(end, s.offset) else end, 0.0, 1.0, col)
  }

  function CapVerts(samples: seq<CapSample>, p1: Vec2, p2: Vec2, horizon: Vec2, col: Color): (r: seq<Vert>)
    ensures |r| == |samples|
  {
    if samples == [] then []
    else
      CapVerts(samples[..|samples| - 1], p1, p2, horizon, col)
        + [CapVert(samples[|samples| - 1], p1, p2, horizon, col)]
  }

  /** The end each sample belongs to: true for p1. */
  function Sides(samples: seq<CapSample>, horizon: Vec2): (r: seq<bool>)
    ensures |r| == |samples|
    ensures forall j :: 0 <= j < |samples| ==> r[j] == OnFirstEnd(samples[j], horizon)
  {
    seq(|samples|, j requires 0 <= j < |samples| => OnFirstEnd(samples[j], horizon))
  }

  /** The triangle of cap sample `j`, whose vertex has handle n + 4 + j: a fan
      around v0 from the previous vertex at p1 (v3 if there is none since the
      last switch of end), or around v2 from the previous vertex at p2 (v1
      if there is none). */
  function CapTriangle(n: nat, j: nat, first: bool, continues: bool): seq<nat> {
    var w := n + 4 + j;
    if first then [n, if continues then w - 1 else n + 3, w]
    else [if continues then w - 1 else n + 1, n + 2, w]
  }

  /** Whether sample `j` lies at the same end as sample `j - 1`. */
  predicate Continues(sides: seq<bool>, j: nat)
    requires j < |sides|
  {
    j > 0 && sides[j - 1] == sides[j]
  }

  function CapIndices(n: nat, sides: seq<bool>): (r: seq<nat>)
    ensures |r| == 3 * |sides|
  {
    if sides == [] then []
    else
      var j := |sides| - 1;
      CapIndices(n, sides[..j]) + CapTriangle(n, j, sides[j], Continues(sides, j))
  }

  /** The triangles of a line over the handles from `n`. */
  function LineIndices(n: nat, sides: seq<bool>): (r: seq<nat>)
    ensures |r| == 6 + 3 * |sides|
  {
    BodyIndices(n) + CapIndices(n, sides)
  }

  /** The vertices of a line. */
  function LineVerts(p1: Vec2, p2: Vec2, d: Vec2, samples: seq<CapSample>, col: Color): (r: seq<Vert>)
    ensures |r| == 4 + |samples|
  {
    BodyVerts(p1, p2, d, col) + CapVerts(samples, p1, p2, Horizon(d), col)
  }

  /** What drawing a line with offset `d` and cap samples `samples` does to a
      draw list: 4 + |samples| vertices and 2 + |samples| triangles appended
      to the last layer. */
  function DrawLine(dl: DrawListData, p1: Vec2, p2: Vec2, d: Vec2, samples: seq<CapSample>, col: Color): (r: DrawListData)
    requires dl.cmds != []
    ensures |r.cmds| == |dl.cmds| && r.cmds[..|dl.cmds| - 1] == dl.cmds[..|dl.cmds| - 1]
    ensures SumElems(r.cmds) == SumElems(dl.cmds) + 2 + |samples|
    ensures |r.vtxBuffer| == |dl.vtxBuffer| + 4 + |samples| && r.vtxBuffer[..|dl.vtxBuffer|] == dl.vtxBuffer
    ensures r.vtxBuffer[|dl.vtxBuffer|..|dl.vtxBuffer| + 4] == BodyVerts(p1, p2, d, col)
    ensures |r.idxBuffer| == |dl.idxBuffer| + 3 * (2 + |samples|) && r.idxBuffer[..|dl.idxBuffer|] == dl.idxBuffer
    ensures r.idxBuffer[|dl.idxBuffer|..|dl.idxBuffer| + 6] == BodyIndices(|dl.vtxBuffer|)
  {
    var verts := LineVerts(p1, p2, d, samples, col);
    var idx := LineIndices(|dl.vtxBuffer|, Sides(samples, Horizon(d)));
    BumpLastFacts(dl.cmds, 2 + |samples|);
    assert (dl.vtxBuffer + verts)[|dl.vtxBuffer|..|dl.vtxBuffer| + 4] == verts[..4];
    assert (dl.idxBuffer + idx)[|dl.idxBuffer|..|dl.idxBuffer| + 6] == idx[..6];
    Grow(dl, verts, idx, 2 + |samples|)
  }

  lemma CapIndicesStep(n: nat, sides: seq<bool>, i: nat)
    requires i < |sides|
    ensures CapIndices(n, sides[..i + 1]) == CapIndices(n, sides[..i]) + CapTriangle(n, i, sides[i], Continues(sides, i))
  {
    assert sides[..i + 1][..i] == sides[..i];
  }

  lemma CapVertsStep(samples: seq<CapSample>, i: nat, p1: Vec2, p2: Vec2, horizon: Vec2, col: Color)
    requires i < |samples|
    ensures CapVerts(samples[..i + 1], p1, p2, horizon, col)
      == CapVerts(samples[..i], p1, p2, horizon, col) + [CapVert(samples[i], p1, p2, horizon, col)]
  {
    assert samples[..i + 1][..i] == samples[..i];
  }

  /** Every cap triangle names only vertices the same line pushed: handles in
      [n, n + 4 + |sides|). */
  lemma {:induction false} CapIndicesWithin(n: nat, sides: seq<bool>)
    ensures forall i :: 0 <= i < |CapIndices(n, sides)| ==>
      n <= CapIndices(n, sides)[i] < n + 4 + |sides|
  {
    if sides != [] {
      var j := |sides| - 1;
      CapIndicesWithin(n, sides[..j]);
      var r := CapIndices(n, sides);
      forall i | 0 <= i < |r|
        ensures n <= r[i] < n + 4 + |sides|
      {
        if i < 3 * j {
          assert r[i] == CapIndices(n, sides[..j])[i];
        }
      }
    }
  }

  /** The triangles of a line name only its own vertices. */
  lemma LineIndicesWithin(n: nat, sides: seq<bool>)
    ensures forall i :: 0 <= i < |LineIndices(n, sides)| ==>
      n <= LineIndices(n, sides)[i] < n + 4 + |sides|
  {
    CapIndicesWithin(n, sides);
    var r := LineIndices(n, sides);
    forall i | 0 <= i < |r|
      ensures n <= r[i] < n + 4 + |sides|
    {
      if i >= 6 {
        assert r[i] == CapIndices(n, sides)[i - 6];
      }
    }
  }

  /** Drawing a line keeps the structural invariant and the index bound. */
  lemma DrawLineKeeps(d: DrawListData, p1: Vec2, p2: Vec2, off: Vec2, samples: seq<CapSample>, col: Color)
    requires d.cmds != []
    ensures WellFormed(d) ==> WellFormed(DrawLine(d, p1, p2, off, samples, col))
    ensures IndicesBelow(d.idxBuffer, |d.vtxBuffer|) ==>
      var e := DrawLine(d, p1, p2, off, samples, col);
      IndicesBelow(e.idxBuffer, |e.vtxBuffer|)
  {
    var sides := Sides(samples, Horizon(off));
    var idx := LineIndices(|d.vtxBuffer|, sides);
    var verts := LineVerts(p1, p2, off, samples, col);
    if WellFormed(d) {
      GrowWellFormed(d, verts, idx, 2 + |samples|);
    }
    if IndicesBelow(d.idxBuffer, |d.vtxBuffer|) {
      LineIndicesWithin(|d.vtxBuffer|, sides);
      GrowIndicesBelow(d, verts, idx, 2 + |samples|);
    }
  }

  /** A sample belongs to the cap at p1 exactly when it points back along the
      line, against the direction from p1 to p2. */
  lemma FirstEndPointsBack(r: Vec2, d: Vec2)
    ensures OnFirstEnd(Point(r), Horizon(d)) <==> Dot(r, d) < 0.0
  {
  }

  /** `add_line` draws no caps up to one pixel of resolution and k + 1 cap
      samples beyond, k >= 2 being the cap level of detail; its reservation
      of 4 + k vertices and 3 * (2 + k) indices is then one vertex and one
      triangle short of what it pushes. */
  lemma AddLineSize(m: Math, thickness: real, scale: real)
    ensures var k := CapSegmentCount(thickness, scale);
      var n := |AddLineSamples(m, thickness, scale)|;
      && (thickness * scale <= 1.0 ==> n == 0)
      && (thickness * scale > 1.0 ==>
            n == k + 1 && k >= 2 && 4 + n == (4 + k) + 1 && 3 * (2 + n) == 3 * (2 + k) + 3)
  {
  }

  /** Above one pixel of resolution, `add_line_with_params` with
      `LineParams::new(scale, thickness)` draws exactly what `add_line` draws
      at that scale. Up to one pixel they differ: the parameters then hold
      one undefined sample, which adds a fifth vertex at p2 and a third
      triangle, where `add_line` draws the bare body. */
  lemma ParamsAgainstAddLine(m: Math, scale: real, thickness: real)
    ensures thickness * scale > 1.0 ==>
      NewLineParams(m, scale, thickness).capSegments == AddLineSamples(m, thickness, scale)
    ensures thickness * scale <= 1.0 ==>
      && NewLineParams(m, scale, thickness).capSegments == [NotANumber]
      && AddLineSamples(m, thickness, scale) == []
      && forall h :: !OnFirstEnd(NotANumber, h)
  {
  }

  /** A line from a point to itself has no direction: its offset is zero. */
  lemma DegenerateOffset(m: Math, p: Vec2, half: real)
    ensures LineOffset(m, p, p, half) == Zero2
  {
    assert TryNormalize(m, Sub(p, p)) == Zero2;
  }

  /** With a zero offset the four body corners coincide with the point and
      every cap sample is drawn at p2. */
  lemma DegenerateLine(p: Vec2, samples: seq<CapSample>, col: Color)
    ensures var q := At(p, 0.0, 1.0, col); BodyVerts(p, p, Zero2, col) == [q, q, q, q]
    ensures forall j :: 0 <= j < |samples| ==> !Sides(samples, Horizon(Zero2))[j]
  {
    assert Horizon(Zero2) == Zero2;
    forall j | 0 <= j < |samples|
      ensures !OnFirstEnd(samples[j], Zero2)
    {
      if samples[j].Point? {
        PerpZero(samples[j].offset);
      }
    }
  }

  lemma PerpZero(a: Vec2)
    ensures Perp(a, Zero2) == 0.0
  {
    assert a.x * 0.0 == 0.0 && a.y * 0.0 == 0.0;
  }

  /** One cap sample of the round caps: pushes its vertex at the end it
      belongs to and fans it from the previous vertex at that end. */
  method PushCapSample(dl: DrawList, v0: nat, v1: nat, v2: nat, v3: nat, vt: nat, vb: nat,
                       p1: Vec2, p2: Vec2, horizon: Vec2, r: CapSample, col: Color)
    returns (vt': nat, vb': nat)
    requires dl.cmds != []
    modifies dl
    ensures var w := old(|dl.vtxBuffer|);
      dl.Data() == Grow(old(dl.Data()), [CapVert(r, p1, p2, horizon, col)],
        if OnFirstEnd(r, horizon) then [v0, vb, w] else [vt, v2, w], 1)
    ensures OnFirstEnd(r, horizon) ==> vb' == old(|dl.vtxBuffer|) && vt' == v1
    ensures !OnFirstEnd(r, horizon) ==> vt' == old(|dl.vtxBuffer|) && vb' == v3
  {
    ghost var d := dl.Data();
    ghost var tri: seq<nat>;
    if r.Point? && Perp(r.offset, horizon) < 0.0 {
      var v := dl.PushVert(At(Add(p1, r.offset), 0.0, 1.0, col));
      dl.PushElem(v0, vb, v);
      tri := [v0, vb, v];
      vb', vt' := v, v1;
    } else {
      var xy := if r.Point? then Add(p2, r.offset) else p2;
      var v := dl.PushVert(At(xy, 0.0, 1.0, col));
      dl.PushElem(vt, v2, v);
      tri := [vt, v2, v];
      vt', vb' := v, v3;
    }
    GrowGrow(d, [CapVert(r, p1, p2, horizon, col)], [], 0, [], tri, 1);
    assert [CapVert(r, p1, p2, horizon, col)] + [] == [CapVert(r, p1, p2, horizon, col)];
  }

  /** One iteration of the cap loop: if the caps held the first `i` samples,
      and sample `i` was pushed with the fan vertices the loop keeps, they now
      hold the first `i + 1`. */
  lemma CapStep(c0: DrawListData, before: DrawListData, after: DrawListData, n: nat,
                p1: Vec2, p2: Vec2, horizon: Vec2, samples: seq<CapSample>, col: Color, i: nat,
                v0: nat, v2: nat, w: nat, vt: nat, vb: nat)
    requires c0.cmds != [] && i < |samples| && |c0.vtxBuffer| == n + 4
    requires v0 == n && v2 == n + 2 && w == n + 4 + i
    requires var sides := Sides(samples, horizon);
      && before == Grow(c0, CapVerts(samples[..i], p1, p2, horizon, col), CapIndices(n, sides[..i]), i)
      && vb == (if i > 0 && sides[i - 1] then n + 3 + i else n + 3)
      && vt == (if i > 0 && !sides[i - 1] then n + 3 + i else n + 1)
    requires after == Grow(before, [CapVert(samples[i], p1, p2, horizon, col)],
      if OnFirstEnd(samples[i], horizon) then [v0, vb, w] else [vt, v2, w], 1)
    ensures var sides := Sides(samples, horizon);
      after == Grow(c0, CapVerts(samples[..i + 1], p1, p2, horizon, col), CapIndices(n, sides[..i + 1]), i + 1)
  {
    var sides := Sides(samples, horizon);
    var tri := CapTriangle(n, i, sides[i], Continues(sides, i));
    assert tri == if OnFirstEnd(samples[i], horizon) then [v0, vb, w] else [vt, v2, w];
    GrowGrow(c0, CapVerts(samples[..i], p1, p2, horizon, col), CapIndices(n, sides[..i]), i,
      [CapVert(samples[i], p1, p2, horizon, col)], tri, 1);
    CapVertsStep(samples, i, p1, p2, horizon, col);
    CapIndicesStep(n, sides, i);
  }

  /** The line body and the round caps over `samples`, with offset `d`; the
      two line operations differ only in where their samples come from. */
  method PushLine(dl: DrawList, p1: Vec2, p2: Vec2, d: Vec2, samples: seq<CapSample>, col: Color)
    requires dl.cmds != []
    modifies dl
    ensures dl.Data() == DrawLine(old(dl.Data()), p1, p2, d, samples, col)
  {
    ghost var d0 := dl.Data();
    ghost var n := |dl.vtxBuffer|;
    var v0, v1, v2, v3 := PushBody(dl, p1, p2, d, col);
    var horizon := Vec2(-d.y, d.x);
    if samples != [] {
      PushCaps(dl, v0, v1, v2, v3, p1, p2, horizon, samples, col);
    } else {
      assert CapVerts(samples, p1, p2, horizon, col) == [] && CapIndices(n, Sides(samples, horizon)) == [];
      GrowGrow(d0, BodyVerts(p1, p2, d, col), BodyIndices(n), 2, [], [], 0);
      assert BodyVerts(p1, p2, d, col) + [] == BodyVerts(p1, p2, d, col);
      assert BodyIndices(n) + [] == BodyIndices(n);
    }
    GrowGrow(d0, BodyVerts(p1, p2, d, col), BodyIndices(n), 2,
      CapVerts(samples, p1, p2, horizon, col), CapIndices(n, Sides(samples, horizon)), |samples|);
  }

  /** The round caps: `v_t` and `v_b` start at v1 and v3, and each sample
      fans from the last vertex pushed at its end. */
  method PushCaps(dl: DrawList, v0: nat, v1: nat, v2: nat, v3: nat,
                  p1: Vec2, p2: Vec2, horizon: Vec2, samples: seq<CapSample>, col: Color)
    requires dl.cmds != [] && |dl.vtxBuffer| == v0 + 4
    requires v1 == v0 + 1 && v2 == v0 + 2 && v3 == v0 + 3
    modifies dl
    ensures dl.Data() == Grow(old(dl.Data()), CapVerts(samples, p1, p2, horizon, col),
      CapIndices(v0, Sides(samples, horizon)), |samples|)
  {
    ghost var c0 := dl.Data();
    ghost var sides := Sides(samples, horizon);
    var vt := v1;
    var vb := v3;
    assert samples[..0] == [] && sides[..0] == [];
    assert BumpLast(c0.cmds, 0) == c0.cmds by {
      BumpLastFacts(c0.cmds, 0);
    }
    assert c0.vtxBuffer + [] == c0.vtxBuffer && c0.idxBuffer + [] == c0.idxBuffer;
    for i := 0 to |samples|
      invariant dl.cmds != []
      invariant dl.Data() == Grow(c0, CapVerts(samples[..i], p1, p2, horizon, col), CapIndices(v0, sides[..i]), i)
      invariant vb == if i > 0 && sides[i - 1] then v0 + 3 + i else v0 + 3
      invariant vt == if i > 0 && !sides[i - 1] then v0 + 3 + i else v0 + 1
    {
      ghost var before := dl.Data();
      ghost var w := |dl.vtxBuffer|;
      ghost var vt0, vb0 := vt, vb;
      vt, vb := PushCapSample(dl, v0, v1, v2, v3, vt, vb, p1, p2, horizon, samples[i], col);
      CapStep(c0, before, dl.Data(), v0, p1, p2, horizon, samples, col, i, v0, v2, w, vt0, vb0);
    }
    assert samples[..|samples|] == samples && sides[..|sides|] == sides;
  }

  /** The body of a line: four corners and the triangles (v0, v1, v2) and
      (v0, v2, v3). */
  method PushBody(dl: DrawList, p1: Vec2, p2: Vec2, d: Vec2, col: Color) returns (v0: nat, v1: nat, v2: nat, v3: nat)
    requires dl.cmds != []
    modifies dl
    ensures var n := old(|dl.vtxBuffer|); v0 == n && v1 == n + 1 && v2 == n + 2 && v3 == n + 3
    ensures dl.Data() == Grow(old(dl.Data()), BodyVerts(p1, p2, d, col), BodyIndices(old(|dl.vtxBuffer|)), 2)
  {
    ghost var d0 := dl.Data();
    ghost var q := BodyVerts(p1, p2, d, col);
    v0 := dl.PushVert(At(Vec2(p1.x + d.y, p1.y - d.x), 0.0, 1.0, col));
    ghost var s1 := dl.Data();
    v1 := dl.PushVert(At(Vec2(p2.x + d.y, p2.y - d.x), 0.0, 1.0, col));
    ghost var s2 := dl.Data();
    v2 := dl.PushVert(At(Vec2(p2.x - d.y, p2.y + d.x), 0.0, 1.0, col));
    ghost var s3 := dl.Data();
    v3 := dl.PushVert(At(Vec2(p1.x - d.y, p1.y + d.x), 0.0, 1.0, col));
    ghost var s4 := dl.Data();
    GrowFour(d0, q, s1, s2, s3, s4);
    dl.PushElem(v0, v1, v2);
    ghost var s5 := dl.Data();
    dl.PushElem(v0, v2, v3);
    GrowTwoTriangles(d0, q, [v0, v1, v2], [v0, v2, v3], s4, s5, dl.Data());
    assert [v0, v1, v2] + [v0, v2, v3] == BodyIndices(|d0.vtxBuffer|);
  }

  /** `add_line_with_params`: appends the line to the last layer, its size
      being the parameters' reservation. */
  method AddLineWithParams(dl: DrawList, m: Math, p1: Vec2, p2: Vec2, col: Color, params: LineParams)
    requires dl.cmds != []
    modifies dl
    ensures dl.Data() == DrawLine(old(dl.Data()), p1, p2,
      Scale(TryNormalize(m, Sub(p2, p1)), params.halfThickness), params.capSegments, col)
    ensures |dl.vtxBuffer| == old(|dl.vtxBuffer|) + VtxCount(params)
    ensures |dl.idxBuffer| == old(|dl.idxBuffer|) + IdxCount(params)
    ensures old(dl.Valid()) ==> dl.Valid()
    ensures old(dl.IndicesInRange()) ==> dl.IndicesInRange()
  {
    ghost var d0 := dl.Data();
    dl.Reserve(IdxCount(params), VtxCount(params));
    var d := Sub(p2, p1);
    d := TryNormalize(m, d);
    d := Scale(d, params.halfThickness);
    PushLine(dl, p1, p2, d, params.capSegments, col);
    assert dl.Data() == DrawLine(d0, p1, p2, d, params.capSegments, col);
    DrawLineKeeps(d0, p1, p2, d, params.capSegments, col);
  }

  /** `add_line`: appends the line to the last layer, with round caps of the
      level of detail the camera scale asks for. */
  method AddLine(dl: DrawList, m: Math, ctx: DrawContext, p1: Vec2, p2: Vec2, col: Color, thickness: real)
    requires dl.cmds != []
    modifies dl
    ensures dl.Data() == DrawLine(old(dl.Data()), p1, p2,
      LineOffset(m, p1, p2, thickness * 0.5), AddLineSamples(m, thickness, ctx.scale), col)
    ensures old(dl.Valid()) ==> dl.Valid()
    ensures old(dl.IndicesInRange()) ==> dl.IndicesInRange()
  {
    ghost var d0 := dl.Data();
    var capSegmentCount := CapSegmentCount(thickness, ctx.scale);
    dl.Reserve((2 + capSegmentCount) * 3, 4 + capSegmentCount);
    var half := thickness * 0.5;
    var d := Sub(p2, p1);
    d := TryNormalize(m, d);
    d := Scale(d, half);
    var samples: seq<CapSample> := [];
    if capSegmentCount > 0 {
      samples := CapSamples(m, capSegmentCount, half);
    }
    PushLine(dl, p1, p2, d, samples, col);
    assert dl.Data() == DrawLine(d0, p1, p2, d, samples, col);
    DrawLineKeeps(d0, p1, p2, d, samples, col);
  }

  /** `(r + resolution).ceil() as usize`: the segment count of a ring. */
  function CircleSegments(r: real, thickness: real, scale: real): (n: nat)
    ensures Ceil(r + thickness * scale) <= 0 ==> n == 0
    ensures 0 <= Ceil(r + thickness * scale) <= UsizeMax ==> n == Ceil(r + thickness * scale)
    ensures Ceil(r + thickness * scale) > UsizeMax ==> n == UsizeMax
  {
    SaturatingToUsize(Ceil(r + thickness * scale))
  }

  /** Point `i` of a ring of `n` segments at `radius` around `p`; point 0 is
      placed on the x axis without evaluating cos and sin. */
  function RingPoint(m: Math, p: Vec2, radius: real, i: nat, n: nat): Vec2
    requires i == 0 || n > 0
  {
    if i == 0 then Vec2(p.x + radius, p.y) else Add(p, Scale(Unit(m, SampleAngle(i, n)), radius))
  }

  /** The first `count` (outer, inner) vertex pairs of a ring. */
  function RingVerts(m: Math, p: Vec2, ro: real, ri: real, n: nat, count: nat, col: Color): (r: seq<Vert>)
    requires count <= n + 1
    ensures |r| == 2 * count
  {
    if count == 0 then []
    else
      RingVerts(m, p, ro, ri, n, count - 1, col)
        + [At(RingPoint(m, p, ro, count - 1, n), 0.0, 1.0, col),
           At(RingPoint(m, p, ri, count - 1, n), 0.0, 1.0, col)]
  }

  /** The two triangles of segment i >= 1, joining pair i - 1 to pair i over
      handles from `b`: (o[i-1], i[i-1], o[i]) and (o[i], i[i], i[i-1]). */
  function SegmentIndices(b: nat, i: nat): seq<nat>
    requires i >= 1
  {
    [b + 2 * i - 2, b + 2 * i - 1, b + 2 * i, b + 2 * i, b + 2 * i + 1, b + 2 * i - 1]
  }

  function RingIndices(b: nat, count: nat): (r: seq<nat>)
    ensures |r| == 6 * count
  {
    if count == 0 then [] else RingIndices(b, count - 1) + SegmentIndices(b, count)
  }

  /** What `add_circle` does to a draw list: n + 1 vertex pairs, the last on
      the same angle as the first, and 2n triangles. */
  function DrawRing(dl: DrawListData, m: Math, p: Vec2, ro: real, ri: real, n: nat, col: Color): (r: DrawListData)
    requires dl.cmds != []
    ensures |r.cmds| == |dl.cmds| && r.cmds[..|dl.cmds| - 1] == dl.cmds[..|dl.cmds| - 1]
    ensures SumElems(r.cmds) == SumElems(dl.cmds) + 2 * n
    ensures |r.vtxBuffer| == |dl.vtxBuffer| + 2 * n + 2 && r.vtxBuffer[..|dl.vtxBuffer|] == dl.vtxBuffer
    ensures |r.idxBuffer| == |dl.idxBuffer| + 6 * n && r.idxBuffer[..|dl.idxBuffer|] == dl.idxBuffer
  {
    BumpLastFacts(dl.cmds, 2 * n);
    Grow(dl, RingVerts(m, p, ro, ri, n, n + 1, col), RingIndices(|dl.vtxBuffer|, n), 2 * n)
  }

  /** Pair `i` of a ring is vertices 2i (outer) and 2i + 1 (inner), on the
      same ray from the centre. */
  lemma {:induction false} RingVertsAt(m: Math, p: Vec2, ro: real, ri: real, n: nat, count: nat, col: Color, i: nat)
    requires count <= n + 1 && i < count
    ensures RingVerts(m, p, ro, ri, n, count, col)[2 * i] == At(RingPoint(m, p, ro, i, n), 0.0, 1.0, col)
    ensures RingVerts(m, p, ro, ri, n, count, col)[2 * i + 1] == At(RingPoint(m, p, ri, i, n), 0.0, 1.0, col)
  {
    if i < count - 1 {
      RingVertsAt(m, p, ro, ri, n, count - 1, col, i);
    }
  }

  /** Segment i's triangles are indices [6(i - 1), 6i) of the ring. */
  lemma {:induction false} RingIndicesAt(b: nat, count: nat, i: nat)
    requires 1 <= i <= count
    ensures RingIndices(b, count)[6 * (i - 1)..6 * i] == SegmentIndices(b, i)
  {
    var init := RingIndices(b, count - 1);
    if i == count {
      SliceOfSuffix(init, SegmentIndices(b, count));
    } else {
      RingIndicesAt(b, count - 1, i);
      SliceOfPrefix(init, SegmentIndices(b, count), 6 * (i - 1), 6 * i);
    }
  }

  lemma SliceOfPrefix<T>(a: seq<T>, c: seq<T>, i: nat, j: nat)
    requires i <= j <= |a|
    ensures (a + c)[i..j] == a[i..j]
  {
  }

  lemma SliceOfSuffix<T>(a: seq<T>, c: seq<T>)
    ensures (a + c)[|a|..|a| + |c|] == c
  {
  }

  /** Each ring triangle names only vertices of the ring: handles in
      [b, b + 2 * count + 2). */
  lemma {:induction false} RingIndicesWithin(b: nat, count: nat)
    ensures forall i :: 0 <= i < |RingIndices(b, count)| ==>
      b <= RingIndices(b, count)[i] < b + 2 * count + 2
  {
    if count > 0 {
      RingIndicesWithin(b, count - 1);
      var r := RingIndices(b, count);
      forall i | 0 <= i < |r|
        ensures b <= r[i] < b + 2 * count + 2
      {
        if i < 6 * (count - 1) {
          assert r[i] == RingIndices(b, count - 1)[i];
        }
      }
    }
  }

  /** Drawing a ring keeps the structural invariant and the index bound. */
  lemma DrawRingKeeps(d: DrawListData, m: Math, p: Vec2, ro: real, ri: real, n: nat, col: Color)
    requires d.cmds != []
    ensures WellFormed(d) ==> WellFormed(DrawRing(d, m, p, ro, ri, n, col))
    ensures IndicesBelow(d.idxBuffer, |d.vtxBuffer|) ==>
      var e := DrawRing(d, m, p, ro, ri, n, col);
      IndicesBelow(e.idxBuffer, |e.vtxBuffer|)
  {
    var verts := RingVerts(m, p, ro, ri, n, n + 1, col);
    var idx := RingIndices(|d.vtxBuffer|, n);
    if WellFormed(d) {
      GrowWellFormed(d, verts, idx, 2 * n);
    }
    if IndicesBelow(d.idxBuffer, |d.vtxBuffer|) {
      RingIndicesWithin(|d.vtxBuffer|, n);
      GrowIndicesBelow(d, verts, idx, 2 * n);
    }
  }

  /** One iteration of the ring loop: pushing pair i and the two triangles of
      segment i onto a list holding pairs 0 .. i - 1 gives pairs 0 .. i. */
  lemma RingStep(d0: DrawListData, before: DrawListData, s1: DrawListData, s2: DrawListData,
                 s3: DrawListData, after: DrawListData,
                 m: Math, p: Vec2, ro: real, ri: real, n: nat, col: Color, b: nat, i: nat,
                 xo: Vec2, xi: Vec2, vo0: nat, vi0: nat, vo1: nat, vi1: nat)
    requires d0.cmds != [] && 1 <= i <= n && |d0.vtxBuffer| == b
    requires xo == RingPoint(m, p, ro, i, n) && xi == RingPoint(m, p, ri, i, n)
    requires vo0 == b + 2 * i - 2 && vi0 == b + 2 * i - 1 && vo1 == b + 2 * i && vi1 == b + 2 * i + 1
    requires before == Grow(d0, RingVerts(m, p, ro, ri, n, i, col), RingIndices(b, i - 1), 2 * (i - 1))
    requires s1 == Grow(before, [At(xo, 0.0, 1.0, col)], [], 0)
    requires s2 == Grow(s1, [At(xi, 0.0, 1.0, col)], [], 0)
    requires s3 == Grow(s2, [], [vo0, vi0, vo1], 1)
    requires after == Grow(s3, [], [vo1, vi1, vi0], 1)
    ensures after == Grow(d0, RingVerts(m, p, ro, ri, n, i + 1, col), RingIndices(b, i), 2 * i)
  {
    var o := At(xo, 0.0, 1.0, col);
    var q := At(xi, 0.0, 1.0, col);
    var vs := RingVerts(m, p, ro, ri, n, i, col);
    var ix := RingIndices(b, i - 1);
    GrowGrow(d0, vs, ix, 2 * (i - 1), [o], [], 0);
    GrowGrow(d0, vs + [o], ix + [], 2 * (i - 1), [q], [], 0);
    GrowGrow(d0, vs + [o] + [q], ix + [] + [], 2 * (i - 1), [], [vo0, vi0, vo1], 1);
    GrowGrow(d0, vs + [o] + [q] + [], ix + [] + [] + [vo0, vi0, vo1], 2 * (i - 1) + 1, [], [vo1, vi1, vi0], 1);
    assert vs + [o] + [q] + [] + [] == RingVerts(m, p, ro, ri, n, i + 1, col);
    assert ix + [] + [] + [vo0, vi0, vo1] + [vo1, vi1, vi0] == RingIndices(b, i);
  }

  /** What `add_circle` does to a draw list: a ring between the radii
      r -/+ thickness / 2 with the segment count the camera scale asks for. */
  function DrawCircle(dl: DrawListData, m: Math, ctx: DrawContext, p: Vec2, r: real, col: Color, thickness: real): (e: DrawListData)
    requires dl.cmds != []
    ensures var n := CircleSegments(r, thickness, ctx.scale);
      && |e.cmds| == |dl.cmds| && e.cmds[..|dl.cmds| - 1] == dl.cmds[..|dl.cmds| - 1]
      && SumElems(e.cmds) == SumElems(dl.cmds) + 2 * n
      && |e.vtxBuffer| == |dl.vtxBuffer| + 2 * n + 2 && e.vtxBuffer[..|dl.vtxBuffer|] == dl.vtxBuffer
      && |e.idxBuffer| == |dl.idxBuffer| + 6 * n && e.idxBuffer[..|dl.idxBuffer|] == dl.idxBuffer
  {
    DrawRing(dl, m, p, r + thickness * 0.5, r - thickness * 0.5, CircleSegments(r, thickness, ctx.scale), col)
  }

  /** `add_circle`: a ring of thickness `thickness` around radius `r`. */
  method AddCircle(dl: DrawList, m: Math, ctx: DrawContext, p: Vec2, r: real, col: Color, thickness: real)
    requires dl.cmds != []
    modifies dl
    ensures dl.Data() == DrawCircle(old(dl.Data()), m, ctx, p, r, col, thickness)
    ensures old(dl.Valid()) ==> dl.Valid()
    ensures old(dl.IndicesInRange()) ==> dl.IndicesInRange()
  {
    ghost var d0 := dl.Data();
    var half := thickness * 0.5;
    var segmentCount := CircleSegments(r, thickness, ctx.scale);
    dl.Reserve((2 * segmentCount) * 3, 2 * segmentCount);
    PushRing(dl, m, p, r + half, r - half, segmentCount, col);
    assert dl.Data() == DrawCircle(d0, m, ctx, p, r, col, thickness);
    DrawCircleKeeps(d0, m, ctx, p, r, col, thickness);
  }

  lemma DrawCircleKeeps(d: DrawListData, m: Math, ctx: DrawContext, p: Vec2, r: real, col: Color, thickness: real)
    requires d.cmds != []
    ensures WellFormed(d) ==> WellFormed(DrawCircle(d, m, ctx, p, r, col, thickness))
    ensures IndicesBelow(d.idxBuffer, |d.vtxBuffer|) ==>
      var e := DrawCircle(d, m, ctx, p, r, col, thickness);
      IndicesBelow(e.idxBuffer, |e.vtxBuffer|)
  {
    var ro, ri, n := r + thickness * 0.5, r - thickness * 0.5, CircleSegments(r, thickness, ctx.scale);
    assert DrawCircle(d, m, ctx, p, r, col, thickness) == DrawRing(d, m, p, ro, ri, n, col);
    DrawRingKeeps(d, m, p, ro, ri, n, col);
  }

  /** The vertex pairs and segment triangles of a ring of `n` segments
      between radii `ri` and `ro`. */
  method PushRing(dl: DrawList, m: Math, p: Vec2, ro: real, ri: real, n: nat, col: Color)
    requires dl.cmds != []
    modifies dl
    ensures dl.Data() == DrawRing(old(dl.Data()), m, p, ro, ri, n, col)
  {
    ghost var d0 := dl.Data();
    ghost var b := |dl.vtxBuffer|;
    var vo0, vi0 := PushFirstPair(dl, m, p, ro, ri, n, col);
    for i := 1 to n + 1
      invariant vo0 == b + 2 * (i - 1) && vi0 == b + 2 * (i - 1) + 1
      invariant dl.cmds != []
      invariant dl.Data() == Grow(d0, RingVerts(m, p, ro, ri, n, i, col), RingIndices(b, i - 1), 2 * (i - 1))
    {
      vo0, vi0 := PushSegment(dl, m, p, ro, ri, n, col, d0, b, i, vo0, vi0);
    }
  }

  /** The vertex pair at angle 0, on the positive x axis. */
  method PushFirstPair(dl: DrawList, m: Math, p: Vec2, ro: real, ri: real, n: nat, col: Color) returns (vo0: nat, vi0: nat)
    requires dl.cmds != []
    modifies dl
    ensures vo0 == old(|dl.vtxBuffer|) && vi0 == vo0 + 1 && dl.cmds != []
    ensures dl.Data() == Grow(old(dl.Data()), RingVerts(m, p, ro, ri, n, 1, col), RingIndices(old(|dl.vtxBuffer|), 0), 0)
  {
    ghost var d0 := dl.Data();
    vo0 := dl.PushVert(At(Vec2(p.x + ro, p.y), 0.0, 1.0, col));
    ghost var s1 := dl.Data();
    vi0 := dl.PushVert(At(Vec2(p.x + ri, p.y), 0.0, 1.0, col));
    GrowGrow(d0, [At(Vec2(p.x + ro, p.y), 0.0, 1.0, col)], [], 0, [At(Vec2(p.x + ri, p.y), 0.0, 1.0, col)], [], 0);
    assert RingVerts(m, p, ro, ri, n, 1, col)
      == [At(Vec2(p.x + ro, p.y), 0.0, 1.0, col)] + [At(Vec2(p.x + ri, p.y), 0.0, 1.0, col)];
    assert [] + [] == RingIndices(|d0.vtxBuffer|, 0);
  }

  /** One iteration of the ring loop: the vertex pair at angle i and the
      segment's two triangles back to pair i - 1. */
  method PushSegment(dl: DrawList, m: Math, p: Vec2, ro: real, ri: real, n: nat, col: Color,
                     ghost d0: DrawListData, ghost b: nat, i: nat, vo0: nat, vi0: nat) returns (vo1: nat, vi1: nat)
    requires d0.cmds != [] && 1 <= i <= n && |d0.vtxBuffer| == b
    requires vo0 == b + 2 * (i - 1) && vi0 == b + 2 * (i - 1) + 1
    requires dl.Data() == Grow(d0, RingVerts(m, p, ro, ri, n, i, col), RingIndices(b, i - 1), 2 * (i - 1))
    modifies dl
    ensures vo1 == b + 2 * i && vi1 == b + 2 * i + 1
    ensures dl.cmds != []
    ensures dl.Data() == Grow(d0, RingVerts(m, p, ro, ri, n, i + 1, col), RingIndices(b, i), 2 * i)
  {
    ghost var before := dl.Data();
    var xyO := RingPoint(m, p, ro, i, n);
    vo1 := dl.PushVert(At(xyO, 0.0, 1.0, col));
    ghost var s1 := dl.Data();
    var xyI := RingPoint(m, p, ri, i, n);
    vi1 := dl.PushVert(At(xyI, 0.0, 1.0, col));
    ghost var s2 := dl.Data();
    dl.PushElem(vo0, vi0, vo1);
    ghost var s3 := dl.Data();
    dl.PushElem(vo1, vi1, vi0);
    RingStep(d0, before, s1, s2, s3, dl.Data(), m, p, ro, ri, n, col, b, i, xyO, xyI, vo0, vi0, vo1, vi1);
  }

  /** The corners of an axis-aligned square of side `size` around `p`:
      bottom-left, bottom-right, top-left, top-right. */
  function SquareVerts(p: Vec2, size: real, col: Color): seq<Vert> {
    var h := size * 0.5;
    [ At(Vec2(p.x - h, p.y - h), 0.0, 1.0, col), At(Vec2(p.x + h, p.y - h), 0.0, 1.0, col),
      At(Vec2(p.x - h, p.y + h), 0.0, 1.0, col), At(Vec2(p.x + h, p.y + h), 0.0, 1.0, col) ]
  }

  /** The square is centred at `p`, has sides of length `size` along the axes,
      and its two triangles share the diagonal from corner 1 to corner 2. */
  lemma SquareGeometry(p: Vec2, size: real, col: Color)
    ensures var q := SquareVerts(p, size, col);
      && (q[0].pos.x + q[3].pos.x) * 0.5 == p.x && (q[0].pos.y + q[3].pos.y) * 0.5 == p.y
      && q[1].pos.x - q[0].pos.x == size && q[2].pos.y - q[0].pos.y == size
      && q[3].pos.x - q[2].pos.x == size && q[3].pos.y - q[1].pos.y == size
  {
  }

  /** `add_square`: four corners and the two triangles of `QuadIndices`. */
  method AddSquare(dl: DrawList, p: Vec2, size: real, col: Color)
    requires dl.cmds != []
    modifies dl
    ensures dl.Data() == Grow(old(dl.Data()), SquareVerts(p, size, col), QuadIndices(old(|dl.vtxBuffer|)), 2)
    ensures old(dl.Valid()) ==> dl.Valid()
    ensures old(dl.IndicesInRange()) ==> dl.IndicesInRange()
  {
    ghost var d0 := dl.Data();
    var half := size * 0.5;
    dl.Reserve(6, 4);
    var a := dl.PushVert(At(Vec2(p.x - half, p.y - half), 0.0, 1.0, col));
    ghost var s1 := dl.Data();
    var b := dl.PushVert(At(Vec2(p.x + half, p.y - half), 0.0, 1.0, col));
    ghost var s2 := dl.Data();
    var c := dl.PushVert(At(Vec2(p.x - half, p.y + half), 0.0, 1.0, col));
    ghost var s3 := dl.Data();
    var d := dl.PushVert(At(Vec2(p.x + half, p.y + half), 0.0, 1.0, col));
    ghost var s4 := dl.Data();
    ghost var q := SquareVerts(p, size, col);
    GrowFour(d0, q, s1, s2, s3, s4);
    dl.PushElem(a, b, c);
    ghost var s5 := dl.Data();
    dl.PushElem(b, c, d);
    GrowTwoTriangles(d0, q, [a, b, c], [b, c, d], s4, s5, dl.Data());
    assert [a, b, c] + [b, c, d] == QuadIndices(|d0.vtxBuffer|);
    if WellFormed(d0) {
      GrowWellFormed(d0, q, QuadIndices(|d0.vtxBuffer|), 2);
    }
    if IndicesBelow(d0.idxBuffer, |d0.vtxBuffer|) {
      GrowIndicesBelow(d0, q, QuadIndices(|d0.vtxBuffer|), 2);
    }
  }
}
