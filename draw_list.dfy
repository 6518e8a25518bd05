/** The draw-list batching engine: a growing vertex buffer, a flat buffer of
    triangle indices and an ordered, never-empty list of layers (`DrawCmd`). */
module DrawLists {
  import opened Geometry

  /** One layer: where its indices and vertices start, how many triangles it
      has, and whether the backend composites it in two passes as text. */
  datatype DrawCmd = DrawCmd(vtxOffset: nat, idxOffset: nat, numOfElems: nat, isText: bool)

  /** `DrawCmd::default()` */
  const DefaultCmd := DrawCmd(0, 0, 0, false)

  /** `Vector2<u32>` of a screen size. */
  datatype Size = Size(x: nat, y: nat)

  /** The per-frame camera state the drawing operations read. */
  datatype DrawContext = DrawContext(
    screenSize: Size, pixelRatio: real, translate: Vec2, scale: real, bgColor: Color)

  /** `DrawContext::new` */
  function NewDrawContext(screenSize: Size): DrawContext {
    DrawContext(screenSize, 1.0, Zero2, 1.0, Vec4(1.0, 1.0, 1.0, 1.0))
  }

  /** The value held by a `DrawList` at one moment. */
  datatype DrawListData = DrawListData(cmds: seq<DrawCmd>, idxBuffer: seq<nat>, vtxBuffer: seq<Vert>)

  /** The total triangle count of a list of layers. */
  function SumElems(cmds: seq<DrawCmd>): nat
  {
    if cmds == [] then 0 else SumElems(cmds[..|cmds| - 1]) + cmds[|cmds| - 1].numOfElems
  }

  /** The layers after the last one has gained `k` triangles. */
  function BumpLast(cmds: seq<DrawCmd>, k: nat): (r: seq<DrawCmd>)
    requires cmds != []
    ensures |r| == |cmds|
  {
    var last := cmds[|cmds| - 1];
    cmds[..|cmds| - 1] + [last.(numOfElems := last.numOfElems + k)]
  }

  /** Only the last layer changes, and only its triangle count, by `k`. */
  lemma BumpLastFacts(cmds: seq<DrawCmd>, k: nat)
    requires cmds != []
    ensures var r := BumpLast(cmds, k);
      && r[..|r| - 1] == cmds[..|cmds| - 1]
      && r[|r| - 1] == cmds[|cmds| - 1].(numOfElems := cmds[|cmds| - 1].numOfElems + k)
      && SumElems(r) == SumElems(cmds) + k
  {
    var r := BumpLast(cmds, k);
    assert r[..|r| - 1] == cmds[..|cmds| - 1];
  }

  /** The two triangles (n, n+1, n+2) and (n+1, n+2, n+3) over four vertices. */
  function QuadIndices(n: nat): seq<nat> { [n, n + 1, n + 2, n + 1, n + 2, n + 3] }

  /** The full-screen quad that heads a text layer, in normalized device coordinates. */
  function ScreenQuad(col: Color): seq<Vert> {
    [ At(Vec2(-1.0, -1.0), 0.0, 1.0, col), At(Vec2(1.0, -1.0), 0.0, 1.0, col),
      At(Vec2(-1.0, 1.0), 0.0, 1.0, col), At(Vec2(1.0, 1.0), 0.0, 1.0, col) ]
  }

  /** A text layer begins with the screen quad: its first two triangles are
      the quad's, over four vertices at its vertex offset. */
  predicate TextHeaded(c: DrawCmd, idx: seq<nat>, vtx: seq<Vert>) {
    && c.numOfElems >= 2
    && c.idxOffset + 6 <= |idx|
    && c.vtxOffset + 4 <= |vtx|
    && idx[c.idxOffset..c.idxOffset + 6] == QuadIndices(c.vtxOffset)
    && vtx[c.vtxOffset..c.vtxOffset + 4] == ScreenQuad(vtx[c.vtxOffset].col)
  }

  /** The structural invariant: the layer list is never empty, the layers tile
      the index buffer in order (each starts where the earlier ones end and
      together they cover it), vertex offsets lie inside the vertex buffer,
      and every text layer is headed by its screen quad. */
  predicate WellFormed(d: DrawListData) {
    && d.cmds != []
    && 3 * SumElems(d.cmds) == |d.idxBuffer|
    && (forall i :: 0 <= i < |d.cmds| ==> d.cmds[i].idxOffset == 3 * SumElems(d.cmds[..i]))
    && (forall i :: 0 <= i < |d.cmds| ==> d.cmds[i].vtxOffset <= |d.vtxBuffer|)
    && (forall i :: 0 <= i < |d.cmds| && d.cmds[i].isText ==>
          TextHeaded(d.cmds[i], d.idxBuffer, d.vtxBuffer))
  }

  /** The index-bound invariant: every index names an existing vertex. */
  predicate IndicesBelow(idx: seq<nat>, n: nat) {
    forall i :: 0 <= i < |idx| ==> idx[i] < n
  }

  /** The state after `new()` and after `clear()`. */
  const Empty := DrawListData([DefaultCmd], [], [])

  /** The state after `new_text_layer(col)`: one new text layer, starting
      where the buffers ended and holding the two triangles of the screen
      quad; the old layers and buffer contents are kept. */
  function OpenTextLayer(d: DrawListData, col: Color): (r: DrawListData)
    ensures |r.cmds| == |d.cmds| + 1 && r.cmds[..|d.cmds|] == d.cmds
    ensures r.cmds[|d.cmds|].isText && r.cmds[|d.cmds|].numOfElems == 2
    ensures r.cmds[|d.cmds|].vtxOffset == |d.vtxBuffer| && r.cmds[|d.cmds|].idxOffset == |d.idxBuffer|
    ensures SumElems(r.cmds) == SumElems(d.cmds) + 2
    ensures |r.vtxBuffer| == |d.vtxBuffer| + 4 && r.vtxBuffer[..|d.vtxBuffer|] == d.vtxBuffer
    ensures |r.idxBuffer| == |d.idxBuffer| + 6 && r.idxBuffer[..|d.idxBuffer|] == d.idxBuffer
  {
    var cmds := d.cmds + [DrawCmd(|d.vtxBuffer|, |d.idxBuffer|, 2, true)];
    assert cmds[..|cmds| - 1] == d.cmds;
    DrawListData(cmds, d.idxBuffer + QuadIndices(|d.vtxBuffer|), d.vtxBuffer + ScreenQuad(col))
  }

  /** The state after appending vertices `verts` and the triangles `idx`
      (`k` of them) to the last layer. */
  function Grow(d: DrawListData, verts: seq<Vert>, idx: seq<nat>, k: nat): DrawListData
    requires d.cmds != []
  {
    DrawListData(BumpLast(d.cmds, k), d.idxBuffer + idx, d.vtxBuffer + verts)
  }

  /** Growing the last layer twice is growing it once by the sum. */
  lemma BumpBump(c: seq<DrawCmd>, k1: nat, k2: nat)
    requires c != []
    ensures BumpLast(BumpLast(c, k1), k2) == BumpLast(c, k1 + k2)
  {
    BumpLastFacts(c, k1);
    BumpLastFacts(BumpLast(c, k1), k2);
    BumpLastFacts(c, k1 + k2);
    assert BumpLast(BumpLast(c, k1), k2)[..|c| - 1] == c[..|c| - 1];
  }

  /** Four single-vertex appends are one append of the four. */
  lemma GrowFour(d: DrawListData, q: seq<Vert>, s1: DrawListData, s2: DrawListData, s3: DrawListData, s4: DrawListData)
    requires d.cmds != [] && |q| == 4
    requires s1 == Grow(d, [q[0]], [], 0) && s2 == Grow(s1, [q[1]], [], 0)
    requires s3 == Grow(s2, [q[2]], [], 0) && s4 == Grow(s3, [q[3]], [], 0)
    ensures s4 == Grow(d, q, [], 0)
  {
    GrowGrow(d, [q[0]], [], 0, [q[1]], [], 0);
    GrowGrow(d, [q[0]] + [q[1]], [], 0, [q[2]], [], 0);
    GrowGrow(d, [q[0]] + [q[1]] + [q[2]], [], 0, [q[3]], [], 0);
    assert [q[0]] + [q[1]] + [q[2]] + [q[3]] == q;
  }

  /** Vertices, then two triangles, appended one after the other. */
  lemma GrowTwoTriangles(d: DrawListData, q: seq<Vert>, t1: seq<nat>, t2: seq<nat>,
                         s: DrawListData, s5: DrawListData, s6: DrawListData)
    requires d.cmds != []
    requires s == Grow(d, q, [], 0) && s5 == Grow(s, [], t1, 1) && s6 == Grow(s5, [], t2, 1)
    ensures s6 == Grow(d, q, t1 + t2, 2)
  {
    GrowGrow(d, q, [], 0, [], t1, 1);
    GrowGrow(d, q + [], [] + t1, 1, [], t2, 1);
    assert q + [] + [] == q && [] + t1 + t2 == t1 + t2;
  }

  /** The text layer opened empty and then grown by the screen quad. */
  lemma OpenedTextLayer(d: DrawListData, col: Color, d1: DrawListData, e: DrawListData)
    requires d1 == DrawListData(d.cmds + [DrawCmd(|d.vtxBuffer|, |d.idxBuffer|, 0, true)], d.idxBuffer, d.vtxBuffer)
    requires e == Grow(d1, ScreenQuad(col), QuadIndices(|d.vtxBuffer|), 2)
    ensures e == OpenTextLayer(d, col)
  {
    BumpLastFacts(d1.cmds, 2);
    assert d1.cmds[..|d1.cmds| - 1] == d.cmds;
  }

  /** Two appends to the last layer are one append of both. */
  lemma GrowGrow(d: DrawListData, v1: seq<Vert>, i1: seq<nat>, k1: nat, v2: seq<Vert>, i2: seq<nat>, k2: nat)
    requires d.cmds != []
    ensures Grow(Grow(d, v1, i1, k1), v2, i2, k2) == Grow(d, v1 + v2, i1 + i2, k1 + k2)
  {
    BumpBump(d.cmds, k1, k2);
    assert d.idxBuffer + i1 + i2 == d.idxBuffer + (i1 + i2);
    assert d.vtxBuffer + v1 + v2 == d.vtxBuffer + (v1 + v2);
  }

  lemma {:induction false} SumElemsStep(cmds: seq<DrawCmd>, i: nat)
    requires i < |cmds|
    ensures SumElems(cmds[..i + 1]) == SumElems(cmds[..i]) + cmds[i].numOfElems
  {
    assert cmds[..i + 1][..i] == cmds[..i];
  }

  /** The triangles before layer `i` and those of layer `i` together are at
      most all of them. */
  lemma {:induction false} SumElemsPrefix(cmds: seq<DrawCmd>, i: nat)
    requires i < |cmds|
    ensures SumElems(cmds[..i]) + cmds[i].numOfElems <= SumElems(cmds)
    decreases |cmds| - i
  {
    SumElemsStep(cmds, i);
    if i + 1 < |cmds| {
      SumElemsPrefix(cmds, i + 1);
      SumElemsStep(cmds, i + 1);
    } else {
      assert cmds[..i + 1] == cmds;
    }
  }

  /** What the backend reads of each layer lies inside the index buffer: the
      range [idx_offset, idx_offset + 3 * num_of_elems) of an ordinary layer;
      for a text layer `num_of_elems - 2` does not underflow, and both the
      range after the quad and the quad's six indices lie inside the buffer.
      With `IndicesBelow` every index read names an existing vertex. */
  lemma BackendRanges(d: DrawListData, i: nat)
    requires WellFormed(d) && i < |d.cmds|
    ensures d.cmds[i].idxOffset + 3 * d.cmds[i].numOfElems <= |d.idxBuffer|
    ensures d.cmds[i].isText ==>
      && d.cmds[i].numOfElems >= 2
      && d.cmds[i].idxOffset + 6 + 3 * (d.cmds[i].numOfElems - 2) <= |d.idxBuffer|
      && d.cmds[i].idxOffset + 6 <= |d.idxBuffer|
  {
    SumElemsPrefix(d.cmds, i);
  }

  lemma EmptyWellFormed()
    ensures WellFormed(Empty) && IndicesBelow(Empty.idxBuffer, |Empty.vtxBuffer|)
  {
    assert Empty.cmds[..0] == [];
  }

  /** Appending triangles to the last layer keeps the layers tiled and the
      text headers intact. */
  lemma GrowWellFormed(d: DrawListData, verts: seq<Vert>, idx: seq<nat>, k: nat)
    requires WellFormed(d) && |idx| == 3 * k
    ensures WellFormed(Grow(d, verts, idx, k))
  {
    var e := Grow(d, verts, idx, k);
    var n := |d.cmds|;
    BumpLastFacts(d.cmds, k);
    forall i | 0 <= i < n
      ensures e.cmds[i].idxOffset == 3 * SumElems(e.cmds[..i])
      ensures e.cmds[i].vtxOffset <= |e.vtxBuffer|
      ensures e.cmds[i].isText ==> TextHeaded(e.cmds[i], e.idxBuffer, e.vtxBuffer)
    {
      if i < n - 1 {
        assert e.cmds[..i] == d.cmds[..i] by {
          assert e.cmds[..n - 1] == d.cmds[..n - 1];
        }
        assert e.cmds[i] == d.cmds[i] by {
          assert e.cmds[..n - 1][i] == d.cmds[..n - 1][i];
        }
      } else {
        assert e.cmds[..i] == d.cmds[..i];
      }
      if e.cmds[i].isText {
        HeadedAppend(d.cmds[i], d.idxBuffer, d.vtxBuffer, idx, verts);
      }
    }
  }

  /** Appending to the last layer keeps every index naming an existing vertex
      when the appended indices name vertices of the grown buffer. */
  lemma GrowIndicesBelow(d: DrawListData, verts: seq<Vert>, idx: seq<nat>, k: nat)
    requires d.cmds != []
    requires IndicesBelow(d.idxBuffer, |d.vtxBuffer|)
    requires IndicesBelow(idx, |d.vtxBuffer| + |verts|)
    ensures var e := Grow(d, verts, idx, k); IndicesBelow(e.idxBuffer, |e.vtxBuffer|)
  {
    var e := Grow(d, verts, idx, k);
    forall i | 0 <= i < |e.idxBuffer|
      ensures e.idxBuffer[i] < |e.vtxBuffer|
    {
      if i >= |d.idxBuffer| {
        assert e.idxBuffer[i] == idx[i - |d.idxBuffer|];
      }
    }
  }

  /** After one more triangle every index names an existing vertex exactly
      when that held before and the triangle's three corners exist. */
  lemma PushElemInRange(d: DrawListData, a: nat, b: nat, c: nat)
    requires d.cmds != []
    ensures var e := Grow(d, [], [a, b, c], 1);
      IndicesBelow(e.idxBuffer, |e.vtxBuffer|) <==>
        IndicesBelow(d.idxBuffer, |d.vtxBuffer|) && a < |d.vtxBuffer| && b < |d.vtxBuffer| && c < |d.vtxBuffer|
  {
    var e := Grow(d, [], [a, b, c], 1);
    var n := |d.idxBuffer|;
    assert e.vtxBuffer == d.vtxBuffer;
    assert forall j :: 0 <= j < n ==> e.idxBuffer[j] == d.idxBuffer[j];
    assert e.idxBuffer[n] == a && e.idxBuffer[n + 1] == b && e.idxBuffer[n + 2] == c;
  }

  /** Appending a layer that starts at the end of the index buffer and covers
      the appended indices keeps the invariant. */
  lemma AppendLayerWellFormed(d: DrawListData, c: DrawCmd, idx: seq<nat>, verts: seq<Vert>)
    requires WellFormed(d)
    requires c.idxOffset == |d.idxBuffer| && |idx| == 3 * c.numOfElems
    requires c.vtxOffset <= |d.vtxBuffer| + |verts|
    requires c.isText ==> TextHeaded(c, d.idxBuffer + idx, d.vtxBuffer + verts)
    ensures WellFormed(DrawListData(d.cmds + [c], d.idxBuffer + idx, d.vtxBuffer + verts))
  {
    var e := DrawListData(d.cmds + [c], d.idxBuffer + idx, d.vtxBuffer + verts);
    var n := |d.cmds|;
    assert e.cmds[..n] == d.cmds;
    SumElemsStep(e.cmds, n);
    assert e.cmds[..n + 1] == e.cmds;
    forall i | 0 <= i < n
      ensures e.cmds[i].idxOffset == 3 * SumElems(e.cmds[..i])
      ensures e.cmds[i].isText ==> TextHeaded(e.cmds[i], e.idxBuffer, e.vtxBuffer)
    {
      assert e.cmds[..i] == d.cmds[..i];
      assert e.cmds[i] == d.cmds[i];
      if d.cmds[i].isText {
        HeadedAppend(d.cmds[i], d.idxBuffer, d.vtxBuffer, idx, verts);
      }
    }
  }

  /** Opening an ordinary layer at the current offsets keeps the invariant. */
  lemma OpenLayerWellFormed(d: DrawListData)
    requires WellFormed(d)
    ensures WellFormed(DrawListData(
      d.cmds + [DrawCmd(|d.vtxBuffer|, |d.idxBuffer|, 0, false)], d.idxBuffer, d.vtxBuffer))
  {
    AppendLayerWellFormed(d, DrawCmd(|d.vtxBuffer|, |d.idxBuffer|, 0, false), [], []);
    assert d.idxBuffer + [] == d.idxBuffer && d.vtxBuffer + [] == d.vtxBuffer;
  }

  /** Appending to the buffers keeps a text layer's header. */
  lemma HeadedAppend(c: DrawCmd, idx: seq<nat>, vtx: seq<Vert>, idx': seq<nat>, vtx': seq<Vert>)
    requires TextHeaded(c, idx, vtx)
    ensures TextHeaded(c, idx + idx', vtx + vtx')
  {
    assert (idx + idx')[c.idxOffset..c.idxOffset + 6] == idx[c.idxOffset..c.idxOffset + 6];
    assert (vtx + vtx')[c.vtxOffset..c.vtxOffset + 4] == vtx[c.vtxOffset..c.vtxOffset + 4];
  }

  /** `new_text_layer(col)` appends a text layer of exactly two triangles whose
      six indices are the screen quad over the four vertices it appends, all
      of colour `col`, and keeps the structural invariant. */
  lemma TextLayerHeader(d: DrawListData, col: Color)
    requires WellFormed(d)
    ensures var e := OpenTextLayer(d, col);
      && WellFormed(e)
      && var c := e.cmds[|e.cmds| - 1];
      && c == DrawCmd(|d.vtxBuffer|, |d.idxBuffer|, 2, true)
      && e.idxBuffer[c.idxOffset..c.idxOffset + 6] == QuadIndices(c.vtxOffset)
      && e.vtxBuffer[c.vtxOffset..c.vtxOffset + 4] == ScreenQuad(col)
  {
    var c := DrawCmd(|d.vtxBuffer|, |d.idxBuffer|, 2, true);
    var idx := d.idxBuffer + QuadIndices(|d.vtxBuffer|);
    var vtx := d.vtxBuffer + ScreenQuad(col);
    assert idx[|d.idxBuffer|..|d.idxBuffer| + 6] == QuadIndices(|d.vtxBuffer|);
    assert vtx[|d.vtxBuffer|..|d.vtxBuffer| + 4] == ScreenQuad(col);
    assert vtx[|d.vtxBuffer|].col == col;
    assert TextHeaded(c, idx, vtx);
    AppendLayerWellFormed(d, c, QuadIndices(|d.vtxBuffer|), ScreenQuad(col));
  }

  /** The eight floats of one vertex, in memory order. */
  function VertFloats(v: Vert): seq<real> {
    [v.pos.x, v.pos.y, v.pos.z, v.pos.w, v.col.x, v.col.y, v.col.z, v.col.w]
  }

  /** The vertex buffer seen as a flat array of floats. */
  function FlatVertices(vs: seq<Vert>): (r: seq<real>)
    ensures |r| == 8 * |vs|
  {
    if vs == [] then [] else FlatVertices(vs[..|vs| - 1]) + VertFloats(vs[|vs| - 1])
  }

  /** Vertex `i` occupies floats [8i, 8i + 8) of the flat view. */
  lemma {:induction false} FlatVerticesAt(vs: seq<Vert>, i: nat)
    requires i < |vs|
    ensures FlatVertices(vs)[8 * i..8 * i + 8] == VertFloats(vs[i])
  {
    var init := vs[..|vs| - 1];
    if i < |vs| - 1 {
      FlatVerticesAt(init, i);
      assert FlatVertices(vs)[8 * i..8 * i + 8] == FlatVertices(init)[8 * i..8 * i + 8];
    } else {
      assert FlatVertices(vs)[8 * i..] == VertFloats(vs[i]);
    }
  }

  class DrawList {
    var cmds: seq<DrawCmd>
    var idxBuffer: seq<nat>
    var vtxBuffer: seq<Vert>

    function Data(): DrawListData
      reads this
    {
      DrawListData(cmds, idxBuffer, vtxBuffer)
    }

    predicate Valid()
      reads this
    {
      WellFormed(Data())
    }

    predicate IndicesInRange()
      reads this
    {
      IndicesBelow(idxBuffer, |vtxBuffer|)
    }

    /** `DrawList::new()`: one default layer and empty buffers. */
    constructor ()
      ensures Data() == Empty
      ensures Valid() && IndicesInRange()
    {
      cmds := [DefaultCmd];
      idxBuffer := [];
      vtxBuffer := [];
      new;
      EmptyWellFormed();
    }

    /** Exactly one default layer and empty buffers, whatever the prior state;
        so clearing twice is clearing once. */
    method Clear()
      modifies this
      ensures Data() == Empty
      ensures Valid() && IndicesInRange()
    {
      cmds := [];
      cmds := cmds + [DefaultCmd];
      idxBuffer := [];
      vtxBuffer := [];
      EmptyWellFormed();
    }

    method NewLayer()
      modifies this
      ensures cmds == old(cmds) + [DrawCmd(old(|vtxBuffer|), old(|idxBuffer|), 0, false)]
      ensures idxBuffer == old(idxBuffer) && vtxBuffer == old(vtxBuffer)
      ensures old(Valid()) ==> Valid()
      ensures IndicesInRange() == old(IndicesInRange())
    {
      if Valid() {
        OpenLayerWellFormed(Data());
      }
      cmds := cmds + [DrawCmd(|vtxBuffer|, |idxBuffer|, 0, false)];
    }

    method NewTextLayer(col: Color)
      modifies this
      ensures Data() == OpenTextLayer(old(Data()), col)
      ensures old(Valid()) ==> Valid()
      ensures old(IndicesInRange()) ==> IndicesInRange()
    {
      ghost var d := Data();
      cmds := cmds + [DrawCmd(|vtxBuffer|, |idxBuffer|, 0, true)];
      ghost var d1 := Data();
      PushScreenQuad(col);
      OpenedTextLayer(d, col, d1, Data());
      if WellFormed(d) {
        TextLayerHeader(d, col);
      }
    }

    /** The vertex and triangle pushes of `NewTextLayer`: the four corners of
        the screen quad and its two triangles. */
    method PushScreenQuad(col: Color)
      requires cmds != []
      modifies this
      ensures Data() == Grow(old(Data()), ScreenQuad(col), QuadIndices(old(|vtxBuffer|)), 2)
    {
      ghost var d1 := Data();
      var a := PushVert(At(Vec2(-1.0, -1.0), 0.0, 1.0, col));
      ghost var s1 := Data();
      var b := PushVert(At(Vec2(1.0, -1.0), 0.0, 1.0, col));
      ghost var s2 := Data();
      var c := PushVert(At(Vec2(-1.0, 1.0), 0.0, 1.0, col));
      ghost var s3 := Data();
      var e := PushVert(At(Vec2(1.0, 1.0), 0.0, 1.0, col));
      ghost var s4 := Data();
      GrowFour(d1, ScreenQuad(col), s1, s2, s3, s4);
      PushElem(a, b, c);
      ghost var s5 := Data();
      PushElem(b, c, e);
      GrowTwoTriangles(d1, ScreenQuad(col), [a, b, c], [b, c, e], s4, s5, Data());
      assert [a, b, c] + [b, c, e] == QuadIndices(|d1.vtxBuffer|);
    }

    /** A capacity hint only; it has no effect on the contents. */
    method Reserve(idxCount: nat, vtxCount: nat)
    {
    }

    /** Returns the handle of the new vertex: the previous vertex count. */
    method PushVert(vert: Vert) returns (handle: nat)
      modifies this
      ensures handle == old(|vtxBuffer|)
      ensures vtxBuffer == old(vtxBuffer) + [vert]
      ensures idxBuffer == old(idxBuffer) && cmds == old(cmds)
      ensures cmds != [] ==> Data() == Grow(old(Data()), [vert], [], 0)
    {
      handle := |vtxBuffer|;
      vtxBuffer := vtxBuffer + [vert];
      if cmds != [] {
        BumpLastFacts(cmds, 0);
        assert BumpLast(cmds, 0) == cmds;
      }
    }

    /** Appends the triangle (a, b, c) to the last layer. */
    method PushElem(a: nat, b: nat, c: nat)
      requires cmds != []
      modifies this
      ensures idxBuffer == old(idxBuffer) + [a, b, c]
      ensures cmds == BumpLast(old(cmds), 1)
      ensures vtxBuffer == old(vtxBuffer)
      ensures Data() == Grow(old(Data()), [], [a, b, c], 1)
    {
      ghost var oldIdx := idxBuffer;
      idxBuffer := idxBuffer + [a];
      idxBuffer := idxBuffer + [b];
      idxBuffer := idxBuffer + [c];
      assert idxBuffer == oldIdx + [a, b, c];
      var last := cmds[|cmds| - 1];
      cmds := cmds[..|cmds| - 1] + [last.(numOfElems := last.numOfElems + 1)];
      assert vtxBuffer + [] == vtxBuffer;
    }

    /** The vertex buffer as the flat float array handed to the GPU. */
    function Vertices(): (r: seq<real>)
      reads this
      ensures |r| == 8 * |vtxBuffer|
    {
      FlatVertices(vtxBuffer)
    }
  }
}
