# gl2d: a verified model of the 2D tessellator and text viewer

gl2d is a WebGL text viewer written in Rust. Every frame, it turns a
pan-and-zoom camera and a text into a triangle mesh:

- The **draw list** (`DrawList`) owns a growing vertex buffer and a flat
  buffer of triangle indices. It also keeps an ordered, never-empty list of
  layers (`DrawCmd`). Each layer covers a contiguous run of the index buffer.
  A *text layer* starts with a full-screen quad that the backend composites
  in a second pass.
- The **shape tessellators** append thick lines with round caps, rings and
  squares to the last layer.
- The **glyph builder** receives a font outline as a sequence of
  move/line/quad/close events. It turns them into a mesh: a fan of triangles
  around each contour's first point, plus one curve triangle per quadratic
  segment, tagged for the Loop-Blinn technique.
- **`add_glyph`** copies such a mesh into the draw list, placed and scaled.
  It first culls the glyph against the visible world rectangle.
- The **viewer** (`Gl2d`) runs the frame:
  - `begin_frame` applies the scroll and pinch input to the camera;
  - the zoom is clamped so that the scale stays in [0.1, 16];
  - the draw list is cleared;
  - the camera is copied into the draw context;
  - `draw` opens a text layer and lays the text out as rows of glyphs.

The Dafny project has five modules:

- `Geometry` (geometry.dfy): vectors, vertices, and the explicit rounding and
  cast rules the source relies on.
- `DrawLists` (draw_list.dfy): the draw list as a `class` with `seq` fields.
  It comes with a value view `DrawListData` and two invariants:
  - `WellFormed`: the layers tile the index buffer in order, vertex offsets
    lie inside the vertex buffer, and every text layer is headed by its quad;
  - `IndicesBelow`: every index names an existing vertex.
- `Shapes` (shape.dfy): `add_line_with_params`, `add_line`, `add_circle` and
  `add_square`. Each is an imperative method over the draw list. Each is
  proved equal to a pure function (`DrawLine`, `DrawCircle`, ...)
  whose own properties are proved as lemmas.
- `Glyphs` (glyph.dfy): `Glyph`, `GlyphBuilder` and its callbacks as
  classes, a pure model of the builder (`Step`, `Run`, `Outline`),
  and `add_glyph`.
- `Viewer` (lib.dfy): `Transform`, `Io`, the zoom clamp, and `Gl2d` with
  `begin_frame` and the layout loop of `draw`.

Decisions worth knowing:

- **Real arithmetic.** The model computes in `real`, not `f32`.
- **Opaque library maths.** `sqrt`, `cos` and `sin` are parameters
  (`Geometry.Math`). No property of their values is used.
- **Reservation sizes.** Each generator's `reserve` call is only a capacity
  hint, and two of them reserve less than they push:
  - `add_line` with caps reserves one vertex and one triangle fewer than it
    pushes (`Shapes.AddLineSize`);
  - `add_circle` reserves 2n vertices and pushes 2n + 2 (`Shapes.DrawRing`).

  Nothing else depends on the reservation.

## Model

| member | source | states |
|---|---|---|
| `Geometry.TryNormalize` | crates/gl2d/src/shape.rs:50-52 | the zero direction stays zero; a vector of non-positive norm is left unchanged |
| `Geometry.Ceil` | crates/gl2d/src/shape.rs:16 | the result is the least integer not below x |
| `Geometry.SaturatingToUsize` | crates/gl2d/src/shape.rs:16 | the `as usize` cast gives the representable value nearest to its argument, at most 2^32 - 1 |
| `DrawLists.BumpLastFacts` | crates/gl2d/src/draw_list.rs:99 | growing the last layer by k changes only that layer's triangle count, and raises the total by exactly k |
| `DrawLists.GrowGrow` | crates/gl2d/src/draw_list.rs:89-100 | two successive appends to the last layer equal one append of both vertex runs, both index runs and the summed triangle count |
| `DrawLists.EmptyWellFormed` | crates/gl2d/src/draw_list.rs:33-39 | the state made by `new` and by `clear` satisfies both draw-list invariants |
| `DrawLists.GrowWellFormed` | crates/gl2d/src/draw_list.rs:89-100 | appending 3k indices and k triangles to the last layer keeps the layers tiling the index buffer and every text header intact |
| `DrawLists.GrowIndicesBelow` | crates/gl2d/src/draw_list.rs:89-100 | appending indices that name vertices of the grown buffer keeps every index naming an existing vertex |
| `DrawLists.PushElemInRange` | crates/gl2d/src/draw_list.rs:95-100 | after one more triangle, every index is in range if and only if it was before and the three new corners exist |
| `DrawLists.AppendLayerWellFormed` | crates/gl2d/src/draw_list.rs:48-63 | a layer opened at the end of the index buffer, covering the appended indices, keeps the tiling invariant |
| `DrawLists.OpenLayerWellFormed` | crates/gl2d/src/draw_list.rs:48-55 | opening an empty ordinary layer at the current buffer lengths keeps the invariant |
| `DrawLists.HeadedAppend` | crates/gl2d/src/draw_list.rs:89-100 | appending to the buffers never disturbs a text layer's quad header |
| `DrawLists.TextLayerHeader` | crates/gl2d/src/draw_list.rs:57-82 | `new_text_layer` gives a text layer of two triangles. Its six indices are the quad over the four vertices it appends, in colour col, and the invariant holds |
| `DrawLists.BackendRanges` | crates/gl2d/src/backend.rs:127-180 | for a well-formed list, every range the backend draws lies inside the index buffer; for a text layer, `num_of_elems - 2` does not underflow |
| `DrawLists.FlatVertices` | crates/gl2d/src/draw_list.rs:110-118 | the flat float view has 8 floats per vertex |
| `DrawLists.FlatVerticesAt` | crates/gl2d/src/draw_list.rs:110-118 | vertex i occupies floats [8i, 8i + 8) of the flat view: position then colour |
| `DrawLists.DrawList.constructor` | crates/gl2d/src/draw_list.rs:33-39 | one default layer, empty buffers, both invariants |
| `DrawLists.DrawList.Clear` | crates/gl2d/src/draw_list.rs:41-46 | from any state, exactly one default layer and empty buffers remain |
| `DrawLists.DrawList.NewLayer` | crates/gl2d/src/draw_list.rs:48-55 | appends an empty ordinary layer at the current buffer lengths, leaves the buffers alone and keeps both invariants |
| `DrawLists.DrawList.NewTextLayer` | crates/gl2d/src/draw_list.rs:57-82 | the new state is `OpenTextLayer` of the old one (see `TextLayerHeader`), and both invariants are kept |
| `DrawLists.DrawList.PushScreenQuad` | crates/gl2d/src/draw_list.rs:64-81 | the four screen corners and the triangles (a,b,c), (b,c,d) are appended to the last layer |
| `DrawLists.DrawList.PushVert` | crates/gl2d/src/draw_list.rs:89-93 | the handle returned is the previous vertex count; only the vertex is appended |
| `DrawLists.DrawList.PushElem` | crates/gl2d/src/draw_list.rs:95-100 | the three indices are appended and the last layer gains one triangle; nothing else changes |
| `DrawLists.DrawList.Vertices` | crates/gl2d/src/draw_list.rs:110-118 | the float slice is 8 times the vertex count long |
| `Shapes.CapSegmentCount` | crates/gl2d/src/shape.rs:12-17 | no cap segments up to one pixel of resolution; beyond that, at least 2 and ceil(1.5 · resolution) when representable |
| `DrawLists.OpenTextLayer` | crates/gl2d/src/draw_list.rs:57-82 | one new text layer starting at the old buffer lengths with the 2 triangles of the screen quad; 4 vertices and 6 indices appended; old layers and buffer contents kept |
| `Viewer.InitialViewIsScreen` | crates/gl2d/src/draw_list.rs:14-22 | a fresh draw context has the identity camera, so its visible world rectangle is the screen [0, width] × [0, height] |
| `Shapes.NewLineParams` | crates/gl2d/src/shape.rs:11-29 | half the thickness and k + 1 cap samples; all defined points when there are caps, the single undefined sample when there are none |
| `Shapes.VtxCountExact` | crates/gl2d/src/shape.rs:31-33 | `vtx_count` is exactly the vertex count of a line drawn with the parameters; 5 + k for `LineParams::new` |
| `Shapes.IdxCountExact` | crates/gl2d/src/shape.rs:35-37 | `idx_count` is exactly the index count of a line drawn with the parameters; 3(3 + k) for `LineParams::new` |
| `Shapes.DrawLine` | crates/gl2d/src/shape.rs:48-98 | a line keeps the old layers and buffer contents; it appends 4 + s vertices, the body corners first, and 2 + s triangles, the body's first; s is the number of cap samples |
| `Shapes.CapSamples` | crates/gl2d/src/shape.rs:19-24 | k + 1 samples, both ends of the range included; sample i is the half-thickness vector at angle 2πi/k |
| `Shapes.LineVerts` | crates/gl2d/src/shape.rs:54-98 | a line adds 4 vertices for the body and one per cap sample |
| `Shapes.LineIndices` | crates/gl2d/src/shape.rs:54-98 | a line adds 2 body triangles and one triangle per cap sample |
| `Shapes.AddLineSize` | crates/gl2d/src/shape.rs:102-110 | `add_line` draws no cap samples up to one pixel and k + 1 beyond. Its reservation of 4 + k vertices and 3(2 + k) indices is then one vertex and one triangle short |
| `Shapes.ParamsAgainstAddLine` | crates/gl2d/src/shape.rs:11-29 | above one pixel, `LineParams::new` gives exactly the samples `add_line` draws. Up to one pixel, it gives one undefined (NaN) sample. That sample is not on the p1 side, so it takes the p2 branch and adds one vertex at p2 and one cap triangle, while `add_line` draws no cap |
| `Shapes.CapIndicesWithin` | crates/gl2d/src/shape.rs:136-163 | every cap triangle names only vertices the same line pushed |
| `Shapes.LineIndicesWithin` | crates/gl2d/src/shape.rs:54-98 | every triangle of a line names only the line's own vertices |
| `Shapes.DrawLineKeeps` | crates/gl2d/src/shape.rs:41-99 | drawing a line keeps both draw-list invariants |
| `Shapes.FirstEndPointsBack` | crates/gl2d/src/shape.rs:143 | a sample belongs to the p1 cap exactly when it points against the line direction |
| `Shapes.DegenerateOffset` | crates/gl2d/src/shape.rs:50-52 | a line from a point to itself has a zero offset |
| `Shapes.DegenerateLine` | crates/gl2d/src/shape.rs:113-143 | with a zero offset, the four body corners coincide and every cap sample is drawn at p2 |
| `Shapes.PushCapSample` | crates/gl2d/src/shape.rs:141-161 | one cap sample adds its vertex at its own end and fans it from the last vertex at that end; the fan vertex of the other end is reset |
| `Shapes.PushBody` | crates/gl2d/src/shape.rs:117-134 | returns consecutive handles v0..v3 and appends the body corners and triangles (v0,v1,v2), (v0,v2,v3) |
| `Shapes.PushCaps` | crates/gl2d/src/shape.rs:136-163 | the cap loop appends `CapVerts` and `CapIndices` of all samples, one triangle per sample |
| `Shapes.PushLine` | crates/gl2d/src/shape.rs:117-163 | body then caps is exactly `DrawLine` |
| `Shapes.AddLineWithParams` | crates/gl2d/src/shape.rs:41-99 | the new list is `DrawLine` with the normalised half-thickness offset and the parameters' samples. It grows by exactly `vtx_count` vertices and `idx_count` indices, and both invariants are kept |
| `Shapes.AddLine` | crates/gl2d/src/shape.rs:101-164 | the new list is `DrawLine` with the samples `add_line` chooses at the context's scale, and both invariants are kept |
| `Shapes.CircleSegments` | crates/gl2d/src/shape.rs:169 | the segment count is ceil(r + thickness · scale), saturated at 0 and at the usize maximum |
| `Shapes.DrawRing` | crates/gl2d/src/shape.rs:174-201 | a ring of n segments keeps the old layers and buffer contents, and appends 2n + 2 vertices and 2n triangles to the last layer |
| `Shapes.DrawCircle` | crates/gl2d/src/shape.rs:166-202 | `add_circle` appends 2n + 2 vertices and 2n triangles, n being `CircleSegments` at the context's scale |
| `Shapes.RingVertsAt` | crates/gl2d/src/shape.rs:176-201 | pair i of the ring is vertex 2i on the outer radius and vertex 2i + 1 on the inner radius, at the same angle |
| `Shapes.RingIndicesAt` | crates/gl2d/src/shape.rs:184-201 | the triangles of segment i are (o[i-1], i[i-1], o[i]) and (o[i], i[i], i[i-1]), at indices [6(i-1), 6i) |
| `Shapes.RingIndicesWithin` | crates/gl2d/src/shape.rs:184-201 | every ring triangle names only the ring's own 2n + 2 vertices |
| `Shapes.DrawRingKeeps` | crates/gl2d/src/shape.rs:166-202 | drawing a ring keeps both draw-list invariants |
| `Shapes.DrawCircleKeeps` | crates/gl2d/src/shape.rs:166-202 | drawing a circle keeps both draw-list invariants |
| `Shapes.PushFirstPair` | crates/gl2d/src/shape.rs:176-183 | the pair at angle 0 is appended, with consecutive handles |
| `Shapes.PushSegment` | crates/gl2d/src/shape.rs:184-201 | one loop iteration takes the list from pairs 0..i-1 to pairs 0..i, with segment i's two triangles |
| `Shapes.PushRing` | crates/gl2d/src/shape.rs:174-201 | the loop appends n + 1 pairs and 2n triangles, exactly `DrawRing` |
| `Shapes.AddCircle` | crates/gl2d/src/shape.rs:166-202 | the new list is `DrawCircle` at radii r ± thickness/2, and both invariants are kept |
| `Shapes.SquareGeometry` | crates/gl2d/src/shape.rs:205-223 | the square is centred at p, and its sides along both axes have length `size` |
| `Shapes.AddSquare` | crates/gl2d/src/shape.rs:205-226 | appends the four corners and the triangles (a,b,c), (b,c,d) to the last layer, and both invariants are kept |
| `Glyphs.Step` | crates/gl2d/src/glyph.rs:128-176 | one outline event fails exactly when it is a cubic segment |
| `Glyphs.BuiltInRange` | crates/gl2d/src/glyph.rs:88-121 | in a builder mesh, every index names an own vertex and there are three indices per triangle |
| `Glyphs.AddTriBuilt` | crates/gl2d/src/glyph.rs:88-121 | one ink triangle with fan or curve tags keeps the builder's mesh shape: fresh vertices, `idx[i] == i`, tagged triangles |
| `Glyphs.FanStepBuilt` | crates/gl2d/src/glyph.rs:135-147 | the fan step of a segment keeps the mesh shape |
| `Glyphs.StepBuilt` | crates/gl2d/src/glyph.rs:128-176 | every outline event keeps the mesh shape |
| `Glyphs.Run` | crates/gl2d/src/glyph.rs:128-176 | a successful run only appends to the mesh, by at most two triangles per event, and leaves the bounding box alone |
| `Glyphs.Outline` | crates/gl2d/src/glyph.rs:15-21 | a built glyph carries the parser's bounding box and at most two triangles per outline event |
| `Glyphs.RunAppend` | crates/gl2d/src/glyph.rs:128-176 | feeding two outlines in turn is feeding their concatenation, with failure propagated |
| `Glyphs.RunBuilt` | crates/gl2d/src/glyph.rs:128-176 | any event sequence keeps the mesh shape |
| `Glyphs.OutlineBuilt` | crates/gl2d/src/glyph.rs:15-21 | every glyph built from an outline has the mesh shape, only in-range indices, and the parser's bounding box |
| `Glyphs.RunFailsIffCubic` | crates/gl2d/src/glyph.rs:169-171 | a run fails if and only if the sequence holds a cubic segment |
| `Glyphs.OutlineFailsIffCubic` | crates/gl2d/src/glyph.rs:15-21 | building a glyph fails if and only if its outline has a cubic segment |
| `Glyphs.SegmentsCount` | crates/gl2d/src/glyph.rs:135-167 | k segments add one fan triangle per segment after the contour's first and one curve patch per quadratic segment, and leave the first point where it was |
| `Glyphs.ContourTriangles` | crates/gl2d/src/glyph.rs:129-167 | a move followed by k segments, q of them quadratic, yields max(0, k - 1) + q triangles |
| `Glyphs.SquareOutline` | crates/gl2d/src/glyph.rs:129-176 | a unit square outline becomes a fan of the two triangles around its first corner, with y flipped |
| `Glyphs.Glyph.constructor` | crates/gl2d/src/glyph.rs:6-12 | an empty glyph with no bounding box |
| `Glyphs.Glyph.PushVert` | crates/gl2d/src/glyph.rs:28-32 | the handle returned is the previous vertex count; only the vertex is appended |
| `Glyphs.Glyph.PushElem` | crates/gl2d/src/glyph.rs:34-39 | the three indices are appended and the triangle count rises by one; nothing else changes |
| `Glyphs.GlyphBuilder.constructor` | crates/gl2d/src/glyph.rs:78-84 | the builder begins in the `NewBuilder` state with a fresh glyph |
| `Glyphs.GlyphBuilder.AddTriangle` | crates/gl2d/src/glyph.rs:88-103 | appends three fresh vertices tagged (0,1), (0,1), (1,1) and their triangle |
| `Glyphs.GlyphBuilder.AddCurve` | crates/gl2d/src/glyph.rs:106-121 | appends three fresh vertices tagged (0,0), (0.5,0), (1,1) and their triangle |
| `Glyphs.GlyphBuilder.Build` | crates/gl2d/src/glyph.rs:123-125 | hands over the glyph the builder made |
| `Glyphs.GlyphBuilder.MoveTo` | crates/gl2d/src/glyph.rs:129-133 | the builder's new state is `Step` of a move event |
| `Glyphs.GlyphBuilder.LineTo` | crates/gl2d/src/glyph.rs:135-147 | the builder's new state is `Step` of a line event |
| `Glyphs.GlyphBuilder.QuadTo` | crates/gl2d/src/glyph.rs:149-167 | the builder's new state is `Step` of a quadratic event |
| `Glyphs.GlyphBuilder.CurveTo` | crates/gl2d/src/glyph.rs:169-171 | a cubic segment is reported unsupported, and `Step` fails on it |
| `Glyphs.GlyphBuilder.Close` | crates/gl2d/src/glyph.rs:173-176 | the builder's new state is `Step` of a close event |
| `Glyphs.NewGlyph` | crates/gl2d/src/glyph.rs:15-21 | fails exactly when `Outline` fails (a cubic segment); otherwise the result is a fresh glyph holding `Outline` of the events and the box |
| `Glyphs.AsWrittenAgainstFixed` | crates/gl2d/src/glyph.rs:50-59 | the source's test passes less often than the corrected one for a box reaching below the baseline, more often for a box wholly above it, and the two agree when y_min = 0 |
| `Glyphs.CullIsSound` | crates/gl2d/src/glyph.rs:50-63 | with the corrected corner, a glyph with any box point on screen passes the test, so a culled glyph has nothing visible |
| `Glyphs.CullAsWrittenDropsVisible` | crates/gl2d/src/glyph.rs:52-53 | the source's test culls a glyph one of whose box points is on screen; the corrected test keeps it |
| `Glyphs.CullDropsOffscreen` | crates/gl2d/src/glyph.rs:50-63 | a glyph whose placed box [200, 300] × [200, 300] misses the visible rectangle [0, 100] × [0, 100] appends nothing |
| `Glyphs.AsWrittenDropsGlyph` | crates/gl2d/src/glyph.rs:43-63 | on that input, `add_glyph` leaves the list unchanged, while the corrected placement appends the glyph |
| `Glyphs.PlaceGlyphFixed` | crates/gl2d/src/glyph.rs:43-75 | with the corrected test, a glyph with a vertex and with any box point on screen is never dropped |
| `Glyphs.PlaceGlyph` | crates/gl2d/src/glyph.rs:43-75 | a glyph that the source's test rejects leaves the list unchanged; any other keeps the old layers and buffer contents, appends its vertices and indices, and adds its triangles to the last layer |
| `Glyphs.Rebase` | crates/gl2d/src/glyph.rs:64-66 | each glyph index is shifted by the draw list's vertex count |
| `Glyphs.PlaceVerts` | crates/gl2d/src/glyph.rs:67-73 | each vertex's position is scaled and translated; its tags and colour are kept |
| `Glyphs.PlaceGlyphKeeps` | crates/gl2d/src/glyph.rs:43-75 | placing a glyph with three indices per triangle keeps the tiling; placing one with in-range indices keeps the index bound |
| `Glyphs.PlacedMesh` | crates/gl2d/src/glyph.rs:64-73 | when drawn, the k-th new index names the placed copy of the vertex that the glyph's k-th index names |
| `Glyphs.AddGlyph` | crates/gl2d/src/glyph.rs:43-75 | the new list is `PlaceGlyph`: unchanged when the source's test rejects the box, otherwise the placed mesh appended to the last layer. Both invariants are kept |
| `Viewer.WorldScreenInverse` | crates/gl2d/src/glyph.rs:54-55 | the unscale the cull uses inverts the camera map w ↦ w · scale + translate |
| `Viewer.ScreenCornersAreWorld` | crates/gl2d/src/glyph.rs:54-55 | the visible rectangle is the world image of the screen corners (0, 0) and (width, height) |
| `Viewer.ZoomTranslate` | crates/gl2d/src/lib.rs:133 | the translation's offset from the zoom origin is scaled by the zoom, then the pan is added; a zoom of 1 only pans |
| `Viewer.ZoomFixesOrigin` | crates/gl2d/src/lib.rs:132-135 | zooming about an origin without panning keeps the world point under that origin fixed on screen |
| `Viewer.Transform.Default` | crates/gl2d/src/lib.rs:138-146 | scale 1, zero translation, screen 1 × 1 |
| `Viewer.Transform.PanZoom` | crates/gl2d/src/lib.rs:132-135 | the translation becomes t·zoom − origin·zoom + origin + pan and the scale is multiplied by zoom; the screen size is kept |
| `Viewer.ClampZoom` | crates/gl2d/src/lib.rs:87-92 | a new scale below 0.1 becomes exactly 0.1, one above 16 exactly 16, and the raw factor 1 − pinch · 0.02 is kept when the new scale is in range |
| `Viewer.ClampedScaleInRange` | crates/gl2d/src/lib.rs:87-92 | for any pinch, the clamped zoom keeps the absolute scale in [0.1, 16]; the raw factor is used unchanged whenever its result is in range |
| `Viewer.ClampHoldsAtBound` | crates/gl2d/src/lib.rs:87-92 | zooming further past a bound leaves the scale at that bound |
| `Viewer.QuietFrame` | crates/gl2d/src/lib.rs:85-93 | a frame with no wheel and no pinch leaves the camera unchanged |
| `Viewer.Io.constructor` | crates/gl2d/src/io.rs:16-25 | screen 1 × 1, pixel ratio 1, no mouse, wheel or pinch |
| `Viewer.Io.Reset` | crates/gl2d/src/io.rs:83-86 | consumes the wheel and pinch deltas and keeps the rest |
| `Viewer.AdvanceIsScaledSum` | crates/gl2d/src/lib.rs:108-117 | the pen after a row is 0.2 times the sum of the glyph advances |
| `Viewer.LayoutLine` | crates/gl2d/src/lib.rs:109-117 | laying out a row adds no layer |
| `Viewer.LayoutLineStep` | crates/gl2d/src/lib.rs:109-116 | glyph j of a row is placed at the pen after glyphs 0..j-1, whose advance it then adds |
| `Viewer.Layout` | crates/gl2d/src/lib.rs:107-118 | laying out the text adds no layer |
| `Viewer.LayoutLineKeeps` | crates/gl2d/src/lib.rs:109-117 | a row of builder glyphs keeps both draw-list invariants |
| `Viewer.LayoutKeeps` | crates/gl2d/src/lib.rs:107-118 | a table of builder glyphs keeps both draw-list invariants |
| `Viewer.LayoutLineLastLayer` | crates/gl2d/src/lib.rs:109-117 | a row leaves the last layer's kind as it was |
| `Viewer.LayoutLastLayer` | crates/gl2d/src/lib.rs:107-118 | the whole text leaves the last layer's kind as it was |
| `Viewer.GrowTextIndices` | crates/gl2d/src/lib.rs:103 | opening the text layer keeps every index naming an existing vertex |
| `Viewer.FrameKeeps` | crates/gl2d/src/lib.rs:102-118 | a frame keeps both invariants, and its last layer is the text layer it opens |
| `Viewer.Gl2d.constructor` | crates/gl2d/src/lib.rs:46-80 | an empty draw list; a 1000 × 1000 draw context with a transparent background; the default transform; the viewer invariant |
| `Viewer.ApplyInput` | crates/gl2d/src/lib.rs:83-94 | the screen size is taken from the input; the camera pans by the negated wheel and zooms by the clamped pinch factor about the mouse; the scale stays in [0.1, 16]; the deltas are consumed |
| `Viewer.Gl2d.BeginFrame` | crates/gl2d/src/lib.rs:82-100 | the camera update of `ApplyInput`; the draw list is cleared; the draw context receives the pixel ratio, scale, translation and screen size; the viewer invariant is kept |
| `Viewer.DrawRow` | crates/gl2d/src/lib.rs:108-117 | the row loop places each glyph at the running pen position, exactly `LayoutLine` |
| `Viewer.Gl2d.Draw` | crates/gl2d/src/lib.rs:102-118 | the new list is `Frame`: a text layer, then every row at height 200(L + 1) and scale 0.2; the viewer invariant is kept |

## Left out

- The WebGL backend (backend.rs), the React front end (App.tsx) and the `Io` getters and setters are not modelled. This includes the `pinch` getter returning `wheel.x` (io.rs:48-50). The backend's draw call at lib.rs:119-121 is left out. What it reads of the draw list is stated by `DrawLists.BackendRanges`.
- The font parser is not modelled:
  - `Glyph::new` receives the outline as a sequence of events, plus the bounding box the parser would report;
  - `Gl2d::new` receives the glyph table (the text split into lines, with glyphs and advances) instead of reading the embedded font and text;
  - the constructor requires every glyph to come from the builder.
- `f32` is modelled as `real`: rounding, infinities and NaN are not modelled. One NaN is modelled: the sample `LineParams::new` makes for zero segments. Its side test is false, as for NaN. Its vertex, whose coordinates are NaN in the source, is placed at p2.
- `sqrt`, `cos` and `sin` have no modelled properties. So the ring's last vertex pair is not proved to coincide with its first.
- Index and handle truncation to `u32` is not modelled. A wasm32 vertex buffer of 32-byte vertices cannot hold 2^32 entries.
- Shapes.VtxCount and Shapes.IdxCount: the `usize` overflow of 4 + len and (2 + len) · 3 (shape.rs:31-37) is not modelled; the counts are unbounded. It needs a cap level of detail saturated at the `usize` maximum, whose samples could not be allocated.
- The `i16` negation of `y_max` in the cull is not modelled; it overflows only at -32768.
- `reserve` on the draw list and on a glyph is a capacity hint with no observable effect. It is a method with an empty body and no contract.
- `vertices()` reinterprets memory. It is modelled as the flat float sequence, position then colour per vertex. Its memory layout is not modelled.
- `indices()` returns the index buffer unchanged and has no separate member. `Default for DrawList` is `new`.
- `curve_to` panics in the source. The model reports failure: `CurveTo` returns false and `NewGlyph` returns no glyph. The panic itself is not modelled.
- Glyphs.AddGlyph: requires a non-zero camera scale when the glyph has a bounding box, because the cull divides by that scale. The viewer keeps the scale in [0.1, 16].
- Glyphs.PlaceGlyphFixed: the corrected placement of Findings is stated and proved beside the as-written one. `Glyphs.AddGlyph`, `Viewer.Frame` and `Viewer.Gl2d.Draw` follow the source's test, `Glyphs.HitAsWritten`.
- `PushBody`, `PushCaps`, `PushLine`, `PushCapSample`, `PushFirstPair`, `PushSegment`, `PushScreenQuad`, `ApplyInput` and `DrawRow` are parts of single source functions, split out so that each proof stays small.

## Findings

| source | as written | input that shows it | evidently intended | confidence | as-written member | corrected member |
|---|---|---|---|---|---|---|
| crates/gl2d/src/glyph.rs:52-53 | the glyph box's bottom-right corner uses `bb.y_min` un-negated, while the top-left corner uses `-bb.y_max`, because font y points up and screen y points down | translate (0, -5), scale 1, screen 1000 × 1000; box x in [0, 10], y in [-10, 10]; position (0, 0), scale 1. The box point (0, 7) is on screen, yet the test culls the glyph | `-bb.y_min`, so that the tested box is the placed glyph's own box | medium; not executed | `Glyphs.CullAsWrittenDropsVisible` | `Glyphs.PlaceGlyphFixed` |
