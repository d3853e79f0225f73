# Rotating DOGE wordmark — a Dafny model

`rotating.js` draws the word "DOGE" as an extruded 3D wordmark and animates it.

- **Geometry.** Each letter is a hand-placed set of rectangular blocks. `createBlock` turns a block into 8 corner vertices and 12 triangles. `generateLetterGeometry` emits a letter's blocks with a running vertex offset. `initWebGL` measures the word, centres the letters' cells on x = 0 and concatenates the letters into one mesh, whose indices are narrowed to 16 bits.
- **Animation.** Every frame, `render` computes an animation time from the clock. The time selects one of three phases:
  - spin-up before 4;
  - settle-and-grow from 4 to 6;
  - tumble from then on.

  The phase gives a pose (a scale and two rotation angles). The pose is written cell by cell into a column-major 4x4 model-view matrix, which `scaleMatrix` then scales.
- **Controls.** The play, pause and reset buttons (and the space and `r` keys) update three globals: `isPlaying`, `timeStart` and `pauseTime`.

The model has one module per concern.

- **`Matrix`** (`matrix.dfy`): the identity matrix, and `scaleMatrix` as an in-place method on an `array<real>`. Its effect is specified by the function `Scaled`.
- **`Geometry`** (`geometry.dfy`): `createBlock` as a pure function.
  - Its corners are proved to be those of the box.
  - Each face's triangles are proved to use exactly that face's four corners.
  - For each face, the winding is proved by computing the cross product of each triangle.
- **`Letters`** (`letters.dfy`): `generateLetterGeometry`.
  - Its closure `add` mutates `verts`, `inds` and `offset`, so it becomes the class `LetterBuilder`, with those locals as fields and `add` as the method `Add`.
  - Each arm of the `switch` is a method that makes that letter's `add` calls.
  - The result is proved equal to the specification function `EmitStrokes` applied to the letter's stroke table.
- **`Layout`** (`layout.dfy`): the two layout loops of `initWebGL`, as methods with loop invariants.
  - The width loop is `MeasureWord`; the build loop is `LayoutWord`.
  - The cursor and the gap sum are the recursive functions `Cursor` and `Gaps`. Closed forms, centring and symmetry are proved about them.
  - The "DOGE" mesh is proved to have 17 blocks, 136 vertices and 612 indices, all below 2^16.
- **`Clock`** (`clock.dfy`):
  - the handlers as pure transitions on `ClockState`;
  - the class `PlaybackClock`, whose methods update the three globals in place and are proved to follow those transitions;
  - lemmas that the elapsed time is exactly the time spent running.
- **`Animation`** (`animation.dfy`):
  - the phase selection and the smoothstep ease;
  - the pose as a function of time;
  - the matrix assembly, as a method writing into an array;
  - `render`, whose frame is proved to be the model-view matrix of the pose at the clock's animation time.

Times are milliseconds as read from the host clock, which becomes a `now`/`ts` parameter. `Math.sin` and `Math.cos` are function parameters `sin`, `cos: real -> real`. `Math.PI` is the constant `Pi` (3.141592653589793). The extrusion depth (the global `extrusionDepth`) and the speed factor (`animationSpeed`) are parameters too.

Observations the proofs make explicit:

- **Winding.**
  - The front, right and top faces are wound to face out of the box.
  - The back, left and bottom faces use the same winding pattern as their opposite faces, so their normals point into the box (`BackFaceNormals`, `LeftFaceNormals`, `BottomFaceNormals`).
  - So the table is not wound counter-clockwise as seen from outside on every face, which back-face culling would need. The model follows the table as the code writes it. The code never enables face culling, so nothing visible depends on the winding.
- **Cell 10.** `render` writes cell 10 twice: first the Y cosine, then the X cosine. The rotation block is therefore not a composition of the two rotations.
  - `ThirdColumnLength` shows the third column has squared length 1 + sin(rotY)² at scale 1. The block is a rotation only when sin(rotY) = 0.
  - The model reproduces the overwrite.
- **Phase jumps.** rotX is 0 right up to time 6, and 0.7π at time 6 (`PhaseBoundaries`). The tumbling phase measures its angle from time 5, so the picture jumps when tumbling begins. At time 4 the scale is 1, so the spin-up and grow phases meet without a jump in scale.
- **Speed.** A change of `animationSpeed` rescales the whole elapsed time, not only the time after the change: `AnimationTime` multiplies the full elapsed time by the current speed.

## Model

| member | source | states |
|---|---|---|
| Matrix.Identity | rotating.js:4-11 | 16 cells: 1 on the diagonal cells 0, 5, 10, 15 and 0 everywhere else |
| Matrix.NewIdentity | rotating.js:4-11 | returns a fresh array whose contents are the identity matrix |
| Matrix.Scaled | rotating.js:25-29 | scaling keeps the matrix's length; its cells are stated by `ScaledCells` |
| Matrix.ScaledCells | rotating.js:25-29 | cells 0, 5 and 10 are multiplied by the factor; every other cell, the translation included, is unchanged |
| Matrix.ScaleMatrix | rotating.js:25-29 | updates the array in place: its new contents are `Scaled` of its old contents |
| Matrix.ScaledComposes | rotating.js:25-29 | scaling by a and then by b equals scaling by a·b; scaling by 1 changes nothing |
| Matrix.ScaledIdentity | rotating.js:25-29 | the scaled identity is diag(s, s, s, 1) |
| Geometry.Sign | rotating.js:44-54 | every corner lies on side +1 or -1 of the centre along every axis |
| Geometry.CreateBlock | rotating.js:41-66 | 24 coordinates and 36 indices; index j is template entry j plus the offset, so every index lies in [offset, offset + 8) |
| Geometry.CreateBlockAlongX | rotating.js:42-54 | along x, corner k is at x ± w/2, on the side `Sign(X, k)` |
| Geometry.CreateBlockAlongY | rotating.js:42-54 | along y, corner k is at y ± h/2, on the side `Sign(Y, k)` |
| Geometry.CreateBlockAlongZ | rotating.js:42-54 | along z, corner k is at z ± d/2, on the side `Sign(Z, k)` |
| Geometry.CreateBlockIsBox | rotating.js:41-54 | the 8 vertices are exactly the corners of the box centred at (x, y, z) with extents w, h, d |
| Geometry.FaceTriangles | rotating.js:56-62 | each face has six corner indices, all within 0..7 |
| Geometry.TemplateByFace | rotating.js:56-62 | the index template is the front, back, right, left, top and bottom faces' triangles, in that order |
| Geometry.FaceCorners | rotating.js:44-54 | each face has four corners |
| Geometry.FaceCornersAreItsSide | rotating.js:44-54 | a corner belongs to a face exactly when it lies on that face's side along the face's axis |
| Geometry.FaceTrianglesUseTheirCorners | rotating.js:56-62 | both triangles of a face use only corners on its side of the box, and together they use all four |
| Geometry.FrontFaceNormals | rotating.js:57 | the front triangles' normals point along +z with length w·h (outward) |
| Geometry.BackFaceNormals | rotating.js:58 | the back triangles' normals also point along +z (into the box) |
| Geometry.RightFaceNormals | rotating.js:59 | the right triangles' normals point along +x with length h·d (outward) |
| Geometry.LeftFaceNormals | rotating.js:60 | the left triangles' normals also point along +x (into the box) |
| Geometry.TopFaceNormals | rotating.js:61 | the top triangles' normals point along +y with length w·d (outward) |
| Geometry.BottomFaceNormals | rotating.js:62 | the bottom triangles' normals also point along +y (into the box) |
| Letters.Strokes | rotating.js:84-113 | the stroke table has 5 blocks for G, 4 for D, O and E, and none for any other letter |
| Letters.StrokePart | rotating.js:76-78 | a stroke becomes the box centred at (cx + x, y, 0) with extents w, h and the extrusion depth, whose 36 indices lie in [offset, offset + 8) |
| Letters.EmitStrokes | rotating.js:68-116 | n strokes give 24n coordinates and 36n indices; the next offset is the start plus 8n; every index lies in [start, next) |
| Letters.EmitStrokesBlock | rotating.js:76-81 | block b of the output is exactly stroke b's `createBlock` at offset start + 8b: blocks are appended verbatim and in order |
| Letters.LetterBuilder.constructor | rotating.js:69-73 | no vertices and no indices; the offset is the start offset |
| Letters.LetterBuilder.Add | rotating.js:76-81 | appends one stroke's block at the current offset and advances the offset by 8; the state remains `EmitStrokes` of the strokes added so far |
| Letters.AddBlocksD | rotating.js:85-90 | the D arm adds exactly D's strokes, in table order |
| Letters.AddBlocksO | rotating.js:92-97 | the O arm adds exactly O's strokes, in table order |
| Letters.AddBlocksG | rotating.js:99-105 | the G arm adds exactly G's strokes, in table order |
| Letters.AddBlocksE | rotating.js:107-112 | the E arm adds exactly E's strokes, in table order |
| Letters.GenerateLetterGeometry | rotating.js:68-116 | the result is `EmitStrokes` of the letter's table: 8k vertices, 24k coordinates and 36k indices, with k = 4 for D, O, E, k = 5 for G and k = 0 otherwise |
| Layout.LetterWidth | rotating.js:34-36 | every letter has the same positive width |
| Layout.LayoutPrefix | rotating.js:158-171 | the first k letters give 8·blocks vertices, 24·blocks coordinates and 36·blocks indices, every index below the vertex count; per-letter placement is stated by `Layout.LayoutPrefixLetter` |
| Layout.LetterMesh | rotating.js:162-164 | letter i's own geometry, emitted from vertex offset 8·(blocks before it): 24·its blocks coordinates, 36·its blocks indices, every index in [8·before, 8·(before + its blocks)) |
| Layout.LayoutPrefixKeeps | rotating.js:166-167 | appending the next letter leaves every stretch of the earlier letters' vertices and indices in place and unchanged |
| Layout.LayoutPrefixLastVertices | rotating.js:162-166 | the last letter's stretch of coordinates, [24·before, 24·(before + its blocks)), is exactly that letter's own geometry |
| Layout.LayoutPrefixLastIndices | rotating.js:162-167 | the last letter's stretch of indices, [36·before, 36·(before + its blocks)), is exactly that letter's own index list |
| Layout.LayoutPrefixLetter | rotating.js:158-171 | in the mesh of the first k letters, letter i's coordinates at [24·before, 24·after) and indices at [36·before, 36·after) are exactly that letter's own geometry at its own centre, rebased by the carried offset `vOff` (lines 163, 169) |
| Layout.LayoutPrefixLetterIndices | rotating.js:158-171 | letter i's indices point only at letter i's own vertices, [8·before, 8·after) |
| Layout.ToUint16 | rotating.js:177 | the result lies in [0, 65536) and is congruent to the input modulo 2^16 (wrap-around, not clamping); it equals the input exactly when the input already lies in that range |
| Layout.ToUint16Array | rotating.js:177 | element j of the result is `ToUint16` of element j of the input; the conversion is lossless exactly when every element lies in [0, 65536) |
| Layout.MeasureWord | rotating.js:149-154 | the width loop computes the word's letters plus one gap between each adjacent pair |
| Layout.LayoutWord | rotating.js:146-177 | the build loop gives the whole word's mesh, its index count and its 16-bit index buffer |
| Layout.WidthStep | rotating.js:151-154 | each step of the width loop extends the prefix sum; after the last letter it gives the total width |
| Layout.CursorClosedForm | rotating.js:155-170 | before letter i the cursor is -total/2 plus the widths and the gaps of the letters before it |
| Layout.GapsLinear | rotating.js:153 | n gaps span n·gap |
| Layout.GapsAdd | rotating.js:153 | gaps laid end to end add up |
| Layout.SumWidthsUniform | rotating.js:34-36 | the letters of a string span 0.75 per letter |
| Layout.WordIsCentred | rotating.js:149-170 | the advance cells are centred: the first letter's cell (its width, centred on its centre) starts at -total/2 and the last letter's cell ends at +total/2 |
| Layout.AdjacentSpacing | rotating.js:163-170 | the centres of adjacent letters are half of each width plus one gap apart |
| Layout.LetterCentreClosedForm | rotating.js:149-170 | total = 0.75n + gap(n-1), and letter i is centred at -total/2 + 0.375 + i(0.75 + gap) |
| Layout.CentresSymmetric | rotating.js:149-170 | letters i and n-1-i are centred symmetrically about x = 0 |
| Layout.DogeBlocks | rotating.js:146 | "DOGE" has 4 + 4 + 5 + 4 = 17 blocks |
| Layout.DogeDrawnExtent | rotating.js:84-112 | with the word laid out as at lines 146-170, the drawn "DOGE" overhangs its cells: D's top and bottom bars reach 0.2 left of -total/2 and E's top and bottom bars 0.125 right of +total/2, so the drawn word sits 0.0375 left of x = 0; every O and G block stays within that span |
| Layout.DogeLayout | rotating.js:146-177 | the DOGE mesh ends at vertex offset 136, with 612 indices and 408 coordinates; every index is below 136, so the Uint16 narrowing loses nothing |
| Clock.Elapsed | rotating.js:287 | while playing, the elapsed time is now minus the shifted start, the quantity `render` scales; while paused it is the frozen `pauseTime` (line 374). That paused branch exists only in the model, since `render` computes no time while paused |
| Clock.AfterPlay | rotating.js:361-369 | play starts the clock, does nothing while already playing, and carries the elapsed time on |
| Clock.AfterPause | rotating.js:371-379 | pause stops the clock, does nothing while already paused, and freezes the elapsed time |
| Clock.AfterReset | rotating.js:381-388 | reset gives playing, a start time of now and a pause time of 0: elapsed time 0 |
| Clock.ElapsedAdvance | rotating.js:287 | without presses, the elapsed time grows by the time passed while playing and stands still while paused |
| Clock.ElapsedIsRunningTime | rotating.js:361-379 | after any sequence of play and pause presses, the elapsed time is the earlier elapsed time plus the time spent running |
| Clock.PauseThenPlayResumes | rotating.js:361-379 | pausing and then playing resumes where the pause stopped, skipping exactly the paused interval |
| Clock.PlaybackClock.constructor | rotating.js:126-136 | the initial globals: not playing, started at load time, pause time 0 |
| Clock.PlaybackClock.Start | rotating.js:462 | the load handler restarts only the start time |
| Clock.PlaybackClock.Play | rotating.js:361-369 | updates the globals as `AfterPlay` |
| Clock.PlaybackClock.Pause | rotating.js:371-379 | updates the globals as `AfterPause` |
| Clock.PlaybackClock.Toggle | rotating.js:441-445 | the space key always flips the playing state and keeps the elapsed time |
| Clock.PlaybackClock.Reset | rotating.js:381-388 | updates the globals as `AfterReset` |
| Animation.PhaseAt | rotating.js:294-304 | spin-up exactly when time < 4, grow exactly when 4 <= time < 6, tumble exactly when time >= 6 |
| Animation.AnimationTime | rotating.js:287 | while playing, the time is (ts - timeStart) / 1000 · speed; its paused value (pauseTime / 1000 · speed) exists only in the model, since `render` returns before computing a time while paused |
| Animation.Smoothstep | rotating.js:299 | the ease is 0 at 0 and 1 at 1 |
| Animation.SmoothstepSymmetric | rotating.js:299 | s(1 - u) = 1 - s(u) |
| Animation.SmoothstepPositive | rotating.js:299 | on [0, 1], s(u) is at least u², so it is positive for u > 0 |
| Animation.SmoothstepRange | rotating.js:298-300 | on [0, 1], s(u) lies in [0, 1], and strictly below 1 for u < 1 |
| Animation.SmoothstepIncrease | rotating.js:299 | s(a + d) - s(a) = d·(6a(1 - a - d) + d(3 - 2d)) |
| Animation.SmoothstepMonotone | rotating.js:299 | the ease never decreases on [0, 1] |
| Animation.PoseAt | rotating.js:289-312 | spin-up has scale 1 and rotX 0; grow has both angles 0 and scale in [1, 1.5); the scale is 1 at time 4; tumble has rotX = (t - 5)·0.7π |
| Animation.GrowIsMonotone | rotating.js:297-301 | the scale never shrinks while growing |
| Animation.TumbleScaleBounds | rotating.js:310 | with a cosine in [-1, 1], the tumbling scale stays within [1.3, 1.7] |
| Animation.PhaseBoundaries | rotating.js:294-304 | the scale is 1 at time 4; rotX is 0 before time 6 and 0.7π at time 6 |
| Animation.ModelView | rotating.js:314-332 | the assembled matrix, cell 10 overwrite included, is the model-view matrix of the pose: `IsModelView` fixes all 16 cells |
| Animation.ScaledRotation | rotating.js:320-332 | scaling the written rotation and translation cells gives the model-view matrix |
| Animation.ModelViewIsUnique | rotating.js:314-332 | a pose has exactly one model-view matrix |
| Animation.ModelViewAtRest | rotating.js:314-332 | with both angles at rest, the matrix is the scaled identity with -7 in cell 14 |
| Animation.ThirdColumnLength | rotating.js:320-328 | at scale 1 the third column has squared length 1 + sin(rotY)², so the overwrite of cell 10 breaks orthogonality unless sin(rotY) = 0 |
| Animation.Render | rotating.js:281-332 | no frame is drawn exactly when paused; otherwise the frame's matrix is the model-view matrix of the pose at the animation time |

## Left out

- WebGL calls are not modelled: context creation, shaders, buffer and uniform upload, `clear` and `drawElements` (lines 141-145, 179-257, 268-275, 334-338). The model returns the mesh and the matrix that would be uploaded.
- `getPerspectiveMatrix` (lines 13-23) and its uses at lines 256 and 457 are not modelled. The projection needs `tan` and does not interact with the rest of the model.
- The static model-view matrix that `initWebGL` draws once (lines 259-266) is not modelled; only the animated one from `render` is.
- The bouncing offset `Y` (line 307) is computed but never used in the matrix, so it is not modelled.
- `requestAnimationFrame` scheduling and `performance.now()` are not modelled. The clock reading is the parameter `now`, or `ts` for a frame.
- The numeric values of `Math.sin` and `Math.cos` are not modelled; they are parameters. `Animation.TumbleScaleBounds` therefore assumes the cosine lies in [-1, 1].
- `Float32Array` rounding (line 176) is not modelled; coordinates are exact reals.
- IEEE double arithmetic is modelled as exact real arithmetic throughout. This covers the width sum and cursor (lines 149-170), the animation time and the ease (lines 287-300), and the matrix cells and `scaleMatrix` (lines 25-29, 320-332). The equalities proved about them (`Layout.CentresSymmetric`, `Layout.WordIsCentred`, `Layout.LetterCentreClosedForm`, `Matrix.ScaledComposes`, `Animation.SmoothstepSymmetric`, `Animation.SmoothstepIncrease`) hold in the program only up to rounding. For example, the gap 0.35 is not representable as a double, so in double arithmetic the outer centres of "DOGE" can differ in magnitude by a few units in the last place instead of being exact opposites.
- Button enabling and disabling (lines 366-367, 376-377, 386-387) is not modelled. Each handler's own guard already makes a redundant click a no-op.
- The depth and speed sliders, the colour picker with its hex parsing, the background theme, and the resize handler (lines 390-435 and 451-459) are not modelled.
  - Their effect on the model is a new `thick` for the next `LayoutWord`, or a new `speed` for `Render`.
- The `r` key (lines 446-448) only clicks reset, which `Clock.PlaybackClock.Reset` models.
- `Clock.PlaybackClock.Toggle`: the model calls the handlers directly and does not model `click()` on a disabled button.
- `Layout.LetterWidth`: the contract states only that the width is positive. The constant 0.75 is in its body and is used through `Layout.SumWidthsUniform`.
- The word is the parameter `text`, generalising the fixed "DOGE" (line 146). The width loop (lines 151-152) walks UTF-16 code units, while the build loop (line 162) walks code points; the model indexes one sequence of characters for both, so it is exact only for strings without characters outside the Basic Multilingual Plane.
