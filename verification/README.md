# euclid, modelled in Dafny

`euclid` is a short GLUT demo in one C file, `main.c`. Each frame it computes
a scene time and picks an effect from a fixed list:

- a Mandelbrot fade-in and zoom;
- a Koch snowflake morphing through five recursion levels;
- a kaleidoscope warp of that snowflake;
- a square "qoch" curve, both as a kaleidoscope and as a morph;
- a fire automaton that burns the word "EUCLID".

This project models the computing core of the demo and proves what it does.
The drawing calls, the sound thread and the clock are left outside (see
"Left out").

Modules, one per file:

- `Numeric` (`numeric.dfy`): C's integer behaviour used elsewhere.
  - Truncating float-to-int conversion.
  - C's `/` and `%`, whose remainder carries the sign of the dividend.
  - Bytes and RGB pixels.
  - Row-major flat indices.
- `Interp` (`interp.dfy`): `lerp`, `smoothstep` and `morph`, over exact reals.
- `Colour` (`colour.dfy`): `hsl2rgb` and the two palettes built from it.
- `Curves` (`curves.dfy`): the turtle geometry behind `koch` and `qoch`.
  - Headings are whole numbers of 60° or 90° turns.
  - Positions are exact lattice offsets. For koch they are taken over the unit vectors at 0° and 60°.
  - Each recursive curve is written out as the program of `forward`, turn and `point` calls it makes.
  - The lemmas cover that program's point count, its end pose, its last point, and the closed outlines the level builders draw.
- `Turtles` (`turtle.dfy`): the global turtle (`t_a`, `t_x`, `t_y` and the `points` cursor) as a class. Its `Koch` and `Qoch` methods are the recursive walkers, written imperatively.
- `Outlines` (`outlines.dfy`): `make_koch` and `make_qoch`, which build five levels each, and the level morph of `draw_koch` and `draw_qoch`.
- `Mandelbrot` (`mandelbrot.dfy`): the pixel loop of `draw_mandelbrot`.
  - The view mapping.
  - The short-cut disks and the escape loop. The `goto setpixel` becomes a `Verdict` value.
  - The colouring of each pixel.
- `Kaleidoscope` (`kaleidoscope.dfy`): the in-place bake passes of `make_kochz` and `make_qochz`, and the warp lookup of `draw_kochz` and `draw_qochz`.
- `Fire` (`fire.dfy`): the persistent `flame` byte grid and one frame of `draw_fire`.
  - The in-place stencil sweep.
  - Clearing and reseeding the seed row.
  - The letters stamped by `draw_euclid`.
  - The paint pass through the palette.
- `Sequencer` (`sequencer.dfy`): the literal branch chain of `display`.

Some behaviour of the code differs from what a reader of the demo might
expect. The model follows the code in each case:

- The scene time is the clock less two seconds (main.c:929-932). So the demo exits when `t` reaches 93, which is 95 seconds after start.
- `draw_euclid` writes rows up to and including `140 * bh / 192` (main.c:791, 801), not only up to `139 * bh / 192`.
- `make_mandelbrot` fills rows 0 to 190 and blackens row 191. Rows 192 to 255 keep the zeros of static storage; the escape loop never reaches them.

## Model

| member | source | states |
|---|---|---|
| Numeric.Trunc | main.c:545-546 | C's float-to-int conversion truncates toward zero: for x ≥ 0 the result lies in (x − 1, x], for x < 0 in [x, x + 1) |
| Numeric.CRem | main.c:545-546 | C's `%`: `a == n * CDiv(a, n) + r`; the remainder lies in [0, n) for a non-negative dividend and in (−n, 0] for a negative one |
| Numeric.CRemWrap | main.c:545 | C's remainder equals the Euclidean one where it is not negative, and is exactly `n` less where it is negative |
| Numeric.FlatIndex | main.c:480 | the flat index `y * w + x` of a pixel determines the pixel: dividing gives `y`, the remainder gives `x` |
| Numeric.FlatOrder | main.c:476-480 | row-then-column order is increasing flat-index order |
| Numeric.FlatInside | main.c:480 | every pixel of a `w * h` image has a flat index below `w * h` |
| Interp.Lerp | main.c:134-137 | `lerp(a, b, 0) == a` and `lerp(a, b, 1) == b` |
| Interp.LerpBetween | main.c:134-137 | for t in [0, 1], `lerp` stays between min(a, b) and max(a, b) |
| Interp.Smoothstep | main.c:139-143 | `smoothstep(0) == 0` and `smoothstep(1) == 1` |
| Interp.SmoothstepRange | main.c:139-143 | on [−1/2, 3/2], and so on [0, 1], the ease stays in [0, 1] |
| Interp.SmoothstepMonotone | main.c:139-143 | on [0, 1] the ease never decreases |
| Interp.SmoothstepSymmetric | main.c:139-143 | S(1 − x) == 1 − S(x) |
| Interp.Morph | main.c:317-329 | `morph` returns point `a` at t = 0 and point `b` at t = 1 |
| Interp.MorphBetween | main.c:317-329 | for t in [−1/2, 3/2], and so in [0, 1], the morphed point lies in the box spanned by `a` and `b` |
| Colour.HslToRgb | main.c:70-127 | the channels start as the grey `l` and stay grey when v ≤ 0; for h ≥ 1 the sextant is 6 or more, no case of the switch matches, and the colour is the grey `l` |
| Colour.FractRange | main.c:88-90 | for h ≥ 0, `fract = 6h − (int)(6h)` lies in [0, 1) |
| Colour.SpreadBounds | main.c:86-93 | for h in [0, 1], `vsf` lies in [0, v − m], so `mid1` and `mid2` lie in [m, v] |
| Colour.PeakBaseRange | main.c:78-86 | for s, l in [0, 1]: 0 ≤ m ≤ l ≤ v ≤ 1 |
| Colour.HslChannelsInRange | main.c:75-127 | for h, s, l in [0, 1], every channel lies in [m, v], which lies in [0, 1] |
| Colour.HslExtremes | main.c:94-126 | for h in [0, 1) and l > 0, the largest channel is exactly v and the smallest exactly m |
| Colour.HslUnsaturatedIsGrey | main.c:75-126 | with s = 0 the colour is the grey `l`, whatever the hue |
| Colour.ToByte | main.c:129-131 | the store `255 * c` into a byte truncates: the byte is the whole part of 255c |
| Colour.MakeMandelPalette | main.c:179-192 | rows 0 to 190 are `hsl2rgb(h_i, 1, l_i)` as bytes; row 191 and the untouched rows 192 to 255 are black |
| Colour.MakeFirePalette | main.c:774-783 | all 256 rows are `hsl2rgb(h_i, 1, l_i)` as bytes |
| Curves.StepNext | main.c:302-307 | one more unit of heading turns the `forward` step left by one unit, for negative headings too |
| Curves.StepSplit | main.c:302-307 | two forward steps along one heading make one step of their total length |
| Curves.HexSides | main.c:357-363 | the steps at headings k − 1 and k + 1 (60° either side) add up to the step at heading k |
| Curves.SquareSides | main.c:596-604 | the steps at 90° either side of a heading cancel |
| Curves.MarkCountJoin | main.c:309-315 | the number of `point()` calls adds up over two programs run one after the other |
| Curves.MarksLength | main.c:309-315 | a program stores exactly one point per `point()` call |
| Curves.WalkJoin | main.c:302-315 | running two programs in turn ends where the second ends when it starts from the first one's end |
| Curves.MarksJoin | main.c:302-315 | running two programs in turn stores the first one's points, then the second one's from where the first ended |
| Curves.LeafRun | main.c:342-346 | `forward(length); point()` moves one step and stores the position it lands on |
| Curves.KochCount | main.c:333-364 | `koch(len, m, n)` stores 4^(m+n) points |
| Curves.KochCountDivided | main.c:340-354 | the `m` recursion, whose pieces have lengths d, d/2, d/2 and d, stores 4^m points |
| Curves.KochCountBent | main.c:357-363 | the `n` recursion, four copies with turns between them, stores 4^(m+n) points |
| Curves.QochCount | main.c:571-605 | `qoch(len, m, n)` stores 5^(m+n) points |
| Curves.QochCountDivided | main.c:578-593 | the `m` recursion stores 5^m points, two of its five copies of length 0 |
| Curves.QochCountBent | main.c:596-604 | the `n` recursion, five copies with turns between them, stores 5^(m+n) points |
| Curves.KochBent | main.c:357-363 | legs of len/3 turned −60°, +120° and −60° between them end one straight step of `len` ahead, heading unchanged |
| Curves.QochBent | main.c:596-604 | legs of len/3 turned −90°, +90°, +90° and −90° between them end one straight step of `len` ahead, heading unchanged |
| Curves.UnturnedWalk | main.c:302-307 | a program that never turns ends straight ahead of its start by the total of its forward lengths |
| Curves.KochUnturned | main.c:340-354 | the `m` recursion of `koch` never turns, and its forward lengths add up to `len` |
| Curves.QochUnturned | main.c:578-593 | the `m` recursion of `qoch` never turns, and its forward lengths add up to `len` |
| Curves.KochEnds | main.c:333-364 | for every m and n, `koch(len, m, n)` leaves `t_a` unchanged and moves the turtle exactly `len` along its entry heading |
| Curves.KochBendEnds | main.c:357-363 | the same for the `n` recursion: its turns cancel and its four legs span `len` |
| Curves.QochEnds | main.c:571-605 | for every m and n, `qoch(len, m, n)` leaves `t_a` unchanged and moves the turtle exactly `len` along its entry heading |
| Curves.QochBendEnds | main.c:596-604 | the same for the `n` recursion of `qoch` |
| Curves.KochEndsOnMark | main.c:333-364 | the last point `koch` stores is the position it leaves the turtle at |
| Curves.QochEndsOnMark | main.c:571-605 | the last point `qoch` stores is the position it leaves the turtle at |
| Curves.KochLastPoint | main.c:333-364 | `koch(len, m, n)` stores 4^(m+n) points, the last one `len` straight ahead of the start |
| Curves.QochLastPoint | main.c:571-605 | `qoch(len, m, n)` stores 5^(m+n) points, the last one `len` straight ahead of the start |
| Curves.KochRunMoves | main.c:333-364 | the calls `koch` makes on the turtle, appended to a log one at a time, are exactly its program |
| Curves.KochRunDivided | main.c:349-352 | the four calls of the `m` recursion append the divided program |
| Curves.KochRunBent | main.c:357-363 | the four calls and three turns of the `n` recursion append the bent program |
| Curves.QochRunMoves | main.c:571-605 | the calls `qoch` makes on the turtle are exactly its program |
| Curves.QochRunDivided | main.c:587-591 | the five calls of the `m` recursion append the divided program |
| Curves.QochRunBent | main.c:596-604 | the five calls and four turns of the `n` recursion append the bent program |
| Curves.KochReplay | main.c:333-364 | after `koch` extends a log, replaying it ends `len` further on, and its points are the old points followed by the curve's |
| Curves.QochReplay | main.c:571-605 | the same for `qoch` |
| Curves.PolygonWalk | main.c:378-382 | if each side walks like one straight step, `i` rounds of "side, then turn" end at the `i`-th corner |
| Curves.PolygonCount | main.c:378-382 | `i` rounds store `i` times the points of one side |
| Curves.PolygonLast | main.c:378-382 | when each side ends on a point, the last stored point is the corner the last side reached |
| Curves.PolygonPrefix | main.c:378-382 | the points of fewer rounds are a prefix of the points of more rounds |
| Curves.PolygonCornerPoint | main.c:378-382 | with `c` points per side, point `i·c − 1` is the `i`-th corner |
| Curves.PolygonFacts | main.c:378-382 | a loop of `i` rounds stores `i` sides' worth of points, ends on its last corner and stores that corner last |
| Curves.HexHeadings | main.c:378-382 | headings 0°, 120° and 240° are the lattice steps (len, 0), (−len, len) and (0, −len) |
| Curves.SquareHeadings | main.c:616-620 | headings 0°, 90°, 180° and 270° are the steps (len, 0), (0, len), (−len, 0) and (0, −len) |
| Curves.CornerNext | main.c:378-382 | one more round is one more step of `len` followed by the turn |
| Curves.TriangleCorners | main.c:378-382 | three sides turned 120° apart reach two corners and come back to the start, turned once round |
| Curves.SquareCorners | main.c:616-620 | four sides turned 90° apart reach three corners and come back to the start, turned once round |
| Curves.KochSide | main.c:378-381 | every side `koch(1.2, 4 − k, k)` walks like one straight step of 1.2, ends on a point, and stores 256 points |
| Curves.QochSide | main.c:616-619 | every side `qoch(1.0, 4 − k, k)` walks like one straight unit step, ends on a point, and stores 625 points |
| Curves.TriangleLoop | main.c:378-382 | three 256-point sides make 768 points, with the corners at indices 255 and 511; the last point, 767, is the start, and the turtle has turned once round |
| Curves.KochTriangleCloses | main.c:366-435 | every koch level stores 768 points, the size of `koch*_points` and the bound of `draw_koch`'s loop; the corners lie at 255 and 511, and the last point is the start |
| Curves.SquareLoop | main.c:616-620 | four 625-point sides make 2500 points, with the corners at 624, 1249 and 1874; the last point, 2499, is the start |
| Curves.QochSquareCloses | main.c:607-653 | every qoch level stores 2500 points, which is at most the 16000 of `qoch*_points` and equals `draw_qoch`'s bound; the outline passes its corners and closes |
| Turtles.Turtle.constructor | main.c:374-376 | a turtle put down at a pose has no points stored and an empty call log |
| Turtles.Turtle.Forward | main.c:302-307 | `forward(len)` moves the turtle one step of `len` along its heading, stores nothing and logs the call |
| Turtles.Turtle.Rotate | main.c:358 | `t_a += k` units turns the turtle, stores nothing and logs the call |
| Turtles.Turtle.Point | main.c:309-315 | `point()` appends the current position to the stored points and logs the call |
| Turtles.Turtle.Koch | main.c:333-364 | the recursive `koch` appends exactly the calls of `KochRun` to the log. With `KochRunMoves` and `KochReplay`, the turtle ends `len` ahead and the stored points grow by the curve's 4^(m+n) points |
| Turtles.Turtle.Qoch | main.c:571-605 | the recursive `qoch` appends exactly the calls of `QochRun`. With `QochRunMoves` and `QochReplay`, it ends `len` ahead and has stored 5^(m+n) more points |
| Outlines.KochPlaneMorph | main.c:317-329 | morphing two stored koch points is morphing their lattice offsets |
| Outlines.QochPlaneMorph | main.c:317-329 | morphing two stored qoch points is morphing their offsets |
| Outlines.KochOutline | main.c:366-435 | each koch level has 768 points; (0.6, −0.35) is at 255 and the triangle's apex at 511, and the last point is the start (−0.6, −0.35) |
| Outlines.QochOutline | main.c:607-653 | each qoch level has 2500 points; the square's corners are at 624, 1249 and 1874, and the last point is the start (−0.5, −0.5) |
| Outlines.MakeKochLevel | main.c:371-382 | one block of `make_koch`, run on a `Turtle`, stores exactly the outline of its level |
| Outlines.MakeQochLevel | main.c:614-620 | one block of `make_qoch`, run on a `Turtle`, stores exactly the outline of its level |
| Outlines.MakeKoch | main.c:366-435 | `make_koch` stores the five koch levels, in order |
| Outlines.MakeQoch | main.c:607-653 | `make_qoch` stores the five qoch levels, in order |
| Outlines.Stage | main.c:445-455 | the pair index (at most 3) and the local parameter rebuild t as (pair + local)/4. The local parameter is below 1 except in the last quarter and not negative except in the first, so the pair is ⌊4t⌋ clamped to 0..3. For t in [0, 1] the local parameter lies in [0, 1] |
| Outlines.DrawKoch | main.c:437-459 | `draw_koch(t)` emits 768 vertices, each the morph of its stage's two levels with x scaled by sh/sw |
| Outlines.DrawQoch | main.c:655-677 | `draw_qoch(t)` emits 2500 vertices, each the morph with the wobble added to the morph parameter |
| Outlines.TweenThroughLevels | main.c:445-455 | without wobble, the animation at t = j/4 is exactly level j; so t = 0 gives level 0 and t = 1 gives level 4 |
| Outlines.TweenBetween | main.c:663-673 | for t in [0, 1] and a wobble in [−0.13, 0.13] (none in `draw_koch`, 0.13·sin(200t) in `draw_qoch`), each point stays in the box of its positions in the two levels it morphs between |
| Outlines.TweenFixed | main.c:445-455 | a point at the same place in every level never moves |
| Outlines.KochCornersFixed | main.c:445-455 | the koch animation keeps the triangle's corners fixed at every time |
| Outlines.QochCornersFixed | main.c:663-673 | the qoch animation keeps the square's corners fixed at every time, wobble or not |
| Mandelbrot.PlaneCorner | main.c:207-212 | pixel (0, 0) maps to (cx − bw·scale/bh, cy + scale) |
| Mandelbrot.PlaneCentre | main.c:207-212 | for an even buffer, pixel (bh/2, bw/2) maps to the centre (cx, cy) |
| Mandelbrot.EscapeFromFirst | main.c:252-265 | continuing the loop from step `i` stops at the first escaping step at or after `i`, or at 192 |
| Mandelbrot.EscapeTimeFirst | main.c:252-265 | the loop's count is at most 192, no earlier orbit point has escaped, and below 192 the orbit point at the count has escaped |
| Mandelbrot.BoundedIff | main.c:252-265 | the loop runs to 192 exactly when none of the first 192 orbit points leaves the radius-2 disk |
| Mandelbrot.EscapeTimeUnique | main.c:252-265 | no other count has those two properties |
| Mandelbrot.StepFacts | main.c:257-264 | the loop's `zaa`, `zbb` give the exit test |z|² > 4 and the step z² + c |
| Mandelbrot.Escape | main.c:252-265 | the imperative escape loop returns the escape time |
| Mandelbrot.Classify | main.c:214-265 | a point in a short-cut disk is inside; an escaped count is below 192 |
| Mandelbrot.ClassifyMeaning | main.c:214-265 | an escaped verdict escapes exactly at its count. Without a disk hit, the verdict is inside exactly when the orbit stays bounded for 192 steps |
| Mandelbrot.ClassifyPoint | main.c:214-265 | the disk tests, then the loop, give the verdict `Classify` defines |
| Mandelbrot.FadeBase | main.c:202-203 | the darkening is unchanged up to t = 0.95, is 1 at t = 1, and is never negative |
| Mandelbrot.GreyLevel | main.c:270-275 | the inside grey is at most `rand() % 48` ≤ 47; it equals that value with no darkening and is 0 at darkening ≥ 1 |
| Mandelbrot.Darken | main.c:286-288 | a darkened channel is clamped at 0, never exceeds the palette channel, is unchanged with no darkening and is 0 at darkening ≥ 1 |
| Mandelbrot.DarkenMonotone | main.c:286-288 | more darkening never brightens a channel |
| Mandelbrot.ShadeRange | main.c:267-292 | inside pixels are greys of at most 47; escaped pixels are their palette row darkened channel by channel, and exactly that row with no darkening |
| Mandelbrot.FadeToBlack | main.c:267-292 | at darkening ≥ 1 (the end of the zoom) every pixel is black |
| Mandelbrot.SetPixel | main.c:214-292 | one loop body colours pixel `k` as `PixelAt` says and takes a `rand()` value exactly when the pixel is inside |
| Mandelbrot.DrawRow | main.c:210-293 | one row extends the picture by that row's pixels and counts the `rand()` values used |
| Mandelbrot.DrawMandelbrot | main.c:207-294 | the frame is every pixel's colour in visiting order, and it uses one `rand()` value per inside pixel |
| Kaleidoscope.BakeReadsAhead | main.c:480-486 | every pixel the bake reads for pixel `j` has a larger flat index than `j`, so a step sees only the read-back picture |
| Kaleidoscope.KochzOverread | main.c:482-486 | as written, all ten reads for pixel `j` lie inside the `sh*sh` buffer exactly when `j + sh + 4 < sh*sh`; the last pixel reads past it |
| Kaleidoscope.QochzOverread | main.c:700 | as written, both reads lie inside exactly when `j + sh < sh*sh`; the last pixel reads past the buffer |
| Kaleidoscope.KochzTexelMeaning | main.c:482-495 | rule 4 wins over rule 3, which wins over the white rules; any firing rule gives red 255. The pixel turns grey 32 exactly when no rule fires, its red byte is 0 and its checker square is odd; otherwise it is unchanged |
| Kaleidoscope.QochzTexelMeaning | main.c:700-708 | a baked qochz pixel is black, grey 224 or unchanged; it is black next to an unlit pixel; otherwise it is grey 224 if and only if the pixel's red byte is 255 on an odd square, and the pixel itself everywhere else |
| Kaleidoscope.BakeKochzPixel | main.c:480-495 | one loop body sets pixel `j` to its baked colour and changes nothing else |
| Kaleidoscope.BakeQochzPixel | main.c:698-708 | one loop body of `make_qochz` sets pixel `j` and changes nothing else |
| Kaleidoscope.BakeKochz | main.c:476-497 | the in-place pass leaves the texture equal to the bake of the picture read back into it |
| Kaleidoscope.BakeQochz | main.c:694-711 | the in-place `make_qochz` pass leaves the bake of its read-back picture |
| Kaleidoscope.CheckerPulses | main.c:488-495 | a pixel the kochz checker painted shows as the pulsing grey `q` in `draw_kochz` |
| Kaleidoscope.KochzCameraPath | main.c:516-526 | the drift starts where the second close-up ends and reaches (0.25, 0.25, 24, 2) at t = 1. The zoom stays positive exactly while t < 1.1, is 0 at 1.1 and negative at 1.85 |
| Kaleidoscope.QochzCameraPath | main.c:722-732 | over [0, 1] the zoom lies in [0.5, 12]; at t = 1 the camera is (0.14746, 0.22265, 0, 0.5) |
| Kaleidoscope.RowCRange | main.c:546 | `sy` lies in (−sh, sh) and is a texture row whenever `(int)Y ≥ −16·sh − sh/2` |
| Kaleidoscope.ColumnCRange | main.c:545 | `sx` lies in (−sh, sh), is a texture column when `(int)X + sh/2 ≥ 0`, and equals that negative sum when it lies in (−sh, 0) |
| Kaleidoscope.TexelIndexCInBounds | main.c:545-548 | with a texture row, the texel offset is inside the buffer exactly when `sx ≥ 0` or `sy ≥ 1` |
| Kaleidoscope.TexelIndexCBeforeStart | main.c:545-548 | as written, X = −(sh/2) − 1 and Y = −(sh/2) read flat texel −1, before the buffer |
| Kaleidoscope.TexelIndexCRowAbove | main.c:545-548 | as written, X = −(sh/2) − 1 and Y = 1 − sh/2 read flat texel sh − 1, the end of row 0, where the wrapped column reads texel 2·sh − 1 of row 1 |
| Kaleidoscope.TexelIndexCNegativeRow | main.c:545-548 | as written, X = −(sh/2) and Y = −16·sh − sh/2 − 1 give row −1 and flat texel −sh, before the buffer, where the wrapped row reads texel (sh − 1)·sh |
| Kaleidoscope.Column | main.c:545 | corrected column: in [0, sh), the code's column where that is not negative, and one width further right where it is negative |
| Kaleidoscope.Row | main.c:546 | corrected row: in [0, sh), and the code's row wherever that is a texture row |
| Kaleidoscope.TexelIndex | main.c:545-548 | the corrected texel always lies inside the texture |
| Kaleidoscope.TexelIndexCorrection | main.c:545-548 | the code reads the corrected texel where its column is not negative, and `sh` texels too early where it is negative; in a row after the first that is the texel of the row above at the wrapped column |
| Kaleidoscope.Pulse | main.c:509-514 | `q` is 32 up to 34 seconds, then at least 64 and at most 64 + 32·pw |
| Kaleidoscope.KochzShow | main.c:550-561 | a texel with red 32 shows the grey `q`; any other texel is copied |
| Kaleidoscope.Sample | main.c:545-548 | the sampled texel is the one at the corrected index |
| Kaleidoscope.DrawKochz | main.c:529-563 | every frame pixel is the kochz choice for its warped texel under the camera of `t` and the pulse `q` |
| Kaleidoscope.DrawQochz | main.c:735-760 | every frame pixel is the texel its warp lands on under the camera of `t` |
| Fire.Put | main.c:856 | `flame[r][c] = v` changes that one cell of the grid |
| Fire.HeatBound | main.c:835-854 | the weights sum to at most 1, so the weighted sum is at least 0 and no hotter than the hottest cell |
| Fire.Cool | main.c:856 | the stored `0.99 * a` is its whole part; for a ≤ 255 it is at most 252, so the byte never wraps |
| Fire.SweptCools | main.c:831-857 | if no cell exceeds m, every swept cell above row 0 is at most 0.99m and at most 252, and below m when m > 0 |
| Fire.SweepCell | main.c:835-856 | one cell of the sweep gets the cooled heat of the two rows below as they were before the sweep; nothing else changes |
| Fire.SweepRow | main.c:833-857 | one row of the sweep is rewritten from the rows below it, which it leaves alone |
| Fire.Sweep | main.c:831-858 | the in-place sweep from the top row down to row 1 leaves exactly the simultaneous update of the grid before it |
| Fire.ClearSeedRow | main.c:860-861 | row 0 becomes all zeros; nothing else changes |
| Fire.Seeds | main.c:880-881 | each seed is the `rand()` value stored as a byte, i.e. modulo 256 |
| Fire.Reseed | main.c:879-881 | row 0 becomes the seeds; nothing else changes |
| Fire.Design | main.c:791-820 | `draw_euclid`'s fifteen loops (sixteen write statements) make 500 writes |
| Fire.DesignBounds | main.c:791-820 | every design cell lies in rows 100 to 140 and columns 50 to 200 |
| Fire.EuclidInside | main.c:791-820 | every write lands in the grid: rows `100*bh/192` to `140*bh/192`, columns `50*bw/256` to `200*bw/256` |
| Fire.StampEffect | main.c:791-820 | a stamp changes only the cells it writes, and leaves each of them below `ceil` |
| Fire.DrawEuclid | main.c:786-821 | `draw_euclid(ceil)` leaves the grid stamped with the letter cells in order, each from the next `rand()` value |
| Fire.PaintedCellAt | main.c:866-874 | pixel `y*bw + x` of the painted frame is the palette colour of cell (y, x) |
| Fire.PaintRow | main.c:868-873 | one row of the paint loop extends the painted prefix by that row |
| Fire.Paint | main.c:866-874 | the frame is every cell through the palette, in row-major order |
| Fire.DrawFire | main.c:823-882 | one frame paints the stamped, swept and cleared grid. It leaves the next grid, reseeded while t < 1, and takes 500 `rand()` values per stamp plus one per seed |
| Fire.LettersGlow | main.c:828-864 | while 0 < t < 1, every letter cell is painted below 128 and every other seed-row cell is cold |
| Fire.NextGridSettled | main.c:828-881 | from t = 1 on, a frame draws no random values and leaves the settled grid: sweep, then seed row cleared |
| Fire.SettledCools | main.c:831-861 | a settled frame leaves every cell at most 0.99m, so below m when m > 0, and row 0 cold |
| Fire.FireCools | main.c:823-882 | for t ≥ 1, a frame of `draw_fire` strictly lowers a positive grid maximum and leaves row 0 cold |
| Fire.BurnsOut | main.c:823-882 | after n frames with t ≥ 1, no cell exceeds 255 − n; after 255 frames the fire is out |
| Sequencer.SceneTime | main.c:929-932 | the scene time is frames/30 − 2 when recording and the clock less 2 otherwise |
| Sequencer.DiveExponent | main.c:944-946 | over the dive the zoom exponent `lerp(1, −12, u)` lies in (−12, 1] |
| Sequencer.Dispatch | main.c:934-1019 | the branch chain numbers its branches 0 to 13, and the branch taken is the number of boundaries `t` has reached: exactly one branch per time, in boundary order |
| Sequencer.BoundsIncrease | main.c:934-1016 | the boundaries 0, 16.5, …, 93 are strictly increasing |
| Sequencer.DispatchInOrder | main.c:934-1019 | a later time never takes an earlier branch |
| Sequencer.ExitIff | main.c:1012-1019 | the demo exits exactly when t ≥ 93 |
| Sequencer.EffectProgress | main.c:952-998 | the progress of each effect: koch in [0, 1), kochz in [0, 1.85); the first qochz argument falls from 1 to about 0.51; `draw_qoch(1 − u)` runs from 0.85 down; the clear grey runs from 1 down to 0 |
| Sequencer.KochzOvershoots | main.c:961-966 | just before 57.73 the kaleidoscope is driven at about 1.85, well past 1 |
| Sequencer.QochStartsAt | main.c:977-989 | the `draw_qoch(1 − u)` branch starts at u = 0.15, that is `draw_qoch(0.85)` |
| Sequencer.MandelLeadIn | main.c:934-950 | before t = 0 the fixed view at zoom 2 fades in with `d = −0.5t`; the dive starts from the same view |

## Left out

- `audio.c` is not part of this model. It is sound device I/O, Ogg decoding and a playback thread.
- GL and GLUT calls are not modelled; their inputs and outputs are values instead.
  - `glReadPixels`: the read-back picture is the texture's initial contents.
  - `glDrawPixels`: the frame is the `pixels` array.
  - `glBegin`/`glVertex`: the vertices are returned as a sequence.
  - Also not modelled: window setup, `keyboard`, `reshape`, the main loop, and `main`'s argument parsing and allocations. The buffer sizes are taken as preconditions.
- `elapsed()` and `rand()` are parameters: a clock value, and sequences of `rand()` results consumed in order.
- `pow`, `powf`, `fmod`, `fmodf`, `sin`, `cos`, `atan2` and `sqrtf` are not computed; their results are inputs.
  - The palette hues and lightnesses.
  - The dive zoom `z`.
  - The pulse term of `q`.
  - The `0.13 * sin(200 t)` wobble.
  - The polar radius, cosine and sine of each warped pixel.
  - The square root applied to the Mandelbrot darkening.
  - sin 60°, the parameter `h` of the koch plane.
- The turtle's `cos(t_a)` and `sin(t_a)` are replaced by exact unit steps on the 60° or 90° lattice. Positions are exact, so `cos(TAU / 4)` is exactly 0 in the model.
- Floating-point arithmetic is idealised as exact real arithmetic throughout.
- Fire.Cool: the model assumes 0.99·a is exact before truncation; in floats, a product landing on a whole number may round the other way.
- `tga_write` and frame recording are not modelled (file I/O). `SceneTime` takes the frame count for recording mode.
- Buffers of bytes are modelled as arrays of RGB pixels. Every access in the code reads or writes whole, channel-aligned pixels, so the two layouts are equivalent.
- Fire.DrawEuclid: the fifteen loops (sixteen write statements) of `draw_euclid` run as one loop over the cell list `EuclidCells`. That list holds the same writes in the same order.
- Kaleidoscope.DrawKochz: the nested `y`/`x` loops run as one loop over flat pixel indices; the body uses only the flat index. The same holds for Kaleidoscope.DrawQochz.
- Kaleidoscope.Sample reads the corrected texel, and so do Kaleidoscope.DrawKochz and Kaleidoscope.DrawQochz through it. They depart from the code in two places. (a) Where the code's column `sx` is negative, the model reads the wrapped column `sx + sh` of the same row, `sh` texels later than the code (Kaleidoscope.TexelIndexCorrection). In row 0 the code reads before the buffer; in any later row it reads a texel of the row above, at the wrapped column `sx + sh`, which may lie anywhere along that row (Kaleidoscope.TexelIndexCorrection, Kaleidoscope.TexelIndexCRowAbove). (b) Where `(int)Y < −16·sh − sh/2` the code's row `sy` is negative and the code reads before the buffer; the model wraps that row into [0, sh) with Kaleidoscope.Row (Kaleidoscope.TexelIndexCNegativeRow). Both are recorded under "Findings".
- Kaleidoscope.DrawKochz and Kaleidoscope.DrawQochz: the camera's `roto` enters only through the caller's `polar` data, whose cosine and sine must already include it, since `atan2`, `cosf` and `sinf` are left to the caller.
- Kaleidoscope.KochzBake and Kaleidoscope.QochzBake treat reads past the buffer as the background the picture was cleared to. The code reads past its allocation there; see "Findings".
- The unused `numpoints` counter is not modelled. The five `koch*_points` and `qoch*_points` arrays are the five outlines returned by `MakeKoch` and `MakeQoch`.
- The `glClearColor`/`glClear` calls of `display` become the `Koch`, `Qoch(grey, u)` and `Blank` effects, which record the clear colour.

## Findings

| source | as written | input that shows it | evidently intended | confidence | as-written member | corrected member |
|---|---|---|---|---|---|---|
| main.c:482-486 | `make_kochz` reads `p[3 * sh + 12]`, pixel `j + sh + 4`, for every pixel `j`. The buffer from main.c:1082 holds only `sh * sh` pixels | sh = 4, j = 15: rule 4 reads pixel 23 of a 16-pixel texture | pixels past the picture count as its black background | not executed | Kaleidoscope.KochzOverread | Kaleidoscope.KochzTexelMeaning |
| main.c:700 | `make_qochz` reads `p[3 * sh]`, pixel `j + sh`, for every pixel `j`. The buffer from main.c:1085 holds `sh * sh` pixels | sh = 4, j = 15 reads pixel 19 of a 16-pixel texture | pixels past the picture count as its white background | not executed | Kaleidoscope.QochzOverread | Kaleidoscope.QochzTexelMeaning |
| main.c:545-548 | `sx = ((int)X + sh / 2) % sh` uses C's truncating remainder, so `sx` is negative when `(int)X < −sh/2`. In the first texture row the offset `3 * (sy * sh + sx)` is then before the buffer; in any later row it is a texel of the row above, `sh` texels before the wrapped column (Kaleidoscope.TexelIndexCRowAbove). Below `(int)Y = −16·sh − sh/2` the row's shift runs out as well and `sy` is negative (Kaleidoscope.TexelIndexCNegativeRow) | sh = 4, X = −3, Y = −2: sx = −1, sy = 0, flat texel −1; sh = 4, X = −3, Y = −1: flat texel 3 where the wrapped column gives 7 | the column wraps into [0, sh) the way the row does with its `16 * sh` shift | not executed | Kaleidoscope.TexelIndexCBeforeStart | Kaleidoscope.TexelIndexCorrection |
