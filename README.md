# gasman — a Dafny model of the level geometry and game-state core

gasman is a small 2D physics game. Its levels are SVG drawings. Two things
read those drawings:

- squirtle turns a drawing into outlines and a bounding box for display;
- the physics parser turns the labelled rectangles and arcs of a drawing into
  Box2D bodies.

Around them sit:

- a cache of prerendered drawings, and the compass-rose anchor helper of the
  cocos adaptor;
- the Box2D listener callbacks and the debug-draw vertex rewrites;
- the session record, the level catalogue, and the two game layers (the
  physics step and the arrow-key handlers).

The project models that core, one Dafny module per source file:

| module | file | what it holds |
|---|---|---|
| `Outcomes` | — | `Option`, and `Result`, the value-or-exception outcome of a Python operation |
| `Tokens` | — | a token of path data or of a number list: a letter or a number |
| `SvgMatrix` | `squirtle_core.py` | the 2×3 affine `Matrix`, its product, application and inverse, and the `transform` attribute forms of section 7.6 of SVG 1.1 |
| `SvgAttributes` | `squirtle_core.py` | `parse_style`, `parse_color` (the `#rgb`/`#rrggbb` colours of section 4.2 of SVG 1.1) and `parse_float` |
| `SvgPaths` | `squirtle_core.py` | the path builder as functions over a pen value: the opcodes of section 8.3 of SVG 1.1, the Bézier weights, and the point thinning of `end_path` |
| `SvgGradients` | `squirtle_core.py` | the `GradientContainer` class, and the stop interpolation of `Gradient.interp` |
| `SvgPreRender` | `squirtle_core.py` | the `SVG_pre_render` class with its mutable pen fields; each method is proved equal to the `SvgPaths` function it runs |
| `PhysicsWorld` | — | the Box2D world as a log of created bodies, steps, validations and destroyed bodies |
| `SvgBox2dParser` | `svg_box2d_parser.py` | the `SVGBox2dParser` class, proved against functions that give the bodies of a document tree |
| `Box2dCallbacks` | `box2d_callbacks.py` | the contact, destruction and boundary listeners, `triangle_fan`, `line_loop` and the polygon scaling |
| `CocosAdaptor` | `squirtle_cocos_adaptor.py` | `f_rosewind_offset`, `SVG_CacheNode` and `SVGnode` |
| `Levels` | `levels.py` | the level table and its two lookups |
| `GameState` | `state.py` | the `State` record |
| `GameScene` | `game_scene.py` | `GameLayer` and `ControlLayer` |

Modelling conventions:

- Numbers are exact reals.
- A Python exception is an `Err` carrying the exception class.
- Code that changes objects step by step is a Dafny class:
  - its fields are the source's attributes;
  - its methods carry field-level `modifies` clauses;
  - each loop is proved against a function of the old state.
- Things outside the core are parameters of the model:
  - the regular-expression tokenisers, Python's `float()` and `int()` of text;
  - `asin` and `sqrt`;
  - the arc polygoniser, the GLU triangulator and the renderer behind the cache.

## Model

| member | source | states |
|---|---|---|
| SvgMatrix.Inverse | gamelib/squirtle_core.py:179-183 | the inverse exists exactly when the determinant a·d − b·c is non-zero; otherwise it fails with ZeroDivisionError |
| SvgMatrix.InverseIsAdjugate | gamelib/squirtle_core.py:179-183 | the inverse is the adjugate matrix scaled by one over the determinant |
| SvgMatrix.AdjugateRight | gamelib/squirtle_core.py:179-188 | a matrix times its adjugate scaled by 1/det is the identity |
| SvgMatrix.AdjugateLeft | gamelib/squirtle_core.py:179-188 | the scaled adjugate times the matrix is the identity |
| SvgMatrix.InverseIsInverse | gamelib/squirtle_core.py:179-188 | with a non-zero determinant, `m * m.inverse()` and `m.inverse() * m` are both the identity |
| SvgMatrix.InverseUndoesApply | gamelib/squirtle_core.py:175-183 | applying the inverse after the matrix gives every point back |
| SvgMatrix.ApplyMul | gamelib/squirtle_core.py:175-188 | applying `a * b` to a point is applying `b` and then `a` |
| SvgMatrix.Apply | gamelib/squirtle_core.py:175-177 | `m(p)` is the affine image (a·x + c·y + e, b·x + d·y + f); what it promises is stated by `ApplyMul`, `IdentityIsNeutral` and `InverseUndoesApply` |
| SvgMatrix.Mul | gamelib/squirtle_core.py:185-188 | `m * n` is the product of the two affine maps, `m` applied after `n`; `ApplyMul`, `MulAssociative` and `InverseIsInverse` state its properties |
| SvgMatrix.IdentityIsNeutral | gamelib/squirtle_core.py:161-188 | the default `[1,0,0,1,0,0]` leaves every point unchanged and is neutral on both sides of the product |
| SvgMatrix.MulAssociative | gamelib/squirtle_core.py:185-188 | the product of matrices is associative |
| SvgMatrix.MulTranslate | gamelib/svg_box2d_parser.py:77-83 | multiplying by a matrix whose offsets are x and y keeps the linear part; the new offsets are the image of the point (x, y) |
| SvgMatrix.FromAttribute | gamelib/squirtle_core.py:161-173 | an absent `transform` attribute is the identity |
| SvgMatrix.TranslateAttribute | gamelib/squirtle_core.py:166-168 | `translate(x,y)` gives `[1,0,0,1,x,y]` |
| SvgMatrix.ScaleAttribute | gamelib/squirtle_core.py:169-171 | `scale(sx,sy)` gives `[sx,0,0,sy,0,0]` |
| SvgMatrix.MatrixAttribute | gamelib/squirtle_core.py:164-165 | `matrix(...)` with six numbers gives those numbers in order |
| SvgMatrix.OtherAttribute | gamelib/squirtle_core.py:161-173 | any other text, the empty string included, gives the identity |
| SvgMatrix.TranslateArity | gamelib/squirtle_core.py:167 | unpacking `translate(...)` succeeds exactly when it lists two numbers |
| SvgMatrix.FromString | gamelib/squirtle_core.py:161-173 | `Matrix(s)` for text: the four attribute lemmas above and `TranslateArity` state each form; a `matrix(...)` of other than six numbers fails at once (see Left out) |
| SvgAttributes.Split | gamelib/squirtle_core.py:127 | `str.split` always gives at least one piece |
| SvgAttributes.SplitJoin | gamelib/squirtle_core.py:127 | joining the pieces of a split with the separator gives the text back |
| SvgAttributes.SplitPieces | gamelib/squirtle_core.py:127-129 | no piece holds the separator, and there is one more piece than there are separators |
| SvgAttributes.ParseStyle | gamelib/squirtle_core.py:125-131 | the loop over the `;`-pieces computes the style dictionary `StyleOf` of those pieces |
| SvgAttributes.StyleErrorSticks | gamelib/squirtle_core.py:127-130 | once one item fails to unpack, the whole parse fails with ValueError |
| SvgAttributes.StyleErrorIsValueError | gamelib/squirtle_core.py:129 | the only way `parse_style` fails is ValueError |
| SvgAttributes.StyleOkIff | gamelib/squirtle_core.py:125-131 | the parse succeeds exactly when no item holds two or more colons |
| SvgAttributes.StyleLastWins | gamelib/squirtle_core.py:130 | a key is bound to the value of the last item that names it |
| SvgAttributes.StyleKeysFromItems | gamelib/squirtle_core.py:127-130 | every key of the result comes from an item that holds a colon |
| SvgAttributes.StrictHexInt | gamelib/squirtle_core.py:146-152 | the corrected field reader accepts exactly non-empty all-hex text, with a value below 16 to the power of its length |
| SvgAttributes.PythonHexInt | gamelib/squirtle_core.py:145-152 | Python's `int(field, 16)`: optional surrounding spaces and one sign, then hex digits; `SignedFieldAsWritten` shows what the sign lets through |
| SvgAttributes.ParseColorAsWritten | gamelib/squirtle_core.py:133-158 | `parse_color` as written, with `PythonHexInt` reading each field; `AsWrittenAgrees` carries the case lemmas of `ParseColor` over to it |
| SvgAttributes.ParseColor | gamelib/squirtle_core.py:133-158 | `parse_color` with the corrected field reader; the lemmas from `ColorDefaults` to `ColorChannelsInRange` state each of its cases |
| SvgAttributes.SignedFieldAsWritten | gamelib/squirtle_core.py:145-148 | as written, `#-f0000` gives the colour (-15, 0, 0, 255) |
| SvgAttributes.SignedFieldRejected | gamelib/squirtle_core.py:145-158 | with the corrected reader, `#-f0000` gives None |
| SvgAttributes.StrictFieldReadAlike | gamelib/squirtle_core.py:146-152 | a field of hex digits only is read to the same value by Python's `int(field, 16)` and by the corrected reader |
| SvgAttributes.AsWrittenAgrees | gamelib/squirtle_core.py:133-158 | for every input, wherever the corrected `parse_color` gives a paint, the source's gives the same paint |
| SvgAttributes.ColorDefaults | gamelib/squirtle_core.py:133-137 | no colour or an empty colour gives the default, and `none` gives None |
| SvgAttributes.HashDropped | gamelib/squirtle_core.py:138 | a leading `#` is dropped before anything else is read |
| SvgAttributes.UrlReference | gamelib/squirtle_core.py:139-140 | `url(#id)` gives the reference `id` |
| SvgAttributes.NamedColor | gamelib/squirtle_core.py:141-143 | a named colour gives its table entry, with alpha 255 |
| SvgAttributes.SixDigits | gamelib/squirtle_core.py:145-155 | six hex digits give three two-digit channels, each in 0..255, with alpha 255 |
| SvgAttributes.ThreeDigits | gamelib/squirtle_core.py:149-155 | three hex digits give each digit times 17 as a channel |
| SvgAttributes.OtherTextIsNone | gamelib/squirtle_core.py:144-158 | any other length, or a non-hex digit, gives None |
| SvgAttributes.ColorChannelsInRange | gamelib/squirtle_core.py:133-158 | with the corrected reader, every colour has channels in 0..255 and alpha 255, provided the named table's channels are in 0..255 |
| SvgAttributes.ParseFloat | gamelib/squirtle_core.py:569-574 | a number that cannot be read fails with ValueError |
| SvgAttributes.UnitIgnored | gamelib/squirtle_core.py:570-573 | a two-letter unit after the number is ignored |
| SvgAttributes.NoUnitKept | gamelib/squirtle_core.py:574 | text of at most two characters, or text that ends in a digit in its last two places, is read whole |
| SvgPaths.NewPen | gamelib/squirtle_core.py:637-642 | `new_path` puts the pen at the origin and empties the loop and the path; the last control point and the warnings stay |
| SvgPaths.SetPos | gamelib/squirtle_core.py:647-650 | `set_position` moves the pen and appends the point to the loop; nothing else changes |
| SvgPaths.SetRelPos | gamelib/squirtle_core.py:652-653 | `set_relative_position` moves the pen by the offset and appends the new point |
| SvgPaths.LineToAll | gamelib/squirtle_core.py:725-726 | a run of `line_to` appends exactly those points to the loop and ends at the last of them |
| SvgPaths.Close | gamelib/squirtle_core.py:643-646 | `close_path` adds the loop, closed by its first point, to the path and starts an empty loop; on an empty loop it fails with IndexError |
| SvgPaths.Coefficients | gamelib/squirtle_core.py:708-715 | there are `bezier_points + 1` weight rows; zero points fail with ZeroDivisionError, and a negative count gives none |
| SvgPaths.BezierPoints | gamelib/squirtle_core.py:718-721 | one curve point per weight row |
| SvgPaths.Curve | gamelib/squirtle_core.py:707-723 | `curve_to` succeeds exactly when `bezier_points` is positive; it records the second control point and leaves the path alone |
| SvgPaths.CurveEnds | gamelib/squirtle_core.py:707-723 | the curve appends n + 1 points, starting at the current point and ending at the end point, where the pen now stands |
| SvgPaths.PopFloat | gamelib/squirtle_core.py:488-497 | popping a number takes the first token; an empty list fails with IndexError and a letter with ValueError |
| SvgPaths.PopInt | gamelib/squirtle_core.py:464-474 | popping a flag takes `int()` of the first token; the same two failures |
| SvgPaths.PNext | gamelib/squirtle_core.py:419-420 | `pnext` takes exactly two numbers off the front |
| SvgPaths.MoveTail | gamelib/squirtle_core.py:436-438 | the implicit line-tos after `m` stop in front of an opcode or at the end of the data |
| SvgPaths.RelCurves | gamelib/squirtle_core.py:441-450 | the repeated relative curves of `c` consume tokens |
| SvgPaths.ArcArgs | gamelib/squirtle_core.py:462-466 | an arc reads exactly seven tokens |
| SvgPaths.RelArcs | gamelib/squirtle_core.py:469-479 | the repeated relative arcs of `a` consume tokens |
| SvgPaths.Reflected | gamelib/squirtle_core.py:452-456 | the reflected control point of `S`/`s` exists exactly when a curve has been drawn |
| SvgPaths.Command | gamelib/squirtle_core.py:426-500 | one opcode of the loop never gives back more tokens than it was given; each opcode's effect is stated by the lemmas below, with `M` reading exactly one pair as the source does |
| SvgPaths.MoveAbsTail | gamelib/squirtle_core.py:428-429 | the implicit absolute line-tos of the corrected `M` stop in front of an opcode or at the end of the data |
| SvgPaths.MoveAsWritten | gamelib/squirtle_core.py:428-429 | `M` reads one pair and leaves any further pair to the loop; `Command` uses it |
| SvgPaths.CorrectedCommand | gamelib/squirtle_core.py:426-500 | one opcode with the corrected `M` of the Findings row, which draws further pairs; every other opcode is `Command`; it never gives back more tokens than it was given |
| SvgPaths.Run | gamelib/squirtle_core.py:424-500 | the `while pathdata` loop, one `Command` per popped opcode; `OnlyWarnings` and the `PathElement` method state what it gives |
| SvgPaths.PathData | gamelib/squirtle_core.py:421-500 | `new_path()` followed by the opcode loop from the first opcode; `PreRender.PathElement` is proved to compute it |
| SvgPaths.AbsoluteMoves | gamelib/squirtle_core.py:428-498 | at every position in the data, `M` and `L` go to (x, y), `H` to (x, current y) and `V` to (current x, y), each appending the point and consuming only its numbers |
| SvgPaths.MoveAbsTailDraws | gamelib/squirtle_core.py:428-429 | the pairs after `M` are absolute line-tos: the loop gains exactly those points and the pen ends at the last |
| SvgPaths.MoveDrawsEveryPair | gamelib/squirtle_core.py:428-429 | the corrected `M` (`CorrectedCommand`) with one or more pairs draws all of them, the first as a move, in order |
| SvgPaths.MoveExtraPairWarned | gamelib/squirtle_core.py:426-500 | the loop over `M x y x2 y2` moves to (x, y) and warns about x2 and y2; the loop gains one point, none for (x2, y2) |
| SvgPaths.CurveCommands | gamelib/squirtle_core.py:439-450 | `C` with three pairs draws the curve `curve_to` draws through them; `c` with three pairs before an opcode draws it through the pairs offset from the current point; both fail exactly when `curve_to` does |
| SvgPaths.RelativeMoves | gamelib/squirtle_core.py:484-498 | `l`, `h` and `v` move by their offsets, each appending the point |
| SvgPaths.MoveFirstAbsolute | gamelib/squirtle_core.py:430-434 | `m` is absolute as the first opcode and relative after it |
| SvgPaths.MoveTailWalks | gamelib/squirtle_core.py:436-438 | the pairs after `m` are relative line-tos: the loop gains the running sums of the offsets |
| SvgPaths.CloseCommand | gamelib/squirtle_core.py:480-481 | `Z`/`z` closes the loop into the path, and fails with IndexError on an empty loop |
| SvgPaths.UnknownOpcodeWarns | gamelib/squirtle_core.py:499-500 | a token that is no opcode is only warned about |
| SvgPaths.SmoothNeedsCurve | gamelib/squirtle_core.py:451-460 | `S`/`s` before any curve fails with AttributeError |
| SvgPaths.OnlyWarnings | gamelib/squirtle_core.py:424-500 | path data of numbers only draws nothing and warns about every token in order |
| SvgPaths.ThinFrom | gamelib/squirtle_core.py:735-737 | thinning keeps the points already kept as a prefix |
| SvgPaths.Thin | gamelib/squirtle_core.py:734-737 | a thinned loop is non-empty and starts with the loop's first point |
| SvgPaths.Simplify | gamelib/squirtle_core.py:730-738 | no loop of the simplified path is empty |
| SvgPaths.ThinFromKeeps | gamelib/squirtle_core.py:735-737 | the thinning loop keeps a subsequence of its input whose consecutive points are farther apart than the tolerance |
| SvgPaths.ThinProperties | gamelib/squirtle_core.py:732-738 | a thinned loop keeps the first point, is a subsequence of the loop, and each kept point is more than `TOLERANCE` (squared) from the one before |
| SvgPaths.SimplifyDropsEmpty | gamelib/squirtle_core.py:730-738 | empty loops are dropped and every other loop is thinned, in order |
| SvgGradients.GradientContainer.constructor | gamelib/squirtle_core.py:197-199 | the initial items, and no callback yet |
| SvgGradients.GradientContainer.CallMeOnAdd | gamelib/squirtle_core.py:201-212 | the callback is added after those already waiting for that id; nothing else changes |
| SvgGradients.GradientContainer.Update | gamelib/squirtle_core.py:214-215 | `update` always fails with NotImplementedError |
| SvgGradients.GradientContainer.SetItem | gamelib/squirtle_core.py:217-221 | the value is stored, then that key's callbacks are called with it in registration order; they stay registered |
| SvgGradients.Notifications | gamelib/squirtle_core.py:219-221 | one call per waiting callback, in order, each given the new value |
| SvgGradients.RegistrationOrder | gamelib/squirtle_core.py:201-221 | on any container, registering callbacks for an id and then setting it calls the callbacks already waiting, then the new ones in registration order, each with the value; all stay registered, other ids' lists and callbacks are untouched |
| SvgGradients.Trunc | gamelib/squirtle_core.py:266 | `int()` truncates toward zero |
| SvgGradients.Blend | gamelib/squirtle_core.py:266 | `zip` stops at the shorter colour |
| SvgGradients.InterpSkips | gamelib/squirtle_core.py:260-264 | the search passes every stop whose offset lies below t |
| SvgGradients.InterpSegment | gamelib/squirtle_core.py:258-266 | between two stops the colour is their blend at (t − u)/(v − u) |
| SvgGradients.InterpOutside | gamelib/squirtle_core.py:256-267 | no stops give magenta `[255,0,255,255]`; before the first stop its colour, after the last the last colour |
| SvgGradients.Interp | gamelib/squirtle_core.py:255-267 | `interp(t)` over stops of increasing offset; `InterpSkips`, `InterpSegment`, `InterpOutside`, `InterpAtStop` and `InterpBetweenStops` state what it gives |
| SvgGradients.BlendEnds | gamelib/squirtle_core.py:266 | a blend at 0 is the lower colour and at 1 the upper one |
| SvgGradients.MixEnds | gamelib/squirtle_core.py:266 | one channel at 0 and at 1 is the lower and the upper channel |
| SvgGradients.InterpAtStop | gamelib/squirtle_core.py:255-267 | at a stop's own offset the colour is that stop's colour |
| SvgGradients.BlendBetween | gamelib/squirtle_core.py:266 | each blended channel lies between the two stops' channels |
| SvgGradients.MixBetween | gamelib/squirtle_core.py:266 | a single blended channel lies between its ends |
| SvgGradients.InterpBetweenStops | gamelib/squirtle_core.py:258-266 | each interpolated channel lies between the neighbouring stops' channels |
| SvgGradients.AlphaInRange | gamelib/squirtle_core.py:265 | the blend weight lies in [0, 1] between two stops |
| SvgPreRender.Entry | gamelib/squirtle_core.py:739-741 | a record keeps the simplified outline exactly when the stroke is set, and triangles exactly when the fill is set |
| SvgPreRender.Transformed | gamelib/squirtle_core.py:621-625 | each vertex is the transform applied to the input point |
| SvgPreRender.Least | gamelib/squirtle_core.py:628-631 | `min` is below every coordinate and is one of them |
| SvgPreRender.Greatest | gamelib/squirtle_core.py:629-632 | `max` is above every coordinate and is one of them |
| SvgPreRender.FlattenHolds | gamelib/squirtle_core.py:623-626 | every transformed point of every loop is collected |
| SvgPreRender.OutlinePointCounted | gamelib/squirtle_core.py:619-626 | every transformed outline point of every record is a vertex |
| SvgPreRender.TrianglePointCounted | gamelib/squirtle_core.py:619-622 | every transformed triangle point of every record is a vertex |
| SvgPreRender.ExtentBounds | gamelib/squirtle_core.py:627-635 | the extents bound every vertex and are ordered |
| SvgPreRender.Vertices | gamelib/squirtle_core.py:617-626 | the transformed triangle and outline points of every record, in order; `OutlinePointCounted` and `TrianglePointCounted` state that each is collected |
| SvgPreRender.AttrFloat | gamelib/squirtle_core.py:504-507 | `float(e.get(key))` fails with TypeError when the attribute is missing and with ValueError when it is not a number |
| SvgPreRender.RectPen | gamelib/squirtle_core.py:503-514 | the pen after a `rect`: x, y, height and width read in that order, then a fresh path through the corners; `RectKeepsCorners` states its outline |
| SvgPreRender.LinePen | gamelib/squirtle_core.py:526-534 | the pen after a `line`: x1, y1, x2, y2 read in that order, then a fresh path from the first point to the second |
| SvgPreRender.PolyPen | gamelib/squirtle_core.py:515-525 | the pen after a `polyline` or `polygon`; `LinesDrawPairs`, `LinesOddCount`, `EmptyPolygon` and `PolygonCloses` state what it gives |
| SvgPreRender.LinesDrawPairs | gamelib/squirtle_core.py:518-522 | a `points` list draws one `line_to` per pair |
| SvgPreRender.LinesOddCount | gamelib/squirtle_core.py:518-522 | an odd count of numbers fails with IndexError |
| SvgPreRender.EmptyPolygon | gamelib/squirtle_core.py:520-525 | an empty polyline is an empty path; an empty polygon fails with IndexError |
| SvgPreRender.PolygonCloses | gamelib/squirtle_core.py:520-525 | a polygon's path is its points closed by the first one |
| SvgPreRender.ThinCorners | gamelib/squirtle_core.py:508-514 | thinning keeps all five corners of a rectangle whose sides exceed the tolerance |
| SvgPreRender.RectKeepsCorners | gamelib/squirtle_core.py:503-514 | the outline of such a rectangle is its four corners and the start point again |
| SvgPreRender.PreRender.constructor | gamelib/squirtle_core.py:321-326 | the coefficient cache and the records start empty, and the pen at the origin |
| SvgPreRender.PreRender.NewPath | gamelib/squirtle_core.py:637-642 | the pen becomes `NewPen` of the old pen |
| SvgPreRender.PreRender.SetPosition | gamelib/squirtle_core.py:647-650 | the pen becomes `SetPos` of the old pen |
| SvgPreRender.PreRender.LineTo | gamelib/squirtle_core.py:725-726 | `line_to` is `set_position` |
| SvgPreRender.PreRender.SetRelativePosition | gamelib/squirtle_core.py:652-653 | the pen becomes `SetRelPos` of the old pen |
| SvgPreRender.PreRender.RelToAbs | gamelib/squirtle_core.py:655-656 | the result lies at the offset from the current point |
| SvgPreRender.PreRender.ClosePath | gamelib/squirtle_core.py:643-646 | the outcome and new pen are those of `Close` |
| SvgPreRender.PreRender.WarnAbout | gamelib/squirtle_core.py:815-816 | the token is added to the warnings |
| SvgPreRender.PreRender.ComputeCoefficients | gamelib/squirtle_core.py:708-715 | the loop builds exactly the weight rows of `Coefficients` |
| SvgPreRender.PreRender.CurveTo | gamelib/squirtle_core.py:707-723 | the outcome and new pen are those of `Curve`; the weight cache stays valid |
| SvgPreRender.PreRender.AppendCurve | gamelib/squirtle_core.py:718-723 | the loop appends the curve points of `BezierPoints` and returns the last |
| SvgPreRender.PreRender.ArcTo | gamelib/squirtle_core.py:658-705 | the outcome and new pen are those of `Arc`, the arc's points being a parameter |
| SvgPreRender.PreRender.AbsoluteTailLoop | gamelib/squirtle_core.py:428-429 | the line-to loop of the corrected `M` matches `MoveAbsTail` |
| SvgPreRender.PreRender.MoveTailLoop | gamelib/squirtle_core.py:436-438 | the line-to loop after `m` matches `MoveTail` |
| SvgPreRender.PreRender.RelativeCurves | gamelib/squirtle_core.py:441-450 | the `c` loop matches `RelCurves` |
| SvgPreRender.PreRender.RelativeArcs | gamelib/squirtle_core.py:469-479 | the `a` loop matches `RelArcs` |
| SvgPreRender.PreRender.OneCurve | gamelib/squirtle_core.py:439-460 | `C`, `S` and `s` match `Command` |
| SvgPreRender.PreRender.DoCommand | gamelib/squirtle_core.py:426-500 | one opcode of the loop matches `Command` |
| SvgPreRender.PreRender.EndPath | gamelib/squirtle_core.py:728-742 | one record of the simplified path is added and the working path is emptied; the loop is kept |
| SvgPreRender.PreRender.PathElement | gamelib/squirtle_core.py:411-502 | a `path` element runs `PathData` over its tokens and adds its record, or fails as `PathData` does |
| SvgPreRender.PreRender.DrawAndEnd | gamelib/squirtle_core.py:508-514 | a fresh path through the points, ended as one record |
| SvgPreRender.PreRender.RectElement | gamelib/squirtle_core.py:503-514 | a `rect` adds the record of `RectPen` and leaves its pen, with the path emptied; or it fails as `RectPen` does, with the pen and the records unchanged |
| SvgPreRender.PreRender.LineElement | gamelib/squirtle_core.py:526-534 | a `line` adds the record of `LinePen` and leaves its pen, with the path emptied; or it fails as `LinePen` does, with the pen and the records unchanged |
| SvgPreRender.PreRender.PolyElement | gamelib/squirtle_core.py:515-525 | a `polyline` or `polygon` adds the record of `PolyPen` and leaves its pen, with the path emptied; or it fails as `PolyPen` does, with the records unchanged |
| SvgPreRender.PreRender.AppendLoops | gamelib/squirtle_core.py:623-626 | the loop over loops appends their transformed points |
| SvgPreRender.PreRender.CollectVertices | gamelib/squirtle_core.py:618-626 | the loop over the records collects exactly `Vertices` |
| SvgPreRender.PreRender.CalcBounds | gamelib/squirtle_core.py:617-635 | fails with ValueError exactly when there is no vertex; otherwise every vertex lies in the box, and `_width`/`_height` are its non-negative extents |
| SvgPreRender.PreRender.Extents | gamelib/squirtle_core.py:627-632 | the extents bound every vertex and are ordered |
| PhysicsWorld.World.constructor | gamelib/game_scene.py:54 | a new world has no body and no step |
| PhysicsWorld.World.CreateBody | gamelib/svg_box2d_parser.py:107-112 | `CreateBody` appends a body with no shape and returns its index |
| PhysicsWorld.World.CreateShape | gamelib/svg_box2d_parser.py:113 | `CreateShape` adds the shape to that body only |
| PhysicsWorld.World.SetMassFromShapes | gamelib/svg_box2d_parser.py:115-116 | `SetMassFromShapes` is counted on that body only |
| PhysicsWorld.World.Step | gamelib/game_scene.py:164 | a step is logged with its arguments |
| PhysicsWorld.World.Validate | gamelib/game_scene.py:165 | a validation is counted |
| PhysicsWorld.World.DestroyBody | gamelib/game_scene.py:168-169 | a destroyed body is logged |
| SvgBox2dParser.AttrNumber | gamelib/svg_box2d_parser.py:69-72 | `float(getAttribute(key))` succeeds exactly when the text is a number, and fails with ValueError otherwise |
| SvgBox2dParser.Asin | gamelib/svg_box2d_parser.py:88 | `asin` is defined exactly on [−1, 1] |
| SvgBox2dParser.Sqrt | gamelib/svg_box2d_parser.py:138 | `sqrt` is defined exactly on non-negative numbers |
| SvgBox2dParser.ArcCircle | gamelib/svg_box2d_parser.py:138-141 | the circle radius is √(rx·ry)/ratio, and fails exactly when rx·ry is negative |
| SvgBox2dParser.StaticSegment | gamelib/svg_box2d_parser.py:43-48 | a physics group is static exactly when the label's second `:`-segment is `static` |
| SvgBox2dParser.IsPhysics | gamelib/svg_box2d_parser.py:43 | a group is a physics group exactly when its label starts with `physics:`; `OtherGroupsIgnored` states the other case |
| SvgBox2dParser.IsStatic | gamelib/svg_box2d_parser.py:44-48 | the mode taken from the label's second `:`-segment; `StaticSegment` states it |
| SvgBox2dParser.RectBody | gamelib/svg_box2d_parser.py:68-116 | the body of a rect; `RectPlacement` and `RectShape` state its placement and shape |
| SvgBox2dParser.ArcBody | gamelib/svg_box2d_parser.py:118-145 | the body of an arc `path`, none for another path; `ArcPlacement`, `ArcSucceeds` and `ArcRadiusIgnoresTransform` state it |
| SvgBox2dParser.GroupBodies | gamelib/svg_box2d_parser.py:40-56 | the bodies of one group, none for a non-physics group; `Box2dParser.ParseMainGroup` is proved to add them |
| SvgBox2dParser.GroupsIn | gamelib/svg_box2d_parser.py:29-30 | `getElementsByTagName('g')`: the groups in document pre-order; `NestedGroupVisited` and `ChildGroupVisited` state it |
| SvgBox2dParser.DocumentBodies | gamelib/svg_box2d_parser.py:27-37 | the size read, then the bodies of every group in order; `Box2dParser.Parse` is proved to add them |
| SvgBox2dParser.RectPlacement | gamelib/svg_box2d_parser.py:73-109 | a rect's body sits at (m[4]/ratio, (svg_height − m[5] − height)/ratio) for m = T × M(transform) × translate(x, y); its angle is −asin(−m[2]) |
| SvgBox2dParser.RectShape | gamelib/svg_box2d_parser.py:90-116 | one box of half-extents (w/2r, h/2r), centred at (w/2r, h/2r), at angle 0; the mass is set exactly once when the group is dynamic |
| SvgBox2dParser.ArcPlacement | gamelib/svg_box2d_parser.py:121-145 | an arc's body sits at (m[4]/ratio, (svg_height − m[5])/ratio), with one circle and no mass call |
| SvgBox2dParser.ArcSucceeds | gamelib/svg_box2d_parser.py:118-145 | an arc gives a body exactly when its four numbers and transform read and rx·ry ≥ 0; the body's circle has radius √(rx·ry)/ratio |
| SvgBox2dParser.ArcRadiusIgnoresTransform | gamelib/svg_box2d_parser.py:123-138 | the radius does not depend on the transform |
| SvgBox2dParser.OnlyArcsAndRects | gamelib/svg_box2d_parser.py:59-148 | a child that is neither a `rect` nor an arc `path` creates no body; this includes a nested `g`, since `parse_group` does nothing |
| SvgBox2dParser.OtherGroupsIgnored | gamelib/svg_box2d_parser.py:40-43 | a group without the `physics:` prefix creates nothing |
| SvgBox2dParser.NestedGroupVisited | gamelib/svg_box2d_parser.py:29-37 | a group nested in a visited group is itself visited by the descendant loop |
| SvgBox2dParser.ChildGroupVisited | gamelib/svg_box2d_parser.py:29-37 | every `g` among the document's nodes is visited |
| SvgBox2dParser.Box2dParser.constructor | gamelib/svg_box2d_parser.py:14-24 | size (0, 0), static mode and the identity transform |
| SvgBox2dParser.Box2dParser.ParseRect | gamelib/svg_box2d_parser.py:68-116 | the world gains exactly the body of `RectBody`, or the call fails as it does |
| SvgBox2dParser.Box2dParser.ParsePath | gamelib/svg_box2d_parser.py:118-145 | the world gains the body of `ArcBody`, if any, or the call fails as it does |
| SvgBox2dParser.Box2dParser.ParseChild | gamelib/svg_box2d_parser.py:60-66 | one child adds the bodies of `ChildBodies` |
| SvgBox2dParser.Box2dParser.ParseElements | gamelib/svg_box2d_parser.py:59-66 | the loop over the children adds the bodies of `ElementBodies`, stopping at the first failure |
| SvgBox2dParser.Box2dParser.ParseMainGroup | gamelib/svg_box2d_parser.py:40-56 | a non-physics group changes nothing; a physics group sets the mode from its label, adds the bodies of `GroupBodies` and restores the transform |
| SvgBox2dParser.Box2dParser.Parse | gamelib/svg_box2d_parser.py:27-37 | the document adds the bodies of `DocumentBodies`, or fails as it does; `svg_size` becomes (width, height) once both read, and is unchanged otherwise |
| SvgBox2dParser.Box2dParser.ParseGroup | gamelib/svg_box2d_parser.py:147-148 | `parse_group` does nothing: the method changes no state |
| SvgBox2dParser.Box2dParser.ParseGroups | gamelib/svg_box2d_parser.py:36-37 | the group loop adds the bodies of `AllGroupBodies`, and the transform ends as it began |
| Box2dCallbacks.StateOf | gamelib/box2d_callbacks.py:47-98 | Add, Persist and Remove record states 1, 2 and 3, one for each; state 0 never occurs |
| Box2dCallbacks.Record | gamelib/box2d_callbacks.py:79-88 | the record copies both shapes, the position, the normal and the id, and holds the state |
| Box2dCallbacks.RecordTellsEvent | gamelib/box2d_callbacks.py:79-98 | two equal records come from the same event and the same point |
| Box2dCallbacks.ContactListener.constructor | gamelib/box2d_callbacks.py:75-77 | no test attached |
| Box2dCallbacks.ContactListener.HandleCall | gamelib/box2d_callbacks.py:79-89 | with a test attached, exactly one record is appended to its points; otherwise nothing happens |
| Box2dCallbacks.ContactListener.Notify | gamelib/box2d_callbacks.py:91-98 | each callback appends one record with its state |
| Box2dCallbacks.DestructionListener.constructor | gamelib/box2d_callbacks.py:19-21 | no test attached |
| Box2dCallbacks.DestructionListener.SayGoodbye | gamelib/box2d_callbacks.py:23-30 | the mouse joint is cleared without a report, other joints and shapes are reported, and a missing test fails with AttributeError |
| Box2dCallbacks.BoundaryListener.constructor | gamelib/box2d_callbacks.py:37-39 | no test attached |
| Box2dCallbacks.BoundaryListener.Violation | gamelib/box2d_callbacks.py:41-45 | every body is reported, and a missing test fails with AttributeError |
| Box2dCallbacks.TriangleFan | gamelib/box2d_callbacks.py:168-179 | the count is 3·max(n − 2, 0), half the length of the coordinate list |
| Box2dCallbacks.FanTriangle | gamelib/box2d_callbacks.py:174-178 | triangle j is (v0, v(j+1), v(j+2)) |
| Box2dCallbacks.TriangleFanLoop | gamelib/box2d_callbacks.py:168-179 | the loop computes `TriangleFan` |
| Box2dCallbacks.LineLoop | gamelib/box2d_callbacks.py:181-195 | an empty list fails with IndexError; otherwise the count is 2n and the list is twice as long |
| Box2dCallbacks.LineLoopEdge | gamelib/box2d_callbacks.py:181-195 | edge j joins v(j) to the next vertex, the last back to v0 |
| Box2dCallbacks.LineLoopLoop | gamelib/box2d_callbacks.py:181-195 | the loop computes `LineLoop` |
| Box2dCallbacks.Scaled | gamelib/box2d_callbacks.py:313-317 | the first `vertexCount` vertices are scaled by the ratio; a count beyond the list fails with IndexError |
| Box2dCallbacks.ScaleVertices | gamelib/box2d_callbacks.py:313-317 | the loop computes `Scaled` |
| Box2dCallbacks.DrawPolygon | gamelib/box2d_callbacks.py:309-323 | the line list is the line loop of the scaled vertices |
| Box2dCallbacks.DrawSolidPolygon | gamelib/box2d_callbacks.py:325-344 | the fan and the line loop of the scaled vertices; it fails when no vertex remains |
| Box2dCallbacks.EmptyPolygonRaises | gamelib/box2d_callbacks.py:325-344 | a count of zero scales nothing, so the fan is empty and the line loop fails with IndexError |
| CocosAdaptor.Letters | gamelib/squirtle_cocos_adaptor.py:186-192 | a selector longer than two characters fails with KeyError |
| CocosAdaptor.RosewindOffset | gamelib/squirtle_cocos_adaptor.py:163-218 | the only failure is KeyError |
| CocosAdaptor.RosewindDesignates | gamelib/squirtle_cocos_adaptor.py:192-218 | for a row letter N/C/S and a column letter E/C/W, in either order, the offset is minus the designated point |
| CocosAdaptor.RosewindAccepts | gamelib/squirtle_cocos_adaptor.py:192-217 | a two-letter selector is accepted exactly when it is one row letter and one column letter |
| CocosAdaptor.RosewindShortForms | gamelib/squirtle_cocos_adaptor.py:186-189 | None and `''` act as `CC`, and a single letter X acts as `XC` and `CX` |
| CocosAdaptor.RosewindTooLong | gamelib/squirtle_cocos_adaptor.py:190-191 | longer selectors fail with KeyError |
| CocosAdaptor.CacheNode.constructor | gamelib/squirtle_cocos_adaptor.py:127-129 | an empty cache |
| CocosAdaptor.CacheNode.PreRender | gamelib/squirtle_cocos_adaptor.py:154-160 | a miss renders once and stores the result; a hit returns the stored result and changes nothing; a rendering that raises stores nothing and its exception is returned |
| CocosAdaptor.CacheNode.OnExit | gamelib/squirtle_cocos_adaptor.py:134-139 | each cached display list is freed exactly once and the cache is emptied |
| CocosAdaptor.CacheNode.Add | gamelib/squirtle_cocos_adaptor.py:146-148 | only an `SVGnode` child is added; anything else fails with AssertionError |
| CocosAdaptor.SvgNode.constructor | gamelib/squirtle_cocos_adaptor.py:224-251 | the box is unset, the hint is pending, and the position, rotation and scale are stored |
| CocosAdaptor.SvgNode.Load | gamelib/squirtle_cocos_adaptor.py:258-264 | the node takes the display list, extents and box; the upper y bound goes to `man_y` |
| CocosAdaptor.SvgNode.OnEnter | gamelib/squirtle_cocos_adaptor.py:253-269 | without a cache ancestor it fails with AttributeError; otherwise the cache gains the drawing exactly on a miss and is left alone on a hit, a rendering that raises is returned with the node and cache unchanged, the box is loaded, the hint is applied on the first call only, and a bad hint fails with KeyError |
| CocosAdaptor.SvgNode.Enter | gamelib/squirtle_cocos_adaptor.py:255-268 | the same, given the cache: its new `db` and `rendered` are those of `CacheNode.PreRender`, and a failing rendering leaves node and cache unchanged |
| CocosAdaptor.SvgNode.PlaceAnchor | gamelib/squirtle_cocos_adaptor.py:265-268 | the anchor becomes the rose-wind offset of the box, once |
| Levels.PyIndex | gamelib/levels.py:26-29 | Python indexing: negative indices count from the end, and others out of range fail with IndexError |
| Levels.FileOf | gamelib/levels.py:26 | `levels/` + stem + `.svg` |
| Levels.StemOfFile | gamelib/levels.py:26 | the stem can be read back from the file name |
| Levels.LevelLookup | gamelib/levels.py:3-29 | 18 levels; exactly −18..17 are accepted, and name and file come from the same entry |
| Levels.NegativeIndex | gamelib/levels.py:25-29 | a negative index names the level 18 places on |
| Levels.FilenameNamesStem | gamelib/levels.py:25-26 | the file of an index names its entry's stem |
| Levels.StemsDistinct | gamelib/levels.py:3-22 | the 18 stems are pairwise distinct |
| Levels.FilenamesDistinct | gamelib/levels.py:3-26 | distinct indices in 0..17 give distinct file names |
| GameState.State.constructor | gamelib/state.py:11-37 | zero score, time, coins and farts; no level; paused and rolling; level 0; no `state` attribute yet |
| GameState.State.Reset | gamelib/state.py:39-44 | zeroes score and coins, clears the level, sets `state` (not `game_state`) to pause, and leaves the rest |
| GameState.State.SetLevel | gamelib/state.py:46-51 | the index is stored first; a bad index fails with IndexError, and a good one stores the entry, zeroes coins and farts and then fails with AttributeError at `.time` |
| GameScene.Crates | gamelib/game_scene.py:138-151 | box i of the row is `Crate(i)` |
| GameScene.SetupWorld | gamelib/game_scene.py:81-151 | six static slabs, then five dynamic boxes of density 25 and half-extent 0.5 at (−15 + 4i, 28) with frictions 0.75, 0.5, 0.35, 0.1, 0.0; only the boxes get a mass |
| GameScene.GameLayer.constructor | gamelib/game_scene.py:31-79 | empty buffers, listeners with no test, and a world holding exactly the bodies of `setup_physics_world` |
| GameScene.GameLayer.SetupPhysicsWorld | gamelib/game_scene.py:81-151 | the world gains the bodies of `SetupBodies` |
| GameScene.GameLayer.CreateGrounds | gamelib/game_scene.py:82-136 | the six slabs in order |
| GameScene.GameLayer.CreateCrates | gamelib/game_scene.py:138-151 | the five boxes in order |
| GameScene.GameLayer.Step | gamelib/game_scene.py:154-170 | one step of 1/60 with 10 and 8 iterations whatever `dt`, one validation, then each pending body destroyed once in order, and the list emptied |
| GameScene.Playing | gamelib/game_scene.py:207 | reading `state.state` before any reset fails with AttributeError |
| GameScene.ControlLayer.constructor | gamelib/game_scene.py:184-188 | no key held |
| GameScene.ControlLayer.UpdateKeys | gamelib/game_scene.py:190-204 | sums a unit vector per held arrow and drops the result: the method changes no state |
| GameScene.ControlLayer.OnKeyPress | gamelib/game_scene.py:206-212 | in play an arrow is added and the event handled; otherwise nothing changes |
| GameScene.ControlLayer.OnKeyRelease | gamelib/game_scene.py:214-223 | in play an arrow is removed, or the set emptied when it was not held, and the event handled; otherwise nothing changes |
| GameScene.ControlLayer.OnTextMotion | gamelib/game_scene.py:225-230 | handled exactly for the four arrow motions in play; the held keys never change |

## Left out

- Tokenising: the `parse_list` and path-data regular expressions (gamelib/squirtle_core.py:122-123, 414, 517) are not modelled. Path data arrives as tokens, and text inside a transform goes through a tokeniser parameter.
- Number tokens: a path number token holds a value, not its text, and `int()` of a flag is a function of the token. Two ValueErrors of the source therefore cannot arise in the model: `float('1e')`, for a token the regular expression at gamelib/squirtle_core.py:414 does produce, and `int('1.0')` for an arc flag written with a decimal point.
- Loading: gzip and ElementTree loading in `SVG_pre_render.__init__`, `parse_doc`, and the minidom/`data.filepath` loading of `SVGBox2dParser.parse`. The document is a tree given as input, and `os.path.abspath` of the file name is left to the caller.
- Drawing: OpenGL, the display lists, `render_slowly`, `setup_gl`, `begin_svg`/`end_svg`, `SVG_CacheNode.visit`, `SVGnode.draw` and every `batch.add` of the debug draw. The renderer behind the cache is a deterministic parameter that either returns a rendering or raises; which drawings make it raise is not tied to `SvgPreRender` here.
- Trigonometry and square roots, which are floating-point numerics:
  - `arc_to`, whose points are a parameter of the path model;
  - `asin` and `sqrt` in the physics parser, which are parameters with their domains;
  - circle and ellipse elements;
  - the circle caches of the debug draw;
  - `grad_value`.
- `triangulate` (the GLU tessellator) is a parameter.
- Gradients: the stop parsing of `Gradient.__init__` and `tardy_gradient_parsed` are not modelled. `Gradient.interp` is modelled on its sorted stops, given as a sequence with increasing offsets.
- Colour and opacity handling of `parse_element` (gamelib/squirtle_core.py:381-409): fill and stroke come in as paints, and opacity is not modelled.
- Element traversal of `parse_element`: the transform composition `self.transform * Matrix(e.get('transform'))` (gamelib/squirtle_core.py:388-389), the recursion into the children (560-565) and the restore of the transform (566) are not modelled. Each element method works under the transform it is given.
- squirtle.Matrix: the `squirtle` module imported by the physics parser is not part of this model. Its `Matrix` is taken to be the one in `squirtle_core`.
- Named colours: the named-colour table is not part of this model. It is an abstract map.
- SvgMatrix.FromString: `matrix(...)` with other than six numbers fails with ValueError at once. The source stores the list as it is. Applying such a matrix (`__call__`, gamelib/squirtle_core.py:175-177) reads only `values[0..5]`: it succeeds with more than six numbers and fails with IndexError with fewer. `inverse()` likewise succeeds with more than six. Only `__mul__` (185-187) fails with ValueError, and the product is the only way the core uses a parsed matrix.
- SvgBox2dParser.Box2dParser.constructor: requires a non-zero ratio (the game uses 52). With ratio 0 the source would fail with ZeroDivisionError at the first rect or arc, which is not modelled.
- GameScene.ControlLayer.UpdateKeys: computes the sum of the arrow directions and drops it, as the source does. The normalisation and scaling by 50 are not modelled, because their result is discarded.
- SvgPaths.CorrectedCommand: the corrected `M` of the Findings row is not used by `Run`, `PathData` or `PreRender.PathElement`, which run the source's `M`.
- PolyElement: on failure the model states only that the records are unchanged. The partly drawn pen the source leaves behind is not described.
- Box2dCallbacks.TriangleFan: the count `len(out) / 2` is Python 2 integer division. The length is always a multiple of six, so the model divides exactly.
- Dictionary order: `on_exit` frees the cached lists in an order the model leaves open. The method returns that order, and proves each entry is freed once.
- Listener tests: in the game the listeners' `test` is never set. The model covers both a missing and an attached test, where the attached test is a `Listener` log.
- Game-scene settings: the world's gravity, bounding box, sleeping, warm-starting and debug-draw flags are left out, as are the `draw` methods. `Box2D` itself is a log of calls (`PhysicsWorld`).
- Floating point: IEEE rounding is not modelled, and numbers are exact reals.
- The HUD, intro, main-menu and gradient-layer scenes are not part of this model.

## Findings

| source | as written | input that shows it | evidently intended | confidence | as-written member | corrected member |
|---|---|---|---|---|---|---|
| gamelib/squirtle_core.py:145-148 | each two-character colour field is read with `int(field, 16)`, which also accepts a sign or surrounding spaces | `#-f0000` gives the colour `[-15, 0, 0, 255]` | only hex digits are channels, so every channel lies in 0..255 and `#-f0000` is rejected (None) | not executed | SvgAttributes.SignedFieldAsWritten | SvgAttributes.ColorChannelsInRange |
| gamelib/squirtle_core.py:428-429 | `M` reads one pair; any further pairs are popped as opcodes by the loop and only warned about (499-500), unlike `m` (435-438) | `M 0 0 10 10` moves to (0, 0) and warns twice; no line to (10, 10) is drawn | further pairs after a moveto are implicit absolute line-tos (section 8.3.2 of SVG 1.1) | not executed | SvgPaths.MoveExtraPairWarned | SvgPaths.MoveDrawsEveryPair |
