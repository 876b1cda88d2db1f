/** What the path builder of squirtle_core's `SVG_pre_render` computes,
    stated as functions over values; the class in prerender.dfy does the
    same work step by step and is proved to agree with these functions.

    The pen is the builder's drawing state: the current point (`x`, `y`),
    the loop of points being drawn, the closed loops of the current path,
    the second control point of the last curve (`last_cx`, `last_cy`,
    absent until a curve has been drawn) and the unrecognised opcodes met
    so far. Path data follows section 8.3 of SVG 1.1 and arrives as the
    tokens its tokeniser yields. */
module SvgPaths {
  import opened Outcomes
  import opened Tokens
  import opened SvgMatrix

  /** `TOLERANCE`: the squared distance below which `end_path` drops a point. */
  const Tolerance: real := 0.001

  /** `BEZIER_POINTS`, the default number of segments of a curve. */
  const DefaultBezierPoints: int := 10

  datatype Pen = Pen(x: real, y: real, loop: seq<Point>, path: seq<seq<Point>>,
                     lastC: Option<Point>, warnings: seq<Token>)

  /** The parameters of `arc_to`: the current point, the radii, the x-axis
      rotation, the two flags and the end point. */
  datatype ArcCall = ArcCall(from: Point, rx: real, ry: real, phi: real, largeArc: int, sweep: int, to: Point)

  /** What the path loop depends on besides its tokens: `bezier_points`, the
      points `arc_to` draws for one arc (its trigonometry is not part of this
      model, and it fails where `arc_to` would raise) and Python's `int()`
      of a token's text. */
  datatype Env = Env(bezierPoints: int, arc: ArcCall -> Result<seq<Point>>, intOf: Token -> Option<int>)

  function Position(pen: Pen): Point
  {
    Point(pen.x, pen.y)
  }

  function Last<T>(s: seq<T>): T
    requires s != []
  {
    s[|s| - 1]
  }

  // ---------------------------------------------------------------------
  // The path helpers

  /** `new_path()`: the current point goes back to the origin and the loop
      and the path are emptied; the last control point and the warnings
      remain. */
  function NewPen(pen: Pen): (r: Pen)
    ensures r.x == 0.0 && r.y == 0.0 && r.loop == [] && r.path == []
    ensures r.lastC == pen.lastC && r.warnings == pen.warnings
  {
    pen.(x := 0.0, y := 0.0, loop := [], path := [])
  }

  /** `set_position(x, y)`, also `line_to(x, y)`: move the current point to
      `p` and append it to the loop. */
  function SetPos(pen: Pen, p: Point): (r: Pen)
    ensures Position(r) == p && r.loop == pen.loop + [p]
    ensures r.path == pen.path && r.lastC == pen.lastC && r.warnings == pen.warnings
  {
    pen.(x := p.x, y := p.y, loop := pen.loop + [p])
  }

  /** `set_relative_position(dx, dy)`, and `line_to` of `rel_to_abs(dx, dy)`. */
  function SetRelPos(pen: Pen, d: Point): (r: Pen)
    ensures Position(r) == Point(pen.x + d.x, pen.y + d.y)
    ensures r.loop == pen.loop + [Position(r)]
  {
    SetPos(pen, Point(pen.x + d.x, pen.y + d.y))
  }

  /** `line_to` on every point of `pts` in turn. */
  function LineToAll(pen: Pen, pts: seq<Point>): (r: Pen)
    ensures r.loop == pen.loop + pts && r.path == pen.path
    ensures r.lastC == pen.lastC && r.warnings == pen.warnings
    ensures pts != [] ==> Position(r) == Last(pts)
    ensures pts == [] ==> r == pen
  {
    if pts == [] then pen else pen.(x := Last(pts).x, y := Last(pts).y, loop := pen.loop + pts)
  }

  /** `close_path()`: a copy of the loop's first point ends the loop, the
      loop joins the path and a new empty loop starts; with an empty loop
      `self.loop[0]` raises IndexError. The current point stays. */
  function Close(pen: Pen): (r: Result<Pen>)
    ensures r.Ok? <==> pen.loop != []
    ensures r.Err? ==> r.error == IndexError
    ensures r.Ok? ==> r.value.path == pen.path + [pen.loop + [pen.loop[0]]] && r.value.loop == []
    ensures r.Ok? ==> Position(r.value) == Position(pen) && r.value.lastC == pen.lastC
  {
    if pen.loop == [] then Err(IndexError)
    else Ok(pen.(loop := [], path := pen.path + [pen.loop + [pen.loop[0]]]))
  }

  /** `warn(...)` for an unrecognised opcode: only the message is new. */
  function Warn(pen: Pen, opcode: Token): Pen
  {
    pen.(warnings := pen.warnings + [opcode])
  }

  // ---------------------------------------------------------------------
  // Cubic Bezier curves

  /** The Bernstein weights `[(1-t)^3, 3t(1-t)^2, 3t^2(1-t), t^3]`. */
  datatype Weights = Weights(w0: real, w1: real, w2: real, w3: real)

  function WeightsAt(t: real): Weights
  {
    var s := 1.0 - t;
    Weights(s * s * s, 3.0 * t * s * s, 3.0 * t * t * s, t * t * t)
  }

  /** `bezier_coefficients`: the weights at t = i/n for i in 0..n. With n = 0
      the first division raises ZeroDivisionError; a negative n gives no
      weights at all. */
  function Coefficients(n: int): (r: Result<seq<Weights>>)
    ensures r.Err? <==> n == 0
    ensures r.Err? ==> r.error == ZeroDivisionError
    ensures r.Ok? && n < 0 ==> r.value == []
    ensures r.Ok? && n > 0 ==> |r.value| == n + 1
  {
    if n == 0 then Err(ZeroDivisionError)
    else if n < 0 then Ok([])
    else Ok(seq(n + 1, i requires 0 <= i <= n => WeightsAt(i as real / n as real)))
  }

  function Blend4(w: Weights, p0: real, p1: real, p2: real, p3: real): real
  {
    w.w0 * p0 + w.w1 * p1 + w.w2 * p2 + w.w3 * p3
  }

  /** The points `curve_to` appends: one per weight. */
  function BezierPoints(ws: seq<Weights>, p0: Point, c1: Point, c2: Point, end: Point): (r: seq<Point>)
    ensures |r| == |ws|
  {
    seq(|ws|, i requires 0 <= i < |ws| =>
      Point(Blend4(ws[i], p0.x, c1.x, c2.x, end.x), Blend4(ws[i], p0.y, c1.y, c2.y, end.y)))
  }

  /** `curve_to(x1, y1, x2, y2, x, y)`: the second control point becomes the
      last control point, the curve's points are appended and the last one
      becomes the current point. Without any weight the loop over them never
      binds `px`, and reading it raises NameError. */
  function Curve(pen: Pen, n: int, c1: Point, c2: Point, end: Point): (r: Result<Pen>)
    ensures r.Ok? <==> n > 0
    ensures r.Ok? ==> r.value.lastC == Some(c2) && r.value.path == pen.path
  {
    var ws :- Coefficients(n);
    if ws == [] then Err(NameError)
    else Ok(LineToAll(pen.(lastC := Some(c2)), BezierPoints(ws, Position(pen), c1, c2, end)))
  }

  /** A curve starts at the current point, ends at its end point and adds
      `bezier_points + 1` points to the loop. */
  lemma CurveEnds(pen: Pen, n: int, c1: Point, c2: Point, end: Point)
    requires n > 0
    ensures var r := Curve(pen, n, c1, c2, end);
            r.Ok? && |r.value.loop| == |pen.loop| + n + 1
            && r.value.loop[|pen.loop|] == Position(pen)
            && Position(r.value) == end
  {
    var ws := Coefficients(n).value;
    var pts := BezierPoints(ws, Position(pen), c1, c2, end);
    assert ws[0] == WeightsAt(0.0);
    assert ws[n] == WeightsAt(1.0) by { SelfQuotient(n as real); }
    assert pts[0] == Position(pen);
    assert pts[n] == end;
  }

  // ---------------------------------------------------------------------
  // Reading tokens

  /** `float(pathdata.pop(0))`. */
  function PopFloat(data: seq<Token>): (r: Result<(real, seq<Token>)>)
    ensures r.Ok? <==> data != [] && data[0].Number?
    ensures r.Ok? ==> r.value == (data[0].v, data[1..])
    ensures r.Err? ==> r.error == (if data == [] then IndexError else ValueError)
  {
    if data == [] then Err(IndexError)
    else if data[0].Letter? then Err(ValueError)
    else Ok((data[0].v, data[1..]))
  }

  /** `int(pathdata.pop(0))`. */
  function PopInt(data: seq<Token>, env: Env): (r: Result<(int, seq<Token>)>)
    ensures r.Ok? ==> data != [] && env.intOf(data[0]).Some? && r.value == (env.intOf(data[0]).value, data[1..])
    ensures r.Err? ==> r.error == (if data == [] then IndexError else ValueError)
  {
    if data == [] then Err(IndexError)
    else if env.intOf(data[0]).None? then Err(ValueError)
    else Ok((env.intOf(data[0]).value, data[1..]))
  }

  /** `pnext()`: two numbers, read one after the other. */
  function PNext(data: seq<Token>): (r: Result<(Point, seq<Token>)>)
    ensures r.Ok? <==> |data| >= 2 && data[0].Number? && data[1].Number?
    ensures r.Ok? ==> r.value == (Point(data[0].v, data[1].v), data[2..])
  {
    var a :- PopFloat(data);
    var b :- PopFloat(a.1);
    Ok((Point(a.0, b.0), b.1))
  }

  /** `opcode_follows()`: no token left, or the next is a path command
      letter. */
  predicate OpcodeFollows(data: seq<Token>)
  {
    data == [] || (data[0].Letter? && data[0].c in "MmCcSsAaLlHhZzVv")
  }

  // ---------------------------------------------------------------------
  // The opcode loop

  /** The pairs after an `m`: each is a relative line, until a command
      letter or the end of the data. */
  function MoveTail(pen: Pen, data: seq<Token>): (r: Result<(Pen, seq<Token>)>)
    ensures r.Ok? ==> |r.value.1| <= |data| && OpcodeFollows(r.value.1)
    decreases |data|
  {
    if OpcodeFollows(data) then Ok((pen, data))
    else
      var q :- PNext(data);
      MoveTail(SetRelPos(pen, q.0), q.1)
  }

  /** The pairs after an `M`: each is an absolute line, until a command
      letter or the end of the data. */
  function MoveAbsTail(pen: Pen, data: seq<Token>): (r: Result<(Pen, seq<Token>)>)
    ensures r.Ok? ==> |r.value.1| <= |data| && OpcodeFollows(r.value.1)
    decreases |data|
  {
    if OpcodeFollows(data) then Ok((pen, data))
    else
      var q :- PNext(data);
      MoveAbsTail(SetPos(pen, q.0), q.1)
  }

  /** `c`: three relative pairs per curve, repeated while no command letter
      follows. */
  function RelCurves(pen: Pen, data: seq<Token>, env: Env): (r: Result<(Pen, seq<Token>)>)
    ensures r.Ok? ==> |r.value.1| <= |data|
    decreases |data|
  {
    var m := Position(pen);
    var a :- PNext(data);
    var b :- PNext(a.1);
    var e :- PNext(b.1);
    var next :- Curve(pen, env.bezierPoints, Offset(m, a.0), Offset(m, b.0), Offset(m, e.0));
    if OpcodeFollows(e.1) then Ok((next, e.1)) else RelCurves(next, e.1, env)
  }

  function Offset(m: Point, d: Point): Point
  {
    Point(m.x + d.x, m.y + d.y)
  }

  /** The seven parameters of one arc: radii, rotation, the two flags and
      the end point. */
  function ArcArgs(data: seq<Token>, env: Env): (r: Result<(Point, real, int, int, Point, seq<Token>)>)
    ensures r.Ok? ==> |r.value.5| == |data| - 7
  {
    var radii :- PNext(data);
    var phi :- PopFloat(radii.1);
    var large :- PopInt(phi.1, env);
    var sweep :- PopInt(large.1, env);
    var end :- PNext(sweep.1);
    Ok((radii.0, phi.0, large.0, sweep.0, end.0, end.1))
  }

  /** `arc_to(...)`: the arc's points are drawn with `line_to`. */
  function Arc(pen: Pen, radii: Point, phi: real, large: int, sweep: int, end: Point, env: Env): Result<Pen>
  {
    var pts :- env.arc(ArcCall(Position(pen), radii.x, radii.y, phi, large, sweep, end));
    Ok(LineToAll(pen, pts))
  }

  /** `a`: arcs whose end points are relative, repeated while no command
      letter follows; the radii are not relative. */
  function RelArcs(pen: Pen, data: seq<Token>, env: Env): (r: Result<(Pen, seq<Token>)>)
    ensures r.Ok? ==> |r.value.1| <= |data|
    decreases |data|
  {
    var args :- ArcArgs(data, env);
    var next :- Arc(pen, args.0, args.1, args.2, args.3, Offset(Position(pen), args.4), env);
    if OpcodeFollows(args.5) then Ok((next, args.5)) else RelArcs(next, args.5, env)
  }

  /** The reflection of the last control point about the current point,
      the first control point of `S` and `s`; AttributeError before any
      curve. */
  function Reflected(pen: Pen): (r: Result<Point>)
    ensures r.Ok? <==> pen.lastC.Some?
  {
    if pen.lastC.None? then Err(AttributeError)
    else Ok(Point(2.0 * pen.x - pen.lastC.value.x, 2.0 * pen.y - pen.lastC.value.y))
  }

  /** `M`: one pair is read, and any further pairs are left to the loop,
      which warns about each of their numbers. */
  function MoveAsWritten(pen: Pen, data: seq<Token>): Result<(Pen, seq<Token>)>
  {
    var q :- PNext(data);
    Ok((SetPos(pen, q.0), q.1))
  }

  /** One pass of the `while pathdata` loop: `opcode` was popped, `data` is
      what follows it and `opnum` counts the opcodes before it. */
  function Command(pen: Pen, opcode: Token, data: seq<Token>, opnum: nat, env: Env): (r: Result<(Pen, seq<Token>)>)
    ensures r.Ok? ==> |r.value.1| <= |data|
  {
    if opcode.Number? then Ok((Warn(pen, opcode), data))
    else
      var c := opcode.c;
      if c == 'M' then
        MoveAsWritten(pen, data)
      else if c == 'm' then
        var q :- PNext(data);
        MoveTail(if opnum == 0 then SetPos(pen, q.0) else SetRelPos(pen, q.0), q.1)
      else if c == 'C' then
        var a :- PNext(data);
        var b :- PNext(a.1);
        var e :- PNext(b.1);
        var next :- Curve(pen, env.bezierPoints, a.0, b.0, e.0);
        Ok((next, e.1))
      else if c == 'c' then
        RelCurves(pen, data, env)
      else if c == 'S' then
        var c1 :- Reflected(pen);
        var b :- PNext(data);
        var e :- PNext(b.1);
        var next :- Curve(pen, env.bezierPoints, c1, b.0, e.0);
        Ok((next, e.1))
      else if c == 's' then
        var c1 :- Reflected(pen);
        var b :- PNext(data);
        var e :- PNext(b.1);
        var m := Position(pen);
        var next :- Curve(pen, env.bezierPoints, c1, Offset(m, b.0), Offset(m, e.0));
        Ok((next, e.1))
      else if c == 'A' then
        var args :- ArcArgs(data, env);
        var next :- Arc(pen, args.0, args.1, args.2, args.3, args.4, env);
        Ok((next, args.5))
      else if c == 'a' then
        RelArcs(pen, data, env)
      else if c == 'z' || c == 'Z' then
        var next :- Close(pen);
        Ok((next, data))
      else if c == 'L' then
        var q :- PNext(data);
        Ok((SetPos(pen, q.0), q.1))
      else if c == 'l' then
        var q :- PNext(data);
        Ok((SetRelPos(pen, q.0), q.1))
      else if c == 'H' then
        var v :- PopFloat(data);
        Ok((SetPos(pen, Point(v.0, pen.y)), v.1))
      else if c == 'h' then
        var v :- PopFloat(data);
        Ok((SetPos(pen, Point(pen.x + v.0, pen.y)), v.1))
      else if c == 'V' then
        var v :- PopFloat(data);
        Ok((SetPos(pen, Point(pen.x, v.0)), v.1))
      else if c == 'v' then
        var v :- PopFloat(data);
        Ok((SetPos(pen, Point(pen.x, pen.y + v.0)), v.1))
      else Ok((Warn(pen, opcode), data))
  }

  /** One opcode with `M` corrected: further pairs after an `M` are drawn as
      absolute lines, as section 8.3.2 of SVG 1.1 asks and as `m` does with
      relative ones; every other opcode is `Command`. */
  function CorrectedCommand(pen: Pen, opcode: Token, data: seq<Token>, opnum: nat, env: Env): (r: Result<(Pen, seq<Token>)>)
    ensures r.Ok? ==> |r.value.1| <= |data|
  {
    if opcode == Letter('M') then
      var q :- PNext(data);
      MoveAbsTail(SetPos(pen, q.0), q.1)
    else Command(pen, opcode, data, opnum, env)
  }

  /** The `while pathdata` loop from the given pen over `data`, where
      `opnum` opcodes have been read already. */
  function Run(pen: Pen, data: seq<Token>, opnum: nat, env: Env): Result<Pen>
    decreases |data|
  {
    if data == [] then Ok(pen)
    else
      var step :- Command(pen, data[0], data[1..], opnum, env);
      Run(step.0, step.1, opnum + 1, env)
  }

  /** The pen after a `path` element's data: `new_path()`, then the loop. */
  function PathData(pen: Pen, data: seq<Token>, env: Env): Result<Pen>
  {
    Run(NewPen(pen), data, 0, env)
  }

  // ---------------------------------------------------------------------
  // Properties of the opcode loop

  /** `M`, `L`, `H` and `V` move the current point to absolute coordinates
      and append it to the loop, wherever they stand in the data. */
  lemma AbsoluteMoves(pen: Pen, x: real, y: real, rest: seq<Token>, opnum: nat, env: Env)
    ensures Command(pen, Letter('M'), [Number(x), Number(y)] + rest, opnum, env) == Ok((SetPos(pen, Point(x, y)), rest))
    ensures Command(pen, Letter('L'), [Number(x), Number(y)] + rest, opnum, env) == Ok((SetPos(pen, Point(x, y)), rest))
    ensures Command(pen, Letter('H'), [Number(x)] + rest, opnum, env) == Ok((SetPos(pen, Point(x, pen.y)), rest))
    ensures Command(pen, Letter('V'), [Number(y)] + rest, opnum, env) == Ok((SetPos(pen, Point(pen.x, y)), rest))
  {
    assert ([Number(x), Number(y)] + rest)[2..] == rest;
    assert ([Number(x)] + rest)[1..] == rest;
  }

  /** Pairs after an `M` are absolute lines: the current point moves to
      each in turn, and all of them are appended to the loop. */
  lemma {:induction false} MoveAbsTailDraws(pen: Pen, ds: seq<Point>, rest: seq<Token>)
    requires OpcodeFollows(rest)
    ensures MoveAbsTail(pen, PairTokens(ds) + rest) == Ok((LineToAll(pen, ds), rest))
    decreases |ds|
  {
    if ds != [] {
      var tail := PairTokens(ds[1..]) + rest;
      var data := [Number(ds[0].x), Number(ds[0].y)] + tail;
      assert PairTokens(ds) + rest == data;
      assert data[2..] == tail;
      assert PNext(data) == Ok((ds[0], tail));
      MoveAbsTailDraws(SetPos(pen, ds[0]), ds[1..], rest);
      LineToAllStep(pen, ds[0], ds[1..]);
      assert [ds[0]] + ds[1..] == ds;
    } else {
      assert PairTokens(ds) + rest == rest;
    }
  }

  /** The corrected `M` with several pairs draws every pair after the first
      as an absolute line (section 8.3.2 of SVG 1.1). */
  lemma MoveDrawsEveryPair(pen: Pen, ds: seq<Point>, rest: seq<Token>, opnum: nat, env: Env)
    requires ds != [] && OpcodeFollows(rest)
    ensures CorrectedCommand(pen, Letter('M'), PairTokens(ds) + rest, opnum, env) == Ok((LineToAll(pen, ds), rest))
  {
    var tail := PairTokens(ds[1..]) + rest;
    var data := [Number(ds[0].x), Number(ds[0].y)] + tail;
    assert PairTokens(ds) + rest == data;
    assert data[2..] == tail;
    assert PNext(data) == Ok((ds[0], tail));
    MoveAbsTailDraws(SetPos(pen, ds[0]), ds[1..], rest);
    LineToAllStep(pen, ds[0], ds[1..]);
    assert [ds[0]] + ds[1..] == ds;
  }

  /** As written, `M x y x2 y2` moves to (x, y) only: the second pair is
      left in the data and the loop warns about its two numbers instead of
      drawing a line to (x2, y2). */
  lemma MoveExtraPairWarned(pen: Pen, x: real, y: real, x2: real, y2: real, env: Env)
    ensures var p := SetPos(pen, Point(x, y));
            var extra := [Number(x2), Number(y2)];
            Run(pen, [Letter('M'), Number(x), Number(y)] + extra, 0, env) == Ok(p.(warnings := p.warnings + extra))
            && |p.loop| == |pen.loop| + 1
  {
    var extra := [Number(x2), Number(y2)];
    var data := [Letter('M'), Number(x), Number(y)] + extra;
    assert data[1..] == [Number(x), Number(y)] + extra;
    assert data[1..][2..] == extra;
    var p := SetPos(pen, Point(x, y));
    assert Command(pen, data[0], data[1..], 0, env) == Ok((p, extra));
    OnlyWarnings(p, extra, 1, env);
  }

  /** `C` with three pairs draws one curve through them; `c` with three
      pairs before a command letter draws one curve through the pairs
      offset from the current point. Both fail exactly as `curve_to` does. */
  lemma CurveCommands(pen: Pen, c1: Point, c2: Point, end: Point, rest: seq<Token>, opnum: nat, env: Env)
    ensures var data := PairTokens([c1, c2, end]) + rest;
            var k := Curve(pen, env.bezierPoints, c1, c2, end);
            var r := Command(pen, Letter('C'), data, opnum, env);
            r.Ok? == k.Ok? && (r.Ok? ==> r.value == (k.value, rest))
    ensures OpcodeFollows(rest) ==>
              var m := Position(pen);
              var data := PairTokens([c1, c2, end]) + rest;
              var k := Curve(pen, env.bezierPoints, Offset(m, c1), Offset(m, c2), Offset(m, end));
              var r := Command(pen, Letter('c'), data, opnum, env);
              r.Ok? == k.Ok? && (r.Ok? ==> r.value == (k.value, rest))
  {
    var data := PairTokens([c1, c2, end]) + rest;
    assert [c1, c2, end][1..] == [c2, end] && [c2, end][1..] == [end] && [end][1..] == [];
    assert PairTokens([end]) == [Number(end.x), Number(end.y)];
    assert PairTokens([c2, end]) == [Number(c2.x), Number(c2.y), Number(end.x), Number(end.y)];
    assert data == [Number(c1.x), Number(c1.y), Number(c2.x), Number(c2.y), Number(end.x), Number(end.y)] + rest;
    assert data[2..][2..][2..] == rest;
    assert PNext(data) == Ok((c1, data[2..]));
    assert PNext(data[2..]) == Ok((c2, data[2..][2..]));
    assert PNext(data[2..][2..]) == Ok((end, rest));
  }

  /** `l`, `h` and `v` move relative to the current point. */
  lemma RelativeMoves(pen: Pen, dx: real, dy: real, rest: seq<Token>, opnum: nat, env: Env)
    ensures Command(pen, Letter('l'), [Number(dx), Number(dy)] + rest, opnum, env)
         == Ok((SetPos(pen, Point(pen.x + dx, pen.y + dy)), rest))
    ensures Command(pen, Letter('h'), [Number(dx)] + rest, opnum, env) == Ok((SetPos(pen, Point(pen.x + dx, pen.y)), rest))
    ensures Command(pen, Letter('v'), [Number(dy)] + rest, opnum, env) == Ok((SetPos(pen, Point(pen.x, pen.y + dy)), rest))
  {
    assert ([Number(dx), Number(dy)] + rest)[2..] == rest;
    assert ([Number(dx)] + rest)[1..] == rest;
  }

  /** An `m` is absolute only as the first opcode of the data, relative
      after it. */
  lemma MoveFirstAbsolute(pen: Pen, x: real, y: real, rest: seq<Token>, opnum: nat, env: Env)
    requires OpcodeFollows(rest)
    ensures Command(pen, Letter('m'), [Number(x), Number(y)] + rest, opnum, env)
         == Ok((if opnum == 0 then SetPos(pen, Point(x, y)) else SetPos(pen, Point(pen.x + x, pen.y + y)), rest))
  {
    assert ([Number(x), Number(y)] + rest)[2..] == rest;
  }

  /** The points reached from `start` by adding the offsets one after the
      other. */
  function Walk(start: Point, ds: seq<Point>): (r: seq<Point>)
    ensures |r| == |ds|
    decreases |ds|
  {
    if ds == [] then [] else [Offset(start, ds[0])] + Walk(Offset(start, ds[0]), ds[1..])
  }

  /** The tokens of a list of coordinate pairs. */
  function PairTokens(ds: seq<Point>): (r: seq<Token>)
    ensures |r| == 2 * |ds|
  {
    if ds == [] then [] else [Number(ds[0].x), Number(ds[0].y)] + PairTokens(ds[1..])
  }

  /** Pairs after an `m` are relative lines: each is added to the point
      before it, and all of them are appended to the loop. */
  lemma {:induction false} MoveTailWalks(pen: Pen, ds: seq<Point>, rest: seq<Token>)
    requires OpcodeFollows(rest)
    ensures MoveTail(pen, PairTokens(ds) + rest) == Ok((LineToAll(pen, Walk(Position(pen), ds)), rest))
    decreases |ds|
  {
    if ds != [] {
      var tail := PairTokens(ds[1..]) + rest;
      assert PairTokens(ds) + rest == [Number(ds[0].x), Number(ds[0].y)] + tail;
      var next := SetRelPos(pen, ds[0]);
      var w' := Walk(Position(next), ds[1..]);
      calc {
        MoveTail(pen, PairTokens(ds) + rest);
        { MoveTailStep(pen, ds[0], tail); }
        MoveTail(next, tail);
        { MoveTailWalks(next, ds[1..], rest); }
        Ok((LineToAll(next, w'), rest));
        { assert next == SetPos(pen, Position(next));
          LineToAllStep(pen, Position(next), w'); }
        Ok((LineToAll(pen, [Position(next)] + w'), rest));
        { assert Walk(Position(pen), ds) == [Position(next)] + w'; }
        Ok((LineToAll(pen, Walk(Position(pen), ds)), rest));
      }
    } else {
      assert PairTokens(ds) + rest == rest;
    }
  }

  /** One pair after an `m` is a relative line. */
  lemma MoveTailStep(pen: Pen, d: Point, tail: seq<Token>)
    ensures MoveTail(pen, [Number(d.x), Number(d.y)] + tail) == MoveTail(SetRelPos(pen, d), tail)
  {
    var data := [Number(d.x), Number(d.y)] + tail;
    assert data[2..] == tail;
    assert PNext(data) == Ok((d, tail));
  }

  /** Drawing a line to `p` and then to every point of `pts` draws to
      every point of `[p] + pts`. */
  lemma LineToAllStep(pen: Pen, p: Point, pts: seq<Point>)
    ensures LineToAll(SetPos(pen, p), pts) == LineToAll(pen, [p] + pts)
  {
    if pts != [] {
      assert Last([p] + pts) == Last(pts);
      assert pen.loop + [p] + pts == pen.loop + ([p] + pts);
    }
  }

  /** `Z` closes the loop: it joins the path with its first point repeated
      and the loop starts again empty; on an empty loop it raises. */
  lemma CloseCommand(pen: Pen, c: char, rest: seq<Token>, opnum: nat, env: Env)
    requires c == 'z' || c == 'Z'
    ensures var r := Command(pen, Letter(c), rest, opnum, env);
            (pen.loop == [] ==> r == Err(IndexError))
            && (pen.loop != [] ==> r == Ok((pen.(loop := [], path := pen.path + [pen.loop + [pen.loop[0]]]), rest)))
  {
  }

  /** A token that is no path command only leaves a warning: no token is
      consumed and nothing else changes. */
  lemma UnknownOpcodeWarns(pen: Pen, opcode: Token, rest: seq<Token>, opnum: nat, env: Env)
    requires opcode.Number? || opcode.c !in "MmCcSsAaLlHhZzVv"
    ensures Command(pen, opcode, rest, opnum, env) == Ok((pen.(warnings := pen.warnings + [opcode]), rest))
  {
  }

  /** `S` and `s` before any curve raise AttributeError. */
  lemma SmoothNeedsCurve(pen: Pen, c: char, rest: seq<Token>, opnum: nat, env: Env)
    requires pen.lastC.None? && (c == 'S' || c == 's')
    ensures Command(pen, Letter(c), rest, opnum, env) == Err(AttributeError)
  {
  }

  /** Running the loop over tokens that are all unknown opcodes changes
      nothing but the warnings. */
  lemma {:induction false} OnlyWarnings(pen: Pen, data: seq<Token>, opnum: nat, env: Env)
    requires forall i :: 0 <= i < |data| ==> data[i].Number?
    ensures Run(pen, data, opnum, env) == Ok(pen.(warnings := pen.warnings + data))
    decreases |data|
  {
    if data != [] {
      assert Command(pen, data[0], data[1..], opnum, env) == Ok((Warn(pen, data[0]), data[1..]));
      assert Run(pen, data, opnum, env) == Run(Warn(pen, data[0]), data[1..], opnum + 1, env);
      OnlyWarnings(Warn(pen, data[0]), data[1..], opnum + 1, env);
      assert pen.warnings + data == pen.warnings + [data[0]] + data[1..];
    } else {
      assert pen.warnings + data == pen.warnings;
    }
  }

  // ---------------------------------------------------------------------
  // end_path

  function SqDist(p: Point, q: Point): real
  {
    (p.x - q.x) * (p.x - q.x) + (p.y - q.y) * (p.y - q.y)
  }

  /** The inner loop of `end_path` over `rest`, having kept `kept`: a point
      is kept when it is farther than the tolerance from the last point
      kept. */
  function ThinFrom(kept: seq<Point>, rest: seq<Point>): (r: seq<Point>)
    requires kept != []
    ensures |r| >= |kept| && r[..|kept|] == kept
    decreases |rest|
  {
    if rest == [] then kept
    else ThinFrom(if SqDist(rest[0], Last(kept)) > Tolerance then kept + [rest[0]] else kept, rest[1..])
  }

  /** One simplified loop: the first point, then every later point that is
      far enough from the last one kept. */
  function Thin(orig: seq<Point>): (r: seq<Point>)
    requires orig != []
    ensures r != [] && r[0] == orig[0]
  {
    ThinFrom([orig[0]], orig)
  }

  /** The loops `end_path` keeps: empty loops are dropped, the others
      simplified. */
  function Simplify(loops: seq<seq<Point>>): (r: seq<seq<Point>>)
    ensures forall i :: 0 <= i < |r| ==> r[i] != []
  {
    if loops == [] then []
    else Simplify(loops[..|loops| - 1]) + (if Last(loops) == [] then [] else [Thin(Last(loops))])
  }

  /** `s` occurs in `t` in order, possibly with gaps. */
  predicate Subsequence(s: seq<Point>, t: seq<Point>)
    decreases |t|
  {
    if s == [] then true
    else if t == [] then false
    else if s[0] == t[0] then Subsequence(s[1..], t[1..])
    else Subsequence(s, t[1..])
  }

  /** Points kept next to each other are farther apart than the tolerance. */
  predicate Spread(s: seq<Point>)
  {
    forall i :: 0 < i < |s| ==> SqDist(s[i - 1], s[i]) > Tolerance
  }

  lemma {:induction false} SubsequenceAppend(s: seq<Point>, t: seq<Point>, p: Point)
    requires Subsequence(s, t)
    ensures Subsequence(s, t + [p]) && Subsequence(s + [p], t + [p])
    decreases |t|
  {
    if s == [] {
      SubsequenceEmpty(t + [p]);
      SubsequenceSingle(t, p);
      assert s + [p] == [p];
    } else if s[0] == t[0] {
      SubsequenceAppend(s[1..], t[1..], p);
      assert (t + [p])[1..] == t[1..] + [p];
      assert (s + [p])[1..] == s[1..] + [p];
    } else {
      SubsequenceAppend(s, t[1..], p);
      assert (t + [p])[1..] == t[1..] + [p];
    }
  }

  lemma {:induction false} SubsequenceEmpty(t: seq<Point>)
    ensures Subsequence([], t)
  {
  }

  lemma {:induction false} SubsequenceSingle(t: seq<Point>, p: Point)
    ensures Subsequence([p], t + [p])
    decreases |t|
  {
    if t == [] {
      assert [p][1..] == [];
    } else if t[0] == p {
      assert (t + [p])[0] == p;
      SubsequenceEmpty((t + [p])[1..]);
      assert [p][1..] == [];
    } else {
      SubsequenceSingle(t[1..], p);
      assert (t + [p])[1..] == t[1..] + [p];
    }
  }

  lemma SpreadAppend(kept: seq<Point>, p: Point)
    requires kept != [] && Spread(kept) && SqDist(p, Last(kept)) > Tolerance
    ensures Spread(kept + [p])
  {
    var next := kept + [p];
    forall i | 0 < i < |next|
      ensures SqDist(next[i - 1], next[i]) > Tolerance
    {
      if i < |kept| {
        assert next[i - 1] == kept[i - 1] && next[i] == kept[i];
      } else {
        assert SqDist(next[i - 1], next[i]) == SqDist(p, Last(kept));
      }
    }
  }

  /** What `ThinFrom` keeps is a subsequence of what it has seen and keeps
      its points spread. */
  lemma {:induction false} ThinFromKeeps(kept: seq<Point>, seen: seq<Point>, rest: seq<Point>)
    requires kept != [] && Subsequence(kept, seen) && Spread(kept)
    ensures Subsequence(ThinFrom(kept, rest), seen + rest) && Spread(ThinFrom(kept, rest))
    decreases |rest|
  {
    if rest == [] {
      assert seen + rest == seen;
    } else {
      var p := rest[0];
      var next := if SqDist(p, Last(kept)) > Tolerance then kept + [p] else kept;
      SubsequenceAppend(kept, seen, p);
      assert Subsequence(next, seen + [p]);
      if SqDist(p, Last(kept)) > Tolerance {
        SpreadAppend(kept, p);
      }
      ThinFromKeeps(next, seen + [p], rest[1..]);
      assert seen + [p] + rest[1..] == seen + rest;
    }
  }

  /** A simplified loop keeps the first point, is a subsequence of the
      original loop, and has its neighbours farther apart than the
      tolerance. */
  lemma ThinProperties(orig: seq<Point>)
    requires orig != []
    ensures Thin(orig)[0] == orig[0]
    ensures Subsequence(Thin(orig), orig)
    ensures Spread(Thin(orig))
  {
    assert Subsequence([orig[0]], [orig[0]]) by { assert [orig[0]][1..] == []; }
    ThinFromKeeps([orig[0]], [orig[0]], orig[1..]);
    assert SqDist(orig[0], orig[0]) == 0.0;
    assert ThinFrom([orig[0]], orig) == ThinFrom([orig[0]], orig[1..]);
    assert [orig[0]] + orig[1..] == orig;
  }

  /** `end_path` drops exactly the empty loops and keeps the order of the
      others. */
  lemma {:induction false} SimplifyDropsEmpty(loops: seq<seq<Point>>)
    ensures |Simplify(loops)| == |NonEmpty(loops)|
    ensures forall i :: 0 <= i < |Simplify(loops)| ==> Simplify(loops)[i] == Thin(NonEmpty(loops)[i])
  {
    if loops != [] {
      SimplifyDropsEmpty(loops[..|loops| - 1]);
    }
  }

  /** The non-empty loops, in order. */
  function NonEmpty(loops: seq<seq<Point>>): (r: seq<seq<Point>>)
    ensures forall i :: 0 <= i < |r| ==> r[i] != []
  {
    if loops == [] then []
    else NonEmpty(loops[..|loops| - 1]) + (if Last(loops) == [] then [] else [Last(loops)])
  }
}
