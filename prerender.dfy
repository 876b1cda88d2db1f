/** The path builder of squirtle_core's `SVG_pre_render`, as the object the
    source makes it: the fields `x`, `y`, `loop`, `path`, `last_cx`/`last_cy`,
    `bezier_coefficients`, `paths` and the bounds are updated in place by the
    path helpers, the opcode loop, `end_path` and `calc_bounds`. Every method
    is proved to agree with the functions of `SvgPaths` and of this module.

    The styling code of `parse_element` (fill, stroke, opacity and the
    element's transform) is not part of this model: `fill`, `stroke` and
    `transform` are fields that it would have set. */
module SvgPreRender {
  import opened Outcomes
  import opened Tokens
  import opened SvgMatrix
  import opened SvgAttributes
  import opened SvgPaths

  /** One record of `paths`: the simplified outline (only when the element
      is stroked), the stroke, the triangles of the fill (only when it is
      filled), the fill and the transform in force. */
  datatype PathEntry = PathEntry(outline: Option<seq<seq<Point>>>, stroke: Paint,
                                 triangles: Option<seq<Point>>, fill: Paint, transform: Matrix)

  /** Python's truth value of a fill or stroke: None and the empty
      gradient id are false, a colour list is true. */
  predicate Truthy(p: Paint)
  {
    match p
    case NoPaint => false
    case PaintRef(id) => id != ""
    case Rgba(_, _, _, _) => true
  }

  /** The record `end_path` appends for a pen: the current loop joins the
      path, which is simplified; `triangulate` (the GLU tessellator) is a
      parameter. */
  function Entry(pen: Pen, fill: Paint, stroke: Paint, transform: Matrix,
                 triangulate: seq<seq<Point>> -> seq<Point>): (e: PathEntry)
    ensures e.outline.Some? <==> Truthy(stroke)
    ensures e.triangles.Some? <==> Truthy(fill)
    ensures e.outline.Some? ==> e.outline.value == Simplify(pen.path + [pen.loop])
  {
    var loops := Simplify(pen.path + [pen.loop]);
    PathEntry(if Truthy(stroke) then Some(loops) else None, stroke,
              if Truthy(fill) then Some(triangulate(loops)) else None, fill, transform)
  }

  // ---------------------------------------------------------------------
  // calc_bounds

  function Transformed(m: Matrix, pts: seq<Point>): (r: seq<Point>)
    ensures |r| == |pts| && forall i :: 0 <= i < |pts| ==> r[i] == Apply(m, pts[i])
  {
    seq(|pts|, i requires 0 <= i < |pts| => Apply(m, pts[i]))
  }

  /** The transformed points of the loops, loop after loop. */
  function Flatten(m: Matrix, loops: seq<seq<Point>>): seq<Point>
  {
    if loops == [] then [] else Flatten(m, loops[..|loops| - 1]) + Transformed(m, Last(loops))
  }

  function TriangleVertices(e: PathEntry): seq<Point>
  {
    if e.triangles.Some? then Transformed(e.transform, e.triangles.value) else []
  }

  function OutlineVertices(e: PathEntry): seq<Point>
  {
    if e.outline.Some? then Flatten(e.transform, e.outline.value) else []
  }

  /** The `vertexes` list of `calc_bounds`: for each record, its transformed
      triangles, then its transformed outline. */
  function Vertices(entries: seq<PathEntry>): seq<Point>
  {
    if entries == [] then []
    else Vertices(entries[..|entries| - 1]) + TriangleVertices(Last(entries)) + OutlineVertices(Last(entries))
  }

  function Xs(v: seq<Point>): (r: seq<real>)
    ensures |r| == |v| && forall i :: 0 <= i < |v| ==> r[i] == v[i].x
  {
    seq(|v|, i requires 0 <= i < |v| => v[i].x)
  }

  function Ys(v: seq<Point>): (r: seq<real>)
    ensures |r| == |v| && forall i :: 0 <= i < |v| ==> r[i] == v[i].y
  {
    seq(|v|, i requires 0 <= i < |v| => v[i].y)
  }

  /** Python's `min` of a non-empty list: a lower bound that occurs in it. */
  function Least(xs: seq<real>): (m: real)
    requires xs != []
    ensures forall i :: 0 <= i < |xs| ==> m <= xs[i]
    ensures exists i :: 0 <= i < |xs| && xs[i] == m
  {
    if |xs| == 1 then xs[0]
    else
      var rest := Least(xs[1..]);
      assert forall i :: 1 <= i < |xs| ==> xs[i] == xs[1..][i - 1];
      if xs[0] <= rest then xs[0] else rest
  }

  /** Python's `max` of a non-empty list: an upper bound that occurs in it. */
  function Greatest(xs: seq<real>): (m: real)
    requires xs != []
    ensures forall i :: 0 <= i < |xs| ==> xs[i] <= m
    ensures exists i :: 0 <= i < |xs| && xs[i] == m
  {
    if |xs| == 1 then xs[0]
    else
      var rest := Greatest(xs[1..]);
      assert forall i :: 1 <= i < |xs| ==> xs[i] == xs[1..][i - 1];
      if xs[0] >= rest then xs[0] else rest
  }

  /** The box from `minX` to `maxX` and `minY` to `maxY` holds every vertex,
      and each of its sides touches one. */
  predicate Bounded(v: seq<Point>, minX: real, maxX: real, minY: real, maxY: real)
  {
    (forall i :: 0 <= i < |v| ==> minX <= v[i].x <= maxX && minY <= v[i].y <= maxY)
    && (exists i :: 0 <= i < |v| && v[i].x == minX) && (exists i :: 0 <= i < |v| && v[i].x == maxX)
    && (exists i :: 0 <= i < |v| && v[i].y == minY) && (exists i :: 0 <= i < |v| && v[i].y == maxY)
  }

  lemma {:induction false} FlattenHolds(m: Matrix, loops: seq<seq<Point>>, j: nat, k: nat)
    requires j < |loops| && k < |loops[j]|
    ensures Apply(m, loops[j][k]) in Flatten(m, loops)
    decreases |loops|
  {
    var init := loops[..|loops| - 1];
    if j < |loops| - 1 {
      assert loops[j] == init[j];
      FlattenHolds(m, init, j, k);
    } else {
      assert Transformed(m, Last(loops))[k] == Apply(m, loops[j][k]);
    }
  }

  /** Every point of a stroked outline, transformed, is one of the vertices
      `calc_bounds` measures. */
  lemma {:induction false} OutlinePointCounted(entries: seq<PathEntry>, i: nat, j: nat, k: nat)
    requires i < |entries| && entries[i].outline.Some?
    requires j < |entries[i].outline.value| && k < |entries[i].outline.value[j]|
    ensures Apply(entries[i].transform, entries[i].outline.value[j][k]) in Vertices(entries)
    decreases |entries|
  {
    var init := entries[..|entries| - 1];
    if i < |entries| - 1 {
      assert entries[i] == init[i];
      OutlinePointCounted(init, i, j, k);
    } else {
      FlattenHolds(entries[i].transform, entries[i].outline.value, j, k);
    }
  }

  /** Every triangle vertex of a filled record, transformed, is one of the
      vertices `calc_bounds` measures. */
  lemma {:induction false} TrianglePointCounted(entries: seq<PathEntry>, i: nat, k: nat)
    requires i < |entries| && entries[i].triangles.Some? && k < |entries[i].triangles.value|
    ensures Apply(entries[i].transform, entries[i].triangles.value[k]) in Vertices(entries)
    decreases |entries|
  {
    var init := entries[..|entries| - 1];
    if i < |entries| - 1 {
      assert entries[i] == init[i];
      TrianglePointCounted(init, i, k);
    } else {
      assert TriangleVertices(entries[i])[k] == Apply(entries[i].transform, entries[i].triangles.value[k]);
    }
  }

  /** The extents `calc_bounds` stores: `min` and `max` of the
      coordinates. */
  datatype Extent = Extent(minX: real, maxX: real, minY: real, maxY: real)

  function ExtentOf(v: seq<Point>): Extent
    requires v != []
  {
    Extent(Least(Xs(v)), Greatest(Xs(v)), Least(Ys(v)), Greatest(Ys(v)))
  }

  /** `min` and `max` of the coordinates bound every vertex and are
      attained. */
  lemma ExtentBounds(v: seq<Point>)
    requires v != []
    ensures var e := ExtentOf(v);
            Bounded(v, e.minX, e.maxX, e.minY, e.maxY) && e.minX <= e.maxX && e.minY <= e.maxY
  {
    var xs, ys := Xs(v), Ys(v);
    var i0 :| 0 <= i0 < |xs| && xs[i0] == Least(xs);
    var i1 :| 0 <= i1 < |xs| && xs[i1] == Greatest(xs);
    var i2 :| 0 <= i2 < |ys| && ys[i2] == Least(ys);
    var i3 :| 0 <= i3 < |ys| && ys[i3] == Greatest(ys);
    assert v[i0].x == Least(xs) && v[i1].x == Greatest(xs) && v[i2].y == Least(ys) && v[i3].y == Greatest(ys);
  }

  // ---------------------------------------------------------------------
  // The rect, polyline, polygon and line elements

  /** `float(e.get(key))`: a missing attribute gives `float(None)`, a
      TypeError; text that is no number a ValueError. */
  function AttrFloat(attrs: map<string, string>, key: string, toFloat: string -> Option<real>): (r: Result<real>)
    ensures r.Ok? <==> key in attrs && toFloat(attrs[key]).Some?
    ensures r.Ok? ==> r.value == toFloat(attrs[key]).value
    ensures r.Err? ==> r.error == (if key in attrs then ValueError else TypeError)
  {
    if key !in attrs then Err(TypeError)
    else if toFloat(attrs[key]).None? then Err(ValueError)
    else Ok(toFloat(attrs[key]).value)
  }

  /** The outline of a rect: its corners in drawing order, back to the
      first. */
  function Corners(x: real, y: real, w: real, h: real): seq<Point>
  {
    [Point(x, y), Point(x + w, y), Point(x + w, y + h), Point(x, y + h), Point(x, y)]
  }

  /** The pen after a `rect` element; the attributes are read in the order
      x, y, height, width. */
  function RectPen(pen: Pen, attrs: map<string, string>, toFloat: string -> Option<real>): Result<Pen>
  {
    var x :- AttrFloat(attrs, "x", toFloat);
    var y :- AttrFloat(attrs, "y", toFloat);
    var h :- AttrFloat(attrs, "height", toFloat);
    var w :- AttrFloat(attrs, "width", toFloat);
    Ok(LineToAll(NewPen(pen), Corners(x, y, w, h)))
  }

  /** The pen after a `line` element. */
  function LinePen(pen: Pen, attrs: map<string, string>, toFloat: string -> Option<real>): Result<Pen>
  {
    var x1 :- AttrFloat(attrs, "x1", toFloat);
    var y1 :- AttrFloat(attrs, "y1", toFloat);
    var x2 :- AttrFloat(attrs, "x2", toFloat);
    var y2 :- AttrFloat(attrs, "y2", toFloat);
    Ok(LineToAll(NewPen(pen), [Point(x1, y1), Point(x2, y2)]))
  }

  /** `while pathdata: self.line_to(*pnext())` over the numbers of a
      `points` attribute. */
  function Lines(pen: Pen, data: seq<Token>): Result<Pen>
    decreases |data|
  {
    if data == [] then Ok(pen)
    else
      var q :- PNext(data);
      Lines(SetPos(pen, q.0), q.1)
  }

  /** The pen after a `polyline` (`closed` false) or `polygon` element. */
  function PolyPen(pen: Pen, data: seq<Token>, closed: bool): Result<Pen>
  {
    var p :- Lines(NewPen(pen), data);
    if closed then Close(p) else Ok(p)
  }

  /** A list of pairs draws one line to each pair, in order. */
  lemma {:induction false} LinesDrawPairs(pen: Pen, ds: seq<Point>)
    ensures Lines(pen, PairTokens(ds)) == Ok(LineToAll(pen, ds))
    decreases |ds|
  {
    if ds != [] {
      var data := PairTokens(ds);
      assert data[2..] == PairTokens(ds[1..]);
      assert PNext(data) == Ok((ds[0], data[2..]));
      LinesDrawPairs(SetPos(pen, ds[0]), ds[1..]);
      assert pen.loop + [ds[0]] + ds[1..] == pen.loop + ds;
    }
  }

  /** An odd count of numbers leaves one alone, and popping its partner
      raises IndexError. */
  lemma {:induction false} LinesOddCount(pen: Pen, data: seq<Token>)
    requires |data| % 2 == 1 && forall i :: 0 <= i < |data| ==> data[i].Number?
    ensures Lines(pen, data) == Err(IndexError)
    decreases |data|
  {
    if |data| > 1 {
      LinesOddCount(SetPos(pen, Point(data[0].v, data[1].v)), data[2..]);
    }
  }

  /** A polygon without points has no first point to close with. */
  lemma EmptyPolygon(pen: Pen)
    ensures PolyPen(pen, [], true) == Err(IndexError)
    ensures PolyPen(pen, [], false) == Ok(NewPen(pen))
  {
  }

  /** A polygon's outline is its points followed by the first again. */
  lemma PolygonCloses(pen: Pen, ds: seq<Point>)
    requires ds != []
    ensures var r := PolyPen(pen, PairTokens(ds), true);
            r.Ok? && r.value.path == [ds + [ds[0]]] && r.value.loop == []
  {
    LinesDrawPairs(NewPen(pen), ds);
    assert [] + ds == ds;
  }

  lemma KeepNext(kept: seq<Point>, rest: seq<Point>)
    requires kept != [] && rest != [] && SqDist(rest[0], Last(kept)) > Tolerance
    ensures ThinFrom(kept, rest) == ThinFrom(kept + [rest[0]], rest[1..])
  {
  }

  /** The thinning of `end_path` keeps every corner of a rect whose sides
      are longer than the tolerance. */
  lemma ThinCorners(x: real, y: real, w: real, h: real)
    requires w * w > Tolerance && h * h > Tolerance
    ensures Thin(Corners(x, y, w, h)) == Corners(x, y, w, h)
  {
    var c := Corners(x, y, w, h);
    assert SqDist(c[0], c[0]) == 0.0;
    assert SqDist(c[1], c[0]) == w * w;
    assert SqDist(c[2], c[1]) == h * h;
    assert SqDist(c[3], c[2]) == w * w;
    assert SqDist(c[4], c[3]) == h * h;
    var k1, k2, k3, k4 := c[..1], c[..2], c[..3], c[..4];
    assert k1 == [c[0]];
    assert ThinFrom(k1, c) == ThinFrom(k1, c[1..]);
    KeepNext(k1, c[1..]);
    assert k1 + [c[1]] == k2 && c[1..][1..] == c[2..];
    KeepNext(k2, c[2..]);
    assert k2 + [c[2]] == k3 && c[2..][1..] == c[3..];
    KeepNext(k3, c[3..]);
    assert k3 + [c[3]] == k4 && c[3..][1..] == c[4..];
    KeepNext(k4, c[4..]);
    assert k4 + [c[4]] == c && c[4..][1..] == [];
    assert Thin(c) == c;
  }

  /** A rect whose sides are longer than the tolerance keeps all five
      corners when `end_path` simplifies it. */
  lemma RectKeepsCorners(pen: Pen, x: real, y: real, w: real, h: real)
    requires w * w > Tolerance && h * h > Tolerance
    ensures Simplify([] + [LineToAll(NewPen(pen), Corners(x, y, w, h)).loop]) == [Corners(x, y, w, h)]
  {
    var c := Corners(x, y, w, h);
    ThinCorners(x, y, w, h);
    assert [] + c == c;
    assert [] + [LineToAll(NewPen(pen), c).loop] == [c];
    assert Simplify([c]) == Simplify([]) + [Thin(c)];
  }

  // ---------------------------------------------------------------------
  // The builder object

  class PreRender {
    /** `bezier_points`, `arc_to` and `int()`. */
    const env: Env
    /** The GLU tessellator of `triangulate`. */
    const triangulate: seq<seq<Point>> -> seq<Point>
    /** Python's `float()` of an attribute's text. */
    const toFloat: string -> Option<real>

    var x: real
    var y: real
    var loop: seq<Point>
    var path: seq<seq<Point>>
    /** `last_cx`, `last_cy`: absent until the first curve. */
    var lastC: Option<Point>
    /** The messages of `warn`, one per unrecognised opcode. */
    var warnings: seq<Token>
    /** `bezier_coefficients`, computed by the first curve. */
    var coefficients: seq<Weights>
    var paths: seq<PathEntry>
    var fill: Paint
    var stroke: Paint
    var transform: Matrix
    var minX: real
    var maxX: real
    var minY: real
    var maxY: real
    /** `_width` and `_height`. */
    var width: real
    var height: real

    /** The drawing state, as the functions of `SvgPaths` see it. */
    function Current(): Pen
      reads this
    {
      Pen(x, y, loop, path, lastC, warnings)
    }

    /** The coefficient cache is empty or holds the weights of
        `bezier_points`. */
    predicate Valid()
      reads this
    {
      coefficients == [] || (env.bezierPoints > 0 && coefficients == Coefficients(env.bezierPoints).value)
    }

    /** The outcome of a helper that may raise agrees with its function. */
    predicate Matches(r: Result<()>, s: Result<Pen>)
      reads this
    {
      r.Ok? == s.Ok? && (r.Ok? ==> Current() == s.value) && (r.Err? ==> r.error == s.error)
    }

    /** The same, for a helper that also consumes path data. */
    predicate MatchesRest(r: Result<seq<Token>>, s: Result<(Pen, seq<Token>)>)
      reads this
    {
      r.Ok? == s.Ok? && (r.Ok? ==> s.value == (Current(), r.value)) && (r.Err? ==> r.error == s.error)
    }

    constructor(env: Env, triangulate: seq<seq<Point>> -> seq<Point>, toFloat: string -> Option<real>,
                fill: Paint, stroke: Paint, transform: Matrix)
      ensures Valid() && coefficients == [] && paths == []
      ensures Current() == Pen(0.0, 0.0, [], [], None, [])
      ensures this.env == env && this.triangulate == triangulate && this.toFloat == toFloat
      ensures this.fill == fill && this.stroke == stroke && this.transform == transform
    {
      this.env := env;
      this.triangulate := triangulate;
      this.toFloat := toFloat;
      this.fill := fill;
      this.stroke := stroke;
      this.transform := transform;
      x, y, loop, path, lastC, warnings := 0.0, 0.0, [], [], None, [];
      coefficients, paths := [], [];
    }

    method NewPath()
      modifies this`x, this`y, this`loop, this`path
      ensures Current() == NewPen(old(Current()))
    {
      x, y := 0.0, 0.0;
      path := [];
      loop := [];
    }

    method SetPosition(p: Point)
      modifies this`x, this`y, this`loop
      ensures Current() == SetPos(old(Current()), p)
    {
      x, y := p.x, p.y;
      loop := loop + [p];
    }

    method LineTo(p: Point)
      modifies this`x, this`y, this`loop
      ensures Current() == SetPos(old(Current()), p)
    {
      SetPosition(p);
    }

    method SetRelativePosition(d: Point)
      modifies this`x, this`y, this`loop
      ensures Current() == SetRelPos(old(Current()), d)
    {
      SetPosition(Point(x + d.x, y + d.y));
    }

    /** `rel_to_abs(dx, dy)`: the point `d` away from the current one. */
    method RelToAbs(d: Point) returns (p: Point)
      ensures p.x - x == d.x && p.y - y == d.y
    {
      p := Point(x + d.x, y + d.y);
    }

    method ClosePath() returns (r: Result<()>)
      modifies this`loop, this`path
      ensures Matches(r, Close(old(Current())))
    {
      if loop == [] {
        return Err(IndexError);
      }
      loop := loop + [loop[0]];
      path := path + [loop];
      loop := [];
      return Ok(());
    }

    /** `warn(...)`: the message is kept, nothing else changes. */
    method WarnAbout(opcode: Token)
      modifies this`warnings
      ensures Current() == Warn(old(Current()), opcode)
    {
      warnings := warnings + [opcode];
    }

    /** The first loop of `curve_to`: the weights at i/n for i in 0..n. */
    static method ComputeCoefficients(n: int) returns (ws: seq<Weights>)
      requires n != 0
      ensures ws == Coefficients(n).value
    {
      ws := [];
      var i := 0;
      while i < n + 1
        invariant 0 <= i && (n < 0 ==> i == 0) && (n > 0 ==> i <= n + 1)
        invariant |ws| == i && forall k :: 0 <= k < i ==> ws[k] == WeightsAt(k as real / n as real)
      {
        var t := i as real / n as real;
        ws := ws + [Weights((1.0 - t) * (1.0 - t) * (1.0 - t), 3.0 * t * (1.0 - t) * (1.0 - t),
                            3.0 * t * t * (1.0 - t), t * t * t)];
        i := i + 1;
      }
    }

    /** `curve_to`: the weights are computed once and cached, then one
        point per weight is appended. */
    method CurveTo(c1: Point, c2: Point, end: Point) returns (r: Result<()>)
      requires Valid()
      modifies this`x, this`y, this`loop, this`lastC, this`coefficients
      ensures Valid()
      ensures Matches(r, Curve(old(Current()), env.bezierPoints, c1, c2, end))
    {
      var n := env.bezierPoints;
      if coefficients == [] {
        if n == 0 {
          return Err(ZeroDivisionError);
        }
        coefficients := ComputeCoefficients(n);
      }
      lastC := Some(c2);
      if coefficients == [] {
        return Err(NameError);
      }
      ghost var before := Current();
      var last := AppendCurve(coefficients, Point(x, y), c1, c2, end);
      x, y := last.x, last.y;
      assert Current() == LineToAll(before, BezierPoints(coefficients, Position(before), c1, c2, end));
      return Ok(());
    }

    /** The second loop of `curve_to`: one point per weight joins the loop;
        the last one is returned. */
    method AppendCurve(ws: seq<Weights>, p0: Point, c1: Point, c2: Point, end: Point) returns (last: Point)
      requires ws != []
      modifies this`loop
      ensures loop == old(loop) + BezierPoints(ws, p0, c1, c2, end)
      ensures last == Last(BezierPoints(ws, p0, c1, c2, end))
    {
      var pts := BezierPoints(ws, p0, c1, c2, end);
      var i := 0;
      last := p0;
      while i < |ws|
        invariant 0 <= i <= |ws|
        invariant loop == old(loop) + pts[..i]
        invariant i > 0 ==> last == pts[i - 1]
      {
        var w := ws[i];
        last := Point(w.w0 * p0.x + w.w1 * c1.x + w.w2 * c2.x + w.w3 * end.x,
                      w.w0 * p0.y + w.w1 * c1.y + w.w2 * c2.y + w.w3 * end.y);
        assert last == pts[i];
        loop := loop + [last];
        assert pts[..i + 1] == pts[..i] + [pts[i]];
        i := i + 1;
      }
      assert pts[..i] == pts;
    }

    /** `arc_to`: the points of the arc are drawn with `line_to`. */
    method ArcTo(radii: Point, phi: real, large: int, sweep: int, end: Point) returns (r: Result<()>)
      modifies this`x, this`y, this`loop
      ensures Matches(r, Arc(old(Current()), radii, phi, large, sweep, end, env))
    {
      var pts :- env.arc(ArcCall(Point(x, y), radii.x, radii.y, phi, large, sweep, end));
      ghost var start := Current();
      var i := 0;
      while i < |pts|
        invariant 0 <= i <= |pts|
        invariant Current() == LineToAll(start, pts[..i])
      {
        LineTo(pts[i]);
        assert pts[..i + 1] == pts[..i] + [pts[i]];
        i := i + 1;
      }
      assert pts[..i] == pts;
      return Ok(());
    }

    /** The pairs after an `m`, drawn as relative lines. */
    method MoveTailLoop(data: seq<Token>) returns (r: Result<seq<Token>>)
      modifies this`x, this`y, this`loop
      ensures MatchesRest(r, MoveTail(old(Current()), data))
    {
      var rest := data;
      while !OpcodeFollows(rest)
        invariant MoveTail(Current(), rest) == MoveTail(old(Current()), data)
        decreases |rest|
      {
        var q :- PNext(rest);
        SetRelativePosition(q.0);
        rest := q.1;
      }
      return Ok(rest);
    }

    /** The pairs after a corrected `M`, drawn as absolute lines. */
    method AbsoluteTailLoop(data: seq<Token>) returns (r: Result<seq<Token>>)
      modifies this`x, this`y, this`loop
      ensures MatchesRest(r, MoveAbsTail(old(Current()), data))
    {
      var rest := data;
      while !OpcodeFollows(rest)
        invariant MoveAbsTail(Current(), rest) == MoveAbsTail(old(Current()), data)
        decreases |rest|
      {
        var q :- PNext(rest);
        LineTo(q.0);
        rest := q.1;
      }
      return Ok(rest);
    }

    /** `c`: relative curves until a command letter follows. */
    method RelativeCurves(data: seq<Token>) returns (r: Result<seq<Token>>)
      requires Valid()
      modifies this`x, this`y, this`loop, this`lastC, this`coefficients
      ensures Valid()
      ensures MatchesRest(r, RelCurves(old(Current()), data, env))
    {
      var rest := data;
      while true
        invariant Valid()
        invariant RelCurves(Current(), rest, env) == RelCurves(old(Current()), data, env)
        decreases |rest|
      {
        var m := Point(x, y);
        var a :- PNext(rest);
        var b :- PNext(a.1);
        var e :- PNext(b.1);
        var c := CurveTo(Offset(m, a.0), Offset(m, b.0), Offset(m, e.0));
        if c.Err? {
          return Err(c.error);
        }
        rest := e.1;
        if OpcodeFollows(rest) {
          return Ok(rest);
        }
      }
    }

    /** `a`: relative arcs until a command letter follows. */
    method RelativeArcs(data: seq<Token>) returns (r: Result<seq<Token>>)
      modifies this`x, this`y, this`loop
      ensures MatchesRest(r, RelArcs(old(Current()), data, env))
    {
      var rest := data;
      while true
        invariant RelArcs(Current(), rest, env) == RelArcs(old(Current()), data, env)
        decreases |rest|
      {
        var args :- ArcArgs(rest, env);
        var end := RelToAbs(args.4);
        var c := ArcTo(args.0, args.1, args.2, args.3, end);
        if c.Err? {
          return Err(c.error);
        }
        rest := args.5;
        if OpcodeFollows(rest) {
          return Ok(rest);
        }
      }
    }

    /** `C`, `S` and `s`: one curve. */
    method OneCurve(opcode: char, data: seq<Token>) returns (r: Result<seq<Token>>)
      requires Valid() && opcode in "CSs"
      modifies this`x, this`y, this`loop, this`lastC, this`coefficients
      ensures Valid()
      ensures MatchesRest(r, Command(old(Current()), Letter(opcode), data, 0, env))
    {
      var m := Point(x, y);
      var c1: Point;
      var rest := data;
      if opcode == 'C' {
        var a :- PNext(rest);
        c1, rest := a.0, a.1;
      } else {
        c1 :- Reflected(Current());
      }
      var b :- PNext(rest);
      var e :- PNext(b.1);
      var c2, end := b.0, e.0;
      if opcode == 's' {
        c2, end := Offset(m, b.0), Offset(m, e.0);
      }
      var c := CurveTo(c1, c2, end);
      if c.Err? {
        return Err(c.error);
      }
      return Ok(e.1);
    }

    /** One pass of the `while pathdata` loop, after the opcode was popped. */
    method DoCommand(opcode: Token, data: seq<Token>, opnum: nat) returns (r: Result<seq<Token>>)
      requires Valid()
      modifies this`x, this`y, this`loop, this`path, this`lastC, this`warnings, this`coefficients
      ensures Valid()
      ensures MatchesRest(r, Command(old(Current()), opcode, data, opnum, env))
    {
      if opcode.Number? {
        WarnAbout(opcode);
        return Ok(data);
      }
      var c := opcode.c;
      if c == 'M' || c == 'L' {
        var q :- PNext(data);
        SetPosition(q.0);
        return Ok(q.1);
      } else if c == 'm' {
        var q :- PNext(data);
        if opnum == 0 {
          SetPosition(q.0);
        } else {
          SetRelativePosition(q.0);
        }
        r := MoveTailLoop(q.1);
      } else if c == 'C' || c == 'S' || c == 's' {
        r := OneCurve(c, data);
      } else if c == 'c' {
        r := RelativeCurves(data);
      } else if c == 'A' {
        var args :- ArcArgs(data, env);
        var done := ArcTo(args.0, args.1, args.2, args.3, args.4);
        if done.Err? {
          return Err(done.error);
        }
        return Ok(args.5);
      } else if c == 'a' {
        r := RelativeArcs(data);
      } else if c == 'z' || c == 'Z' {
        var done := ClosePath();
        if done.Err? {
          return Err(done.error);
        }
        return Ok(data);
      } else if c == 'l' {
        var q :- PNext(data);
        LineTo(Point(x + q.0.x, y + q.0.y));
        return Ok(q.1);
      } else if c == 'H' || c == 'h' || c == 'V' || c == 'v' {
        var v :- PopFloat(data);
        var p := if c == 'H' then Point(v.0, y)
                 else if c == 'h' then Point(x + v.0, y)
                 else if c == 'V' then Point(x, v.0)
                 else Point(x, y + v.0);
        LineTo(p);
        return Ok(v.1);
      } else {
        WarnAbout(opcode);
        return Ok(data);
      }
    }

    /** `end_path`: the loop joins the path, the path is simplified and
        recorded with the style in force, and the working path is emptied;
        the loop itself is left as it was. */
    method EndPath()
      modifies this`path, this`paths
      ensures paths == old(paths) + [Entry(old(Current()), fill, stroke, transform, triangulate)]
      ensures path == [] && loop == old(loop)
    {
      path := path + [loop];
      var out: seq<seq<Point>> := [];
      var i := 0;
      while i < |path|
        invariant 0 <= i <= |path|
        invariant out == Simplify(path[..i])
      {
        var orig := path[i];
        assert path[..i + 1][..i] == path[..i];
        if orig != [] {
          var kept := [orig[0]];
          var j := 0;
          while j < |orig|
            invariant 0 <= j <= |orig| && kept != []
            invariant ThinFrom(kept, orig[j..]) == Thin(orig)
          {
            assert orig[j..][1..] == orig[j + 1..];
            if SqDist(orig[j], Last(kept)) > Tolerance {
              kept := kept + [orig[j]];
            }
            j := j + 1;
          }
          out := out + [kept];
        }
        i := i + 1;
      }
      assert path[..i] == path;
      paths := paths + [PathEntry(if Truthy(stroke) then Some(out) else None, stroke,
                                  if Truthy(fill) then Some(triangulate(out)) else None, fill, transform)];
      path := [];
    }

    /** A `path` element: `new_path`, the opcode loop over its data, and
        `end_path`. */
    method PathElement(data: seq<Token>) returns (r: Result<()>)
      requires Valid()
      modifies this`x, this`y, this`loop, this`path, this`lastC, this`warnings, this`coefficients, this`paths
      ensures Valid()
      ensures PathData(old(Current()), data, env).Ok? == r.Ok?
      ensures r.Err? ==> r.error == PathData(old(Current()), data, env).error
      ensures r.Ok? ==> Current() == PathData(old(Current()), data, env).value.(path := [])
      ensures r.Ok? ==> paths == old(paths) + [Entry(PathData(old(Current()), data, env).value, fill, stroke, transform, triangulate)]
    {
      NewPath();
      var rest := data;
      var opnum: nat := 0;
      while rest != []
        invariant Valid() && paths == old(paths)
        invariant Run(Current(), rest, opnum, env) == PathData(old(Current()), data, env)
        decreases |rest|
      {
        var next := DoCommand(rest[0], rest[1..], opnum);
        if next.Err? {
          return Err(next.error);
        }
        rest := next.value;
        opnum := opnum + 1;
      }
      EndPath();
      return Ok(());
    }

    /** Draw `pts` with `set_position` for the first and `line_to` for the
        rest, then record the outline. */
    method DrawAndEnd(pts: seq<Point>)
      modifies this`x, this`y, this`loop, this`path, this`paths
      ensures paths == old(paths) + [Entry(LineToAll(NewPen(old(Current())), pts), fill, stroke, transform, triangulate)]
      ensures Current() == LineToAll(NewPen(old(Current())), pts).(path := [])
    {
      NewPath();
      ghost var start := Current();
      var i := 0;
      while i < |pts|
        invariant 0 <= i <= |pts|
        invariant Current() == LineToAll(start, pts[..i]) && paths == old(paths)
      {
        LineTo(pts[i]);
        assert pts[..i + 1] == pts[..i] + [pts[i]];
        i := i + 1;
      }
      assert pts[..i] == pts;
      EndPath();
    }

    /** A `rect` element. */
    method RectElement(attrs: map<string, string>) returns (r: Result<()>)
      modifies this`x, this`y, this`loop, this`path, this`paths
      ensures RectPen(old(Current()), attrs, toFloat).Ok? == r.Ok?
      ensures r.Err? ==> r.error == RectPen(old(Current()), attrs, toFloat).error
      ensures r.Ok? ==> paths == old(paths) + [Entry(RectPen(old(Current()), attrs, toFloat).value, fill, stroke, transform, triangulate)]
      ensures r.Ok? ==> Current() == RectPen(old(Current()), attrs, toFloat).value.(path := [])
      ensures r.Err? ==> Current() == old(Current()) && paths == old(paths)
    {
      var x0 :- AttrFloat(attrs, "x", toFloat);
      var y0 :- AttrFloat(attrs, "y", toFloat);
      var h :- AttrFloat(attrs, "height", toFloat);
      var w :- AttrFloat(attrs, "width", toFloat);
      DrawAndEnd(Corners(x0, y0, w, h));
      return Ok(());
    }

    /** A `line` element. */
    method LineElement(attrs: map<string, string>) returns (r: Result<()>)
      modifies this`x, this`y, this`loop, this`path, this`paths
      ensures LinePen(old(Current()), attrs, toFloat).Ok? == r.Ok?
      ensures r.Err? ==> r.error == LinePen(old(Current()), attrs, toFloat).error
      ensures r.Ok? ==> paths == old(paths) + [Entry(LinePen(old(Current()), attrs, toFloat).value, fill, stroke, transform, triangulate)]
      ensures r.Ok? ==> Current() == LinePen(old(Current()), attrs, toFloat).value.(path := [])
      ensures r.Err? ==> Current() == old(Current()) && paths == old(paths)
    {
      var x1 :- AttrFloat(attrs, "x1", toFloat);
      var y1 :- AttrFloat(attrs, "y1", toFloat);
      var x2 :- AttrFloat(attrs, "x2", toFloat);
      var y2 :- AttrFloat(attrs, "y2", toFloat);
      DrawAndEnd([Point(x1, y1), Point(x2, y2)]);
      return Ok(());
    }

    /** A `polyline` (`closed` false) or `polygon` element over the numbers
        of its `points` attribute. */
    method PolyElement(data: seq<Token>, closed: bool) returns (r: Result<()>)
      modifies this`x, this`y, this`loop, this`path, this`paths
      ensures PolyPen(old(Current()), data, closed).Ok? == r.Ok?
      ensures r.Err? ==> r.error == PolyPen(old(Current()), data, closed).error
      ensures r.Ok? ==> paths == old(paths) + [Entry(PolyPen(old(Current()), data, closed).value, fill, stroke, transform, triangulate)]
      ensures r.Ok? ==> Current() == PolyPen(old(Current()), data, closed).value.(path := [])
      ensures r.Err? ==> paths == old(paths)
    {
      NewPath();
      var rest := data;
      while rest != []
        invariant paths == old(paths)
        invariant PolyPen(old(Current()), data, closed)
               == (var p :- Lines(Current(), rest); if closed then Close(p) else Ok(p))
        decreases |rest|
      {
        var q :- PNext(rest);
        LineTo(q.0);
        rest := q.1;
      }
      if closed {
        var done := ClosePath();
        if done.Err? {
          return Err(done.error);
        }
      }
      EndPath();
      return Ok(());
    }

    /** The loop of `calc_bounds` over the loops of one outline. */
    static method AppendLoops(vertexes: seq<Point>, m: Matrix, loops: seq<seq<Point>>) returns (r: seq<Point>)
      ensures r == vertexes + Flatten(m, loops)
    {
      r := vertexes;
      var j := 0;
      while j < |loops|
        invariant 0 <= j <= |loops| && r == vertexes + Flatten(m, loops[..j])
      {
        assert loops[..j + 1][..j] == loops[..j];
        r := r + Transformed(m, loops[j]);
        j := j + 1;
      }
      assert loops[..j] == loops;
    }

    /** The vertices of one more record follow those of the records
        before it. */
    static lemma VerticesStep(paths: seq<PathEntry>, i: nat)
      requires i < |paths|
      ensures Vertices(paths[..i + 1]) == Vertices(paths[..i]) + TriangleVertices(paths[i]) + OutlineVertices(paths[i])
    {
      assert paths[..i + 1][..i] == paths[..i];
    }

    /** The vertex loop of `calc_bounds`. */
    static method CollectVertices(paths: seq<PathEntry>) returns (vertexes: seq<Point>)
      ensures vertexes == Vertices(paths)
    {
      vertexes := [];
      var i := 0;
      while i < |paths|
        invariant 0 <= i <= |paths| && vertexes == Vertices(paths[..i])
      {
        var e := paths[i];
        VerticesStep(paths, i);
        var before := vertexes;
        if e.triangles.Some? && e.triangles.value != [] {
          vertexes := vertexes + Transformed(e.transform, e.triangles.value);
        }
        assert vertexes == before + TriangleVertices(e);
        var middle := vertexes;
        if e.outline.Some? && e.outline.value != [] {
          vertexes := AppendLoops(vertexes, e.transform, e.outline.value);
        }
        assert vertexes == middle + OutlineVertices(e);
        i := i + 1;
      }
      assert paths[..i] == paths;
    }

    /** `calc_bounds`: the extents of every transformed vertex of every
        record; with no vertex at all `min` raises ValueError. */
    method CalcBounds() returns (r: Result<()>)
      modifies this`minX, this`maxX, this`minY, this`maxY, this`width, this`height
      ensures r.Ok? <==> Vertices(paths) != []
      ensures r.Err? ==> r.error == ValueError
      ensures r.Ok? ==> Bounded(Vertices(paths), minX, maxX, minY, maxY)
      ensures r.Ok? ==> width == maxX - minX >= 0.0 && height == maxY - minY >= 0.0
    {
      var vertexes := CollectVertices(paths);
      if vertexes == [] {
        return Err(ValueError);
      }
      var e := Extents(vertexes);
      minX, maxX, minY, maxY := e.minX, e.maxX, e.minY, e.maxY;
      width, height := e.maxX - e.minX, e.maxY - e.minY;
      return Ok(());
    }

    /** The `min` and `max` calls of `calc_bounds`. */
    static method Extents(vertexes: seq<Point>) returns (e: Extent)
      requires vertexes != []
      ensures Bounded(vertexes, e.minX, e.maxX, e.minY, e.maxY)
      ensures e.minX <= e.maxX && e.minY <= e.maxY
    {
      e := ExtentOf(vertexes);
      ExtentBounds(vertexes);
    }
  }
}
