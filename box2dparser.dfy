/** svg_box2d_parser's `SVGBox2dParser`: the physics of a level is drawn in
    its SVG file, and the parser turns the rects and the arcs of every group
    labelled `physics:...` into Box2D bodies.

    The document arrives as a tree (the minidom loading is not part of this
    model). The `squirtle` module the parser imports is taken to be
    squirtle_core, so its `Matrix` is `SvgMatrix`. Python's `float()`, the
    number tokeniser of the transform attribute, `math.asin` and
    `math.sqrt` are parameters; the domain errors of the last two are
    written out. */
module SvgBox2dParser {
  import opened Outcomes
  import opened Tokens
  import opened SvgMatrix
  import opened SvgAttributes
  import opened PhysicsWorld

  /** An element: its tag, its attributes and its child nodes. */
  datatype Node = Node(name: string, attrs: map<string, string>, children: seq<Node>)

  /** `float()`, the tokeniser of number lists, `asin` and `sqrt`. */
  datatype Reader = Reader(toFloat: string -> Option<real>, numbers: string -> seq<Token>,
                           asin: real -> real, sqrt: real -> real)

  /** minidom's `getAttribute`: the empty string when the attribute is
      absent. */
  function Attr(n: Node, key: string): string
  {
    if key in n.attrs then n.attrs[key] else ""
  }

  /** `float(node.getAttribute(key))`. */
  function AttrNumber(n: Node, key: string, rd: Reader): (r: Result<real>)
    ensures r.Ok? <==> rd.toFloat(Attr(n, key)).Some?
    ensures r.Err? ==> r.error == ValueError
  {
    var v := rd.toFloat(Attr(n, key));
    if v.None? then Err(ValueError) else Ok(v.value)
  }

  /** `math.asin`, which raises ValueError outside [-1, 1]. */
  function Asin(v: real, rd: Reader): (r: Result<real>)
    ensures r.Ok? <==> -1.0 <= v <= 1.0
  {
    if -1.0 <= v <= 1.0 then Ok(rd.asin(v)) else Err(ValueError)
  }

  /** `math.sqrt`, which raises ValueError below 0. */
  function Sqrt(v: real, rd: Reader): (r: Result<real>)
    ensures r.Ok? <==> v >= 0.0
  {
    if v >= 0.0 then Ok(rd.sqrt(v)) else Err(ValueError)
  }

  /** `parse_transform(node.getAttribute('transform'))`. */
  function NodeTransform(n: Node, rd: Reader): Result<Matrix>
  {
    FromString(Attr(n, "transform"), rd.numbers)
  }

  /** The matrix of a rect or an arc: the transform in force, then the
      node's own, then a translation to `(x, y)`. */
  function Placement(base: Matrix, n: Node, x: real, y: real, rd: Reader): Result<Matrix>
  {
    var t :- NodeTransform(n, rd);
    Ok(Mul(Mul(base, t), Translate(x, y)))
  }

  /** The body `parse_rect` creates: the rect's corner, mirrored against
      the document height and scaled from pixels to metres, a box of half
      its size centred on its middle, and a mass only when the group is
      dynamic. */
  function RectBody(n: Node, base: Matrix, svgHeight: real, ratio: real, isStatic: bool, rd: Reader): Result<Body>
    requires ratio != 0.0
  {
    var width :- AttrNumber(n, "width", rd);
    var height :- AttrNumber(n, "height", rd);
    var x :- AttrNumber(n, "x", rd);
    var y :- AttrNumber(n, "y", rd);
    var m :- Placement(base, n, x, y, rd);
    var angle :- Asin(-m.c, rd);
    var w, h := width / ratio, height / ratio;
    Ok(Body(Point(m.e / ratio, (svgHeight - m.f - height) / ratio), -angle,
            [Box(w / 2.0, h / 2.0, Point(w / 2.0, h / 2.0), 0.0, None, None)],
            if isStatic then 0 else 1))
  }

  /** The body `parse_path` creates: only for an Inkscape arc, a circle at
      its mirrored, scaled centre whose radius is the geometric mean of
      the two radii. The mass is never set. */
  function ArcBody(n: Node, base: Matrix, svgHeight: real, ratio: real, rd: Reader): Result<Option<Body>>
    requires ratio != 0.0
  {
    if Attr(n, "sodipodi:type") != "arc" then Ok(None)
    else
      var cx :- AttrNumber(n, "sodipodi:cx", rd);
      var cy :- AttrNumber(n, "sodipodi:cy", rd);
      var rx :- AttrNumber(n, "sodipodi:rx", rd);
      var ry :- AttrNumber(n, "sodipodi:ry", rd);
      var m :- Placement(base, n, cx, cy, rd);
      var circle :- ArcCircle(rx, ry, ratio, rd);
      Ok(Some(Body(Point(m.e / ratio, (svgHeight - m.f) / ratio), 0.0, [circle], 0)))
  }

  /** The circle of an arc: the geometric mean of its radii, in metres. */
  function ArcCircle(rx: real, ry: real, ratio: real, rd: Reader): (r: Result<Shape>)
    requires ratio != 0.0
    ensures r.Ok? <==> rx * ry >= 0.0
    ensures r.Ok? ==> r.value == Circle(Sqrt(rx * ry, rd).value / ratio)
  {
    var root :- Sqrt(rx * ry, rd);
    Ok(Circle(root / ratio))
  }

  /** What one child of a physics group adds: `rect` and `path` children
      are parsed, a `g` child goes to `parse_group`, which does nothing, and
      any other node is skipped. */
  function ChildBodies(c: Node, base: Matrix, svgHeight: real, ratio: real, isStatic: bool, rd: Reader): Result<seq<Body>>
    requires ratio != 0.0
  {
    if c.name == "rect" then
      var b :- RectBody(c, base, svgHeight, ratio, isStatic, rd);
      Ok([b])
    else if c.name == "path" then
      var b :- ArcBody(c, base, svgHeight, ratio, rd);
      Ok(if b.Some? then [b.value] else [])
    else Ok([])
  }

  /** The bodies already created, followed by what the rest adds. */
  function Then(done: seq<Body>, rest: Result<seq<Body>>): Result<seq<Body>>
  {
    if rest.Ok? then Ok(done + rest.value) else rest
  }

  /** `parse_elements`: the children in order; the first error ends it. */
  function ElementBodies(cs: seq<Node>, base: Matrix, svgHeight: real, ratio: real, isStatic: bool, rd: Reader): Result<seq<Body>>
    requires ratio != 0.0
    decreases |cs|
  {
    if cs == [] then Ok([])
    else
      var first :- ChildBodies(cs[0], base, svgHeight, ratio, isStatic, rd);
      Then(first, ElementBodies(cs[1..], base, svgHeight, ratio, isStatic, rd))
  }

  const PhysicsPrefix: string := "physics:"

  /** A group is a physics group when its label starts with `physics:`. */
  predicate IsPhysics(tag: string)
  {
    PhysicsPrefix <= tag
  }

  /** Splitting at a first separator gives the text before it, then the
      pieces of the text after it. */
  lemma {:induction false} SplitAt(p: string, t: string, sep: char)
    requires sep !in p
    ensures Split(p + [sep] + t, sep) == [p] + Split(t, sep)
    decreases |p|
  {
    if p == [] {
      assert p + [sep] + t == [sep] + t;
      assert ([sep] + t)[1..] == t;
    } else {
      SplitAt(p[1..], t, sep);
      assert (p + [sep] + t)[1..] == p[1..] + [sep] + t;
      assert [p[0]] + p[1..] == p;
    }
  }

  /** `label.split(':')[1] == 'static'`. */
  predicate IsStatic(tag: string)
    requires IsPhysics(tag)
  {
    SplitAt("physics", tag[|PhysicsPrefix|..], ':');
    assert tag == "physics" + [':'] + tag[|PhysicsPrefix|..];
    Split(tag, ':')[1] == "static"
  }

  /** A physics group is static exactly when the text after `physics:`, up
      to the next colon, is `static`. */
  lemma StaticSegment(tag: string)
    requires IsPhysics(tag)
    ensures IsStatic(tag) <==> Split(tag[|PhysicsPrefix|..], ':')[0] == "static"
  {
    SplitAt("physics", tag[|PhysicsPrefix|..], ':');
    assert tag == "physics" + [':'] + tag[|PhysicsPrefix|..];
  }

  /** `parse_main_group`: a physics group's children are parsed under the
      transform in force times the group's own; other groups add nothing. */
  function GroupBodies(g: Node, base: Matrix, svgHeight: real, ratio: real, rd: Reader): Result<seq<Body>>
    requires ratio != 0.0
  {
    var tag := Attr(g, "inkscape:label");
    if !IsPhysics(tag) then Ok([])
    else
      var t :- NodeTransform(g, rd);
      ElementBodies(g.children, Mul(base, t), svgHeight, ratio, IsStatic(tag), rd)
  }

  /** `getElementsByTagName('g')`: every `g` below the nodes, in document
      order. */
  function GroupsIn(ns: seq<Node>): seq<Node>
    decreases ns
  {
    if ns == [] then []
    else (if ns[0].name == "g" then [ns[0]] else []) + GroupsIn(ns[0].children) + GroupsIn(ns[1..])
  }

  /** The group loop of `parse`: every group under the same transform. */
  function AllGroupBodies(gs: seq<Node>, base: Matrix, svgHeight: real, ratio: real, rd: Reader): Result<seq<Body>>
    requires ratio != 0.0
    decreases |gs|
  {
    if gs == [] then Ok([])
    else
      var first :- GroupBodies(gs[0], base, svgHeight, ratio, rd);
      Then(first, AllGroupBodies(gs[1..], base, svgHeight, ratio, rd))
  }

  /** `parse` on the `svg` element: its width and height, then every group
      below it. */
  function DocumentBodies(main: Node, base: Matrix, ratio: real, rd: Reader): Result<seq<Body>>
    requires ratio != 0.0
  {
    var width :- AttrNumber(main, "width", rd);
    var height :- AttrNumber(main, "height", rd);
    AllGroupBodies(GroupsIn(main.children), base, height, ratio, rd)
  }

  // ---------------------------------------------------------------------
  // Properties

  /** A rect's body sits at the image of its corner `(x, y)`, mirrored so
      that y grows upwards and lowered by its height, in metres; its angle
      is minus `asin(-c)`. */
  lemma RectPlacement(n: Node, base: Matrix, svgHeight: real, ratio: real, isStatic: bool, rd: Reader,
                      t: Matrix, x: real, y: real, height: real)
    requires ratio != 0.0
    requires RectBody(n, base, svgHeight, ratio, isStatic, rd).Ok?
    requires NodeTransform(n, rd) == Ok(t)
    requires AttrNumber(n, "x", rd) == Ok(x) && AttrNumber(n, "y", rd) == Ok(y)
    requires AttrNumber(n, "height", rd) == Ok(height)
    ensures var b := RectBody(n, base, svgHeight, ratio, isStatic, rd).value;
            var p := Apply(Mul(base, t), Point(x, y));
            b.position == Point(p.x / ratio, (svgHeight - p.y - height) / ratio)
            && b.angle == -rd.asin(-Mul(base, t).c) && -1.0 <= Mul(base, t).c <= 1.0
  {
    MulTranslate(Mul(base, t), x, y);
  }

  /** A rect's body has one shape, a box of half the rect's size in metres
      centred on the rect's middle, and its mass is set exactly when the
      group is dynamic. */
  lemma RectShape(n: Node, base: Matrix, svgHeight: real, ratio: real, isStatic: bool, rd: Reader,
                  width: real, height: real)
    requires ratio != 0.0
    requires RectBody(n, base, svgHeight, ratio, isStatic, rd).Ok?
    requires AttrNumber(n, "width", rd) == Ok(width) && AttrNumber(n, "height", rd) == Ok(height)
    ensures var b := RectBody(n, base, svgHeight, ratio, isStatic, rd).value;
            |b.shapes| == 1 && b.shapes[0].Box?
            && b.shapes[0].halfWidth * 2.0 * ratio == width && b.shapes[0].halfHeight * 2.0 * ratio == height
            && b.shapes[0].centre == Point(b.shapes[0].halfWidth, b.shapes[0].halfHeight)
            && b.shapes[0].angle == 0.0
            && (b.massCalls == 1 <==> !isStatic) && b.massCalls <= 1
  {
    var w := width / ratio;
    assert w / 2.0 * 2.0 * ratio == width;
    var h := height / ratio;
    assert h / 2.0 * 2.0 * ratio == height;
  }

  /** An arc's body sits at the image of its centre, mirrored but not
      lowered, and carries one circle without mass. */
  lemma ArcPlacement(n: Node, base: Matrix, svgHeight: real, ratio: real, rd: Reader,
                     t: Matrix, cx: real, cy: real)
    requires ratio != 0.0
    requires ArcBody(n, base, svgHeight, ratio, rd).Ok? && ArcBody(n, base, svgHeight, ratio, rd).value.Some?
    requires NodeTransform(n, rd) == Ok(t)
    requires AttrNumber(n, "sodipodi:cx", rd) == Ok(cx) && AttrNumber(n, "sodipodi:cy", rd) == Ok(cy)
    ensures var b := ArcBody(n, base, svgHeight, ratio, rd).value.value;
            var p := Apply(Mul(base, t), Point(cx, cy));
            b.position == Point(p.x / ratio, (svgHeight - p.y) / ratio)
            && |b.shapes| == 1 && b.shapes[0].Circle? && b.massCalls == 0
  {
    MulTranslate(Mul(base, t), cx, cy);
  }

  /** Whether `parse_path` gets through an arc without an exception: the
      four numbers and the transform parse and `rx * ry` is not negative.
      The transform in force plays no part. */
  lemma {:induction false} ArcSucceeds(n: Node, base: Matrix, svgHeight: real, ratio: real, rd: Reader)
    requires ratio != 0.0 && Attr(n, "sodipodi:type") == "arc"
    ensures ArcBody(n, base, svgHeight, ratio, rd).Ok? <==>
              AttrNumber(n, "sodipodi:cx", rd).Ok? && AttrNumber(n, "sodipodi:cy", rd).Ok?
              && AttrNumber(n, "sodipodi:rx", rd).Ok? && AttrNumber(n, "sodipodi:ry", rd).Ok?
              && NodeTransform(n, rd).Ok?
              && AttrNumber(n, "sodipodi:rx", rd).value * AttrNumber(n, "sodipodi:ry", rd).value >= 0.0
    ensures ArcBody(n, base, svgHeight, ratio, rd).Ok? ==>
              ArcBody(n, base, svgHeight, ratio, rd).value.Some?
              && ArcBody(n, base, svgHeight, ratio, rd).value.value.shapes
                 == [Circle(Sqrt(AttrNumber(n, "sodipodi:rx", rd).value * AttrNumber(n, "sodipodi:ry", rd).value, rd).value / ratio)]
  {
    var b := ArcBody(n, base, svgHeight, ratio, rd);
    if b.Ok? {
      var rx, ry := AttrNumber(n, "sodipodi:rx", rd).value, AttrNumber(n, "sodipodi:ry", rd).value;
      assert ArcCircle(rx, ry, ratio, rd).Ok?;
      assert b.value.value.shapes[0] == ArcCircle(rx, ry, ratio, rd).value;
      assert b.value.value.shapes == [ArcCircle(rx, ry, ratio, rd).value];
    }
  }

  /** The radius of an arc's circle is `sqrt(rx * ry)` in metres, whatever
      the transforms: a scaled group does not scale its circles. */
  lemma ArcRadiusIgnoresTransform(n: Node, base1: Matrix, base2: Matrix, svgHeight: real, ratio: real, rd: Reader)
    requires ratio != 0.0
    requires ArcBody(n, base1, svgHeight, ratio, rd).Ok? && ArcBody(n, base1, svgHeight, ratio, rd).value.Some?
    ensures ArcBody(n, base2, svgHeight, ratio, rd).Ok?
    ensures ArcBody(n, base2, svgHeight, ratio, rd).value.value.shapes
         == ArcBody(n, base1, svgHeight, ratio, rd).value.value.shapes
  {
    assert Attr(n, "sodipodi:type") == "arc";
    ArcSucceeds(n, base1, svgHeight, ratio, rd);
    ArcSucceeds(n, base2, svgHeight, ratio, rd);
  }

  /** A path that is no Inkscape arc gives no body; a `g` child and any
      other node are skipped. */
  lemma OnlyArcsAndRects(c: Node, base: Matrix, svgHeight: real, ratio: real, isStatic: bool, rd: Reader)
    requires ratio != 0.0
    requires c.name != "rect" && (c.name == "path" ==> Attr(c, "sodipodi:type") != "arc")
    ensures ChildBodies(c, base, svgHeight, ratio, isStatic, rd) == Ok([])
  {
  }

  /** A group without the `physics:` label adds nothing, whatever it holds. */
  lemma OtherGroupsIgnored(g: Node, base: Matrix, svgHeight: real, ratio: real, rd: Reader)
    requires ratio != 0.0 && !IsPhysics(Attr(g, "inkscape:label"))
    ensures GroupBodies(g, base, svgHeight, ratio, rd) == Ok([])
  {
  }

  /** The descendant loop of `parse` visits every `g` nested in a visited
      one: this is the only way the shapes of a nested group are reached,
      under the base transform instead of the enclosing group's. */
  lemma {:induction false} NestedGroupVisited(ns: seq<Node>, g: Node, c: Node)
    requires g in GroupsIn(ns) && c in g.children && c.name == "g"
    ensures c in GroupsIn(ns)
    decreases ns
  {
    var head := if ns[0].name == "g" then [ns[0]] else [];
    assert GroupsIn(ns) == head + GroupsIn(ns[0].children) + GroupsIn(ns[1..]);
    if g in GroupsIn(ns[1..]) {
      NestedGroupVisited(ns[1..], g, c);
    } else if g in GroupsIn(ns[0].children) {
      NestedGroupVisited(ns[0].children, g, c);
    } else {
      assert g == ns[0];
      ChildGroupVisited(c, g.children);
    }
  }

  /** A `g` among the nodes is visited. */
  lemma {:induction false} ChildGroupVisited(c: Node, ns: seq<Node>)
    requires c in ns && c.name == "g"
    ensures c in GroupsIn(ns)
    decreases ns
  {
    if ns[0] != c {
      ChildGroupVisited(c, ns[1..]);
    }
  }

  // ---------------------------------------------------------------------
  // The parser object

  class Box2dParser {
    const world: World
    /** Pixels per metre. */
    const ratio: real
    const rd: Reader
    /** `svg_size`: the document's width and height. */
    var svgSize: Point
    /** `static_physics`: whether the current group is static. */
    var staticPhysics: bool
    var transform: Matrix

    constructor(world: World, ratio: real, rd: Reader)
      requires ratio != 0.0
      ensures this.world == world && this.ratio == ratio && this.rd == rd
      ensures svgSize == Point(0.0, 0.0) && staticPhysics && transform == Identity
    {
      this.world := world;
      this.ratio := ratio;
      this.rd := rd;
      svgSize := Point(0.0, 0.0);
      staticPhysics := true;
      transform := Identity;
    }

    method ParseRect(n: Node) returns (r: Result<()>)
      requires ratio != 0.0
      modifies world`bodies
      ensures var s := RectBody(n, transform, svgSize.y, ratio, staticPhysics, rd);
              r.Ok? == s.Ok? && (r.Err? ==> r.error == s.error)
              && (r.Ok? ==> world.bodies == old(world.bodies) + [s.value])
    {
      var width :- AttrNumber(n, "width", rd);
      var height :- AttrNumber(n, "height", rd);
      var x :- AttrNumber(n, "x", rd);
      var y :- AttrNumber(n, "y", rd);
      var t :- NodeTransform(n, rd);
      var m := Mul(Mul(transform, t), Translate(x, y));
      var position := Point(m.e / ratio, (svgSize.y - m.f - height) / ratio);
      var angle :- Asin(-m.c, rd);
      var w, h := width / ratio, height / ratio;
      var box := Box(w / 2.0, h / 2.0, Point(w / 2.0, h / 2.0), 0.0, None, None);
      var id := world.CreateBody(position, -angle);
      world.CreateShape(id, box);
      assert [] + [box] == [box];
      assert world.bodies == old(world.bodies) + [Body(position, -angle, [box], 0)];
      if !staticPhysics {
        world.SetMassFromShapes(id);
        assert world.bodies == old(world.bodies) + [Body(position, -angle, [box], 1)];
      }
      return Ok(());
    }

    method ParsePath(n: Node) returns (r: Result<()>)
      requires ratio != 0.0
      modifies world`bodies
      ensures var s := ArcBody(n, transform, svgSize.y, ratio, rd);
              r.Ok? == s.Ok? && (r.Err? ==> r.error == s.error)
              && (r.Ok? ==> world.bodies == old(world.bodies) + (if s.value.Some? then [s.value.value] else []))
    {
      if Attr(n, "sodipodi:type") == "arc" {
        ArcSucceeds(n, transform, svgSize.y, ratio, rd);
        var cx :- AttrNumber(n, "sodipodi:cx", rd);
        var cy :- AttrNumber(n, "sodipodi:cy", rd);
        var rx :- AttrNumber(n, "sodipodi:rx", rd);
        var ry :- AttrNumber(n, "sodipodi:ry", rd);
        var t :- NodeTransform(n, rd);
        var m := Mul(Mul(transform, t), Translate(cx, cy));
        var position := Point(m.e / ratio, (svgSize.y - m.f) / ratio);
        var circle :- ArcCircle(rx, ry, ratio, rd);
        var id := world.CreateBody(position, 0.0);
        world.CreateShape(id, circle);
        assert [] + [circle] == [circle];
        assert world.bodies == old(world.bodies) + [Body(position, 0.0, [circle], 0)];
      } else {
        assert world.bodies == old(world.bodies) + [];
      }
      return Ok(());
    }

    /** `parse_group`: nothing. */
    method ParseGroup(n: Node)
    {
    }

    /** One step of `parse_elements`. */
    method ParseChild(c: Node) returns (r: Result<()>)
      requires ratio != 0.0
      modifies world`bodies
      ensures var s := ChildBodies(c, transform, svgSize.y, ratio, staticPhysics, rd);
              r.Ok? == s.Ok? && (r.Err? ==> r.error == s.error)
              && (r.Ok? ==> world.bodies == old(world.bodies) + s.value)
    {
      if c.name == "rect" {
        r := ParseRect(c);
      } else if c.name == "path" {
        r := ParsePath(c);
      } else {
        if c.name == "g" {
          ParseGroup(c);
        }
        r := Ok(());
        assert world.bodies == old(world.bodies) + [];
      }
    }

    method ParseElements(g: Node) returns (r: Result<()>)
      requires ratio != 0.0
      modifies world`bodies
      ensures var s := ElementBodies(g.children, transform, svgSize.y, ratio, staticPhysics, rd);
              r.Ok? == s.Ok? && (r.Err? ==> r.error == s.error)
              && (r.Ok? ==> world.bodies == old(world.bodies) + s.value)
    {
      var cs, base, height, isStatic := g.children, transform, svgSize.y, staticPhysics;
      ghost var all := ElementBodies(cs, base, height, ratio, isStatic, rd);
      ghost var done: seq<Body> := [];
      assert cs[0..] == cs;
      ThenNothing(all);
      var i := 0;
      while i < |cs|
        invariant 0 <= i <= |cs|
        invariant world.bodies == old(world.bodies) + done
        invariant Then(done, ElementBodies(cs[i..], base, height, ratio, isStatic, rd)) == all
      {
        UnfoldElements(cs, i, base, height, ratio, isStatic, rd);
        ghost var more := ChildBodies(cs[i], base, height, ratio, isStatic, rd);
        var done1 := ParseChild(cs[i]);
        if done1.Err? {
          return Err(done1.error);
        }
        ThenThen(done, more.value, ElementBodies(cs[i + 1..], base, height, ratio, isStatic, rd));
        done := done + more.value;
        i := i + 1;
      }
      assert ElementBodies(cs[i..], base, height, ratio, isStatic, rd) == Ok([]);
      assert done + [] == done;
      return Ok(());
    }

    method ParseMainGroup(g: Node) returns (r: Result<()>)
      requires ratio != 0.0
      modifies this`staticPhysics, this`transform, world`bodies
      ensures var tag := Attr(g, "inkscape:label");
              !IsPhysics(tag) ==> r == Ok(()) && world.bodies == old(world.bodies)
                                    && staticPhysics == old(staticPhysics) && transform == old(transform)
      ensures var tag := Attr(g, "inkscape:label");
              IsPhysics(tag) ==> staticPhysics == IsStatic(tag)
      ensures var s := GroupBodies(g, old(transform), svgSize.y, ratio, rd);
              r.Ok? == s.Ok? && (r.Err? ==> r.error == s.error)
              && (r.Ok? ==> world.bodies == old(world.bodies) + s.value && transform == old(transform))
    {
      var tag := Attr(g, "inkscape:label");
      if IsPhysics(tag) {
        staticPhysics := IsStatic(tag);
        var t :- NodeTransform(g, rd);
        var oldTransform := transform;
        transform := Mul(transform, t);
        var done := ParseElements(g);
        if done.Err? {
          return Err(done.error);
        }
        transform := oldTransform;
      }
      return Ok(());
    }

    /** `parse` on the document's `svg` element. */
    method Parse(main: Node) returns (r: Result<()>)
      requires ratio != 0.0
      modifies this`svgSize, this`staticPhysics, this`transform, world`bodies
      ensures var s := DocumentBodies(main, old(transform), ratio, rd);
              r.Ok? == s.Ok? && (r.Err? ==> r.error == s.error)
              && (r.Ok? ==> world.bodies == old(world.bodies) + s.value && transform == old(transform))
    ensures var w, h := AttrNumber(main, "width", rd), AttrNumber(main, "height", rd);
            svgSize == if w.Ok? && h.Ok? then Point(w.value, h.value) else old(svgSize)
    {
      var width :- AttrNumber(main, "width", rd);
      var height :- AttrNumber(main, "height", rd);
      svgSize := Point(width, height);
      r := ParseGroups(GroupsIn(main.children));
    }

    /** The group loop of `parse`. */
    method ParseGroups(gs: seq<Node>) returns (r: Result<()>)
      requires ratio != 0.0
      modifies this`staticPhysics, this`transform, world`bodies
      ensures var s := AllGroupBodies(gs, old(transform), svgSize.y, ratio, rd);
              r.Ok? == s.Ok? && (r.Err? ==> r.error == s.error)
              && (r.Ok? ==> world.bodies == old(world.bodies) + s.value && transform == old(transform))
    {
      ghost var done: seq<Body> := [];
      assert gs[0..] == gs;
      ThenNothing(AllGroupBodies(gs, transform, svgSize.y, ratio, rd));
      var i := 0;
      while i < |gs|
        invariant 0 <= i <= |gs| && transform == old(transform)
        invariant world.bodies == old(world.bodies) + done
        invariant Then(done, AllGroupBodies(gs[i..], transform, svgSize.y, ratio, rd))
               == AllGroupBodies(gs, transform, svgSize.y, ratio, rd)
      {
        UnfoldGroups(gs, i, transform, svgSize.y, ratio, rd);
        ghost var more := GroupBodies(gs[i], transform, svgSize.y, ratio, rd);
        var done1 := ParseMainGroup(gs[i]);
        if done1.Err? {
          return Err(done1.error);
        }
        ThenThen(done, more.value, AllGroupBodies(gs[i + 1..], transform, svgSize.y, ratio, rd));
        done := done + more.value;
        i := i + 1;
      }
      assert AllGroupBodies(gs[i..], transform, svgSize.y, ratio, rd) == Ok([]);
      assert done + [] == done;
      return Ok(());
    }
  }

  lemma UnfoldGroups(gs: seq<Node>, i: nat, base: Matrix, svgHeight: real, ratio: real, rd: Reader)
    requires ratio != 0.0 && i < |gs|
    ensures var first := GroupBodies(gs[i], base, svgHeight, ratio, rd);
            AllGroupBodies(gs[i..], base, svgHeight, ratio, rd)
            == if first.Err? then Err(first.error) else Then(first.value, AllGroupBodies(gs[i + 1..], base, svgHeight, ratio, rd))
  {
    assert gs[i..][1..] == gs[i + 1..];
  }

  lemma UnfoldElements(cs: seq<Node>, i: nat, base: Matrix, svgHeight: real, ratio: real, isStatic: bool, rd: Reader)
    requires ratio != 0.0 && i < |cs|
    ensures var first := ChildBodies(cs[i], base, svgHeight, ratio, isStatic, rd);
            ElementBodies(cs[i..], base, svgHeight, ratio, isStatic, rd)
            == if first.Err? then Err(first.error) else Then(first.value, ElementBodies(cs[i + 1..], base, svgHeight, ratio, isStatic, rd))
  {
    assert cs[i..][1..] == cs[i + 1..];
  }

  lemma ThenNothing(rest: Result<seq<Body>>)
    ensures Then([], rest) == rest
  {
    if rest.Ok? {
      assert [] + rest.value == rest.value;
    }
  }

  lemma ThenThen(done: seq<Body>, more: seq<Body>, rest: Result<seq<Body>>)
    ensures Then(done, Then(more, rest)) == Then(done + more, rest)
  {
    if rest.Ok? {
      assert done + (more + rest.value) == done + more + rest.value;
    }
  }
}
