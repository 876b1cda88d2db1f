/** box2d_callbacks: the listeners Box2D calls back while it steps the
    world, and the vertex-list rewriting of the debug drawer.

    The listeners hand what they hear to the layer that owns them, the
    `test` object; here that object is a `Listener` class of its own that
    keeps the contact buffer, the mouse joint and a log of the calls made on
    it. Shapes, joints and bodies are Box2D objects and are named by number.
    The pyglet batch the drawer adds its lists to is not part of this
    model: the draw methods return the lists they would add. */
module Box2dCallbacks {
  import opened Outcomes
  import opened SvgMatrix

  // ---------------------------------------------------------------------
  // Contact types and records

  /** `fwContactTypes`. */
  const ContactUnknown: int := 0
  const ContactAdded: int := 1
  const ContactPersisted: int := 2
  const ContactRemoved: int := 3

  /** The three contact callbacks of `b2ContactListener`. */
  datatype ContactEvent = Added | Persisted | Removed

  /** The contact state each callback records. */
  function StateOf(e: ContactEvent): (s: int)
    ensures s != ContactUnknown
    ensures ContactAdded <= s <= ContactRemoved
    ensures s == ContactAdded <==> e == Added
    ensures s == ContactPersisted <==> e == Persisted
    ensures s == ContactRemoved <==> e == Removed
  {
    match e
    case Added => ContactAdded
    case Persisted => ContactPersisted
    case Removed => ContactRemoved
  }

  /** What Box2D passes to a contact callback. */
  datatype B2ContactPoint = B2ContactPoint(shape1: nat, shape2: nat, position: Point, normal: Point, id: nat)

  /** `fwContactPoint`: a copy of the callback's point and its state. */
  datatype ContactPoint = ContactPoint(shape1: nat, shape2: nat, position: Point, normal: Point, id: nat, state: int)

  /** The record `handleCall` builds. */
  function Record(state: int, p: B2ContactPoint): (r: ContactPoint)
    ensures r.shape1 == p.shape1 && r.shape2 == p.shape2 && r.id == p.id
    ensures r.position == p.position && r.normal == p.normal && r.state == state
  {
    ContactPoint(p.shape1, p.shape2, p.position, p.normal, p.id, state)
  }

  /** A record of a callback tells which callback made it. */
  lemma RecordTellsEvent(e1: ContactEvent, e2: ContactEvent, p1: B2ContactPoint, p2: B2ContactPoint)
    requires Record(StateOf(e1), p1) == Record(StateOf(e2), p2)
    ensures e1 == e2 && p1 == p2
  {
  }

  /** What Box2D may hand to the destruction listener. */
  datatype Destroyed = Joint(joint: nat) | Shape(shape: nat) | OtherObject

  /** The object the listeners report to: the contact buffer, the mouse
      joint and the calls made on it. */
  class Listener {
    var points: seq<ContactPoint>
    var mouseJoint: Option<nat>
    /** The arguments of `JointDestroyed`, `ShapeDestroyed` and
        `BoundaryViolated`, in call order. */
    var jointsDestroyed: seq<nat>
    var shapesDestroyed: seq<nat>
    var violations: seq<nat>

    constructor(mouseJoint: Option<nat>)
      ensures points == [] && this.mouseJoint == mouseJoint
      ensures jointsDestroyed == [] && shapesDestroyed == [] && violations == []
    {
      points := [];
      this.mouseJoint := mouseJoint;
      jointsDestroyed, shapesDestroyed, violations := [], [], [];
    }
  }

  /** `fwContactListener`. Its `test` starts out as None. */
  class ContactListener {
    var test: Listener?

    constructor()
      ensures test == null
    {
      test := null;
    }

    /** `handleCall`: nothing without a test, otherwise one record. */
    method HandleCall(state: int, p: B2ContactPoint)
      modifies test
      ensures test == old(test)
      ensures test != null ==> test.points == old(test.points) + [Record(state, p)]
      ensures test != null ==> unchanged(test`mouseJoint, test`jointsDestroyed, test`shapesDestroyed, test`violations)
    {
      if test == null {
        return;
      }
      test.points := test.points + [Record(state, p)];
    }

    /** `Add`, `Persist` and `Remove`. */
    method Notify(e: ContactEvent, p: B2ContactPoint)
      modifies test
      ensures test == old(test)
      ensures test != null ==> test.points == old(test.points) + [Record(StateOf(e), p)]
      ensures test != null ==> unchanged(test`mouseJoint, test`jointsDestroyed, test`shapesDestroyed, test`violations)
    {
      HandleCall(StateOf(e), p);
    }
  }

  /** `fwDestructionListener`. */
  class DestructionListener {
    var test: Listener?

    constructor()
      ensures test == null
    {
      test := null;
    }

    /** `SayGoodbye`: the mouse joint is forgotten, any other joint and
        every shape are reported; without a test, reading its attribute
        raises. */
    method SayGoodbye(o: Destroyed) returns (r: Result<()>)
      modifies test
      ensures test == old(test)
      ensures r.Err? <==> test == null && !o.OtherObject?
      ensures r.Err? ==> r.error == AttributeError
      ensures test != null ==> match o
        case Joint(j) =>
          if old(test.mouseJoint) == Some(j)
          then test.mouseJoint == None && test.jointsDestroyed == old(test.jointsDestroyed)
          else test.mouseJoint == old(test.mouseJoint) && test.jointsDestroyed == old(test.jointsDestroyed) + [j]
        case _ => test.mouseJoint == old(test.mouseJoint) && test.jointsDestroyed == old(test.jointsDestroyed)
      ensures test != null ==> test.shapesDestroyed == old(test.shapesDestroyed) + (if o.Shape? then [o.shape] else [])
      ensures test != null ==> unchanged(test`points, test`violations)
    {
      if o.OtherObject? {
        return Ok(());
      }
      if test == null {
        return Err(AttributeError);
      }
      match o {
        case Joint(j) =>
          if test.mouseJoint == Some(j) {
            test.mouseJoint := None;
          } else {
            test.jointsDestroyed := test.jointsDestroyed + [j];
          }
        case Shape(s) =>
          test.shapesDestroyed := test.shapesDestroyed + [s];
      }
      return Ok(());
    }
  }

  /** `fwBoundaryListener`. */
  class BoundaryListener {
    var test: Listener?

    constructor()
      ensures test == null
    {
      test := null;
    }

    /** `Violation`: every body that leaves the world is reported. */
    method Violation(body: nat) returns (r: Result<()>)
      modifies test
      ensures test == old(test)
      ensures r.Err? <==> test == null
      ensures r.Err? ==> r.error == AttributeError
      ensures test != null ==> test.violations == old(test.violations) + [body]
      ensures test != null ==> unchanged(test`points, test`mouseJoint, test`jointsDestroyed, test`shapesDestroyed)
    {
      if test == null {
        return Err(AttributeError);
      }
      test.violations := test.violations + [body];
      return Ok(());
    }
  }

  // ---------------------------------------------------------------------
  // Vertex lists of the debug drawer

  /** A vertex as the two numbers `extend` adds. */
  function Coords(p: Point): seq<real>
  {
    [p.x, p.y]
  }

  /** The first `k` triangles of a fan: `(v0, vi, vi+1)` for i = 1..k. */
  function Fan(vs: seq<Point>, k: nat): (out: seq<real>)
    requires k + 2 <= |vs| || k == 0
    ensures |out| == 6 * k
  {
    if k == 0 then [] else Fan(vs, k - 1) + Coords(vs[0]) + Coords(vs[k]) + Coords(vs[k + 1])
  }

  /** The triangle count of a fan over `n` vertices. */
  function FanTriangles(n: nat): nat
  {
    if n >= 2 then n - 2 else 0
  }

  /** `triangle_fan`: the count and the flat list. */
  function TriangleFan(vs: seq<Point>): (r: (int, seq<real>))
    ensures r.0 == 3 * FanTriangles(|vs|) && |r.1| == 2 * r.0
  {
    var out := Fan(vs, FanTriangles(|vs|));
    (|out| / 2, out)
  }

  /** A slice inside the first part of a concatenation, and the second
      part itself. */
  lemma SliceOfAppend(a: seq<real>, b: seq<real>, lo: int, hi: int)
    requires 0 <= lo <= hi <= |a|
    ensures (a + b)[lo..hi] == a[lo..hi]
    ensures (a + b)[|a|..] == b
  {
  }

  /** Triangle `j` of a fan is `(v0, vj+1, vj+2)`: each is anchored at the
      first vertex and joins two neighbours. */
  lemma {:induction false} FanTriangle(vs: seq<Point>, k: nat, j: nat)
    requires k + 2 <= |vs| && j < k
    ensures Fan(vs, k)[6 * j .. 6 * j + 6] == Coords(vs[0]) + Coords(vs[j + 1]) + Coords(vs[j + 2])
  {
    var prev := Fan(vs, k - 1);
    var last := Coords(vs[0]) + Coords(vs[k]) + Coords(vs[k + 1]);
    assert Fan(vs, k) == prev + last;
    if j < k - 1 {
      FanTriangle(vs, k - 1, j);
      SliceOfAppend(prev, last, 6 * j, 6 * j + 6);
    } else {
      assert 6 * j == |prev|;
      SliceOfAppend(prev, last, 0, 0);
      assert (prev + last)[6 * j .. 6 * j + 6] == (prev + last)[|prev|..];
    }
  }

  /** The loop of `triangle_fan`. */
  method TriangleFanLoop(vs: seq<Point>) returns (count: int, out: seq<real>)
    ensures (count, out) == TriangleFan(vs)
  {
    out := [];
    var i := 1;
    while i < |vs| - 1
      invariant 1 <= i <= if |vs| >= 2 then |vs| - 1 else 1
      invariant out == Fan(vs, i - 1)
    {
      out := out + Coords(vs[0]);
      out := out + Coords(vs[i]);
      out := out + Coords(vs[i + 1]);
      i := i + 1;
    }
    count := |out| / 2;
  }

  /** The first `k` edges of a line loop: `(vi, vi+1)` for i < k. */
  function Edges(vs: seq<Point>, k: nat): (out: seq<real>)
    requires k < |vs| || k == 0
    ensures |out| == 4 * k
  {
    if k == 0 then [] else Edges(vs, k - 1) + Coords(vs[k - 1]) + Coords(vs[k])
  }

  /** `line_loop`: the edges between neighbours, then the closing edge;
      the last vertex of an empty list does not exist. */
  function LineLoop(vs: seq<Point>): (r: Result<(int, seq<real>)>)
    ensures r.Err? <==> vs == []
    ensures r.Err? ==> r.error == IndexError
    ensures r.Ok? ==> r.value.0 == 2 * |vs| && |r.value.1| == 2 * r.value.0
  {
    if vs == [] then Err(IndexError)
    else
      var out := Edges(vs, |vs| - 1) + Coords(vs[|vs| - 1]) + Coords(vs[0]);
      Ok((|out| / 2, out))
  }

  /** The vertex after `j` around a loop of `n`: the first after the
      last. */
  function Next(j: nat, n: nat): nat
  {
    if j + 1 < n then j + 1 else 0
  }

  /** Edge `j` of a line loop joins vertex `j` to the next one, the last
      vertex to the first: the loop is closed. */
  lemma LineLoopEdge(vs: seq<Point>, j: nat)
    requires j < |vs|
    ensures LineLoop(vs).Ok?
    ensures LineLoop(vs).value.1[4 * j .. 4 * j + 4] == Coords(vs[j]) + Coords(vs[Next(j, |vs|)])
  {
    var n := |vs|;
    var edges := Edges(vs, n - 1);
    var tail := Coords(vs[n - 1]) + Coords(vs[0]);
    var out := LineLoop(vs).value.1;
    assert out == edges + tail;
    if j < n - 1 {
      EdgeAt(vs, n - 1, j);
      SliceOfAppend(edges, tail, 4 * j, 4 * j + 4);
    } else {
      assert 4 * j == |edges|;
      SliceOfAppend(edges, tail, 0, 0);
      assert out[4 * j .. 4 * j + 4] == out[|edges|..];
    }
  }

  lemma {:induction false} EdgeAt(vs: seq<Point>, k: nat, j: nat)
    requires k < |vs| && j < k
    ensures Edges(vs, k)[4 * j .. 4 * j + 4] == Coords(vs[j]) + Coords(vs[j + 1])
  {
    var prev := Edges(vs, k - 1);
    var last := Coords(vs[k - 1]) + Coords(vs[k]);
    assert Edges(vs, k) == prev + last;
    if j < k - 1 {
      EdgeAt(vs, k - 1, j);
      SliceOfAppend(prev, last, 4 * j, 4 * j + 4);
    } else {
      assert 4 * j == |prev|;
      SliceOfAppend(prev, last, 0, 0);
      assert (prev + last)[4 * j .. 4 * j + 4] == (prev + last)[|prev|..];
    }
  }

  /** The loop of `line_loop`. */
  method LineLoopLoop(vs: seq<Point>) returns (r: Result<(int, seq<real>)>)
    ensures r == LineLoop(vs)
  {
    var out: seq<real> := [];
    var i := 0;
    while i < |vs| - 1
      invariant 0 <= i <= if vs == [] then 0 else |vs| - 1
      invariant out == Edges(vs, i)
    {
      out := out + Coords(vs[i]);
      out := out + Coords(vs[i + 1]);
      i := i + 1;
    }
    if vs == [] {
      return Err(IndexError);
    }
    out := out + Coords(vs[|vs| - 1]);
    out := out + Coords(vs[0]);
    return Ok((|out| / 2, out));
  }

  /** The first `count` vertices scaled from metres to pixels; a count
      past the end of the list raises, a count below one gives none. */
  function Scaled(vs: seq<Point>, count: int, ratio: real): (r: Result<seq<Point>>)
    ensures r.Err? <==> count > |vs|
    ensures r.Err? ==> r.error == IndexError
    ensures r.Ok? ==> |r.value| == (if count > 0 then count else 0)
    ensures r.Ok? ==> forall i :: 0 <= i < |r.value| ==> r.value[i] == Point(vs[i].x * ratio, vs[i].y * ratio)
  {
    if count > |vs| then Err(IndexError)
    else if count <= 0 then Ok([])
    else Ok(seq(count, i requires 0 <= i < count => Point(vs[i].x * ratio, vs[i].y * ratio)))
  }

  /** The vertex loop of `DrawPolygon` and `DrawSolidPolygon`. */
  method ScaleVertices(vs: seq<Point>, count: int, ratio: real) returns (r: Result<seq<Point>>)
    ensures r == Scaled(vs, count, ratio)
  {
    var scaled: seq<Point> := [];
    var i := 0;
    while i < count
      invariant 0 <= i <= (if count > 0 then count else 0)
      invariant i <= |vs|
      invariant |scaled| == i
      invariant forall k :: 0 <= k < i ==> scaled[k] == Point(vs[k].x * ratio, vs[k].y * ratio)
    {
      if i >= |vs| {
        return Err(IndexError);
      }
      scaled := scaled + [Point(vs[i].x * ratio, vs[i].y * ratio)];
      i := i + 1;
    }
    if count > 0 {
      ghost var spec := seq(count, i requires 0 <= i < count => Point(vs[i].x * ratio, vs[i].y * ratio));
      assert |spec| == |scaled|;
      assert forall k :: 0 <= k < count ==> spec[k] == scaled[k];
      assert scaled == seq(count, i requires 0 <= i < count => Point(vs[i].x * ratio, vs[i].y * ratio));
    }
    return Ok(scaled);
  }

  /** `fwDebugDraw`: only its metre-to-pixel ratio takes part here. */
  datatype DebugDraw = DebugDraw(p2mRatio: real)

  /** `DrawPolygon`: the line list of the scaled outline. */
  method DrawPolygon(d: DebugDraw, vs: seq<Point>, count: int) returns (r: Result<(int, seq<real>)>)
    ensures var s := Scaled(vs, count, d.p2mRatio);
            r == if s.Err? then Err(s.error) else LineLoop(s.value)
  {
    var scaled := ScaleVertices(vs, count, d.p2mRatio);
    if scaled.Err? {
      return Err(scaled.error);
    }
    r := LineLoopLoop(scaled.value);
  }

  /** `DrawSolidPolygon`: the triangle list of the scaled polygon, then
      its line list. */
  method DrawSolidPolygon(d: DebugDraw, vs: seq<Point>, count: int)
    returns (r: Result<((int, seq<real>), (int, seq<real>))>)
    ensures var s := Scaled(vs, count, d.p2mRatio);
            r.Ok? <==> s.Ok? && s.value != []
    ensures r.Ok? ==> (r.value.0 == TriangleFan(Scaled(vs, count, d.p2mRatio).value)
                       && Ok(r.value.1) == LineLoop(Scaled(vs, count, d.p2mRatio).value))
    ensures r.Err? ==> r.error == IndexError
  {
    var scaled :- ScaleVertices(vs, count, d.p2mRatio);
    var fanCount, fan := TriangleFanLoop(scaled);
    var edges :- LineLoopLoop(scaled);
    return Ok(((fanCount, fan), edges));
  }

  /** A polygon drawn with fewer than one vertex raises, even after its
      empty triangle list. */
  lemma EmptyPolygonRaises(d: DebugDraw, vs: seq<Point>, count: int)
    requires count <= 0
    ensures Scaled(vs, count, d.p2mRatio) == Ok([])
    ensures TriangleFan([]) == (0, [])
    ensures LineLoop([]) == Err(IndexError)
  {
  }
}
