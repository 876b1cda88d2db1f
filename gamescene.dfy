/** game_scene: the layer that owns the physics world and steps it at a
    fixed rate, and the layer that tracks the arrow keys held down.

    The world is the logging `World`; its gravity, bounding box, sleeping
    and debug-draw settings are not part of this model. The session record
    the key handlers consult is passed to them. */
module GameScene {
  import opened Outcomes
  import opened SvgMatrix
  import opened PhysicsWorld
  import opened Box2dCallbacks
  import opened GameState

  // ---------------------------------------------------------------------
  // The physics layer

  /** A ground slab of `setup_physics_world`: `SetAsBox(hx, hy)` on a
      static body. */
  function Ground(hx: real, hy: real, position: Point, angle: real): Body
  {
    Body(position, angle, [Box(hx, hy, Point(0.0, 0.0), 0.0, None, None)], 0)
  }

  const Frictions: seq<real> := [0.75, 0.5, 0.35, 0.1, 0.0]

  /** Box `i` of the row of five: a dynamic half-metre box of density 25. */
  function Crate(i: nat): Body
    requires i < |Frictions|
  {
    Body(Point(-15.0 + 4.0 * i as real, 28.0), 0.0,
         [Box(0.5, 0.5, Point(0.0, 0.0), 0.0, Some(25.0), Some(Frictions[i]))], 1)
  }

  /** The six ground slabs, in creation order. */
  const Grounds: seq<Body> := [
    Ground(50.0, 20.0, Point(0.0, -20.0), 0.0),
    Ground(13.0, 0.25, Point(-4.0, 22.0), -0.25),
    Ground(0.25, 1.0, Point(10.5, 19.0), 0.0),
    Ground(13.0, 0.25, Point(4.0, 14.0), 0.25),
    Ground(0.25, 1.0, Point(-10.5, 11.0), 0.0),
    Ground(13.0, 0.25, Point(-4.0, 6.0), -0.25)
  ]

  /** The first `n` boxes. */
  function Crates(n: nat): (r: seq<Body>)
    requires n <= |Frictions|
    ensures |r| == n && forall i :: 0 <= i < n ==> r[i] == Crate(i)
  {
    if n == 0 then [] else Crates(n - 1) + [Crate(n - 1)]
  }

  /** Everything `setup_physics_world` creates. */
  function SetupBodies(): seq<Body>
  {
    Grounds + Crates(5)
  }

  /** Eleven bodies: six static slabs with one plain box each, then five
      dynamic boxes of density 25 and half-extent 0.5 in a row at height
      28, four metres apart, with falling friction; only those five get a
      mass. */
  lemma SetupWorld()
    ensures |SetupBodies()| == 11
    ensures forall i :: 0 <= i < 6 ==>
              SetupBodies()[i].massCalls == 0 && |SetupBodies()[i].shapes| == 1
              && SetupBodies()[i].shapes[0].Box? && SetupBodies()[i].shapes[0].density.None?
    ensures forall i :: 0 <= i < 5 ==>
              var b := SetupBodies()[6 + i];
              b.massCalls == 1 && b.position == Point(-15.0 + 4.0 * i as real, 28.0)
              && b.shapes == [Box(0.5, 0.5, Point(0.0, 0.0), 0.0, Some(25.0), Some(Frictions[i]))]
    ensures Frictions == [0.75, 0.5, 0.35, 0.1, 0.0]
  {
    var s := SetupBodies();
    assert forall i :: 0 <= i < 5 ==> s[6 + i] == Crates(5)[i];
  }

  /** `step`'s fixed time step and iteration counts. */
  const TimeStep: real := 1.0 / 60.0
  const VelocityIterations: int := 10
  const PositionIterations: int := 8

  /** `GameLayer`. */
  class GameLayer {
    const world: World
    const destructionListener: DestructionListener
    const boundaryListener: BoundaryListener
    const contactListener: ContactListener
    const debugDraw: DebugDraw
    var points: seq<ContactPoint>
    /** Bodies to destroy after the next world step. */
    var destroyList: seq<nat>

    /** `__init__` and `init_physics`: empty buffers, a fresh world with
        its fixed bodies, and listeners whose `test` is never set. */
    constructor()
      ensures fresh(world) && world.bodies == SetupBodies()
      ensures world.steps == [] && world.validations == 0 && world.destroyed == []
      ensures points == [] && destroyList == []
      ensures destructionListener.test == null && boundaryListener.test == null && contactListener.test == null
      ensures debugDraw.p2mRatio == 10.0
    {
      points := [];
      destroyList := [];
      world := new World();
      destructionListener := new DestructionListener();
      boundaryListener := new BoundaryListener();
      contactListener := new ContactListener();
      debugDraw := DebugDraw(10.0);
      new;
      SetupPhysicsWorld();
    }

    /** `setup_physics_world`. */
    method SetupPhysicsWorld()
      modifies world`bodies
      ensures world.bodies == old(world.bodies) + SetupBodies()
    {
      CreateGrounds();
      CreateCrates();
    }

    /** The six static slabs of `setup_physics_world`. */
    method CreateGrounds()
      modifies world`bodies
      ensures world.bodies == old(world.bodies) + Grounds
    {
      var b0 := world.bodies;
      var i := 0;
      while i < |Grounds|
        invariant 0 <= i <= |Grounds|
        invariant world.bodies == b0 + Grounds[..i]
      {
        var g := Grounds[i];
        var id := world.CreateBody(g.position, g.angle);
        world.CreateShape(id, g.shapes[0]);
        assert [] + [g.shapes[0]] == g.shapes;
        assert Grounds[..i + 1] == Grounds[..i] + [g];
        i := i + 1;
      }
    }

    /** The row of five dynamic boxes of `setup_physics_world`. */
    method CreateCrates()
      modifies world`bodies
      ensures world.bodies == old(world.bodies) + Crates(5)
    {
      var b0 := world.bodies;
      var k := 0;
      while k < 5
        invariant 0 <= k <= 5
        invariant world.bodies == b0 + Crates(k)
      {
        var box := Box(0.5, 0.5, Point(0.0, 0.0), 0.0, Some(25.0), Some(Frictions[k]));
        var id := world.CreateBody(Point(-15.0 + 4.0 * k as real, 28.0), 0.0);
        world.CreateShape(id, box);
        world.SetMassFromShapes(id);
        assert [] + [box] == [box];
        assert world.bodies == b0 + Crates(k) + [Crate(k)];
        k := k + 1;
      }
    }

    /** `step`: one fixed step whatever `dt`, a validation, then every
        body on the destroy list is destroyed in order and the list is
        emptied. */
    method Step(dt: real)
      modifies this`destroyList, world`steps, world`validations, world`destroyed
      ensures world.steps == old(world.steps) + [StepCall(TimeStep, VelocityIterations, PositionIterations)]
      ensures world.validations == old(world.validations) + 1
      ensures world.destroyed == old(world.destroyed) + old(destroyList)
      ensures destroyList == []
    {
      world.Step(TimeStep, VelocityIterations, PositionIterations);
      world.Validate();
      var pending := destroyList;
      ghost var steps, validations := world.steps, world.validations;
      var i := 0;
      while i < |pending|
        invariant 0 <= i <= |pending|
        invariant world.steps == steps && world.validations == validations
        invariant world.destroyed == old(world.destroyed) + pending[..i]
      {
        world.DestroyBody(pending[i]);
        assert pending[..i + 1] == pending[..i] + [pending[i]];
        i := i + 1;
      }
      assert pending[..i] == pending;
      destroyList := [];
    }
  }

  // ---------------------------------------------------------------------
  // The key layer

  /** pyglet key codes: the four arrows and any other key. */
  datatype Key = Left | Right | Up | Down | OtherKey(code: int)

  predicate IsArrow(k: Key)
  {
    !k.OtherKey?
  }

  /** pyglet text motions: the four arrow motions and any other. */
  datatype Motion = MotionUp | MotionDown | MotionLeft | MotionRight | OtherMotion(code: int)

  /** Whether the game is in play; the attribute `state` exists only once
      the record has been reset. */
  function Playing(s: State): (r: Result<bool>)
    reads s
    ensures r.Err? <==> s.state.None?
    ensures r.Err? ==> r.error == AttributeError
  {
    if s.state.None? then Err(AttributeError) else Ok(s.state.value == StatePlay)
  }

  /** `ControlLayer`. */
  class ControlLayer {
    var keysPressed: set<Key>

    constructor()
      ensures keysPressed == {}
    {
      keysPressed := {};
    }

    /** `update_keys`: it sums a unit vector per held arrow and drops the
        result. */
    method UpdateKeys()
    {
      var v := Point(0.0, 0.0);
      var left := keysPressed;
      while left != {}
        decreases left
      {
        var k :| k in left;
        v := match k
             case Left => Point(v.x - 1.0, v.y)
             case Right => Point(v.x + 1.0, v.y)
             case Up => Point(v.x, v.y + 1.0)
             case Down => Point(v.x, v.y - 1.0)
             case _ => v;
        left := left - {k};
      }
    }

    /** `on_key_press`: in play, an arrow is added and handled. */
    method OnKeyPress(s: State, k: Key) returns (r: Result<bool>)
      modifies this`keysPressed
      ensures r.Err? <==> s.state.None?
      ensures r.Err? ==> r.error == AttributeError
      ensures r == Ok(true) <==> Playing(s) == Ok(true) && IsArrow(k)
      ensures keysPressed == if r == Ok(true) then old(keysPressed) + {k} else old(keysPressed)
    {
      var playing :- Playing(s);
      if playing && IsArrow(k) {
        keysPressed := keysPressed + {k};
        UpdateKeys();
        return Ok(true);
      }
      return Ok(false);
    }

    /** `on_key_release`: in play, an arrow is removed, or the set is
        emptied when it was not held, and handled. */
    method OnKeyRelease(s: State, k: Key) returns (r: Result<bool>)
      modifies this`keysPressed
      ensures r.Err? <==> s.state.None?
      ensures r.Err? ==> r.error == AttributeError
      ensures r == Ok(true) <==> Playing(s) == Ok(true) && IsArrow(k)
      ensures r == Ok(true) ==> keysPressed == if k in old(keysPressed) then old(keysPressed) - {k} else {}
      ensures r != Ok(true) ==> keysPressed == old(keysPressed)
    {
      var playing :- Playing(s);
      if playing && IsArrow(k) {
        if k in keysPressed {
          keysPressed := keysPressed - {k};
          UpdateKeys();
        } else {
          keysPressed := {};
        }
        return Ok(true);
      }
      return Ok(false);
    }

    /** `on_text_motion`: handled in play for the arrow motions; the held
        keys do not change. */
    method OnTextMotion(s: State, m: Motion) returns (r: Result<bool>)
      ensures r.Err? <==> s.state.None?
      ensures r.Err? ==> r.error == AttributeError
      ensures r == Ok(true) <==> Playing(s) == Ok(true) && !m.OtherMotion?
    {
      var playing :- Playing(s);
      if playing && !m.OtherMotion? {
        UpdateKeys();
        return Ok(true);
      }
      return Ok(false);
    }
  }
}
