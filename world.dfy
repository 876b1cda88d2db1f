/** The Box2D world, as far as the level parser and the game layer use it:
    bodies are created, given shapes and masses, stepped, validated and
    destroyed. The simulation itself is not part of this model; the world
    keeps a log of what was asked of it. */
module PhysicsWorld {
  import opened Outcomes
  import opened SvgMatrix

  /** A shape definition. A box is `b2PolygonDef.SetAsBox(hx, hy, centre,
      angle)`; density and friction are absent where the caller leaves the
      library's default. A circle is a `b2CircleDef` with its radius. */
  datatype Shape =
    | Box(halfWidth: real, halfHeight: real, centre: Point, angle: real,
          density: Option<real>, friction: Option<real>)
    | Circle(radius: real)

  /** A created body: the position and angle of its `b2BodyDef`, its
      shapes in creation order and how often `SetMassFromShapes` ran. */
  datatype Body = Body(position: Point, angle: real, shapes: seq<Shape>, massCalls: nat)

  /** The arguments of one `world.Step`. */
  datatype StepCall = StepCall(timeStep: real, velocityIterations: int, positionIterations: int)

  class World {
    var bodies: seq<Body>
    var steps: seq<StepCall>
    var validations: nat
    /** The bodies passed to `DestroyBody`, in order. */
    var destroyed: seq<nat>

    constructor()
      ensures bodies == [] && steps == [] && validations == 0 && destroyed == []
    {
      bodies, steps, validations, destroyed := [], [], 0, [];
    }

    /** `CreateBody(bd)`: the new body has no shape and no mass yet. */
    method CreateBody(position: Point, angle: real) returns (id: nat)
      modifies this`bodies
      ensures id == |old(bodies)| && bodies == old(bodies) + [Body(position, angle, [], 0)]
    {
      id := |bodies|;
      bodies := bodies + [Body(position, angle, [], 0)];
    }

    /** `body.CreateShape(sd)`. */
    method CreateShape(id: nat, shape: Shape)
      requires id < |bodies|
      modifies this`bodies
      ensures bodies == old(bodies)[id := old(bodies)[id].(shapes := old(bodies)[id].shapes + [shape])]
    {
      bodies := bodies[id := bodies[id].(shapes := bodies[id].shapes + [shape])];
    }

    /** `body.SetMassFromShapes()`. */
    method SetMassFromShapes(id: nat)
      requires id < |bodies|
      modifies this`bodies
      ensures bodies == old(bodies)[id := old(bodies)[id].(massCalls := old(bodies)[id].massCalls + 1)]
    {
      bodies := bodies[id := bodies[id].(massCalls := bodies[id].massCalls + 1)];
    }

    method Step(timeStep: real, velocityIterations: int, positionIterations: int)
      modifies this`steps
      ensures steps == old(steps) + [StepCall(timeStep, velocityIterations, positionIterations)]
    {
      steps := steps + [StepCall(timeStep, velocityIterations, positionIterations)];
    }

    method Validate()
      modifies this`validations
      ensures validations == old(validations) + 1
    {
      validations := validations + 1;
    }

    method DestroyBody(id: nat)
      modifies this`destroyed
      ensures destroyed == old(destroyed) + [id]
    {
      destroyed := destroyed + [id];
    }
  }
}
