/**
 * Character locomotion: the three per-tick systems of the character plugin.
 *
 * - `force_movement` picks between a stopped mode (friction on, no walk force) and a
 *   moving mode (friction off, a speed-gated push along the input plus a damping term
 *   in the ground plane), for the first character of the query only.
 * - `impulse_movement` gives every grounded character whose jump state is
 *   `JumpPressed` an upward impulse, and every other character none.
 * - `update_grounded` copies the result of each character's downward probe into
 *   `on_ground`.
 *
 * This file follows the revision of the input record with `direction` and a
 * three-state `JumpState`.
 */
module Character {
  import opened Vectors
  import opened Helpers
  import opened Wrappers
  import opened Ecs

  /** The jump part of the input; the stopwatch reading is carried but never read here. */
  datatype JumpState = Normal | Charging(elapsed: real) | JumpPressed(elapsed: real)

  /** `CharacterInput`: the movement intent written by a controller. */
  datatype CharacterInput = CharacterInput(direction: Vec3, jump: JumpState)

  /** `CharacterMovementProperties`: per-character tuning constants. */
  datatype MovementProperties = MovementProperties(
    stoppedFriction: real,
    acceleration: real,
    dampingFactor: real,
    maxSpeed: real,
    jumpImpulse: real)

  /** The tuning every character gets from `CharacterBundle::default`. */
  function DefaultMovementProperties(): (p: MovementProperties)
    ensures p.stoppedFriction == 4.0 && p.acceleration == 20.0 && p.dampingFactor == 60.0
    ensures p.maxSpeed == 10.0 && p.jumpImpulse == 6.0
  {
    MovementProperties(4.0, 20.0, 60.0, 10.0, 6.0)
  }

  /** The two outputs `force_movement` writes: `ExternalForce.force` and `Friction.coefficient`. */
  datatype Drive = Drive(force: Vec3, friction: real)

  // ---------------------------------------------------------------------------
  // force_movement, as pure functions of the components it reads
  // ---------------------------------------------------------------------------

  /** The speed check: the velocity projected onto the input direction is shorter than `maxSpeed`. */
  predicate UnderMaxSpeed(velocity: Vec3, direction: Vec3, maxSpeed: real)
    requires direction != Zero
  {
    LengthBelow(ProjectOnto(velocity, direction), maxSpeed)
  }

  /** The push along the input direction, cut off once the character is at or over `maxSpeed` along it. */
  function DirectionalForce(direction: Vec3, props: MovementProperties, velocity: Vec3): (f: Vec3)
    requires direction != Zero
    ensures Cross(f, direction) == Zero
    ensures !UnderMaxSpeed(velocity, direction, props.maxSpeed) ==> f == Zero
  {
    CrossScaleSelf(props.acceleration, direction);
    if UnderMaxSpeed(velocity, direction, props.maxSpeed) then Scale(props.acceleration, direction) else Zero
  }

  /**
   * `velocity_direction_difference`: the ground-plane input direction minus the
   * ground-plane unit velocity, or zero when the velocity cannot be normalised.
   */
  function VelocityDirectionDifference(direction: Vec3, velocity: Vec3, norm: Vec3 -> Vec3): (r: Vec3)
    requires IsNormalizer(norm)
    ensures r.y == 0.0
    ensures velocity == Zero ==> r == Zero
  {
    match TryNormalize(velocity, norm)
    case None => Zero
    case Some(v) => Sub(ProjectOntoPlane(direction, UnitY), ProjectOntoPlane(v, UnitY))
  }

  /** The force and friction `force_movement` writes for one character. */
  function ForceMovement(input: CharacterInput, props: MovementProperties, velocity: Vec3, norm: Vec3 -> Vec3): (d: Drive)
    requires IsNormalizer(norm)
    ensures input.direction == Zero ==> d.friction == props.stoppedFriction && d.force == Zero
    ensures input.direction != Zero ==> d.friction == 0.0
  {
    if input.direction != Zero then
      var damping := Scale(props.dampingFactor, VelocityDirectionDifference(input.direction, velocity, norm));
      Drive(Add(DirectionalForce(input.direction, props, velocity), damping), 0.0)
    else
      Drive(input.direction, props.stoppedFriction)
  }

  /**
   * The speed check compares the size of the velocity's component along the input
   * direction, whichever way it points, with `maxSpeed`: `|v.d| / |d| < m`, written
   * without square roots. A character moving against its input faster than `maxSpeed`
   * gets no directional push.
   */
  lemma UnderMaxSpeedIff(velocity: Vec3, direction: Vec3, maxSpeed: real)
    requires direction != Zero
    ensures UnderMaxSpeed(velocity, direction, maxSpeed)
        <==> maxSpeed > 0.0 && Sq(Dot(velocity, direction)) < Sq(maxSpeed) * LengthSq(direction)
  {
    LengthSqPositive(direction);
    var l := LengthSq(direction);
    var d := Dot(velocity, direction);
    var k := d / l;
    assert ProjectOnto(velocity, direction) == Scale(k, direction);
    LengthSqScale(k, direction);
    SquaredQuotient(d, l);
    DivLess(Sq(d), l, Sq(maxSpeed));
  }

  /** `(d / l)^2 * l == d^2 / l` for positive `l`. */
  lemma SquaredQuotient(d: real, l: real)
    requires l > 0.0
    ensures (d / l) * (d / l) * l == Sq(d) / l
  {
    calc {
      (d / l) * (d / l) * l;
      { assert (d / l) * l == d; }
      (d / l) * d;
      Sq(d) / l;
    }
  }

  lemma DivLess(a: real, l: real, b: real)
    requires l > 0.0
    ensures a / l < b <==> a < b * l
  {
    if a / l < b {
      calc { a; (a / l) * l; < b * l; }
    }
    if a < b * l {
      calc { a / l; < (b * l) / l; b; }
    }
  }

  /**
   * The walk force is `acceleration * direction` plus damping while the character is
   * slower than `maxSpeed` along the input, and the damping alone once it is not.
   */
  lemma {:induction false} SpeedGate(input: CharacterInput, props: MovementProperties, velocity: Vec3, norm: Vec3 -> Vec3)
    requires IsNormalizer(norm)
    requires input.direction != Zero
    ensures var damping := Scale(props.dampingFactor, VelocityDirectionDifference(input.direction, velocity, norm));
      var speedAlong := Sq(Dot(velocity, input.direction));
      var d := ForceMovement(input, props, velocity, norm);
      && (props.maxSpeed > 0.0 && speedAlong < Sq(props.maxSpeed) * LengthSq(input.direction)
          ==> d.force == Add(Scale(props.acceleration, input.direction), damping))
      && (!(props.maxSpeed > 0.0 && speedAlong < Sq(props.maxSpeed) * LengthSq(input.direction))
          ==> d.force == damping)
  {
    UnderMaxSpeedIff(velocity, input.direction, props.maxSpeed);
  }

  /** A character at rest gets no damping: the force is the directional force alone. */
  lemma AtRestNoDamping(input: CharacterInput, props: MovementProperties, norm: Vec3 -> Vec3)
    requires IsNormalizer(norm)
    requires input.direction != Zero
    ensures ForceMovement(input, props, Zero, norm).force
         == if props.maxSpeed > 0.0 then Scale(props.acceleration, input.direction) else Zero
  {
    UnderMaxSpeedIff(Zero, input.direction, props.maxSpeed);
    assert Dot(Zero, input.direction) == 0.0;
    SquareSign(props.maxSpeed);
    LengthSqPositive(input.direction);
    if props.maxSpeed > 0.0 {
      assert Sq(props.maxSpeed) * LengthSq(input.direction) > 0.0 by {
        PositiveProduct(Sq(props.maxSpeed), LengthSq(input.direction));
      }
    }
  }

  lemma PositiveProduct(a: real, b: real)
    requires a > 0.0 && b > 0.0
    ensures a * b > 0.0
  {
  }

  /**
   * The damping term lies in the ground plane: it has no vertical component, and
   * horizontally it is the input direction minus the unit velocity.
   */
  lemma DampingIsHorizontal(direction: Vec3, velocity: Vec3, norm: Vec3 -> Vec3)
    requires IsNormalizer(norm)
    ensures VelocityDirectionDifference(direction, velocity, norm).y == 0.0
    ensures velocity != Zero ==>
      VelocityDirectionDifference(direction, velocity, norm)
        == Vec3(direction.x - norm(velocity).x, 0.0, direction.z - norm(velocity).z)
  {
    ProjectOntoGround(direction);
    if velocity != Zero {
      ProjectOntoGround(norm(velocity));
    }
  }

  /**
   * In moving mode the only vertical force is the input's own vertical component
   * times the acceleration, and only below the speed cap.
   */
  lemma VerticalForce(input: CharacterInput, props: MovementProperties, velocity: Vec3, norm: Vec3 -> Vec3)
    requires IsNormalizer(norm)
    requires input.direction != Zero
    ensures ForceMovement(input, props, velocity, norm).force.y
         == if UnderMaxSpeed(velocity, input.direction, props.maxSpeed)
            then props.acceleration * input.direction.y else 0.0
  {
    DampingIsHorizontal(input.direction, velocity, norm);
  }

  // ---------------------------------------------------------------------------
  // impulse_movement
  // ---------------------------------------------------------------------------

  /** The impulse `impulse_movement` writes for one character. */
  function JumpImpulse(onGround: bool, jump: JumpState, jumpImpulse: real): (r: Vec3)
    ensures r.x == 0.0 && r.z == 0.0
    ensures !onGround ==> r == Zero
  {
    if onGround && jump.JumpPressed? then Vec3(0.0, jumpImpulse, 0.0) else Zero
  }

  /**
   * A character jumps exactly when it stands on the ground and its jump state is
   * `JumpPressed`; the impulse is then straight up with the character's strength,
   * and `Normal`, `Charging` or being airborne give no impulse at all.
   */
  lemma JumpGate(onGround: bool, jump: JumpState, jumpImpulse: real)
    ensures jumpImpulse != 0.0 ==>
      (JumpImpulse(onGround, jump, jumpImpulse) != Zero <==> onGround && jump.JumpPressed?)
    ensures onGround && jump.JumpPressed? ==> JumpImpulse(onGround, jump, jumpImpulse) == Scale(jumpImpulse, UnitY)
    ensures jump.Normal? || jump.Charging? || !onGround ==> JumpImpulse(onGround, jump, jumpImpulse) == Zero
  {
  }

  // ---------------------------------------------------------------------------
  // update_grounded
  // ---------------------------------------------------------------------------

  /** A shape cast: where it starts, which way it goes, how far, and which collider it ignores. */
  datatype ShapeCast = ShapeCast(origin: Vec3, direction: Vec3, maxToi: real, exclude: Entity)

  /**
   * The downward probe of `update_grounded`: it starts a little above the character so
   * that it does not start inside the ground, goes down a short way, and ignores the
   * character's own collider.
   */
  function GroundProbe(translation: Vec3, self: Entity): (q: ShapeCast)
    ensures q.origin.x == translation.x && q.origin.z == translation.z
    ensures q.origin.y == translation.y + 0.05
    ensures q.direction == NegY && q.maxToi == 0.2
    ensures q.exclude == self
  {
    ShapeCast(Add(translation, Scale(0.05, UnitY)), NegY, 0.2, self)
  }

  // ---------------------------------------------------------------------------
  // The character entity and the systems over it
  // ---------------------------------------------------------------------------

  /**
   * One character entity with the components the three systems read and write:
   * `Character`, `Transform`, `Velocity`, `CharacterInput`,
   * `CharacterMovementProperties`, `ExternalForce`, `Friction`, `ExternalImpulse`.
   */
  class CharacterBody {
    const entity: Entity
    var onGround: bool
    var translation: Vec3
    var velocity: Vec3
    var input: CharacterInput
    var props: MovementProperties
    var force: Vec3
    var friction: real
    var impulse: Vec3

    /** A character spawned from `CharacterBundle::default` at `translation`. */
    constructor (entity: Entity, translation: Vec3)
      ensures this.entity == entity && this.translation == translation
      ensures onGround
      ensures props == DefaultMovementProperties()
      ensures velocity == Zero && force == Zero && impulse == Zero && friction == 0.0
      ensures input == CharacterInput(Zero, Normal)
    {
      this.entity := entity;
      this.translation := translation;
      onGround := true;
      velocity := Zero;
      input := CharacterInput(Zero, Normal);
      props := DefaultMovementProperties();
      force := Zero;
      friction := 0.0;
      impulse := Zero;
    }
  }

  /**
   * `force_movement`: only the first character of the query is driven; with no
   * character nothing changes (the frame allows only the first one's force and friction).
   */
  method ForceMovementSystem(characters: seq<CharacterBody>, norm: Vec3 -> Vec3)
    requires IsNormalizer(norm)
    modifies First(characters)`force, First(characters)`friction
    ensures |characters| > 0 ==>
      var c := characters[0];
      Drive(c.force, c.friction) == ForceMovement(c.input, c.props, c.velocity, norm)
  {
    if |characters| > 0 {
      var c := characters[0];
      var drive := ForceMovement(c.input, c.props, c.velocity, norm);
      c.force := drive.force;
      c.friction := drive.friction;
    }
  }

  /** `impulse_movement`: every character's impulse is set from its grounding and jump state. */
  method ImpulseMovementSystem(characters: seq<CharacterBody>)
    modifies characters`impulse
    ensures forall c :: c in characters ==> c.impulse == JumpImpulse(c.onGround, c.input.jump, c.props.jumpImpulse)
  {
    for i := 0 to |characters|
      invariant forall k :: 0 <= k < i ==>
        characters[k].impulse == JumpImpulse(characters[k].onGround, characters[k].input.jump, characters[k].props.jumpImpulse)
    {
      var c := characters[i];
      c.impulse := JumpImpulse(c.onGround, c.input.jump, c.props.jumpImpulse);
    }
  }

  /**
   * `update_grounded`: every character is on the ground exactly when its own
   * downward probe hits something. `castShape` is the physics world answering the query.
   */
  method UpdateGroundedSystem(characters: seq<CharacterBody>, castShape: ShapeCast -> bool)
    modifies characters`onGround
    ensures forall c :: c in characters ==> c.onGround == castShape(GroundProbe(c.translation, c.entity))
  {
    for i := 0 to |characters|
      invariant forall k :: 0 <= k < i ==>
        characters[k].onGround == castShape(GroundProbe(characters[k].translation, characters[k].entity))
    {
      var c := characters[i];
      if castShape(GroundProbe(c.translation, c.entity)) {
        c.onGround := true;
      } else {
        c.onGround := false;
      }
    }
  }
}
