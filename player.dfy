/**
 * The player's controls: button and stick states become the player's `Input`, the
 * camera follows the player at a fixed offset, and the looking direction comes from
 * the mouse cursor (a ray through the cursor met with the player's plane) or, failing
 * that, from the right stick.
 *
 * The input bindings (which keys and buttons raise which action) are not modelled:
 * an `ActionState` gives, per action, whether it is held and whether it was pressed
 * this frame, and the raw stick values of the two dual-axis actions.
 */
module Player {
  import opened Vectors
  import opened Wrappers
  import opened Ecs
  import opened Controls

  datatype Action = Move | Jump | Look | ShootPrimary | ShootSecondary | SwitchWeapon

  datatype AxisPair = AxisPair(x: real, y: real)

  datatype ActionState = ActionState(
    pressed: set<Action>,
    justPressed: set<Action>,
    moveAxis: AxisPair,
    lookAxis: AxisPair)

  /** One stick axis limited to `[-1, 1]`. */
  function Clamp(v: real): (r: real)
    ensures -1.0 <= r <= 1.0
    ensures -1.0 <= v <= 1.0 ==> r == v
    ensures v < -1.0 ==> r == -1.0
    ensures v > 1.0 ==> r == 1.0
  {
    if v < -1.0 then -1.0 else if v > 1.0 then 1.0 else v
  }

  /** `clamped_axis_pair`: both axes limited to `[-1, 1]`. */
  function Clamped(p: AxisPair): AxisPair {
    AxisPair(Clamp(p.x), Clamp(p.y))
  }

  /** A stick reading on the ground plane: left/right is mirrored onto -X, up/down onto +Z. */
  function StickToGround(p: AxisPair): Vec3 {
    Vec3(-p.x, 0.0, p.y)
  }

  // ---------------------------------------------------------------------------
  // player_input
  // ---------------------------------------------------------------------------

  /** The attack request: `ShootPrimary` pressed this frame wins over `ShootSecondary`. */
  function AttackFrom(a: ActionState): (r: Option<AttackState>)
    ensures r == Some(Primary) <==> ShootPrimary in a.justPressed
    ensures r == Some(Secondary) <==> ShootPrimary !in a.justPressed && ShootSecondary in a.justPressed
    ensures r.None? <==> ShootPrimary !in a.justPressed && ShootSecondary !in a.justPressed
  {
    if ShootPrimary in a.justPressed then Some(Primary)
    else if ShootSecondary in a.justPressed then Some(Secondary)
    else None
  }

  /** The `Input` that `player_input` writes; the looking direction is left as it was. */
  function MapPlayerInput(input: Input, a: ActionState): (r: Input)
    ensures r.lookingDirection == input.lookingDirection
  {
    Input(
      if Move in a.pressed then StickToGround(Clamped(a.moveAxis)) else Zero,
      input.lookingDirection,
      AttackFrom(a),
      Jump in a.pressed,
      SwitchWeapon in a.justPressed)
  }

  /**
   * Walking: while `Move` is held the direction is the mirrored, clamped stick reading
   * in the ground plane; otherwise the player stands still. The direction never has a
   * vertical part and each horizontal component stays within `[-1, 1]`.
   */
  lemma MovementMapping(input: Input, a: ActionState)
    ensures var m := MapPlayerInput(input, a).movementDirection;
      && m.y == 0.0
      && -1.0 <= m.x <= 1.0 && -1.0 <= m.z <= 1.0
      && (Move in a.pressed ==> m == Vec3(-Clamp(a.moveAxis.x), 0.0, Clamp(a.moveAxis.y)))
      && (Move !in a.pressed ==> m == Zero)
  {
  }

  /**
   * Attacks: primary when `ShootPrimary` was just pressed (even if `ShootSecondary` was
   * too), secondary when only `ShootSecondary` was, and none otherwise. Jump is "held",
   * hand switching is "just pressed".
   */
  lemma ButtonMapping(input: Input, a: ActionState)
    ensures var r := MapPlayerInput(input, a);
      && (r.attack == Some(Primary) <==> ShootPrimary in a.justPressed)
      && (r.attack == Some(Secondary) <==> ShootPrimary !in a.justPressed && ShootSecondary in a.justPressed)
      && (r.attack == None <==> ShootPrimary !in a.justPressed && ShootSecondary !in a.justPressed)
      && r.jump == (Jump in a.pressed)
      && r.switchHands == (SwitchWeapon in a.justPressed)
  {
  }

  // ---------------------------------------------------------------------------
  // Cursor to normalised device coordinates
  // ---------------------------------------------------------------------------

  datatype Point2 = Point2(x: real, y: real)

  /** A coordinate between 0 and the window size is between 0 and 1 as a fraction of it. */
  lemma UnitFraction(a: real, w: real)
    requires w > 0.0
    ensures 0.0 <= a <= w ==> 0.0 <= a / w <= 1.0
  {
    if 0.0 <= a <= w {
      assert a / w * w == a;
    }
  }

  /**
   * Cursor pixels to NDC: the window's y axis is flipped, then `[0, size]` is mapped
   * onto `[-1, 1]`.
   */
  function CursorToNdc(cursor: Point2, width: real, height: real): (ndc: Point2)
    requires width > 0.0 && height > 0.0
    ensures 0.0 <= cursor.x <= width ==> -1.0 <= ndc.x <= 1.0
    ensures 0.0 <= cursor.y <= height ==> -1.0 <= ndc.y <= 1.0
  {
    UnitFraction(cursor.x, width);
    UnitFraction(height - cursor.y, height);
    var flipped := Point2(cursor.x, height - cursor.y);
    Point2((flipped.x / width) * 2.0 - 1.0, (flipped.y / height) * 2.0 - 1.0)
  }

  /** The inverse map, from NDC back to cursor pixels. */
  function NdcToCursor(ndc: Point2, width: real, height: real): Point2
    requires width > 0.0 && height > 0.0
  {
    Point2((ndc.x + 1.0) / 2.0 * width, height - (ndc.y + 1.0) / 2.0 * height)
  }

  /** The NDC map is `(2cx/w - 1, 1 - 2cy/h)`: the top-left corner goes to `(-1, 1)` and the bottom-right one to `(1, -1)`. */
  lemma CursorToNdcFormula(cursor: Point2, width: real, height: real)
    requires width > 0.0 && height > 0.0
    ensures CursorToNdc(cursor, width, height) == Point2(2.0 * cursor.x / width - 1.0, 1.0 - 2.0 * cursor.y / height)
    ensures CursorToNdc(Point2(0.0, 0.0), width, height) == Point2(-1.0, 1.0)
    ensures CursorToNdc(Point2(width, height), width, height) == Point2(1.0, -1.0)
  {
    calc {
      ((height - cursor.y) / height) * 2.0 - 1.0;
      (height / height - cursor.y / height) * 2.0 - 1.0;
      (1.0 - cursor.y / height) * 2.0 - 1.0;
      1.0 - 2.0 * cursor.y / height;
    }
  }

  lemma MulDivCancel(a: real, w: real)
    requires w != 0.0
    ensures (a * w) / w == a
  {
  }

  lemma DivMulCancel(a: real, w: real)
    requires w != 0.0
    ensures (a / w) * w == a
  {
  }

  /** The NDC map loses nothing: mapping back gives the cursor position again, and the other way round. */
  lemma NdcRoundTrip(cursor: Point2, ndc: Point2, width: real, height: real)
    requires width > 0.0 && height > 0.0
    ensures NdcToCursor(CursorToNdc(cursor, width, height), width, height) == cursor
    ensures CursorToNdc(NdcToCursor(ndc, width, height), width, height) == ndc
  {
    var n := CursorToNdc(cursor, width, height);
    assert (n.x + 1.0) / 2.0 == cursor.x / width;
    assert (n.y + 1.0) / 2.0 == (height - cursor.y) / height;
    DivMulCancel(cursor.x, width);
    DivMulCancel(height - cursor.y, height);
    var c := NdcToCursor(ndc, width, height);
    CursorToNdcFormula(c, width, height);
    var u := (ndc.x + 1.0) / 2.0;
    var v := (ndc.y + 1.0) / 2.0;
    assert c.x == u * width;
    assert height - c.y == v * height;
    MulDivCancel(u, width);
    MulDivCancel(v, height);
  }

  // ---------------------------------------------------------------------------
  // The cursor ray met with the player's plane
  // ---------------------------------------------------------------------------

  /** The cutoff under which the cursor ray counts as parallel to the player's plane. */
  const ParallelCutoff: real := 0.0001

  function Abs(a: real): real {
    if a < 0.0 then -a else a
  }

  /** The two world points the camera gives for the cursor: at the near and at the far plane. */
  datatype CursorRay = CursorRay(near: Vec3, far: Vec3)

  /**
   * The mouse look candidate: where the line through the cursor ray meets the plane
   * through `planePoint` with normal `up`, relative to `planePoint`; none when the ray
   * is (nearly) parallel to the plane.
   */
  function MouseCandidate(ray: CursorRay, planePoint: Vec3, up: Vec3): Option<Vec3> {
    var direction := Sub(ray.far, ray.near);
    var d := Dot(direction, up);
    if Abs(d) > ParallelCutoff then
      var p := Dot(Sub(ray.near, planePoint), up);
      var intersection := Sub(ray.near, Scale(p / d, direction));
      Some(Sub(intersection, planePoint))
    else
      None
  }

  /**
   * A mouse candidate exists exactly when the ray is not parallel to the plane; it
   * then lies in the plane (orthogonal to `up`), and the point it reaches lies on the
   * line through the near and the far point.
   */
  lemma MouseCandidateInPlane(ray: CursorRay, planePoint: Vec3, up: Vec3)
    ensures var c := MouseCandidate(ray, planePoint, up);
      && (c.Some? <==> Abs(Dot(Sub(ray.far, ray.near), up)) > ParallelCutoff)
      && (c.Some? ==> Dot(c.value, up) == 0.0)
      && (c.Some? ==> exists t: real :: Add(planePoint, c.value) == Add(ray.near, Scale(t, Sub(ray.far, ray.near))))
  {
    var direction := Sub(ray.far, ray.near);
    var d := Dot(direction, up);
    if Abs(d) > ParallelCutoff {
      var p := Dot(Sub(ray.near, planePoint), up);
      var k := p / d;
      var intersection := Sub(ray.near, Scale(k, direction));
      var r := Sub(intersection, planePoint);
      assert r == Sub(Sub(ray.near, planePoint), Scale(k, direction));
      calc {
        Dot(r, up);
        Dot(Sub(ray.near, planePoint), up) - k * Dot(direction, up);
        p - (p / d) * d;
        0.0;
      }
      assert Add(planePoint, r) == Add(ray.near, Scale(-k, direction));
    }
  }

  // ---------------------------------------------------------------------------
  // The gamepad candidate and the choice between the two
  // ---------------------------------------------------------------------------

  /** The stick length above which the right stick sets the looking direction. */
  const StickThreshold: real := 0.6

  /** The gamepad look candidate: the clamped right stick on the ground plane, when held and pushed far enough. */
  function GamepadCandidate(a: ActionState): (r: Option<Vec3>)
    ensures r.Some? ==> Look in a.pressed && r.value == Vec3(-Clamp(a.lookAxis.x), 0.0, Clamp(a.lookAxis.y))
  {
    if Look in a.pressed then
      var dir := StickToGround(Clamped(a.lookAxis));
      if LengthAbove(dir, StickThreshold) then Some(dir) else None
    else
      None
  }

  /** The squared length of a stick reading on the ground plane. */
  lemma StickLengthSq(p: AxisPair)
    ensures LengthSq(StickToGround(p)) == Sq(p.x) + Sq(p.y)
  {
    calc {
      LengthSq(StickToGround(p));
      (-p.x) * (-p.x) + 0.0 * 0.0 + p.y * p.y;
      Sq(p.x) + Sq(p.y);
    }
  }

  /** A gamepad candidate needs `Look` held and a stick pushed farther than 0.6; it is flat and never zero. */
  lemma GamepadCandidateGate(a: ActionState)
    ensures var g := GamepadCandidate(a);
      && (g.Some? <==> (Look in a.pressed
            && Sq(Clamp(a.lookAxis.x)) + Sq(Clamp(a.lookAxis.y)) > Sq(StickThreshold)))
      && (g.Some? ==> g.value.y == 0.0 && g.value != Zero)
  {
    var c := Clamped(a.lookAxis);
    var dir := StickToGround(c);
    StickLengthSq(c);
    if LengthAbove(dir, StickThreshold) {
      LengthSqPositive(dir);
    }
  }

  /** `mouse.or(gamepad).filter(nonzero)`: the mouse candidate first, and a zero vector is never used. */
  function ChooseLook(mouse: Option<Vec3>, gamepad: Option<Vec3>): (r: Option<Vec3>)
    ensures r.Some? ==> r.value != Zero && (r == mouse || r == gamepad)
    ensures mouse.Some? && mouse.value != Zero ==> r == mouse
  {
    match mouse.Or(gamepad)
    case Some(v) => if v != Zero then Some(v) else None
    case None => None
  }

  /**
   * The mouse wins: a nonzero mouse candidate is always taken; without one the
   * gamepad candidate is used. A zero mouse candidate hides the gamepad, and no
   * choice is ever the zero vector.
   */
  lemma LookPreference(mouse: Option<Vec3>, gamepad: Option<Vec3>)
    ensures mouse.Some? && mouse.value != Zero ==> ChooseLook(mouse, gamepad) == mouse
    ensures mouse.None? && gamepad.Some? && gamepad.value != Zero ==> ChooseLook(mouse, gamepad) == gamepad
    ensures mouse == Some(Zero) ==> ChooseLook(mouse, gamepad) == None
    ensures ChooseLook(mouse, gamepad).Some? ==> ChooseLook(mouse, gamepad).value != Zero
  {
  }

  // ---------------------------------------------------------------------------
  // The entities and the three systems
  // ---------------------------------------------------------------------------

  /** The player entity: its `Transform` (translation and up axis), `Input` and `ActionState`. */
  class PlayerBody {
    var translation: Vec3
    var up: Vec3
    var input: Input
    var actions: ActionState

    constructor (translation: Vec3, up: Vec3, input: Input, actions: ActionState)
      ensures this.translation == translation && this.up == up
      ensures this.input == input && this.actions == actions
    {
      this.translation := translation;
      this.up := up;
      this.input := input;
      this.actions := actions;
    }
  }

  /** The player camera's `Transform`. */
  class CameraBody {
    var translation: Vec3

    constructor (translation: Vec3)
      ensures this.translation == translation
    {
      this.translation := translation;
    }
  }

  /** Where the camera sits relative to the player. */
  const CameraOffset := Vec3(0.0, 9.0, -6.0)

  /** `camera_follow_player`: the first camera is put at the first player's position plus the offset. */
  method CameraFollowPlayer(players: seq<PlayerBody>, cameras: seq<CameraBody>)
    modifies First(cameras)`translation
    ensures |players| > 0 && |cameras| > 0 ==>
      Sub(cameras[0].translation, players[0].translation) == CameraOffset
    ensures |players| == 0 && |cameras| > 0 ==> cameras[0].translation == old(cameras[0].translation)
  {
    if |players| > 0 && |cameras| > 0 {
      cameras[0].translation := Add(players[0].translation, CameraOffset);
    }
  }

  /** `player_input`: the first player's `Input` is rebuilt from its action state. */
  method PlayerInputSystem(players: seq<PlayerBody>)
    modifies First(players)`input
    ensures |players| > 0 ==> players[0].input == MapPlayerInput(old(players[0].input), players[0].actions)
  {
    if |players| > 0 {
      var p := players[0];
      var a := p.actions;
      if Move in a.pressed {
        var axis := Clamped(a.moveAxis);
        p.input := p.input.(movementDirection := Vec3(-axis.x, 0.0, axis.y));
      } else {
        p.input := p.input.(movementDirection := Zero);
      }
      if ShootPrimary in a.justPressed {
        p.input := p.input.(attack := Some(Primary));
      } else if ShootSecondary in a.justPressed {
        p.input := p.input.(attack := Some(Secondary));
      } else {
        p.input := p.input.(attack := None);
      }
      p.input := p.input.(jump := Jump in a.pressed);
      p.input := p.input.(switchHands := SwitchWeapon in a.justPressed);
    }
  }

  /** The primary window: its size and, when the cursor is inside it, the cursor position. */
  datatype Window = Window(width: real, height: real, cursor: Option<Point2>)

  /**
   * The mouse candidate of this frame: only when the mouse moved and the cursor is in
   * the window; a window holding the cursor has a positive size.
   */
  function MouseLook(window: Window, mouseMoved: bool, unproject: Point2 -> CursorRay, player: Vec3, up: Vec3): (r: Option<Vec3>)
    requires window.cursor.Some? ==> window.width > 0.0 && window.height > 0.0
    ensures r.Some? ==> mouseMoved && window.cursor.Some?
    ensures r.Some? ==> Dot(r.value, up) == 0.0
    ensures mouseMoved && window.cursor.Some? ==>
      r == MouseCandidate(unproject(CursorToNdc(window.cursor.value, window.width, window.height)), player, up)
  {
    if mouseMoved && window.cursor.Some? then
      var ray := unproject(CursorToNdc(window.cursor.value, window.width, window.height));
      MouseCandidateInPlane(ray, player, up);
      MouseCandidate(ray, player, up)
    else
      None
  }

  /**
   * `player_looking_input`: with a player and a camera, the first player's looking
   * direction becomes the chosen candidate, and stays as it was when there is none.
   * `cameras` holds, per camera of the query, its map from NDC to the cursor ray's
   * near and far points; `mouseMoved` says whether a mouse motion event arrived.
   */
  method PlayerLookingInputSystem(players: seq<PlayerBody>, cameras: seq<Point2 -> CursorRay>, window: Window, mouseMoved: bool)
    requires window.cursor.Some? ==> window.width > 0.0 && window.height > 0.0
    modifies First(players)`input
    ensures |players| > 0 && |cameras| == 0 ==> players[0].input == old(players[0].input)
    ensures |players| > 0 && |cameras| > 0 ==>
      var p := players[0];
      var choice := ChooseLook(MouseLook(window, mouseMoved, cameras[0], p.translation, p.up), GamepadCandidate(p.actions));
      p.input == if choice.Some? then old(p.input).(lookingDirection := choice.value) else old(p.input)
  {
    if |players| > 0 && |cameras| > 0 {
      var p := players[0];
      var mouse := MouseLook(window, mouseMoved, cameras[0], p.translation, p.up);
      var gamepad := GamepadCandidate(p.actions);
      var choice := ChooseLook(mouse, gamepad);
      if choice.Some? {
        p.input := p.input.(lookingDirection := choice.value);
      }
    }
  }
}
