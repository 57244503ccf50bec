/**
 * The keyboard-and-mouse hook that flies the spacecraft: seven key flags set
 * and cleared by key events, the pointer in normalised device coordinates,
 * and `updateMovement`, one integration step of the ship's velocity and tilt.
 */
module SpacecraftControls {
  import opened Wrappers
  import opened Vectors
  import opened MathLib
  import opened Screen

  datatype Controls = Controls(
    forward: bool, backward: bool, left: bool, right: bool,
    up: bool, down: bool, boost: bool)

  const AllReleased: Controls := Controls(false, false, false, false, false, false, false)

  /** The seven flags, one per named key group. */
  datatype Key = Forward | Backward | Left | Right | Up | Down | Boost

  /** The flag a `KeyboardEvent.code` drives, if any. */
  function KeyOf(code: string): Option<Key> {
    if code == "KeyW" || code == "ArrowUp" then Some(Forward)
    else if code == "KeyS" || code == "ArrowDown" then Some(Backward)
    else if code == "KeyA" || code == "ArrowLeft" then Some(Left)
    else if code == "KeyD" || code == "ArrowRight" then Some(Right)
    else if code == "Space" then Some(Up)
    else if code == "ControlLeft" || code == "ControlRight" then Some(Down)
    else if code == "ShiftLeft" || code == "ShiftRight" then Some(Boost)
    else None
  }

  /** The codes that drive each flag. */
  function Codes(k: Key): set<string> {
    match k
    case Forward => {"KeyW", "ArrowUp"}
    case Backward => {"KeyS", "ArrowDown"}
    case Left => {"KeyA", "ArrowLeft"}
    case Right => {"KeyD", "ArrowRight"}
    case Up => {"Space"}
    case Down => {"ControlLeft", "ControlRight"}
    case Boost => {"ShiftLeft", "ShiftRight"}
  }

  function Flag(c: Controls, k: Key): bool {
    match k
    case Forward => c.forward
    case Backward => c.backward
    case Left => c.left
    case Right => c.right
    case Up => c.up
    case Down => c.down
    case Boost => c.boost
  }

  /** `c` with flag `k` set to `b` and every other flag kept. */
  function WithFlag(c: Controls, k: Key, b: bool): (r: Controls)
    ensures Flag(r, k) == b
    ensures forall j :: j != k ==> Flag(r, j) == Flag(c, j)
  {
    match k
    case Forward => c.(forward := b)
    case Backward => c.(backward := b)
    case Left => c.(left := b)
    case Right => c.(right := b)
    case Up => c.(up := b)
    case Down => c.(down := b)
    case Boost => c.(boost := b)
  }

  /** The flags after a key-down of `code`. */
  function Press(c: Controls, code: string): (r: Controls)
    ensures KeyOf(code) == None ==> r == c
    ensures KeyOf(code).Some? ==>
      Flag(r, KeyOf(code).value) && forall j :: j != KeyOf(code).value ==> Flag(r, j) == Flag(c, j)
  {
    match KeyOf(code)
    case None => c
    case Some(k) => WithFlag(c, k, true)
  }

  /** The flags after a key-up of `code`. */
  function Release(c: Controls, code: string): (r: Controls)
    ensures KeyOf(code) == None ==> r == c
    ensures KeyOf(code).Some? ==>
      !Flag(r, KeyOf(code).value) && forall j :: j != KeyOf(code).value ==> Flag(r, j) == Flag(c, j)
  {
    match KeyOf(code)
    case None => c
    case Some(k) => WithFlag(c, k, false)
  }

  /** The key table and the list of codes per flag describe the same mapping. */
  lemma KeyTable(code: string, k: Key)
    ensures KeyOf(code) == Some(k) <==> code in Codes(k)
  {
  }

  /** Releasing a flag just set leaves it as releasing it in the first place would. */
  lemma ReleaseAfterPress(c: Controls, k: Key)
    ensures WithFlag(WithFlag(c, k, true), k, false) == WithFlag(c, k, false)
  {
    match k
    case Forward =>
    case Backward =>
    case Left =>
    case Right =>
    case Up =>
    case Down =>
    case Boost =>
  }

  /** Clearing a flag that is already clear changes nothing. */
  lemma ClearIsIdle(c: Controls, k: Key)
    requires !Flag(c, k)
    ensures WithFlag(c, k, false) == c
  {
    match k
    case Forward =>
    case Backward =>
    case Left =>
    case Right =>
    case Up =>
    case Down =>
    case Boost =>
  }

  /**
   * Pressing and then releasing a key clears its flag and leaves every other
   * flag as it was; when the flag was clear before, nothing changed at all.
   */
  lemma PressThenRelease(c: Controls, code: string)
    ensures KeyOf(code).Some? ==> Release(Press(c, code), code) == WithFlag(c, KeyOf(code).value, false)
    ensures !(KeyOf(code).Some? && Flag(c, KeyOf(code).value)) ==> Release(Press(c, code), code) == c
  {
    match KeyOf(code)
    case None =>
    case Some(k) =>
      assert Release(Press(c, code), code) == WithFlag(WithFlag(c, k, true), k, false);
      ReleaseAfterPress(c, k);
      if !Flag(c, k) {
        ClearIsIdle(c, k);
      }
  }

  // ---- updateMovement ----

  const Acceleration: real := 2.0
  const Damping: real := 0.98
  const RotationSpeed: real := 1.5
  const RotationDampening: real := 0.95

  /** The speed cap: 2 while boosting, otherwise 1. */
  function MaxSpeed(c: Controls): real { if c.boost then 2.0 else 1.0 }

  function Signed(b: bool): real { if b then 1.0 else 0.0 }

  /** The key direction before normalisation: +x right, +y up, -z forward. */
  function Direction(c: Controls): Vec3 {
    Vec3(Signed(c.right) - Signed(c.left), Signed(c.up) - Signed(c.down), Signed(c.backward) - Signed(c.forward))
  }

  /** Each axis is -1, 0 or 1, and it is 0 exactly when both or neither of its keys are held. */
  lemma DirectionComponents(c: Controls)
    ensures Direction(c).x in {-1.0, 0.0, 1.0} && (Direction(c).x == 0.0 <==> c.left == c.right)
    ensures Direction(c).y in {-1.0, 0.0, 1.0} && (Direction(c).y == 0.0 <==> c.up == c.down)
    ensures Direction(c).z in {-1.0, 0.0, 1.0} && (Direction(c).z == 0.0 <==> c.forward == c.backward)
    ensures Direction(c).z == -1.0 <==> c.forward && !c.backward
  {
  }

  /** `v.normalize()`: three.js divides by the length, or by 1 when the length is 0. */
  function Normalize(m: Maths, v: Vec3): Vec3 {
    if m.Length(v) == 0.0 then v else v.Scale(1.0 / m.Length(v))
  }

  lemma InverseSquare(l: real)
    requires l > 0.0
    ensures Sq(1.0 / l) * Sq(l) == 1.0
  {
    calc {
      Sq(1.0 / l) * Sq(l);
      == (1.0 / l) * (1.0 / l) * (l * l);
      == ((1.0 / l) * l) * ((1.0 / l) * l);
      == 1.0;
    }
  }

  /** A non-zero vector normalises to unit length; the zero vector stays zero. */
  lemma NormalizeUnit(m: Maths, v: Vec3)
    requires m.Valid()
    ensures v != Origin ==> Normalize(m, v).LengthSq() == 1.0
    ensures v == Origin ==> Normalize(m, v) == Origin
  {
    LengthPositive(m, v);
    LengthAbove(m, v, 0.0);
    if v != Origin {
      var l := m.Length(v);
      LengthSqScale(v, 1.0 / l);
      calc {
        Normalize(m, v).LengthSq();
        == Sq(1.0 / l) * v.LengthSq();
        == Sq(1.0 / l) * Sq(l);
        == { InverseSquare(l); } 1.0;
      }
    }
  }

  /** The move vector after normalising, aiming and the in-place `multiplyScalar(2·delta)`. */
  function Thrust(m: Maths, direction: Vec3, mouse: Vec2, delta: real): Vec3 {
    m.Aim(mouse.x, mouse.y, Normalize(m, direction)).Scale(Acceleration * delta)
  }

  /** Above `maxSpeed` the velocity is rescaled to exactly `maxSpeed`. */
  function Clamp(m: Maths, v: Vec3, maxSpeed: real): Vec3 {
    if m.Length(v) > maxSpeed then Normalize(m, v).Scale(maxSpeed) else v
  }

  function NextVelocity(m: Maths, c: Controls, mouse: Vec2, v: Vec3, delta: real): Vec3 {
    Clamp(m, v.Add(Thrust(m, Direction(c), mouse, delta)), MaxSpeed(c)).Scale(Damping)
  }

  /** `a + (target - a)·f`: the smoothing step of one tilt angle by the fraction `f = 1.5·delta`. */
  function Approach(a: real, target: real, f: real): real {
    a + (target - a) * f
  }

  /**
   * The new tilt: pitch and roll approach targets taken from the new velocity
   * and are then damped by 0.95; yaw is set straight from the pointer.
   */
  function NextRotation(pi: real, mouse: Vec2, v: Vec3, r: Euler, delta: real): Euler {
    Euler(
      Approach(r.x, v.z * 0.5, RotationSpeed * delta) * RotationDampening,
      -mouse.x * pi * 0.25,
      Approach(r.z, -v.x * 0.5, RotationSpeed * delta) * RotationDampening)
  }

  datatype Movement = Movement(velocity: Vec3, rotation: Euler, isMoving: bool, isBoosting: bool)

  /** After the clamp the squared speed is at most the squared cap. */
  lemma ClampBound(m: Maths, v: Vec3, maxSpeed: real)
    requires m.Valid() && maxSpeed > 0.0
    ensures Clamp(m, v, maxSpeed).LengthSq() <= Sq(maxSpeed)
  {
    LengthAbove(m, v, maxSpeed);
    if m.Length(v) > maxSpeed {
      var u := Normalize(m, v);
      assert u.LengthSq() == 1.0 by {
        LengthPositive(m, v);
        NormalizeUnit(m, v);
      }
      LengthSqScale(u, maxSpeed);
    }
  }

  /** Damping a velocity within the cap leaves it within 0.98 of the cap. */
  lemma DampedBound(w: Vec3, maxSpeed: real)
    requires w.LengthSq() <= Sq(maxSpeed)
    ensures w.Scale(Damping).LengthSq() <= Sq(maxSpeed * Damping)
  {
    LengthSqScale(w, Damping);
    Square(Damping);
    calc {
      w.Scale(Damping).LengthSq();
      == Sq(Damping) * w.LengthSq();
      <= { MulMonotone(w.LengthSq(), Sq(maxSpeed), Sq(Damping)); } Sq(maxSpeed) * Sq(Damping);
      == { SqScale(maxSpeed, Damping); } Sq(maxSpeed * Damping);
    }
  }

  /** The returned velocity never exceeds 0.98 of the speed cap. */
  lemma SpeedBound(m: Maths, c: Controls, mouse: Vec2, v: Vec3, delta: real)
    requires m.Valid()
    ensures NextVelocity(m, c, mouse, v, delta).LengthSq() <= Sq(MaxSpeed(c) * Damping)
    ensures m.Length(NextVelocity(m, c, mouse, v, delta)) <= MaxSpeed(c) * Damping
  {
    var w := v.Add(Thrust(m, Direction(c), mouse, delta));
    var clamped := Clamp(m, w, MaxSpeed(c));
    assert clamped.LengthSq() <= Sq(MaxSpeed(c)) by { ClampBound(m, w, MaxSpeed(c)); }
    DampedBound(clamped, MaxSpeed(c));
    assert NextVelocity(m, c, mouse, v, delta) == clamped.Scale(Damping);
    LengthAbove(m, NextVelocity(m, c, mouse, v, delta), MaxSpeed(c) * Damping);
  }

  /** The aim rotation keeps the zero vector at zero. */
  lemma AimZero(m: Maths, mx: real, my: real)
    requires m.Valid()
    ensures m.Aim(mx, my, Origin) == Origin
  {
    LengthSqNonNegative(Origin);
    LengthSqNonNegative(m.Aim(mx, my, Origin));
  }

  /** With no net key direction there is no thrust. */
  lemma NoDirectionNoThrust(m: Maths, d: Vec3, mouse: Vec2, delta: real)
    requires m.Valid() && d == Origin
    ensures Thrust(m, d, mouse, delta) == Origin
  {
    NormalizeUnit(m, d);
    AimZero(m, mouse.x, mouse.y);
    var aimed := m.Aim(mouse.x, mouse.y, Normalize(m, d));
    assert aimed == Origin;
    ScaleStill(aimed, Acceleration * delta);
  }

  /** A ship at rest with no net key direction stays at rest. */
  lemma RestStaysAtRest(m: Maths, c: Controls, mouse: Vec2, delta: real)
    requires m.Valid() && Direction(c) == Origin
    ensures NextVelocity(m, c, mouse, Origin, delta) == Origin
  {
    var t := Thrust(m, Direction(c), mouse, delta);
    NoDirectionNoThrust(m, Direction(c), mouse, delta);
    var w := Origin.Add(t);
    StillSum(t);
    LengthPositive(m, w);
    MaxSpeedAtLeastOne(c);
    ClampIdle(m, w, MaxSpeed(c));
    ScaleStill(w, Damping);
  }

  /** With no net key direction a moving ship strictly loses speed on every step, whatever the pointer and delta. */
  lemma IdleSlowsDown(m: Maths, c: Controls, mouse: Vec2, v: Vec3, delta: real)
    requires m.Valid() && Direction(c) == Origin && v != Origin
    ensures NextVelocity(m, c, mouse, v, delta).LengthSq() < v.LengthSq()
  {
    IdleVelocity(m, c, mouse, v, delta);
    MaxSpeedAtLeastOne(c);
    ClampDampShrinks(m, v, MaxSpeed(c));
  }

  /** Clamping and then damping a non-zero velocity makes it strictly shorter. */
  lemma ClampDampShrinks(m: Maths, v: Vec3, maxSpeed: real)
    requires m.Valid() && maxSpeed > 0.0 && v != Origin
    ensures Clamp(m, v, maxSpeed).Scale(Damping).LengthSq() < v.LengthSq()
  {
    ClampNoLonger(m, v, maxSpeed);
    DampShrinks(Clamp(m, v, maxSpeed), v);
  }

  /** With no net key direction a step only clamps and damps the velocity. */
  lemma IdleVelocity(m: Maths, c: Controls, mouse: Vec2, v: Vec3, delta: real)
    requires m.Valid() && Direction(c) == Origin
    ensures NextVelocity(m, c, mouse, v, delta) == Clamp(m, v, MaxSpeed(c)).Scale(Damping)
  {
    var t := Thrust(m, Direction(c), mouse, delta);
    NoDirectionNoThrust(m, Direction(c), mouse, delta);
    AddStill(v, t);
  }

  /** Adding the zero vector changes nothing. */
  lemma AddStill(v: Vec3, t: Vec3)
    requires t == Origin
    ensures v.Add(t) == v
  {
  }

  /** The speed limit never makes a velocity longer. */
  lemma ClampNoLonger(m: Maths, v: Vec3, maxSpeed: real)
    requires m.Valid() && maxSpeed > 0.0
    ensures Clamp(m, v, maxSpeed).LengthSq() <= v.LengthSq()
  {
    LengthAbove(m, v, maxSpeed);
    if m.Length(v) > maxSpeed {
      ClampBound(m, v, maxSpeed);
    }
  }

  /** Damping a velocity no longer than a non-zero `v` leaves it strictly shorter than `v`. */
  lemma DampShrinks(w: Vec3, v: Vec3)
    requires w.LengthSq() <= v.LengthSq() && v != Origin
    ensures w.Scale(Damping).LengthSq() < v.LengthSq()
  {
    LengthSqScale(w, Damping);
    LengthSqNonNegative(v);
    assert Sq(Damping) == 0.9604;
    MulMonotone(w.LengthSq(), v.LengthSq(), Sq(Damping));
    ShrinkFactor(v.LengthSq(), Sq(Damping));
  }

  /** Adding the zero vector to the origin stays at the origin. */
  lemma StillSum(t: Vec3)
    requires t == Origin
    ensures Origin.Add(t) == Origin
  {
  }

  /** Either speed cap is at least 1. */
  lemma MaxSpeedAtLeastOne(c: Controls)
    ensures MaxSpeed(c) >= 1.0
  {
  }

  /** Within the cap the clamp changes nothing. */
  lemma ClampIdle(m: Maths, v: Vec3, maxSpeed: real)
    requires m.Length(v) <= maxSpeed
    ensures Clamp(m, v, maxSpeed) == v
  {
  }

  /** Scaling the zero vector leaves it zero. */
  lemma ScaleStill(v: Vec3, k: real)
    requires v == Origin
    ensures v.Scale(k) == Origin
  {
  }

  /** With a direction held, the thrust has squared length `(2·delta)²`. */
  lemma ThrustLength(m: Maths, d: Vec3, mouse: Vec2, delta: real)
    requires m.Valid() && d != Origin
    ensures Thrust(m, d, mouse, delta).LengthSq() == Sq(Acceleration * delta)
  {
    var aimed := m.Aim(mouse.x, mouse.y, Normalize(m, d));
    assert aimed.LengthSq() == 1.0 by { NormalizeUnit(m, d); }
    LengthSqScale(aimed, Acceleration * delta);
  }

  /** A vector of squared length `(2·delta)²` is non-zero exactly when `delta` is. */
  lemma ZeroThrustIff(t: Vec3, delta: real)
    requires t.LengthSq() == Sq(Acceleration * delta)
    ensures t != Origin <==> delta != 0.0
  {
    LengthSqNonNegative(t);
    ScaledSquareZero(Acceleration, delta);
  }

  /** With a direction held, there is thrust exactly when `delta` is not 0. */
  lemma SteeredThrust(m: Maths, d: Vec3, mouse: Vec2, delta: real)
    requires m.Valid() && d != Origin
    ensures Thrust(m, d, mouse, delta) != Origin <==> delta != 0.0
  {
    ThrustLength(m, d, mouse, delta);
    ZeroThrustIff(Thrust(m, d, mouse, delta), delta);
  }

  /** `isMoving` holds exactly when a direction is held and `delta` is not 0. */
  lemma MovingIffSteered(m: Maths, d: Vec3, mouse: Vec2, delta: real)
    requires m.Valid()
    ensures m.Length(Thrust(m, d, mouse, delta)) > 0.0 <==> d != Origin && delta != 0.0
  {
    LengthPositive(m, Thrust(m, d, mouse, delta));
    if d == Origin {
      NoDirectionNoThrust(m, d, mouse, delta);
    } else {
      SteeredThrust(m, d, mouse, delta);
    }
  }

  /** The source's `(target - a) * 1.5 * delta` is the smoothing step by the fraction `1.5·delta`. */
  lemma SmoothingStep(a: real, target: real, delta: real)
    ensures a + (target - a) * RotationSpeed * delta == Approach(a, target, RotationSpeed * delta)
  {
  }

  /** For a fraction in [0, 1], one smoothing step lands between the angle and its target. */
  lemma ApproachBetween(a: real, target: real, f: real)
    requires 0.0 <= f <= 1.0
    ensures a <= target ==> a <= Approach(a, target, f) <= target
    ensures target <= a ==> target <= Approach(a, target, f) <= a
  {
    if a <= target {
      var d := target - a;
      ScaledWithin(d, f);
      calc { Approach(a, target, f); == a + d * f; <= a + d; == target; }
      calc { a; <= a + d * f; == Approach(a, target, f); }
    }
    if target <= a {
      var d := a - target;
      ScaledWithin(d, f);
      calc { Approach(a, target, f); == a - d * f; >= a - d; == target; }
      calc { a; >= a - d * f; == Approach(a, target, f); }
    }
  }

  /** A velocity component is at most the speed. */
  lemma ComponentBound(v: Vec3, s: real)
    requires 0.0 <= s && v.LengthSq() <= Sq(s)
    ensures -s <= v.x <= s && -s <= v.z <= s
  {
    assert v.LengthSq() == Sq(v.x) + Sq(v.y) + Sq(v.z);
    assert Sq(-v.x) == Sq(v.x) && Sq(-v.z) == Sq(v.z);
    Square(v.y);
    Square(v.z);
    Square(v.x);
    if v.x > s { SquareMonotone(v.x, s); }
    if v.x < -s { SquareMonotone(-v.x, s); }
    if v.z > s { SquareMonotone(v.z, s); }
    if v.z < -s { SquareMonotone(-v.z, s); }
  }

  /** Dampening keeps a tilt in [-1, 1]. */
  lemma DampenWithin(x: real)
    requires -1.0 <= x <= 1.0
    ensures -1.0 <= x * RotationDampening <= 1.0
  {
    assert x * RotationDampening == 0.95 * x;
  }

  /** The tilt step keeps pitch and roll in [-1, 1] when the new speed is at most 1.96. */
  lemma TiltWithin(pi: real, mouse: Vec2, nv: Vec3, r: Euler, delta: real)
    requires 0.0 <= delta && RotationSpeed * delta <= 1.0
    requires -1.0 <= r.x <= 1.0 && -1.0 <= r.z <= 1.0
    requires nv.LengthSq() <= Sq(1.96)
    ensures -1.0 <= NextRotation(pi, mouse, nv, r, delta).x <= 1.0
    ensures -1.0 <= NextRotation(pi, mouse, nv, r, delta).z <= 1.0
  {
    ComponentBound(nv, 1.96);
    ApproachBetween(r.x, nv.z * 0.5, RotationSpeed * delta);
    ApproachBetween(r.z, -nv.x * 0.5, RotationSpeed * delta);
    DampenWithin(Approach(r.x, nv.z * 0.5, RotationSpeed * delta));
    DampenWithin(Approach(r.z, -nv.x * 0.5, RotationSpeed * delta));
  }

  /** The speed cap after damping is at most 1.96, so its square is at most 1.96². */
  lemma CapSquare(c: Controls)
    ensures Sq(MaxSpeed(c) * Damping) <= Sq(1.96)
  {
    assert 0.0 <= MaxSpeed(c) * Damping <= 1.96;
    SquareMonotone(1.96, MaxSpeed(c) * Damping);
  }

  /**
   * While `1.5·delta` stays within [0, 1], pitch and roll never leave [-1, 1]:
   * the targets are at most half of a speed of at most 1.96.
   */
  lemma TiltStaysBounded(m: Maths, c: Controls, mouse: Vec2, v: Vec3, r: Euler, delta: real)
    requires m.Valid() && 0.0 <= delta && RotationSpeed * delta <= 1.0
    requires -1.0 <= r.x <= 1.0 && -1.0 <= r.z <= 1.0
    ensures var nr := NextRotation(m.pi, mouse, NextVelocity(m, c, mouse, v, delta), r, delta);
      -1.0 <= nr.x <= 1.0 && -1.0 <= nr.z <= 1.0
  {
    SpeedBound(m, c, mouse, v, delta);
    CapSquare(c);
    TiltWithin(m.pi, mouse, NextVelocity(m, c, mouse, v, delta), r, delta);
  }

  /** The refs of the hook: the key flags, the pointer, and the ship's velocity and tilt. */
  class Controller {
    var controls: Controls
    var mouse: Vec2
    var velocity: Vec3
    var rotation: Euler

    constructor ()
      ensures controls == AllReleased && mouse == Vec2(0.0, 0.0)
      ensures velocity == Origin && rotation == Euler(0.0, 0.0, 0.0)
    {
      controls := AllReleased;
      mouse := Vec2(0.0, 0.0);
      velocity := Origin;
      rotation := Euler(0.0, 0.0, 0.0);
    }

    method KeyDown(code: string)
      modifies this`controls
      ensures controls == Press(old(controls), code)
    {
      if code == "KeyW" || code == "ArrowUp" {
        controls := controls.(forward := true);
      } else if code == "KeyS" || code == "ArrowDown" {
        controls := controls.(backward := true);
      } else if code == "KeyA" || code == "ArrowLeft" {
        controls := controls.(left := true);
      } else if code == "KeyD" || code == "ArrowRight" {
        controls := controls.(right := true);
      } else if code == "Space" {
        controls := controls.(up := true);
      } else if code == "ControlLeft" || code == "ControlRight" {
        controls := controls.(down := true);
      } else if code == "ShiftLeft" || code == "ShiftRight" {
        controls := controls.(boost := true);
      }
    }

    method KeyUp(code: string)
      modifies this`controls
      ensures controls == Release(old(controls), code)
    {
      if code == "KeyW" || code == "ArrowUp" {
        controls := controls.(forward := false);
      } else if code == "KeyS" || code == "ArrowDown" {
        controls := controls.(backward := false);
      } else if code == "KeyA" || code == "ArrowLeft" {
        controls := controls.(left := false);
      } else if code == "KeyD" || code == "ArrowRight" {
        controls := controls.(right := false);
      } else if code == "Space" {
        controls := controls.(up := false);
      } else if code == "ControlLeft" || code == "ControlRight" {
        controls := controls.(down := false);
      } else if code == "ShiftLeft" || code == "ShiftRight" {
        controls := controls.(boost := false);
      }
    }

    /** The window size is a parameter; a zero-sized window is not modelled. */
    method MouseMove(clientX: real, clientY: real, innerWidth: real, innerHeight: real)
      requires innerWidth > 0.0 && innerHeight > 0.0
      modifies this`mouse
      ensures mouse == Vec2(NdcX(clientX, innerWidth), NdcY(clientY, innerHeight))
      ensures 0.0 <= clientX <= innerWidth && 0.0 <= clientY <= innerHeight ==>
        -1.0 <= mouse.x <= 1.0 && -1.0 <= mouse.y <= 1.0
    {
      mouse := Vec2(clientX / innerWidth * 2.0 - 1.0, -(clientY / innerHeight) * 2.0 + 1.0);
    }

    /** The key direction, summed one held key at a time. */
    method KeyDirection() returns (d: Vec3)
      ensures d == Direction(controls)
    {
      d := Origin;
      if controls.forward { d := d.(z := d.z - 1.0); }
      if controls.backward { d := d.(z := d.z + 1.0); }
      if controls.left { d := d.(x := d.x - 1.0); }
      if controls.right { d := d.(x := d.x + 1.0); }
      if controls.up { d := d.(y := d.y + 1.0); }
      if controls.down { d := d.(y := d.y - 1.0); }
    }

    /**
     * The move vector of one step: the key direction, normalised when it is
     * not zero, turned by the mouse aim and scaled in place by `2·delta`.
     */
    method Steer(delta: real, m: Maths) returns (move: Vec3)
      requires m.Valid()
      ensures move == Thrust(m, Direction(controls), mouse, delta)
    {
      move := KeyDirection();
      if m.Length(move) > 0.0 {
        move := Normalize(m, move);
      } else {
        assert m.Length(move) == 0.0 by { LengthAbove(m, move, 0.0); }
      }
      move := m.Aim(mouse.x, mouse.y, move);
      move := move.Scale(Acceleration * delta);
    }

    /** The speed half of a frame: add the move, cap the speed at `maxSpeed`, then damp. */
    method Accelerate(move: Vec3, maxSpeed: real, m: Maths)
      modifies this`velocity
      ensures velocity == Clamp(m, old(velocity).Add(move), maxSpeed).Scale(Damping)
    {
      velocity := velocity.Add(move);
      if m.Length(velocity) > maxSpeed {
        velocity := Normalize(m, velocity).Scale(maxSpeed);
      }
      velocity := velocity.Scale(Damping);
    }

    /** The tilt half of a frame: pitch and roll ease toward the new velocity, yaw follows the pointer. */
    method Tilt(delta: real, pi: real)
      modifies this`rotation
      ensures rotation == NextRotation(pi, mouse, velocity, old(rotation), delta)
    {
      var targetZ := -velocity.x * 0.5;
      var targetX := velocity.z * 0.5;
      var rx := rotation.x + (targetX - rotation.x) * RotationSpeed * delta;
      var rz := rotation.z + (targetZ - rotation.z) * RotationSpeed * delta;
      SmoothingStep(rotation.x, targetX, delta);
      SmoothingStep(rotation.z, targetZ, delta);
      rotation := Euler(rx * RotationDampening, -mouse.x * pi * 0.25, rz * RotationDampening);
    }

    /**
     * One integration step. The result is a copy of the new velocity and tilt,
     * `isMoving` is read off the move vector after its in-place scaling, and
     * the new speed respects the cap.
     */
    method UpdateMovement(delta: real, m: Maths) returns (result: Movement)
      requires m.Valid()
      modifies this`velocity, this`rotation
      ensures velocity == NextVelocity(m, controls, mouse, old(velocity), delta)
      ensures rotation == NextRotation(m.pi, mouse, velocity, old(rotation), delta)
      ensures result == Movement(velocity, rotation, m.Length(Thrust(m, Direction(controls), mouse, delta)) > 0.0, controls.boost)
      ensures result.isMoving <==> Direction(controls) != Origin && delta != 0.0
      ensures m.Length(velocity) <= MaxSpeed(controls) * Damping
    {
      var maxSpeed := if controls.boost then 2.0 else 1.0;
      var move := Steer(delta, m);
      Accelerate(move, maxSpeed, m);
      Tilt(delta, m.pi);
      assert m.Length(move) > 0.0 <==> Direction(controls) != Origin && delta != 0.0 by {
        MovingIffSteered(m, Direction(controls), mouse, delta);
      }
      assert m.Length(velocity) <= MaxSpeed(controls) * Damping by {
        SpeedBound(m, controls, mouse, old(velocity), delta);
      }
      result := Movement(velocity, rotation, m.Length(move) > 0.0, controls.boost);
    }
  }
}
