/**
 * The per-frame glue of the `Spacecraft` component: one movement step of the
 * controls, the ship group moved by the new velocity plus a small hover, the
 * body tilted like the controls' rotation, the engine glow chosen from the
 * movement flags, and a trail push while the ship moves or boosts.
 */
module Spacecraft {
  import opened Vectors
  import opened MathLib
  import opened SpacecraftControls
  import opened SpacecraftTrail
  import opened Buffers

  /** The glow of the engine: 2 when moving with boost, 1 when moving, 0.5 when idle, boost or not. */
  function GlowIntensity(isMoving: bool, isBoosting: bool): (g: real)
    ensures g == 2.0 <==> isMoving && isBoosting
    ensures g == 1.0 <==> isMoving && !isBoosting
    ensures g == 0.5 <==> !isMoving
  {
    if isMoving then (if isBoosting then 2.0 else 1.0) else 0.5
  }

  /** `Math.sin(time * 2) * 0.002`, added to the height of the group every frame. */
  function HoverOffset(m: Maths, time: real): real {
    m.Sin(time * 2.0) * 0.002
  }

  /** `0.8 + Math.sin(time * 10) * 0.2 * glow`, the scale of the engine glow mesh. */
  function GlowScale(m: Maths, time: real, glow: real): real {
    0.8 + m.Sin(time * 10.0) * 0.2 * glow
  }

  /** The group position after the velocity step and the hover. */
  function Advanced(m: Maths, p: Vec3, v: Vec3, time: real): Vec3 {
    var q := p.Add(v);
    q.(y := q.y + HoverOffset(m, time))
  }

  lemma SineTimes(s: real, k: real)
    requires -1.0 <= s <= 1.0 && 0.0 <= k
    ensures -k <= s * k <= k
  {
    if s >= 0.0 {
      assert s * k <= 1.0 * k;
    } else {
      assert (-s) * k <= 1.0 * k;
    }
  }

  /** The hover moves the ship by at most 0.002 up or down. */
  lemma HoverBound(m: Maths, time: real)
    requires m.Valid()
    ensures -0.002 <= HoverOffset(m, time) <= 0.002
  {
    assert -1.0 <= m.Sin(time * 2.0) <= 1.0;
    SineTimes(m.Sin(time * 2.0), 0.002);
  }

  /** The glow mesh pulses within `0.8 ± 0.2·glow`; with the three glow levels that is [0.4, 1.2]. */
  lemma GlowScaleRange(m: Maths, time: real, isMoving: bool, isBoosting: bool)
    requires m.Valid()
    ensures var glow := GlowIntensity(isMoving, isBoosting);
      0.8 - 0.2 * glow <= GlowScale(m, time, glow) <= 0.8 + 0.2 * glow
    ensures 0.4 <= GlowScale(m, time, GlowIntensity(isMoving, isBoosting)) <= 1.2
  {
    var glow := GlowIntensity(isMoving, isBoosting);
    var s := m.Sin(time * 10.0);
    assert -1.0 <= s <= 1.0;
    SineTimes(s, 0.2 * glow);
    assert s * 0.2 * glow == s * (0.2 * glow);
  }

  class Ship {
    const controller: Controller
    const trail: Trail
    /** `group.current.position` */
    var position: Vec3
    /** `shipBody.current.rotation` */
    var bodyRotation: Euler
    /** `shipBody.current.material.emissiveIntensity` */
    var emissiveIntensity: real
    /** The uniform scale of `engineGlowRef.current` */
    var glowScale: real

    ghost predicate Valid()
      reads this, trail
    {
      trail.Valid() && trail.maxPoints == DefaultMaxPoints
    }

    /** A ship at the origin with a 150-point trail and the material's initial glow of 0.5. */
    constructor ()
      ensures Valid() && fresh(controller) && fresh(trail)
      ensures position == Origin && bodyRotation == Euler(0.0, 0.0, 0.0)
      ensures emissiveIntensity == 0.5 && glowScale == 1.0
      ensures controller.controls == AllReleased && controller.velocity == Origin
      ensures trail.points == []
    {
      controller := new Controller();
      trail := new Trail(DefaultMaxPoints);
      position := Origin;
      bodyRotation := Euler(0.0, 0.0, 0.0);
      emissiveIntensity := 0.5;
      glowScale := 1.0;
    }

    /** Move, tilt and light the ship from one movement step. */
    method ApplyMovement(move: Movement, time: real, m: Maths)
      modifies this`position, this`bodyRotation, this`emissiveIntensity, this`glowScale
      ensures position == Advanced(m, old(position), move.velocity, time)
      ensures bodyRotation == Euler(move.rotation.x, old(bodyRotation).y, move.rotation.z)
      ensures emissiveIntensity == GlowIntensity(move.isMoving, move.isBoosting)
      ensures glowScale == GlowScale(m, time, emissiveIntensity)
    {
      position := position.Add(move.velocity);
      bodyRotation := bodyRotation.(z := move.rotation.z);
      bodyRotation := bodyRotation.(x := move.rotation.x);
      position := position.(y := position.y + m.Sin(time * 2.0) * 0.002);
      var glow := if move.isMoving then (if move.isBoosting then 2.0 else 1.0) else 0.5;
      emissiveIntensity := glow;
      glowScale := 0.8 + m.Sin(time * 10.0) * 0.2 * glow;
    }

    /**
     * The `useFrame` callback. `mounted` says that the group, body and glow
     * meshes exist, `trailMounted` that the trail does; `time` is the clock's
     * elapsed time.
     */
    method Frame(mounted: bool, trailMounted: bool, delta: real, time: real, m: Maths)
      requires Valid() && m.Valid()
      modifies this`position, this`bodyRotation, this`emissiveIntensity, this`glowScale
      modifies controller`velocity, controller`rotation
      modifies trail`points, trail`colors, trail`alphas, trail.positionBuffer, trail.colorBuffer, trail.alphaBuffer
      ensures Valid()
      ensures !mounted ==>
        && position == old(position) && bodyRotation == old(bodyRotation)
        && emissiveIntensity == old(emissiveIntensity) && glowScale == old(glowScale)
        && controller.velocity == old(controller.velocity) && controller.rotation == old(controller.rotation)
      ensures mounted ==>
        var v := NextVelocity(m, controller.controls, controller.mouse, old(controller.velocity), delta);
        var r := NextRotation(m.pi, controller.mouse, v, old(controller.rotation), delta);
        var glow := GlowIntensity(Direction(controller.controls) != Origin && delta != 0.0, controller.controls.boost);
        && controller.velocity == v && controller.rotation == r
        && position == Advanced(m, old(position), v, time)
        && bodyRotation == Euler(r.x, old(bodyRotation).y, r.z)
        && emissiveIntensity == glow
        && glowScale == GlowScale(m, time, glow)
      ensures var pushed := mounted && trailMounted &&
          ((Direction(controller.controls) != Origin && delta != 0.0) || controller.controls.boost);
        && (pushed ==>
              && trail.points == PushFront(old(trail.points), position, DefaultMaxPoints)
              && trail.colors == PushFront(old(trail.colors), m.Hsl(BandHue(m.Length(controller.velocity)), 1.0, 0.5), DefaultMaxPoints)
              && trail.alphas == Decayed(PushFront(old(trail.alphas), 1.0, DefaultMaxPoints), PushDecay)
              && (forall i :: 0 <= i < |trail.points| ==>
                    && Vec3At(trail.positionBuffer, i) == trail.points[i]
                    && RgbAt(trail.colorBuffer, i) == trail.colors[i]
                    && trail.alphaBuffer[i] == PushedAlpha(m, trail.alphas[i], i, |trail.points|))
              && (forall k :: |trail.points| <= k < DefaultMaxPoints ==>
                    && Vec3At(trail.positionBuffer, k) == old(Vec3At(trail.positionBuffer, k))
                    && RgbAt(trail.colorBuffer, k) == old(RgbAt(trail.colorBuffer, k))
                    && trail.alphaBuffer[k] == old(trail.alphaBuffer[k])))
        && (!pushed ==>
              && trail.points == old(trail.points) && trail.colors == old(trail.colors)
              && trail.alphas == old(trail.alphas)
              && unchanged(trail.positionBuffer, trail.colorBuffer, trail.alphaBuffer))
    {
      if !mounted {
        return;
      }
      var move := controller.UpdateMovement(delta, m);
      ApplyMovement(move, time, m);
      if trailMounted && (move.isMoving || move.isBoosting) {
        trail.UpdateTrail(position, move.velocity, m);
      }
    }
  }
}
