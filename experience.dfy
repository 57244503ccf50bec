/**
 * The camera flight of `Experience`'s scene: on every route change the camera
 * flies from where it is to the route's position in 1.5 seconds, along an
 * ease-in-out cubic, one animation frame at a time.
 */
module Experience {
  import opened Vectors
  import Hud

  const Duration: real := 1.5
  const DefaultCamera: Vec3 := Vec3(0.0, 0.0, 15.0)

  /** `cameraPositions` */
  const CameraPositions: map<string, Vec3> := map[
    "/" := Vec3(0.0, 0.0, 15.0),
    "/explore" := Vec3(0.0, 0.0, 15.0),
    "/about" := Vec3(15.0, 5.0, 15.0),
    "/prizes" := Vec3(-15.0, 0.0, 15.0),
    "/sponsors" := Vec3(0.0, 15.0, 15.0),
    "/judges" := Vec3(0.0, -15.0, 15.0),
    "/faq" := Vec3(-15.0, -15.0, 15.0),
    "/register" := Vec3(15.0, -15.0, 15.0)
  ]

  /** Where the camera flies for a path: its table entry, or `[0, 0, 15]` for a path the table does not know. */
  function CameraTarget(path: string): (p: Vec3)
    ensures path in CameraPositions ==> p == CameraPositions[path]
    ensures path !in CameraPositions ==> p == DefaultCamera
  {
    if path in CameraPositions then CameraPositions[path] else DefaultCamera
  }

  /** Every button of the heads-up display leads to a path that has an entry in the camera table. */
  lemma SectorsHaveCameras(i: nat)
    requires i < |Hud.Sectors|
    ensures Hud.Sectors[i].path in CameraPositions
  {
  }

  /** `Math.min(elapsed / (duration * 1000), 1)` for `elapsed` milliseconds. */
  function Progress(elapsed: real): (t: real)
    ensures elapsed >= 0.0 ==> 0.0 <= t <= 1.0
    ensures t == 1.0 <==> elapsed >= Duration * 1000.0
    ensures t < 1.0 ==> t * (Duration * 1000.0) == elapsed
  {
    var ratio := elapsed / (Duration * 1000.0);
    if ratio < 1.0 then ratio else 1.0
  }

  /** The easing curve: `4t³` below one half, `(t - 1)(2t - 2)(2t - 2) + 1` from one half on. */
  function Ease(t: real): real {
    if t < 0.5 then 4.0 * t * t * t else (t - 1.0) * (2.0 * t - 2.0) * (2.0 * t - 2.0) + 1.0
  }

  function Cube(x: real): real { x * x * x }

  /** `x ↦ x³` is non-decreasing. */
  lemma CubeMonotone(a: real, b: real)
    requires a <= b
    ensures Cube(a) <= Cube(b)
  {
    var d := b - a;
    assert Cube(b) - Cube(a) == d * (a * a + a * b + b * b);
    assert a * a + a * b + b * b >= 0.0 by {
      var c := a + b / 2.0;
      assert a * a + a * b + b * b == Sq(c) + 3.0 * Sq(b) / 4.0;
      Square(c);
      Square(b);
    }
    assert d * (a * a + a * b + b * b) >= 0.0;
  }

  /** Both halves of the curve are scaled cubes: `4t³`, and `4(t - 1)³ + 1`. */
  lemma EaseCubes(t: real)
    ensures t < 0.5 ==> Ease(t) == 4.0 * Cube(t)
    ensures t >= 0.5 ==> Ease(t) == 4.0 * Cube(t - 1.0) + 1.0
  {
    assert (t - 1.0) * (2.0 * t - 2.0) * (2.0 * t - 2.0) == 4.0 * ((t - 1.0) * (t - 1.0) * (t - 1.0));
  }

  /** The curve starts at 0, passes one half at the middle and ends at 1. */
  lemma EaseEndpoints()
    ensures Ease(0.0) == 0.0 && Ease(0.5) == 0.5 && Ease(1.0) == 1.0
  {
  }

  /** The curve never goes back: later progress is never eased to an earlier point. */
  lemma EaseMonotone(s: real, t: real)
    requires s <= t
    ensures Ease(s) <= Ease(t)
  {
    EaseCubes(s);
    EaseCubes(t);
    if t < 0.5 {
      CubeMonotone(s, t);
    } else if s >= 0.5 {
      CubeMonotone(s - 1.0, t - 1.0);
    } else {
      CubeMonotone(s, 0.5);
      CubeMonotone(-0.5, t - 1.0);
    }
  }

  /** Over the flight the eased fraction stays in [0, 1], so the camera stays between start and target. */
  lemma EaseRange(t: real)
    requires 0.0 <= t <= 1.0
    ensures 0.0 <= Ease(t) <= 1.0
  {
    EaseEndpoints();
    EaseMonotone(0.0, t);
    EaseMonotone(t, 1.0);
  }

  /** The curve is symmetric: easing out mirrors easing in. */
  lemma EaseSymmetric(t: real)
    ensures Ease(1.0 - t) == 1.0 - Ease(t)
  {
    EaseCubes(t);
    EaseCubes(1.0 - t);
    if t < 0.5 {
      assert Cube(1.0 - t - 1.0) == -Cube(t);
    } else if t > 0.5 {
      assert Cube(1.0 - t) == -Cube(t - 1.0);
    }
  }

  /** Lerping with the full fraction lands on the target, with none on the start. */
  lemma LerpEnds(start: Vec3, target: Vec3)
    ensures start.Lerp(target, 1.0) == target
    ensures start.Lerp(target, 0.0) == start
  {
  }

  /** The scene's camera and the flight in progress. */
  class Scene {
    /** `camera.position` */
    var camera: Vec3
    var start: Vec3
    var target: Vec3
    /** `Date.now()` when the flight began */
    var startTime: real

    /** The canvas puts the camera at `[0, 0, 15]`. */
    constructor ()
      ensures camera == DefaultCamera
    {
      camera := DefaultCamera;
      start := DefaultCamera;
      target := DefaultCamera;
      startTime := 0.0;
    }

    /**
     * The set-up half of the effect that runs on a route change at time `now`:
     * fly from here to the path's position. The effect then calls `animate`
     * once at once, so a route change is `Begin(path, now)` followed by
     * `Animate(now)`.
     */
    method Begin(path: string, now: real)
      modifies this`start, this`target, this`startTime
      ensures start == camera && target == CameraTarget(path) && startTime == now
    {
      target := CameraTarget(path);
      start := camera;
      startTime := now;
    }

    /**
     * One call of `animate` at time `now`: place the camera on the eased point
     * of the flight; `again` says whether another frame is requested.
     */
    method Animate(now: real) returns (again: bool)
      modifies this`camera
      ensures camera == start.Lerp(target, Ease(Progress(now - startTime)))
      ensures again <==> now - startTime < Duration * 1000.0
      ensures !again ==> camera == target
    {
      var progress := Progress(now - startTime);
      var t := progress;
      var ease := if t < 0.5 then 4.0 * t * t * t else (t - 1.0) * (2.0 * t - 2.0) * (2.0 * t - 2.0) + 1.0;
      camera := start.Lerp(target, ease);
      again := progress < 1.0;
      if !again {
        EaseEndpoints();
        LerpEnds(start, target);
      }
    }
  }
}
