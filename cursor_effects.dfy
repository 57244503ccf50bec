/**
 * The cursor tracker of `useCursorEffects`: on every mouse move it records the
 * pointer in normalised coordinates, its change since the previous move, and a
 * fixed-length trail of recent positions, newest first; a separate flag
 * follows the mouse button.
 */
module CursorEffects {
  import opened Vectors
  import opened Screen

  const DefaultTrailLength: nat := 10
  const Zero2: Vec2 := Vec2(0.0, 0.0)

  /**
   * `trail.pop()` then `trail.unshift(p)`: the last entry goes, `p` comes in
   * front. Popping an empty trail does nothing, so an empty trail grows to one.
   */
  function Shifted(trail: seq<Vec2>, p: Vec2): (r: seq<Vec2>)
    ensures |r| == if |trail| == 0 then 1 else |trail|
    ensures r[0] == p
    ensures r[1..] == if |trail| == 0 then [] else trail[..|trail| - 1]
  {
    [p] + (if |trail| == 0 then [] else trail[..|trail| - 1])
  }

  /** The trail after the moves to `ps`, oldest first. */
  function Moves(trail: seq<Vec2>, ps: seq<Vec2>): seq<Vec2>
    decreases |ps|
  {
    if ps == [] then trail else Shifted(Moves(trail, ps[..|ps| - 1]), ps[|ps| - 1])
  }

  /** Entry `i` after the moves to `ps`: the `i`-th most recent position, or, past them, what the old trail had there. */
  function Recent(trail: seq<Vec2>, ps: seq<Vec2>, i: nat): Vec2
    requires i < |trail|
  {
    if i < |ps| then ps[|ps| - 1 - i] else trail[i - |ps|]
  }

  /**
   * A trail of length `n >= 1` keeps its length, and after the moves to `ps`
   * it holds those positions newest first, followed by the front of the trail
   * it started from; so once there were `n` moves or more, it is exactly the
   * last `n` positions.
   */
  lemma {:induction false} MovesKeepRecent(trail: seq<Vec2>, ps: seq<Vec2>)
    requires |trail| >= 1
    ensures |Moves(trail, ps)| == |trail|
    ensures forall i :: 0 <= i < |trail| ==> Moves(trail, ps)[i] == Recent(trail, ps, i)
  {
    if ps != [] {
      var init, x := ps[..|ps| - 1], ps[|ps| - 1];
      MovesKeepRecent(trail, init);
      var prev := Moves(trail, init);
      var r := Moves(trail, ps);
      assert r == Shifted(prev, x);
      forall i | 0 <= i < |trail|
        ensures r[i] == Recent(trail, ps, i)
      {
        if i > 0 {
          assert r[i] == prev[i - 1];
          assert prev[i - 1] == Recent(trail, init, i - 1);
        }
      }
    }
  }

  class CursorTracker {
    const trailLength: nat
    var position: Vec2
    var velocity: Vec2
    var trail: seq<Vec2>
    var lastMousePos: Vec2
    var isMouseDown: bool

    /** The trail keeps the length it was created with, unless that length is 0. */
    ghost predicate Sized()
      reads this
    {
      trailLength >= 1 ==> |trail| == trailLength
    }

    /** Everything is zero, the trail is `trailLength` zero vectors and the button is up. */
    constructor (trailLength: nat)
      ensures this.trailLength == trailLength && Sized()
      ensures position == Zero2 && velocity == Zero2 && lastMousePos == Zero2 && !isMouseDown
      ensures |trail| == trailLength && forall i :: 0 <= i < trailLength ==> trail[i] == Zero2
    {
      this.trailLength := trailLength;
      position, velocity, lastMousePos := Zero2, Zero2, Zero2;
      trail := seq(trailLength, _ => Zero2);
      isMouseDown := false;
    }

    /**
     * `handleMouseMove` with the document rectangle's size as a parameter.
     * The button flag is not touched.
     */
    method MouseMove(clientX: real, clientY: real, width: real, height: real)
      requires width > 0.0 && height > 0.0
      modifies this`velocity, this`position, this`trail, this`lastMousePos
      ensures position == Vec2(NdcX(clientX, width), NdcY(clientY, height))
      ensures velocity == position.Sub(old(lastMousePos))
      ensures lastMousePos == position
      ensures trail == Shifted(old(trail), position)
      ensures old(Sized()) ==> Sized()
      ensures trail[0] == position
      ensures 0.0 <= clientX <= width && 0.0 <= clientY <= height ==>
        -1.0 <= position.x <= 1.0 && -1.0 <= position.y <= 1.0
    {
      var x := clientX / width * 2.0 - 1.0;
      var y := -(clientY / height) * 2.0 + 1.0;
      velocity := Vec2(x - lastMousePos.x, y - lastMousePos.y);
      position := Vec2(x, y);
      if |trail| > 0 {
        trail := trail[..|trail| - 1];
      }
      trail := [Vec2(x, y)] + trail;
      lastMousePos := Vec2(x, y);
    }

    method MouseDown()
      modifies this`isMouseDown
      ensures isMouseDown
    {
      isMouseDown := true;
    }

    method MouseUp()
      modifies this`isMouseDown
      ensures !isMouseDown
    {
      isMouseDown := false;
    }
  }
}
