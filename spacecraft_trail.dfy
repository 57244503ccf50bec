/**
 * The spacecraft trail of `SpacecraftTrail.tsx`: three parallel lists (points,
 * colours, stored alphas), newest first and bounded by `maxPoints`, mirrored
 * into fixed-size geometry buffers on every push, with every stored alpha
 * fading by x0.97 on each push and by x0.99 on each rendered frame.
 */
module SpacecraftTrail {
  import opened Vectors
  import opened MathLib
  import opened Buffers

  const DefaultMaxPoints: nat := 150
  const PushDecay: real := 0.97
  const FrameDecay: real := 0.99
  /** The colour every slot of the colour buffer starts with. */
  const InitialColor: Rgb := Rgb(0.0, 0.95, 1.0)

  function Min(a: int, b: int): int { if a <= b then a else b }

  /** `list.unshift(x)` followed, when the list is then longer than `cap`, by one `list.pop()`. */
  function PushFront<T>(s: seq<T>, x: T, cap: nat): (r: seq<T>)
    ensures |r| <= |s| + 1
    ensures |s| <= cap ==> |r| == Min(|s| + 1, cap)
    ensures |r| > 0 ==> r[0] == x && r[1..] == s[..|r| - 1]
    ensures cap > 0 ==> |r| > 0
  {
    var t := [x] + s;
    if |t| > cap then t[..|t| - 1] else t
  }

  /** The hue of the speed band a new point is coloured with. */
  function BandHue(speed: real): real {
    if speed > 2.0 then 0.7 else if speed > 1.0 then 0.6 else 0.5
  }

  /** Every stored alpha multiplied by `f`, as the loops do with `alphasRef.current[i] *= f`. */
  function Decayed(s: seq<real>, f: real): (r: seq<real>)
    ensures |r| == |s| && forall i :: 0 <= i < |s| ==> r[i] == s[i] * f
  {
    seq(|s|, i requires 0 <= i < |s| => s[i] * f)
  }

  predicate AlphasInRange(s: seq<real>) {
    forall i :: 0 <= i < |s| ==> 0.0 < s[i] <= 1.0
  }

  /** The window `sin(π·i/len)` that fades the trail in from its head. */
  function Window(m: Maths, i: nat, len: nat): real
    requires i < len
  {
    m.Sin(m.pi * (i as real / len as real))
  }

  /** The alpha written on a push: the stored alpha times the window. */
  function PushedAlpha(m: Maths, stored: real, i: nat, len: nat): real
    requires i < len
  {
    stored * Window(m, i, len)
  }

  /** The shimmer `sin(5·time + 0.2·i)·0.1 + 0.9` of a rendered frame. */
  function Wave(m: Maths, time: real, i: nat): real {
    m.Sin(time * 5.0 + i as real * 0.2) * 0.1 + 0.9
  }

  /** The alpha written on a frame: the stored alpha times the shimmer. */
  function FrameAlpha(m: Maths, stored: real, time: real, i: nat): real {
    stored * Wave(m, time, i)
  }

  /** Pushes `xs` one by one, oldest first. */
  function PushAll<T>(s: seq<T>, xs: seq<T>, cap: nat): seq<T>
    decreases |xs|
  {
    if xs == [] then s else PushFront(PushAll(s, xs[..|xs| - 1], cap), xs[|xs| - 1], cap)
  }

  function Reverse<T>(s: seq<T>): (r: seq<T>)
    ensures |r| == |s|
  {
    if s == [] then [] else [s[|s| - 1]] + Reverse(s[..|s| - 1])
  }

  lemma {:induction false} ReverseAt<T>(s: seq<T>, i: nat)
    requires i < |s|
    ensures Reverse(s)[i] == s[|s| - 1 - i]
  {
    if i > 0 {
      ReverseAt(s[..|s| - 1], i - 1);
    }
  }

  /** Starting empty, the trail holds the most recent `cap` pushes, newest first. */
  lemma {:induction false} PushAllKeepsMostRecent<T>(xs: seq<T>, cap: nat)
    ensures PushAll([], xs, cap) == Reverse(xs)[..Min(|xs|, cap)]
  {
    if xs != [] {
      var init, x := xs[..|xs| - 1], xs[|xs| - 1];
      PushAllKeepsMostRecent(init, cap);
      var prev := Reverse(init)[..Min(|init|, cap)];
      assert Reverse(xs) == [x] + Reverse(init);
      var r := PushFront(prev, x, cap);
      assert |r| == Min(|xs|, cap);
      if |r| > 0 {
        assert r == [x] + prev[..|r| - 1];
        assert r == Reverse(xs)[..Min(|xs|, cap)];
      }
    }
  }

  /** After `cap + k` pushes the trail is exactly the last `cap` positions, newest first. */
  lemma FullTrailIsLastPushes<T>(xs: seq<T>, cap: nat)
    requires |xs| >= cap
    ensures PushAll([], xs, cap) == Reverse(xs[|xs| - cap..])
  {
    PushAllKeepsMostRecent(xs, cap);
    var tail := xs[|xs| - cap..];
    forall i | 0 <= i < cap
      ensures Reverse(xs)[i] == Reverse(tail)[i]
    {
      ReverseAt(xs, i);
      ReverseAt(tail, i);
    }
  }

  /** `speed > 2` and `speed > 1` are the same tests on the squared speed; zero velocity is in the lowest band. */
  lemma BandHueBySquaredSpeed(m: Maths, v: Vec3)
    requires m.Valid()
    ensures BandHue(m.Length(v)) == 0.7 <==> v.LengthSq() > 4.0
    ensures BandHue(m.Length(v)) == 0.6 <==> 1.0 < v.LengthSq() <= 4.0
    ensures BandHue(m.Length(v)) == 0.5 <==> v.LengthSq() <= 1.0
    ensures v == Origin ==> BandHue(m.Length(v)) == 0.5
  {
    LengthAbove(m, v, 2.0);
    LengthAbove(m, v, 1.0);
    assert Sq(2.0) == 4.0 && Sq(1.0) == 1.0;
    LengthSqNonNegative(v);
  }

  /** On a push, the new point's stored alpha is 0.97 and every older one strictly drops and stays in (0, 1]. */
  lemma PushLowersEveryAlpha(alphas: seq<real>, cap: nat)
    requires AlphasInRange(alphas) && |alphas| <= cap && cap > 0
    ensures var r := Decayed(PushFront(alphas, 1.0, cap), PushDecay);
      && AlphasInRange(r)
      && r[0] == PushDecay
      && forall i :: 0 <= i < |r| - 1 ==> r[i + 1] < alphas[i]
  {
    var p := PushFront(alphas, 1.0, cap);
    var r := Decayed(p, PushDecay);
    forall i | 0 <= i < |r|
      ensures 0.0 < r[i] <= 1.0 && (i > 0 ==> r[i] < alphas[i - 1])
    {
      if i == 0 {
        assert p[0] == 1.0;
      } else {
        assert p[i] == alphas[i - 1];
        ShrinkFactor(alphas[i - 1], PushDecay);
      }
    }
  }

  /** On a frame, every stored alpha strictly drops and stays in (0, 1]. */
  lemma FrameLowersEveryAlpha(alphas: seq<real>)
    requires AlphasInRange(alphas)
    ensures var r := Decayed(alphas, FrameDecay);
      && AlphasInRange(r)
      && forall i :: 0 <= i < |r| ==> r[i] < alphas[i]
  {
    forall i | 0 <= i < |alphas|
      ensures 0.0 < alphas[i] * FrameDecay < alphas[i]
    {
      ShrinkFactor(alphas[i], FrameDecay);
    }
  }

  lemma FractionBelowOne(i: nat, len: nat)
    requires i < len
    ensures 0.0 <= i as real / len as real < 1.0
    ensures i == 0 ==> i as real / len as real == 0.0
  {
    var t := i as real / len as real;
    assert t * len as real == i as real;
    if t >= 1.0 {
      MulMonotone(1.0, t, len as real);
    }
  }

  /** The pushed alpha is 0 at the head and within [0, stored] all along the trail. */
  lemma PushedAlphaWindow(m: Maths, stored: real, i: nat, len: nat)
    requires m.Valid() && 0.0 <= stored && i < len
    ensures 0.0 <= PushedAlpha(m, stored, i, len) <= stored
    ensures i == 0 ==> PushedAlpha(m, stored, i, len) == 0.0
  {
    FractionBelowOne(i, len);
    if i == 0 {
      assert m.pi * (i as real / len as real) == 0.0;
      assert Window(m, i, len) == 0.0;
      assert PushedAlpha(m, stored, i, len) == stored * 0.0 == 0.0;
    } else {
      ScaledWithin(m.pi, i as real / len as real);
      assert 0.0 <= Window(m, i, len) <= 1.0;
      ScaledWithin(stored, Window(m, i, len));
      assert PushedAlpha(m, stored, i, len) == stored * Window(m, i, len);
      assert stored * Window(m, i, len) <= stored;
    }
  }

  /** The frame alpha lies within [0.8·stored, stored]. */
  lemma FrameAlphaWave(m: Maths, stored: real, time: real, i: nat)
    requires m.Valid() && 0.0 <= stored
    ensures 0.8 * stored <= FrameAlpha(m, stored, time, i) <= stored
  {
    assert FrameAlpha(m, stored, time, i) == stored * Wave(m, time, i);
    assert 0.8 <= Wave(m, time, i) <= 1.0;
    calc {
      0.8 * stored;
      <= { MulMonotone(0.8, Wave(m, time, i), stored); } Wave(m, time, i) * stored;
      == stored * Wave(m, time, i);
      <= { ScaledWithin(stored, Wave(m, time, i)); } stored;
    }
  }

  class Trail {
    const maxPoints: nat
    var points: seq<Vec3>
    var colors: seq<Rgb>
    var alphas: seq<real>
    /** The accumulated clock time that drives the frame wave. */
    var time: real
    const positionBuffer: array<real>
    const colorBuffer: array<real>
    const alphaBuffer: array<real>
    const uvBuffer: array<real>

    ghost predicate Valid()
      reads this
    {
      && |points| == |colors| == |alphas| <= maxPoints
      && AlphasInRange(alphas)
      && positionBuffer.Length == 3 * maxPoints
      && colorBuffer.Length == 3 * maxPoints
      && alphaBuffer.Length == maxPoints
      && uvBuffer.Length == 2 * maxPoints
      && positionBuffer != colorBuffer && positionBuffer != alphaBuffer && colorBuffer != alphaBuffer
    }

    /** The geometry buffers as the initial fill leaves them. */
    constructor (maxPoints: nat)
      ensures Valid() && this.maxPoints == maxPoints
      ensures points == [] && colors == [] && alphas == [] && time == 0.0
      ensures fresh(positionBuffer) && fresh(colorBuffer) && fresh(alphaBuffer) && fresh(uvBuffer)
      ensures forall i :: 0 <= i < maxPoints ==> Vec3At(positionBuffer, i) == Origin
      ensures forall i :: 0 <= i < maxPoints ==> RgbAt(colorBuffer, i) == InitialColor
      ensures forall i :: 0 <= i < maxPoints ==> alphaBuffer[i] == 0.0
      ensures forall i :: 0 <= i < maxPoints ==> uvBuffer[2 * i] == i as real / maxPoints as real && uvBuffer[2 * i + 1] == 0.0
    {
      var positions := new real[maxPoints * 3];
      var colorArr := new real[maxPoints * 3];
      var alphaArr := new real[maxPoints];
      var uvs := new real[maxPoints * 2];
      for i := 0 to maxPoints
        invariant forall k :: 0 <= k < i ==> Vec3At(positions, k) == Origin
        invariant forall k :: 0 <= k < i ==> RgbAt(colorArr, k) == InitialColor
        invariant forall k :: 0 <= k < i ==> alphaArr[k] == 0.0
        invariant forall k :: 0 <= k < i ==> uvs[2 * k] == k as real / maxPoints as real && uvs[2 * k + 1] == 0.0
      {
        SetVec3(positions, i, Origin);
        SetRgb(colorArr, i, InitialColor);
        alphaArr[i] := 0.0;
        uvs[i * 2] := i as real / maxPoints as real;
        uvs[i * 2 + 1] := 0.0;
      }
      this.maxPoints := maxPoints;
      points, colors, alphas, time := [], [], [], 0.0;
      positionBuffer, colorBuffer, alphaBuffer, uvBuffer := positions, colorArr, alphaArr, uvs;
    }

    /** `updateTrail(position, velocity)`: push, colour by speed band, decay, and rewrite the buffers. */
    method UpdateTrail(position: Vec3, velocity: Vec3, m: Maths)
      requires Valid() && m.Valid()
      modifies this`points, this`colors, this`alphas, positionBuffer, colorBuffer, alphaBuffer
      ensures Valid()
      ensures points == PushFront(old(points), position, maxPoints)
      ensures colors == PushFront(old(colors), m.Hsl(BandHue(m.Length(velocity)), 1.0, 0.5), maxPoints)
      ensures alphas == Decayed(PushFront(old(alphas), 1.0, maxPoints), PushDecay)
      ensures forall i :: 0 <= i < |points| ==>
        && Vec3At(positionBuffer, i) == points[i]
        && RgbAt(colorBuffer, i) == colors[i]
        && alphaBuffer[i] == PushedAlpha(m, alphas[i], i, |points|)
      ensures forall k :: |points| <= k < maxPoints ==>
        && Vec3At(positionBuffer, k) == old(Vec3At(positionBuffer, k))
        && RgbAt(colorBuffer, k) == old(RgbAt(colorBuffer, k))
        && alphaBuffer[k] == old(alphaBuffer[k])
    {
      points := [position] + points;
      var speed := m.Length(velocity);
      var color := m.Hsl(BandHue(speed), 1.0, 0.5);
      colors := [color] + colors;
      alphas := [1.0] + alphas;
      if |points| > maxPoints {
        points := points[..|points| - 1];
        colors := colors[..|colors| - 1];
        alphas := alphas[..|alphas| - 1];
      }
      ghost var pushed := alphas;
      WriteBuffers(m);
      assert pushed == PushFront(old(alphas), 1.0, maxPoints);
      if maxPoints > 0 {
        PushLowersEveryAlpha(old(alphas), maxPoints);
      }
    }

    /** The loop of `updateTrail`: decay each stored alpha by x0.97 and write every buffer slot of the trail. */
    method WriteBuffers(m: Maths)
      requires |points| == |colors| == |alphas| <= maxPoints
      requires positionBuffer.Length == 3 * maxPoints && colorBuffer.Length == 3 * maxPoints
      requires alphaBuffer.Length == maxPoints
      requires positionBuffer != colorBuffer && positionBuffer != alphaBuffer && colorBuffer != alphaBuffer
      modifies this`alphas, positionBuffer, colorBuffer, alphaBuffer
      ensures alphas == Decayed(old(alphas), PushDecay)
      ensures forall i :: 0 <= i < |points| ==>
        && Vec3At(positionBuffer, i) == points[i]
        && RgbAt(colorBuffer, i) == colors[i]
        && alphaBuffer[i] == PushedAlpha(m, alphas[i], i, |points|)
      ensures forall k :: |points| <= k < maxPoints ==>
        && Vec3At(positionBuffer, k) == old(Vec3At(positionBuffer, k))
        && RgbAt(colorBuffer, k) == old(RgbAt(colorBuffer, k))
        && alphaBuffer[k] == old(alphaBuffer[k])
    {
      ghost var stored := alphas;
      var n := |points|;
      var i := 0;
      while i < n
        invariant 0 <= i <= n == |alphas| == |stored|
        invariant forall k :: 0 <= k < i ==> alphas[k] == stored[k] * PushDecay
        invariant forall k :: i <= k < n ==> alphas[k] == stored[k]
        invariant forall k :: 0 <= k < i ==>
          && Vec3At(positionBuffer, k) == points[k]
          && RgbAt(colorBuffer, k) == colors[k]
          && alphaBuffer[k] == PushedAlpha(m, alphas[k], k, n)
        invariant forall k :: i <= k < maxPoints ==>
          && Vec3At(positionBuffer, k) == old(Vec3At(positionBuffer, k))
          && RgbAt(colorBuffer, k) == old(RgbAt(colorBuffer, k))
          && alphaBuffer[k] == old(alphaBuffer[k])
      {
        SetVec3(positionBuffer, i, points[i]);
        SetRgb(colorBuffer, i, colors[i]);
        alphas := alphas[i := alphas[i] * PushDecay];
        alphaBuffer[i] := PushedAlpha(m, alphas[i], i, n);
        i := i + 1;
      }
      assert alphas == Decayed(stored, PushDecay);
    }

    /** The `useFrame` callback: advance the clock, decay every stored alpha and write the waved alphas. */
    method Frame(rendered: bool, clockDelta: real, m: Maths)
      requires Valid()
      modifies this`time, this`alphas, alphaBuffer
      ensures Valid()
      ensures !rendered ==> time == old(time) && alphas == old(alphas) && unchanged(alphaBuffer)
      ensures rendered ==> time == old(time) + clockDelta && alphas == Decayed(old(alphas), FrameDecay)
      ensures rendered ==> forall i :: 0 <= i < |alphas| ==> alphaBuffer[i] == FrameAlpha(m, alphas[i], time, i)
      ensures forall j :: |alphas| <= j < maxPoints ==> alphaBuffer[j] == old(alphaBuffer[j])
    {
      if !rendered {
        return;
      }
      time := time + clockDelta;
      FrameLowersEveryAlpha(alphas);
      ghost var now := time;
      ghost var before := alphas;
      var n := |alphas|;
      var i := 0;
      while i < n
        invariant 0 <= i <= n == |alphas| == |before| <= maxPoints
        invariant time == now
        invariant forall k :: 0 <= k < i ==> alphas[k] == before[k] * FrameDecay
        invariant forall k :: i <= k < n ==> alphas[k] == before[k]
        invariant forall k :: 0 <= k < i ==> alphaBuffer[k] == FrameAlpha(m, alphas[k], time, k)
        invariant forall j :: i <= j < maxPoints ==> alphaBuffer[j] == old(alphaBuffer[j])
      {
        alphas := alphas[i := alphas[i] * FrameDecay];
        alphaBuffer[i] := FrameAlpha(m, alphas[i], time, i);
        i := i + 1;
      }
      assert alphas == Decayed(before, FrameDecay);
    }
  }
}
