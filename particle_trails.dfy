/**
 * The cursor particle field of `ParticleTrails.tsx`. Each rendered frame
 * spawns a burst of particles at the cursor (never more than `ParticleCount`
 * in all), moves every particle one step, drops those whose life ran out and
 * packs the survivors, in order, into the front of the position and colour
 * buffers.
 */
module ParticleTrails {
  import opened Vectors
  import opened MathLib
  import opened Buffers

  const ParticleCount: nat := 1000
  const LifeStep: real := 0.01
  const Pull: real := 0.001
  const Damping: real := 0.98

  datatype Particle = Particle(position: Vec3, velocity: Vec3, life: real, color: Rgb)

  function Min(a: int, b: int): int { if a <= b then a else b }

  /** `(Math.random() - 0.5) * scale` for the draw `r`. */
  function Jitter(r: real, scale: real): real { (r - 0.5) * scale }

  /** The cursor position in world space. */
  function MouseWorld(cursor: Vec2): Vec3 { Vec3(cursor.x * 10.0, cursor.y * 5.0, 0.0) }

  /** `Math.floor(speed * 10) + 1` */
  function SpawnCount(speed: real): int { (speed * 10.0).Floor + 1 }

  /** The hue every particle of one burst gets. */
  function SpawnHue(speed: real): real { if speed > 0.05 then 0.6 else 0.3 }

  /** How many particles the spawn loop adds to a collection of `len`. */
  function SpawnTotal(count: int, len: nat): (n: nat)
    ensures len <= ParticleCount ==> len + n <= ParticleCount
    ensures n <= count || n == 0
    ensures 0 < count && len < ParticleCount ==> n > 0
  {
    if count <= 0 || len >= ParticleCount then 0 else Min(count, ParticleCount - len)
  }

  /** The particle spawned with the six draws starting at `base`: three for the position, then three for the velocity. */
  function NewParticle(mouse: Vec3, cursorVelocity: Vec2, color: Rgb, rng: seq<real>, base: nat): Particle {
    Particle(
      mouse.Add(Vec3(Jitter(Draw(rng, base), 0.5), Jitter(Draw(rng, base + 1), 0.5), Jitter(Draw(rng, base + 2), 0.5))),
      Vec3(cursorVelocity.x * 2.0 + Jitter(Draw(rng, base + 3), 0.2),
           cursorVelocity.y * 2.0 + Jitter(Draw(rng, base + 4), 0.2),
           Jitter(Draw(rng, base + 5), 0.2)),
      1.0,
      color)
  }

  /** The first `count` particles of a burst, the k-th consuming draws `6k .. 6k+5`. */
  function Spawned(mouse: Vec3, cursorVelocity: Vec2, color: Rgb, rng: seq<real>, count: nat): (r: seq<Particle>)
    ensures |r| == count
  {
    if count == 0 then []
    else Spawned(mouse, cursorVelocity, color, rng, count - 1) + [NewParticle(mouse, cursorVelocity, color, rng, 6 * (count - 1))]
  }

  /** The k-th particle of a burst takes the six draws starting at `6k`. */
  lemma {:induction false} SpawnedAt(mouse: Vec3, cursorVelocity: Vec2, color: Rgb, rng: seq<real>, count: nat, k: nat)
    requires k < count
    ensures Spawned(mouse, cursorVelocity, color, rng, count)[k] == NewParticle(mouse, cursorVelocity, color, rng, 6 * k)
  {
    if k < count - 1 {
      SpawnedAt(mouse, cursorVelocity, color, rng, count - 1, k);
    }
  }

  /** The random nudge of one update step, from the three draws starting at `base`. */
  function StepJitter(rng: seq<real>, base: nat): Vec3 {
    Vec3(Jitter(Draw(rng, base), 0.01), Jitter(Draw(rng, base + 1), 0.01), Jitter(Draw(rng, base + 2), 0.01))
  }

  /** One update step of the filter callback with the random nudge `jitter`: move, pull towards the centre, nudge, damp, age. */
  function Step(p: Particle, jitter: Vec3): Particle {
    var position := p.position.Add(p.velocity);
    var pulled := p.velocity.Add(position.Negate().Scale(Pull));
    Particle(position, pulled.Add(jitter).Scale(Damping), p.life - LifeStep, p.color)
  }

  /** The nudges of an update pass over `n` particles: the j-th from the three draws starting at `base + 3j`. */
  function Nudges(rng: seq<real>, base: nat, n: nat): (r: seq<Vec3>)
    ensures |r| == n
  {
    if n == 0 then [] else Nudges(rng, base, n - 1) + [StepJitter(rng, base + 3 * (n - 1))]
  }

  /** Every particle of `ps` stepped once, the j-th with nudge `nudges[j]`. */
  function Updated(ps: seq<Particle>, nudges: seq<Vec3>): (r: seq<Particle>)
    requires |ps| <= |nudges|
    ensures |r| == |ps|
  {
    if ps == [] then []
    else Updated(ps[..|ps| - 1], nudges) + [Step(ps[|ps| - 1], nudges[|ps| - 1])]
  }

  /** Particle `j` of the pass is stepped with its own nudge, drawn from `base + 3j .. base + 3j + 2`. */
  lemma {:induction false} UpdatedAt(ps: seq<Particle>, rng: seq<real>, base: nat, j: nat)
    requires j < |ps|
    ensures Nudges(rng, base, |ps|)[j] == StepJitter(rng, base + 3 * j)
    ensures Updated(ps, Nudges(rng, base, |ps|))[j] == Step(ps[j], StepJitter(rng, base + 3 * j))
  {
    NudgesAt(rng, base, |ps|, j);
    UpdatedStepsEach(ps, Nudges(rng, base, |ps|), j);
  }

  lemma {:induction false} NudgesAt(rng: seq<real>, base: nat, n: nat, j: nat)
    requires j < n
    ensures Nudges(rng, base, n)[j] == StepJitter(rng, base + 3 * j)
  {
    if j < n - 1 {
      NudgesAt(rng, base, n - 1, j);
    }
  }

  lemma {:induction false} UpdatedStepsEach(ps: seq<Particle>, nudges: seq<Vec3>, j: nat)
    requires j < |ps| <= |nudges|
    ensures Updated(ps, nudges)[j] == Step(ps[j], nudges[j])
  {
    if j < |ps| - 1 {
      var init := ps[..|ps| - 1];
      UpdatedStepsEach(init, nudges, j);
      assert init[j] == ps[j];
    }
  }

  /** The particles the filter keeps: those whose life is still positive, in their order. */
  function Survivors(ps: seq<Particle>): (r: seq<Particle>)
    ensures |r| <= |ps|
  {
    if ps == [] then []
    else Survivors(ps[..|ps| - 1]) + (if ps[|ps| - 1].life > 0.0 then [ps[|ps| - 1]] else [])
  }

  /** The indices of the particles `Survivors` keeps. */
  function KeptIndices(ps: seq<Particle>): seq<nat>
  {
    if ps == [] then []
    else KeptIndices(ps[..|ps| - 1]) + (if ps[|ps| - 1].life > 0.0 then [|ps| - 1] else [])
  }

  /** The collection invariant: never over capacity, every life in (0, 1]. */
  predicate Lively(ps: seq<Particle>) {
    forall i :: 0 <= i < |ps| ==> 0.0 < ps[i].life <= 1.0
  }

  /** The k-th survivor is the particle at the k-th kept index. */
  lemma {:induction false} KeptIndicesMatch(ps: seq<Particle>)
    ensures |KeptIndices(ps)| == |Survivors(ps)|
    ensures forall k :: 0 <= k < |KeptIndices(ps)| ==>
      KeptIndices(ps)[k] < |ps| && Survivors(ps)[k] == ps[KeptIndices(ps)[k]]
  {
    if ps != [] {
      var init := ps[..|ps| - 1];
      KeptIndicesMatch(init);
      assert forall j :: 0 <= j < |init| ==> init[j] == ps[j];
    }
  }

  /** The kept indices are strictly increasing, so the survivors keep their relative order. */
  lemma {:induction false} KeptIndicesIncreasing(ps: seq<Particle>)
    ensures forall a, b :: 0 <= a < b < |KeptIndices(ps)| ==> KeptIndices(ps)[a] < KeptIndices(ps)[b]
  {
    if ps != [] {
      var init := ps[..|ps| - 1];
      KeptIndicesIncreasing(init);
      KeptIndicesMatch(init);
    }
  }

  /** Every particle of positive life is kept. */
  lemma {:induction false} KeptIndicesComplete(ps: seq<Particle>)
    ensures forall j :: 0 <= j < |ps| && ps[j].life > 0.0 ==> j in KeptIndices(ps)
  {
    if ps != [] {
      var init := ps[..|ps| - 1];
      KeptIndicesComplete(init);
      assert forall j :: 0 <= j < |init| ==> init[j] == ps[j];
    }
  }

  /** Every kept index is the index of a particle of positive life. */
  lemma {:induction false} KeptIndicesLive(ps: seq<Particle>)
    ensures forall k :: 0 <= k < |KeptIndices(ps)| ==>
      KeptIndices(ps)[k] < |ps| && ps[KeptIndices(ps)[k]].life > 0.0
  {
    if ps != [] {
      var init := ps[..|ps| - 1];
      KeptIndicesLive(init);
      assert forall j :: 0 <= j < |init| ==> init[j] == ps[j];
    }
  }

  /** The survivors are exactly the particles of positive life, in their original order. */
  lemma SurvivorsInOrder(ps: seq<Particle>)
    ensures var r, ks := Survivors(ps), KeptIndices(ps);
      && |ks| == |r|
      && (forall k :: 0 <= k < |ks| ==> ks[k] < |ps| && r[k] == ps[ks[k]])
      && (forall a, b :: 0 <= a < b < |ks| ==> ks[a] < ks[b])
      && (forall j :: 0 <= j < |ps| && ps[j].life > 0.0 ==> j in ks)
      && (forall k :: 0 <= k < |ks| ==> ps[ks[k]].life > 0.0)
  {
    KeptIndicesMatch(ps);
    KeptIndicesLive(ps);
    KeptIndicesIncreasing(ps);
    KeptIndicesComplete(ps);
  }

  /** Every spawned particle starts with full life and the burst's colour. */
  lemma SpawnedFresh(mouse: Vec3, cursorVelocity: Vec2, color: Rgb, rng: seq<real>, count: nat)
    ensures forall k :: 0 <= k < count ==>
      Spawned(mouse, cursorVelocity, color, rng, count)[k].life == 1.0
      && Spawned(mouse, cursorVelocity, color, rng, count)[k].color == color
  {
    forall k | 0 <= k < count
      ensures Spawned(mouse, cursorVelocity, color, rng, count)[k] == NewParticle(mouse, cursorVelocity, color, rng, 6 * k)
    {
      SpawnedAt(mouse, cursorVelocity, color, rng, count, k);
    }
  }

  /** At least one particle is asked for on every frame; fast bursts are blue and slow ones green. */
  lemma SpawnBand(m: Maths, velocity: Vec2)
    requires m.Valid()
    ensures SpawnCount(m.Length2(velocity)) >= 1
    ensures SpawnHue(m.Length2(velocity)) == 0.6 <==> velocity.LengthSq() > 0.0025
    ensures SpawnHue(m.Length2(velocity)) == 0.3 <==> velocity.LengthSq() <= 0.0025
  {
    Length2Above(m, velocity, 0.05);
    assert Sq(0.05) == 0.0025;
  }

  /** One step moves by the old velocity, then sets the velocity to `(v - 0.001·p' + jitter)·0.98` with each jitter component in [-0.005, 0.005), and ages by 0.01. */
  lemma StepEffect(p: Particle, rng: seq<real>, base: nat)
    requires IsRandomStream(rng)
    ensures var s, jit := Step(p, StepJitter(rng, base)), StepJitter(rng, base);
      && s.position == p.position.Add(p.velocity)
      && s.velocity == p.velocity.Sub(s.position.Scale(Pull)).Add(jit).Scale(Damping)
      && s.life == p.life - LifeStep
      && s.color == p.color
      && -0.005 <= jit.x < 0.005 && -0.005 <= jit.y < 0.005 && -0.005 <= jit.z < 0.005
  {
    assert 0.0 <= Draw(rng, base) < 1.0 && 0.0 <= Draw(rng, base + 1) < 1.0 && 0.0 <= Draw(rng, base + 2) < 1.0;
  }

  /**
   * `p` stepped `k` times, the draws of step `t` starting at `3t`. The draws
   * only feed the jitter of the velocity, never the life, so `Mortal` below
   * holds for any placement of the draws, in particular for the one
   * `NextParticles` uses from frame to frame.
   */
  function Aged(p: Particle, rng: seq<real>, k: nat): Particle
  {
    if k == 0 then p else Step(Aged(p, rng, k - 1), StepJitter(rng, 3 * (k - 1)))
  }

  lemma {:induction false} AgedLife(p: Particle, rng: seq<real>, k: nat)
    ensures Aged(p, rng, k).life == p.life - LifeStep * k as real
  {
    if k > 0 {
      AgedLife(p, rng, k - 1);
    }
  }

  /** A particle of life at most 1 fails the keep test after at most 100 steps. */
  lemma Mortal(p: Particle, rng: seq<real>)
    requires p.life <= 1.0
    ensures Aged(p, rng, 100).life <= 0.0
  {
    AgedLife(p, rng, 100);
  }

  /** The burst one frame spawns into a collection of `len` particles. */
  function Burst(len: nat, cursorPosition: Vec2, cursorVelocity: Vec2, m: Maths, rng: seq<real>): seq<Particle> {
    var speed := m.Length2(cursorVelocity);
    Spawned(MouseWorld(cursorPosition), cursorVelocity, m.Hsl(SpawnHue(speed), 1.0, 0.5), rng,
      SpawnTotal(SpawnCount(speed), len))
  }

  /** The collection after one rendered frame: spawn, then step every particle and keep the live ones. */
  function NextParticles(ps: seq<Particle>, cursorPosition: Vec2, cursorVelocity: Vec2, m: Maths, rng: seq<real>): seq<Particle> {
    var burst := Burst(|ps|, cursorPosition, cursorVelocity, m, rng);
    Survivors(Updated(ps + burst, Nudges(rng, 6 * |burst|, |ps| + |burst|)))
  }

  /** A frame spawns `min(spawnCount, ParticleCount - len)` particles, so the collection never exceeds `ParticleCount`. */
  lemma BurstFills(len: nat, cursorPosition: Vec2, cursorVelocity: Vec2, m: Maths, rng: seq<real>)
    requires m.Valid() && len <= ParticleCount
    ensures var burst := Burst(len, cursorPosition, cursorVelocity, m, rng);
      && |burst| == Min(SpawnCount(m.Length2(cursorVelocity)), ParticleCount - len)
      && len + |burst| <= ParticleCount
      && (len < ParticleCount ==> |burst| >= 1)
  {
    SpawnBand(m, cursorVelocity);
  }

  /** After a frame the collection is still within capacity and every life is in (0, 1]. */
  lemma NextIsLively(ps: seq<Particle>, cursorPosition: Vec2, cursorVelocity: Vec2, m: Maths, rng: seq<real>)
    requires |ps| <= ParticleCount && Lively(ps)
    ensures |NextParticles(ps, cursorPosition, cursorVelocity, m, rng)| <= ParticleCount
    ensures Lively(NextParticles(ps, cursorPosition, cursorVelocity, m, rng))
  {
    var burst := Burst(|ps|, cursorPosition, cursorVelocity, m, rng);
    var all := ps + burst;
    var nudges := Nudges(rng, 6 * |burst|, |all|);
    forall k | 0 <= k < |burst|
      ensures burst[k].life == 1.0
    {
      var speed := m.Length2(cursorVelocity);
      SpawnedAt(MouseWorld(cursorPosition), cursorVelocity, m.Hsl(SpawnHue(speed), 1.0, 0.5), rng,
        SpawnTotal(SpawnCount(speed), |ps|), k);
    }
    assert Lively(all);
    LivelyAfterStep(all, nudges);
  }

  /** The draws one frame reads: six per spawned particle, then three per particle stepped. */
  function DrawsRead(len: nat, spawned: nat): nat { 6 * spawned + 3 * (len + spawned) }

  /**
   * A frame reads only the first `DrawsRead` draws of its stream, and never
   * more than `9 · ParticleCount` of them: two streams that agree on those
   * draws give the same next collection.
   */
  lemma FrameReadsFirstDraws(ps: seq<Particle>, cursorPosition: Vec2, cursorVelocity: Vec2, m: Maths, rng: seq<real>, other: seq<real>)
    requires |ps| <= ParticleCount
    requires forall i :: 0 <= i < DrawsRead(|ps|, SpawnTotal(SpawnCount(m.Length2(cursorVelocity)), |ps|)) ==>
      Draw(rng, i) == Draw(other, i)
    ensures NextParticles(ps, cursorPosition, cursorVelocity, m, rng) == NextParticles(ps, cursorPosition, cursorVelocity, m, other)
    ensures DrawsRead(|ps|, SpawnTotal(SpawnCount(m.Length2(cursorVelocity)), |ps|)) <= 9 * ParticleCount
  {
    var speed := m.Length2(cursorVelocity);
    var count := SpawnTotal(SpawnCount(speed), |ps|);
    var color := m.Hsl(SpawnHue(speed), 1.0, 0.5);
    SpawnedSameDraws(MouseWorld(cursorPosition), cursorVelocity, color, rng, other, count);
    var burst := Burst(|ps|, cursorPosition, cursorVelocity, m, rng);
    assert burst == Burst(|ps|, cursorPosition, cursorVelocity, m, other);
    NudgesSameDraws(rng, other, 6 * count, |ps| + count);
  }

  lemma {:induction false} SpawnedSameDraws(mouse: Vec3, cursorVelocity: Vec2, color: Rgb, rng: seq<real>, other: seq<real>, count: nat)
    requires forall i :: 0 <= i < 6 * count ==> Draw(rng, i) == Draw(other, i)
    ensures Spawned(mouse, cursorVelocity, color, rng, count) == Spawned(mouse, cursorVelocity, color, other, count)
  {
    if count > 0 {
      SpawnedSameDraws(mouse, cursorVelocity, color, rng, other, count - 1);
      var b := 6 * (count - 1);
      assert Draw(rng, b) == Draw(other, b) && Draw(rng, b + 1) == Draw(other, b + 1);
      assert Draw(rng, b + 2) == Draw(other, b + 2) && Draw(rng, b + 3) == Draw(other, b + 3);
      assert Draw(rng, b + 4) == Draw(other, b + 4) && Draw(rng, b + 5) == Draw(other, b + 5);
    }
  }

  lemma {:induction false} NudgesSameDraws(rng: seq<real>, other: seq<real>, base: nat, n: nat)
    requires forall i :: base <= i < base + 3 * n ==> Draw(rng, i) == Draw(other, i)
    ensures Nudges(rng, base, n) == Nudges(other, base, n)
  {
    if n > 0 {
      NudgesSameDraws(rng, other, base, n - 1);
      var b := base + 3 * (n - 1);
      assert Draw(rng, b) == Draw(other, b) && Draw(rng, b + 1) == Draw(other, b + 1);
      assert Draw(rng, b + 2) == Draw(other, b + 2);
    }
  }

  class ParticleField {
    var particles: seq<Particle>
    const positions: array<real>
    const colors: array<real>

    ghost predicate Valid()
      reads this
    {
      && |particles| <= ParticleCount
      && Lively(particles)
      && positions.Length == 3 * ParticleCount && colors.Length == 3 * ParticleCount
      && positions != colors
    }

    /** Slot k of the buffers shows particle k of `ps`: its position, and its colour scaled by its life. */
    ghost predicate Shows(ps: seq<Particle>)
      reads positions, colors
    {
      && |ps| <= ParticleCount && positions.Length == 3 * ParticleCount && colors.Length == 3 * ParticleCount
      && forall k :: 0 <= k < |ps| ==>
        && Vec3At(positions, k) == ps[k].position
        && RgbAt(colors, k) == ps[k].color.Scale(ps[k].life)
    }

    /** No buffer slot at or beyond `n` has changed. */
    twostate predicate SlotsKeptFrom(n: nat)
      reads positions, colors
    {
      positions.Length == 3 * ParticleCount && colors.Length == 3 * ParticleCount ==>
        forall k :: n <= k < ParticleCount ==>
          && Vec3At(positions, k) == old(Vec3At(positions, k))
          && RgbAt(colors, k) == old(RgbAt(colors, k))
    }

    constructor ()
      ensures Valid() && particles == []
      ensures fresh(positions) && fresh(colors)
      ensures forall j :: 0 <= j < positions.Length ==> positions[j] == 0.0
      ensures forall j :: 0 <= j < colors.Length ==> colors[j] == 0.0
    {
      particles := [];
      positions := new real[3 * ParticleCount](_ => 0.0);
      colors := new real[3 * ParticleCount](_ => 0.0);
    }

    /** The `useFrame` callback; `rng` is this frame's stream of `Math.random()` draws. */
    method Frame(rendered: bool, cursorPosition: Vec2, cursorVelocity: Vec2, m: Maths, rng: seq<real>)
      requires Valid()
      modifies this`particles, positions, colors
      ensures Valid()
      ensures !rendered ==> particles == old(particles) && unchanged(positions) && unchanged(colors)
      ensures rendered ==> particles == NextParticles(old(particles), cursorPosition, cursorVelocity, m, rng)
      ensures rendered ==> Shows(particles)
      ensures SlotsKeptFrom(|particles|)
    {
      if !rendered {
        return;
      }
      var mouse := MouseWorld(cursorPosition);
      var speed := m.Length2(cursorVelocity);
      var spawnCount := SpawnCount(speed);
      var added := Spawn(mouse, cursorVelocity, speed, spawnCount, m, rng);
      var nudges := Nudges(rng, 6 * added, |particles|);
      UpdateAndPack(nudges);
    }

    /** The spawn loop: push one particle per iteration while fewer than `spawnCount` were pushed and there is room. */
    method Spawn(mouse: Vec3, cursorVelocity: Vec2, speed: real, spawnCount: int, m: Maths, rng: seq<real>) returns (added: nat)
      requires Valid()
      modifies this`particles
      ensures added == SpawnTotal(spawnCount, |old(particles)|)
      ensures particles == old(particles) + Spawned(mouse, cursorVelocity, m.Hsl(SpawnHue(speed), 1.0, 0.5), rng, added)
      ensures |particles| <= ParticleCount && Lively(particles)
    {
      added := 0;
      ghost var burst: seq<Particle> := [];
      while added < spawnCount && |particles| < ParticleCount
        invariant |particles| == |old(particles)| + added <= ParticleCount
        invariant added == 0 || added <= spawnCount
        invariant burst == Spawned(mouse, cursorVelocity, m.Hsl(SpawnHue(speed), 1.0, 0.5), rng, added)
        invariant particles == old(particles) + burst
        invariant Lively(particles)
      {
        var color := m.Hsl(SpawnHue(speed), 1.0, 0.5);
        var particle := NewParticle(mouse, cursorVelocity, color, rng, 6 * added);
        assert (old(particles) + burst) + [particle] == old(particles) + (burst + [particle]);
        particles := particles + [particle];
        burst := burst + [particle];
        added := added + 1;
      }
    }

    /** The three position and three colour writes for the survivor in slot `index`, its colour scaled by its life. */
    method WriteSlot(index: nat, particle: Particle)
      requires index < ParticleCount
      requires positions.Length == 3 * ParticleCount && colors.Length == 3 * ParticleCount && positions != colors
      modifies positions, colors
      ensures Vec3At(positions, index) == particle.position
      ensures RgbAt(colors, index) == particle.color.Scale(particle.life)
      ensures forall k :: 0 <= k < ParticleCount && k != index ==>
        && Vec3At(positions, k) == old(Vec3At(positions, k))
        && RgbAt(colors, k) == old(RgbAt(colors, k))
    {
      SetVec3(positions, index, particle.position);
      SetRgb(colors, index, particle.color.Scale(particle.life));
    }

    /** The filter pass: step every particle, keep the live ones and write them into the buffers through the running `index`. */
    method UpdateAndPack(nudges: seq<Vec3>)
      requires |particles| <= ParticleCount && Lively(particles) && |nudges| == |particles|
      requires positions.Length == 3 * ParticleCount && colors.Length == 3 * ParticleCount && positions != colors
      modifies this`particles, positions, colors
      ensures particles == Survivors(Updated(old(particles), nudges))
      ensures Lively(particles)
      ensures Shows(particles) && SlotsKeptFrom(|particles|)
    {
      var all := particles;
      var kept: seq<Particle> := [];
      var index: nat := 0;
      var j := 0;
      while j < |all|
        invariant 0 <= j <= |all| && index == |kept| <= j
        invariant all == old(particles)
        invariant kept == Packed(all, nudges, j)
        invariant forall k :: 0 <= k < |kept| ==> 0.0 < kept[k].life <= 1.0 - LifeStep
        invariant Shows(kept) && SlotsKeptFrom(index)
      {
        var particle := Step(all[j], nudges[j]);
        if particle.life > 0.0 && index < ParticleCount {
          WriteSlot(index, particle);
          index := index + 1;
          kept := kept + [particle];
        }
        j := j + 1;
      }
      particles := kept;
      PackedIsSurvivors(all, nudges, |all|);
      assert all[..|all|] == all;
    }
  }

  /** The filter pass over the first `j` particles, as the running `index` sees it. */
  function Packed(ps: seq<Particle>, nudges: seq<Vec3>, j: nat): seq<Particle>
    requires j <= |ps| <= |nudges|
  {
    if j == 0 then []
    else
      var p := Step(ps[j - 1], nudges[j - 1]);
      Packed(ps, nudges, j - 1) + (if p.life > 0.0 then [p] else [])
  }

  lemma {:induction false} PackedIsSurvivors(ps: seq<Particle>, nudges: seq<Vec3>, j: nat)
    requires j <= |ps| <= |nudges|
    ensures Packed(ps, nudges, j) == Survivors(Updated(ps[..j], nudges))
  {
    if j > 0 {
      PackedIsSurvivors(ps, nudges, j - 1);
      assert ps[..j][..j - 1] == ps[..j - 1];
      SurvivorsAppend(Updated(ps[..j - 1], nudges), Step(ps[j - 1], nudges[j - 1]));
    }
  }

  /** Stepping lowers every life by 0.01; the survivors therefore all have life in (0, 0.99]. */
  lemma LivelyAfterStep(ps: seq<Particle>, nudges: seq<Vec3>)
    requires |ps| <= |nudges| && Lively(ps)
    ensures Lively(Survivors(Updated(ps, nudges)))
    ensures forall k :: 0 <= k < |Survivors(Updated(ps, nudges))| ==> Survivors(Updated(ps, nudges))[k].life <= 1.0 - LifeStep
  {
    PackedIsSurvivors(ps, nudges, |ps|);
    assert ps[..|ps|] == ps;
    PackedLively(ps, nudges, |ps|);
  }

  lemma {:induction false} PackedLively(ps: seq<Particle>, nudges: seq<Vec3>, j: nat)
    requires j <= |ps| <= |nudges| && Lively(ps)
    ensures forall k :: 0 <= k < |Packed(ps, nudges, j)| ==> 0.0 < Packed(ps, nudges, j)[k].life <= 1.0 - LifeStep
  {
    if j > 0 {
      PackedLively(ps, nudges, j - 1);
    }
  }

  /** One more particle seen by the filter: it joins the survivors iff its life is positive. */
  lemma SurvivorsAppend(ps: seq<Particle>, p: Particle)
    ensures Survivors(ps + [p]) == if p.life > 0.0 then Survivors(ps) + [p] else Survivors(ps)
  {
    assert (ps + [p])[..|ps|] == ps;
  }
}
