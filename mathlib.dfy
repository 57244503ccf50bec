/**
 * The library routines the frame code calls but that the model does not
 * compute: `Math.sqrt` (inside `length()` and `normalize()`), `Math.sin`,
 * `Math.PI`, `Color.setHSL` and the mouse-aim quaternion of the controls hook.
 * They are passed in as a record of functions; `Valid` lists the only facts
 * about them that the proofs use.
 */
module MathLib {
  import opened Vectors

  datatype Maths = Maths(
    pi: real,
    sqrt: real -> real,
    sin: real -> real,
    /** `new Color().setHSL(h, s, l)` */
    hsl: (real, real, real) -> Rgb,
    /** The direction `v` turned by the quaternion of `Euler(-my·π/4, -mx·π/4, 0)`. */
    aim: (real, real, Vec3) -> Vec3)
  {
    ghost predicate Valid() {
      && 3.14 < pi < 3.15
      && (forall a :: 0.0 <= a ==> 0.0 <= sqrt(a) && sqrt(a) * sqrt(a) == a)
      && (forall a :: -1.0 <= sin(a) <= 1.0 && (0.0 <= a <= pi ==> 0.0 <= sin(a)) && (a == 0.0 ==> sin(a) == 0.0))
      && (forall h, s, l :: hsl(h, s, l).InUnitCube())
      && (forall mx, my, v :: aim(mx, my, v).LengthSq() == v.LengthSq())
    }

    /** `Math.sin(a)` */
    function Sin(a: real): real { sin(a) }

    /** `new Color().setHSL(h, s, l)` */
    function Hsl(h: real, s: real, l: real): Rgb { hsl(h, s, l) }

    /** The mouse-aim rotation of the controls hook applied to `v`. */
    function Aim(mx: real, my: real, v: Vec3): Vec3 { aim(mx, my, v) }

    /** `v.length()` */
    function Length(v: Vec3): real { sqrt(v.LengthSq()) }

    /** `v.length()` for a `Vector2` */
    function Length2(v: Vec2): real { sqrt(v.LengthSq()) }
  }

  /** A finite stream of `Math.random()` draws, each in [0, 1), read in the order the frame makes them. */
  ghost predicate IsRandomStream(rng: seq<real>) {
    forall n :: 0 <= n < |rng| ==> 0.0 <= rng[n] < 1.0
  }

  /** Draw `n` of a stream; past its end the stream reads 0.5, the midpoint of [0, 1). */
  function Draw(rng: seq<real>, n: nat): (r: real)
    ensures IsRandomStream(rng) ==> 0.0 <= r < 1.0
    ensures n < |rng| ==> r == rng[n]
  {
    if n < |rng| then rng[n] else 0.5
  }

  /** A length exceeds a bound exactly when the squared length exceeds the squared bound. */
  lemma LengthAbove(m: Maths, v: Vec3, k: real)
    requires m.Valid() && 0.0 <= k
    ensures 0.0 <= m.Length(v)
    ensures Sq(m.Length(v)) == v.LengthSq()
    ensures m.Length(v) > k <==> v.LengthSq() > Sq(k)
  {
    LengthSqNonNegative(v);
    SquareMonotone(m.Length(v), k);
  }

  lemma LengthPositive(m: Maths, v: Vec3)
    requires m.Valid()
    ensures m.Length(v) > 0.0 <==> v != Origin
  {
    LengthAbove(m, v, 0.0);
    LengthSqNonNegative(v);
    Square(0.0);
  }

  lemma Length2Above(m: Maths, v: Vec2, k: real)
    requires m.Valid() && 0.0 <= k
    ensures 0.0 <= m.Length2(v)
    ensures m.Length2(v) > k <==> v.LengthSq() > Sq(k)
  {
    LengthSq2NonNegative(v);
    SquareMonotone(m.Length2(v), k);
  }
}
