/**
 * The three.js value types the frame code uses (`Vector2`, `Vector3`, `Euler`,
 * `Color`), over Dafny's exact `real`. Every operation the core calls on them
 * returns a new value; the in-place updates of the source become reassignments.
 */
module Vectors {

  /** The square of a real. */
  function Sq(a: real): real { a * a }

  // Squared lengths are written as bare products rather than through `Sq`:
  // together with the literal `Origin`, a call of `Sq` inside them lets the
  // solver unfold literal vectors without end.
  datatype Vec2 = Vec2(x: real, y: real) {
    function Sub(o: Vec2): Vec2 { Vec2(x - o.x, y - o.y) }
    function LengthSq(): real { x * x + y * y }
  }

  datatype Vec3 = Vec3(x: real, y: real, z: real) {
    function Add(o: Vec3): Vec3 { Vec3(x + o.x, y + o.y, z + o.z) }
    function Sub(o: Vec3): Vec3 { Vec3(x - o.x, y - o.y, z - o.z) }
    function Scale(k: real): Vec3 { Vec3(x * k, y * k, z * k) }
    function Negate(): Vec3 { Vec3(-x, -y, -z) }
    function LengthSq(): real { x * x + y * y + z * z }
    /** `Vector3.lerpVectors(this, b, t)` */
    function Lerp(b: Vec3, t: real): Vec3 { Add(b.Sub(this).Scale(t)) }
  }

  const Origin: Vec3 := Vec3(0.0, 0.0, 0.0)

  /** Euler angles in radians. */
  datatype Euler = Euler(x: real, y: real, z: real)

  /** A linear RGB colour as three.js `Color` stores it. */
  datatype Rgb = Rgb(r: real, g: real, b: real) {
    function Scale(k: real): Rgb { Rgb(r * k, g * k, b * k) }
    predicate InUnitCube() { 0.0 <= r <= 1.0 && 0.0 <= g <= 1.0 && 0.0 <= b <= 1.0 }
  }

  // The facts about products below are proved on bare reals first and then
  // carried over to Sq by a calculation.

  lemma MulPositive(a: real, b: real)
    requires a > 0.0 && b > 0.0
    ensures a * b > 0.0
  {
  }

  lemma SquareOfNonZero(a: real)
    requires a != 0.0
    ensures a * a > 0.0
  {
    if a > 0.0 {
      MulPositive(a, a);
    } else {
      MulPositive(-a, -a);
      assert (-a) * (-a) == a * a;
    }
  }

  lemma StrictSquares(s: real, k: real)
    requires 0.0 <= k < s
    ensures k * k < s * s
  {
    MulPositive(s - k, s + k);
    assert (s - k) * (s + k) == s * s - k * k;
  }

  /** Squares are non-negative and vanish exactly at zero. */
  lemma Square(a: real)
    ensures Sq(a) >= 0.0
    ensures a != 0.0 ==> Sq(a) > 0.0
    ensures a == 0.0 ==> Sq(a) == 0.0
  {
    if a != 0.0 {
      calc { Sq(a); == a * a; > { SquareOfNonZero(a); } 0.0; }
    } else {
      calc { Sq(a); == 0.0 * 0.0; == 0.0; }
    }
  }

  /** For a non-zero factor `k`, `(k·d)²` vanishes exactly when `d` does. */
  lemma ScaledSquareZero(k: real, d: real)
    requires k != 0.0
    ensures Sq(k * d) == 0.0 <==> d == 0.0
  {
    if d != 0.0 {
      assert k * d != 0.0;
    }
    Square(k * d);
  }

  lemma SqScale(a: real, k: real)
    ensures Sq(a * k) == Sq(k) * Sq(a)
  {
    calc { Sq(a * k); == (a * k) * (a * k); == (k * k) * (a * a); == Sq(k) * Sq(a); }
  }

  /** On non-negative reals, squaring preserves and reflects strict order. */
  lemma SquareMonotone(s: real, k: real)
    requires 0.0 <= s && 0.0 <= k
    ensures s > k <==> Sq(s) > Sq(k)
  {
    if s > k {
      calc { Sq(k); == k * k; < { StrictSquares(s, k); } s * s; == Sq(s); }
    } else if s < k {
      calc { Sq(s); == s * s; < { StrictSquares(k, s); } k * k; == Sq(k); }
    }
  }

  lemma ScaledWithin(a: real, s: real)
    requires 0.0 <= a && 0.0 <= s <= 1.0
    ensures 0.0 <= a * s <= a
  {
    assert a - a * s == a * (1.0 - s);
  }

  lemma ShrinkFactor(a: real, f: real)
    requires 0.0 < a && 0.0 < f < 1.0
    ensures 0.0 < a * f < a
  {
    assert a - a * f == a * (1.0 - f);
    MulPositive(a, 1.0 - f);
    MulPositive(a, f);
  }

  lemma MulMonotone(a: real, b: real, k: real)
    requires a <= b && 0.0 <= k
    ensures a * k <= b * k
  {
    assert b * k - a * k == (b - a) * k;
  }

  lemma LengthSqNonNegative(v: Vec3)
    ensures v.LengthSq() >= 0.0
    ensures v.LengthSq() == 0.0 <==> v == Origin
  {
    Square(v.x);
    Square(v.y);
    Square(v.z);
    if v != Origin {
      assert v.x != 0.0 || v.y != 0.0 || v.z != 0.0;
    }
  }

  lemma LengthSq2NonNegative(v: Vec2)
    ensures v.LengthSq() >= 0.0
  {
    Square(v.x);
    Square(v.y);
  }

  lemma LengthSqScale(v: Vec3, k: real)
    ensures v.Scale(k).LengthSq() == Sq(k) * v.LengthSq()
  {
    SqScale(v.x, k);
    SqScale(v.y, k);
    SqScale(v.z, k);
    calc {
      v.Scale(k).LengthSq();
      Sq(v.x * k) + Sq(v.y * k) + Sq(v.z * k);
      Sq(k) * Sq(v.x) + Sq(k) * Sq(v.y) + Sq(k) * Sq(v.z);
      Sq(k) * (Sq(v.x) + Sq(v.y) + Sq(v.z));
    }
  }
}
