/** Three-component vectors over the reals.

    They stand in for the single-precision vector type the simulation uses:
    exact real arithmetic replaces rounding, and only the operations the
    engine calls are given. Normalisation is not defined here; it is one of
    the uninterpreted primitives of `Physics.Numerics`.
 */
module Vectors {

  datatype Vec3 = Vec3(x: real, y: real, z: real)

  const Zero: Vec3 := Vec3(0.0, 0.0, 0.0)

  function Add(a: Vec3, b: Vec3): Vec3
  {
    Vec3(a.x + b.x, a.y + b.y, a.z + b.z)
  }

  function Sub(a: Vec3, b: Vec3): Vec3
  {
    Vec3(a.x - b.x, a.y - b.y, a.z - b.z)
  }

  function Neg(a: Vec3): Vec3
  {
    Vec3(-a.x, -a.y, -a.z)
  }

  /** Vector times scalar. */
  function Scale(a: Vec3, k: real): Vec3
  {
    Vec3(a.x * k, a.y * k, a.z * k)
  }

  /** Vector divided component-wise by a non-zero scalar. */
  function Div(a: Vec3, k: real): Vec3
    requires k != 0.0
  {
    Vec3(a.x / k, a.y / k, a.z / k)
  }

  /** Squared Euclidean length; never negative. */
  function LengthSquared(a: Vec3): (r: real)
    ensures r >= 0.0
  {
    a.x * a.x + a.y * a.y + a.z * a.z
  }

  /** The difference of two points reverses sign when the points are swapped,
      and its squared length does not change. */
  lemma SubSwap(a: Vec3, b: Vec3)
    ensures Sub(a, b) == Neg(Sub(b, a))
    ensures LengthSquared(Sub(a, b)) == LengthSquared(Sub(b, a))
  {
  }

  lemma AddZero(a: Vec3)
    ensures Add(a, Zero) == a && Add(Zero, a) == a
  {
  }

  lemma AddNeg(a: Vec3)
    ensures Add(a, Neg(a)) == Zero
  {
  }

  /** Regrouping a sum of four vectors. */
  lemma AddInterchange(a: Vec3, b: Vec3, c: Vec3, d: Vec3)
    ensures Add(Add(a, b), Add(c, d)) == Add(Add(a, c), Add(b, d))
  {
  }

  lemma ScaleAdd(a: Vec3, b: Vec3, k: real)
    ensures Scale(Add(a, b), k) == Add(Scale(a, k), Scale(b, k))
  {
  }
}
