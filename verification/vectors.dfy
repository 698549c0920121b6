/** Three-component real vectors: one particle's slot triple. */
module Vectors {
  import opened Numerics

  datatype Vec3 = Vec3(x: real, y: real, z: real)

  const Zero: Vec3 := Vec3(0.0, 0.0, 0.0)

  function Add(a: Vec3, b: Vec3): Vec3 {
    Vec3(a.x + b.x, a.y + b.y, a.z + b.z)
  }

  function Sub(a: Vec3, b: Vec3): Vec3 {
    Vec3(a.x - b.x, a.y - b.y, a.z - b.z)
  }

  function Scale(k: real, a: Vec3): Vec3 {
    Vec3(k * a.x, k * a.y, k * a.z)
  }

  /** Squared Euclidean length. */
  function NormSq(a: Vec3): real {
    a.x * a.x + a.y * a.y + a.z * a.z
  }

  /** Every component lies in [-m, m]. */
  predicate WithinBox(a: Vec3, m: real) {
    -m <= a.x <= m && -m <= a.y <= m && -m <= a.z <= m
  }

  /** Three independent `Math.random()` draws. */
  predicate UnitDraws(d: Vec3) {
    InUnit(d.x) && InUnit(d.y) && InUnit(d.z)
  }

  /** Component-wise `Clamp`. */
  function ClampVec(a: Vec3, m: real): (r: Vec3)
    ensures 0.0 <= m ==> WithinBox(r, m)
    ensures 0.0 <= m && WithinBox(a, m) ==> r == a
    ensures 0.0 <= m ==> (Within(a.x, m) ==> r.x == a.x) && (a.x > m ==> r.x == m) && (a.x < -m ==> r.x == -m)
    ensures 0.0 <= m ==> (Within(a.y, m) ==> r.y == a.y) && (a.y > m ==> r.y == m) && (a.y < -m ==> r.y == -m)
    ensures 0.0 <= m ==> (Within(a.z, m) ==> r.z == a.z) && (a.z > m ==> r.z == m) && (a.z < -m ==> r.z == -m)
  {
    ClampNearest(a.x, m);
    ClampNearest(a.y, m);
    ClampNearest(a.z, m);
    Vec3(Clamp(a.x, m), Clamp(a.y, m), Clamp(a.z, m))
  }

  lemma NormSqNonneg(a: Vec3)
    ensures 0.0 <= NormSq(a)
  {
    assert NormSq(a) == Sq(a.x) + Sq(a.y) + Sq(a.z);
  }

  /** Scaling by a fraction in [0, 1] keeps each component between zero and
      the original component. */
  lemma ScaleBetween(k: real, d: Vec3)
    requires 0.0 <= k <= 1.0
    ensures Between(0.0, Scale(k, d).x, d.x) && Between(0.0, Scale(k, d).y, d.y) && Between(0.0, Scale(k, d).z, d.z)
  {
    FractionBetween(k, d.x);
    FractionBetween(k, d.y);
    FractionBetween(k, d.z);
  }

  /** What scaling by `k` leaves of a vector is the vector scaled by `1 - k`. */
  lemma ScaleComplement(k: real, d: Vec3)
    ensures Scale(1.0 - k, d) == Sub(d, Scale(k, d))
  {
  }

  /** Facts about `Zero`, stated once so that proofs over larger contexts can
      use them without arithmetic. */
  lemma ZeroFacts(k: real, a: Vec3, m: real)
    ensures Scale(k, Zero) == Zero
    ensures Sub(a, a) == Zero
    ensures Add(a, Zero) == a && Add(Zero, a) == a
    ensures 0.0 <= m ==> ClampVec(Zero, m) == Zero
  {
  }
}
