/** Two- and three-component vectors: the part of p5.Vector that the particle engine uses.
    Vectors are values here; every vector the engine changes in place is a private copy
    (`pos.copy()`, a fresh `createVector`), so value semantics loses nothing. */
module Vectors {

  datatype Vec = Vec(x: real, y: real)

  /** An RGB triple, kept as p5 keeps it (`createVector(r, g, b)`). */
  datatype Vec3 = Vec3(x: real, y: real, z: real)

  const Zero: Vec := Vec(0.0, 0.0)

  function Add(a: Vec, b: Vec): (r: Vec)
    ensures r.x - a.x == b.x && r.y - a.y == b.y
  {
    Vec(a.x + b.x, a.y + b.y)
  }

  function Sub(a: Vec, b: Vec): Vec
  {
    Vec(a.x - b.x, a.y - b.y)
  }

  function Scale(v: Vec, k: real): Vec
  {
    Vec(k * v.x, k * v.y)
  }

  /** Squared magnitude; p5's `magSq`. Lengths are compared squared, so that no square root is needed. */
  function MagSq(v: Vec): (r: real)
    ensures r >= 0.0
  {
    SquareNonNegative(v.x);
    SquareNonNegative(v.y);
    v.x * v.x + v.y * v.y
  }

  lemma SquareNonNegative(a: real)
    ensures a * a >= 0.0
  {
    if a < 0.0 {
      assert a * a == (-a) * (-a);
    }
  }

  /** A unit vector, the result of `p5.Vector.fromAngle`. */
  type Direction = d: Vec | MagSq(d) == 1.0 witness Vec(1.0, 0.0)

  /** `setMag(m)` applied to a unit vector: the same direction (reversed when m < 0) with length |m|. */
  function SetMag(d: Direction, m: real): (r: Vec)
    ensures MagSq(r) == m * m
    ensures r.x * d.y == r.y * d.x
  {
    var r := Scale(d, m);
    assert MagSq(r) == m * m * MagSq(d);
    r
  }

  /** What `limit(max)` promises about its result `r` for the input `v`: a vector already no longer
      than `max` is kept; otherwise the result lies on the same line as `v` (pointing the same way
      when max is not negative) and is no longer than `max`. */
  predicate Clamped(v: Vec, max: real, r: Vec)
  {
    (MagSq(v) <= max * max ==> r == v) &&
    MagSq(r) <= max * max &&
    v.x * r.y == v.y * r.x &&
    (max >= 0.0 ==> v.x * r.x + v.y * r.y >= 0.0)
  }

  /** p5's `Vector.limit`, by its contract: which vector of length max is chosen when `v` is too long
      needs a square root and is left to a nondeterministic choice. */
  method Limit(v: Vec, max: real) returns (r: Vec)
    ensures Clamped(v, max, r)
  {
    if MagSq(v) <= max * max {
      assert v.x * v.y == v.y * v.x;
      assert v.x * v.x + v.y * v.y == MagSq(v);
      r := v;
    } else {
      assert Clamped(v, max, Zero);
      r :| Clamped(v, max, r);
    }
  }
}
