/**
  Vector primitives of the building-surface geometry library: a single
  real-valued 3D vector type (used both for located vertices and for free
  vectors such as normals), the epsilon-tolerant quadrant classifier, the
  cross product, the 2x2 determinant and the normal of a boundary ring.

  Coordinates are `real`: floating-point rounding is not modelled.
 */
module Vectors {

  /** Threshold for "equal to zero" comparisons (1e-8). */
  const Epsilon: real := 0.00000001

  /** A point or a free vector; the bookkeeping vertex id carries no geometry. */
  datatype Vector3d = Vector3d(x: real, y: real, z: real)

  /** A vertex is a vector used positionally. */
  type Vertex = Vector3d

  const Zero: Vector3d := Vector3d(0.0, 0.0, 0.0)

  function Abs(r: real): (a: real) {
    if r < 0.0 then -r else r
  }

  function Add(a: Vector3d, b: Vector3d): (sum: Vector3d) {
    Vector3d(a.x + b.x, a.y + b.y, a.z + b.z)
  }

  function Sub(a: Vector3d, b: Vector3d): (diff: Vector3d) {
    Vector3d(a.x - b.x, a.y - b.y, a.z - b.z)
  }

  function Neg(a: Vector3d): (n: Vector3d) {
    Vector3d(-a.x, -a.y, -a.z)
  }

  function Scale(k: real, a: Vector3d): (scaled: Vector3d) {
    Vector3d(k * a.x, k * a.y, k * a.z)
  }

  function Dot(a: Vector3d, b: Vector3d): (d: real) {
    a.x * b.x + a.y * b.y + a.z * b.z
  }

  lemma DotCommutes(a: Vector3d, b: Vector3d)
    ensures Dot(a, b) == Dot(b, a)
  {
  }

  lemma DotAddLeft(a: Vector3d, b: Vector3d, u: Vector3d)
    ensures Dot(Add(a, b), u) == Dot(a, u) + Dot(b, u)
  {
  }

  lemma DotAddRight(u: Vector3d, a: Vector3d, b: Vector3d)
    ensures Dot(u, Add(a, b)) == Dot(u, a) + Dot(u, b)
  {
  }

  /** `v` is treated as zero: strictly inside the open epsilon band. */
  predicate NearZero(v: real) {
    Abs(v) < Epsilon
  }

  /** `v` is treated as positive or zero: above the band, or inside it.
      The value `Epsilon` itself is neither, so it counts as negative. */
  predicate NonNegativeWithinTolerance(v: real) {
    v > Epsilon || NearZero(v)
  }

  /**
    Quadrant of the point (x, y): 1 = (+,+), 2 = (-,+), 3 = (-,-), 4 = (+,-),
    where a coordinate inside the epsilon band counts as positive. Stated
    independently of the two strict tests: a coordinate is on the positive
    side exactly when it exceeds -Epsilon and is not Epsilon itself.
   */
  function AssignQuadrant(x: real, y: real): (q: int)
    ensures 1 <= q <= 4
    ensures (q == 1 || q == 4) <==> (-Epsilon < x && x != Epsilon)
    ensures (q == 1 || q == 2) <==> (-Epsilon < y && y != Epsilon)
  {
    if NonNegativeWithinTolerance(x) then
      if NonNegativeWithinTolerance(y) then 1 else 4
    else
      if NonNegativeWithinTolerance(y) then 2 else 3
  }

  /** The 2x2 determinant of the (x, y) parts of two vertices. */
  function Determinant2x2(v1: Vertex, v2: Vertex): (d: real) {
    v1.x * v2.y - v1.y * v2.x
  }

  /**
    Cross product, no normalisation. Its z-component is the 2x2 determinant
    of the arguments' (x, y) parts.
   */
  function Cross(v1: Vector3d, v2: Vector3d): (c: Vector3d)
    ensures c.z == Determinant2x2(v1, v2)
  {
    Vector3d(
      v1.y * v2.z - v1.z * v2.y,
      v1.z * v2.x - v1.x * v2.z,
      v1.x * v2.y - v1.y * v2.x)
  }

  /**
    The 2x2 determinant is the z-component of the cross product; it is
    alternating in its arguments and blind to their z-coordinates.
   */
  lemma Determinant2x2Alternating(v1: Vertex, v2: Vertex, z1: real, z2: real)
    ensures Determinant2x2(v1, v2) == Cross(v1, v2).z
    ensures Determinant2x2(v2, v1) == -Determinant2x2(v1, v2)
    ensures v1.x == v2.x && v1.y == v2.y ==> Determinant2x2(v1, v2) == 0.0
    ensures Determinant2x2(Vector3d(v1.x, v1.y, z1), Vector3d(v2.x, v2.y, z2)) == Determinant2x2(v1, v2)
  {
  }

  /** The cross product is orthogonal to both arguments. */
  lemma CrossOrthogonal(v1: Vector3d, v2: Vector3d)
    ensures Dot(Cross(v1, v2), v1) == 0.0 && Dot(Cross(v1, v2), v2) == 0.0
  {
  }

  /** Lagrange's identity: the squared length of the cross product. */
  lemma CrossLagrangeIdentity(v1: Vector3d, v2: Vector3d)
    ensures Dot(Cross(v1, v2), Cross(v1, v2))
         == Dot(v1, v1) * Dot(v2, v2) - Dot(v1, v2) * Dot(v1, v2)
  {
  }

  lemma CrossAntiCommutative(v1: Vector3d, v2: Vector3d)
    ensures Cross(v2, v1) == Neg(Cross(v1, v2))
    ensures Determinant2x2(v2, v1) == -Determinant2x2(v1, v2)
  {
  }

  /** Parallel arguments (in particular equal ones) give the zero vector. */
  lemma CrossParallelIsZero(v: Vector3d, k: real)
    ensures Cross(v, Scale(k, v)) == Zero
    ensures Cross(Scale(k, v), v) == Zero
    ensures Cross(v, v) == Zero
  {
  }

  lemma CrossSubLeft(a: Vector3d, b: Vector3d, w: Vector3d)
    ensures Cross(Sub(a, b), w) == Sub(Cross(a, w), Cross(b, w))
  {
  }

  lemma CrossSubRight(w: Vector3d, a: Vector3d, b: Vector3d)
    ensures Cross(w, Sub(a, b)) == Sub(Cross(w, a), Cross(w, b))
  {
  }

  /** The cross product of two consecutive edges is the sum of the three edge moments. */
  lemma EdgeCrossIsMomentSum(a: Vector3d, b: Vector3d, c: Vector3d)
    ensures Cross(Sub(b, a), Sub(c, b)) == Add(Add(Cross(a, b), Cross(b, c)), Cross(c, a))
  {
    var e2 := Sub(c, b);
    CrossSubLeft(b, a, e2);
    CrossSubRight(b, c, b);
    CrossSubRight(a, c, b);
    CrossParallelIsZero(b, 1.0);
    CrossAntiCommutative(a, c);
  }

  /**
    Normal of a ring: the cross product of the edge from vertex 0 to 1 with
    the edge from vertex 1 to 2. Only the first three vertices are read. The
    result is orthogonal to both edges and equals the "area vector" sum of
    the three edge moments of the triangle.
   */
  function FindNormal(ring: seq<Vertex>): (n: Vector3d)
    requires |ring| >= 3
    ensures Dot(n, Sub(ring[1], ring[0])) == 0.0
    ensures Dot(n, Sub(ring[2], ring[1])) == 0.0
    ensures n == Add(Add(Cross(ring[0], ring[1]), Cross(ring[1], ring[2])), Cross(ring[2], ring[0]))
  {
    CrossOrthogonal(Sub(ring[1], ring[0]), Sub(ring[2], ring[1]));
    EdgeCrossIsMomentSum(ring[0], ring[1], ring[2]);
    Cross(Sub(ring[1], ring[0]), Sub(ring[2], ring[1]))
  }

  /** Vertices after the third never influence the normal. */
  lemma FindNormalReadsFirstThree(ring: seq<Vertex>, other: seq<Vertex>)
    requires |ring| >= 3 && |other| >= 3
    requires ring[..3] == other[..3]
    ensures FindNormal(ring) == FindNormal(other)
  {
    assert ring[0] == other[0] && ring[1] == other[1] && ring[2] == other[2] by {
      assert ring[0] == ring[..3][0] && other[0] == other[..3][0];
      assert ring[1] == ring[..3][1] && other[1] == other[..3][1];
      assert ring[2] == ring[..3][2] && other[2] == other[..3][2];
    }
  }

  /** Collinear first three vertices give the zero (degenerate) normal. */
  lemma FindNormalCollinear(ring: seq<Vertex>, k: real)
    requires |ring| >= 3
    requires Sub(ring[2], ring[1]) == Scale(k, Sub(ring[1], ring[0]))
    ensures FindNormal(ring) == Zero
  {
    CrossParallelIsZero(Sub(ring[1], ring[0]), k);
  }

  /** A repeated vertex among the first three gives the zero normal. */
  lemma FindNormalRepeatedVertex(ring: seq<Vertex>)
    requires |ring| >= 3
    requires ring[0] == ring[1] || ring[1] == ring[2] || ring[0] == ring[2]
    ensures FindNormal(ring) == Zero
  {
    var e1, e2 := Sub(ring[1], ring[0]), Sub(ring[2], ring[1]);
    if ring[0] == ring[1] {
      assert e1 == Zero;
      assert Cross(e1, e2) == Zero;
    } else if ring[1] == ring[2] {
      assert e2 == Scale(0.0, e1);
      FindNormalCollinear(ring, 0.0);
    } else {
      assert e2 == Scale(-1.0, e1);
      FindNormalCollinear(ring, -1.0);
    }
  }

  function Translate(ring: seq<Vertex>, t: Vector3d): (moved: seq<Vertex>)
    ensures |moved| == |ring|
    ensures forall i :: 0 <= i < |ring| ==> moved[i] == Add(ring[i], t)
  {
    seq(|ring|, i requires 0 <= i < |ring| => Add(ring[i], t))
  }

  /** Moving the whole ring does not change its normal. */
  lemma FindNormalTranslationInvariant(ring: seq<Vertex>, t: Vector3d)
    requires |ring| >= 3
    ensures FindNormal(Translate(ring, t)) == FindNormal(ring)
  {
    var moved := Translate(ring, t);
    assert Sub(moved[1], moved[0]) == Sub(ring[1], ring[0]);
    assert Sub(moved[2], moved[1]) == Sub(ring[2], ring[1]);
  }
}
