/**
  Compass orientation of a roof surface from the normal of its exterior
  ring, with the y-axis as North. A normal with (near) zero y-component is
  classified by the sign of x alone; otherwise the quadrant of (x, y) picks
  a pair of labels and the angle atan(|x| / |y|) against pi/4 picks the one
  nearer the East-West axis or the one nearer the North-South axis.

  The arctangent is a library call whose values are not modelled: it is a
  parameter of the classification.
 */
module RoofSurfaces {
  import opened Vectors

  /** The library's approximation of pi/4. */
  const QuadrantPiRadius: real := 0.785398163

  /** The nine labels, plus the "null" fallback of an unmatched quadrant. */
  datatype Orientation = Horizontal | EN | NE | NW | WN | WS | SW | SE | ES | Null
  {
    function Label(): (text: string) {
      match this
      case Horizontal => "horizontal"
      case EN => "EN"
      case NE => "NE"
      case NW => "NW"
      case WN => "WN"
      case WS => "WS"
      case SW => "SW"
      case SE => "SE"
      case ES => "ES"
      case Null => "null"
    }

    /** The label names East. */
    predicate Eastward() {
      this == EN || this == NE || this == ES || this == SE
    }

    /** The label names North. */
    predicate Northward() {
      this == EN || this == NE || this == NW || this == WN
    }

    /** The label puts East or West first: the direction is nearer that axis. */
    predicate NearEastWestAxis() {
      this == EN || this == WN || this == WS || this == ES
    }
  }

  /** The labels the classification can produce. */
  const OrientationLabels: set<string> :=
    {"horizontal", "EN", "NE", "NW", "WN", "WS", "SW", "SE", "ES"}

  /** The geometry of a roof surface; identifiers and output fields are not modelled. */
  datatype RoofSurface = RoofSurface(
    exteriorSurface: seq<Vertex>,        // counter-clockwise seen from outside
    interiorSurfaces: seq<seq<Vertex>>)  // clockwise seen from outside

  /**
    The decision procedure on a normal vector. The contract characterises
    the label through independent facts: in the degenerate case (y inside
    the epsilon band) by the sign of x; otherwise by three bits, East (x on
    the non-negative side), North (y above the band) and whether the angle
    exceeds pi/4 + epsilon. The fallback is never produced, and z is never
    read.
   */
  function ClassifyNormal(normal: Vector3d, atan: real -> real): (o: Orientation)
    ensures o != Null
    ensures NearZero(normal.y) ==>
              && (o == EN <==> normal.x > Epsilon)
              && (o == Horizontal <==> -Epsilon < normal.x < Epsilon)
              && (o == WN <==> normal.x <= -Epsilon || normal.x == Epsilon)
    ensures !NearZero(normal.y) ==>
              && o != Horizontal
              && (o.Eastward() <==> -Epsilon < normal.x && normal.x != Epsilon)
              && (o.Northward() <==> normal.y > Epsilon)
              && (o.NearEastWestAxis() <==>
                    atan(Abs(normal.x) / Abs(normal.y)) > QuadrantPiRadius + Epsilon)
  {
    if NearZero(normal.y) then
      if normal.x > Epsilon then EN
      else if NearZero(normal.x) then Horizontal
      else WN
    else
      var quadrant := AssignQuadrant(normal.x, normal.y);
      var angle := atan(Abs(normal.x) / Abs(normal.y));
      var nearEastWest := angle > QuadrantPiRadius + Epsilon;
      match quadrant
      case 1 => if nearEastWest then EN else NE
      case 2 => if nearEastWest then WN else NW
      case 3 => if nearEastWest then WS else SW
      case 4 => if nearEastWest then ES else SE
      case _ => Null
  }

  /**
    Orientation of a roof surface: the label of the normal of its exterior
    ring. It is always one of the nine labels, never "null".
   */
  function CalculateOrientation(roof: RoofSurface, atan: real -> real): (name: string)
    requires |roof.exteriorSurface| >= 3
    ensures name in OrientationLabels
    ensures name != "null"
  {
    ClassifyNormal(FindNormal(roof.exteriorSurface), atan).Label()
  }

  /** The z-component of the normal never influences the label. */
  lemma ClassifyIgnoresZ(x: real, y: real, z1: real, z2: real, atan: real -> real)
    ensures ClassifyNormal(Vector3d(x, y, z1), atan) == ClassifyNormal(Vector3d(x, y, z2), atan)
  {
  }

  /** Epsilon itself is on the negative side of both quadrant tests. */
  lemma EpsilonCountsAsNegative(x: real, y: real)
    ensures AssignQuadrant(Epsilon, y) == 2 || AssignQuadrant(Epsilon, y) == 3
    ensures AssignQuadrant(x, Epsilon) == 3 || AssignQuadrant(x, Epsilon) == 4
  {
  }

  /** In the degenerate branch an x of exactly Epsilon is labelled West, not East or horizontal. */
  lemma EpsilonNormalIsWN(z: real, atan: real -> real)
    ensures ClassifyNormal(Vector3d(Epsilon, 0.0, z), atan) == WN
  {
  }

  /** The axis-aligned normals, with atan(0) = 0. */
  lemma CardinalNormals(atan: real -> real)
    requires atan(0.0) == 0.0
    ensures ClassifyNormal(Vector3d(0.0, 0.0, 1.0), atan) == Horizontal
    ensures ClassifyNormal(Vector3d(1.0, 0.0, 0.0), atan) == EN
    ensures ClassifyNormal(Vector3d(-1.0, 0.0, 0.0), atan) == WN
    ensures ClassifyNormal(Vector3d(0.0, 1.0, 0.0), atan) == NE
    ensures ClassifyNormal(Vector3d(0.0, -1.0, 0.0), atan) == SE
  {
    assert Abs(0.0) / Abs(1.0) == 0.0;
    assert Abs(0.0) / Abs(-1.0) == 0.0;
  }

  /**
    A ring whose first three vertices are collinear (one edge a multiple of
    the other: a repeated vertex, a back-tracking edge) has the zero normal
    and is reported "horizontal": a degenerate ring is not told apart from
    a flat roof.
   */
  lemma CollinearRingIsHorizontal(roof: RoofSurface, k: real, atan: real -> real)
    requires |roof.exteriorSurface| >= 3
    requires var r := roof.exteriorSurface;
               || Sub(r[2], r[1]) == Scale(k, Sub(r[1], r[0]))
               || Sub(r[1], r[0]) == Scale(k, Sub(r[2], r[1]))
    ensures CalculateOrientation(roof, atan) == "horizontal"
  {
    var r := roof.exteriorSurface;
    if Sub(r[2], r[1]) == Scale(k, Sub(r[1], r[0])) {
      FindNormalCollinear(r, k);
    } else {
      CrossParallelIsZero(Sub(r[2], r[1]), k);
    }
  }

  /** A ring whose first three vertices lie at one height is "horizontal". */
  lemma FlatRingIsHorizontal(roof: RoofSurface, atan: real -> real)
    requires |roof.exteriorSurface| >= 3
    requires var r := roof.exteriorSurface; r[0].z == r[1].z == r[2].z
    ensures CalculateOrientation(roof, atan) == "horizontal"
  {
    var r := roof.exteriorSurface;
    var n := FindNormal(r);
    assert Sub(r[1], r[0]).z == 0.0 && Sub(r[2], r[1]).z == 0.0;
    assert n.x == 0.0 && n.y == 0.0;
  }
}
