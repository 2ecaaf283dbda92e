/**
  The axis-aligned cube [0,s]^3 as twelve outward, counter-clockwise
  triangles, and what the shell-volume formula makes of it: with the decimal
  constant 0.166666667 the volume comes out as 1.000000002 * s^3, with the
  exact factor 1/6 it is s^3.
 */
module Cube {
  import opened Vectors
  import opened Volume

  /** The six triangles on the planes x = 0, y = 0 and z = 0; each starts at the origin. */
  function NearFaces(s: real): (faces: Shell) {
    var o := Zero;
    [
      [o, Vector3d(0.0, s, 0.0), Vector3d(s, s, 0.0)],    // bottom
      [o, Vector3d(s, s, 0.0), Vector3d(s, 0.0, 0.0)],
      [o, Vector3d(s, 0.0, 0.0), Vector3d(s, 0.0, s)],    // front
      [o, Vector3d(s, 0.0, s), Vector3d(0.0, 0.0, s)],
      [o, Vector3d(0.0, 0.0, s), Vector3d(0.0, s, s)],    // left
      [o, Vector3d(0.0, s, s), Vector3d(0.0, s, 0.0)]
    ]
  }

  /** The six triangles on the planes z = s, y = s and x = s. */
  function FarFaces(s: real): (faces: Shell) {
    [
      [Vector3d(0.0, 0.0, s), Vector3d(s, 0.0, s), Vector3d(s, s, s)],   // top
      [Vector3d(0.0, 0.0, s), Vector3d(s, s, s), Vector3d(0.0, s, s)],
      [Vector3d(0.0, s, 0.0), Vector3d(0.0, s, s), Vector3d(s, s, s)],   // back
      [Vector3d(0.0, s, 0.0), Vector3d(s, s, s), Vector3d(s, s, 0.0)],
      [Vector3d(s, 0.0, 0.0), Vector3d(s, s, 0.0), Vector3d(s, s, s)],   // right
      [Vector3d(s, 0.0, 0.0), Vector3d(s, s, s), Vector3d(s, 0.0, s)]
    ]
  }

  function CubeOfSide(s: real): (cube: Shell) {
    NearFaces(s) + FarFaces(s)
  }

  lemma SumDeterminantsCons(face: Face, rest: Shell)
    requires |face| >= 3 && WellFormed(rest)
    ensures WellFormed([face] + rest)
    ensures SumDeterminants([face] + rest) == FaceDeterminant(face) + SumDeterminants(rest)
  {
    assert [face][..0] == [];
    SumDeterminantsAppend([face], rest);
  }

  /** Sum of the determinants of six faces, listed one by one. */
  lemma SumOfSix(f0: Face, f1: Face, f2: Face, f3: Face, f4: Face, f5: Face)
    requires |f0| >= 3 && |f1| >= 3 && |f2| >= 3 && |f3| >= 3 && |f4| >= 3 && |f5| >= 3
    ensures WellFormed([f0, f1, f2, f3, f4, f5])
    ensures SumDeterminants([f0, f1, f2, f3, f4, f5])
         == FaceDeterminant(f0) + FaceDeterminant(f1) + FaceDeterminant(f2)
            + FaceDeterminant(f3) + FaceDeterminant(f4) + FaceDeterminant(f5)
  {
    var sh: Shell := [];
    SumDeterminantsCons(f5, sh); sh := [f5] + sh;
    SumDeterminantsCons(f4, sh); sh := [f4] + sh;
    SumDeterminantsCons(f3, sh); sh := [f3] + sh;
    SumDeterminantsCons(f2, sh); sh := [f2] + sh;
    SumDeterminantsCons(f1, sh); sh := [f1] + sh;
    SumDeterminantsCons(f0, sh); sh := [f0] + sh;
    assert sh == [f0, f1, f2, f3, f4, f5];
  }

  lemma NearFacesSum(s: real)
    ensures WellFormed(NearFaces(s))
    ensures SumDeterminants(NearFaces(s)) == 0.0
  {
    var f := NearFaces(s);
    forall b: Vertex, c: Vertex ensures CalculateDeterminant(Zero, b, c) == 0.0 {
    }
    SumOfSix(f[0], f[1], f[2], f[3], f[4], f[5]);
    assert f == [f[0], f[1], f[2], f[3], f[4], f[5]];
  }

  lemma FarFacesSum(s: real)
    ensures WellFormed(FarFaces(s))
    ensures SumDeterminants(FarFaces(s)) == 6.0 * (s * s * s)
  {
    var f := FarFaces(s);
    assert FaceDeterminant(f[0]) == s * s * s;
    assert FaceDeterminant(f[1]) == s * s * s;
    assert FaceDeterminant(f[2]) == s * s * s;
    assert FaceDeterminant(f[3]) == s * s * s;
    assert FaceDeterminant(f[4]) == s * s * s;
    assert FaceDeterminant(f[5]) == s * s * s;
    SumOfSix(f[0], f[1], f[2], f[3], f[4], f[5]);
    assert f == [f[0], f[1], f[2], f[3], f[4], f[5]];
  }

  /** Six times the volume s^3, with the sign of s. */
  lemma CubeDeterminantSum(s: real)
    ensures WellFormed(CubeOfSide(s))
    ensures SumDeterminants(CubeOfSide(s)) == 6.0 * (s * s * s)
  {
    NearFacesSum(s);
    FarFacesSum(s);
    SumDeterminantsAppend(NearFaces(s), FarFaces(s));
  }

  /** As written, a cube of side s > 0 gets volume 1.000000002 * s^3: the unit cube misses 1 by 2e-9. */
  lemma CubeVolumeAsWritten(s: real)
    requires s > 0.0
    ensures WellFormed(CubeOfSide(s))
    ensures ShellVolume(CubeOfSide(s)) == 1.000000002 * (s * s * s)
    ensures s == 1.0 ==> ShellVolume(CubeOfSide(s)) != 1.0
  {
    CubeDeterminantSum(s);
    assert s * s * s > 0.0;
  }

  /** With the exact factor a cube of side s > 0 has volume s^3. */
  lemma CubeVolumeExact(s: real)
    requires s > 0.0
    ensures WellFormed(CubeOfSide(s))
    ensures ShellVolumeExact(CubeOfSide(s)) == s * s * s
  {
    CubeDeterminantSum(s);
    assert s * s * s > 0.0;
  }
}
