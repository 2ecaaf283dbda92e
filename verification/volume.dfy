/**
  Volume of one triangulated shell by the signed-tetrahedra (divergence
  theorem) method: every face contributes the determinant of its first three
  vertices, i.e. six times the signed volume of the tetrahedron it spans with
  the origin; the shell volume is one sixth of the absolute sum.
 */
module Volume {
  import opened Vectors

  /** The library's approximation of 1/6. */
  const OneSix: real := 0.166666667

  /** A face as stored: the first three vertices form the triangle. */
  type Face = seq<Vertex>

  /** A shell: consistently wound faces of one closed surface. */
  type Shell = seq<Face>

  /**
    Determinant of the 3x3 matrix whose rows are the three vertices, summed
    term by term as the source writes it. It is the scalar triple product
    v1 . (v2 x v3), the signed volume (times six) of the tetrahedron spanned
    with the origin.
   */
  function CalculateDeterminant(v1: Vertex, v2: Vertex, v3: Vertex): (d: real)
    ensures d == Dot(v1, Cross(v2, v3))
  {
    v1.x * v2.y * v3.z
    + v1.y * v2.z * v3.x
    + v1.z * v3.y * v2.x
    - v1.z * v2.y * v3.x
    - v1.y * v2.x * v3.z
    - v1.x * v3.y * v2.z
  }

  /** Exchanging any two rows negates the determinant; rotating keeps it. */
  lemma DeterminantAlternating(a: Vertex, b: Vertex, c: Vertex)
    ensures CalculateDeterminant(b, a, c) == -CalculateDeterminant(a, b, c)
    ensures CalculateDeterminant(a, c, b) == -CalculateDeterminant(a, b, c)
    ensures CalculateDeterminant(c, b, a) == -CalculateDeterminant(a, b, c)
    ensures CalculateDeterminant(b, c, a) == CalculateDeterminant(a, b, c)
  {
  }

  /** Two equal rows give a zero determinant. */
  lemma DeterminantEqualRowsIsZero(a: Vertex, b: Vertex)
    ensures CalculateDeterminant(a, a, b) == 0.0
    ensures CalculateDeterminant(a, b, a) == 0.0
    ensures CalculateDeterminant(b, a, a) == 0.0
  {
  }

  /**
    A face's determinant is the flux of the position field through the
    face: the first vertex dotted with the face normal as the ring normal
    computes it.
   */
  lemma DeterminantIsFluxThroughNormal(a: Vertex, b: Vertex, c: Vertex)
    ensures CalculateDeterminant(a, b, c) == Dot(a, FindNormal([a, b, c]))
  {
    var ab, bc, ca := Cross(a, b), Cross(b, c), Cross(c, a);
    assert FindNormal([a, b, c]) == Add(Add(ab, bc), ca);
    DotAddRight(a, Add(ab, bc), ca);
    DotAddRight(a, ab, bc);
    assert Dot(a, ab) == 0.0 by {
      CrossOrthogonal(a, b);
      DotCommutes(a, ab);
    }
    assert Dot(a, ca) == 0.0 by {
      CrossOrthogonal(c, a);
      DotCommutes(a, ca);
    }
  }

  /** Every face has at least the three vertices the formula reads. */
  predicate WellFormed(shell: Shell) {
    forall i :: 0 <= i < |shell| ==> |shell[i]| >= 3
  }

  /** Every face is exactly a triangle. */
  predicate Triangulated(shell: Shell) {
    forall i :: 0 <= i < |shell| ==> |shell[i]| == 3
  }

  function FaceDeterminant(face: Face): (d: real)
    requires |face| >= 3
  {
    CalculateDeterminant(face[0], face[1], face[2])
  }

  /** Sum of the face determinants, accumulated from the first face on. */
  function SumDeterminants(shell: Shell): (sum: real)
    requires WellFormed(shell)
    decreases |shell|
  {
    if |shell| == 0 then 0.0
    else SumDeterminants(shell[..|shell| - 1]) + FaceDeterminant(shell[|shell| - 1])
  }

  /** Summing over two consecutive parts of a shell adds the partial sums. */
  lemma {:induction false} SumDeterminantsAppend(a: Shell, b: Shell)
    requires WellFormed(a) && WellFormed(b)
    ensures WellFormed(a + b)
    ensures SumDeterminants(a + b) == SumDeterminants(a) + SumDeterminants(b)
    decreases |b|
  {
    assert WellFormed(a + b) by {
      forall i | 0 <= i < |a + b| ensures |(a + b)[i]| >= 3 {
        if i >= |a| { assert (a + b)[i] == b[i - |a|]; }
      }
    }
    if |b| > 0 {
      var b' := b[..|b| - 1];
      assert (a + b)[..|a + b| - 1] == a + b';
      SumDeterminantsAppend(a, b');
    } else {
      assert a + b == a;
    }
  }

  /** Shell volume as written: OneSix times the absolute determinant sum. */
  function ShellVolume(shell: Shell): (v: real)
    requires WellFormed(shell)
    ensures v >= 0.0
    ensures |shell| == 0 ==> v == 0.0
  {
    OneSix * Abs(SumDeterminants(shell))
  }

  /** Shell volume with the exact factor 1/6 instead of the decimal approximation. */
  function ShellVolumeExact(shell: Shell): (v: real)
    requires WellFormed(shell)
    ensures v >= 0.0
    ensures |shell| == 0 ==> v == 0.0
    ensures ShellVolume(shell) == 1.000000002 * v
  {
    Abs(SumDeterminants(shell)) / 6.0
  }

  /** The loop of the source: accumulate every face's determinant, then scale. */
  method CalculateVolumeOneShell(shell: Shell) returns (volume: real)
    requires WellFormed(shell)
    ensures volume >= 0.0
    ensures volume == OneSix * Abs(SumDeterminants(shell))
  {
    var sumDet := 0.0;
    var i := 0;
    while i < |shell|
      invariant 0 <= i <= |shell|
      invariant WellFormed(shell[..i])
      invariant sumDet == SumDeterminants(shell[..i])
    {
      assert shell[..i + 1][..i] == shell[..i];
      sumDet := sumDet + FaceDeterminant(shell[i]);
      i := i + 1;
    }
    assert shell[..i] == shell;
    volume := OneSix * Abs(sumDet);
  }

  /** Reversing a sequence: the winding order of a face, read backwards. */
  function Reverse(face: Face): (r: Face)
    ensures |r| == |face|
    ensures forall i :: 0 <= i < |face| ==> r[i] == face[|face| - 1 - i]
  {
    seq(|face|, i requires 0 <= i < |face| => face[|face| - 1 - i])
  }

  /** The same shell with the winding of every face reversed. */
  function ReverseWinding(shell: Shell): (flipped: Shell)
    ensures |flipped| == |shell|
    ensures forall i :: 0 <= i < |shell| ==> flipped[i] == Reverse(shell[i])
  {
    seq(|shell|, i requires 0 <= i < |shell| => Reverse(shell[i]))
  }

  /** Reversing every triangle negates the determinant sum. */
  lemma {:induction false} SumDeterminantsReverseWinding(shell: Shell)
    requires Triangulated(shell)
    ensures WellFormed(shell) && WellFormed(ReverseWinding(shell))
    ensures SumDeterminants(ReverseWinding(shell)) == -SumDeterminants(shell)
    decreases |shell|
  {
    var flipped := ReverseWinding(shell);
    if |shell| > 0 {
      var n := |shell| - 1;
      var init := shell[..n];
      assert Triangulated(init);
      SumDeterminantsReverseWinding(init);
      assert flipped[..n] == ReverseWinding(init);
      var face := shell[n];
      assert |face| == 3;
      assert flipped[n] == Reverse(face);
      assert Reverse(face)[0] == face[2] && Reverse(face)[1] == face[1] && Reverse(face)[2] == face[0];
      DeterminantAlternating(face[0], face[1], face[2]);
    }
  }

  /**
    Reversing the winding of every face leaves the volume unchanged: the
    sum flips sign and the absolute value cancels the flip, so faces may be
    all counter-clockwise or all clockwise.
   */
  lemma VolumeWindingInvariant(shell: Shell)
    requires Triangulated(shell)
    ensures WellFormed(shell) && WellFormed(ReverseWinding(shell))
    ensures ShellVolume(ReverseWinding(shell)) == ShellVolume(shell)
    ensures ShellVolumeExact(ReverseWinding(shell)) == ShellVolumeExact(shell)
  {
    SumDeterminantsReverseWinding(shell);
  }
}
