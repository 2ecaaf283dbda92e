/**
  Why the signed-tetrahedra volume does not depend on where the origin is:
  moving every vertex by `t` changes each face determinant by `t` dotted
  with the face's edge moments, and on a closed, consistently wound shell
  every directed edge is matched by its reverse, so the moments cancel.
 */
module ClosedShell {
  import opened Vectors
  import opened Volume

  /** A directed edge of a face, from `tail` to `head`. */
  datatype Edge = Edge(tail: Vertex, head: Vertex)

  function Reversed(e: Edge): (r: Edge) {
    Edge(e.head, e.tail)
  }

  /** The moment of an edge about the origin. */
  function Moment(e: Edge): (m: Vector3d) {
    Cross(e.tail, e.head)
  }

  /** The three directed edges of the triangle a face's first vertices form. */
  function FaceEdges(face: Face): (es: seq<Edge>)
    requires |face| >= 3
  {
    [Edge(face[0], face[1]), Edge(face[1], face[2]), Edge(face[2], face[0])]
  }

  /** All directed edges of a shell, face after face. */
  function Edges(shell: Shell): (es: seq<Edge>)
    requires WellFormed(shell)
    decreases |shell|
  {
    if |shell| == 0 then []
    else Edges(shell[..|shell| - 1]) + FaceEdges(shell[|shell| - 1])
  }

  function ReverseEdges(es: seq<Edge>): (rs: seq<Edge>)
    ensures |rs| == |es|
    ensures forall i :: 0 <= i < |es| ==> rs[i] == Reversed(es[i])
  {
    seq(|es|, i requires 0 <= i < |es| => Reversed(es[i]))
  }

  /**
    Closed and consistently wound: every directed edge occurs exactly as
    often as its reverse, i.e. each edge is shared by two faces that
    traverse it in opposite directions.
   */
  predicate Closed(shell: Shell)
    requires WellFormed(shell)
  {
    multiset(Edges(shell)) == multiset(ReverseEdges(Edges(shell)))
  }

  function MomentSum(es: seq<Edge>): (sum: Vector3d)
    decreases |es|
  {
    if |es| == 0 then Zero else Add(Moment(es[0]), MomentSum(es[1..]))
  }

  lemma {:induction false} MomentSumAppend(a: seq<Edge>, b: seq<Edge>)
    ensures MomentSum(a + b) == Add(MomentSum(a), MomentSum(b))
    decreases |a|
  {
    if |a| == 0 {
      assert a + b == b;
    } else {
      assert (a + b)[1..] == a[1..] + b;
      MomentSumAppend(a[1..], b);
    }
  }

  lemma AddExchange(m: Vector3d, a: Vector3d, b: Vector3d)
    ensures Add(a, Add(m, b)) == Add(m, Add(a, b))
  {
  }

  /** Taking one edge out of the sum and adding its moment back. */
  lemma MomentSumRemove(s: seq<Edge>, i: int)
    requires 0 <= i < |s|
    ensures MomentSum(s) == Add(Moment(s[i]), MomentSum(s[..i] + s[i + 1..]))
  {
    var tail := [s[i]] + s[i + 1..];
    assert s == s[..i] + tail;
    MomentSumAppend(s[..i], tail);
    assert tail[1..] == s[i + 1..];
    assert MomentSum(tail) == Add(Moment(s[i]), MomentSum(s[i + 1..]));
    MomentSumAppend(s[..i], s[i + 1..]);
    AddExchange(Moment(s[i]), MomentSum(s[..i]), MomentSum(s[i + 1..]));
  }

  /** The moment sum depends only on the multiset of edges. */
  lemma {:induction false} MomentSumPermutation(a: seq<Edge>, b: seq<Edge>)
    requires multiset(a) == multiset(b)
    ensures MomentSum(a) == MomentSum(b)
    decreases |a|
  {
    if |a| == 0 {
      assert |b| == |multiset(b)| == 0;
    } else {
      var e := a[0];
      assert e in multiset(b);
      var i :| 0 <= i < |b| && b[i] == e;
      var rest := b[..i] + b[i + 1..];
      assert b == b[..i] + [b[i]] + b[i + 1..];
      assert multiset(b) == multiset(b[..i]) + multiset([e]) + multiset(b[i + 1..]);
      assert multiset(rest) == multiset(b[..i]) + multiset(b[i + 1..]);
      assert a == [e] + a[1..];
      assert multiset(a) == multiset([e]) + multiset(a[1..]);
      assert multiset(a[1..]) == multiset(a) - multiset([e]);
      assert multiset(rest) == multiset(b) - multiset([e]);
      MomentSumPermutation(a[1..], rest);
      MomentSumRemove(b, i);
    }
  }

  lemma NegAdd(a: Vector3d, b: Vector3d)
    ensures Add(Neg(a), Neg(b)) == Neg(Add(a, b))
  {
  }

  /** Reversing every edge negates the moment sum. */
  lemma {:induction false} MomentSumReverseEdges(es: seq<Edge>)
    ensures MomentSum(ReverseEdges(es)) == Neg(MomentSum(es))
    decreases |es|
  {
    if |es| > 0 {
      var rs := ReverseEdges(es);
      assert rs[1..] == ReverseEdges(es[1..]);
      MomentSumReverseEdges(es[1..]);
      assert Moment(rs[0]) == Neg(Moment(es[0])) by {
        CrossAntiCommutative(es[0].tail, es[0].head);
      }
      NegAdd(Moment(es[0]), MomentSum(es[1..]));
    }
  }

  /** On a closed shell the edge moments cancel: the total area vector is zero. */
  lemma ClosedMomentSumIsZero(shell: Shell)
    requires WellFormed(shell) && Closed(shell)
    ensures MomentSum(Edges(shell)) == Zero
  {
    var es := Edges(shell);
    MomentSumPermutation(es, ReverseEdges(es));
    MomentSumReverseEdges(es);
  }

  /** The same shell with every vertex of every face moved by `t`. */
  function TranslateShell(shell: Shell, t: Vector3d): (moved: Shell)
    ensures |moved| == |shell|
    ensures forall i :: 0 <= i < |shell| ==> moved[i] == Translate(shell[i], t)
  {
    seq(|shell|, i requires 0 <= i < |shell| => Translate(shell[i], t))
  }

  lemma CrossAddLeft(a: Vector3d, b: Vector3d, w: Vector3d)
    ensures Cross(Add(a, b), w) == Add(Cross(a, w), Cross(b, w))
  {
  }

  lemma CrossAddRight(w: Vector3d, a: Vector3d, b: Vector3d)
    ensures Cross(w, Add(a, b)) == Add(Cross(w, a), Cross(w, b))
  {
  }

  lemma CrossOfTranslated(b: Vector3d, c: Vector3d, t: Vector3d)
    ensures Cross(Add(b, t), Add(c, t)) == Add(Add(Cross(b, c), Cross(b, t)), Cross(t, c))
  {
    CrossAddLeft(b, t, Add(c, t));
    CrossAddRight(b, c, t);
    CrossAddRight(t, c, t);
    CrossParallelIsZero(t, 1.0);
    assert Add(Cross(t, c), Cross(t, t)) == Cross(t, c);
  }

  /** The triple product is invariant under cyclic rotation of its factors. */
  lemma TripleProductCyclic(a: Vector3d, b: Vector3d, c: Vector3d)
    ensures Dot(a, Cross(b, c)) == Dot(b, Cross(c, a))
  {
  }

  /** Moving a triangle by `t` adds `t` dotted with its edge moments. */
  lemma DeterminantTranslation(a: Vertex, b: Vertex, c: Vertex, t: Vector3d)
    ensures CalculateDeterminant(Add(a, t), Add(b, t), Add(c, t))
         == CalculateDeterminant(a, b, c)
            + Dot(t, Add(Add(Cross(a, b), Cross(b, c)), Cross(c, a)))
  {
    var bc, bt, tc := Cross(b, c), Cross(b, t), Cross(t, c);
    var m := Add(Add(bc, bt), tc);
    var ab, ca := Cross(a, b), Cross(c, a);
    assert CalculateDeterminant(Add(a, t), Add(b, t), Add(c, t)) == Dot(Add(a, t), m) by {
      CrossOfTranslated(b, c, t);
    }
    assert Dot(Add(a, t), m) == Dot(a, m) + Dot(t, m) by {
      DotAddLeft(a, t, m);
    }
    assert Dot(a, m) == Dot(a, bc) + Dot(a, bt) + Dot(a, tc) by {
      DotAddRight(a, Add(bc, bt), tc);
      DotAddRight(a, bc, bt);
    }
    assert Dot(t, m) == Dot(t, bc) by {
      DotAddRight(t, Add(bc, bt), tc);
      DotAddRight(t, bc, bt);
      CrossOrthogonal(b, t);
      CrossOrthogonal(t, c);
      DotCommutes(t, bt);
      DotCommutes(t, tc);
    }
    assert Dot(a, bt) == Dot(t, ab) by {
      TripleProductCyclic(a, b, t);
      TripleProductCyclic(b, t, a);
    }
    assert Dot(a, tc) == Dot(t, ca) by {
      TripleProductCyclic(a, t, c);
    }
    assert Dot(t, Add(Add(ab, bc), ca)) == Dot(t, ab) + Dot(t, bc) + Dot(t, ca) by {
      DotAddRight(t, Add(ab, bc), ca);
      DotAddRight(t, ab, bc);
    }
    assert CalculateDeterminant(a, b, c) == Dot(a, bc);
  }

  lemma FaceEdgesMomentSum(face: Face)
    requires |face| >= 3
    ensures MomentSum(FaceEdges(face))
         == Add(Add(Cross(face[0], face[1]), Cross(face[1], face[2])), Cross(face[2], face[0]))
  {
    var es := FaceEdges(face);
    assert es[1..][1..][1..] == [];
    assert MomentSum(es[1..][1..]) == Add(Moment(es[2]), Zero);
    assert MomentSum(es[1..]) == Add(Moment(es[1]), MomentSum(es[1..][1..]));
    assert MomentSum(es) == Add(Moment(es[0]), MomentSum(es[1..]));
  }

  /** Moving a whole shell by `t` adds `t` dotted with all its edge moments. */
  lemma {:induction false} SumDeterminantsTranslation(shell: Shell, t: Vector3d)
    requires WellFormed(shell)
    ensures WellFormed(TranslateShell(shell, t))
    ensures SumDeterminants(TranslateShell(shell, t))
         == SumDeterminants(shell) + Dot(t, MomentSum(Edges(shell)))
    decreases |shell|
  {
    var moved := TranslateShell(shell, t);
    if |shell| > 0 {
      var n := |shell| - 1;
      var init := shell[..n];
      SumDeterminantsTranslation(init, t);
      assert moved[..n] == TranslateShell(init, t);
      var face := shell[n];
      var face' := moved[n];
      assert face' == Translate(face, t);
      assert FaceDeterminant(face') == CalculateDeterminant(Add(face[0], t), Add(face[1], t), Add(face[2], t));
      DeterminantTranslation(face[0], face[1], face[2], t);
      FaceEdgesMomentSum(face);
      var faceShift := Dot(t, MomentSum(FaceEdges(face)));
      assert FaceDeterminant(face') == FaceDeterminant(face) + faceShift;
      MomentSumAppend(Edges(init), FaceEdges(face));
      assert Edges(shell) == Edges(init) + FaceEdges(face);
      DotAddRight(t, MomentSum(Edges(init)), MomentSum(FaceEdges(face)));
      assert SumDeterminants(moved) == SumDeterminants(moved[..n]) + FaceDeterminant(face');
    }
  }

  /**
    Origin independence: translating every vertex of a closed, consistently
    wound shell leaves its volume unchanged.
   */
  lemma VolumeTranslationInvariant(shell: Shell, t: Vector3d)
    requires WellFormed(shell) && Closed(shell)
    ensures WellFormed(TranslateShell(shell, t))
    ensures ShellVolume(TranslateShell(shell, t)) == ShellVolume(shell)
    ensures ShellVolumeExact(TranslateShell(shell, t)) == ShellVolumeExact(shell)
  {
    SumDeterminantsTranslation(shell, t);
    ClosedMomentSumIsZero(shell);
  }
}
