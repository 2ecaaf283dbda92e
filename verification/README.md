# Building-surface geometry: a Dafny model

This project models the geometry core of a CityJSON building-analysis tool,
the header `src/calculation.hpp`. The header has three parts:

- **Vector primitives** (`Vector3d`). These are the epsilon-tolerant quadrant classifier,
  the cross product, the normal of a boundary ring and the 2x2 determinant.
- **Shell volume** (`Volume`). Each triangulated face contributes the 3x3 determinant
  of its first three vertices. The volume of one shell is `one_six * |sum|`.
  This is the signed-tetrahedra (divergence theorem) method.
- **Roof orientation** (`RoofSurface::calculate_orientation`). The normal of the
  exterior ring is mapped to one of nine compass labels. A near-zero
  y-component is handled first. Otherwise a quadrant x angle table decides.

Modelling choices:

- `double` is modelled as `real`. Rounding is not modelled.
- The `#define` constants are the exact decimals of the source:
  `Epsilon = 0.00000001`, `OneSix = 0.166666667`, `QuadrantPiRadius = 0.785398163`.
- `Vertex` and `Vector3d` are one datatype. `Vertex` is a type alias for it.
- The arctangent is a library call. `ClassifyNormal` and `CalculateOrientation` take it as a parameter
  `atan: real -> real`. Their contracts hold for every `atan`. Only the lemma
  `CardinalNormals` assumes something about it, namely `atan(0) = 0`.
- The "null" fallback of the switch is a constructor of `Orientation`. `ClassifyNormal` is proved never to return it.

Files:

- `vector.dfy`: module `Vectors`
- `volume.dfy`: module `Volume`
- `closed_shell.dfy`: module `ClosedShell`. It proves that the volume of a closed, consistently
  wound shell does not change when the shell is translated.
- `cube.dfy`: module `Cube`. It computes the volume of the cube of side `s`.
- `roof_surface.dfy`: module `RoofSurfaces`

Where the source's own comments and the code disagree, the model follows the
code:

- The comments at src/calculation.hpp:238, 244, 250 and 256 say "> pi/4". The code compares
  with `pi/4 + epsilon`.
- The comments at src/calculation.hpp:63-64 and 68 say "x > 0 or x = 0" and "y > 0 or y = 0".
  The two strict tests leave the value `+epsilon` itself out, so it counts as negative.

Behaviour of the code worth knowing:

- `find_normal` (src/calculation.hpp:85-104) reads indices 0..2 of the ring and never checks
  its length. Reading a shorter ring is undefined behaviour. So at least three vertices is a
  precondition, not an error result.
- A zero normal is reported as `"horizontal"` (src/calculation.hpp:216-219). So a collinear or
  repeated-vertex ring is not told apart from a flat roof.

## Model

| member | source | states |
|---|---|---|
| Vectors.AssignQuadrant | src/calculation.hpp:61-71 | The result is always 1..4. It is 1 or 4 exactly when x > -epsilon and x != epsilon. It is 1 or 2 exactly when the same holds of y. So a coordinate inside the band counts as positive, and `epsilon` itself counts as negative. |
| Vectors.Cross | src/calculation.hpp:75-81 | The z-component of the cross product equals `determinant_2x2` of the two arguments. |
| Vectors.Determinant2x2Alternating | src/calculation.hpp:107-113 | `determinant_2x2` is the z-component of the cross product. Swapping its arguments negates it. Equal (x, y) parts give 0. The z-coordinates are never read. |
| Vectors.CrossOrthogonal | src/calculation.hpp:75-81 | The cross product is orthogonal to both arguments. |
| Vectors.CrossLagrangeIdentity | src/calculation.hpp:75-81 | The squared length of the cross product is \|a\|^2 \|b\|^2 - (a.b)^2. |
| Vectors.CrossAntiCommutative | src/calculation.hpp:75-113 | Swapping the arguments negates the cross product. It also negates `determinant_2x2`. |
| Vectors.CrossParallelIsZero | src/calculation.hpp:75-81 | The cross product of parallel vectors is the zero vector. This includes `cross(v, v)`. |
| Vectors.FindNormal | src/calculation.hpp:86-104 | Needs at least 3 vertices. The normal is orthogonal to the edges v0->v1 and v1->v2. It equals the sum of the edge moments v0 x v1 + v1 x v2 + v2 x v0. |
| Vectors.FindNormalReadsFirstThree | src/calculation.hpp:86-104 | Two rings with the same first three vertices have the same normal. |
| Vectors.FindNormalCollinear | src/calculation.hpp:86-104 | If v2 - v1 is a multiple of v1 - v0, the normal is the zero vector. |
| Vectors.FindNormalRepeatedVertex | src/calculation.hpp:86-104 | A repeated vertex among the first three gives the zero normal. |
| Vectors.FindNormalTranslationInvariant | src/calculation.hpp:86-104 | Translating the ring does not change its normal. |
| Volume.CalculateDeterminant | src/calculation.hpp:125-146 | The six-term sum equals the scalar triple product v1 . (v2 x v3), i.e. the determinant with the vertices as rows. |
| Volume.DeterminantAlternating | src/calculation.hpp:125-146 | Swapping any two vertices negates the determinant. A cyclic rotation keeps it. |
| Volume.DeterminantEqualRowsIsZero | src/calculation.hpp:125-146 | Two equal vertices give a zero determinant. |
| Volume.DeterminantIsFluxThroughNormal | src/calculation.hpp:125-146 | A face's determinant equals its first vertex dotted with the face normal from `find_normal`. |
| Volume.SumDeterminantsAppend | src/calculation.hpp:155-164 | The accumulated determinant sum over two consecutive runs of faces is the sum of the two partial sums. |
| Volume.ShellVolume | src/calculation.hpp:152-172 | The shell volume is never negative. An empty shell has volume 0. |
| Volume.CalculateVolumeOneShell | src/calculation.hpp:152-172 | The loop over the faces returns one_six times the absolute sum of the face determinants. That value is never negative. |
| Volume.ShellVolumeExact | src/calculation.hpp:8 | The volume with the exact factor 1/6 is non-negative and 0 for an empty shell. The as-written volume is exactly 1.000000002 times it. |
| Volume.SumDeterminantsReverseWinding | src/calculation.hpp:157-171 | Reversing every triangle ([a,b,c] becomes [c,b,a]) negates the determinant sum. |
| Volume.VolumeWindingInvariant | src/calculation.hpp:166-171 | Reversing the winding of every triangle leaves the shell volume unchanged. So all-CCW and all-CW shells give the same volume. |
| ClosedShell.ClosedMomentSumIsZero | src/calculation.hpp:157-171 | On a closed, consistently wound shell, the edge moments of all faces sum to zero. In such a shell every directed edge occurs as often as its reverse. |
| ClosedShell.SumDeterminantsTranslation | src/calculation.hpp:155-164 | Translating a shell by t adds t . (sum of all edge moments) to the determinant sum. |
| ClosedShell.VolumeTranslationInvariant | src/calculation.hpp:152-172 | Translating every vertex of a closed, consistently wound shell leaves its volume unchanged. So the result does not depend on the origin. |
| Cube.CubeVolumeAsWritten | src/calculation.hpp:171 | For the cube of side s > 0, the code returns 1.000000002 * s^3. For the unit cube that is not 1. |
| Cube.CubeVolumeExact | src/calculation.hpp:171 | With the exact factor 1/6, the cube of side s > 0 has volume s^3. |
| RoofSurfaces.ClassifyNormal | src/calculation.hpp:216-265 | The label is never "null". The z-component is never read. If \|y\| < epsilon: EN iff x > epsilon, horizontal iff \|x\| < epsilon, WN iff x <= -epsilon or x == epsilon. Otherwise the label is not horizontal, and three facts hold. It names East iff x > -epsilon and x != epsilon. It names North iff y > epsilon. It puts E/W first iff atan(\|x\|/\|y\|) > pi/4 + epsilon. |
| RoofSurfaces.CalculateOrientation | src/calculation.hpp:208-266 | The orientation of a roof with at least 3 exterior vertices is always one of the nine labels, never "null". |
| RoofSurfaces.ClassifyIgnoresZ | src/calculation.hpp:216-233 | Two normals that differ only in z get the same label. |
| RoofSurfaces.EpsilonCountsAsNegative | src/calculation.hpp:63-68 | `assign_quadrant(epsilon, y)` is 2 or 3. `assign_quadrant(x, epsilon)` is 3 or 4. |
| RoofSurfaces.EpsilonNormalIsWN | src/calculation.hpp:216-220 | In the branch where \|y\| < epsilon, the normal (epsilon, 0, z) is labelled WN, not EN or horizontal. |
| RoofSurfaces.CardinalNormals | src/calculation.hpp:216-258 | Take atan(0) = 0. Then the normal (0,0,1) is horizontal, (1,0,0) is EN, (-1,0,0) is WN, (0,1,0) is NE and (0,-1,0) is SE. |
| RoofSurfaces.CollinearRingIsHorizontal | src/calculation.hpp:211-219 | If the first three exterior vertices are collinear (v2 - v1 is a multiple of v1 - v0, or v1 - v0 a multiple of v2 - v1, which covers every repeated vertex), the roof is reported "horizontal". |
| RoofSurfaces.FlatRingIsHorizontal | src/calculation.hpp:211-219 | If the first three exterior vertices have one z, the roof is reported "horizontal". |

## Left out

- `RoofSurface::calculate_area_2d`: its body is commented out and it returns no value. Nothing can be modelled.
- `RoofSurface::calculate_area_3d`: it always returns 0. Its intended fan-triangulation area is not part of the code.
- Bookkeeping is not modelled: `RoofSurface`'s identifier, type and index fields, the `_INFINITE_` sentinel, `Vertex::vid`, and the constructors. None of them enter a formula. `RoofSurface` keeps only its exterior and interior rings. The interior rings are never read by the orientation.
- IEEE-754 rounding is not modelled. All arithmetic is exact over `real`.
- The values of `atan` are not modelled. It is a parameter.
- RoofSurfaces.ClassifyNormal: the angle test is stated in terms of the supplied `atan`, not the true arctangent.
- C++ artefacts are modelled as plain values and real absolute value. These are the non-const reference bound to a temporary, the unqualified `abs` on doubles, and the `Vector3d : Vertex` inheritance.
- Input validation is not modelled as error results. The code never checks the vertex count; it just reads indices 0..2. So "at least three vertices" is a precondition of `FindNormal`, `ShellVolume` and `CalculateOrientation`.
- ClosedShell.VolumeTranslationInvariant: "closed" means every directed edge of the shell's triangles is matched by its reverse, counted with multiplicity. Geometric watertightness beyond this is not modelled.

## Findings

| source | as written | input that shows it | evidently intended | confidence | as-written member | corrected member |
|---|---|---|---|---|---|---|
| src/calculation.hpp:8 | `one_six` is the decimal 0.166666667. So `calculate_volume_one_shell` returns 1.000000002 times the true volume. | The unit cube as twelve outward triangles. The result is 1.000000002, not 1, an error of 2e-9 on a unit volume. | The factor 1/6 (the comment says "value of 1/6"). Then the unit cube has volume 1. | medium, not executed | Cube.CubeVolumeAsWritten | Volume.ShellVolumeExact |

The corrected volume `Volume.ShellVolumeExact` has its intended property proved in
`Cube.CubeVolumeExact`: a cube of side s has volume s^3. The winding and
translation invariance lemmas are stated for both the as-written and the exact volume.
