# Geometric solids: equality, hashing and formulas

This project models the computational core of a small C# geometry library
of three solids over a 3-component point:

- `Tetrahedron`: four vertices. It has an order-independent `==`, an XOR hash code, a centroid and a surface area by Heron's formula.
- `Cuboid`: eight vertices held in the caller's own array. It has an arity check in the constructor, an order-independent `==`, and a centroid and a hash code accumulated in loops. Its volume and surface area are read from the corners at indices 0, 1, 3 and 4.
- `Cylinder`: a radius and two base centres, all settable. It has field-by-field `==`, an XOR hash code, and height, base area, volume and surface area.

`test_2.cs` holds all three solids over a struct `Point3D`. `cuboid.cs`
holds the same struct and a `Cuboid` that is character-for-character the one
in `test_2.cs`, so both files are modelled by one module and cited side by
side. `tetrahedron.cs` holds a tetrahedron whose `Point3D` is a mutable class:
its vertices compare by reference, and moving a point moves the solid.

Modules:

- `SysMath`: `Math.Abs`, `Math.Pow(x, 2)`, `Math.Sqrt` and `Math.PI` over the reals.
- `VertexSets`: the `All`/`Any` mutual-containment test and the XOR fold of per-vertex hashes. It is generic in the vertex type, so value points and reference points share it.
- `Points`: the struct `Point3D`, vector sums and the mean.
- `Tetrahedra`, `Cuboids`, `Cylinders`: the three solids of `test_2.cs`. `Cuboids` also covers `cuboid.cs`.
- `RefTetrahedra`: `tetrahedron.cs`, with `Point3D` as a class.

The model makes these choices:

- Coordinates are mathematical reals.
- A null reference is a Dafny nullable class reference (`Tetrahedron?`).
- `Equals(object)` tests the dynamic type with `is`. Dafny classes cannot be subclassed, so this is the `GetType() != obj.GetType()` test.
- Each hash is a function parameter into `bv32`. `h` is the runtime's struct hash or, for class points, the identity hash. `hr` is the hash of a `double`.
- The cuboid keeps the caller's `array<Point3D>` itself, not a copy.
- The two loops of the cuboid are `for` loops, each with the invariant that its accumulator equals the fold of the prefix seen so far.

Every solid overrides both `Equals` and `GetHashCode` (test_2.cs:92-105,
192-212, 280-293). Overriding both brings in the contract of .NET's
`Object.GetHashCode`: objects that are equal must return equal hash codes.
The tetrahedron and cuboid hashes break that contract when a vertex repeats.
The model follows the code and records the difference under "## Findings".

## Model

| member | source | states |
|---|---|---|
| SysMath.Abs | test_2.cs:174-176 | `Math.Abs` is non-negative and is either x or -x |
| SysMath.Square | test_2.cs:79 | `Math.Pow(x, 2)` is non-negative and equals \|x\|·\|x\| |
| SysMath.Sqrt | test_2.cs:74-79 | `Math.Sqrt` is non-negative, and squares back to x whenever x has a square root |
| SysMath.SqrtOfSquare | test_2.cs:79 | the square root of r·r is r for every r ≥ 0 |
| VertexSets.ContainsAll | test_2.cs:49 | `a.All(v1 => b.Any(v2 => v1.Equals(v2)))` holds exactly when the vertex set of a is a subset of that of b |
| VertexSets.SameVertices | test_2.cs:49-50 | mutual containment holds exactly when the two vertex sets are equal |
| VertexSets.PermutationKeepsSameVertices | test_2.cs:48-50 | any rearrangement of the vertices passes the mutual-containment test |
| VertexSets.XorAllOfFour | test_2.cs:104 | the four-term XOR of the tetrahedron equals the fold of its vertex hashes |
| VertexSets.XorAllPermutation | test_2.cs:203-212 | the XOR fold of vertex hashes is the same for every rearrangement of the vertices |
| VertexSets.RepeatedVertexBreaksXorHash | test_2.cs:104 | `[x,x,y]+rest` and `[x,y,y]+rest` pass mutual containment, yet their XOR folds differ whenever h(x) ≠ h(y) |
| VertexSets.XorAllRespectsSameDistinctVertices | test_2.cs:102-105 | without repeated vertices, the same vertex set gives the same XOR fold |
| VertexSets.Dedup | test_2.cs:102-105 | the canonical vertex list behind the corrected hash of "## Findings": each vertex once, no repeats, the same vertex set |
| VertexSets.SetXorHashRespectsSameVertices | test_2.cs:102-105 | an XOR over the distinct vertices agrees with mutual containment on all inputs |
| Points.SumPermutation | test_2.cs:162-167 | the component-wise sum does not depend on the order of the points |
| Points.MeanPermutation | test_2.cs:58-63 | the component-wise mean does not depend on the order of the points |
| Tetrahedra.Tetrahedron.constructor | test_2.cs:30-33 | the vertices are the four arguments, in order |
| Tetrahedra.Tetrahedron.Equal | test_2.cs:35-51 | null equals only null; otherwise true exactly when the two vertex sets are equal |
| Tetrahedra.Tetrahedron.NotEqual | test_2.cs:53-56 | true exactly when one side is null and the other not, or both are non-null with different vertex sets |
| Tetrahedra.Tetrahedron.Centroid | test_2.cs:58-64 | the result is the component-wise mean of the four vertices |
| Tetrahedra.Tetrahedron.Area | test_2.cs:66-75 | Heron's formula on the three side lengths, non-negative |
| Tetrahedra.Tetrahedron.Distance | test_2.cs:77-80 | the Euclidean distance, non-negative |
| Tetrahedra.Tetrahedron.SurfaceArea | test_2.cs:82-90 | the sum of the four face areas, non-negative |
| Tetrahedra.Tetrahedron.Equals | test_2.cs:92-100 | false for null and for other types; otherwise true exactly when the vertex sets are equal |
| Tetrahedra.Tetrahedron.GetHashCode | test_2.cs:102-105 | the result is the XOR fold of the four vertex hashes |
| Tetrahedra.Heron | test_2.cs:72-74 | the area from side lengths is non-negative |
| Tetrahedra.HeronSymmetric | test_2.cs:72-74 | Heron's formula gives the same value for any order of the three sides |
| Tetrahedra.SumOfFour | test_2.cs:60-62 | the four-term coordinate sums equal the sum of the vertices |
| Tetrahedra.EqualIsEquivalence | test_2.cs:35-51 | `==` is reflexive, symmetric and transitive, null included |
| Tetrahedra.EqualIgnoresOrder | test_2.cs:48-50 | tetrahedra built from a rearrangement of the same points are `==` and `Equals` |
| Tetrahedra.HashIgnoresOrder | test_2.cs:102-105 | rearranging the four points leaves the hash code unchanged |
| Tetrahedra.HashAgreesWithEqualOnDistinctVertices | test_2.cs:102-105 | with four distinct vertices each, `==` tetrahedra hash alike |
| Tetrahedra.RepeatedVertexHashMismatch | test_2.cs:102-105 | {a,a,b,c} and {a,b,b,c} are `==`, yet their hash codes differ whenever h(a) ≠ h(b) |
| Tetrahedra.SetHashAgreesWithEqual | test_2.cs:102-105 | the distinct-vertex XOR agrees with `==` on every pair of tetrahedra |
| Tetrahedra.CentroidIgnoresOrder | test_2.cs:58-64 | rearranging the vertices leaves the centroid unchanged |
| Tetrahedra.DistanceLaws | test_2.cs:77-80 | distance is symmetric and zero from a point to itself |
| Tetrahedra.AreaSymmetric | test_2.cs:66-75 | the face area does not depend on which corner is named first |
| Tetrahedra.AreaOfRepeatedCorner | test_2.cs:66-75 | a face with two coincident corners has area zero |
| Tetrahedra.HeronOfFlatSides | test_2.cs:72-74 | sides 0, d, d give area zero |
| Tetrahedra.CollapsedSurfaceArea | test_2.cs:82-90 | each vertex lies on three faces: moving v3 onto v0 leaves twice the area of (v0,v1,v2) |
| Tetrahedra.UnitTetrahedronExample | test_2.cs:312-321 | the demo tetrahedron has centroid (0.25, 0.25, 0.25) |
| Cuboids.Cuboid.constructor | test_2.cs:123-131 | given eight vertices, the cuboid stores the caller's array itself |
| Cuboids.New | cuboid.cs:25-33 | a null array throws `NullReferenceException` at `vertices.Length`; otherwise throws `ArgumentException("A cuboid must have 8 vertices")` exactly when the length is not 8; otherwise a fresh cuboid that aliases the caller's array |
| Cuboids.Cuboid.Equal | test_2.cs:133-148 | null equals only null; otherwise true exactly when the two vertex sets are equal |
| Cuboids.Cuboid.NotEqual | cuboid.cs:53-56 | true exactly when one side is null and the other not, or the vertex sets differ |
| Cuboids.Cuboid.Centroid | cuboid.cs:58-72 | the loop keeps (x, y, z) equal to the sum of the first i vertices and returns the mean of all eight |
| Cuboids.Cuboid.Volume | test_2.cs:172-179 | non-negative, and zero exactly when the width, height or depth is zero |
| Cuboids.Cuboid.SurfaceArea | test_2.cs:181-188 | non-negative, and zero exactly when two of the three edges are zero |
| Cuboids.Cuboid.Equals | test_2.cs:192-200 | false for null and for other types; otherwise true exactly when the vertex sets are equal |
| Cuboids.Cuboid.GetHashCode | cuboid.cs:105-114 | the loop keeps `hashCode` equal to the XOR of the first i vertex hashes and returns the fold of all eight |
| Cuboids.EqualIsEquivalence | cuboid.cs:35-50 | `==` is reflexive, symmetric and transitive, null included |
| Cuboids.EqualIgnoresOrder | cuboid.cs:48-49 | any rearrangement of the eight vertices gives a cuboid that is `==` and `Equals` |
| Cuboids.HashIgnoresOrder | test_2.cs:203-212 | rearranging the vertices leaves the hash code unchanged |
| Cuboids.HashAgreesWithEqualOnDistinctVertices | test_2.cs:203-212 | with eight distinct vertices each, `==` cuboids hash alike |
| Cuboids.RepeatedVertexHashMismatch | cuboid.cs:105-114 | `==` cuboids with a repeated vertex can hash differently |
| Cuboids.SetHashAgreesWithEqual | test_2.cs:203-212 | the distinct-vertex XOR agrees with `==` on every pair of cuboids |
| Cuboids.CentroidIgnoresOrder | test_2.cs:156-170 | rearranging the vertices leaves the centroid unchanged |
| Cuboids.FormulasReadFourCorners | test_2.cs:172-188 | cuboids that agree at indices 0, 1, 3 and 4 have the same volume and surface area |
| Cuboids.CubeFormulas | test_2.cs:172-188 | with all three edges equal to e, volume is e³ and surface area is 6e² |
| Cuboids.SumOfEight | test_2.cs:162-167 | the eight-term coordinate sums equal the sum of the vertices |
| Cuboids.UnitCubeExample | cuboid.cs:122-135 | the demo cube has centroid (0.5, 0.5, 0.5), volume 1 and surface area 6 |
| Cuboids.UnitCubeFormulas | test_2.cs:330-343 | a cuboid over the demo corners in demo order has volume 1 and surface area 6 |
| Cuboids.SwappedCubeFormulas | test_2.cs:172-188 | the demo corners with indices 1 and 3 exchanged give volume 0 and surface area 0 |
| Cuboids.ReorderedUnitCube | cuboid.cs:48-49 | two `==` cuboids over the same corners: one has volume 1 and area 6, the other 0 and 0 |
| Cuboids.WriteThroughCallerArray | test_2.cs:130 | a write to the caller's array after construction changes the volume from 1 to 2 |
| Cylinders.Cylinder.constructor | test_2.cs:233-238 | the three fields are the arguments |
| Cylinders.Cylinder.Equal | test_2.cs:240-253 | null equals only null; otherwise true exactly when radius, first base and second base are each equal |
| Cylinders.Cylinder.NotEqual | test_2.cs:255-258 | true exactly when one side is null and the other not, or some field differs |
| Cylinders.Cylinder.Height | test_2.cs:260-263 | non-negative, and zero when the bases coincide |
| Cylinders.Cylinder.BottomArea | test_2.cs:265-268 | non-negative, and zero for radius zero |
| Cylinders.Cylinder.Volume | test_2.cs:270-273 | non-negative, and zero for radius zero or coincident bases |
| Cylinders.Cylinder.SurfaceArea | test_2.cs:275-278 | 2πr(r+h) equals twice the base area plus the lateral area 2πrh, and is non-negative for r ≥ 0 |
| Cylinders.Cylinder.Equals | test_2.cs:280-288 | false for null and for other types; otherwise `==` |
| Cylinders.Cylinder.GetHashCode | test_2.cs:290-293 | the XOR of the radius hash and the two base hashes, the same with the bases exchanged, and only the radius hash when the bases coincide; `EqualCylindersAgree` and `SwappedBases` relate it to `==` |
| Cylinders.EqualIsEquivalence | test_2.cs:240-253 | `==` is reflexive, symmetric and transitive, null included |
| Cylinders.EqualCylindersAgree | test_2.cs:290-293 | `==` cylinders have equal hash codes, heights, base areas, volumes and surface areas |
| Cylinders.HeightSymmetric | test_2.cs:260-263 | exchanging the bases leaves the height unchanged |
| Cylinders.SwappedBases | test_2.cs:252 | with distinct bases, exchanging them breaks `==` but keeps the hash code, volume and surface area |
| Cylinders.CylinderExample | test_2.cs:350-361 | radius 2 from (0,0,0) to (0,0,5): height 5, base area 4π, volume 20π, surface area 28π |
| Cylinders.SetBase2 | test_2.cs:231 | the setter changes only the second base; moving it onto the first makes height and volume zero |
| RefTetrahedra.Point3D.constructor | tetrahedron.cs:12-17 | the three coordinates are the arguments |
| RefTetrahedra.Point3D.Position | tetrahedron.cs:8-10 | the current coordinates of the object, as a value |
| RefTetrahedra.Positions | tetrahedron.cs:53-59 | the snapshot has one entry per point, and each entry is that point's current position |
| RefTetrahedra.Tetrahedron.constructor | tetrahedron.cs:24-28 | the vertices are the four point objects passed in, in order |
| RefTetrahedra.Tetrahedron.Equal | tetrahedron.cs:30-46 | null equals only null; otherwise true exactly when the two sets of point objects are equal |
| RefTetrahedra.Tetrahedron.NotEqual | tetrahedron.cs:48-51 | true exactly when one side is null and the other not, or the sets of point objects differ |
| RefTetrahedra.Tetrahedron.Centroid | tetrahedron.cs:53-59 | a fresh point at the mean of the vertices' current coordinates, read at the time of the call |
| RefTetrahedra.Tetrahedron.Area | tetrahedron.cs:61-70 | Heron's formula on the current side lengths, non-negative |
| RefTetrahedra.Tetrahedron.Distance | tetrahedron.cs:72-75 | the distance between current positions, non-negative |
| RefTetrahedra.Tetrahedron.SurfaceArea | tetrahedron.cs:77-85 | the sum of the four current face areas, non-negative |
| RefTetrahedra.Tetrahedron.Equals | tetrahedron.cs:87-95 | false for null and for other types; otherwise true exactly when the sets of point objects are equal |
| RefTetrahedra.Tetrahedron.GetHashCode | tetrahedron.cs:97-100 | the XOR fold of the four identity hashes |
| RefTetrahedra.EqualIsEquivalence | tetrahedron.cs:30-46 | `==` is reflexive, symmetric and transitive, null included |
| RefTetrahedra.EqualIgnoresOrder | tetrahedron.cs:44-45 | tetrahedra over a rearrangement of the same point objects are `==` and `Equals` |
| RefTetrahedra.HashIgnoresOrder | tetrahedron.cs:97-100 | rearranging the point objects leaves the hash code unchanged |
| RefTetrahedra.MatchesSnapshot | tetrahedron.cs:61-85 | distances and surface area equal those of the struct-point tetrahedron over the current coordinates |
| RefTetrahedra.DistanceLaws | tetrahedron.cs:72-75 | distance is symmetric and zero from a point to itself |
| RefTetrahedra.UnsharedPointBreaksEqual | tetrahedron.cs:44-45 | a point object held by one tetrahedron and not the other makes them unequal |
| RefTetrahedra.DistinctPointsExample | tetrahedron.cs:6-18 | distinct point objects at the same coordinates give tetrahedra that are not `==` |
| RefTetrahedra.MovedPointExample | tetrahedron.cs:26 | setting X on a vertex after construction moves the next centroid from (0.25, 0.25, 0.25) to (1.25, 0.25, 0.25) |

## Left out

- IEEE-754 behaviour is not modelled: rounding, the non-associativity of addition, NaN, infinities, `-0.0`, and the precision of `Math.Pow`, `Math.Sqrt` and `Math.PI`. Coordinates are reals. Permutation-invariance of the centroid therefore holds in the model but only approximately in doubles.
- SysMath.Sqrt: ensures r·r == x only where a root is known to exist. A root of an arbitrary x ≥ 0 cannot be shown in Dafny's real arithmetic, so `SqrtOfSquare` supplies it for perfect squares. For a negative argument the model returns 0 rather than NaN. In the source this case can arise only in Heron's formula, when rounding makes the radicand of a degenerate face slightly negative. No cylinder formula takes a root involving the radius. A negative radius gives a positive base area and can give a negative surface area (radius -2 and height 5 give -12π), in the source and in the model alike.
- Tetrahedra.UnitTetrahedronExample: states only the centroid. The demo surface area involves √2 and √3, which the model's `Sqrt` cannot evaluate.
- Cylinders.Cylinder.BottomArea: does not state that the area is positive for a non-zero radius.
- The runtime's concrete hash values are not modelled. `double.GetHashCode`, the default struct hash and the default object hash become function parameters.
- The `int` of `GetHashCode` is modelled as `bv32`, where XOR is the same operation.
- `GenerateRandom` (test_2.cs:107-115, 214-224, 295-302) is left out because it depends on `System.Random`.
- The demo and timing code is left out: console output, `Stopwatch`, `Thread.Sleep` and `Task` fan-out in test_2.cs:309-488, cuboid.cs:118-141 and tetrahedron.cs:104-122. Its example solids appear as the `...Example` methods.
- Program.cs and cylinder.cs are not part of this model: every line in them is commented out.
- cuboid.py, tetrahedron.js and cylinder.js are not part of this model. They are divergent drafts: positional equality and sqrt-based edge lengths.
- The properties `X`, `Y`, `Z` of the point classes are fields. Their setters are field assignments, and `Cylinder`'s `Base2` setter is `SetBase2`.
- RefTetrahedra.Tetrahedron.constructor: takes non-null `Point3D` references. tetrahedron.cs:24-27 also accepts null points, but then `==` throws `NullReferenceException` at `v1.Equals(v2)` (tetrahedron.cs:44-45), even for `t == t`, and so do `Centroid`, `SurfaceArea` and `GetHashCode`. The model does not include these throwing paths, so `EqualIsEquivalence` holds only for tetrahedra over non-null points.
- The private vertex array of each tetrahedron is modelled as an immutable sequence, because nothing writes to it after construction.

## Findings

| source | as written | input that shows it | evidently intended | confidence | as-written member | corrected member |
|---|---|---|---|---|---|---|
| test_2.cs:102-105 | the hash XORs every listed vertex, so a vertex listed twice cancels out, while `==` compares vertex sets | tetrahedra over (a, a, b, c) and (a, b, b, c) with h(a) ≠ h(b): `==` is true, but the hashes are h(b)^h(c) and h(a)^h(c) | equal tetrahedra have equal hash codes | medium; not executed | Tetrahedra.RepeatedVertexHashMismatch | Tetrahedra.SetHashAgreesWithEqual |
| test_2.cs:203-212 | the hash loop XORs all eight vertex hashes, so a repeated vertex cancels out, while `==` compares vertex sets | cuboids over [p, p, q] + rest and [p, q, q] + rest with h(p) ≠ h(q) | equal cuboids have equal hash codes | medium; not executed | Cuboids.RepeatedVertexHashMismatch | Cuboids.SetHashAgreesWithEqual |
