# PyTree in Dafny

A model of the geometric core of PyTree (`pytree.js`), a canvas drawing of
a Pythagoras tree. The core is made of two parts. The first is a mutable 2D
vector class, `Vec`. The second is an oriented `Square` that can translate
itself and subdivide recursively into two turned, scaled children per level.
The children are collected in a dictionary keyed by depth.

- `geometry.dfy`, module `Geometry`. The coordinates of a vector as a value
  (`Pt`) and the operations the vector class performs on them. Math.sqrt,
  cos, sin, acos, atan2 and PI are not given values. A `Trig` value passed
  as a parameter carries them as arbitrary functions, so every fact proved
  holds whatever they return. The lemmas that need the unit-circle identity
  say so with `Trig.CircleAt`.
- `vectors.dfy`, module `Vectors`. `class Vec` with mutable fields `x` and
  `y`. Every arithmetic, normalize and rotate operation comes in two forms:
  - a mutating form, which overwrites the receiver and returns it;
  - a copying form (the source's underscore-prefixed twins, named here
    `AddNew`, `SubtractNew`, ...), which returns a fresh vector.

  Both forms are specified by the same `Pt` function of the old
  coordinates, so they compute the same coordinates. `Copy` exists only as
  a copying form, and `Length` is a pure function of the coordinates.
- `trees.dfy`, module `Trees`. The shape of one subdivision run as a
  `Tree`. Each `Fork` records the two children a call created, then the
  runs of the left child and of the right child. The module also holds the
  bucket dictionary relation `Appended`: how one call changes the
  `map<int, seq<T>>` that all the calls share. Its lemmas give the final
  layout of the dictionary.
- `squares.dfy`, module `Squares`.
  - `class Square`: the `origin` and `normal` objects it was given (not
    copies), its half-size, and four fresh corner objects. A tree's squares
    all share the root's origin object, so every translation moves that one
    shared origin; the model keeps this aliasing.
  - `class SquareSet`: the depth-keyed dictionary.
  - `SubdivideFrom` (`_subdivide`) and `Subdivide` (`subdivide`) return the
    dictionary and, as a ghost result, the `Tree` of squares the run created.
    What follows the two pushes in `_subdivide` is the method `Grow`; the
    two recursive calls themselves are the method `Branches`.
  - `Aligned` states the geometry of a whole run: every child's corner sits
    on its parent's corner and every child's normal is its parent's normal
    turned by the branch angle.
  - `Shaped` and `IsSquare` state that a square is a square: each corner is
    the midpoint of its diagonal plus the offset `(±size, ±size)` rotated
    by the normal's angle. `Looks` records how every square of a run looks,
    so that the shape of a whole run can be stated without reading the heap.
  - `Distinct` (in `trees.dfy`) states that a run creates no square twice.

## Model

| member | source | states |
|---|---|---|
| Vectors.Vec.constructor | pytree.js:104-107 | a new vector holds exactly the given coordinates |
| Vectors.Vec.Add | pytree.js:115-120 | adds the argument's coordinates into the receiver and returns the receiver itself |
| Vectors.Vec.Subtract | pytree.js:122-127 | subtracts the argument's coordinates from the receiver and returns the receiver itself |
| Vectors.Vec.Divide | pytree.js:129-134 | divides both coordinates of the receiver by a non-zero value and returns the receiver |
| Vectors.Vec.Multiply | pytree.js:136-141 | scales both coordinates of the receiver and returns the receiver |
| Vectors.Vec.Normalize | pytree.js:147-153 | the receiver becomes its normalized value; a vector of length exactly zero is left unchanged; the receiver is returned |
| Vectors.Vec.Rotate | pytree.js:155-162 | the receiver is rotated by an angle in degrees, converted with PI/180, using the same rotation as RotateR |
| Vectors.Vec.RotateR | pytree.js:164-170 | the receiver is rotated by an angle in radians and returned |
| Vectors.Vec.Copy | pytree.js:172-174 | a fresh vector with the receiver's coordinates |
| Vectors.Vec.AddNew | pytree.js:176-178 | a fresh vector with the coordinates Add would produce; the receiver is untouched |
| Vectors.Vec.SubtractNew | pytree.js:180-182 | a fresh vector with the coordinates Subtract would produce; the receiver is untouched |
| Vectors.Vec.DivideNew | pytree.js:184-186 | a fresh vector with the coordinates Divide would produce; the receiver is untouched |
| Vectors.Vec.MultiplyNew | pytree.js:188-190 | a fresh vector with the coordinates Multiply would produce; the receiver is untouched |
| Vectors.Vec.NormalizeNew | pytree.js:192-198 | the coordinates Normalize would produce; the result is the receiver itself (not a copy) exactly when the length is zero, and a fresh vector otherwise |
| Vectors.Vec.RotateNew | pytree.js:200-205 | a fresh vector with the coordinates Rotate would produce |
| Vectors.Vec.RotateRNew | pytree.js:207-211 | a fresh vector with the coordinates RotateR would produce |
| Geometry.NormalizedRoundTrip | pytree.js:147-153 | scaling a normalized vector back by its length gives the vector again; a vector of length zero is left as it is |
| Geometry.OverUndoesTimes | pytree.js:129-141 | dividing by a non-zero factor undoes multiplying by it |
| Geometry.MinusUndoesPlus | pytree.js:115-127 | subtracting a vector undoes adding it |
| Geometry.PlusMinusCancel | pytree.js:73 | translating a point by (q - p) lands it exactly on q, which is how a child's corner is brought onto its parent's |
| Geometry.MidPlus | pytree.js:55-61 | translating both ends of a segment translates its midpoint by the same vector |
| Geometry.RotRInverse | pytree.js:164-170 | where cos and sin satisfy the unit-circle and parity identities, rotating by -rad undoes rotating by rad |
| Geometry.RotRKeepsNorm | pytree.js:164-170 | where cos and sin satisfy the unit-circle identity, rotation keeps the squared length |
| Squares.ClampScale | pytree.js:11 | the scale the tree is drawn with is at least 0.5 and at least the requested scale, and is one of the two |
| Squares.AcosArgument | pytree.js:68-69 | for a positive size and the clamped scale, the argument passed to acos lies in (0, 1], and equals 1 exactly when the scale is 0.5 |
| Squares.TurnIsBranchAngle | pytree.js:68-69 | the branch angle depends only on the scale and not on the parent's size, so every level turns by the same angle |
| Squares.OffsetCorner | pytree.js:50-53 | a fresh corner vector at the rotated offset from the current origin |
| Squares.CornersCentred | pytree.js:50-53 | the four computed corners are symmetric about the origin: it is the midpoint of both diagonals whatever the trig functions return |
| Squares.Square.constructor | pytree.js:45-53 | the square keeps the given origin and normal objects; the normal is normalized in place; the four corners are fresh, distinct objects at the rotated offsets (-s,-s), (s,-s), (s,s), (-s,s); the origin is the midpoint of both diagonals |
| Squares.Square.Translate | pytree.js:55-61 | exactly the four corners and the origin move by the vector; the square stays centred on its origin |
| Squares.Sprout | pytree.js:71-77 | one child: fresh corners and normal, the shared origin, the new half-size, the normal turned and normalized; after the translation all four corners are at the rotated offsets (-s,-s), (s,-s), (s,s), (-s,s) about the moved origin, which is the midpoint of both diagonals, so the child is a square; and its fourth (left) or third (right) corner is on the anchor |
| Squares.Square.Children | pytree.js:68-77 | two different new squares, both square in shape, sharing the origin, with the same non-zero half-size size times scale; the left child's p4 equals the parent's p1 and the right child's p3 equals the parent's p2; the normals are turned by plus and minus the branch angle; the right child, built last, is centred on the origin's current position |
| Squares.SquareSet.constructor | pytree.js:96 | a new dictionary is empty |
| Squares.SquareSet.Open | pytree.js:79-88 | the two children are pushed in order onto bucket depth (created if absent), and bucket depth+1 is created if absent |
| Trees.Opened | pytree.js:79-88 | the dictionary after one call's pushes: the keys gained are exactly depth and depth+1, bucket depth gets the two children at its end, and every other bucket is untouched |
| Squares.Square.SubdivideFrom | pytree.js:63-93 | past the limit nothing changes; otherwise every bucket from depth to steps gets the matching level of the run appended, keys depth to steps+1 come to exist, every call up to steps forks and every call beyond it stops, every created square is a new object sharing the origin with half-size scaled once per level, no square is created twice, every created square is square in shape, the square's own corners and normal are unchanged, and throughout the run each child's fourth (left) or third (right) corner is on its parent's first or second corner and its normal is the parent's turned by plus or minus the branch angle |
| Squares.Grow | pytree.js:85-90 | with the two children just pushed onto bucket depth, their two runs complete the call: the whole call's effect on the dictionary, forking up to steps, sizes, new objects, no square twice (the two children differ and are in neither run, and the runs share no square), every square square in shape, and the alignment of the whole run against the parent's first and second corners and normal |
| Squares.Branches | pytree.js:89-90 | the left child's run and then the right child's on the shared dictionary: each run's effect on the dictionary, forking, sizes, new objects, shape and geometry; the two runs share no square and neither contains either child; the left run's geometry and shape are kept through the right run |
| Trees.ChildRunsAt | pytree.js:89-90 | after the left run and then the right run, a bucket holds the call's own pushes, then the left run's level, then the right run's |
| Trees.ForkLevelAt | pytree.js:82-90 | a call's own two children followed by its children's levels make up that call's level at each key |
| Trees.AppendedFork | pytree.js:79-90 | one call's effect on the dictionary is its own pushes followed by its left child's run and then its right child's run |
| Trees.LevelSize | pytree.js:79-90 | a run from depth that forks up to steps creates 2^(k+1) squares at each level k whose calls are at most at steps |
| Trees.LevelBeyond | pytree.js:63-66 | a run from depth that stops beyond steps creates nothing at a level whose calls would be past steps |
| Trees.LevelUnique | pytree.js:82-90 | in a run that creates no square twice, no level holds a square at two positions |
| Trees.LevelsApart | pytree.js:82-90 | in a run that creates no square twice, two different levels share no square |
| Trees.LevelPlace | pytree.js:82-90 | in a run that creates no square twice, a square has one place only: one level and one position in it |
| Trees.RunPlaces | pytree.js:95-99 | after a run from depth 1 over {0: [root]} that creates no square twice and does not contain the root, every square in the dictionary is at exactly one key and one position |
| Trees.RunLayout | pytree.js:95-99 | a run from depth 1 over {0: [root]} leaves bucket 0 as [root], bucket d (1 to steps) holding level d-1 with 2^d squares, an empty bucket steps+1 when steps >= 1, and no other key |
| Squares.LevelGrown | pytree.js:68 | every square of generation d shares the root's origin object and has half-size size times scale^d |
| Squares.Square.Subdivide | pytree.js:95-99 | a fresh dictionary: bucket 0 is exactly this square; for 1 <= d <= steps, bucket d holds the 2^d squares of generation d in the order the run pushes them (the left child's run before the right child's), all new objects on this square's origin with half-size size times scale^d, each square in shape; every square in the dictionary is at exactly one key and one position; the run creates nothing past level steps; when steps >= 1, bucket 1 is the square's own two children, the left one with its fourth corner on this square's first and the right one with its third corner on this square's second, their normals turned by plus and minus the branch angle, and so on down the whole tree; when steps >= 1, bucket steps+1 exists and is empty and no other key exists; when steps < 1, only bucket 0; the square's own corners and normal are unchanged |

## Left out

- The `Pytree` wrapper (pytree.js:1-43): canvas set-up, the root square's placement and the rendering loop are drawing and I/O. Its scale clamp is modelled as `ClampScale`.
- `Vec.fromDegree` (pytree.js:110-113) builds a direction from an angle and is not used by the square code.
- Floating point: coordinates are real numbers. The values of sqrt, cos, sin, acos, atan2 and PI are not modelled; a `Trig` parameter supplies them.
- The normal has unit length after normalization only under the real square root, so the model does not state it.
- Vectors.Vec.Divide: requires a non-zero divisor, because JavaScript's Infinity and NaN results are not modelled. The same holds for `Geometry.Pt.Over`.
- Vectors.Vec.DivideNew: requires a non-zero divisor, for the same reason as `Divide`.
- Vectors.Vec.Length: has no contract of its own; it is `Geometry.Pt.Len` of the current coordinates.
- Squares.Square.SubdivideFrom: requires a non-zero size and scale, because a zero makes the source divide by zero inside acos. It also requires that the origin is none of the square's own vectors, which holds for every square the source builds. `Squares.Square.Subdivide`, `Squares.Grow` and `Squares.Branches` have the same requires.
- Squares.Square.SubdivideFrom: the final coordinates of the shared origin object, which every translation moves, are not specified. Each created square's shape is therefore stated about the midpoint of its own diagonal, not about the origin object, which later translations move away from it.
- Squares.Grow: the same holds; the shared origin's final coordinates are not specified.
- Squares.Branches: the same holds; the shared origin's final coordinates are not specified.
- Squares.Square.Subdivide: the same holds; the shared origin's final coordinates are not specified, and each square's shape is stated about the midpoint of its own diagonal.
- Squares.Square.Translate: requires the translation vector to be none of the square's own points, because adding a vector to itself changes the vector mid-translation.
- `steps` is an integer. A fractional or non-numeric `steps` in JavaScript is not modelled.
- The results of the two `concat` calls (pytree.js:89-90) are discarded in the source, so the model does not compute them; the children's squares reach the dictionary only through the shared object.
- The `Tree` returned by the subdivision is ghost: it names the squares a run created, for the contracts, and has no counterpart in the source.
