/** The oriented square of pytree.js and its recursive subdivision.

    A square keeps the `origin` and `normal` objects its creator passed in
    (not copies) and four corner vectors of its own. Every square of one
    tree is built from the same origin object, so translating any of them
    moves that one shared origin; the corners are fresh objects and move
    only with their own square. */
module Squares {
  import opened Geometry
  import opened Vectors
  import opened Trees

  /** The corner at local offset `(sx, sy)` of a square centred on `o`
      whose orientation is given by the normal `n`: the offset is rotated by
      `atan2(n.x, n.y)` (x and y deliberately in that order). */
  function Corner(trig: Trig, o: Pt, n: Pt, sx: real, sy: real): Pt {
    o.Plus(Pt(sx, sy).RotR(trig, trig.atan2(n.x, n.y)))
  }

  /** A child's normal: the parent's normal turned by `rad`, normalized
      once by the subdivision and once more by the child's constructor. */
  function Turned(trig: Trig, n: Pt, rad: real): Pt {
    n.RotR(trig, rad).Normalized(trig).Normalized(trig)
  }

  /** What a square looks like at one moment: its four corners, its normal
      and its half-size. */
  datatype Look = Look(c1: Pt, c2: Pt, c3: Pt, c4: Pt, n: Pt, size: real)

  /** Each corner of `q` is the centre of its diagonal `c1`-`c3` plus the
      corner's offset `(±size, ±size)` rotated by the normal's angle. */
  ghost predicate IsSquare(trig: Trig, q: Look) {
    var c := Mid(q.c1, q.c3);
    && q.c1 == Corner(trig, c, q.n, -q.size, -q.size)
    && q.c2 == Corner(trig, c, q.n, q.size, -q.size)
    && q.c3 == Corner(trig, c, q.n, q.size, q.size)
    && q.c4 == Corner(trig, c, q.n, -q.size, q.size)
  }

  /** Squares of a run from its parts. */
  lemma SquaresFork(a: Look, b: Look, l: Tree<Look>, r: Tree<Look>, trig: Trig)
    requires IsSquare(trig, a) && IsSquare(trig, b)
    requires forall k: nat, q :: q in Level(l, k) ==> IsSquare(trig, q)
    requires forall k: nat, q :: q in Level(r, k) ==> IsSquare(trig, q)
    ensures forall k: nat, q :: q in Level(Fork(a, b, l, r), k) ==> IsSquare(trig, q)
  {
  }

  /** The angle by which a child of half-size `newSize` turns away from a
      parent of half-size `size`. */
  function BranchAngle(trig: Trig, size: real, newSize: real): real
    requires newSize != 0.0
  {
    trig.acos((size * 0.5) / newSize)
  }

  /** `newSize`: the half-size of both children of a square of half-size
      `size`. */
  function ChildSize(size: real, scale: real): real { size * scale }

  /** `Math.max(scale, 0.5)`: the scale the tree is drawn with. */
  function ClampScale(scale: real): (s: real)
    ensures s >= scale && s >= 0.5
    ensures s == scale || s == 0.5
  {
    if scale >= 0.5 then scale else 0.5
  }

  /** The half-size of the squares `n` generations below a square of
      half-size `size`. */
  function HalfSize(size: real, scale: real, n: nat): real { size * Pow(scale, n) }

  /** `scale ** n` over the reals. */
  function Pow(scale: real, n: nat): real {
    if n == 0 then 1.0 else scale * Pow(scale, n - 1)
  }

  /** The depth-keyed dictionary of squares the subdivision fills. */
  class SquareSet {
    var buckets: map<int, seq<Square>>

    constructor ()
      ensures buckets == map[]
    {
      buckets := map[];
    }

    /** Pushes `a` and then `b` onto bucket `d`, creating it if absent, and
        creates bucket `d + 1` if absent. */
    method Open(a: Square, b: Square, d: int)
      modifies this
      ensures buckets == Opened(old(buckets), a, b, d)
    {
      if d !in buckets {
        buckets := buckets[d := []];
      }
      buckets := buckets[d := buckets[d] + [a]];
      buckets := buckets[d := buckets[d] + [b]];
      if d + 1 !in buckets {
        buckets := buckets[d + 1 := []];
      }
    }
  }

  class Square {
    const origin: Vec
    const normal: Vec
    const size: real
    const p1: Vec
    const p2: Vec
    const p3: Vec
    const p4: Vec

    /** The four corners are four distinct objects, none of them the origin
        or the normal. */
    ghost predicate Valid() {
      && p1 != p2 && p1 != p3 && p1 != p4 && p2 != p3 && p2 != p4 && p3 != p4
      && origin != p1 && origin != p2 && origin != p3 && origin != p4
      && normal != p1 && normal != p2 && normal != p3 && normal != p4
    }

    /** The origin, which other squares may share, is none of this square's
        own vectors. */
    ghost predicate Detached() {
      origin != p1 && origin != p2 && origin != p3 && origin != p4 && origin != normal
    }

    /** The vectors this square owns: its four corners and its normal. */
    ghost function Parts(): set<Vec> {
      {p1, p2, p3, p4, normal}
    }

    /** The stored origin is the midpoint of both diagonals. */
    ghost predicate Centred()
      reads origin, p1, p2, p3, p4
    {
      && Mid(p1.Value(), p3.Value()) == origin.Value()
      && Mid(p2.Value(), p4.Value()) == origin.Value()
    }

    /** The square's shape wherever it now stands: each corner is the
        centre of the diagonals plus its offset `(±size, ±size)` rotated by
        the normal's angle, as the constructor placed it. */
    ghost predicate Shaped(trig: Trig)
      reads p1, p2, p3, p4, normal
    {
      IsSquare(trig, Now())
    }

    /** The square as it now stands. */
    ghost function Now(): Look
      reads p1, p2, p3, p4, normal
    {
      Look(p1.Value(), p2.Value(), p3.Value(), p4.Value(), normal.Value(), size)
    }

    /** Normalizes `normal` in place and keeps that object; keeps `origin`
        itself; computes four fresh corners from the current coordinates
        of both. */
    constructor (trig: Trig, origin: Vec, size: real, normal: Vec)
      modifies normal
      ensures this.origin == origin && this.normal == normal && this.size == size
      ensures normal.Value() == old(normal.Value()).Normalized(trig)
      ensures normal != origin ==> origin.Value() == old(origin.Value())
      ensures fresh(p1) && fresh(p2) && fresh(p3) && fresh(p4) && Valid()
      ensures p1.Value() == Corner(trig, origin.Value(), normal.Value(), -size, -size)
      ensures p2.Value() == Corner(trig, origin.Value(), normal.Value(), size, -size)
      ensures p3.Value() == Corner(trig, origin.Value(), normal.Value(), size, size)
      ensures p4.Value() == Corner(trig, origin.Value(), normal.Value(), -size, size)
      ensures Centred()
    {
      this.origin := origin;
      var n := normal.Normalize(trig);
      this.normal := n;
      this.size := size;
      var angle := trig.atan2(n.x, n.y);
      var c1 := OffsetCorner(trig, origin, -size, -size, angle);
      var c2 := OffsetCorner(trig, origin, size, -size, angle);
      var c3 := OffsetCorner(trig, origin, size, size, angle);
      var c4 := OffsetCorner(trig, origin, -size, size, angle);
      this.p1, this.p2, this.p3, this.p4 := c1, c2, c3, c4;
      new;
      CornersCentred(trig, origin.Value(), normal.Value(), size);
    }

    /** Adds `v` to the four corners and to the (possibly shared) origin;
        nothing else moves. */
    method Translate(v: Vec)
      requires Valid()
      requires v != p1 && v != p2 && v != p3 && v != p4 && v != origin
      modifies p1, p2, p3, p4, origin
      ensures p1.Value() == old(p1.Value()).Plus(old(v.Value()))
      ensures p2.Value() == old(p2.Value()).Plus(old(v.Value()))
      ensures p3.Value() == old(p3.Value()).Plus(old(v.Value()))
      ensures p4.Value() == old(p4.Value()).Plus(old(v.Value()))
      ensures origin.Value() == old(origin.Value()).Plus(old(v.Value()))
      ensures old(Centred()) ==> Centred()
    {
      var r1 := p1.Add(v);
      var r2 := p2.Add(v);
      var r3 := p3.Add(v);
      var r4 := p4.Add(v);
      var r5 := origin.Add(v);
      ghost var d := old(v.Value());
      MidPlus(old(p1.Value()), old(p3.Value()), d);
      MidPlus(old(p2.Value()), old(p4.Value()), d);
    }

    /** The two children one subdivision step builds: both of half-size
        `size * scale`, on the shared origin, with this square's normal
        turned by plus and minus the branch angle; the left one translated so
        that its fourth corner lands on this square's first, the right one so
        that its third corner lands on this square's second. */
    method Children(trig: Trig, scale: real) returns (sq1: Square, sq2: Square)
      requires Detached()
      requires size != 0.0 && scale != 0.0
      modifies origin
      ensures fresh(sq1) && fresh(sq2) && sq1 != sq2
      ensures sq1.Shaped(trig) && sq2.Shaped(trig) && sq2.Centred()
      ensures sq1.Detached() && sq1.origin == origin && sq1.size == ChildSize(size, scale)
      ensures sq2.Detached() && sq2.origin == origin && sq2.size == ChildSize(size, scale)
      ensures sq1.size != 0.0
      ensures sq1.p4.Value() == p1.Value() && sq2.p3.Value() == p2.Value()
      ensures sq1.normal.Value() == Turned(trig, normal.Value(), Turn(trig, scale))
      ensures sq2.normal.Value() == Turned(trig, normal.Value(), -Turn(trig, scale))
    {
      var newSize := ChildSize(size, scale);
      TurnIsBranchAngle(trig, size, scale, newSize);
      var rad := BranchAngle(trig, size, newSize);
      sq1 := Sprout(trig, origin, normal, newSize, rad, p1, true);
      sq2 := Sprout(trig, origin, normal, newSize, -rad, p2, false);
    }

    /** `_subdivide`: below the limit, builds the two children, pushes them
        onto bucket `depth`, makes sure bucket `depth + 1` exists and runs
        the left child's subdivision and then the right child's (`Branches`),
        all on the one shared dictionary. The ghost result `t` records the
        squares the run created: all new objects, none created twice
        (`Distinct`), each a square in shape as `s` records it, and each
        child placed and turned against its own parent (`Aligned`). */
    method SubdivideFrom(trig: Trig, steps: int, scale: real, squares: SquareSet, depth: int)
        returns (r: SquareSet, ghost t: Tree<Square>, ghost s: Tree<Look>)
      requires Detached()
      requires size != 0.0 && scale != 0.0
      modifies squares, origin
      decreases if depth > steps then 0 else steps - depth + 1, 2
      ensures r == squares
      ensures Appended(old(squares.buckets), squares.buckets, t, depth, steps)
      ensures Complete(t, depth, steps)
      ensures Grown(t, origin, size, scale)
      ensures unchanged(p1, p2, p3, p4, normal)
      ensures forall k: nat, sq :: sq in Level(t, k) ==> fresh(sq)
      ensures Distinct(t)
      ensures Looks(t) == s && forall k: nat, q :: q in Level(s, k) ==> IsSquare(trig, q)
      ensures Aligned(t, trig, Turn(trig, scale), p1, p2, normal)
      ensures t.Fork? ==> t.left.normal.Value() == Turned(trig, normal.Value(), Turn(trig, scale))
      ensures t.Fork? ==> t.right.normal.Value() == Turned(trig, normal.Value(), -Turn(trig, scale))
    {
      if depth > steps {
        return squares, Tip, Tip;
      }

      var sq1, sq2 := Children(trig, scale);
      ghost var q1, q2 := sq1.Now(), sq2.Now();
      squares.Open(sq1, sq2, depth);
      ghost var t1, t2, s1, s2 := Grow(trig, steps, scale, squares, depth, sq1, sq2, old(squares.buckets), size, p1, p2, normal);
      SquaresFork(q1, q2, s1, s2, trig);
      r, t, s := squares, Fork(sq1, sq2, t1, t2), Fork(q1, q2, s1, s2);
    }

    /** `subdivide`: a fresh dictionary holding this square alone at key 0,
        filled by the run from depth 1. Bucket `d` for `1 <= d <= steps`
        holds the `2^d` squares of generation `d`, all on this square's
        origin object and of half-size `size * scale^d`, all new objects,
        each a square in shape, each placed and turned against its parent;
        every square holds exactly one slot of the dictionary; when
        `steps >= 1` there is also an empty bucket `steps + 1`, and no
        other key. */
    method Subdivide(trig: Trig, steps: int, scale: real) returns (squares: SquareSet, ghost t: Tree<Square>)
      requires Detached()
      requires size != 0.0 && scale != 0.0
      modifies origin
      ensures fresh(squares)
      ensures 0 in squares.buckets && squares.buckets[0] == [this]
      ensures forall d :: 1 <= d <= steps ==>
                d in squares.buckets && squares.buckets[d] == Level(t, d - 1) && |squares.buckets[d]| == Pow2(d)
      ensures forall d :: 1 <= d <= steps ==> Generation(t, origin, size, scale, d)
      ensures steps >= 1 ==> (forall j :: j in squares.buckets <==> 0 <= j <= steps + 1) && squares.buckets[steps + 1] == []
      ensures steps < 1 ==> squares.buckets == map[0 := [this]]
      ensures forall d, sq :: 1 <= d && d in squares.buckets && sq in squares.buckets[d] ==> fresh(sq)
      ensures forall d, sq :: 1 <= d && d in squares.buckets && sq in squares.buckets[d] ==> sq.Shaped(trig)
      ensures forall d1, i, d2, j ::
                && d1 in squares.buckets && d2 in squares.buckets
                && 0 <= i < |squares.buckets[d1]| && 0 <= j < |squares.buckets[d2]|
                && squares.buckets[d1][i] == squares.buckets[d2][j]
                ==> d1 == d2 && i == j
      ensures forall k: nat :: k >= steps ==> Level(t, k) == []
      ensures steps >= 1 ==> t.Fork? && squares.buckets[1] == [t.left, t.right]
      ensures t.Fork? ==> t.left.p4.Value() == p1.Value() && t.right.p3.Value() == p2.Value()
      ensures t.Fork? ==> t.left.normal.Value() == Turned(trig, normal.Value(), Turn(trig, scale))
      ensures t.Fork? ==> t.right.normal.Value() == Turned(trig, normal.Value(), -Turn(trig, scale))
      ensures Aligned(t, trig, Turn(trig, scale), p1, p2, normal)
      ensures unchanged(p1, p2, p3, p4, normal)
    {
      squares := new SquareSet();
      squares.buckets := map[0 := [this]];
      ghost var s;
      squares, t, s := SubdivideFrom(trig, steps, scale, squares, 1);
      RunLayout(this, squares.buckets, t, steps);
      forall d | 1 <= d <= steps
        ensures Generation(t, origin, size, scale, d)
      {
        LevelGrown(t, origin, size, scale, d);
      }
      forall d, sq | 1 <= d <= steps && sq in squares.buckets[d]
        ensures sq.Shaped(trig)
      {
        LevelLooks(t, d - 1, sq);
      }
      forall k: nat
        ensures this !in Level(t, k)
      {
        assert this in Level(t, k) ==> fresh(this);
      }
      RunPlaces(this, squares.buckets, t, steps);
      forall k: nat | k >= steps
        ensures Level(t, k) == []
      {
        LevelBeyond(t, 1, steps, k);
      }
    }
  }

  /** The two recursive calls that end `_subdivide`: with `sq1` and `sq2`
      just pushed onto bucket `depth` of `m0`, the left child's run and
      then the right child's, both from depth `depth + 1` on the one shared
      dictionary, together making the run under their parent. */
  method Grow(trig: Trig, steps: int, scale: real, squares: SquareSet, depth: int, sq1: Square, sq2: Square,
              ghost m0: map<int, seq<Square>>, ghost size: real, q1: Vec, q2: Vec, n: Vec)
      returns (ghost t1: Tree<Square>, ghost t2: Tree<Square>, ghost s1: Tree<Look>, ghost s2: Tree<Look>)
    requires depth <= steps && squares.buckets == Opened(m0, sq1, sq2, depth)
    requires sq1 != sq2 && sq1.Detached() && sq2.Detached() && sq1.origin == sq2.origin
    requires sq1.size == ChildSize(size, scale) && sq2.size == ChildSize(size, scale)
    requires sq1.size != 0.0 && scale != 0.0
    requires q1 != sq1.origin && q2 != sq1.origin && n != sq1.origin
    requires sq1.p4.Value() == q1.Value() && sq2.p3.Value() == q2.Value()
    requires sq1.normal.Value() == Turned(trig, n.Value(), Turn(trig, scale))
    requires sq2.normal.Value() == Turned(trig, n.Value(), -Turn(trig, scale))
    modifies squares, sq1.origin
    decreases steps - depth + 1, 1
    ensures Appended(m0, squares.buckets, Fork(sq1, sq2, t1, t2), depth, steps)
    ensures Complete(Fork(sq1, sq2, t1, t2), depth, steps)
    ensures Grown(Fork(sq1, sq2, t1, t2), sq1.origin, size, scale)
    ensures Distinct(Fork(sq1, sq2, t1, t2))
    ensures forall k: nat, sq :: sq in Level(t1, k) ==> fresh(sq)
    ensures forall k: nat, sq :: sq in Level(t2, k) ==> fresh(sq)
    ensures Aligned(Fork(sq1, sq2, t1, t2), trig, Turn(trig, scale), q1, q2, n)
    ensures Looks(t1) == s1 && forall k: nat, q :: q in Level(s1, k) ==> IsSquare(trig, q)
    ensures Looks(t2) == s2 && forall k: nat, q :: q in Level(s2, k) ==> IsSquare(trig, q)
  {
    ghost var m;
    t1, t2, s1, s2, m := Branches(trig, steps, scale, squares, depth + 1, sq1, sq2);
    DistinctFork(sq1, sq2, t1, t2);
    AppendedFork(m0, m, squares.buckets, sq1, sq2, t1, t2, depth, steps);
    GrownFork(sq1, sq2, t1, t2, sq1.origin, size, scale);
    AlignedFork(sq1, sq2, t1, t2, trig, Turn(trig, scale), q1, q2, n);
  }

  /** The left child's run and then the right child's, both from depth
      `next` on the one shared dictionary; `m` is the dictionary between
      the two runs. */
  method Branches(trig: Trig, steps: int, scale: real, squares: SquareSet, next: int, sq1: Square, sq2: Square)
      returns (ghost t1: Tree<Square>, ghost t2: Tree<Square>, ghost s1: Tree<Look>, ghost s2: Tree<Look>,
               ghost m: map<int, seq<Square>>)
    requires next <= steps + 1
    requires sq1.Detached() && sq2.Detached() && sq1.origin == sq2.origin
    requires sq1.size != 0.0 && sq2.size != 0.0 && scale != 0.0
    modifies squares, sq1.origin
    decreases steps - next + 2, 0
    ensures Appended(old(squares.buckets), m, t1, next, steps)
    ensures Appended(m, squares.buckets, t2, next, steps)
    ensures Complete(t1, next, steps) && Complete(t2, next, steps)
    ensures Grown(t1, sq1.origin, sq1.size, scale) && Grown(t2, sq2.origin, sq2.size, scale)
    ensures forall k: nat, sq :: sq in Level(t1, k) ==> fresh(sq)
    ensures forall k: nat, sq :: sq in Level(t2, k) ==> fresh(sq)
    ensures Aligned(t1, trig, Turn(trig, scale), sq1.p1, sq1.p2, sq1.normal)
    ensures Aligned(t2, trig, Turn(trig, scale), sq2.p1, sq2.p2, sq2.normal)
    ensures Distinct(t1) && Distinct(t2) && Apart(t1, t2)
    ensures Outside(sq1, t1, t2) && Outside(sq2, t1, t2)
    ensures Looks(t1) == s1 && forall k: nat, q :: q in Level(s1, k) ==> IsSquare(trig, q)
    ensures Looks(t2) == s2 && forall k: nat, q :: q in Level(s2, k) ==> IsSquare(trig, q)
  {
    var r1;
    r1, t1, s1 := sq1.SubdivideFrom(trig, steps, scale, squares, next);
    m := squares.buckets;
    OwnAvoids(t1, sq1.origin, sq1.size, scale);
    OwnAllocated(t1);
    forall k: nat
      ensures allocated(Level(t1, k))
    {
      LevelAllocated(t1, k);
    }
    label Between:
    var r2;
    r2, t2, s2 := sq2.SubdivideFrom(trig, steps, scale, squares, next);
    assert unchanged@Between(Own(t1)) && unchanged@Between(sq1.p1, sq1.p2, sq1.normal);
  }

  /** Object structure of a run under a parent of half-size `size`: every
      square shares the one `origin` object, which is none of its own
      vectors, and has half-size `scale` times its parent's. */
  ghost predicate Grown(t: Tree<Square>, origin: Vec, size: real, scale: real) {
    match t
    case Tip => true
    case Fork(a, b, l, r) =>
      && a.Detached() && b.Detached()
      && a.origin == origin && b.origin == origin
      && a.size == ChildSize(size, scale) && b.size == ChildSize(size, scale)
      && Grown(l, origin, a.size, scale) && Grown(r, origin, b.size, scale)
  }

  /** Every vector the squares of a run own. */
  ghost function Own(t: Tree<Square>): set<Vec> {
    match t
    case Tip => {}
    case Fork(a, b, l, r) => a.Parts() + b.Parts() + Own(l) + Own(r)
  }

  /** Geometry of a run under a parent with corners `q1`, `q2` and normal
      `n`: the left child's fourth corner is on `q1` and the right child's
      third corner on `q2`; their normals are `n` turned by `turn` and by
      `-turn`; and so on down every branch, each child being the parent of
      the run below it. */
  ghost predicate Aligned(t: Tree<Square>, trig: Trig, turn: real, q1: Vec, q2: Vec, n: Vec)
    reads q1, q2, n, Own(t)
  {
    match t
    case Tip => true
    case Fork(a, b, l, r) =>
      && a.p4.Value() == q1.Value() && b.p3.Value() == q2.Value()
      && a.normal.Value() == Turned(trig, n.Value(), turn)
      && b.normal.Value() == Turned(trig, n.Value(), -turn)
      && Aligned(l, trig, turn, a.p1, a.p2, a.normal) && Aligned(r, trig, turn, b.p1, b.p2, b.normal)
  }

  /** The shared origin is none of the vectors a run's squares own. */
  lemma {:induction false} OwnAvoids(t: Tree<Square>, origin: Vec, size: real, scale: real)
    requires Grown(t, origin, size, scale)
    ensures origin !in Own(t)
  {
    match t
    case Tip =>
    case Fork(a, b, l, r) =>
      OwnAvoids(l, origin, a.size, scale);
      OwnAvoids(r, origin, b.size, scale);
  }

  /** The vectors of an allocated run are allocated. */
  lemma {:induction false} OwnAllocated(t: Tree<Square>)
    requires allocated(t)
    ensures allocated(Own(t))
  {
    match t
    case Tip =>
    case Fork(a, b, l, r) =>
      OwnAllocated(l);
      OwnAllocated(r);
  }

  /** How every square of a run now looks, in the run's shape. */
  ghost function Looks(t: Tree<Square>): Tree<Look>
    reads Own(t)
  {
    match t
    case Tip => Tip
    case Fork(a, b, l, r) => Fork(a.Now(), b.Now(), Looks(l), Looks(r))
  }

  /** A square of a run looks, at its level, as `Looks` records it. */
  lemma {:induction false} LevelLooks(t: Tree<Square>, k: nat, sq: Square)
    requires sq in Level(t, k)
    ensures sq.Now() in Level(Looks(t), k)
  {
    match t
    case Tip =>
    case Fork(a, b, l, r) =>
      if k > 0 {
        if sq in Level(l, k - 1) {
          LevelLooks(l, k - 1, sq);
        } else {
          LevelLooks(r, k - 1, sq);
        }
      }
  }

  /** The squares of an allocated run are allocated, level by level. */
  lemma {:induction false} LevelAllocated(t: Tree<Square>, k: nat)
    requires allocated(t)
    ensures allocated(Level(t, k))
  {
    match t
    case Tip =>
    case Fork(a, b, l, r) =>
      if k > 0 {
        LevelAllocated(l, k - 1);
        LevelAllocated(r, k - 1);
      }
  }

  /** `Aligned` of a run from its parts. */
  lemma AlignedFork(a: Square, b: Square, l: Tree<Square>, r: Tree<Square>, trig: Trig, turn: real, q1: Vec, q2: Vec, n: Vec)
    requires a.p4.Value() == q1.Value() && b.p3.Value() == q2.Value()
    requires a.normal.Value() == Turned(trig, n.Value(), turn)
    requires b.normal.Value() == Turned(trig, n.Value(), -turn)
    requires Aligned(l, trig, turn, a.p1, a.p2, a.normal) && Aligned(r, trig, turn, b.p1, b.p2, b.normal)
    ensures Aligned(Fork(a, b, l, r), trig, turn, q1, q2, n)
  {
  }

  /** `Grown` gives every generation of a run its half-size: `scale`
      times per level, so `size * scale^d` at generation `d`. */
  lemma {:induction false} LevelGrown(t: Tree<Square>, origin: Vec, size: real, scale: real, d: nat)
    requires Grown(t, origin, size, scale) && d >= 1
    ensures Generation(t, origin, size, scale, d)
  {
    match t
    case Tip =>
    case Fork(a, b, l, r) =>
      HalfSizeStep(size, scale, d);
      if d > 1 {
        LevelGrown(l, origin, a.size, scale, d - 1);
        LevelGrown(r, origin, b.size, scale, d - 1);
      }
  }

  /** Generation `d` under a square is generation `d - 1` under its
      children. */
  lemma HalfSizeStep(size: real, scale: real, d: nat)
    requires d >= 1
    ensures HalfSize(ChildSize(size, scale), scale, d - 1) == HalfSize(size, scale, d)
  {
    var p := Pow(scale, d - 1);
    assert Pow(scale, d) == scale * p;
    assert (size * scale) * p == size * (scale * p);
  }

  /** The squares of generation `d` of a run (`d - 1` levels down) all
      share `origin` and have half-size `size * scale^d`. */
  ghost predicate Generation(t: Tree<Square>, origin: Vec, size: real, scale: real, d: nat)
    requires d >= 1
  {
    forall sq :: sq in Level(t, d - 1) ==> sq.origin == origin && sq.size == HalfSize(size, scale, d)
  }

  /** With the scale clamped to at least 0.5 and a positive size, the
      argument of `acos` lies in (0, 1], and equals 1 (a zero branch angle)
      exactly when the scale is 0.5. */
  lemma AcosArgument(size: real, scale: real)
    requires size > 0.0
    ensures var s := ClampScale(scale);
      && ChildSize(size, s) > 0.0
      && 0.0 < (size * 0.5) / ChildSize(size, s) <= 1.0
      && ((size * 0.5) / ChildSize(size, s) == 1.0 <==> s == 0.5)
  {
    var s := ClampScale(scale);
    var c := ChildSize(size, s);
    assert c > 0.0;
    var q := 0.5 / s;
    assert (size * 0.5) / c == q;
    assert q * s == 0.5;
    assert (q - 1.0) * s == 0.5 - s <= 0.0;
    assert 0.0 < q <= 1.0;
    assert q == 1.0 <==> s == 0.5;
  }

  /** The turn of every branch: the branch angle does not depend on the
      parent's size, only on the scale. */
  function Turn(trig: Trig, scale: real): real
    requires scale != 0.0
  {
    trig.acos(0.5 / scale)
  }

  /** The angle each call computes from its own size is the one `Turn`. */
  lemma TurnIsBranchAngle(trig: Trig, size: real, scale: real, newSize: real)
    requires size != 0.0 && scale != 0.0 && newSize == size * scale
    ensures newSize != 0.0
    ensures BranchAngle(trig, size, newSize) == Turn(trig, scale)
  {
    assert (size * 0.5) / newSize == 0.5 / scale;
  }

  /** `Grown` of a run from its parts. */
  lemma GrownFork(a: Square, b: Square, l: Tree<Square>, r: Tree<Square>, origin: Vec, size: real, scale: real)
    requires a.Detached() && b.Detached() && a.origin == origin && b.origin == origin
    requires a.size == b.size && ChildSize(size, scale) == a.size
    requires Grown(l, origin, a.size, scale) && Grown(r, origin, b.size, scale)
    ensures Grown(Fork(a, b, l, r), origin, size, scale)
  {
  }

  /** One child of a subdivision step: a square of half-size `newSize` built
      on the shared `origin` with normal `normal` turned by `rad` and
      normalized, then translated so that its fourth corner (`left`) or its
      third corner (otherwise) lands on `anchor`. */
  method Sprout(trig: Trig, origin: Vec, normal: Vec, newSize: real, rad: real, anchor: Vec, left: bool)
      returns (sq: Square)
    requires normal != origin && anchor != origin
    modifies origin
    ensures fresh(sq) && fresh(sq.p1) && fresh(sq.p2) && fresh(sq.p3) && fresh(sq.p4) && fresh(sq.normal)
    ensures sq.Valid() && sq.Detached() && sq.origin == origin && sq.size == newSize
    ensures left ==> sq.p4.Value() == anchor.Value()
    ensures !left ==> sq.p3.Value() == anchor.Value()
    ensures sq.normal.Value() == Turned(trig, normal.Value(), rad)
    ensures sq.p1.Value() == Corner(trig, origin.Value(), sq.normal.Value(), -newSize, -newSize)
    ensures sq.p2.Value() == Corner(trig, origin.Value(), sq.normal.Value(), newSize, -newSize)
    ensures sq.p3.Value() == Corner(trig, origin.Value(), sq.normal.Value(), newSize, newSize)
    ensures sq.p4.Value() == Corner(trig, origin.Value(), sq.normal.Value(), -newSize, newSize)
    ensures sq.Centred() && sq.Shaped(trig)
  {
    var turned := normal.RotateRNew(trig, rad);
    var sqNormal := turned.Normalize(trig);
    sq := new Square(trig, origin, newSize, sqNormal);
    var corner := if left then sq.p4 else sq.p3;
    var shift := anchor.SubtractNew(corner);
    ghost var before := corner.Value();
    sq.Translate(shift);
    PlusMinusCancel(before, anchor.Value());
    CornersCentred(trig, origin.Value(), sq.normal.Value(), newSize);
    SquareAround(trig, sq.Now(), origin.Value());
  }

  /** `origin._add((new Vec(sx, sy)).rotateR(angle))`: a fresh vector at the
      rotated offset from `origin`. */
  method OffsetCorner(trig: Trig, origin: Vec, sx: real, sy: real, angle: real) returns (c: Vec)
    ensures fresh(c) && c.Value() == origin.Value().Plus(Pt(sx, sy).RotR(trig, angle))
  {
    var offset := new Vec(sx, sy);
    var rotated := offset.RotateR(trig, angle);
    c := origin.AddNew(rotated);
  }

  /** Four corners placed about `o` whose first diagonal has its midpoint
      at `o` make a square. */
  lemma SquareAround(trig: Trig, q: Look, o: Pt)
    requires q.c1 == Corner(trig, o, q.n, -q.size, -q.size)
    requires q.c2 == Corner(trig, o, q.n, q.size, -q.size)
    requires q.c3 == Corner(trig, o, q.n, q.size, q.size)
    requires q.c4 == Corner(trig, o, q.n, -q.size, q.size)
    requires Mid(q.c1, q.c3) == o
    ensures IsSquare(trig, q)
  {
  }

  /** The corners computed from one origin are symmetric about it, whatever
      cos, sin and atan2 return. */
  lemma CornersCentred(trig: Trig, o: Pt, n: Pt, size: real)
    ensures Mid(Corner(trig, o, n, -size, -size), Corner(trig, o, n, size, size)) == o
    ensures Mid(Corner(trig, o, n, size, -size), Corner(trig, o, n, -size, size)) == o
  {
  }
}
