/** The shape of one subdivision run, independent of geometry.

    A call of the recursive subdivision at some depth either stops (`Tip`)
    or creates a left and a right child and then runs the left child's
    subdivision and the right child's (`Fork`). The depth-keyed dictionary
    the calls share is a `map<int, seq<T>>`; `Appended` says how one call
    changes it. */
module Trees {

  datatype Tree<T> = Tip | Fork(left: T, right: T, l: Tree<T>, r: Tree<T>)

  /** 2 to the power `n`. */
  function Pow2(n: nat): nat {
    if n == 0 then 1 else 2 * Pow2(n - 1)
  }

  /** A run started at `depth` under the limit `steps` stops exactly when
      the depth passes the limit: every call up to `steps` forks, every
      call beyond it stops. */
  ghost predicate Complete<T>(t: Tree<T>, depth: int, steps: int) {
    match t
    case Tip => depth > steps
    case Fork(_, _, l, r) => depth <= steps && Complete(l, depth + 1, steps) && Complete(r, depth + 1, steps)
  }

  /** The children created `k` levels below the call that produced `t`, in
      the order the calls append them: the left child's run entirely before
      the right child's. */
  function Level<T>(t: Tree<T>, k: nat): seq<T> {
    match t
    case Tip => []
    case Fork(a, b, l, r) => if k == 0 then [a, b] else Level(l, k - 1) + Level(r, k - 1)
  }

  /** `x` is a child of neither run. */
  ghost predicate Outside<T>(x: T, l: Tree<T>, r: Tree<T>) {
    forall k: nat :: x !in Level(l, k) && x !in Level(r, k)
  }

  /** Two runs with no child in common. */
  ghost predicate Apart<T>(l: Tree<T>, r: Tree<T>) {
    forall k1: nat, k2: nat, x :: x in Level(l, k1) ==> x !in Level(r, k2)
  }

  /** No child of a run is created twice: the two children of every call
      differ and belong to neither run below it, and its two runs are
      apart. */
  ghost predicate Distinct<T>(t: Tree<T>) {
    match t
    case Tip => true
    case Fork(a, b, l, r) =>
      && a != b && Outside(a, l, r) && Outside(b, l, r) && Apart(l, r)
      && Distinct(l) && Distinct(r)
  }

  /** `Distinct` of a run from its parts. */
  lemma DistinctFork<T>(a: T, b: T, l: Tree<T>, r: Tree<T>)
    requires a != b && Outside(a, l, r) && Outside(b, l, r) && Apart(l, r)
    requires Distinct(l) && Distinct(r)
    ensures Distinct(Fork(a, b, l, r))
  {
  }

  /** No element of `s` is at two positions. */
  ghost predicate Unique<T>(s: seq<T>) {
    forall i, j :: 0 <= i < |s| && 0 <= j < |s| && s[i] == s[j] ==> i == j
  }

  /** Joining two sequences without repeats and without common elements
      gives a sequence without repeats. */
  lemma UniqueAppend<T>(u: seq<T>, v: seq<T>)
    requires Unique(u) && Unique(v) && forall x :: x in u ==> x !in v
    ensures Unique(u + v)
  {
    forall i, j | 0 <= i < |u + v| && 0 <= j < |u + v| && (u + v)[i] == (u + v)[j]
      ensures i == j
    {
      assert i < |u| ==> u[i] in u;
      assert |u| <= i ==> v[i - |u|] in v;
      assert j < |u| ==> u[j] in u;
      assert |u| <= j ==> v[j - |u|] in v;
    }
  }

  /** In a run without repeats no level holds a child twice. */
  lemma {:induction false} LevelUnique<T>(t: Tree<T>, k: nat)
    requires Distinct(t)
    ensures Unique(Level(t, k))
  {
    match t
    case Tip =>
    case Fork(a, b, l, r) =>
      if k > 0 {
        LevelUnique(l, k - 1);
        LevelUnique(r, k - 1);
        UniqueAppend(Level(l, k - 1), Level(r, k - 1));
      }
  }

  /** In a run without repeats two different levels have no child in
      common. */
  lemma {:induction false} LevelsApart<T>(t: Tree<T>, k1: nat, k2: nat, x: T)
    requires Distinct(t) && k1 != k2 && x in Level(t, k1)
    ensures x !in Level(t, k2)
  {
    match t
    case Fork(a, b, l, r) =>
      if k1 > 0 && k2 > 0 {
        if x in Level(l, k1 - 1) {
          LevelsApart(l, k1 - 1, k2 - 1, x);
        } else {
          LevelsApart(r, k1 - 1, k2 - 1, x);
        }
      }
  }

  /** In a run without repeats a child has one place only: one level, and
      one position in it. */
  lemma LevelPlace<T>(t: Tree<T>, k1: nat, i: int, k2: nat, j: int)
    requires Distinct(t)
    requires 0 <= i < |Level(t, k1)| && 0 <= j < |Level(t, k2)|
    requires Level(t, k1)[i] == Level(t, k2)[j]
    ensures k1 == k2 && i == j
  {
    if k1 != k2 {
      LevelsApart(t, k1, k2, Level(t, k1)[i]);
      assert false;
    } else {
      LevelUnique(t, k1);
    }
  }

  /** The bucket at key `j`, an absent key read as an empty bucket. */
  function Bucket<T>(m: map<int, seq<T>>, j: int): seq<T> {
    if j in m then m[j] else []
  }

  /** The dictionary after one call has pushed its two children onto bucket
      `d` (creating it if absent) and created bucket `d + 1` if absent. */
  function Opened<T>(m: map<int, seq<T>>, a: T, b: T, d: int): (m': map<int, seq<T>>)
    ensures forall j :: j in m' <==> j in m || j == d || j == d + 1
    ensures m'[d] == Bucket(m, d) + [a, b]
    ensures m'[d + 1] == Bucket(m, d + 1)
    ensures forall j :: j in m && j != d && j != d + 1 ==> m'[j] == m[j]
  {
    var m1 := if d in m then m else m[d := []];
    var m2 := m1[d := m1[d] + [a]];
    var m3 := m2[d := m2[d] + [b]];
    if d + 1 in m3 then m3 else m3[d + 1 := []]
  }

  /** How a call at `depth` with limit `steps` that produced `t` changes the
      dictionary `m0` into `m1`: past the limit nothing changes; otherwise
      keys `depth` to `steps + 1` come to exist, and every bucket from
      `depth` to `steps` gets the matching level of `t` appended. */
  ghost predicate Appended<T>(m0: map<int, seq<T>>, m1: map<int, seq<T>>, t: Tree<T>, depth: int, steps: int) {
    if depth > steps then m1 == m0
    else forall j :: AppendedAt(m0, m1, t, depth, steps, j)
  }

  /** `Appended` at the one key `j`. */
  ghost predicate AppendedAt<T>(m0: map<int, seq<T>>, m1: map<int, seq<T>>, t: Tree<T>, depth: int, steps: int, j: int) {
    && (j in m1 <==> j in m0 || depth <= j <= steps + 1)
    && (j in m1 ==> m1[j] == Bucket(m0, j) + (if depth <= j <= steps then Level(t, j - depth) else []))
  }

  /** A complete run from `depth` has `2^(k+1)` children at every level
      `k` whose calls are at most at `steps`. */
  lemma {:induction false} LevelSize<T>(t: Tree<T>, depth: int, steps: int, k: nat)
    requires Complete(t, depth, steps) && depth + k <= steps
    ensures |Level(t, k)| == Pow2(k + 1)
  {
    match t
    case Fork(a, b, l, r) =>
      if k > 0 {
        LevelSize(l, depth + 1, steps, k - 1);
        LevelSize(r, depth + 1, steps, k - 1);
      }
  }

  /** A complete run from `depth` creates nothing at a level whose calls
      would be beyond `steps`. */
  lemma {:induction false} LevelBeyond<T>(t: Tree<T>, depth: int, steps: int, k: nat)
    requires Complete(t, depth, steps) && steps < depth + k
    ensures Level(t, k) == []
  {
    match t
    case Tip =>
    case Fork(a, b, l, r) =>
      LevelBeyond(l, depth + 1, steps, k - 1);
      LevelBeyond(r, depth + 1, steps, k - 1);
  }

  /** What the two children's runs leave at key `j`: the bucket after the
      call's own pushes, then the left run's level, then the right run's. */
  lemma ChildRunsAt<T>(m1: map<int, seq<T>>, m3: map<int, seq<T>>, m4: map<int, seq<T>>,
                       l: Tree<T>, r: Tree<T>, d: int, steps: int, j: int)
    requires d <= steps && d + 1 in m1
    requires Appended(m1, m3, l, d + 1, steps)
    requires Appended(m3, m4, r, d + 1, steps)
    ensures j in m4 <==> j in m1 || d + 1 <= j <= steps + 1
    ensures j in m4 ==> m4[j] == Bucket(m1, j) + (if d + 1 <= j <= steps then Level(l, j - d - 1) else [])
                                                + (if d + 1 <= j <= steps then Level(r, j - d - 1) else [])
  {
    if d < steps {
      assert AppendedAt(m1, m3, l, d + 1, steps, j);
      assert AppendedAt(m3, m4, r, d + 1, steps, j);
    }
  }

  /** The call's own pushes followed by its children's levels make up the
      call's own level at key `j`. */
  lemma ForkLevelAt<T>(m0: map<int, seq<T>>, m4: map<int, seq<T>>,
                       a: T, b: T, l: Tree<T>, r: Tree<T>, d: int, steps: int, j: int)
    requires d <= steps && j in m4
    requires m4[j] == Bucket(Opened(m0, a, b, d), j) + (if d + 1 <= j <= steps then Level(l, j - d - 1) else [])
                                                      + (if d + 1 <= j <= steps then Level(r, j - d - 1) else [])
    ensures m4[j] == Bucket(m0, j) + (if d <= j <= steps then Level(Fork(a, b, l, r), j - d) else [])
  {
  }

  /** One call's effect composed from its own pushes and its two children's
      runs, one after the other, over the same dictionary. */
  lemma AppendedFork<T>(m0: map<int, seq<T>>, m3: map<int, seq<T>>, m4: map<int, seq<T>>,
                        a: T, b: T, l: Tree<T>, r: Tree<T>, d: int, steps: int)
    requires d <= steps
    requires Appended(Opened(m0, a, b, d), m3, l, d + 1, steps)
    requires Appended(m3, m4, r, d + 1, steps)
    ensures Appended(m0, m4, Fork(a, b, l, r), d, steps)
  {
    forall j
      ensures AppendedAt(m0, m4, Fork(a, b, l, r), d, steps, j)
    {
      ChildRunsAt(Opened(m0, a, b, d), m3, m4, l, r, d, steps, j);
      if j in m4 {
        ForkLevelAt(m0, m4, a, b, l, r, d, steps, j);
      }
    }
  }

  /** The dictionary a whole run returns, started from `{0: [root]}` at
      depth 1: bucket 0 is exactly the root, buckets 1 to `steps` hold
      `2^d` squares each, and when `steps >= 1` bucket `steps + 1` exists
      and is empty; no other key exists. */
  lemma {:induction false} RunLayout<T>(root: T, m: map<int, seq<T>>, t: Tree<T>, steps: int)
    requires Appended(map[0 := [root]], m, t, 1, steps)
    requires Complete(t, 1, steps)
    ensures 0 in m && m[0] == [root]
    ensures forall d :: 1 <= d <= steps ==> d in m && m[d] == Level(t, d - 1) && |m[d]| == Pow2(d)
    ensures steps >= 1 ==> (forall j :: j in m <==> 0 <= j <= steps + 1) && m[steps + 1] == []
    ensures steps < 1 ==> m == map[0 := [root]]
  {
    var m0 := map[0 := [root]];
    if steps >= 1 {
      assert AppendedAt(m0, m, t, 1, steps, 0);
      forall d | 1 <= d <= steps
        ensures d in m && m[d] == Level(t, d - 1) && |m[d]| == Pow2(d)
      {
        assert AppendedAt(m0, m, t, 1, steps, d);
        LevelSize(t, 1, steps, d - 1);
      }
      forall j
        ensures j in m <==> 0 <= j <= steps + 1
      {
        assert AppendedAt(m0, m, t, 1, steps, j);
      }
      assert AppendedAt(m0, m, t, 1, steps, steps + 1);
    }
  }

  /** A run without repeats from depth 1 over `{0: [root]}`, `root` not
      among its children, puts every square in exactly one place: one key
      and one position in that key's bucket. */
  lemma RunPlaces<T>(root: T, m: map<int, seq<T>>, t: Tree<T>, steps: int)
    requires Appended(map[0 := [root]], m, t, 1, steps)
    requires Complete(t, 1, steps) && Distinct(t)
    requires forall k: nat :: root !in Level(t, k)
    ensures forall d1, i, d2, j ::
              && d1 in m && d2 in m && 0 <= i < |m[d1]| && 0 <= j < |m[d2]|
              && m[d1][i] == m[d2][j]
              ==> d1 == d2 && i == j
  {
    RunLayout(root, m, t, steps);
    forall d1, i, d2, j | d1 in m && d2 in m && 0 <= i < |m[d1]| && 0 <= j < |m[d2]| && m[d1][i] == m[d2][j]
      ensures d1 == d2 && i == j
    {
      assert m[d1][i] in m[d1] && m[d2][j] in m[d2];
      if d1 != 0 && d2 != 0 {
        LevelPlace(t, d1 - 1, i, d2 - 1, j);
      }
    }
  }
}
