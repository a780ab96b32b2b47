/** The tree-sum program: what build and sum compute on heap trees. */
module TreeSum {

  const MOD: nat := 0x1_0000_0000

  /** A heap word: an 8-bit constructor tag and a 32-bit payload. Plain numbers
      have tag 0, leaf{v} has tag 1 and node{l, r} tag 2. */
  datatype Word = Word(tag: bv8, loc: nat)

  type Cells = map<nat, Word>

  function Number(n: nat): Word { Word(0, n % MOD) }

  lemma NumberReduced(n: nat)
    ensures Number(n % MOD) == Number(n) && Number(n).loc < MOD
  {
  }

  lemma SmallNumber(n: nat)
    requires n < MOD
    ensures Number(n).loc == n
  {
  }

  function Left(x: nat): nat { (2 * x) % MOD }

  function Right(x: nat): nat { (Left(x) + 1) % MOD }

  /** w is the tree that build(d, x) describes. */
  ghost predicate TreeAt(cells: Cells, w: Word, d: nat, x: nat)
    decreases d
  {
    if d == 0 then w.tag == 1 && w.loc in cells && cells[w.loc] == Number(x)
    else
      w.tag == 2 && w.loc in cells && w.loc + 1 in cells &&
      TreeAt(cells, cells[w.loc], d - 1, Left(x)) && TreeAt(cells, cells[w.loc + 1], d - 1, Right(x))
  }

  /** The sum of the leaves of build(d, x), in 32-bit arithmetic. */
  function SumOf(d: nat, x: nat): (sum: nat)
    ensures sum < MOD
  {
    if d == 0 then x % MOD else (SumOf(d - 1, Left(x)) + SumOf(d - 1, Right(x))) % MOD
  }

  ghost predicate Extends(cells: Cells, cells': Cells) {
    forall a :: a in cells ==> a in cells' && cells'[a] == cells[a]
  }

  /** A tree stays a tree while the heap only grows. */
  lemma {:induction false} TreeKept(cells: Cells, cells': Cells, w: Word, d: nat, x: nat)
    requires TreeAt(cells, w, d, x) && Extends(cells, cells')
    ensures TreeAt(cells', w, d, x)
    decreases d
  {
    if d > 0 {
      TreeKept(cells, cells', cells[w.loc], d - 1, Left(x));
      TreeKept(cells, cells', cells[w.loc + 1], d - 1, Right(x));
    }
  }

  // ------------------------------------------------------------- closed form

  function Pow2(d: nat): nat { if d == 0 then 1 else 2 * Pow2(d - 1) }

  /** The plain sum of x * 2^d + i over 0 <= i < n. */
  function LeafSum(base: nat, n: nat): nat {
    if n == 0 then 0 else LeafSum(base, n - 1) + base + (n - 1)
  }

  lemma {:induction false} LeafSumSplit(base: nat, n: nat, m: nat)
    ensures LeafSum(base, n + m) == LeafSum(base, n) + LeafSum(base + n, m)
  {
    if m > 0 {
      LeafSumSplit(base, n, m - 1);
    }
  }

  lemma ModAdd(a: nat, b: nat)
    ensures (a % MOD + b % MOD) % MOD == (a + b) % MOD
  {
  }

  lemma {:induction false} LeafSumShift(base: nat, c: nat, n: nat)
    ensures LeafSum(base + c, n) == LeafSum(base, n) + n * c
  {
    if n > 0 {
      LeafSumShift(base, c, n - 1);
      assert n * c == (n - 1) * c + c;
    }
  }

  lemma MultipleVanishes(a: nat, k: nat)
    ensures (a + k * MOD) % MOD == a % MOD
  {
  }

  lemma ShiftedBase(y: nat, z: nat, q: nat, n: nat)
    requires y == z + q * MOD
    ensures y * n == z * n + (q * n) * MOD
  {
    assert (z + q * MOD) * n == z * n + (q * MOD) * n;
    assert (q * MOD) * n == (q * n) * MOD;
  }

  /** Leaf numbers that agree modulo 2^32 have sums that agree modulo 2^32. */
  lemma SumCongruent(y: nat, z: nat, n: nat)
    requires z == y % MOD
    ensures LeafSum(y * n, n) % MOD == LeafSum(z * n, n) % MOD
  {
    var q := y / MOD;
    var c := q * n;
    ShiftedBase(y, z, q, n);
    LeafSumShift(z * n, c * MOD, n);
    assert n * (c * MOD) == (n * c) * MOD;
    MultipleVanishes(LeafSum(z * n, n), n * c);
  }

  lemma RightIsNext(x: nat)
    ensures Right(x) == (2 * x + 1) % MOD
  {
  }

  /** The leaves below number x of a level with subtrees of n leaves, in two halves. */
  lemma HalvesMeet(x: nat, n: nat)
    ensures LeafSum(x * (2 * n), 2 * n) == LeafSum((2 * x) * n, n) + LeafSum((2 * x + 1) * n, n)
  {
    assert x * (2 * n) == (2 * x) * n;
    assert (2 * x) * n + n == (2 * x + 1) * n;
    LeafSumSplit((2 * x) * n, n, n);
  }

  lemma SumJoins(d: nat, x: nat, a: nat, b: nat)
    requires d > 0 && SumOf(d - 1, Left(x)) == a % MOD && SumOf(d - 1, Right(x)) == b % MOD
    ensures SumOf(d, x) == (a + b) % MOD
  {
    ModAdd(a, b);
  }

  /** The plain sum of the leaf numbers of build(d, x). */
  function Leaves(d: nat, x: nat): nat { LeafSum(x * Pow2(d), Pow2(d)) }

  lemma LeavesAtZero(x: nat)
    ensures Leaves(0, x) == x
  {
    assert x * Pow2(0) == x;
    assert LeafSum(x, 1) == LeafSum(x, 0) + x + 0;
  }

  lemma LeavesSplit(d: nat, x: nat)
    requires d > 0
    ensures Leaves(d, x) == Leaves(d - 1, 2 * x) + Leaves(d - 1, 2 * x + 1)
  {
    HalvesMeet(x, Pow2(d - 1));
  }

  lemma LeavesCongruent(d: nat, y: nat, z: nat)
    requires z == y % MOD
    ensures Leaves(d, y) % MOD == Leaves(d, z) % MOD
  {
    SumCongruent(y, z, Pow2(d));
  }

  /** Summing build(d, x) gives the sum of x * 2^d + i for 0 <= i < 2^d, modulo 2^32. */
  lemma {:induction false} SumClosedForm(d: nat, x: nat)
    ensures SumOf(d, x) == Leaves(d, x) % MOD
    decreases d
  {
    if d == 0 {
      LeavesAtZero(x);
    } else {
      SumClosedForm(d - 1, Left(x));
      SumClosedForm(d - 1, Right(x));
      RightIsNext(x);
      LeavesCongruent(d - 1, 2 * x, Left(x));
      LeavesCongruent(d - 1, 2 * x + 1, Right(x));
      SumJoins(d, x, Leaves(d - 1, 2 * x), Leaves(d - 1, 2 * x + 1));
      LeavesSplit(d, x);
    }
  }

  // ------------------------------------------------------------- leaf by leaf

  /** The word that is reached from w by going left (false) or right (true). */
  ghost function Below(cells: Cells, w: Word, path: seq<bool>): Word
    decreases |path|
  {
    if path == [] || w.loc !in cells || w.loc + 1 !in cells then w
    else Below(cells, cells[if path[0] then w.loc + 1 else w.loc], path[1..])
  }

  /** A path read as a binary number. */
  function Binary(path: seq<bool>): nat {
    if path == [] then 0 else (if path[0] then Pow2(|path| - 1) else 0) + Binary(path[1..])
  }

  lemma NextLeaf(x: nat, b: nat, n: nat, v: nat)
    ensures (((2 * x + b) % MOD) * n + v) % MOD == (x * (2 * n) + b * n + v) % MOD
  {
    var (y, z, q) := (2 * x + b, (2 * x + b) % MOD, (2 * x + b) / MOD);
    ShiftedBase(y, z, q, n);
    MultipleVanishes(z * n + v, q * n);
    assert y * n == x * (2 * n) + b * n;
  }

  /** The leaf of build(d, x) at a path of d turns, read as a number i, is number
      x * 2^d + i modulo 2^32. */
  lemma {:induction false} LeafNumber(cells: Cells, w: Word, d: nat, x: nat, path: seq<bool>)
    requires TreeAt(cells, w, d, x) && |path| == d
    ensures var leaf := Below(cells, w, path);
      leaf.tag == 1 && leaf.loc in cells && cells[leaf.loc] == Word(0, (x * Pow2(d) + Binary(path)) % 0x1_0000_0000)
    decreases d
  {
    if d > 0 {
      var b := if path[0] then 1 else 0;
      LeafNumber(cells, cells[w.loc + b], d - 1, if path[0] then Right(x) else Left(x), path[1..]);
      RightIsNext(x);
      NextLeaf(x, b, Pow2(d - 1), Binary(path[1..]));
    }
  }
}
