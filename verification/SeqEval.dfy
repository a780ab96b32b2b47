/** The sequential evaluators of the tree-sum program on their explicit stack. */
module SeqEval {
  import opened TreeSum

  // Continuation labels, as they are stored on the stack.
  const BUILD_AFTER_LEFT: Word := Word(0, 6)
  const BUILD_AFTER_RIGHT: Word := Word(0, 7)
  const SUM_AFTER_LEFT: Word := Word(0, 8)
  const SUM_AFTER_RIGHT: Word := Word(0, 9)

  // -------------------------------------------------------------- build frames

  /** What a group of stack words stands for: waiting for the left subtree of
      build(d + 1, x), or holding it and waiting for the right one. */
  datatype BuildFrame = BuildLeft(d: nat, x: nat) | BuildRight(left: Word, d: nat, x: nat)

  ghost function BuildWords(frames: seq<BuildFrame>): seq<Word> {
    if frames == [] then []
    else
      var f := frames[|frames| - 1];
      BuildWords(frames[..|frames| - 1]) +
      match f
      case BuildLeft(d, x) => [Word(0, d), Word(0, Right(x)), BUILD_AFTER_LEFT]
      case BuildRight(left, _, _) => [left, BUILD_AFTER_RIGHT]
  }

  /** The call whose result the innermost frame waits for; (d, x) with no frame. */
  ghost function BuildGoal(frames: seq<BuildFrame>, d: nat, x: nat): (nat, nat) {
    if frames == [] then (d, x)
    else match frames[|frames| - 1]
      case BuildLeft(d1, x1) => (d1, Left(x1))
      case BuildRight(_, d1, x1) => (d1, Right(x1))
  }

  /** Each frame belongs to the call that the frame below it waits for. */
  ghost predicate BuildChain(cells: Cells, frames: seq<BuildFrame>, d: nat, x: nat) {
    frames == [] ||
    (var (f, below) := (frames[|frames| - 1], frames[..|frames| - 1]);
     BuildChain(cells, below, d, x) && BuildGoal(below, d, x) == (f.d + 1, f.x) &&
     (f.BuildRight? ==> TreeAt(cells, f.left, f.d, Left(f.x))))
  }

  /** Loop iterations that evaluating build(d, _) takes, and that the frames still need. */
  ghost function BuildSteps(d: nat): nat {
    if d == 0 then 1 else 3 + BuildSteps(d - 1) + BuildSteps(d - 1)
  }

  ghost function BuildRest(frames: seq<BuildFrame>): nat {
    if frames == [] then 0
    else
      var f := frames[|frames| - 1];
      BuildRest(frames[..|frames| - 1]) + if f.BuildLeft? then 2 + BuildSteps(f.d) else 1
  }

  lemma {:induction false} BuildChainFacts(cells: Cells, frames: seq<BuildFrame>, d: nat, x: nat)
    requires BuildChain(cells, frames, d, x)
    ensures BuildGoal(frames, d, x).0 + |frames| == d
    ensures |BuildWords(frames)| <= 3 * |frames|
  {
    if frames != [] {
      BuildChainFacts(cells, frames[..|frames| - 1], d, x);
    }
  }

  lemma {:induction false} BuildChainKept(cells: Cells, cells': Cells, frames: seq<BuildFrame>, d: nat, x: nat)
    requires BuildChain(cells, frames, d, x) && Extends(cells, cells')
    ensures BuildChain(cells', frames, d, x)
  {
    if frames != [] {
      var f := frames[|frames| - 1];
      BuildChainKept(cells, cells', frames[..|frames| - 1], d, x);
      if f.BuildRight? { TreeKept(cells, cells', f.left, f.d, Left(f.x)); }
    }
  }

  lemma BuildPush(frames: seq<BuildFrame>, f: BuildFrame)
    ensures (frames + [f])[..|frames|] == frames
    ensures BuildRest(frames + [f]) == BuildRest(frames) + if f.BuildLeft? then 2 + BuildSteps(f.d) else 1
    ensures BuildWords(frames + [f]) == BuildWords(frames) +
      match f
      case BuildLeft(d, x) => [Word(0, d), Word(0, Right(x)), BUILD_AFTER_LEFT]
      case BuildRight(left, _, _) => [left, BUILD_AFTER_RIGHT]
  {
    assert (frames + [f])[..|frames|] == frames;
  }

  /** Entering build(d1, x1) with d1 > 0 adds a frame. */
  lemma BuildDescend(cells: Cells, frames: seq<BuildFrame>, d1: nat, x1: nat, d: nat, x: nat)
    requires BuildChain(cells, frames, d, x) && BuildGoal(frames, d, x) == (d1, x1) && d1 > 0
    ensures var deeper := frames + [BuildLeft(d1 - 1, x1)];
      BuildWords(deeper) == BuildWords(frames) + [Word(0, d1 - 1), Word(0, Right(x1)), BUILD_AFTER_LEFT] &&
      BuildChain(cells, deeper, d, x) && BuildGoal(deeper, d, x) == (d1 - 1, Left(x1)) &&
      BuildRest(deeper) + BuildSteps(d1 - 1) < BuildRest(frames) + BuildSteps(d1) &&
      |BuildWords(deeper)| <= 3 * d
  {
    var deeper := frames + [BuildLeft(d1 - 1, x1)];
    BuildPush(frames, BuildLeft(d1 - 1, x1));
    BuildChainFacts(cells, deeper, d, x);
  }

  /** The left subtree has arrived: the frame turns to the right one. */
  lemma BuildTurn(cells: Cells, frames: seq<BuildFrame>, left: Word, d: nat, x: nat)
    requires BuildChain(cells, frames, d, x) && frames != [] && frames[|frames| - 1].BuildLeft?
    requires TreeAt(cells, left, BuildGoal(frames, d, x).0, BuildGoal(frames, d, x).1)
    ensures var (below, f) := (frames[..|frames| - 1], frames[|frames| - 1]);
      var turned := below + [BuildRight(left, f.d, f.x)];
      BuildWords(frames) == BuildWords(below) + [Word(0, f.d), Word(0, Right(f.x)), BUILD_AFTER_LEFT] &&
      BuildWords(turned) == BuildWords(below) + [left, BUILD_AFTER_RIGHT] &&
      BuildChain(cells, turned, d, x) && BuildGoal(turned, d, x) == (f.d, Right(f.x)) &&
      BuildRest(turned) + BuildSteps(f.d) < BuildRest(frames)
  {
    var (below, f) := (frames[..|frames| - 1], frames[|frames| - 1]);
    BuildPush(below, BuildRight(left, f.d, f.x));
  }

  /** Both subtrees have arrived: the frame is done. */
  lemma BuildReturn(cells: Cells, cells': Cells, frames: seq<BuildFrame>, right: Word, loc: nat, d: nat, x: nat)
    requires BuildChain(cells, frames, d, x) && frames != [] && frames[|frames| - 1].BuildRight?
    requires TreeAt(cells, right, BuildGoal(frames, d, x).0, BuildGoal(frames, d, x).1) && Extends(cells, cells')
    requires loc in cells' && loc + 1 in cells' && cells'[loc] == frames[|frames| - 1].left && cells'[loc + 1] == right
    ensures var (below, f) := (frames[..|frames| - 1], frames[|frames| - 1]);
      BuildChain(cells', below, d, x) &&
      TreeAt(cells', Word(2, loc), BuildGoal(below, d, x).0, BuildGoal(below, d, x).1) &&
      BuildRest(below) < BuildRest(frames)
  {
    var (below, f) := (frames[..|frames| - 1], frames[|frames| - 1]);
    BuildChainKept(cells, cells', below, d, x);
    TreeKept(cells, cells', f.left, f.d, Left(f.x));
    TreeKept(cells, cells', right, f.d, Right(f.x));
  }

  // ---------------------------------------------------------------- sum frames

  /** A finite tree of height at most n. Any tag other than leaf and node sums to zero. */
  ghost predicate IsTree(cells: Cells, w: Word, n: nat)
    decreases n
  {
    (w.tag == 1 ==> w.loc in cells) &&
    (w.tag == 2 ==>
       n > 0 && w.loc in cells && w.loc + 1 in cells &&
       IsTree(cells, cells[w.loc], n - 1) && IsTree(cells, cells[w.loc + 1], n - 1))
  }

  /** sum, as the program defines it. */
  ghost function TreeTotal(cells: Cells, w: Word, n: nat): Word
    requires IsTree(cells, w, n)
    decreases n
  {
    if w.tag == 1 then cells[w.loc]
    else if w.tag == 2 then
      Number(TreeTotal(cells, cells[w.loc], n - 1).loc + TreeTotal(cells, cells[w.loc + 1], n - 1).loc)
    else Number(0)
  }

  /** Waiting for the left total of a node, or holding it and waiting for the
      right one; the node's subtrees have height at most n. */
  datatype SumFrame = SumLeft(node: Word, n: nat) | SumRight(total: Word, node: Word, n: nat)

  ghost predicate SumFrameOk(cells: Cells, f: SumFrame) {
    f.node.tag == 2 && IsTree(cells, f.node, f.n + 1) &&
    (f.SumRight? ==> f.total == TreeTotal(cells, cells[f.node.loc], f.n))
  }

  ghost function SumWord(cells: Cells, f: SumFrame): seq<Word>
    requires SumFrameOk(cells, f)
  {
    match f
    case SumLeft(node, _) => [cells[node.loc + 1], SUM_AFTER_LEFT]
    case SumRight(total, _, _) => [total, SUM_AFTER_RIGHT]
  }

  ghost function SumGoal(cells: Cells, frames: seq<SumFrame>, t: Word, n: nat): (Word, nat)
    requires frames != [] ==> SumFrameOk(cells, frames[|frames| - 1])
  {
    if frames == [] then (t, n)
    else match frames[|frames| - 1]
      case SumLeft(node, m) => (cells[node.loc], m)
      case SumRight(_, node, m) => (cells[node.loc + 1], m)
  }

  ghost predicate SumChain(cells: Cells, frames: seq<SumFrame>, t: Word, n: nat) {
    frames == [] ||
    (var (f, below) := (frames[|frames| - 1], frames[..|frames| - 1]);
     SumFrameOk(cells, f) && SumChain(cells, below, t, n) && SumGoal(cells, below, t, n) == (f.node, f.n + 1))
  }

  ghost function SumWords(cells: Cells, frames: seq<SumFrame>, t: Word, n: nat): seq<Word>
    requires SumChain(cells, frames, t, n)
  {
    if frames == [] then []
    else SumWords(cells, frames[..|frames| - 1], t, n) + SumWord(cells, frames[|frames| - 1])
  }

  ghost function SumSteps(n: nat): nat {
    if n == 0 then 1 else 3 + SumSteps(n - 1) + SumSteps(n - 1)
  }

  ghost function SumRest(frames: seq<SumFrame>): nat {
    if frames == [] then 0
    else
      var f := frames[|frames| - 1];
      SumRest(frames[..|frames| - 1]) + if f.SumLeft? then 2 + SumSteps(f.n) else 1
  }

  lemma {:induction false} SumChainFacts(cells: Cells, frames: seq<SumFrame>, t: Word, n: nat)
    requires SumChain(cells, frames, t, n) && IsTree(cells, t, n)
    ensures SumGoal(cells, frames, t, n).1 + |frames| == n
    ensures IsTree(cells, SumGoal(cells, frames, t, n).0, SumGoal(cells, frames, t, n).1)
    ensures |SumWords(cells, frames, t, n)| == 2 * |frames|
  {
    if frames != [] {
      SumChainFacts(cells, frames[..|frames| - 1], t, n);
    }
  }

  lemma SumPush(cells: Cells, frames: seq<SumFrame>, f: SumFrame, t: Word, n: nat)
    requires SumChain(cells, frames, t, n) && IsTree(cells, t, n) && SumFrameOk(cells, f)
    requires SumGoal(cells, frames, t, n) == (f.node, f.n + 1)
    ensures SumChain(cells, frames + [f], t, n)
    ensures SumWords(cells, frames + [f], t, n) == SumWords(cells, frames, t, n) + SumWord(cells, f)
    ensures SumRest(frames + [f]) == SumRest(frames) + if f.SumLeft? then 2 + SumSteps(f.n) else 1
    ensures |SumWords(cells, frames + [f], t, n)| <= 2 * n
  {
    assert (frames + [f])[..|frames|] == frames;
    SumChainFacts(cells, frames + [f], t, n);
  }

  /** A leaf, or anything that is not a node, is summed at once. */
  lemma SumAnswer(cells: Cells, frames: seq<SumFrame>, w: Word, t: Word, n: nat)
    requires SumChain(cells, frames, t, n) && IsTree(cells, t, n) && SumGoal(cells, frames, t, n).0 == w && w.tag != 2
    ensures var m := SumGoal(cells, frames, t, n).1;
      IsTree(cells, w, m) && (w.tag == 1 ==> w.loc in cells) && SumSteps(m) > 0 &&
      TreeTotal(cells, w, m) == if w.tag == 1 then cells[w.loc] else Number(0)
  {
    SumChainFacts(cells, frames, t, n);
  }

  /** The frame of a node that is about to be summed. */
  lemma SumNode(cells: Cells, frames: seq<SumFrame>, w: Word, t: Word, n: nat) returns (f: SumFrame)
    requires SumChain(cells, frames, t, n) && IsTree(cells, t, n)
    requires SumGoal(cells, frames, t, n).0 == w && w.tag == 2
    ensures f.SumLeft? && SumFrameOk(cells, f) && SumGoal(cells, frames, t, n) == (f.node, f.n + 1)
  {
    SumChainFacts(cells, frames, t, n);
    f := SumLeft(w, SumGoal(cells, frames, t, n).1 - 1);
  }

  /** Entering a node adds a frame. */
  lemma SumDescend(cells: Cells, frames: seq<SumFrame>, f: SumFrame, t: Word, n: nat)
    requires SumChain(cells, frames, t, n) && IsTree(cells, t, n)
    requires f.SumLeft? && SumFrameOk(cells, f) && SumGoal(cells, frames, t, n) == (f.node, f.n + 1)
    ensures SumChain(cells, frames + [f], t, n) && SumGoal(cells, frames + [f], t, n) == (cells[f.node.loc], f.n)
    ensures SumWords(cells, frames + [f], t, n) ==
      SumWords(cells, frames, t, n) + [cells[f.node.loc + 1], SUM_AFTER_LEFT]
    ensures |SumWords(cells, frames + [f], t, n)| <= 2 * n
    ensures SumRest(frames + [f]) + SumSteps(f.n) < SumRest(frames) + SumSteps(f.n + 1)
  {
    SumPush(cells, frames, f, t, n);
  }

  /** The innermost frame, its words and the work it stands for. */
  lemma SumTop(cells: Cells, frames: seq<SumFrame>, below: seq<SumFrame>, f: SumFrame, t: Word, n: nat)
    requires SumChain(cells, frames, t, n) && frames != []
    requires below == frames[..|frames| - 1] && f == frames[|frames| - 1]
    ensures SumChain(cells, below, t, n) && SumFrameOk(cells, f) && SumGoal(cells, below, t, n) == (f.node, f.n + 1)
    ensures SumWords(cells, frames, t, n) == SumWords(cells, below, t, n) + SumWord(cells, f)
    ensures SumRest(frames) == SumRest(below) + if f.SumLeft? then 2 + SumSteps(f.n) else 1
  {
  }

  /** The left total has arrived: the frame turns to the right subtree. */
  lemma SumTurn(cells: Cells, below: seq<SumFrame>, f: SumFrame, total: Word, t: Word, n: nat)
    requires SumChain(cells, below, t, n) && IsTree(cells, t, n) && SumFrameOk(cells, f) && f.SumLeft?
    requires SumGoal(cells, below, t, n) == (f.node, f.n + 1) && total == TreeTotal(cells, cells[f.node.loc], f.n)
    ensures var turned := below + [SumRight(total, f.node, f.n)];
      SumChain(cells, turned, t, n) && SumGoal(cells, turned, t, n) == (cells[f.node.loc + 1], f.n) &&
      SumWords(cells, turned, t, n) == SumWords(cells, below, t, n) + [total, SUM_AFTER_RIGHT] &&
      SumRest(turned) == SumRest(below) + 1 && |SumWords(cells, turned, t, n)| <= 2 * n
  {
    SumPush(cells, below, SumRight(total, f.node, f.n), t, n);
  }

  /** Summing the tree that build(d, x) describes. */
  lemma {:induction false} TotalOfBuild(cells: Cells, w: Word, d: nat, x: nat)
    requires TreeAt(cells, w, d, x)
    ensures IsTree(cells, w, d) && TreeTotal(cells, w, d) == Number(SumOf(d, x))
    decreases d
  {
    if d == 0 {
      NumberReduced(x);
    } else {
      TotalOfBuild(cells, cells[w.loc], d - 1, Left(x));
      TotalOfBuild(cells, cells[w.loc + 1], d - 1, Right(x));
      TotalOfNode(cells, w, d, SumOf(d - 1, Left(x)), SumOf(d - 1, Right(x)));
    }
  }

  lemma TotalOfNode(cells: Cells, w: Word, n: nat, l: nat, r: nat)
    requires n > 0 && w.tag == 2 && IsTree(cells, w, n) && l < MOD && r < MOD
    requires TreeTotal(cells, cells[w.loc], n - 1) == Number(l)
    requires TreeTotal(cells, cells[w.loc + 1], n - 1) == Number(r)
    ensures TreeTotal(cells, w, n) == Number((l + r) % MOD)
  {
    SmallNumber(l);
    SmallNumber(r);
    NumberReduced(l + r);
  }

  // ------------------------------------------------------------ the evaluators

  class Evaluator {
    var cells: Cells
    var next: nat
    const stk: array<Word>
    var sp: nat

    /** An evaluator with a stack of the given size; the program's has 4096 words. */
    constructor (capacity: nat)
      ensures Inv() && sp == 0 && cells == map[] && fresh(stk) && stk.Length == capacity
    {
      cells, next, sp := map[], 0, 0;
      stk := new Word[capacity](_ => Word(0, 0));
    }

    ghost predicate Inv()
      reads this
    {
      sp <= stk.Length && forall a :: a in cells ==> a < next
    }

    method MakeLeaf(x: nat) returns (w: Word)
      requires Inv()
      modifies this`cells, this`next
      ensures Inv() && Extends(old(cells), cells) && TreeAt(cells, w, 0, x)
    {
      var loc := next;
      next := next + 1;
      cells := cells[loc := Number(x)];
      w := Word(1, loc);
    }

    method MakeNode(l: Word, r: Word) returns (w: Word)
      requires Inv()
      modifies this`cells, this`next
      ensures Inv() && Extends(old(cells), cells) && old(next) !in old(cells)
      ensures w == Word(2, old(next)) && w.loc in cells && w.loc + 1 in cells
      ensures cells[w.loc] == l && cells[w.loc + 1] == r
    {
      var loc := next;
      next := next + 2;
      cells := cells[loc := l][loc + 1 := r];
      w := Word(2, loc);
    }

    method Push(w: Word)
      requires Inv() && sp < stk.Length
      modifies this`sp, stk
      ensures Inv() && sp == old(sp) + 1 && stk[..sp] == old(stk[..sp]) + [w]
    {
      stk[sp] := w;
      sp := sp + 1;
      assert stk[..sp] == old(stk[..sp]) + [w];
    }

    /** Remove a saved word x and the label y that is stored above it. */
    method PopTwo(ghost below: seq<Word>, ghost x: Word, ghost y: Word) returns (w: Word)
      requires Inv() && stk[..sp] == below + [x, y]
      modifies this`sp
      ensures Inv() && sp == old(sp) - 2 && stk[..sp] == below && w == x
    {
      ghost var words := stk[..sp];
      sp := sp - 2;
      w := stk[sp];
      assert stk[..sp] == words[..sp] && w == words[sp];
    }

    /** The trampoline is evaluating build(d, x): either about to enter a call
        for (d1, x1), or holding the result w of the innermost call. */
    ghost predicate Building(d: nat, x: nat, frames: seq<BuildFrame>, entry: bool, d1: nat, x1: nat, w: Word)
      reads this, stk
    {
      Inv() && BuildChain(cells, frames, d, x) && stk[..sp] == BuildWords(frames) && sp <= 3 * d &&
      if entry then BuildGoal(frames, d, x) == (d1, x1)
      else TreeAt(cells, w, BuildGoal(frames, d, x).0, BuildGoal(frames, d, x).1)
    }

    method BuildEntry(d1: nat, x1: nat, ghost d: nat, ghost x: nat, ghost frames: seq<BuildFrame>)
      returns (entry: bool, d2: nat, x2: nat, w: Word, ghost frames': seq<BuildFrame>)
      requires 3 * d <= stk.Length && Building(d, x, frames, true, d1, x1, Word(0, 0))
      modifies this`cells, this`next, this`sp, stk
      ensures Building(d, x, frames', entry, d2, x2, w) && Extends(old(cells), cells)
      ensures BuildRest(frames') + (if entry then BuildSteps(d2) else 0) < BuildRest(frames) + BuildSteps(d1)
    {
      if d1 == 0 {
        w := MakeLeaf(x1);
        BuildChainKept(old(cells), cells, frames, d, x);
        return false, d1, x1, w, frames;
      }
      BuildDescend(cells, frames, d1, x1, d, x);
      Push(Word(0, d1 - 1));
      Push(Word(0, Right(x1)));
      Push(BUILD_AFTER_LEFT);
      return true, d1 - 1, Left(x1), Word(0, 0), frames + [BuildLeft(d1 - 1, x1)];
    }

    method BuildAfterLeft(left: Word, ghost d: nat, ghost x: nat, ghost frames: seq<BuildFrame>)
      returns (d2: nat, x2: nat, ghost frames': seq<BuildFrame>)
      requires 3 * d <= stk.Length && Building(d, x, frames, false, 0, 0, left)
      requires frames != [] && frames[|frames| - 1].BuildLeft?
      modifies this`sp, stk
      ensures Building(d, x, frames', true, d2, x2, Word(0, 0))
      ensures BuildRest(frames') + BuildSteps(d2) < BuildRest(frames)
    {
      BuildChainFacts(cells, frames, d, x);
      BuildTurn(cells, frames, left, d, x);
      ghost var below := frames[..|frames| - 1];
      ghost var f := frames[|frames| - 1];
      ghost var words := stk[..sp];
      sp := sp - 3;
      assert stk[sp] == words[sp] && stk[sp + 1] == words[sp + 1];
      assert stk[..sp] == BuildWords(below);
      d2, x2 := stk[sp].loc, stk[sp + 1].loc;
      Push(left);
      Push(BUILD_AFTER_RIGHT);
      frames' := below + [BuildRight(left, f.d, f.x)];
    }

    method BuildAfterRight(right: Word, ghost d: nat, ghost x: nat, ghost frames: seq<BuildFrame>)
      returns (w: Word, ghost frames': seq<BuildFrame>)
      requires 3 * d <= stk.Length && Building(d, x, frames, false, 0, 0, right)
      requires frames != [] && frames[|frames| - 1].BuildRight?
      modifies this`cells, this`next, this`sp
      ensures Building(d, x, frames', false, 0, 0, w) && Extends(old(cells), cells)
      ensures BuildRest(frames') < BuildRest(frames)
    {
      ghost var below := frames[..|frames| - 1];
      ghost var f := frames[|frames| - 1];
      assert stk[..sp][|BuildWords(below)|..] == [f.left, BUILD_AFTER_RIGHT];
      sp := sp - 2;
      assert stk[..sp] == BuildWords(below);
      w := MakeNode(stk[sp], right);
      BuildReturn(old(cells), cells, frames, right, w.loc, d, x);
      frames' := below;
    }

    /** build(d, x) on an explicit stack of any size from 3 * d words on, which is
        left as it was found: empty. */
    method EvalBuild(d: nat, x: nat) returns (w: Word)
      requires Inv() && sp == 0 && 3 * d <= stk.Length
      modifies this`cells, this`next, this`sp, stk
      ensures Inv() && sp == 0 && Extends(old(cells), cells)
      ensures TreeAt(cells, w, d, x)
    {
      var entry, d1, x1 := true, d, x;
      w := Word(0, 0);
      ghost var frames: seq<BuildFrame> := [];
      while entry || sp != 0
        invariant Building(d, x, frames, entry, d1, x1, w) && Extends(old(cells), cells)
        decreases BuildRest(frames) + if entry then BuildSteps(d1) else 0
      {
        if entry {
          entry, d1, x1, w, frames := BuildEntry(d1, x1, d, x, frames);
        } else {
          assert frames != [];
          ghost var f := frames[|frames| - 1];
          assert stk[..sp][sp - 1] == if f.BuildLeft? then BUILD_AFTER_LEFT else BUILD_AFTER_RIGHT;
          if stk[sp - 1] == BUILD_AFTER_LEFT {
            d1, x1, frames := BuildAfterLeft(w, d, x, frames);
            entry := true;
          } else {
            w, frames := BuildAfterRight(w, d, x, frames);
          }
        }
      }
    }

    /** The trampoline is evaluating sum(t): either about to enter a call for
        `arg`, or holding the total `arg` of the innermost call. */
    ghost predicate Summing(t: Word, n: nat, frames: seq<SumFrame>, entry: bool, arg: Word)
      reads this, stk
    {
      Inv() && IsTree(cells, t, n) && SumChain(cells, frames, t, n) &&
      stk[..sp] == SumWords(cells, frames, t, n) && sp <= 2 * n &&
      (var (w, m) := SumGoal(cells, frames, t, n);
       if entry then arg == w else IsTree(cells, w, m) && arg == TreeTotal(cells, w, m))
    }

    method SumEntry(w: Word, ghost t: Word, ghost n: nat, ghost frames: seq<SumFrame>)
      returns (entry: bool, arg: Word, ghost frames': seq<SumFrame>)
      requires 2 * n <= stk.Length && Summing(t, n, frames, true, w)
      modifies this`sp, stk
      ensures Summing(t, n, frames', entry, arg)
      ensures SumRest(frames') + (if entry then SumSteps(SumGoal(cells, frames', t, n).1) else 0)
            < SumRest(frames) + SumSteps(SumGoal(cells, frames, t, n).1)
    {
      if w.tag == 2 {
        ghost var f := SumNode(cells, frames, w, t, n);
        SumDescend(cells, frames, f, t, n);
        ghost var words := stk[..sp];
        frames' := frames + [f];
        Push(cells[w.loc + 1]);
        Push(SUM_AFTER_LEFT);
        assert stk[..sp] == words + [cells[w.loc + 1], SUM_AFTER_LEFT];
        return true, cells[w.loc], frames';
      }
      SumAnswer(cells, frames, w, t, n);
      return false, if w.tag == 1 then cells[w.loc] else Number(0), frames;
    }

    method SumAfterLeft(total: Word, ghost t: Word, ghost n: nat, ghost frames: seq<SumFrame>)
      returns (arg: Word, ghost frames': seq<SumFrame>)
      requires 2 * n <= stk.Length && Summing(t, n, frames, false, total)
      requires frames != [] && frames[|frames| - 1].SumLeft?
      modifies this`sp, stk
      ensures Summing(t, n, frames', true, arg)
      ensures SumRest(frames') + SumSteps(SumGoal(cells, frames', t, n).1) < SumRest(frames)
    {
      ghost var below := frames[..|frames| - 1];
      ghost var f := frames[|frames| - 1];
      SumTop(cells, frames, below, f, t, n);
      SumTurn(cells, below, f, total, t, n);
      arg := PopTwo(SumWords(cells, below, t, n), cells[f.node.loc + 1], SUM_AFTER_LEFT);
      Push(total);
      Push(SUM_AFTER_RIGHT);
      frames' := below + [SumRight(total, f.node, f.n)];
    }

    method SumAfterRight(total: Word, ghost t: Word, ghost n: nat, ghost frames: seq<SumFrame>)
      returns (arg: Word, ghost frames': seq<SumFrame>)
      requires 2 * n <= stk.Length && Summing(t, n, frames, false, total)
      requires frames != [] && frames[|frames| - 1].SumRight?
      modifies this`sp
      ensures Summing(t, n, frames', false, arg)
      ensures SumRest(frames') < SumRest(frames)
    {
      ghost var below := frames[..|frames| - 1];
      SumTop(cells, frames, below, frames[|frames| - 1], t, n);
      var left := PopTwo(SumWords(cells, below, t, n), frames[|frames| - 1].total, SUM_AFTER_RIGHT);
      arg := Number(left.loc + total.loc);
      frames' := below;
    }

    /** sum(t) for any finite tree of height at most n, on an explicit stack of any size
        from 2 * n words on, which is left empty. */
    method EvalSum(t: Word, ghost n: nat) returns (total: Word)
      requires Inv() && sp == 0 && 2 * n <= stk.Length && IsTree(cells, t, n)
      modifies this`sp, stk
      ensures Inv() && sp == 0 && total == TreeTotal(cells, t, n)
    {
      var entry := true;
      total := t;
      ghost var frames: seq<SumFrame> := [];
      while entry || sp != 0
        invariant Summing(t, n, frames, entry, total)
        decreases SumRest(frames) + if entry then SumSteps(SumGoal(cells, frames, t, n).1) else 0
      {
        if entry {
          entry, total, frames := SumEntry(total, t, n, frames);
        } else {
          SumChainFacts(cells, frames, t, n);
          ghost var f := frames[|frames| - 1];
          assert stk[..sp][sp - 1] == if f.SumLeft? then SUM_AFTER_LEFT else SUM_AFTER_RIGHT;
          if stk[sp - 1] == SUM_AFTER_LEFT {
            total, frames := SumAfterLeft(total, t, n, frames);
            entry := true;
          } else {
            total, frames := SumAfterRight(total, t, n, frames);
          }
        }
      }
    }

    /** main: build the tree, then sum it. The answer is the sum of the leaf
        numbers 0 <= i < 2^d, modulo 2^32. */
    method EvalMain(d: nat) returns (total: Word)
      requires Inv() && sp == 0 && 3 * d <= stk.Length
      modifies this`cells, this`next, this`sp, stk
      ensures Inv() && Extends(old(cells), cells)
      ensures total == Number(LeafSum(0, Pow2(d)))
    {
      var t := EvalBuild(d, 0);
      TotalOfBuild(cells, t, d, 0);
      total := EvalSum(t, d);
      SumClosedForm(d, 0);
      NumberReduced(LeafSum(0, Pow2(d)));
    }
  }
}
