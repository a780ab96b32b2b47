/** The runtime: heap buffer, bump pointer, interaction counter, rules as methods. */
module Machine {
  import opened Streams
  import opened Nets
  import opened Rules
  import opened Soundness
  import opened Runs

  /** The most slots one interaction allocates. */
  const MAX_ALLOC: nat := 7

  class Runtime {
    const mem: array<Cell>
    var pos: nat
    var itrs: nat

    constructor (capacity: nat)
      ensures Inv() && fresh(mem) && mem.Length == capacity && Heap() == [] && itrs == 0
    {
      mem := new Cell[capacity](_ => Cell(Era, false));
      pos, itrs := 0, 0;
    }

    ghost predicate Inv() reads this { pos <= mem.Length }

    /** The allocated part of the buffer. */
    ghost function Heap(): Heap
      reads this, mem
      requires Inv()
    {
      mem[..pos]
    }

    method Alloc(w: nat) returns (loc: nat)
      requires Inv() && pos + w <= mem.Length
      modifies this`pos
      ensures Inv() && loc == old(pos) && pos == loc + w
    {
      loc := pos;
      pos := pos + w;
    }

    method Set(loc: nat, cell: Cell)
      requires Inv() && loc < pos
      modifies mem
      ensures Heap() == old(Heap())[loc := cell]
    {
      mem[loc] := cell;
    }

    method NewCell(a: Term) returns (loc: nat)
      requires Inv() && pos < mem.Length
      modifies this`pos, mem
      ensures Inv() && loc == old(pos) && pos == loc + 1
      ensures Heap() == old(Heap()) + [Plain(a)]
    {
      loc := Alloc(1);
      Set(loc, Plain(a));
    }

    method NewNode(a: Term, b: Term) returns (loc: nat)
      requires Inv() && pos + 2 <= mem.Length
      modifies this`pos, mem
      ensures Inv() && loc == old(pos) && pos == loc + 2
      ensures Heap() == old(Heap()) + [Plain(a), Plain(b)]
    {
      loc := Alloc(2);
      Set(loc, Plain(a));
      Set(loc + 1, Plain(b));
    }

    /** Store the sibling's value with the SUB bit, count, return ours. */
    method HandOver(side: bool, d: nat, v0: Term, v1: Term) returns (mine: Term)
      requires Inv() && d < pos
      modifies this`itrs, mem
      ensures var f := Hand(old(Heap()), side, d, v0, v1);
        Heap() == f.heap && mine == f.out && itrs == old(itrs) + f.itrs
    {
      Set(d, Cell(if side then v0 else v1, true));
      itrs := itrs + 1;
      mine := if side then v1 else v0;
    }

    /** DUP meets a SUP of another label: the SUP's own first slot becomes one of
        the two new DUP cells. */
    method CommuteDupSup(t: Term) returns (out: Term)
      requires Inv() && pos + MAX_ALLOC <= mem.Length && t.Dp? && Fits(Heap(), t)
      requires RuleOf(Heap(), t) == Commute
      modifies this, mem
      ensures Inv()
      ensures var f := Fire(old(Heap()), t);
        Heap() == f.heap && out == f.out && itrs == old(itrs) + f.itrs
    {
      var Sup(m, s) := mem[t.loc].term;
      var du1 := NewCell(mem[s + 1].term);
      var su0 := NewNode(Dp(false, t.lab, s), Dp(false, t.lab, du1));
      var su1 := NewNode(Dp(true, t.lab, s), Dp(true, t.lab, du1));
      out := HandOver(t.side, t.loc, Sup(m, su0), Sup(m, su1));
    }

    /** DUP meets an annotation: both slots are duplicated. */
    method DupAnn(t: Term) returns (out: Term)
      requires Inv() && pos + MAX_ALLOC <= mem.Length && t.Dp? && Fits(Heap(), t)
      requires RuleOf(Heap(), t) == CopyNode && mem[t.loc].term.op.Ann?
      modifies this, mem
      ensures Inv()
      ensures var f := Fire(old(Heap()), t);
        Heap() == f.heap && out == f.out && itrs == old(itrs) + f.itrs
    {
      ghost var was := Heap();
      var Bin(op, v) := mem[t.loc].term;
      var inner, typ := mem[v].term, mem[v + 1].term;
      var idup := NewCell(inner);
      var tdup := NewCell(typ);
      var a0 := NewNode(Dp(false, t.lab, idup), Dp(false, t.lab, tdup));
      var a1 := NewNode(Dp(true, t.lab, idup), Dp(true, t.lab, tdup));
      assert Heap() == CopyHeap(was, t.lab, op, inner, typ);
      out := HandOver(t.side, t.loc, Bin(op, a0), Bin(op, a1));
    }

    /** Give a child its own DUP cell and store the two ports in q0 and q1. */
    method DupChild(lab: Label, child: Term, q0: nat, q1: nat)
      requires Inv() && pos < mem.Length && q0 < pos && q1 < pos
      modifies this`pos, mem
      ensures Inv() && pos == old(pos) + 1
      ensures Heap() == (old(Heap()) + [Plain(child)])
                          [q0 := Plain(Dp(false, lab, old(pos)))][q1 := Plain(Dp(true, lab, old(pos)))]
    {
      var c := NewCell(child);
      Set(q0, Plain(Dp(false, lab, c)));
      Set(q1, Plain(Dp(true, lab, c)));
    }

    /** DUP meets any other two-slot node: each child gets its own DUP cell. */
    method DupNode(t: Term) returns (out: Term)
      requires Inv() && pos + MAX_ALLOC <= mem.Length && t.Dp? && Fits(Heap(), t)
      requires RuleOf(Heap(), t) == CopyNode && !mem[t.loc].term.op.Ann?
      modifies this, mem
      ensures Inv()
      ensures var f := Fire(old(Heap()), t);
        Heap() == f.heap && out == f.out && itrs == old(itrs) + f.itrs
    {
      ghost var was := Heap();
      var Bin(op, v) := mem[t.loc].term;
      var r0 := Alloc(2);
      var r1 := Alloc(2);
      ghost var blank := Heap()[|was|..];
      assert Heap() == was + blank;
      DupChild(t.lab, mem[v].term, r0, r1);
      DupChild(t.lab, mem[v + 1].term, r0 + 1, r1 + 1);
      assert Heap() == CopyHeap(was, t.lab, op, was[v].term, was[v + 1].term);
      out := HandOver(t.side, t.loc, Bin(op, r0), Bin(op, r1));
    }

    /** DP0 and DP1 on every kind of cell. */
    method InteractDup(t: Term) returns (out: Term)
      requires Inv() && pos + MAX_ALLOC <= mem.Length && t.Dp? && Fits(Heap(), t)
      modifies this, mem
      ensures Inv()
      ensures var f := Fire(old(Heap()), t);
        Heap() == f.heap && out == f.out && itrs == old(itrs) + f.itrs
    {
      var cell := mem[t.loc];
      if cell.sub {
        itrs := itrs + 1;
        return cell.term;
      }
      match cell.term
      case Sup(m, s) =>
        if m == t.lab {
          out := HandOver(t.side, t.loc, mem[s].term, mem[s + 1].term);
        } else {
          out := CommuteDupSup(t);
        }
      case Bin(op, v) =>
        if op.Ann? { out := DupAnn(t); } else { out := DupNode(t); }
      case Dp(_, _, _) => out := t;
      case Inc(_) => out := t;
      case _ => out := HandOver(t.side, t.loc, cell.term, cell.term);
    }

    /** Distribute a strict node over the SUP on its left; the other operand is
        shared through a fresh DUP with the SUP's label. */
    method DistributeLeft(t: Term) returns (out: Term)
      requires Inv() && pos + MAX_ALLOC <= mem.Length && t.Bin? && Fits(Heap(), t)
      requires RuleOf(Heap(), t) == DistLeft
      modifies this, mem
      ensures Inv()
      ensures var f := Fire(old(Heap()), t);
        Heap() == f.heap && out == f.out && itrs == old(itrs) + f.itrs
    {
      var a := mem[t.loc].term;
      var x0, x1 := mem[a.loc].term, mem[a.loc + 1].term;
      var dup := NewCell(mem[t.loc + 1].term);
      itrs := itrs + 1;
      var n0 := NewNode(x0, Dp(false, a.lab, dup));
      var n1 := NewNode(x1, Dp(true, a.lab, dup));
      var s := NewNode(Bin(t.op, n0), Bin(t.op, n1));
      out := Sup(a.lab, s);
    }

    /** Distribute OP2 or EQL over the SUP on its right, storing the left operand twice. */
    method DistributeRight(t: Term) returns (out: Term)
      requires Inv() && pos + MAX_ALLOC <= mem.Length && t.Bin? && Fits(Heap(), t)
      requires RuleOf(Heap(), t) == DistRight
      modifies this, mem
      ensures Inv()
      ensures var f := Fire(old(Heap()), t);
        Heap() == f.heap && out == f.out && itrs == old(itrs) + f.itrs
    {
      var x, b := mem[t.loc].term, mem[t.loc + 1].term;
      var y0, y1 := mem[b.loc].term, mem[b.loc + 1].term;
      itrs := itrs + 1;
      var n0 := NewNode(x, y0);
      var n1 := NewNode(x, y1);
      var s := NewNode(Bin(t.op, n0), Bin(t.op, n1));
      out := Sup(b.lab, s);
    }

    method InteractOp2(t: Term) returns (out: Term)
      requires Inv() && pos + MAX_ALLOC <= mem.Length && t.Bin? && t.op.Op2? && Fits(Heap(), t)
      modifies this, mem
      ensures Inv()
      ensures var f := Fire(old(Heap()), t);
        Heap() == f.heap && out == f.out && itrs == old(itrs) + f.itrs
    {
      var x := mem[t.loc].term;
      if x.Sup? {
        out := DistributeLeft(t);
        return;
      }
      var y := mem[t.loc + 1].term;
      if y.Sup? {
        out := DistributeRight(t);
        return;
      }
      if x.Num? && y.Num? {
        itrs := itrs + 1;
        return Num(Arith(t.op.code, x.val, y.val));
      }
      out := t;
    }

    /** EQL under an INC: the equality goes inside, the INC outside. */
    method LiftInc(x: Term, y: Term) returns (out: Term)
      requires Inv() && pos + MAX_ALLOC <= mem.Length
      modifies this, mem
      ensures Inv() && itrs == old(itrs) + 1 && out == Inc(old(pos) + 2)
      ensures Heap() == old(Heap()) + [Plain(x), Plain(y), Plain(Bin(Eql, old(pos)))]
    {
      itrs := itrs + 1;
      var n := NewNode(x, y);
      var i := NewCell(Bin(Eql, n));
      return Inc(i);
    }

    method InteractEql(t: Term) returns (out: Term)
      requires Inv() && pos + MAX_ALLOC <= mem.Length && t.Bin? && t.op.Eql? && Fits(Heap(), t)
      modifies this, mem
      ensures Inv()
      ensures var f := Fire(old(Heap()), t);
        Heap() == f.heap && out == f.out && itrs == old(itrs) + f.itrs
    {
      var a, b := mem[t.loc].term, mem[t.loc + 1].term;
      if a.Sup? { out := DistributeLeft(t); return; }
      if a.Era? { return Era; }
      if a.Any? { itrs := itrs + 1; return Num(1); }
      if a.Inc? { out := LiftInc(mem[a.loc].term, b); return; }
      if b.Sup? { out := DistributeRight(t); return; }
      if b.Era? { return Era; }
      if b.Any? { itrs := itrs + 1; return Num(1); }
      if b.Inc? { out := LiftInc(a, mem[b.loc].term); return; }
      itrs := itrs + 1;
      if a.Num? && b.Num? { return Num(B2N(a.val == b.val)); }
      return Num(0);
    }

    method InteractAndOr(t: Term) returns (out: Term)
      requires Inv() && pos + MAX_ALLOC <= mem.Length && t.Bin? && (t.op.And? || t.op.Or?) && Fits(Heap(), t)
      modifies this, mem
      ensures Inv()
      ensures var f := Fire(old(Heap()), t);
        Heap() == f.heap && out == f.out && itrs == old(itrs) + f.itrs
    {
      var a := mem[t.loc].term;
      if a.Sup? { out := DistributeLeft(t); return; }
      if a.Num? {
        itrs := itrs + 1;
        if t.op.And? {
          if a.val == 0 { return Num(0); }
          return mem[t.loc + 1].term;
        }
        if a.val == 0 { return mem[t.loc + 1].term; }
        return Num(1);
      }
      if a.Era? { return Era; }
      out := t;
    }

    method InteractSeq(t: Term) returns (out: Term)
      requires Inv() && pos + MAX_ALLOC <= mem.Length && t.Bin? && t.op.Seq? && Fits(Heap(), t)
      modifies this, mem
      ensures Inv()
      ensures var f := Fire(old(Heap()), t);
        Heap() == f.heap && out == f.out && itrs == old(itrs) + f.itrs
    {
      var a := mem[t.loc].term;
      if a.Sup? { out := DistributeLeft(t); return; }
      itrs := itrs + 1;
      return mem[t.loc + 1].term;
    }

    /** One interaction on a term, as the dispatcher performs it. */
    method Interact(t: Term) returns (out: Term)
      requires Inv() && pos + MAX_ALLOC <= mem.Length && Fits(Heap(), t)
      modifies this, mem
      ensures Inv()
      ensures var f := Fire(old(Heap()), t);
        Heap() == f.heap && out == f.out && itrs == old(itrs) + f.itrs
    {
      match t
      case Dp(_, _, _) => out := InteractDup(t);
      case Bin(op, n) =>
        match op {
          case Op2(_) => out := InteractOp2(t);
          case Eql => out := InteractEql(t);
          case Seq => out := InteractSeq(t);
          case Ann => itrs := itrs + 1; out := mem[n].term;
          case _ => out := InteractAndOr(t);
        }
      case Inc(n) => itrs := itrs + 1; out := mem[n].term;
      case _ => out := t;
    }

    /** Fire the redex in slot p in place: the net stays linear and acyclic and
        every root keeps the value it selects in every label environment. */
    method StepAt(p: nat, ghost rank: Rank) returns (ghost rank': Rank)
      requires Inv() && pos + MAX_ALLOC <= mem.Length && Legal(Heap(), rank, p)
      modifies this, mem
      ensures Inv() && Heap() == Step(old(Heap()), p) && rank' == StepRank(old(Heap()), rank, p)
      ensures Preserves(old(Heap()), rank, p, Heap(), rank')
    {
      StepSound(Heap(), rank, p);
      rank' := StepRank(Heap(), rank, p);
      var sub := mem[p].sub;
      var out := Interact(mem[p].term);
      Set(p, Cell(out, sub));
    }
  }
}
