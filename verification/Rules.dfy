/** The interaction rules as functions on heaps: which rule fires on a term, the
    heap it leaves and the term it hands to the consumer. The dispatcher looks at
    the operands as they are in the heap. */
module Rules {
  import opened Streams
  import opened Nets

  datatype Rule =
    | Blocked                            // no rule applies, the term is returned
    | TakeSub                            // the sibling port left our value in the cell
    | Annihilate                         // DUP meets SUP of its own label
    | Commute                            // DUP meets SUP of another label
    | CopyAtom                           // DUP meets NUM, ERA or ANY
    | CopyNode                           // DUP meets a two-slot node
    | DistLeft                           // strict node, SUP on the left
    | DistRight                          // OP2 or EQL, SUP on the right
    | LiftLeft                           // EQL, INC on the left
    | LiftRight                          // EQL, INC on the right
    | Mismatch                           // EQL of two normal forms of different kinds
    | Reply(answer: Term, counted: bool) // the node is replaced by `answer`
    | Strip                              // INC is transparent

  predicate Fits(h: Heap, t: Term) {
    InHeap(h, t) &&
    (!Atom(t) ==> InHeap(h, h[t.loc].term) && (Size(t) == 2 ==> InHeap(h, h[t.loc + 1].term)))
  }

  function RuleOf(h: Heap, t: Term): Rule
    requires Fits(h, t)
  {
    match t
    case Dp(side, lab, d) =>
      if h[d].sub then TakeSub
      else (
        match h[d].term
        case Sup(m, _) => if m == lab then Annihilate else Commute
        case Bin(_, _) => CopyNode
        case Dp(_, _, _) => Blocked
        case Inc(_) => Blocked
        case _ => CopyAtom)
    case Bin(op, n) => BinRule(op, h[n].term, h[n + 1].term)
    case Inc(_) => Strip
    case _ => Blocked
  }

  function BinRule(op: Op, a: Term, b: Term): Rule {
    if op.Ann? then Reply(a, true)
    else if a.Sup? then DistLeft
    else match op
      case Op2(code) =>
        if b.Sup? then DistRight
        else if a.Num? && b.Num? then Reply(Num(Arith(code, a.val, b.val)), true)
        else Blocked
      case Eql => EqlRule(a, b)
      case And =>
        if a.Num? then Reply(if a.val == 0 then Num(0) else b, true)
        else if a.Era? then Reply(Era, false)
        else Blocked
      case Or =>
        if a.Num? then Reply(if a.val == 0 then b else Num(1), true)
        else if a.Era? then Reply(Era, false)
        else Blocked
      case Seq => Reply(b, true)
  }

  function EqlRule(a: Term, b: Term): Rule {
    if a.Era? then Reply(Era, false)
    else if a.Any? then Reply(Num(1), true)
    else if a.Inc? then LiftLeft
    else if b.Sup? then DistRight
    else if b.Era? then Reply(Era, false)
    else if b.Any? then Reply(Num(1), true)
    else if b.Inc? then LiftRight
    else if a.Num? && b.Num? then Reply(Num(B2N(a.val == b.val)), true)
    else Mismatch
  }

  datatype Fired = Fired(heap: Heap, out: Term, itrs: nat)

  function Plain(t: Term): Cell { Cell(t, false) }

  /** Write the sibling's copy into the DUP cell with the SUB bit set and
      return the firing port's copy. */
  function Hand(h: Heap, side: bool, d: nat, v0: Term, v1: Term): Fired
    requires d < |h|
  {
    Fired(h[d := Cell(if side then v0 else v1, true)], if side then v1 else v0, 1)
  }

  /** Both ports of the DUP cells c and c + 1: the slots [r, r + 2) hold the
      DP0 ports and [r + 2, r + 4) the DP1 ports. */
  function Ports(lab: Label, c: nat, c': nat): Heap {
    [Plain(Dp(false, lab, c)), Plain(Dp(false, lab, c')),
     Plain(Dp(true, lab, c)), Plain(Dp(true, lab, c'))]
  }

  /** First of the two DUP cells, and first of the four port slots, that the
      duplication of a node allocates on a heap of size n. */
  function CopyCells(op: Op, n: nat): nat { if op.Ann? then n else n + 4 }

  function CopyPorts(op: Op, n: nat): nat { if op.Ann? then n + 2 else n }

  function CopyHeap(h: Heap, lab: Label, op: Op, x: Term, y: Term): Heap {
    var c := CopyCells(op, |h|);
    if op.Ann? then h + [Plain(x), Plain(y)] + Ports(lab, c, c + 1)
    else h + Ports(lab, c, c + 1) + [Plain(x), Plain(y)]
  }

  function Fire(h: Heap, t: Term): Fired
    requires Fits(h, t)
  {
    var n := |h|;
    match RuleOf(h, t)
    case Blocked => Fired(h, t, 0)
    case TakeSub => Fired(h, h[t.loc].term, 1)
    case Annihilate =>
      var s := h[t.loc].term.loc;
      Hand(h, t.side, t.loc, h[s].term, h[s + 1].term)
    case Commute =>
      var Sup(m, s) := h[t.loc].term;
      Hand(h + [Plain(h[s + 1].term)] + Ports(t.lab, s, n), t.side, t.loc,
           Sup(m, n + 1), Sup(m, n + 3))
    case CopyAtom => Hand(h, t.side, t.loc, h[t.loc].term, h[t.loc].term)
    case CopyNode =>
      var Bin(op, v) := h[t.loc].term;
      var r := CopyPorts(op, n);
      Hand(CopyHeap(h, t.lab, op, h[v].term, h[v + 1].term), t.side, t.loc,
           Bin(op, r), Bin(op, r + 2))
    case DistLeft =>
      var Sup(m, s) := h[t.loc].term;
      Fired(h + [Plain(h[t.loc + 1].term),
                 Plain(h[s].term), Plain(Dp(false, m, n)),
                 Plain(h[s + 1].term), Plain(Dp(true, m, n)),
                 Plain(Bin(t.op, n + 1)), Plain(Bin(t.op, n + 3))],
            Sup(m, n + 5), 1)
    case DistRight =>
      var Sup(m, s) := h[t.loc + 1].term;
      var x := h[t.loc].term;
      Fired(h + [Plain(x), Plain(h[s].term), Plain(x), Plain(h[s + 1].term),
                 Plain(Bin(t.op, n)), Plain(Bin(t.op, n + 2))],
            Sup(m, n + 4), 1)
    case LiftLeft =>
      Fired(h + [Plain(h[h[t.loc].term.loc].term), Plain(h[t.loc + 1].term), Plain(Bin(Eql, n))],
            Inc(n + 2), 1)
    case LiftRight =>
      Fired(h + [Plain(h[t.loc].term), Plain(h[h[t.loc + 1].term.loc].term), Plain(Bin(Eql, n))],
            Inc(n + 2), 1)
    case Mismatch => Fired(h, Num(0), 1)
    case Reply(answer, counted) => Fired(h, answer, if counted then 1 else 0)
    case Strip => Fired(h, h[t.loc].term, 1)
  }

  /** Fire the redex held in slot p and store what it returns there. */
  function Step(h: Heap, p: nat): Heap
    requires p < |h| && Fits(h, h[p].term)
  {
    var f := Fire(h, h[p].term);
    f.heap[p := Cell(f.out, h[p].sub)]
  }

  lemma LiveFits(h: Heap, rank: Rank, c: nat)
    requires Ranked(h, rank) && c in rank
    ensures RankedAt(h, rank, c) && Fits(h, h[c].term)
    ensures !Atom(h[c].term) ==> RankedAt(h, rank, h[c].term.loc)
    ensures Size(h[c].term) == 2 ==> RankedAt(h, rank, h[c].term.loc + 1)
  {
    assert RankedAt(h, rank, c);
    var t := h[c].term;
    if !Atom(t) {
      assert RankedAt(h, rank, t.loc);
      assert Size(t) == 2 ==> RankedAt(h, rank, t.loc + 1);
    }
  }
}
