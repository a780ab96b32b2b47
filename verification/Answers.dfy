/** What an interaction answers. */
module Answers {
  import opened Streams
  import opened Nets
  import opened Rules

  /** A strict node with these words in its two slots. */
  predicate NodeOf(h: Heap, op: Op, l: nat, a: Term, b: Term) {
    Fits(h, Bin(op, l)) && h[l].term == a && h[l + 1].term == b
  }

  /** What the node answers, when it answers a number and leaves the heap alone. */
  predicate Answers(h: Heap, op: Op, l: nat, r: nat) {
    Fits(h, Bin(op, l)) &&
    var f := Fire(h, Bin(op, l));
    f.heap == h && f.itrs == 1 && r < 0x1_0000_0000 && f.out == Num(r)
  }

  lemma FarFrom(r: int, v: int)
    requires r == v % 0x1_0000_0000
    ensures (r - v) % 0x1_0000_0000 == 0
  {
  }

  /** OP2 with codes 0, 1 and 2 adds, subtracts and multiplies modulo 2^32. */
  lemma SumAnswer(h: Heap, l: nat, x: U32, y: U32) returns (sum: U32, difference: U32, product: U32)
    requires NodeOf(h, Op2(0), l, Num(x), Num(y))
    ensures Answers(h, Op2(0), l, sum) && (sum - x - y) % 0x1_0000_0000 == 0
    ensures Answers(h, Op2(1), l, difference) && (difference + y - x) % 0x1_0000_0000 == 0
    ensures Answers(h, Op2(2), l, product) && (product - x * y) % 0x1_0000_0000 == 0
  {
    sum := Fire(h, Bin(Op2(0), l)).out.val;
    difference := Fire(h, Bin(Op2(1), l)).out.val;
    product := Fire(h, Bin(Op2(2), l)).out.val;
    FarFrom(sum, x + y);
    FarFrom(difference, x - y);
    FarFrom(product, x * y);
  }

  /** OP2 with codes 3 and 5 divides with remainder; both answer 0 for a zero divisor. */
  lemma QuotientAnswer(h: Heap, l: nat, x: U32, y: U32) returns (quotient: U32, remainder: U32)
    requires NodeOf(h, Op2(3), l, Num(x), Num(y))
    ensures Answers(h, Op2(3), l, quotient) && Answers(h, Op2(5), l, remainder)
    ensures y > 0 ==> x == y * quotient + remainder && remainder < y
    ensures y == 0 ==> quotient == 0 && remainder == 0
  {
    quotient := Fire(h, Bin(Op2(3), l)).out.val;
    remainder := Fire(h, Bin(Op2(5), l)).out.val;
  }

  /** OP2 with code 4 and EQL compare; OP2 with any other code answers 0. */
  lemma EqualAnswer(h: Heap, l: nat, x: U32, y: U32, code: nat)
    requires NodeOf(h, Eql, l, Num(x), Num(y))
    ensures Answers(h, Op2(4), l, 1) <==> x == y
    ensures Answers(h, Op2(4), l, 0) <==> x != y
    ensures Answers(h, Eql, l, 1) <==> x == y
    ensures Answers(h, Eql, l, 0) <==> x != y
    ensures code > 5 ==> Answers(h, Op2(code), l, 0)
  {
  }

  /** AND answers its right operand unless the left one is 0; OR answers 1 unless the left
      one is 0. Neither looks at the right operand. */
  lemma TruthAnswer(h: Heap, l: nat, x: U32, b: Term)
    requires NodeOf(h, And, l, Num(x), b)
    ensures var (f, g) := (Fire(h, Bin(And, l)), Fire(h, Bin(Or, l)));
      f.heap == g.heap == h && f.itrs == g.itrs == 1 &&
      (if x == 0 then f.out == Num(0) && g.out == b else f.out == b && g.out == Num(1))
  {
  }

  /** What the strict nodes make of ERA and ANY on the left, and EQL on the right. */
  lemma ErasedAnswer(h: Heap, op: Op, l: nat, a: Term, b: Term)
    requires NodeOf(h, op, l, a, b) && (op == Eql || op == And || op == Or)
    ensures a == Era ==> Fire(h, Bin(op, l)) == Fired(h, Era, 0)
    ensures op == Eql && a == Any ==> Answers(h, Eql, l, 1)
    ensures op == Eql && a.Num? && b == Era ==> Fire(h, Bin(Eql, l)) == Fired(h, Era, 0)
    ensures op == Eql && a.Num? && b == Any ==> Answers(h, Eql, l, 1)
    ensures op == Eql && ((a.Num? && b.Bin?) || (a.Bin? && b.Num?) || (a.Bin? && b.Bin?)) ==> Answers(h, Eql, l, 0)
  {
  }

  /** DP0 of a SUP with its own label gets the first branch and DP1 the second; the branch
      of the other port stays in the cell. */
  lemma SideAnswer(h: Heap, lab: Label, d: nat, s: nat, a: Term, b: Term)
    requires d < |h| && s + 1 < |h| && h[d] == Plain(Sup(lab, s)) && h[s].term == a && h[s + 1].term == b
    ensures Fits(h, Dp(false, lab, d)) && Fire(h, Dp(false, lab, d)) == Fired(h[d := Cell(b, true)], a, 1)
    ensures Fits(h, Dp(true, lab, d)) && Fire(h, Dp(true, lab, d)) == Fired(h[d := Cell(a, true)], b, 1)
  {
  }

  /** An ERA that short-cuts a strict node. */
  predicate ShortCut(h: Heap, t: Term)
    requires Fits(h, t)
  {
    t.Bin? && (t.op == Eql || t.op == And || t.op == Or) &&
    (h[t.loc].term == Era ||
     (t.op == Eql && h[t.loc + 1].term == Era && (h[t.loc].term.Num? || h[t.loc].term.Dp? || h[t.loc].term.Bin?)))
  }

  /** Every interaction is counted once, but short cuts through an ERA are not counted, and
      neither is looking at a word on which nothing fires. */
  lemma CountAnswer(h: Heap, t: Term)
    requires Fits(h, t)
    ensures ShortCut(h, t) ==> Fire(h, t) == Fired(h, Era, 0)
    ensures !ShortCut(h, t) ==> Fire(h, t).itrs == 1 || Fire(h, t) == Fired(h, t, 0)
    ensures t.Inc? ==> Fire(h, t) == Fired(h, h[t.loc].term, 1)
    ensures t.Bin? && t.op == Ann ==> Fire(h, t) == Fired(h, h[t.loc].term, 1)
    ensures t.Bin? && t.op == Seq && !h[t.loc].term.Sup? ==> Fire(h, t) == Fired(h, h[t.loc + 1].term, 1)
    ensures t.Bin? && h[t.loc].term.Sup? ==> Fire(h, t).itrs == 1
    ensures t.Dp? && (h[t.loc].sub || Atom(h[t.loc].term) || h[t.loc].term.Sup? || h[t.loc].term.Bin?) ==>
      Fire(h, t).itrs == 1
  {
  }
}
