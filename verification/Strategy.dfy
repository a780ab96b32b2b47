/** Where the weak-head reducer fires next. */
module Strategy {
  import opened Nets
  import opened Rules
  import opened Soundness
  import opened Runs

  /** OP2 and EQL look at their right operand unless the left one decides alone. */
  predicate NeedsRight(op: Op, a: Term) {
    (op.Op2? && !a.Sup?) || (op.Eql? && !a.Sup? && !a.Era? && !a.Any?)
  }

  /** Follow the strict position of the word in slot r down to the next redex:
      the body of a DUP cell, the left operand of a strict node, and for OP2 and
      EQL the right operand once the left one is head normal. */
  ghost function NextRedex(h: Heap, rank: Rank, r: nat): nat
    requires Ranked(h, rank) && r in rank
    decreases rank[r]
  {
    LiveFits(h, rank, r);
    match h[r].term
    case Dp(_, _, d) =>
      if h[d].sub || HeadNormal(h, rank, h[d].term) then r else NextRedex(h, rank, d)
    case Bin(op, l) =>
      if op.Ann? then r
      else if !HeadNormal(h, rank, h[l].term) then NextRedex(h, rank, l)
      else if NeedsRight(op, h[l].term) then
        if HeadNormal(h, rank, h[l + 1].term) then r else NextRedex(h, rank, l + 1)
      else r
    case _ => r
  }

  /** The reducer is never stuck: below every word that is not head normal the
      strategy finds a slot where a rule fires, and only a right-hand SUP with a
      pointer on the left keeps that from being a legal step. */
  lemma {:induction false} Progress(h: Heap, rank: Rank, r: nat)
    requires Valid(h, rank) && r in rank && RankedAt(h, rank, r)
    requires !HeadNormal(h, rank, h[r].term)
    ensures var p := NextRedex(h, rank, r);
      p in rank && RankedAt(h, rank, p) && Fits(h, h[p].term) &&
      RuleOf(h, h[p].term) != Blocked && Ready(h, rank, p) &&
      (Legal(h, rank, p) <==> !SharesLeft(h, h[p].term))
    decreases rank[r]
  {
    LiveFits(h, rank, r);
    match h[r].term
    case Dp(_, _, d) =>
      if !h[d].sub && !HeadNormal(h, rank, h[d].term) {
        Progress(h, rank, d);
      }
    case Bin(op, l) =>
      if op.Ann? {
      } else if !HeadNormal(h, rank, h[l].term) {
        Progress(h, rank, l);
      } else if NeedsRight(op, h[l].term) && !HeadNormal(h, rank, h[l + 1].term) {
        Progress(h, rank, l + 1);
      }
    case _ =>
  }
}
