/** How one interaction rewires a net, described slot by slot: which slots die,
    the ranks of the slots that are allocated, and where the word now stored in a
    slot came from. A rewiring of this form keeps the net acyclic and linear,
    whatever the rule. */
module Patches {
  import opened Streams
  import opened Nets
  import opened Rules

  /** What a rule does to the net around the redex slot p. `dead` slots become
      garbage; the slots allocated at the end of the heap get the given ranks.
      A source says which old slot a word comes from, or is negative for a word
      the rule builds: `out` for slot p, `left` for the DUP cell d (d == p if
      there is none), `from` for the allocated slots. */
  datatype Plan = Plan(dead: set<nat>, ranks: seq<nat>, from: seq<int>,
                       p: nat, out: int, d: nat, left: int)

  ghost function Span(lo: nat, hi: nat): (s: set<nat>)
    requires lo <= hi
    ensures forall c :: c in s <==> lo <= c < hi
    decreases hi - lo
  {
    if lo == hi then {} else {lo} + Span(lo + 1, hi)
  }

  ghost function Source(plan: Plan, n: nat, c: nat): int {
    if c == plan.p then plan.out
    else if c == plan.d then plan.left
    else if n <= c < n + |plan.from| then plan.from[c - n]
    else c
  }

  /** Old ranks are tripled, which leaves room for two layers of new nodes
      between a consumed node and its consumer. */
  ghost function Regrow(rank: Rank, n: nat, plan: Plan): Rank {
    map c | c in rank.Keys - plan.dead + Span(n, n + |plan.ranks|) ::
      if n <= c < n + |plan.ranks| then plan.ranks[c - n] else 3 * rank[c]
  }

  ghost predicate Regrown(rank: Rank, rank': Rank, n: nat, plan: Plan) {
    && (forall c: nat {:trigger c in rank'} ::
          c in rank' <==> (c < n && c in rank && c !in plan.dead) || n <= c < n + |plan.ranks|)
    && (forall c {:trigger rank'[c]} :: c in rank' ==>
          if c < n then c in rank && rank'[c] == 3 * rank[c] else rank'[c] == plan.ranks[c - n])
  }

  lemma RegrowRegrown(h: Heap, rank: Rank, plan: Plan)
    requires Ranked(h, rank)
    ensures Regrown(rank, Regrow(rank, |h|, plan), |h|, plan)
  {
    var (n, rank') := (|h|, Regrow(rank, |h|, plan));
    assert rank'.Keys == rank.Keys - plan.dead + Span(n, n + |plan.ranks|);
    forall c: nat ensures c in rank' <==> (c < n && c in rank && c !in plan.dead) || n <= c < n + |plan.ranks| {
      if c in rank { Live(h, rank, c); }
    }
  }

  predicate Hits(t: Term, c: nat) {
    !Atom(t) && t.loc <= c < t.loc + Size(t)
  }

  /** Slot c of the new heap holds a word that survives from the old heap. */
  ghost predicate Moved(h: Heap, rank: Rank, p: nat, h': Heap, rank': Rank, c: nat, o: int, spare: nat) {
    o >= 0 && o in rank && o != p && o < |h| && c < |h'| && c in rank' &&
    h'[c].term == h[o].term && Good(rank', h[o].term) && 3 * rank[o] <= rank'[c] &&
    !Hits(h[o].term, spare)
  }

  /** Slot c of the new heap holds a word the rule built. */
  ghost predicate Built(h: Heap, h': Heap, rank': Rank, c: nat, spare: nat) {
    RankedAt(h', rank', c) && PlainAt(h', c) &&
    (var t := h'[c].term; Atom(t) || t.loc >= |h| || (t.Dp? && t.loc == spare))
  }

  ghost predicate Placed(h: Heap, rank: Rank, p: nat, h': Heap, rank': Rank, plan: Plan, c: nat, spare: nat) {
    var o := Source(plan, |h|, c);
    if o >= 0 then Moved(h, rank, p, h', rank', c, o, spare) else Built(h, h', rank', c, spare)
  }

  /** No two slots hold the same surviving word, and built words are apart. */
  ghost predicate NoClash(h: Heap, h': Heap, plan: Plan, c: nat, e: nat) {
    c != e ==>
      var (o, q) := (Source(plan, |h|, c), Source(plan, |h|, e));
      (o >= 0 && q >= 0 ==> o != q) && (o < 0 && q < 0 ==> ApartAt(h', c, e))
  }

  /** The SUB bit changes at most in the DUP cell whose port is held in p. */
  ghost predicate Flags(h: Heap, p: nat, h': Heap) {
    p < |h| <= |h'| &&
    forall c {:trigger h'[c]} :: 0 <= c < |h| ==>
      h'[c].sub == h[c].sub || (h[p].term.Dp? && h[p].term.loc == c)
  }

  ghost predicate Patched(h: Heap, rank: Rank, p: nat, h': Heap, rank': Rank, plan: Plan, spare: nat) {
    Regrown(rank, rank', |h|, plan) && plan.p == p && |plan.from| == |plan.ranks| &&
    (plan.d == p || (p < |h| && h[p].term.Dp? && h[p].term.loc == plan.d)) &&
    Valid(h, rank) && p in rank && Flags(h, p, h') &&
    (forall c {:trigger Placed(h, rank, p, h', rank', plan, c, spare)} ::
       c in rank' ==> Placed(h, rank, p, h', rank', plan, c, spare)) &&
    (forall c, e {:trigger NoClash(h, h', plan, c, e)} ::
       c in rank' && e in rank' ==> NoClash(h, h', plan, c, e))
  }

  lemma PatchedRanked(h: Heap, rank: Rank, p: nat, h': Heap, rank': Rank, plan: Plan, spare: nat)
    requires Patched(h, rank, p, h', rank', plan, spare)
    ensures Ranked(h', rank')
  {
    forall c | c in rank' ensures RankedAt(h', rank', c) {
      assert Placed(h, rank, p, h', rank', plan, c, spare);
      var o := Source(plan, |h|, c);
      if o >= 0 {
        Live(h, rank, o);
      }
    }
  }

  lemma PatchedPlain(h: Heap, rank: Rank, p: nat, h': Heap, rank': Rank, plan: Plan, spare: nat, c: nat)
    requires Patched(h, rank, p, h', rank', plan, spare)
    requires c in rank'
    ensures PlainAt(h', c)
  {
    assert Placed(h, rank, p, h', rank', plan, c, spare);
    var o := Source(plan, |h|, c);
    if o >= 0 {
      Live(h, rank, o);
      assert PlainAt(h, o);
      LivePair(h, rank, o, p);
    }
  }

  lemma PatchedApart(h: Heap, rank: Rank, p: nat, h': Heap, rank': Rank, plan: Plan, spare: nat, c: nat, e: nat)
    requires Patched(h, rank, p, h', rank', plan, spare)
    requires c in rank' && e in rank'
    ensures ApartAt(h', c, e)
  {
    var (o, q) := (Source(plan, |h|, c), Source(plan, |h|, e));
    assert Placed(h, rank, p, h', rank', plan, c, spare);
    assert Placed(h, rank, p, h', rank', plan, e, spare);
    assert NoClash(h, h', plan, c, e);
    if o >= 0 { Live(h, rank, o); }
    if q >= 0 { Live(h, rank, q); }
    if c != e && o >= 0 && q >= 0 {
      LivePair(h, rank, o, q);
      LivePair(h, rank, o, p);
      LivePair(h, rank, q, p);
    }
  }

  /** Slots r, r + 1 hold DP0 ports and r + 2, r + 3 DP1 ports of the cells c and
      c', and slots p and d hold the nodes at r and r + 2: all are apart. */
  ghost predicate Copied(h': Heap, p: nat, side: bool, d: nat, lab: Label, r: nat, c: nat, c': nat) {
    p != d && p < r && d < r && r + 4 <= |h'| && c != c' && c < |h'| && c' < |h'| &&
    !(r <= c < r + 4) && !(r <= c' < r + 4) && !h'[c].sub && !h'[c'].sub &&
    Size(h'[p].term) == 2 && h'[p].term.loc == (if side then r + 2 else r) &&
    Size(h'[d].term) == 2 && h'[d].term.loc == (if side then r else r + 2) &&
    h'[r] == Plain(Dp(false, lab, c)) && h'[r + 1] == Plain(Dp(false, lab, c')) &&
    h'[r + 2] == Plain(Dp(true, lab, c)) && h'[r + 3] == Plain(Dp(true, lab, c'))
  }

  lemma CopiedApart(h': Heap, p: nat, side: bool, d: nat, lab: Label, r: nat, c: nat, c': nat, x: nat, y: nat)
    requires Copied(h', p, side, d, lab, r, c, c')
    requires x == p || x == d || r <= x < r + 4
    requires y == p || y == d || r <= y < r + 4
    ensures ApartAt(h', x, y)
  {
    assert x == p || x == d || x == r || x == r + 1 || x == r + 2 || x == r + 3;
    assert y == p || y == d || y == r || y == r + 1 || y == r + 2 || y == r + 3;
  }

  /** A rewiring of this form keeps the net acyclic and linear. */
  lemma PatchedValid(h: Heap, rank: Rank, p: nat, h': Heap, rank': Rank, plan: Plan, spare: nat)
    requires Patched(h, rank, p, h', rank', plan, spare)
    ensures Valid(h', rank')
  {
    PatchedRanked(h, rank, p, h', rank', plan, spare);
    forall c | c in rank' ensures PlainAt(h', c) {
      PatchedPlain(h, rank, p, h', rank', plan, spare, c);
    }
    forall c, e | c in rank' && e in rank' ensures ApartAt(h', c, e) {
      PatchedApart(h, rank, p, h', rank', plan, spare, c, e);
    }
  }
}
