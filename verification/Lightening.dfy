/** Every interaction makes the redex lighter, and everything it allocates or leaves in a
    DUP cell is lighter than the redex was. */
module Lightening {
  import opened Streams
  import opened Nets
  import opened Rules
  import opened Patches
  import opened Duplication
  import opened Distribution
  import opened Weights

  /** Slot c holds less than the redex at p did. */
  ghost predicate LessAt(h: Heap, rank: Rank, p: nat, h': Heap, rank': Rank, c: nat)
    requires Ranked(h, rank) && Ranked(h', rank')
  {
    RankedAt(h, rank, p) && RankedAt(h', rank', c) &&
    Less(WeightOf(h', rank', h'[c].term), WeightOf(h, rank, h[p].term))
  }

  /** The other port of the cell at d is no heavier than it was. */
  ghost predicate SiblingLight(h: Heap, rank: Rank, p: nat, h': Heap, rank': Rank)
    requires Ranked(h, rank) && Ranked(h', rank')
  {
    RankedAt(h, rank, p) &&
    (h[p].term.Dp? && h[p].term.loc in rank' ==>
       var port := h[p].term.(side := !h[p].term.side);
       NoMore(WeightOf(h', rank', port), WeightOf(h, rank, port)))
  }

  ghost predicate Lightens(h: Heap, rank: Rank, p: nat, h': Heap, rank': Rank, d: nat)
    requires Ranked(h, rank) && Ranked(h', rank')
  {
    SiblingLight(h, rank, p, h', rank') && p in rank' &&
    forall c: nat {:trigger LessAt(h, rank, p, h', rank', c)} ::
      c in rank' && (c == p || c == d || c >= |h|) ==> LessAt(h, rank, p, h', rank', c)
  }

  // ------------------------------------------------------------ SUB pickup

  lemma TakeLightens(h: Heap, rank: Rank, p: nat, side: bool, lab: Label, d: nat, h': Heap, rank': Rank)
    requires Port(h, rank, p, side, lab, d) && h[d].sub && TakeTo(h, p, d, h')
    requires Regrown(rank, rank', |h|, TakePlan(p, d)) && Valid(h', rank')
    requires LightBelow(h, rank, h', rank', TakePlan(p, d), Height(rank, h[p].term) - 1)
    ensures Lightens(h, rank, p, h', rank', p)
  {
    LightBack(h, rank, h', rank', TakePlan(p, d), p, d, rank[d]);
    PortWeight(h, rank, h[p].term, WeightOf(h, rank, h[d].term));
  }

  // ---------------------------------------------------------- annihilation

  lemma AnnihilateLightens(h: Heap, rank: Rank, p: nat, side: bool, lab: Label, d: nat, s: nat, h': Heap, rank': Rank)
    requires Port(h, rank, p, side, lab, d) && h[d] == Plain(Sup(lab, s)) && AnnihilateTo(h, p, side, d, s, h')
    requires Regrown(rank, rank', |h|, AnnihilatePlan(p, side, d, s)) && Valid(h', rank')
    requires LightBelow(h, rank, h', rank', AnnihilatePlan(p, side, d, s), Height(rank, h[p].term) - 1)
    ensures Lightens(h, rank, p, h', rank', d)
  {
    var plan := AnnihilatePlan(p, side, d, s);
    Live(h, rank, s);
    Live(h, rank, s + 1);
    LightBack(h, rank, h', rank', plan, p, plan.out, rank[d]);
    LightBack(h, rank, h', rank', plan, d, plan.left, rank[d]);
    SupWeight(h, rank, h[d].term, WeightOf(h, rank, h[s].term), WeightOf(h, rank, h[s + 1].term));
    PortWeight(h, rank, h[p].term, WeightOf(h, rank, h[d].term));
    PortWeight(h, rank, Dp(!side, lab, d), WeightOf(h, rank, h[d].term));
    PortWeight(h', rank', Dp(!side, lab, d), WeightOf(h', rank', h'[d].term));
  }

  // ------------------------------------------------------------ atom copies

  lemma AtomLightens(h: Heap, rank: Rank, p: nat, side: bool, lab: Label, d: nat, h': Heap, rank': Rank)
    requires Port(h, rank, p, side, lab, d) && !h[d].sub && Atom(h[d].term) && AtomTo(h, p, d, h')
    requires Regrown(rank, rank', |h|, AtomPlan(p, d)) && Valid(h', rank')
    ensures Lightens(h, rank, p, h', rank', d)
  {
    Live(h', rank', p);
    Live(h', rank', d);
    assert WeightOf(h, rank, h[d].term) == Weight(2, 1) == WeightOf(h', rank', h'[d].term);
    PortWeight(h, rank, h[p].term, Weight(2, 1));
    PortWeight(h, rank, Dp(!side, lab, d), Weight(2, 1));
    PortWeight(h', rank', Dp(!side, lab, d), Weight(2, 1));
  }

  // ------------------------------------------------- copies of two-slot nodes

  /** The weight of a two-slot node from the weights of its slots. */
  function NodeWeight(t: Term, w0: Weight, w1: Weight): Weight
    requires Size(t) == 2
  {
    Weight(if t.Sup? then 1 + w0.mass + w1.mass else w0.mass * w1.mass, 1 + w0.load + w1.load)
  }

  /** The weight of an unfired port on a node of weight w. */
  function PortOn(w: Weight): Weight { Weight(w.mass, 2 * w.load) }

  lemma IsNodeWeight(h: Heap, rank: Rank, t: Term)
    requires Ranked(h, rank) && Good(rank, t) && Size(t) == 2 && RankedAt(h, rank, t.loc) &&
      RankedAt(h, rank, t.loc + 1)
    ensures WeightOf(h, rank, t) ==
      NodeWeight(t, WeightOf(h, rank, h[t.loc].term), WeightOf(h, rank, h[t.loc + 1].term))
  {
  }

  /** The slots of a node are lighter than the node. */
  lemma SlotsLess(t: Term, w0: Weight, w1: Weight)
    requires Size(t) == 2 && w0.mass >= 2 && w1.mass >= 2
    ensures w0.mass < NodeWeight(t, w0, w1).mass && w1.mass < NodeWeight(t, w0, w1).mass
  {
    ProductGrows(w0.mass, w1.mass);
  }

  /** A node over two ports of unfired cells with weights v0 and v1, compared with a port
      on the node over the words that the cells hold, which were not lighter. */
  lemma CopyWeight(t: Term, v0: Weight, v1: Weight, w0: Weight, w1: Weight)
    requires Size(t) == 2 && NoMore(v0, w0) && NoMore(v1, w1) && v0.mass >= 2 && v1.mass >= 2
    ensures var (v, w) := (NodeWeight(t, PortOn(v0), PortOn(v1)), PortOn(NodeWeight(t, w0, w1)));
      Less(v, w) && NoMore(Weight(v.mass, 1 + v.load), w)
  {
    if !t.Sup? { ProductOrder(w0.mass, w1.mass, v0.mass, v1.mass); }
  }

  /** A port of an unfired cell. */
  lemma FreshPort(h': Heap, rank': Rank, q: nat, x: bool, lab: Label, c: nat)
    requires Ranked(h', rank') && q in rank' && c in rank' && q < |h'| && c < |h'|
    requires h'[q] == Plain(Dp(x, lab, c)) && !h'[c].sub
    ensures RankedAt(h', rank', q) && RankedAt(h', rank', c)
    ensures WeightOf(h', rank', h'[q].term) == PortOn(WeightOf(h', rank', h'[c].term))
  {
    Live(h', rank', q);
    Live(h', rank', c);
    PortWeight(h', rank', h'[q].term, WeightOf(h', rank', h'[c].term));
  }

  /** The copy of a node, of weight NodeWeight(t, w0, w1) before, over ports at r. */
  lemma FreshCopy(h': Heap, rank': Rank, t: Term, r: nat, x: bool, lab: Label, c: nat, c': nat, w0: Weight, w1: Weight)
    requires Ranked(h', rank') && Size(t) == 2 && t.loc == r && r in rank' && r + 1 in rank' && c in rank' &&
      c' in rank'
    requires r + 1 < |h'| && c < |h'| && c' < |h'| && !h'[c].sub && !h'[c'].sub
    requires h'[r] == Plain(Dp(x, lab, c)) && h'[r + 1] == Plain(Dp(x, lab, c')) && w0.mass >= 2 && w1.mass >= 2
    requires RankedAt(h', rank', c) && RankedAt(h', rank', c')
    requires NoMore(WeightOf(h', rank', h'[c].term), w0) && NoMore(WeightOf(h', rank', h'[c'].term), w1)
    ensures Good(rank', t) && RankedAt(h', rank', r) && RankedAt(h', rank', r + 1)
    ensures var (v, w) := (WeightOf(h', rank', t), PortOn(NodeWeight(t, w0, w1)));
      Less(v, w) && NoMore(Weight(v.mass, 1 + v.load), w) &&
      Less(WeightOf(h', rank', h'[r].term), w) && Less(WeightOf(h', rank', h'[r + 1].term), w) &&
      Less(WeightOf(h', rank', h'[c].term), w) && Less(WeightOf(h', rank', h'[c'].term), w)
  {
    var (v0, v1) := (WeightOf(h', rank', h'[c].term), WeightOf(h', rank', h'[c'].term));
    FreshPort(h', rank', r, x, lab, c);
    FreshPort(h', rank', r + 1, x, lab, c');
    IsNodeWeight(h', rank', t);
    CopyWeight(t, v0, v1, w0, w1);
    SlotsLess(t, w0, w1);
  }

  /** The firing port and its sibling get copies of the node that was in the cell. */
  lemma HandedLight(h: Heap, rank: Rank, p: nat, side: bool, lab: Label, d: nat, h': Heap, rank': Rank, w: Weight)
    requires Port(h, rank, p, side, lab, d) && !h[d].sub && Valid(h', rank') &&
      w == PortOn(WeightOf(h, rank, h[d].term))
    requires p in rank' && d in rank' && RankedAt(h', rank', p) && RankedAt(h', rank', d) && h'[d].sub
    requires Less(WeightOf(h', rank', h'[p].term), w) && Less(WeightOf(h', rank', h'[d].term), w)
    requires NoMore(Weight(WeightOf(h', rank', h'[d].term).mass, 1 + WeightOf(h', rank', h'[d].term).load), w)
    ensures WeightOf(h, rank, h[p].term) == w && SiblingLight(h, rank, p, h', rank')
    ensures LessAt(h, rank, p, h', rank', p) && LessAt(h, rank, p, h', rank', d)
  {
    PortWeight(h, rank, h[p].term, WeightOf(h, rank, h[d].term));
    PortWeight(h, rank, Dp(!side, lab, d), WeightOf(h, rank, h[d].term));
    PortWeight(h', rank', Dp(!side, lab, d), WeightOf(h', rank', h'[d].term));
  }

  /** Copies of the node in the cell d over ports at r and r + 2 of the cells c and c'. */
  ghost predicate CopiesOf(h: Heap, rank: Rank, p: nat, side: bool, lab: Label, d: nat, h': Heap, rank': Rank,
                           t0: Term, t1: Term, r: nat, c: nat, c': nat) {
    Port(h, rank, p, side, lab, d) && !h[d].sub && Valid(h', rank') &&
    Size(h[d].term) == Size(t0) == Size(t1) == 2 && (h[d].term.Sup? <==> t0.Sup?) && (h[d].term.Sup? <==> t1.Sup?) &&
    t0.loc == r && t1.loc == r + 2 && RankedAt(h, rank, h[d].term.loc) && RankedAt(h, rank, h[d].term.loc + 1) &&
    p in rank' && d in rank' && c in rank' && c' in rank' &&
    r in rank' && r + 1 in rank' && r + 2 in rank' && r + 3 in rank' &&
    p < |h'| && d < |h'| && r + 3 < |h'| && c < |h'| && c' < |h'| && !h'[c].sub && !h'[c'].sub &&
    h'[p].term == (if side then t1 else t0) && h'[d] == Cell(if side then t0 else t1, true) &&
    h'[r] == Plain(Dp(false, lab, c)) && h'[r + 1] == Plain(Dp(false, lab, c')) &&
    h'[r + 2] == Plain(Dp(true, lab, c)) && h'[r + 3] == Plain(Dp(true, lab, c'))
  }

  /** The cells hold words no heavier than the slots of the node that was copied. */
  ghost predicate CellsLight(h: Heap, rank: Rank, d: nat, h': Heap, rank': Rank, c: nat, c': nat)
    requires Ranked(h, rank) && Ranked(h', rank')
  {
    d < |h| && Size(h[d].term) == 2 && RankedAt(h, rank, h[d].term.loc) && RankedAt(h, rank, h[d].term.loc + 1) &&
    RankedAt(h', rank', c) && RankedAt(h', rank', c') &&
    NoMore(WeightOf(h', rank', h'[c].term), WeightOf(h, rank, h[h[d].term.loc].term)) &&
    NoMore(WeightOf(h', rank', h'[c'].term), WeightOf(h, rank, h[h[d].term.loc + 1].term))
  }

  lemma CopiesLighten(h: Heap, rank: Rank, p: nat, side: bool, lab: Label, d: nat, h': Heap, rank': Rank,
                      t0: Term, t1: Term, r: nat, c: nat, c': nat)
    requires CopiesOf(h, rank, p, side, lab, d, h', rank', t0, t1, r, c, c') && CellsLight(h, rank, d, h', rank', c, c')
    ensures SiblingLight(h, rank, p, h', rank') && LessAt(h, rank, p, h', rank', p) && LessAt(h, rank, p, h', rank', d)
    ensures LessAt(h, rank, p, h', rank', c) && LessAt(h, rank, p, h', rank', c')
    ensures LessAt(h, rank, p, h', rank', r) && LessAt(h, rank, p, h', rank', r + 1)
    ensures LessAt(h, rank, p, h', rank', r + 2) && LessAt(h, rank, p, h', rank', r + 3)
  {
    var t := h[d].term;
    var (w0, w1) := (WeightOf(h, rank, h[t.loc].term), WeightOf(h, rank, h[t.loc + 1].term));
    IsNodeWeight(h, rank, t);
    FreshCopy(h', rank', t0, r, false, lab, c, c', w0, w1);
    FreshCopy(h', rank', t1, r + 2, true, lab, c, c', w0, w1);
    Live(h', rank', p);
    Live(h', rank', d);
    HandedLight(h, rank, p, side, lab, d, h', rank', PortOn(NodeWeight(t, w0, w1)));
  }

  lemma EachLess(h: Heap, rank: Rank, p: nat, d: nat, h': Heap, rank': Rank, r: nat, c: nat, c': nat)
    requires Ranked(h, rank) && Ranked(h', rank') && SiblingLight(h, rank, p, h', rank') && p in rank'
    requires LessAt(h, rank, p, h', rank', p) && LessAt(h, rank, p, h', rank', d)
    requires LessAt(h, rank, p, h', rank', c) && LessAt(h, rank, p, h', rank', c')
    requires LessAt(h, rank, p, h', rank', r) && LessAt(h, rank, p, h', rank', r + 1)
    requires LessAt(h, rank, p, h', rank', r + 2) && LessAt(h, rank, p, h', rank', r + 3)
    requires forall x: nat :: x in rank' && x >= |h| ==> x == c || x == c' || r <= x < r + 4
    ensures Lightens(h, rank, p, h', rank', d)
  {
    forall x: nat | x in rank' && (x == p || x == d || x >= |h|) ensures LessAt(h, rank, p, h', rank', x) {
      assert x == p || x == d || x == c || x == c' || x == r || x == r + 1 || x == r + 2 || x == r + 3;
    }
  }

  lemma CopiesLightens(h: Heap, rank: Rank, p: nat, side: bool, lab: Label, d: nat, h': Heap, rank': Rank,
                       t0: Term, t1: Term, r: nat, c: nat, c': nat)
    requires CopiesOf(h, rank, p, side, lab, d, h', rank', t0, t1, r, c, c') && CellsLight(h, rank, d, h', rank', c, c')
    requires forall x: nat :: x in rank' && x >= |h| ==> x == c || x == c' || r <= x < r + 4
    ensures Lightens(h, rank, p, h', rank', d)
  {
    CopiesLighten(h, rank, p, side, lab, d, h', rank', t0, t1, r, c, c');
    EachLess(h, rank, p, d, h', rank', r, c, c');
  }

  lemma CommuteSlots(h: Heap, rank: Rank, p: nat, side: bool, lab: Label, d: nat, m: Label, s: nat,
                     h': Heap, rank': Rank)
    requires Commuting(h, rank, p, side, lab, d, m, s, h', rank')
    ensures p in rank' && d in rank' && s in rank' && rank[s] <= rank[d] && rank[s + 1] <= rank[d]
    ensures var n := |h|;
      n in rank' && n + 1 in rank' && n + 2 in rank' && n + 3 in rank' && n + 4 in rank' &&
      Source(CommutePlan(rank, p, d, s), n, s) == s && Source(CommutePlan(rank, p, d, s), n, n) == s + 1 &&
      forall x: nat :: x in rank' && x >= n ==> x == s || x == n || n + 1 <= x < n + 5
  {
    LivePair(h, rank, p, d);
  }

  lemma CommuteCells(h: Heap, rank: Rank, p: nat, side: bool, lab: Label, d: nat, m: Label, s: nat,
                     h': Heap, rank': Rank)
    requires Commuting(h, rank, p, side, lab, d, m, s, h', rank') && Valid(h', rank')
    requires LightBelow(h, rank, h', rank', CommutePlan(rank, p, d, s), Height(rank, h[p].term) - 1)
    ensures CopiesOf(h, rank, p, side, lab, d, h', rank', Sup(m, |h| + 1), Sup(m, |h| + 3), |h| + 1, s, |h|)
    ensures CellsLight(h, rank, d, h', rank', s, |h|)
  {
    CommuteSlots(h, rank, p, side, lab, d, m, s, h', rank');
    LightBack(h, rank, h', rank', CommutePlan(rank, p, d, s), s, s, rank[d]);
    LightBack(h, rank, h', rank', CommutePlan(rank, p, d, s), |h|, s + 1, rank[d]);
  }

  lemma CommuteLightens(h: Heap, rank: Rank, p: nat, side: bool, lab: Label, d: nat, m: Label, s: nat,
                        h': Heap, rank': Rank)
    requires Commuting(h, rank, p, side, lab, d, m, s, h', rank') && Valid(h', rank')
    requires LightBelow(h, rank, h', rank', CommutePlan(rank, p, d, s), Height(rank, h[p].term) - 1)
    ensures Lightens(h, rank, p, h', rank', d)
  {
    var n := |h|;
    CommuteSlots(h, rank, p, side, lab, d, m, s, h', rank');
    CommuteCells(h, rank, p, side, lab, d, m, s, h', rank');
    CopiesLightens(h, rank, p, side, lab, d, h', rank', Sup(m, n + 1), Sup(m, n + 3), n + 1, s, n);
  }

  /** Which slots a node copy leaves alive. */
  lemma CopySlots(h: Heap, rank: Rank, p: nat, side: bool, lab: Label, d: nat, op: Op, v: nat, c: nat, r: nat,
                  h': Heap, rank': Rank, plan: Plan)
    requires Copying(h, rank, p, side, lab, d, op, v, c, r, h', rank', plan)
    ensures p in rank' && d in rank' && c in rank' && c + 1 in rank'
    ensures r in rank' && r + 1 in rank' && r + 2 in rank' && r + 3 in rank'
    ensures Source(plan, |h|, c) == v && Source(plan, |h|, c + 1) == v + 1 && rank[v] <= rank[d] &&
      rank[v + 1] <= rank[d]
    ensures forall x: nat :: x in rank' && x >= |h| ==> x == c || x == c + 1 || r <= x < r + 4
  {
    LivePair(h, rank, p, d);
  }

  lemma CopiedCells(h: Heap, rank: Rank, p: nat, side: bool, lab: Label, d: nat, op: Op, v: nat, c: nat, r: nat,
                  h': Heap, rank': Rank, plan: Plan)
    requires Copying(h, rank, p, side, lab, d, op, v, c, r, h', rank', plan) && Valid(h', rank')
    requires LightBelow(h, rank, h', rank', plan, Height(rank, h[p].term) - 1)
    ensures CopiesOf(h, rank, p, side, lab, d, h', rank', Bin(op, r), Bin(op, r + 2), r, c, c + 1)
    ensures CellsLight(h, rank, d, h', rank', c, c + 1)
  {
    CopySlots(h, rank, p, side, lab, d, op, v, c, r, h', rank', plan);
    LightBack(h, rank, h', rank', plan, c, v, rank[d]);
    LightBack(h, rank, h', rank', plan, c + 1, v + 1, rank[d]);
  }

  lemma CopyLightens(h: Heap, rank: Rank, p: nat, side: bool, lab: Label, d: nat, op: Op, v: nat, c: nat, r: nat,
                     h': Heap, rank': Rank, plan: Plan)
    requires Copying(h, rank, p, side, lab, d, op, v, c, r, h', rank', plan) && Valid(h', rank')
    requires LightBelow(h, rank, h', rank', plan, Height(rank, h[p].term) - 1)
    ensures Lightens(h, rank, p, h', rank', d)
  {
    CopySlots(h, rank, p, side, lab, d, op, v, c, r, h', rank', plan);
    CopiedCells(h, rank, p, side, lab, d, op, v, c, r, h', rank', plan);
    CopiesLightens(h, rank, p, side, lab, d, h', rank', Bin(op, r), Bin(op, r + 2), r, c, c + 1);
  }

  // ------------------------------------------------------ the strict nodes

  /** A product over a sum is heavier than the sum of the products. */
  lemma SumOfProducts(x0: nat, x1: nat, y: nat)
    requires y >= 2
    ensures 1 + x0 * y + x1 * y < (1 + x0 + x1) * y
  {
    assert (1 + x0 + x1) * y == y + x0 * y + x1 * y;
  }

  /** Masses after a distribution, none of which reaches the mass before it. */
  lemma DistributedLess(x0: nat, x1: nat, y: nat, x0': nat, x1': nat, y': nat)
    requires 2 <= x0' <= x0 && 2 <= x1' <= x1 && 2 <= y' <= y
    ensures 1 + x0' * y' + x1' * y' < (1 + x0 + x1) * y
    ensures x0' * y' < (1 + x0 + x1) * y && x1' * y' < (1 + x0 + x1) * y
    ensures x0' < (1 + x0 + x1) * y && x1' < (1 + x0 + x1) * y && y' < (1 + x0 + x1) * y
  {
    ProductOrder(x0, y, x0', y');
    ProductOrder(x1, y, x1', y');
    SumOfProducts(x0, x1, y);
    ProductGrows(x0', y');
    ProductGrows(x1', y');
  }

  /** A SUP at p of two strict nodes, at q and q + 1, over r0 and r1. */
  ghost predicate Branches(h': Heap, rank': Rank, p: nat, op: Op, m: Label, q: nat, r0: nat, r1: nat) {
    Valid(h', rank') && p in rank' && q in rank' && q + 1 in rank' &&
    r0 in rank' && r0 + 1 in rank' && r1 in rank' && r1 + 1 in rank' && p < |h'| && q + 1 < |h'| &&
    h'[p].term == Sup(m, q) && h'[q].term == Bin(op, r0) && h'[q + 1].term == Bin(op, r1)
  }

  /** The masses of four slots in a row. */
  ghost predicate Masses(h': Heap, rank': Rank, x0: nat, y0: nat, x1: nat, y1: nat, r: nat)
    requires Ranked(h', rank')
  {
    RankedAt(h', rank', r) && RankedAt(h', rank', r + 1) && RankedAt(h', rank', r + 2) && RankedAt(h', rank', r + 3) &&
    Mass(h', rank', h'[r].term) == x0 && Mass(h', rank', h'[r + 1].term) == y0 &&
    Mass(h', rank', h'[r + 2].term) == x1 && Mass(h', rank', h'[r + 3].term) == y1
  }

  lemma Branching(h': Heap, rank': Rank, p: nat, op: Op, m: Label, q: nat, r0: nat, r1: nat, x0: nat, y0: nat, x1: nat,
                  y1: nat)
    requires Branches(h', rank', p, op, m, q, r0, r1)
    requires RankedAt(h', rank', r0) && RankedAt(h', rank', r0 + 1) && RankedAt(h', rank', r1) &&
      RankedAt(h', rank', r1 + 1)
    requires Mass(h', rank', h'[r0].term) == x0 && Mass(h', rank', h'[r0 + 1].term) == y0
    requires Mass(h', rank', h'[r1].term) == x1 && Mass(h', rank', h'[r1 + 1].term) == y1
    ensures RankedAt(h', rank', p) && RankedAt(h', rank', q) && RankedAt(h', rank', q + 1)
    ensures Mass(h', rank', h'[q].term) == x0 * y0 && Mass(h', rank', h'[q + 1].term) == x1 * y1
    ensures Mass(h', rank', h'[p].term) == 1 + x0 * y0 + x1 * y1
  {
    Live(h', rank', p);
    Live(h', rank', q);
    Live(h', rank', q + 1);
  }

  /** The mass of a strict node over a SUP on its left. */
  lemma OverLeft(h: Heap, rank: Rank, p: nat, op: Op, l: nat, m: Label, s: nat)
    requires Node(h, rank, p, Bin(op, l)) && h[l].term == Sup(m, s) && RankedAt(h, rank, s) && RankedAt(h, rank, s + 1)
    ensures Mass(h, rank, h[p].term) ==
      (1 + Mass(h, rank, h[s].term) + Mass(h, rank, h[s + 1].term)) * Mass(h, rank, h[l + 1].term)
  {
    IsNodeWeight(h, rank, h[p].term);
    IsNodeWeight(h, rank, h[l].term);
  }

  lemma LeftSlots(h: Heap, rank: Rank, p: nat, op: Op, l: nat, m: Label, s: nat, h': Heap, rank': Rank)
    requires LeftStep(h, rank, p, op, l, m, s, h', rank') && Valid(h', rank')
    ensures var n := |h|;
      Branches(h', rank', p, op, m, n + 5, n + 1, n + 3) && n in rank' && n < |h'| &&
      (forall c: nat :: c in rank' && c >= n ==> c <= n + 6)
    ensures var (n, plan, k) := (|h|, LeftPlan(rank, p, l, s), Height(rank, h[p].term) - 1);
      Source(plan, n, n) == l + 1 && Source(plan, n, n + 1) == s && Source(plan, n, n + 3) == s + 1 &&
      rank[l + 1] <= k && rank[s] <= k && rank[s + 1] <= k
  {
    var n := |h|;
    assert n in rank' && n + 1 in rank' && n + 2 in rank' && n + 3 in rank';
    assert n + 4 in rank' && n + 5 in rank' && n + 6 in rank';
    LivePair(h, rank, p, l);
  }

  /** A distribution on the left leaves masses x0 and x1 for the branches of the SUP, and y
      for the other operand and both its ports. */
  lemma LeftMasses(h: Heap, rank: Rank, p: nat, op: Op, l: nat, m: Label, s: nat, h': Heap, rank': Rank)
      returns (x0: nat, x1: nat, y: nat)
    requires LeftStep(h, rank, p, op, l, m, s, h', rank') && Valid(h', rank')
    requires LightBelow(h, rank, h', rank', LeftPlan(rank, p, l, s), Height(rank, h[p].term) - 1)
    ensures 2 <= x0 <= Mass(h, rank, h[s].term) && 2 <= x1 <= Mass(h, rank, h[s + 1].term)
    ensures 2 <= y <= Mass(h, rank, h[l + 1].term)
    ensures RankedAt(h', rank', |h|) && Mass(h', rank', h'[|h|].term) == y
    ensures Masses(h', rank', x0, y, x1, y, |h| + 1)
  {
    var (n, plan, k) := (|h|, LeftPlan(rank, p, l, s), Height(rank, h[p].term) - 1);
    LeftSlots(h, rank, p, op, l, m, s, h', rank');
    LightBack(h, rank, h', rank', plan, n, l + 1, k);
    LightBack(h, rank, h', rank', plan, n + 1, s, k);
    LightBack(h, rank, h', rank', plan, n + 3, s + 1, k);
    FreshPort(h', rank', n + 2, false, m, n);
    FreshPort(h', rank', n + 4, true, m, n);
    x0, x1, y := Mass(h', rank', h'[n + 1].term), Mass(h', rank', h'[n + 3].term), Mass(h', rank', h'[n].term);
  }

  /** Masses of operands that fit, with the SUP of their nodes, below a mass. */
  predicate Fitting(x0: nat, y0: nat, x1: nat, y1: nat, mass: nat) {
    x0 < mass && y0 < mass && x1 < mass && y1 < mass && 1 + x0 * y0 + x1 * y1 < mass
  }

  /** A SUP of two nodes at r + 4, over operands of masses x0, y0 and x1, y1. */
  lemma BranchesLess(h: Heap, rank: Rank, p: nat, op: Op, m: Label, h': Heap, rank': Rank, r: nat,
                     x0: nat, y0: nat, x1: nat, y1: nat, mass: nat)
    requires Ranked(h, rank) && RankedAt(h, rank, p) && !h[p].term.Dp? && Mass(h, rank, h[p].term) == mass
    requires Branches(h', rank', p, op, m, r + 4, r, r + 2) && Masses(h', rank', x0, y0, x1, y1, r)
    requires Fitting(x0, y0, x1, y1, mass)
    requires forall c: nat :: c in rank' && c >= |h| ==> c <= r + 5
    requires forall c: nat :: |h| <= c < r && c in rank' ==> LessAt(h, rank, p, h', rank', c)
    ensures Lightens(h, rank, p, h', rank', p)
  {
    Branching(h', rank', p, op, m, r + 4, r, r + 2, x0, y0, x1, y1);
    BranchProducts(x0, y0, x1, y1);
    forall c: nat | c in rank' && (c == p || c >= |h|) ensures LessAt(h, rank, p, h', rank', c) {
      assert c == p || c < r || c == r || c == r + 1 || c == r + 2 || c == r + 3 || c == r + 4 || c == r + 5;
    }
  }

  lemma BranchProducts(x0: nat, y0: nat, x1: nat, y1: nat)
    ensures x0 * y0 >= 0 && x1 * y1 >= 0
  {
  }

  /** The other operand, at |h|, and the operands of the nodes are lighter than the node was. */
  lemma LeftFits(h: Heap, rank: Rank, p: nat, op: Op, l: nat, m: Label, s: nat, h': Heap, rank': Rank)
      returns (x0: nat, x1: nat, y: nat)
    requires LeftStep(h, rank, p, op, l, m, s, h', rank') && Valid(h', rank')
    requires LightBelow(h, rank, h', rank', LeftPlan(rank, p, l, s), Height(rank, h[p].term) - 1)
    ensures LessAt(h, rank, p, h', rank', |h|)
    ensures Masses(h', rank', x0, y, x1, y, |h| + 1) && Fitting(x0, y, x1, y, Mass(h, rank, h[p].term))
  {
    x0, x1, y := LeftMasses(h, rank, p, op, l, m, s, h', rank');
    OverLeft(h, rank, p, op, l, m, s);
    DistributedLess(Mass(h, rank, h[s].term), Mass(h, rank, h[s + 1].term), Mass(h, rank, h[l + 1].term), x0, x1, y);
  }

  lemma LeftLightens(h: Heap, rank: Rank, p: nat, op: Op, l: nat, m: Label, s: nat, h': Heap, rank': Rank)
    requires LeftStep(h, rank, p, op, l, m, s, h', rank') && Valid(h', rank')
    requires LightBelow(h, rank, h', rank', LeftPlan(rank, p, l, s), Height(rank, h[p].term) - 1)
    ensures Lightens(h, rank, p, h', rank', p)
  {
    LeftSlots(h, rank, p, op, l, m, s, h', rank');
    var x0, x1, y := LeftFits(h, rank, p, op, l, m, s, h', rank');
    BranchesLess(h, rank, p, op, m, h', rank', |h| + 1, x0, y, x1, y, Mass(h, rank, h[p].term));
  }

  lemma RightSlots(h: Heap, rank: Rank, p: nat, op: Op, l: nat, m: Label, s: nat, h': Heap, rank': Rank)
    requires RightStep(h, rank, p, op, l, m, s, h', rank') && Valid(h', rank')
    ensures var n := |h|;
      Branches(h', rank', p, op, m, n + 4, n, n + 2) && (forall c: nat :: c in rank' && c >= n ==> c <= n + 5)
    ensures var (n, plan, k) := (|h|, RightPlan(rank, p, l, s), Height(rank, h[p].term) - 1);
      Source(plan, n, n + 1) == s && Source(plan, n, n + 3) == s + 1 && rank[s] <= k && rank[s + 1] <= k
  {
    var n := |h|;
    assert n in rank' && n + 1 in rank' && n + 2 in rank' && n + 3 in rank' && n + 4 in rank' && n + 5 in rank';
    LivePair(h, rank, p, l + 1);
  }

  /** A distribution on the right copies the atom on the left. */
  lemma RightMasses(h: Heap, rank: Rank, p: nat, op: Op, l: nat, m: Label, s: nat, h': Heap, rank': Rank)
      returns (x0: nat, x1: nat)
    requires RightStep(h, rank, p, op, l, m, s, h', rank') && Valid(h', rank') && Atom(h[l].term)
    requires LightBelow(h, rank, h', rank', RightPlan(rank, p, l, s), Height(rank, h[p].term) - 1)
    ensures 2 <= x0 <= Mass(h, rank, h[s].term) && 2 <= x1 <= Mass(h, rank, h[s + 1].term)
    ensures Masses(h', rank', 2, x0, 2, x1, |h|)
  {
    var (n, plan, k) := (|h|, RightPlan(rank, p, l, s), Height(rank, h[p].term) - 1);
    RightSlots(h, rank, p, op, l, m, s, h', rank');
    LightBack(h, rank, h', rank', plan, n + 1, s, k);
    LightBack(h, rank, h', rank', plan, n + 3, s + 1, k);
    Live(h', rank', n);
    Live(h', rank', n + 2);
    x0, x1 := Mass(h', rank', h'[n + 1].term), Mass(h', rank', h'[n + 3].term);
  }

  lemma OverRight(h: Heap, rank: Rank, p: nat, op: Op, l: nat, m: Label, s: nat)
    requires Node(h, rank, p, Bin(op, l)) && h[l + 1].term == Sup(m, s) && Atom(h[l].term)
    requires RankedAt(h, rank, s) && RankedAt(h, rank, s + 1)
    ensures Mass(h, rank, h[p].term) == 2 * (1 + Mass(h, rank, h[s].term) + Mass(h, rank, h[s + 1].term))
  {
    IsNodeWeight(h, rank, h[p].term);
    IsNodeWeight(h, rank, h[l + 1].term);
  }

  lemma RightLightens(h: Heap, rank: Rank, p: nat, op: Op, l: nat, m: Label, s: nat, h': Heap, rank': Rank)
    requires RightStep(h, rank, p, op, l, m, s, h', rank') && Valid(h', rank') && Atom(h[l].term)
    requires LightBelow(h, rank, h', rank', RightPlan(rank, p, l, s), Height(rank, h[p].term) - 1)
    ensures Lightens(h, rank, p, h', rank', p)
  {
    RightSlots(h, rank, p, op, l, m, s, h', rank');
    var x0, x1 := RightMasses(h, rank, p, op, l, m, s, h', rank');
    OverRight(h, rank, p, op, l, m, s);
    BranchesLess(h, rank, p, op, m, h', rank', |h|, 2, x0, 2, x1, Mass(h, rank, h[p].term));
  }

  // ------------------------------------------------- lift an INC out of an EQL

  /** Masses after an INC has been lifted out of a node. */
  lemma LiftedLess(x: nat, y: nat, x': nat, y': nat)
    requires 2 <= x' <= x && 2 <= y' <= y
    ensures 1 + x' * y' < (1 + x) * y && 1 + x' * y' < x * (1 + y)
    ensures x' < (1 + x) * y && y' < (1 + x) * y && x' < x * (1 + y) && y' < x * (1 + y)
  {
    ProductOrder(x, y, x', y');
    ProductGrows(x, y);
    assert (1 + x) * y == y + x * y && x * (1 + y) == x + x * y;
  }

  lemma OverInc(h: Heap, rank: Rank, p: nat, l: nat, i: nat, x: nat, y: nat, a: nat, b: nat)
    requires Node(h, rank, p, Bin(Eql, l)) && RankedAt(h, rank, i)
    requires (x == i && y == l + 1 && h[l].term == Inc(i)) || (x == l && y == i && h[l + 1].term == Inc(i))
    requires a == Mass(h, rank, h[x].term) && b == Mass(h, rank, h[y].term)
    ensures Mass(h, rank, h[p].term) == (1 + a) * b || Mass(h, rank, h[p].term) == a * (1 + b)
  {
    IsNodeWeight(h, rank, h[p].term);
  }

  lemma LiftMasses(h: Heap, rank: Rank, p: nat, l: nat, i: nat, x: nat, y: nat, h': Heap, rank': Rank)
      returns (a: nat, b: nat)
    requires LiftStep(h, rank, p, l, i, x, y, h', rank') && Valid(h', rank')
    requires LightBelow(h, rank, h', rank', LiftPlan(rank, p, l, i, x, y), Height(rank, h[p].term) - 1)
    ensures RankedAt(h', rank', |h|) && RankedAt(h', rank', |h| + 1)
    ensures 2 <= a <= Mass(h, rank, h[x].term) && a == Mass(h', rank', h'[|h|].term)
    ensures 2 <= b <= Mass(h, rank, h[y].term) && b == Mass(h', rank', h'[|h| + 1].term)
    ensures RankedAt(h', rank', p) && Mass(h', rank', h'[p].term) == 1 + a * b
    ensures RankedAt(h', rank', |h| + 2) && Mass(h', rank', h'[|h| + 2].term) == a * b
  {
    var (n, plan, k) := (|h|, LiftPlan(rank, p, l, i, x, y), Height(rank, h[p].term) - 1);
    assert n in rank' && n + 1 in rank' && n + 2 in rank';
    LightBack(h, rank, h', rank', plan, n, x, k);
    LightBack(h, rank, h', rank', plan, n + 1, y, k);
    Live(h', rank', p);
    Live(h', rank', n + 2);
    a, b := Mass(h', rank', h'[n].term), Mass(h', rank', h'[n + 1].term);
    IsNodeWeight(h', rank', h'[n + 2].term);
  }

  /** None of the slots the rule fills reaches the mass of the node. */
  lemma LiftLess(h: Heap, rank: Rank, p: nat, l: nat, i: nat, x: nat, y: nat, h': Heap, rank': Rank)
    requires LiftStep(h, rank, p, l, i, x, y, h', rank') && Valid(h', rank')
    requires LightBelow(h, rank, h', rank', LiftPlan(rank, p, l, i, x, y), Height(rank, h[p].term) - 1)
    ensures LessAt(h, rank, p, h', rank', p) && LessAt(h, rank, p, h', rank', |h|)
    ensures LessAt(h, rank, p, h', rank', |h| + 1) && LessAt(h, rank, p, h', rank', |h| + 2)
  {
    var a, b := LiftMasses(h, rank, p, l, i, x, y, h', rank');
    var (a0, b0) := (Mass(h, rank, h[x].term), Mass(h, rank, h[y].term));
    OverInc(h, rank, p, l, i, x, y, a0, b0);
    LiftedLess(a0, b0, a, b);
  }

  lemma LiftLightens(h: Heap, rank: Rank, p: nat, l: nat, i: nat, x: nat, y: nat, h': Heap, rank': Rank)
    requires LiftStep(h, rank, p, l, i, x, y, h', rank') && Valid(h', rank')
    requires LightBelow(h, rank, h', rank', LiftPlan(rank, p, l, i, x, y), Height(rank, h[p].term) - 1)
    ensures Lightens(h, rank, p, h', rank', p)
  {
    LiftLess(h, rank, p, l, i, x, y, h', rank');
    forall c: nat | c in rank' && (c == p || c >= |h|) ensures LessAt(h, rank, p, h', rank', c) {
      assert c == p || c == |h| || c == |h| + 1 || c == |h| + 2;
    }
  }

  // ------------------------------------------------------------------- answers

  lemma ForwardLightens(h: Heap, rank: Rank, p: nat, t: Term, q: nat, h': Heap, rank': Rank)
    requires ForwardStep(h, rank, p, t, q, h', rank') && Valid(h', rank')
    requires LightBelow(h, rank, h', rank', ForwardPlan(p, t, q), Height(rank, h[p].term) - 1)
    ensures Lightens(h, rank, p, h', rank', p)
  {
    LightBack(h, rank, h', rank', ForwardPlan(p, t, q), p, q, Height(rank, t) - 1);
    if Size(t) == 2 {
      IsNodeWeight(h, rank, t);
      SlotsLess(t, WeightOf(h, rank, h[t.loc].term), WeightOf(h, rank, h[t.loc + 1].term));
    } else {
      IncWeight(h, rank, t, WeightOf(h, rank, h[t.loc].term));
    }
  }

  lemma AnswerLightens(h: Heap, rank: Rank, p: nat, op: Op, l: nat, a: Term, h': Heap, rank': Rank)
    requires AnswerStep(h, rank, p, op, l, a, h', rank') && Valid(h', rank')
    ensures Lightens(h, rank, p, h', rank', p)
  {
    Live(h', rank', p);
    IsNodeWeight(h, rank, h[p].term);
    SlotsLess(h[p].term, WeightOf(h, rank, h[l].term), WeightOf(h, rank, h[l + 1].term));
  }
}
