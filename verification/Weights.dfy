/** How heavy a word is: a pair of numbers that no interaction raises anywhere and that
    every interaction lowers at the redex. Looking through a DUP port does not change
    the mass, so only the load pays for pushing a DUP further down. */
module Weights {
  import opened Nets
  import opened Patches
  import opened Keeping

  datatype Weight = Weight(mass: nat, load: nat)

  predicate Less(w: Weight, v: Weight) { w.mass < v.mass || (w.mass == v.mass && w.load < v.load) }

  predicate NoMore(w: Weight, v: Weight) { w.mass < v.mass || (w.mass == v.mass && w.load <= v.load) }

  ghost function Mass(h: Heap, rank: Rank, t: Term): (n: nat)
    requires Ranked(h, rank) && Good(rank, t)
    ensures n >= 2
    decreases Height(rank, t)
  {
    match t
    case Sup(_, s) =>
      Live(h, rank, s);
      Live(h, rank, s + 1);
      1 + Mass(h, rank, h[s].term) + Mass(h, rank, h[s + 1].term)
    case Dp(_, _, d) =>
      Live(h, rank, d);
      Mass(h, rank, h[d].term)
    case Bin(_, n) =>
      Live(h, rank, n);
      Live(h, rank, n + 1);
      ProductGrows(Mass(h, rank, h[n].term), Mass(h, rank, h[n + 1].term));
      Mass(h, rank, h[n].term) * Mass(h, rank, h[n + 1].term)
    case Inc(n) =>
      Live(h, rank, n);
      1 + Mass(h, rank, h[n].term)
    case _ => 2
  }

  ghost function Load(h: Heap, rank: Rank, t: Term): (n: nat)
    requires Ranked(h, rank) && Good(rank, t)
    ensures n >= 1
    decreases Height(rank, t)
  {
    match t
    case Sup(_, s) =>
      Live(h, rank, s);
      Live(h, rank, s + 1);
      1 + Load(h, rank, h[s].term) + Load(h, rank, h[s + 1].term)
    case Dp(_, _, d) =>
      Live(h, rank, d);
      if h[d].sub then 1 + Load(h, rank, h[d].term) else 2 * Load(h, rank, h[d].term)
    case Bin(_, n) =>
      Live(h, rank, n);
      Live(h, rank, n + 1);
      1 + Load(h, rank, h[n].term) + Load(h, rank, h[n + 1].term)
    case Inc(n) =>
      Live(h, rank, n);
      1 + Load(h, rank, h[n].term)
    case _ => 1
  }

  ghost function WeightOf(h: Heap, rank: Rank, t: Term): (w: Weight)
    requires Ranked(h, rank) && Good(rank, t)
    ensures w.mass >= 2 && w.load >= 1
  {
    Weight(Mass(h, rank, t), Load(h, rank, t))
  }

  lemma ProductGrows(a: nat, b: nat)
    requires a >= 2 && b >= 2
    ensures a * b >= 2 * a && a * b >= 2 * b && a * b >= 4
  {
  }

  lemma ProductOrder(a: nat, b: nat, a': nat, b': nat)
    requires 2 <= a' <= a && 2 <= b' <= b
    ensures a' * b' <= a * b && (a' < a || b' < b ==> a' * b' < a * b)
  {
    assert a' * b' <= a * b' by { MulOrder(a', a, b'); }
    assert a * b' <= a * b by { MulOrder(b', b, a); }
    if a' < a { MulOrder(a' + 1, a, b'); }
    if b' < b { MulOrder(b' + 1, b, a); }
  }

  lemma MulOrder(x: nat, y: nat, n: nat)
    requires x <= y
    ensures x * n <= y * n
  {
  }

  // ------------------------------------------------------ weights of nodes

  lemma SupWeight(h: Heap, rank: Rank, t: Term, w0: Weight, w1: Weight)
    requires Ranked(h, rank) && Good(rank, t) && t.Sup? && RankedAt(h, rank, t.loc) && RankedAt(h, rank, t.loc + 1)
    requires w0 == WeightOf(h, rank, h[t.loc].term) && w1 == WeightOf(h, rank, h[t.loc + 1].term)
    ensures WeightOf(h, rank, t) == Weight(1 + w0.mass + w1.mass, 1 + w0.load + w1.load)
  {
  }

  lemma BinWeight(h: Heap, rank: Rank, t: Term, w0: Weight, w1: Weight)
    requires Ranked(h, rank) && Good(rank, t) && t.Bin? && RankedAt(h, rank, t.loc) && RankedAt(h, rank, t.loc + 1)
    requires w0 == WeightOf(h, rank, h[t.loc].term) && w1 == WeightOf(h, rank, h[t.loc + 1].term)
    ensures WeightOf(h, rank, t) == Weight(w0.mass * w1.mass, 1 + w0.load + w1.load)
  {
  }

  lemma PortWeight(h: Heap, rank: Rank, t: Term, w: Weight)
    requires Ranked(h, rank) && Good(rank, t) && t.Dp? && RankedAt(h, rank, t.loc)
    requires w == WeightOf(h, rank, h[t.loc].term)
    ensures WeightOf(h, rank, t) == Weight(w.mass, if h[t.loc].sub then 1 + w.load else 2 * w.load)
  {
  }

  lemma IncWeight(h: Heap, rank: Rank, t: Term, w: Weight)
    requires Ranked(h, rank) && Good(rank, t) && t.Inc? && RankedAt(h, rank, t.loc)
    requires w == WeightOf(h, rank, h[t.loc].term)
    ensures WeightOf(h, rank, t) == Weight(1 + w.mass, 1 + w.load)
  {
  }

  /** Weights depend on the heap alone, not on the ghost ranks. */
  lemma {:induction false} WeightOfHeap(h: Heap, rank: Rank, rank': Rank, t: Term)
    requires Ranked(h, rank) && Ranked(h, rank') && Good(rank, t) && Good(rank', t)
    ensures WeightOf(h, rank, t) == WeightOf(h, rank', t)
    decreases Height(rank, t)
  {
    if !Atom(t) {
      Live(h, rank, t.loc);
      Live(h, rank', t.loc);
      WeightOfHeap(h, rank, rank', h[t.loc].term);
      if Size(t) == 2 {
        Live(h, rank, t.loc + 1);
        Live(h, rank', t.loc + 1);
        WeightOfHeap(h, rank, rank', h[t.loc + 1].term);
      }
    }
  }

  // --------------------------------------------- surviving words get no heavier

  ghost predicate LightAt(h: Heap, rank: Rank, h': Heap, rank': Rank, plan: Plan, c: nat)
    requires Ranked(h, rank) && Ranked(h', rank')
  {
    var o := Source(plan, |h|, c);
    c in rank' && RankedAt(h', rank', c) && o >= 0 && o in rank && RankedAt(h, rank, o) ==>
      NoMore(WeightOf(h', rank', h'[c].term), WeightOf(h, rank, h[o].term))
  }

  /** No surviving word of height at most k is heavier than it was. */
  ghost predicate LightBelow(h: Heap, rank: Rank, h': Heap, rank': Rank, plan: Plan, k: int)
    requires Ranked(h, rank) && Ranked(h', rank')
  {
    forall c: nat {:trigger LightAt(h, rank, h', rank', plan, c)} ::
      Low(h, rank, plan, c, k) ==> LightAt(h, rank, h', rank', plan, c)
  }

  /** Neither is the redex in slot p nor the other port of its DUP cell. */
  ghost predicate RedexLight(h: Heap, rank: Rank, p: nat, h': Heap, rank': Rank)
    requires Ranked(h, rank) && Ranked(h', rank')
  {
    RankedAt(h, rank, p) && RankedAt(h', rank', p) &&
    NoMore(WeightOf(h', rank', h'[p].term), WeightOf(h, rank, h[p].term)) &&
    (h[p].term.Dp? && h[p].term.loc in rank' ==>
       var port := h[p].term.(side := !h[p].term.side);
       NoMore(WeightOf(h', rank', port), WeightOf(h, rank, port)))
  }

  /** The word in slot x, which a surviving word of height k + 1 reads. */
  lemma LightSlot(h: Heap, rank: Rank, p: nat, h': Heap, rank': Rank, plan: Plan, spare: nat, x: nat, k: nat)
    requires Patched(h, rank, p, h', rank', plan, spare) && Valid(h', rank')
    requires x in rank && x in rank' && x != spare && rank[x] <= k && (x != p ==> x != plan.d)
    requires LightBelow(h, rank, h', rank', plan, k)
    requires x == p ==> RedexLight(h, rank, p, h', rank')
    ensures RankedAt(h, rank, x) && RankedAt(h', rank', x)
    ensures NoMore(WeightOf(h', rank', h'[x].term), WeightOf(h, rank, h[x].term))
  {
    Live(h, rank, x);
    Live(h', rank', x);
    if x != p { assert LightAt(h, rank, h', rank', plan, x); }
  }

  /** A node whose slots are no heavier is no heavier. */
  lemma LightNode(h: Heap, rank: Rank, h': Heap, rank': Rank, t: Term)
    requires Ranked(h, rank) && Ranked(h', rank') && Good(rank, t) && Good(rank', t) && Size(t) == 2
    requires RankedAt(h, rank, t.loc) && RankedAt(h', rank', t.loc) && RankedAt(h, rank, t.loc + 1) &&
      RankedAt(h', rank', t.loc + 1)
    requires NoMore(WeightOf(h', rank', h'[t.loc].term), WeightOf(h, rank, h[t.loc].term))
    requires NoMore(WeightOf(h', rank', h'[t.loc + 1].term), WeightOf(h, rank, h[t.loc + 1].term))
    ensures NoMore(WeightOf(h', rank', t), WeightOf(h, rank, t))
  {
    var (w0, w1) := (WeightOf(h, rank, h[t.loc].term), WeightOf(h, rank, h[t.loc + 1].term));
    var (v0, v1) := (WeightOf(h', rank', h'[t.loc].term), WeightOf(h', rank', h'[t.loc + 1].term));
    if t.Sup? {
      SupWeight(h, rank, t, w0, w1);
      SupWeight(h', rank', t, v0, v1);
    } else {
      BinWeight(h, rank, t, w0, w1);
      BinWeight(h', rank', t, v0, v1);
      ProductOrder(w0.mass, w1.mass, v0.mass, v1.mass);
    }
  }

  lemma LightOne(h: Heap, rank: Rank, p: nat, h': Heap, rank': Rank, plan: Plan, spare: nat, c: nat, k: nat)
    requires Patched(h, rank, p, h', rank', plan, spare) && Valid(h', rank')
    requires c in rank' && Low(h, rank, plan, c, k + 1)
    requires LightBelow(h, rank, h', rank', plan, k)
    requires RankedAt(h, rank, p) && Height(rank, h[p].term) <= k + 1 ==> RedexLight(h, rank, p, h', rank')
    ensures LightAt(h, rank, h', rank', plan, c)
  {
    var o := Source(plan, |h|, c);
    assert Placed(h, rank, p, h', rank', plan, c, spare);
    Live(h, rank, o);
    Live(h', rank', c);
    Live(h, rank, p);
    LivePair(h, rank, o, p);
    var u := h[o].term;
    if u.Dp? && h[p].term.Dp? && h[p].term.loc == u.loc {
      Live(h, rank, u.loc);
      Live(h', rank', u.loc);
    } else if !Atom(u) {
      LightSlot(h, rank, p, h', rank', plan, spare, u.loc, k);
      if Size(u) == 2 {
        LightSlot(h, rank, p, h', rank', plan, spare, u.loc + 1, k);
        LightNode(h, rank, h', rank', u);
      } else {
        LightChild(h, rank, h', rank', u);
      }
    }
  }

  lemma LightChild(h: Heap, rank: Rank, h': Heap, rank': Rank, t: Term)
    requires Ranked(h, rank) && Ranked(h', rank') && Good(rank, t) && Good(rank', t) && Size(t) == 1
    requires RankedAt(h, rank, t.loc) && RankedAt(h', rank', t.loc) && (t.Dp? ==> h'[t.loc].sub == h[t.loc].sub)
    requires NoMore(WeightOf(h', rank', h'[t.loc].term), WeightOf(h, rank, h[t.loc].term))
    ensures NoMore(WeightOf(h', rank', t), WeightOf(h, rank, t))
  {
    var (w, v) := (WeightOf(h, rank, h[t.loc].term), WeightOf(h', rank', h'[t.loc].term));
    if t.Dp? {
      PortWeight(h, rank, t, w);
      PortWeight(h', rank', t, v);
    } else {
      IncWeight(h, rank, t, w);
      IncWeight(h', rank', t, v);
    }
  }

  /** Induction on the height of the surviving words. */
  lemma LightAll(h: Heap, rank: Rank, p: nat, h': Heap, rank': Rank, plan: Plan, spare: nat, k: nat)
    requires Patched(h, rank, p, h', rank', plan, spare) && Valid(h', rank') && RankedAt(h, rank, p)
    requires LightBelow(h, rank, h', rank', plan, Height(rank, h[p].term) - 1) ==> RedexLight(h, rank, p, h', rank')
    ensures LightBelow(h, rank, h', rank', plan, k)
  {
    if k > 0 { LightAll(h, rank, p, h', rank', plan, spare, k - 1); }
    forall c: nat | Low(h, rank, plan, c, k) ensures LightAt(h, rank, h', rank', plan, c) {
      if c in rank' {
        assert Placed(h, rank, p, h', rank', plan, c, spare);
        if k > 0 { LightOne(h, rank, p, h', rank', plan, spare, c, k - 1); }
      }
    }
  }

  /** The word that now sits in slot c and came from slot o. */
  lemma LightBack(h: Heap, rank: Rank, h': Heap, rank': Rank, plan: Plan, c: nat, o: nat, k: nat)
    requires Valid(h, rank) && Valid(h', rank') && c in rank' && o in rank
    requires Source(plan, |h|, c) == o && rank[o] <= k
    requires LightBelow(h, rank, h', rank', plan, k)
    ensures RankedAt(h, rank, o) && RankedAt(h', rank', c)
    ensures NoMore(WeightOf(h', rank', h'[c].term), WeightOf(h, rank, h[o].term))
  {
    Live(h, rank, o);
    Live(h', rank', c);
    assert LightAt(h, rank, h', rank', plan, c);
  }
}
