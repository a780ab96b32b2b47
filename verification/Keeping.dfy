/** A rewiring keeps the meaning of every surviving word as soon as it keeps the
    meaning of the redex itself and of the sibling port. What is left to show for
    each rule is its own equation, not the rest of the net around it. */
module Keeping {
  import opened Streams
  import opened Nets
  import opened Patches

  ghost predicate KeptAt(h: Heap, rank: Rank, h': Heap, rank': Rank, plan: Plan, c: nat, env: Env)
    requires Ranked(h, rank) && Ranked(h', rank')
  {
    var o := Source(plan, |h|, c);
    c in rank' && RankedAt(h', rank', c) && o >= 0 && o in rank && RankedAt(h, rank, o) ==>
      Meaning(h', rank', h'[c].term, env) == Meaning(h, rank, h[o].term, env)
  }

  ghost predicate Low(h: Heap, rank: Rank, plan: Plan, c: nat, k: int) {
    var o := Source(plan, |h|, c);
    o >= 0 && o in rank && RankedAt(h, rank, o) && Height(rank, h[o].term) <= k
  }

  /** Every surviving word of height at most k keeps its meaning. */
  ghost predicate KeptBelow(h: Heap, rank: Rank, h': Heap, rank': Rank, plan: Plan, k: int)
    requires Ranked(h, rank) && Ranked(h', rank')
  {
    forall c: nat, env: Env {:trigger KeptAt(h, rank, h', rank', plan, c, env)} ::
      Low(h, rank, plan, c, k) ==> KeptAt(h, rank, h', rank', plan, c, env)
  }

  /** The redex in slot p, and the other port of its DUP cell, mean the same. */
  ghost predicate FaithfulIn(h: Heap, rank: Rank, p: nat, h': Heap, rank': Rank, env: Env)
    requires Ranked(h, rank) && Ranked(h', rank')
  {
    RankedAt(h, rank, p) && RankedAt(h', rank', p) &&
    Meaning(h', rank', h'[p].term, env) == Meaning(h, rank, h[p].term, env) &&
    (h[p].term.Dp? && h[p].term.loc in rank' ==>
       var port := h[p].term.(side := !h[p].term.side);
       Meaning(h', rank', port, env) == Meaning(h, rank, port, env))
  }

  ghost predicate Faithful(h: Heap, rank: Rank, p: nat, h': Heap, rank': Rank)
    requires Ranked(h, rank) && Ranked(h', rank')
  {
    forall env: Env {:trigger FaithfulIn(h, rank, p, h', rank', env)} ::
      FaithfulIn(h, rank, p, h', rank', env)
  }

  /** The word in slot x, which a surviving word of height k + 1 reads. */
  lemma ReadSlot(h: Heap, rank: Rank, p: nat, h': Heap, rank': Rank, plan: Plan, spare: nat,
                 x: nat, k: nat, env: Env)
    requires Patched(h, rank, p, h', rank', plan, spare) && Valid(h', rank')
    requires x in rank && x in rank' && x != spare && rank[x] <= k && (x != p ==> x != plan.d)
    requires KeptBelow(h, rank, h', rank', plan, k)
    requires x == p ==> Faithful(h, rank, p, h', rank')
    ensures RankedAt(h, rank, x) && RankedAt(h', rank', x)
    ensures Meaning(h', rank', h'[x].term, env) == Meaning(h, rank, h[x].term, env)
  {
    Live(h, rank, x);
    Live(h', rank', x);
    if x == p {
      assert FaithfulIn(h, rank, p, h', rank', env);
    } else {
      assert KeptAt(h, rank, h', rank', plan, x, env);
    }
  }

  lemma KeepOne(h: Heap, rank: Rank, p: nat, h': Heap, rank': Rank, plan: Plan, spare: nat,
                c: nat, k: nat, env: Env)
    requires Patched(h, rank, p, h', rank', plan, spare) && Valid(h', rank')
    requires c in rank' && Low(h, rank, plan, c, k + 1)
    requires KeptBelow(h, rank, h', rank', plan, k)
    requires RankedAt(h, rank, p) && Height(rank, h[p].term) <= k + 1 ==> Faithful(h, rank, p, h', rank')
    ensures KeptAt(h, rank, h', rank', plan, c, env)
  {
    var o := Source(plan, |h|, c);
    assert Placed(h, rank, p, h', rank', plan, c, spare);
    Live(h, rank, o);
    Live(h', rank', c);
    Live(h, rank, p);
    LivePair(h, rank, o, p);
    var u := h[o].term;
    match u
    case Num(_) =>
    case Era =>
    case Any =>
    case Sup(lab, s) =>
      var x := if Top(env, lab) then s + 1 else s;
      ReadSlot(h, rank, p, h', rank', plan, spare, x, k, Pop(env, lab));
    case Dp(side, lab, d) =>
      Live(h, rank, d);
      Live(h', rank', d);
      if h[p].term.Dp? && h[p].term.loc == d {
        assert FaithfulIn(h, rank, p, h', rank', env);
      } else {
        ReadSlot(h, rank, p, h', rank', plan, spare, d, k, if h[d].sub then env else Push(env, lab, side));
      }
    case Bin(op, n) =>
      ReadSlot(h, rank, p, h', rank', plan, spare, n, k, env);
      ReadSlot(h, rank, p, h', rank', plan, spare, n + 1, k, env);
    case Inc(n) =>
      ReadSlot(h, rank, p, h', rank', plan, spare, n, k, env);
  }

  /** Induction on the height of the surviving words. */
  lemma KeepAll(h: Heap, rank: Rank, p: nat, h': Heap, rank': Rank, plan: Plan, spare: nat, k: nat)
    requires Patched(h, rank, p, h', rank', plan, spare) && Valid(h', rank')
    requires RankedAt(h, rank, p)
    requires KeptBelow(h, rank, h', rank', plan, Height(rank, h[p].term) - 1) ==> Faithful(h, rank, p, h', rank')
    ensures KeptBelow(h, rank, h', rank', plan, k)
  {
    if k > 0 {
      KeepAll(h, rank, p, h', rank', plan, spare, k - 1);
      forall c: nat, env: Env | Low(h, rank, plan, c, k)
        ensures KeptAt(h, rank, h', rank', plan, c, env)
      {
        if c in rank' { KeepOne(h, rank, p, h', rank', plan, spare, c, k - 1, env); }
      }
    } else {
      forall c: nat, env: Env | Low(h, rank, plan, c, k)
        ensures KeptAt(h, rank, h', rank', plan, c, env)
      {
        if c in rank' { assert Placed(h, rank, p, h', rank', plan, c, spare); }
      }
    }
  }

  ghost predicate SameBut(h: Heap, h': Heap, p: nat, d: nat) {
    p < |h| && d < |h| <= |h'| &&
    forall c {:trigger h'[c]} :: 0 <= c < |h| && c != p && c != d ==> h'[c] == h[c]
  }

  /** The word that now sits in slot c and came from slot o. */
  lemma ReadBack(h: Heap, rank: Rank, h': Heap, rank': Rank, plan: Plan, c: nat, o: nat, k: nat, env: Env)
    requires Valid(h, rank) && Valid(h', rank') && c in rank' && o in rank
    requires Source(plan, |h|, c) == o && rank[o] <= k
    requires KeptBelow(h, rank, h', rank', plan, k)
    ensures RankedAt(h, rank, o) && RankedAt(h', rank', c)
    ensures Meaning(h', rank', h'[c].term, env) == Meaning(h, rank, h[o].term, env)
  {
    Live(h, rank, o);
    Live(h', rank', c);
    assert KeptAt(h, rank, h', rank', plan, c, env);
  }

  /** Slot q holds a port of an unfired DUP cell whose body came from slot o. */
  lemma PortRead(h: Heap, rank: Rank, h': Heap, rank': Rank, plan: Plan,
                 q: nat, x: bool, lab: Label, c: nat, o: nat, k: nat, env: Env)
    requires Valid(h, rank) && Valid(h', rank') && c in rank' && o in rank
    requires Source(plan, |h|, c) == o && rank[o] <= k
    requires KeptBelow(h, rank, h', rank', plan, k)
    requires q in rank' && q < |h'| && c < |h'| && h'[q].term == Dp(x, lab, c) && !h'[c].sub
    ensures RankedAt(h, rank, o) && RankedAt(h', rank', q)
    ensures Meaning(h', rank', h'[q].term, env) == Meaning(h, rank, h[o].term, Push(env, lab, x))
  {
    Live(h', rank', q);
    ReadBack(h, rank, h', rank', plan, c, o, k, Push(env, lab, x));
  }
}
