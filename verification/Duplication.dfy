/** The DUP rules: each one rewires the net as its plan says, and keeps the
    meaning of the port that fires and of its sibling. The firing port leaves the
    sibling's value in the cell; commutation reuses a slot of the SUP. */
module Duplication {
  import opened Streams
  import opened Nets
  import opened Rules
  import opened Patches
  import opened Keeping

  /** Slot p holds a port of the DUP cell d. */
  ghost predicate Port(h: Heap, rank: Rank, p: nat, side: bool, lab: Label, d: nat) {
    Valid(h, rank) && p in rank && RankedAt(h, rank, p) && h[p].term == Dp(side, lab, d) &&
    RankedAt(h, rank, d)
  }

  /** Slots r and r + 1 hold the ports `x` of two unfired DUP cells, c and c',
      whose bodies came from the slots s and s + 1. */
  ghost predicate PortPair(h: Heap, rank: Rank, h': Heap, rank': Rank, plan: Plan,
                           r: nat, x: bool, lab: Label, c: nat, c': nat, s: nat, k: nat) {
    Valid(h, rank) && Valid(h', rank') && KeptBelow(h, rank, h', rank', plan, k) &&
    r + 1 < |h'| && c < |h'| && c' < |h'| && r in rank' && r + 1 in rank' && c in rank' && c' in rank' &&
    h'[r] == Plain(Dp(x, lab, c)) && h'[r + 1] == Plain(Dp(x, lab, c')) && !h'[c].sub && !h'[c'].sub &&
    RankedAt(h, rank, s) && RankedAt(h, rank, s + 1) && rank[s] <= k && rank[s + 1] <= k &&
    Source(plan, |h|, c) == s && Source(plan, |h|, c') == s + 1
  }

  /** A SUP over such a pair means what the old SUP meant behind the port. */
  lemma SupRead(h: Heap, rank: Rank, h': Heap, rank': Rank, plan: Plan,
                m: Label, r: nat, x: bool, lab: Label, c: nat, c': nat, s: nat, k: nat, env: Env)
    requires PortPair(h, rank, h', rank', plan, r, x, lab, c, c', s, k) && m != lab
    ensures Meaning(h', rank', Sup(m, r), env) == Meaning(h, rank, Sup(m, s), Push(env, lab, x))
  {
    var inner := Pop(env, m);
    PushPopCommute(env, lab, m, x);
    if Top(env, m) {
      PortRead(h, rank, h', rank', plan, r + 1, x, lab, c', s + 1, k, inner);
    } else {
      PortRead(h, rank, h', rank', plan, r, x, lab, c, s, k, inner);
    }
  }

  /** A two-slot node over such a pair means what the old node meant behind the port. */
  lemma BinRead(h: Heap, rank: Rank, h': Heap, rank': Rank, plan: Plan,
                op: Op, r: nat, x: bool, lab: Label, c: nat, c': nat, s: nat, k: nat, env: Env)
    requires PortPair(h, rank, h', rank', plan, r, x, lab, c, c', s, k)
    ensures Meaning(h', rank', Bin(op, r), env) == Meaning(h, rank, Bin(op, s), Push(env, lab, x))
  {
    PortRead(h, rank, h', rank', plan, r, x, lab, c, s, k, env);
    PortRead(h, rank, h', rank', plan, r + 1, x, lab, c', s + 1, k, env);
  }

  // ------------------------------------------------------------ SUB pickup

  ghost function TakePlan(p: nat, d: nat): Plan { Plan({d}, [], [], p, d, p, d) }

  ghost predicate TakeTo(h: Heap, p: nat, d: nat, h': Heap) {
    SameBut(h, h', p, p) && d < |h| && |h'| == |h| && h'[p] == Cell(h[d].term, h[p].sub)
  }

  lemma TakePatched(h: Heap, rank: Rank, p: nat, side: bool, lab: Label, d: nat, h': Heap, rank': Rank)
    requires Port(h, rank, p, side, lab, d) && h[d].sub && TakeTo(h, p, d, h')
    requires Regrown(rank, rank', |h|, TakePlan(p, d))
    ensures Patched(h, rank, p, h', rank', TakePlan(p, d), |h|)
  {
    var (n, plan) := (|h|, TakePlan(p, d));
    forall c | c in rank' ensures Placed(h, rank, p, h', rank', plan, c, n) {
      var o := Source(plan, n, c);
      Live(h, rank, o);
      LivePair(h, rank, o, p);
    }
  }

  lemma TakeFaithful(h: Heap, rank: Rank, p: nat, side: bool, lab: Label, d: nat, h': Heap, rank': Rank)
    requires Port(h, rank, p, side, lab, d) && h[d].sub && TakeTo(h, p, d, h')
    requires Regrown(rank, rank', |h|, TakePlan(p, d)) && Valid(h', rank')
    requires KeptBelow(h, rank, h', rank', TakePlan(p, d), Height(rank, h[p].term) - 1)
    ensures Faithful(h, rank, p, h', rank')
  {
    forall env: Env ensures FaithfulIn(h, rank, p, h', rank', env) {
      ReadBack(h, rank, h', rank', TakePlan(p, d), p, d, rank[d], env);
    }
  }

  // ---------------------------------------------------------- annihilation

  ghost function AnnihilatePlan(p: nat, side: bool, d: nat, s: nat): Plan {
    var (mine, other) := if side then (s + 1, s) else (s, s + 1);
    Plan({s, s + 1}, [], [], p, mine, d, other)
  }

  ghost predicate AnnihilateTo(h: Heap, p: nat, side: bool, d: nat, s: nat, h': Heap) {
    SameBut(h, h', p, d) && s + 1 < |h| && |h'| == |h| &&
    (var (mine, other) := if side then (s + 1, s) else (s, s + 1);
     h'[p] == Cell(h[mine].term, h[p].sub) && h'[d] == Cell(h[other].term, true))
  }

  lemma AnnihilatePatched(h: Heap, rank: Rank, p: nat, side: bool, lab: Label, d: nat, s: nat, h': Heap, rank': Rank)
    requires Port(h, rank, p, side, lab, d) && h[d] == Plain(Sup(lab, s)) && AnnihilateTo(h, p, side, d, s, h')
    requires Regrown(rank, rank', |h|, AnnihilatePlan(p, side, d, s))
    ensures Patched(h, rank, p, h', rank', AnnihilatePlan(p, side, d, s), |h|)
  {
    var (n, plan) := (|h|, AnnihilatePlan(p, side, d, s));
    Live(h, rank, s);
    Live(h, rank, s + 1);
    forall c | c in rank' ensures Placed(h, rank, p, h', rank', plan, c, n) {
      var o := Source(plan, n, c);
      Live(h, rank, o);
      LivePair(h, rank, o, d);
    }
  }

  lemma AnnihilateFaithful(h: Heap, rank: Rank, p: nat, side: bool, lab: Label, d: nat, s: nat, h': Heap, rank': Rank)
    requires Port(h, rank, p, side, lab, d) && h[d] == Plain(Sup(lab, s)) && AnnihilateTo(h, p, side, d, s, h')
    requires Regrown(rank, rank', |h|, AnnihilatePlan(p, side, d, s)) && Valid(h', rank')
    requires KeptBelow(h, rank, h', rank', AnnihilatePlan(p, side, d, s), Height(rank, h[p].term) - 1)
    ensures Faithful(h, rank, p, h', rank')
  {
    var plan := AnnihilatePlan(p, side, d, s);
    Live(h, rank, s);
    Live(h, rank, s + 1);
    forall env: Env ensures FaithfulIn(h, rank, p, h', rank', env) {
      PopPush(env, lab, side);
      PopPush(env, lab, !side);
      ReadBack(h, rank, h', rank', plan, p, plan.out, rank[d], env);
      ReadBack(h, rank, h', rank', plan, d, plan.left, rank[d], env);
    }
  }

  // ------------------------------------------------------------ atom copies

  ghost function AtomPlan(p: nat, d: nat): Plan { Plan({}, [], [], p, -1, d, -1) }

  ghost predicate AtomTo(h: Heap, p: nat, d: nat, h': Heap) {
    SameBut(h, h', p, d) && |h'| == |h| &&
    h'[p] == Cell(h[d].term, h[p].sub) && h'[d] == Cell(h[d].term, true)
  }

  lemma AtomPatched(h: Heap, rank: Rank, p: nat, side: bool, lab: Label, d: nat, h': Heap, rank': Rank)
    requires Port(h, rank, p, side, lab, d) && !h[d].sub && Atom(h[d].term) && AtomTo(h, p, d, h')
    requires Regrown(rank, rank', |h|, AtomPlan(p, d))
    ensures Patched(h, rank, p, h', rank', AtomPlan(p, d), |h|)
  {
    var (n, plan) := (|h|, AtomPlan(p, d));
    forall c | c in rank' ensures Placed(h, rank, p, h', rank', plan, c, n) {
      var o := Source(plan, n, c);
      if o >= 0 { Live(h, rank, o); }
    }
  }

  lemma AtomFaithful(h: Heap, rank: Rank, p: nat, side: bool, lab: Label, d: nat, h': Heap, rank': Rank)
    requires Port(h, rank, p, side, lab, d) && !h[d].sub && Atom(h[d].term) && AtomTo(h, p, d, h')
    requires Regrown(rank, rank', |h|, AtomPlan(p, d)) && Valid(h', rank')
    ensures Faithful(h, rank, p, h', rank')
  {
    forall env: Env ensures FaithfulIn(h, rank, p, h', rank', env) {
      Live(h', rank', p);
      Live(h', rank', d);
    }
  }

  // ------------------------------------------------------------ commutation

  ghost function CommutePlan(rank: Rank, p: nat, d: nat, s: nat): Plan
    requires s in rank && s + 1 in rank
  {
    var m := 3 * Max(rank[s], rank[s + 1]) + 1;
    Plan({s + 1}, [3 * rank[s + 1], m, m, m, m], [s + 1, -1, -1, -1, -1], p, -1, d, -1)
  }

  /** The SUP's first slot s stays in place as one of the two new DUP cells. */
  ghost predicate CommuteTo(h: Heap, p: nat, side: bool, lab: Label, d: nat, m: Label, s: nat, h': Heap) {
    var n := |h|;
    SameBut(h, h', p, d) && |h'| == n + 5 && s + 1 < n &&
    h'[p] == Cell(Sup(m, if side then n + 3 else n + 1), h[p].sub) &&
    h'[d] == Cell(Sup(m, if side then n + 1 else n + 3), true) &&
    h'[n] == Plain(h[s + 1].term) && Copied(h', p, side, d, lab, n + 1, s, n)
  }

  ghost predicate Commuting(h: Heap, rank: Rank, p: nat, side: bool, lab: Label, d: nat, m: Label, s: nat,
                            h': Heap, rank': Rank) {
    Port(h, rank, p, side, lab, d) && h[d] == Plain(Sup(m, s)) && m != lab &&
    RankedAt(h, rank, s) && RankedAt(h, rank, s + 1) &&
    CommuteTo(h, p, side, lab, d, m, s, h') && Regrown(rank, rank', |h|, CommutePlan(rank, p, d, s))
  }

  lemma CommuteMoved(h: Heap, rank: Rank, p: nat, side: bool, lab: Label, d: nat, m: Label, s: nat,
                     h': Heap, rank': Rank, c: nat, o: nat)
    requires Commuting(h, rank, p, side, lab, d, m, s, h', rank')
    requires c in rank' && o == Source(CommutePlan(rank, p, d, s), |h|, c)
    ensures Moved(h, rank, p, h', rank', c, o, s)
  {
    Live(h, rank, o);
    LivePair(h, rank, o, d);
  }

  lemma CommuteBuilt(h: Heap, rank: Rank, p: nat, side: bool, lab: Label, d: nat, m: Label, s: nat,
                     h': Heap, rank': Rank, c: nat)
    requires Commuting(h, rank, p, side, lab, d, m, s, h', rank')
    requires c == p || c == d || |h| + 1 <= c < |h| + 5
    ensures c in rank' && Built(h, h', rank', c, s)
  {
    var n := |h|;
    assert n in rank' && n + 1 in rank' && n + 2 in rank' && n + 3 in rank' && n + 4 in rank';
    assert c == p || c == d || c == n + 1 || c == n + 2 || c == n + 3 || c == n + 4;
  }

  lemma CommutePlaced(h: Heap, rank: Rank, p: nat, side: bool, lab: Label, d: nat, m: Label, s: nat,
                      h': Heap, rank': Rank, plan: Plan, c: nat)
    requires Commuting(h, rank, p, side, lab, d, m, s, h', rank') && plan == CommutePlan(rank, p, d, s) && c in rank'
    ensures Placed(h, rank, p, h', rank', plan, c, s)
  {
    var o := Source(plan, |h|, c);
    if o >= 0 {
      CommuteMoved(h, rank, p, side, lab, d, m, s, h', rank', c, o);
    } else {
      CommuteBuilt(h, rank, p, side, lab, d, m, s, h', rank', c);
    }
  }

  lemma CommuteClash(h: Heap, rank: Rank, p: nat, side: bool, lab: Label, d: nat, m: Label, s: nat,
                     h': Heap, rank': Rank, plan: Plan, c: nat, e: nat)
    requires Commuting(h, rank, p, side, lab, d, m, s, h', rank') && plan == CommutePlan(rank, p, d, s)
    requires c in rank' && e in rank'
    ensures NoClash(h, h', plan, c, e)
  {
    if Source(plan, |h|, c) < 0 && Source(plan, |h|, e) < 0 {
      CopiedApart(h', p, side, d, lab, |h| + 1, s, |h|, c, e);
    }
  }

  lemma CommutePatched(h: Heap, rank: Rank, p: nat, side: bool, lab: Label, d: nat, m: Label, s: nat,
                       h': Heap, rank': Rank)
    requires Commuting(h, rank, p, side, lab, d, m, s, h', rank')
    ensures Patched(h, rank, p, h', rank', CommutePlan(rank, p, d, s), s)
  {
    var plan := CommutePlan(rank, p, d, s);
    forall c | c in rank' ensures Placed(h, rank, p, h', rank', plan, c, s) {
      CommutePlaced(h, rank, p, side, lab, d, m, s, h', rank', plan, c);
    }
    forall c, e | c in rank' && e in rank' ensures NoClash(h, h', plan, c, e) {
      CommuteClash(h, rank, p, side, lab, d, m, s, h', rank', plan, c, e);
    }
  }

  lemma CommuteFaithful(h: Heap, rank: Rank, p: nat, side: bool, lab: Label, d: nat, m: Label, s: nat,
                        h': Heap, rank': Rank)
    requires Commuting(h, rank, p, side, lab, d, m, s, h', rank') && Valid(h', rank')
    requires KeptBelow(h, rank, h', rank', CommutePlan(rank, p, d, s), Height(rank, h[p].term) - 1)
    ensures Faithful(h, rank, p, h', rank')
  {
    var (n, plan, k) := (|h|, CommutePlan(rank, p, d, s), rank[d]);
    assert n in rank' && n + 1 in rank' && n + 2 in rank' && n + 3 in rank' && n + 4 in rank';
    assert PortPair(h, rank, h', rank', plan, n + 1, false, lab, s, n, s, k);
    assert PortPair(h, rank, h', rank', plan, n + 3, true, lab, s, n, s, k);
    forall env: Env ensures FaithfulIn(h, rank, p, h', rank', env) {
      Live(h', rank', p);
      Live(h', rank', d);
      SupRead(h, rank, h', rank', plan, m, n + 1, false, lab, s, n, s, k, env);
      SupRead(h, rank, h', rank', plan, m, n + 3, true, lab, s, n, s, k, env);
    }
  }

  // ------------------------------------------------------------ node copies

  ghost function CopyPlan(rank: Rank, p: nat, d: nat, op: Op, v: nat): Plan
    requires v in rank && v + 1 in rank
  {
    var (x, y, m) := (3 * rank[v], 3 * rank[v + 1], 3 * Max(rank[v], rank[v + 1]) + 1);
    if op.Ann? then Plan({v, v + 1}, [x, y, m, m, m, m], [v, v + 1, -1, -1, -1, -1], p, -1, d, -1)
    else Plan({v, v + 1}, [m, m, m, m, x, y], [-1, -1, -1, -1, v, v + 1], p, -1, d, -1)
  }

  /** A plan that allocates the DUP cells at c and the port slots at r. */
  ghost predicate CopyLayout(rank: Rank, n: nat, plan: Plan, p: nat, d: nat, v: nat, c: nat, r: nat) {
    v in rank && v + 1 in rank && plan.dead == {v, v + 1} &&
    plan.p == p && plan.d == d && plan.out == -1 && plan.left == -1 &&
    |plan.ranks| == |plan.from| == 6 && ((c == n && r == n + 2) || (c == n + 4 && r == n)) &&
    plan.from[c - n] == v && plan.from[c + 1 - n] == v + 1 &&
    plan.ranks[c - n] == 3 * rank[v] && plan.ranks[c + 1 - n] == 3 * rank[v + 1] &&
    (forall i {:trigger plan.ranks[i]} {:trigger plan.from[i]} :: r - n <= i < r + 4 - n ==>
       plan.ranks[i] == 3 * Max(rank[v], rank[v + 1]) + 1 && plan.from[i] == -1)
  }

  lemma CopyPlanLayout(rank: Rank, n: nat, p: nat, d: nat, op: Op, v: nat)
    requires v in rank && v + 1 in rank
    ensures CopyLayout(rank, n, CopyPlan(rank, p, d, op, v), p, d, v, CopyCells(op, n), CopyPorts(op, n))
  {
  }

  ghost predicate CopyTo(h: Heap, p: nat, side: bool, lab: Label, d: nat, op: Op, v: nat, c: nat, r: nat, h': Heap) {
    SameBut(h, h', p, d) && |h'| == |h| + 6 && v + 1 < |h| && |h| <= c && c + 1 < |h'| &&
    h'[p] == Cell(Bin(op, if side then r + 2 else r), h[p].sub) &&
    h'[d] == Cell(Bin(op, if side then r else r + 2), true) &&
    h'[c] == Plain(h[v].term) && h'[c + 1] == Plain(h[v + 1].term) &&
    Copied(h', p, side, d, lab, r, c, c + 1)
  }

  ghost predicate Copying(h: Heap, rank: Rank, p: nat, side: bool, lab: Label, d: nat, op: Op, v: nat,
                          c: nat, r: nat, h': Heap, rank': Rank, plan: Plan) {
    Port(h, rank, p, side, lab, d) && h[d] == Plain(Bin(op, v)) &&
    RankedAt(h, rank, v) && RankedAt(h, rank, v + 1) && CopyLayout(rank, |h|, plan, p, d, v, c, r) &&
    CopyTo(h, p, side, lab, d, op, v, c, r, h') && Regrown(rank, rank', |h|, plan)
  }

  lemma CopyMoved(h: Heap, rank: Rank, p: nat, side: bool, lab: Label, d: nat, op: Op, v: nat, c: nat, r: nat,
                  h': Heap, rank': Rank, plan: Plan, x: nat, o: nat)
    requires Copying(h, rank, p, side, lab, d, op, v, c, r, h', rank', plan)
    requires x in rank' && o == Source(plan, |h|, x)
    ensures Moved(h, rank, p, h', rank', x, o, |h|)
  {
    Live(h, rank, o);
    LivePair(h, rank, o, d);
    assert x < |h| || x == c || x == c + 1;
  }

  lemma CopyBuilt(h: Heap, rank: Rank, p: nat, side: bool, lab: Label, d: nat, op: Op, v: nat, c: nat, r: nat,
                  h': Heap, rank': Rank, plan: Plan, x: nat)
    requires Copying(h, rank, p, side, lab, d, op, v, c, r, h', rank', plan)
    requires x == p || x == d || r <= x < r + 4
    ensures x in rank' && Built(h, h', rank', x, |h|)
  {
    assert r in rank' && r + 1 in rank' && r + 2 in rank' && r + 3 in rank';
    if r <= x < r + 4 {
      assert c in rank' && c + 1 in rank';
      assert x == r || x == r + 1 || x == r + 2 || x == r + 3;
    }
  }

  lemma CopyClash(h: Heap, rank: Rank, p: nat, side: bool, lab: Label, d: nat, op: Op, v: nat, c: nat, r: nat,
                  h': Heap, rank': Rank, plan: Plan, x: nat, y: nat)
    requires Copying(h, rank, p, side, lab, d, op, v, c, r, h', rank', plan)
    requires x in rank' && y in rank'
    ensures NoClash(h, h', plan, x, y)
  {
    var n := |h|;
    if Source(plan, n, x) < 0 && Source(plan, n, y) < 0 {
      assert x == p || x == d || r <= x < r + 4;
      assert y == p || y == d || r <= y < r + 4;
      CopiedApart(h', p, side, d, lab, r, c, c + 1, x, y);
    }
  }

  lemma CopyPlaced(h: Heap, rank: Rank, p: nat, side: bool, lab: Label, d: nat, op: Op, v: nat, c: nat, r: nat,
                   h': Heap, rank': Rank, plan: Plan, x: nat)
    requires Copying(h, rank, p, side, lab, d, op, v, c, r, h', rank', plan) && x in rank'
    ensures Placed(h, rank, p, h', rank', plan, x, |h|)
  {
    var o := Source(plan, |h|, x);
    if o >= 0 {
      CopyMoved(h, rank, p, side, lab, d, op, v, c, r, h', rank', plan, x, o);
    } else {
      assert x == p || x == d || r <= x < r + 4;
      CopyBuilt(h, rank, p, side, lab, d, op, v, c, r, h', rank', plan, x);
    }
  }

  lemma CopyPatched(h: Heap, rank: Rank, p: nat, side: bool, lab: Label, d: nat, op: Op, v: nat, c: nat, r: nat,
                    h': Heap, rank': Rank, plan: Plan)
    requires Copying(h, rank, p, side, lab, d, op, v, c, r, h', rank', plan)
    ensures Patched(h, rank, p, h', rank', plan, |h|)
  {
    forall x | x in rank' ensures Placed(h, rank, p, h', rank', plan, x, |h|) {
      CopyPlaced(h, rank, p, side, lab, d, op, v, c, r, h', rank', plan, x);
    }
    forall x, y | x in rank' && y in rank' ensures NoClash(h, h', plan, x, y) {
      CopyClash(h, rank, p, side, lab, d, op, v, c, r, h', rank', plan, x, y);
    }
  }

  lemma CopyFaithful(h: Heap, rank: Rank, p: nat, side: bool, lab: Label, d: nat, op: Op, v: nat, c: nat, r: nat,
                     h': Heap, rank': Rank, plan: Plan)
    requires Copying(h, rank, p, side, lab, d, op, v, c, r, h', rank', plan) && Valid(h', rank')
    requires KeptBelow(h, rank, h', rank', plan, Height(rank, h[p].term) - 1)
    ensures Faithful(h, rank, p, h', rank')
  {
    var k := rank[d];
    assert c in rank' && c + 1 in rank' && r in rank' && r + 1 in rank' && r + 2 in rank' && r + 3 in rank';
    assert PortPair(h, rank, h', rank', plan, r, false, lab, c, c + 1, v, k);
    assert PortPair(h, rank, h', rank', plan, r + 2, true, lab, c, c + 1, v, k);
    forall env: Env ensures FaithfulIn(h, rank, p, h', rank', env) {
      Live(h', rank', p);
      Live(h', rank', d);
      BinRead(h, rank, h', rank', plan, op, r, false, lab, c, c + 1, v, k, env);
      BinRead(h, rank, h', rank', plan, op, r + 2, true, lab, c, c + 1, v, k, env);
    }
  }
}
