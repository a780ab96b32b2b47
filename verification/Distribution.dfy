/** The rules of the strict nodes OP2, EQL, AND, OR, SEQ, ANN and INC: each one
    rewires the net as its plan says and keeps the meaning of the redex. The
    operand that is not superposed is shared through a DUP of the SUP's label. */
module Distribution {
  import opened Streams
  import opened Nets
  import opened Rules
  import opened Patches
  import opened Keeping

  /** Slot p holds a node that is not a DUP port. */
  ghost predicate Node(h: Heap, rank: Rank, p: nat, t: Term) {
    Valid(h, rank) && p in rank && RankedAt(h, rank, p) && h[p].term == t && !Atom(t) && !t.Dp? &&
    RankedAt(h, rank, t.loc) && (Size(t) == 2 ==> RankedAt(h, rank, t.loc + 1))
  }

  /** A SUP of two strict nodes means the node of the branch its label selects. */
  lemma SupOfNodes(h: Heap, rank: Rank, m: Label, r: nat, op: Op, q0: nat, q1: nat, env: Env)
    requires Ranked(h, rank) && r in rank && r + 1 in rank && r + 1 < |h|
    requires h[r].term == Bin(op, q0) && h[r + 1].term == Bin(op, q1)
    ensures Good(rank, Bin(op, if Top(env, m) then q1 else q0))
    ensures Meaning(h, rank, Sup(m, r), env) == Meaning(h, rank, Bin(op, if Top(env, m) then q1 else q0), Pop(env, m))
  {
    Live(h, rank, r);
    Live(h, rank, r + 1);
  }

  /** A strict node over a SUP on its left. */
  lemma NodeOverSup(h: Heap, rank: Rank, op: Op, l: nat, m: Label, s: nat, env: Env)
    requires Ranked(h, rank) && RankedAt(h, rank, l) && RankedAt(h, rank, l + 1)
    requires h[l].term == Sup(m, s) && RankedAt(h, rank, s) && RankedAt(h, rank, s + 1)
    ensures Meaning(h, rank, Bin(op, l), env)
         == Combine(op, Meaning(h, rank, h[if Top(env, m) then s + 1 else s].term, Pop(env, m)),
                        Meaning(h, rank, h[l + 1].term, env))
  {
  }

  /** A strict node over a SUP on its right. */
  lemma NodeUnderSup(h: Heap, rank: Rank, op: Op, l: nat, m: Label, s: nat, env: Env)
    requires Ranked(h, rank) && RankedAt(h, rank, l) && RankedAt(h, rank, l + 1)
    requires h[l + 1].term == Sup(m, s) && RankedAt(h, rank, s) && RankedAt(h, rank, s + 1)
    ensures Meaning(h, rank, Bin(op, l), env)
         == Combine(op, Meaning(h, rank, h[l].term, env),
                        Meaning(h, rank, h[if Top(env, m) then s + 1 else s].term, Pop(env, m)))
  {
  }

  // ------------------------------------------- distribute over a SUP on the left

  ghost function LeftPlan(rank: Rank, p: nat, l: nat, s: nat): Plan
    requires l in rank && l + 1 in rank
  {
    var m := 3 * Max(rank[l], rank[l + 1]);
    Plan({l, l + 1, s, s + 1}, [3 * rank[l + 1], m + 1, m + 1, m + 1, m + 1, m + 2, m + 2],
         [l + 1, s, -1, s + 1, -1, -1, -1], p, -1, p, -1)
  }

  ghost predicate LeftTo(h: Heap, p: nat, op: Op, l: nat, m: Label, s: nat, h': Heap) {
    var n := |h|;
    SameBut(h, h', p, p) && |h'| == n + 7 && l + 1 < n && s + 1 < n &&
    h'[p] == Cell(Sup(m, n + 5), h[p].sub) &&
    h'[n] == Plain(h[l + 1].term) &&
    h'[n + 1] == Plain(h[s].term) && h'[n + 2] == Plain(Dp(false, m, n)) &&
    h'[n + 3] == Plain(h[s + 1].term) && h'[n + 4] == Plain(Dp(true, m, n)) &&
    h'[n + 5] == Plain(Bin(op, n + 1)) && h'[n + 6] == Plain(Bin(op, n + 3))
  }

  ghost predicate LeftStep(h: Heap, rank: Rank, p: nat, op: Op, l: nat, m: Label, s: nat, h': Heap, rank': Rank) {
    Node(h, rank, p, Bin(op, l)) && h[l].term == Sup(m, s) &&
    RankedAt(h, rank, s) && RankedAt(h, rank, s + 1) &&
    LeftTo(h, p, op, l, m, s, h') && Regrown(rank, rank', |h|, LeftPlan(rank, p, l, s))
  }

  lemma LeftMoved(h: Heap, rank: Rank, p: nat, op: Op, l: nat, m: Label, s: nat, h': Heap, rank': Rank, c: nat, o: nat)
    requires LeftStep(h, rank, p, op, l, m, s, h', rank')
    requires c in rank' && o == Source(LeftPlan(rank, p, l, s), |h|, c)
    ensures Moved(h, rank, p, h', rank', c, o, |h|)
  {
    Live(h, rank, o);
    LivePair(h, rank, o, p);
    LivePair(h, rank, o, l);
    assert c < |h| || c == |h| || c == |h| + 1 || c == |h| + 3;
  }

  lemma LeftBuilt(h: Heap, rank: Rank, p: nat, op: Op, l: nat, m: Label, s: nat, h': Heap, rank': Rank, c: nat)
    requires LeftStep(h, rank, p, op, l, m, s, h', rank')
    requires c == p || c == |h| + 2 || c == |h| + 4 || c == |h| + 5 || c == |h| + 6
    ensures c in rank' && Built(h, h', rank', c, |h|)
  {
    var n := |h|;
    assert n in rank' && n + 1 in rank' && n + 2 in rank' && n + 3 in rank';
    assert n + 4 in rank' && n + 5 in rank' && n + 6 in rank';
  }

  lemma LeftClash(h: Heap, rank: Rank, p: nat, op: Op, l: nat, m: Label, s: nat, h': Heap, rank': Rank, c: nat, e: nat)
    requires LeftStep(h, rank, p, op, l, m, s, h', rank') && c in rank' && e in rank'
    ensures NoClash(h, h', LeftPlan(rank, p, l, s), c, e)
  {
    var (n, plan) := (|h|, LeftPlan(rank, p, l, s));
    LivePair(h, rank, p, l);
    if Source(plan, n, c) < 0 && Source(plan, n, e) < 0 {
      assert c == p || c == n + 2 || c == n + 4 || c == n + 5 || c == n + 6;
      assert e == p || e == n + 2 || e == n + 4 || e == n + 5 || e == n + 6;
    }
  }

  lemma LeftPatched(h: Heap, rank: Rank, p: nat, op: Op, l: nat, m: Label, s: nat, h': Heap, rank': Rank)
    requires LeftStep(h, rank, p, op, l, m, s, h', rank')
    ensures Patched(h, rank, p, h', rank', LeftPlan(rank, p, l, s), |h|)
  {
    var (n, plan) := (|h|, LeftPlan(rank, p, l, s));
    forall c | c in rank' ensures Placed(h, rank, p, h', rank', plan, c, n) {
      var o := Source(plan, n, c);
      if o >= 0 {
        LeftMoved(h, rank, p, op, l, m, s, h', rank', c, o);
      } else {
        LeftBuilt(h, rank, p, op, l, m, s, h', rank', c);
      }
    }
    forall c, e | c in rank' && e in rank' ensures NoClash(h, h', plan, c, e) {
      LeftClash(h, rank, p, op, l, m, s, h', rank', c, e);
    }
  }

  /** The copy of the node for branch b of the SUP. */
  lemma LeftBranch(h: Heap, rank: Rank, p: nat, op: Op, l: nat, m: Label, s: nat, h': Heap, rank': Rank, b: bool,
                   env: Env)
    requires LeftStep(h, rank, p, op, l, m, s, h', rank') && Valid(h', rank')
    requires KeptBelow(h, rank, h', rank', LeftPlan(rank, p, l, s), Max(rank[l], rank[l + 1]))
    requires b == Top(env, m)
    ensures var (r, o) := if b then (|h| + 3, s + 1) else (|h| + 1, s);
      Good(rank', Bin(op, r)) &&
      Meaning(h', rank', Bin(op, r), Pop(env, m))
        == Combine(op, Meaning(h, rank, h[o].term, Pop(env, m)), Meaning(h, rank, h[l + 1].term, env))
  {
    var (n, plan, k, inner) := (|h|, LeftPlan(rank, p, l, s), Max(rank[l], rank[l + 1]), Pop(env, m));
    var (r, o) := if b then (n + 3, s + 1) else (n + 1, s);
    assert n in rank' && r in rank' && r + 1 in rank';
    PushPop(env, m);
    ReadBack(h, rank, h', rank', plan, r, o, k, inner);
    PortRead(h, rank, h', rank', plan, r + 1, b, m, n, l + 1, k, inner);
  }

  lemma LeftValue(h: Heap, rank: Rank, p: nat, op: Op, l: nat, m: Label, s: nat, h': Heap, rank': Rank, env: Env)
    requires LeftStep(h, rank, p, op, l, m, s, h', rank') && Valid(h', rank')
    requires KeptBelow(h, rank, h', rank', LeftPlan(rank, p, l, s), Max(rank[l], rank[l + 1]))
    ensures RankedAt(h', rank', p)
    ensures Meaning(h', rank', h'[p].term, env) == Meaning(h, rank, h[p].term, env)
  {
    var n := |h|;
    assert n + 5 in rank' && n + 6 in rank';
    Live(h', rank', p);
    LeftBranch(h, rank, p, op, l, m, s, h', rank', Top(env, m), env);
    SupOfNodes(h', rank', m, n + 5, op, n + 1, n + 3, env);
    NodeOverSup(h, rank, op, l, m, s, env);
  }

  lemma LeftFaithful(h: Heap, rank: Rank, p: nat, op: Op, l: nat, m: Label, s: nat, h': Heap, rank': Rank)
    requires LeftStep(h, rank, p, op, l, m, s, h', rank') && Valid(h', rank')
    requires KeptBelow(h, rank, h', rank', LeftPlan(rank, p, l, s), Height(rank, h[p].term) - 1)
    ensures Faithful(h, rank, p, h', rank')
  {
    forall env: Env ensures FaithfulIn(h, rank, p, h', rank', env) {
      LeftValue(h, rank, p, op, l, m, s, h', rank', env);
    }
  }

  function AtomValue(a: Term): Value
    requires Atom(a)
  {
    if a.Num? then VNum(a.val) else if a.Era? then VEra else VAny
  }

  lemma AtomMeaning(h: Heap, rank: Rank, a: Term, env: Env)
    requires Ranked(h, rank) && Atom(a)
    ensures Meaning(h, rank, a, env) == AtomValue(a)
  {
  }

  // ------------------------------------------ distribute over a SUP on the right

  ghost function RightPlan(rank: Rank, p: nat, l: nat, s: nat): Plan
    requires l in rank && l + 1 in rank
  {
    var m := 3 * Max(rank[l], rank[l + 1]);
    Plan({l, l + 1, s, s + 1}, [m, m, m, m, m + 1, m + 1], [-1, s, -1, s + 1, -1, -1], p, -1, p, -1)
  }

  ghost predicate RightTo(h: Heap, p: nat, op: Op, l: nat, m: Label, s: nat, h': Heap) {
    var n := |h|;
    SameBut(h, h', p, p) && |h'| == n + 6 && l + 1 < n && s + 1 < n &&
    h'[p] == Cell(Sup(m, n + 4), h[p].sub) &&
    h'[n] == Plain(h[l].term) && h'[n + 1] == Plain(h[s].term) &&
    h'[n + 2] == Plain(h[l].term) && h'[n + 3] == Plain(h[s + 1].term) &&
    h'[n + 4] == Plain(Bin(op, n)) && h'[n + 5] == Plain(Bin(op, n + 2))
  }

  ghost predicate RightStep(h: Heap, rank: Rank, p: nat, op: Op, l: nat, m: Label, s: nat, h': Heap, rank': Rank) {
    Node(h, rank, p, Bin(op, l)) && h[l + 1].term == Sup(m, s) &&
    RankedAt(h, rank, s) && RankedAt(h, rank, s + 1) &&
    RightTo(h, p, op, l, m, s, h') && Regrown(rank, rank', |h|, RightPlan(rank, p, l, s))
  }

  lemma RightMoved(h: Heap, rank: Rank, p: nat, op: Op, l: nat, m: Label, s: nat, h': Heap, rank': Rank, c: nat, o: nat)
    requires RightStep(h, rank, p, op, l, m, s, h', rank')
    requires c in rank' && o == Source(RightPlan(rank, p, l, s), |h|, c)
    ensures Moved(h, rank, p, h', rank', c, o, |h|)
  {
    Live(h, rank, o);
    LivePair(h, rank, o, p);
    LivePair(h, rank, o, l + 1);
    assert c < |h| || c == |h| + 1 || c == |h| + 3;
  }

  lemma RightBuilt(h: Heap, rank: Rank, p: nat, op: Op, l: nat, m: Label, s: nat, h': Heap, rank': Rank, c: nat)
    requires RightStep(h, rank, p, op, l, m, s, h', rank') && Atom(h[l].term)
    requires c == p || c == |h| || c == |h| + 2 || c == |h| + 4 || c == |h| + 5
    ensures c in rank' && Built(h, h', rank', c, |h|)
  {
    var n := |h|;
    assert n in rank' && n + 1 in rank' && n + 2 in rank' && n + 3 in rank' && n + 4 in rank' && n + 5 in rank';
  }

  lemma RightClash(h: Heap, rank: Rank, p: nat, op: Op, l: nat, m: Label, s: nat, h': Heap, rank': Rank, c: nat, e: nat)
    requires RightStep(h, rank, p, op, l, m, s, h', rank') && Atom(h[l].term) && c in rank' && e in rank'
    ensures NoClash(h, h', RightPlan(rank, p, l, s), c, e)
  {
    var (n, plan) := (|h|, RightPlan(rank, p, l, s));
    if Source(plan, n, c) < 0 && Source(plan, n, e) < 0 {
      assert c == p || c == n || c == n + 2 || c == n + 4 || c == n + 5;
      assert e == p || e == n || e == n + 2 || e == n + 4 || e == n + 5;
    }
  }

  lemma RightPatched(h: Heap, rank: Rank, p: nat, op: Op, l: nat, m: Label, s: nat, h': Heap, rank': Rank)
    requires RightStep(h, rank, p, op, l, m, s, h', rank') && Atom(h[l].term)
    ensures Patched(h, rank, p, h', rank', RightPlan(rank, p, l, s), |h|)
  {
    var (n, plan) := (|h|, RightPlan(rank, p, l, s));
    forall c | c in rank' ensures Placed(h, rank, p, h', rank', plan, c, n) {
      var o := Source(plan, n, c);
      if o >= 0 {
        RightMoved(h, rank, p, op, l, m, s, h', rank', c, o);
      } else {
        RightBuilt(h, rank, p, op, l, m, s, h', rank', c);
      }
    }
    forall c, e | c in rank' && e in rank' ensures NoClash(h, h', plan, c, e) {
      RightClash(h, rank, p, op, l, m, s, h', rank', c, e);
    }
  }

  /** The copy of the node for branch b of the SUP. */
  lemma RightBranch(h: Heap, rank: Rank, p: nat, op: Op, l: nat, m: Label, s: nat, h': Heap, rank': Rank, b: bool,
                    env: Env)
    requires RightStep(h, rank, p, op, l, m, s, h', rank') && Atom(h[l].term) && Valid(h', rank')
    requires KeptBelow(h, rank, h', rank', RightPlan(rank, p, l, s), Max(rank[l], rank[l + 1]))
    ensures var (r, o) := if b then (|h| + 2, s + 1) else (|h|, s);
      Good(rank', Bin(op, r)) &&
      Meaning(h', rank', Bin(op, r), Pop(env, m))
        == Combine(op, Meaning(h, rank, h[l].term, env), Meaning(h, rank, h[o].term, Pop(env, m)))
  {
    var (n, plan, k, inner) := (|h|, RightPlan(rank, p, l, s), Max(rank[l], rank[l + 1]), Pop(env, m));
    var (r, o) := if b then (n + 2, s + 1) else (n, s);
    assert r in rank' && r + 1 in rank';
    Live(h', rank', r);
    AtomMeaning(h, rank, h[l].term, env);
    AtomMeaning(h', rank', h[l].term, inner);
    ReadBack(h, rank, h', rank', plan, r + 1, o, k, inner);
  }

  lemma RightValue(h: Heap, rank: Rank, p: nat, op: Op, l: nat, m: Label, s: nat, h': Heap, rank': Rank, env: Env)
    requires RightStep(h, rank, p, op, l, m, s, h', rank') && Atom(h[l].term) && Valid(h', rank')
    requires KeptBelow(h, rank, h', rank', RightPlan(rank, p, l, s), Max(rank[l], rank[l + 1]))
    ensures RankedAt(h', rank', p)
    ensures Meaning(h', rank', h'[p].term, env) == Meaning(h, rank, h[p].term, env)
  {
    var n := |h|;
    assert n + 4 in rank' && n + 5 in rank';
    Live(h', rank', p);
    RightBranch(h, rank, p, op, l, m, s, h', rank', Top(env, m), env);
    SupOfNodes(h', rank', m, n + 4, op, n, n + 2, env);
    NodeUnderSup(h, rank, op, l, m, s, env);
  }

  lemma RightFaithful(h: Heap, rank: Rank, p: nat, op: Op, l: nat, m: Label, s: nat, h': Heap, rank': Rank)
    requires RightStep(h, rank, p, op, l, m, s, h', rank') && Atom(h[l].term) && Valid(h', rank')
    requires KeptBelow(h, rank, h', rank', RightPlan(rank, p, l, s), Height(rank, h[p].term) - 1)
    ensures Faithful(h, rank, p, h', rank')
  {
    forall env: Env ensures FaithfulIn(h, rank, p, h', rank', env) {
      RightValue(h, rank, p, op, l, m, s, h', rank', env);
    }
  }

  // ------------------------------------------------- lift an INC out of an EQL

  ghost function LiftPlan(rank: Rank, p: nat, l: nat, i: nat, x: nat, y: nat): Plan
    requires l in rank && l + 1 in rank
  {
    var m := 3 * Max(rank[l], rank[l + 1]);
    Plan({l, l + 1, i}, [m, m, m + 1], [x as int, y as int, -1], p, -1, p, -1)
  }

  /** The INC at slot i sits on the left (x == i) or on the right (y == i). */
  ghost predicate LiftStep(h: Heap, rank: Rank, p: nat, l: nat, i: nat, x: nat, y: nat, h': Heap, rank': Rank) {
    var n := |h|;
    Node(h, rank, p, Bin(Eql, l)) && RankedAt(h, rank, i) &&
    ((x == i && y == l + 1 && h[l].term == Inc(i)) || (x == l && y == i && h[l + 1].term == Inc(i))) &&
    SameBut(h, h', p, p) && |h'| == n + 3 && h'[p] == Cell(Inc(n + 2), h[p].sub) &&
    h'[n] == Plain(h[x].term) && h'[n + 1] == Plain(h[y].term) && h'[n + 2] == Plain(Bin(Eql, n)) &&
    Regrown(rank, rank', n, LiftPlan(rank, p, l, i, x, y))
  }

  lemma LiftMoved(h: Heap, rank: Rank, p: nat, l: nat, i: nat, x: nat, y: nat, h': Heap, rank': Rank, c: nat, o: nat)
    requires LiftStep(h, rank, p, l, i, x, y, h', rank')
    requires c in rank' && o == Source(LiftPlan(rank, p, l, i, x, y), |h|, c)
    ensures Moved(h, rank, p, h', rank', c, o, |h|)
  {
    Live(h, rank, o);
    LivePair(h, rank, o, p);
    assert ApartAt(h, o, if x == i then l else l + 1);
    assert c < |h| || c == |h| || c == |h| + 1;
  }

  lemma LiftClash(h: Heap, rank: Rank, p: nat, l: nat, i: nat, x: nat, y: nat, h': Heap, rank': Rank, c: nat, e: nat)
    requires LiftStep(h, rank, p, l, i, x, y, h', rank') && c in rank' && e in rank'
    ensures NoClash(h, h', LiftPlan(rank, p, l, i, x, y), c, e)
  {
    var (n, plan) := (|h|, LiftPlan(rank, p, l, i, x, y));
    LivePair(h, rank, p, l);
    LivePair(h, rank, p, l + 1);
    if Source(plan, n, c) < 0 && Source(plan, n, e) < 0 {
      assert (c == p || c == n + 2) && (e == p || e == n + 2);
    }
  }

  lemma LiftPatched(h: Heap, rank: Rank, p: nat, l: nat, i: nat, x: nat, y: nat, h': Heap, rank': Rank)
    requires LiftStep(h, rank, p, l, i, x, y, h', rank')
    ensures Patched(h, rank, p, h', rank', LiftPlan(rank, p, l, i, x, y), |h|)
  {
    var (n, plan) := (|h|, LiftPlan(rank, p, l, i, x, y));
    forall c | c in rank' ensures Placed(h, rank, p, h', rank', plan, c, n) {
      var o := Source(plan, n, c);
      if o >= 0 {
        LiftMoved(h, rank, p, l, i, x, y, h', rank', c, o);
      } else {
        assert n in rank' && n + 1 in rank' && n + 2 in rank';
      }
    }
    forall c, e | c in rank' && e in rank' ensures NoClash(h, h', plan, c, e) {
      LiftClash(h, rank, p, l, i, x, y, h', rank', c, e);
    }
  }

  lemma LiftFaithful(h: Heap, rank: Rank, p: nat, l: nat, i: nat, x: nat, y: nat, h': Heap, rank': Rank)
    requires LiftStep(h, rank, p, l, i, x, y, h', rank') && Valid(h', rank')
    requires KeptBelow(h, rank, h', rank', LiftPlan(rank, p, l, i, x, y), Height(rank, h[p].term) - 1)
    ensures Faithful(h, rank, p, h', rank')
  {
    var (n, plan, k) := (|h|, LiftPlan(rank, p, l, i, x, y), Max(rank[l], rank[l + 1]));
    assert n in rank' && n + 1 in rank' && n + 2 in rank';
    forall env: Env ensures FaithfulIn(h, rank, p, h', rank', env) {
      Live(h', rank', p);
      Live(h', rank', n + 2);
      ReadBack(h, rank, h', rank', plan, n, x, k, env);
      ReadBack(h, rank, h', rank', plan, n + 1, y, k, env);
    }
  }

  // ----------------------------------------------- answer with one of the slots

  ghost function ForwardPlan(p: nat, t: Term, q: nat): Plan
    requires !Atom(t)
  {
    Plan(if Size(t) == 2 then {t.loc, t.loc + 1} else {t.loc}, [], [], p, q, p, q)
  }

  ghost predicate ForwardStep(h: Heap, rank: Rank, p: nat, t: Term, q: nat, h': Heap, rank': Rank) {
    Node(h, rank, p, t) && Hits(t, q) && RankedAt(h, rank, q) &&
    SameBut(h, h', p, p) && |h'| == |h| && h'[p] == Cell(h[q].term, h[p].sub) &&
    Regrown(rank, rank', |h|, ForwardPlan(p, t, q))
  }

  lemma ForwardPatched(h: Heap, rank: Rank, p: nat, t: Term, q: nat, h': Heap, rank': Rank)
    requires ForwardStep(h, rank, p, t, q, h', rank')
    ensures Patched(h, rank, p, h', rank', ForwardPlan(p, t, q), |h|)
  {
    var (n, plan) := (|h|, ForwardPlan(p, t, q));
    forall c | c in rank' ensures Placed(h, rank, p, h', rank', plan, c, n) {
      var o := Source(plan, n, c);
      Live(h, rank, o);
      LivePair(h, rank, o, p);
    }
  }

  lemma ForwardFaithful(h: Heap, rank: Rank, p: nat, t: Term, q: nat, h': Heap, rank': Rank)
    requires ForwardStep(h, rank, p, t, q, h', rank') && Valid(h', rank')
    requires KeptBelow(h, rank, h', rank', ForwardPlan(p, t, q), Height(rank, h[p].term) - 1)
    requires forall env: Env :: Meaning(h, rank, t, env) == Meaning(h, rank, h[q].term, env)
    ensures Faithful(h, rank, p, h', rank')
  {
    var plan := ForwardPlan(p, t, q);
    forall env: Env ensures FaithfulIn(h, rank, p, h', rank', env) {
      ReadBack(h, rank, h', rank', plan, p, q, Height(rank, t) - 1, env);
    }
  }

  // ------------------------------------------------------- answer with an atom

  ghost function AnswerPlan(p: nat, l: nat): Plan { Plan({l, l + 1}, [], [], p, -1, p, -1) }

  ghost predicate AnswerStep(h: Heap, rank: Rank, p: nat, op: Op, l: nat, a: Term, h': Heap, rank': Rank) {
    Node(h, rank, p, Bin(op, l)) && Atom(a) &&
    SameBut(h, h', p, p) && |h'| == |h| && h'[p] == Cell(a, h[p].sub) &&
    Regrown(rank, rank', |h|, AnswerPlan(p, l))
  }

  lemma AnswerPatched(h: Heap, rank: Rank, p: nat, op: Op, l: nat, a: Term, h': Heap, rank': Rank)
    requires AnswerStep(h, rank, p, op, l, a, h', rank')
    ensures Patched(h, rank, p, h', rank', AnswerPlan(p, l), |h|)
  {
    var (n, plan) := (|h|, AnswerPlan(p, l));
    forall c | c in rank' ensures Placed(h, rank, p, h', rank', plan, c, n) {
      var o := Source(plan, n, c);
      if o >= 0 {
        Live(h, rank, o);
        LivePair(h, rank, o, p);
      }
    }
  }

  lemma AnswerFaithful(h: Heap, rank: Rank, p: nat, op: Op, l: nat, a: Term, h': Heap, rank': Rank)
    requires AnswerStep(h, rank, p, op, l, a, h', rank') && Valid(h', rank')
    requires forall env: Env :: Meaning(h, rank, h[p].term, env) == AtomValue(a)
    ensures Faithful(h, rank, p, h', rank')
  {
    forall env: Env ensures FaithfulIn(h, rank, p, h', rank', env) {
      Live(h', rank', p);
    }
  }
}
