/** The walk that turns a deferred elementwise tensor into a program. */
module ChainWalk {
  import opened Chains

  function Ids(leaves: seq<nat>): set<nat> { set l | l in leaves }

  /** The tables have room for everything that t needs. */
  ghost predicate Fits(ts: Tensors, n: nat, have: set<nat>, t: nat)
    requires Dag(ts)
  {
    Elementary(ts, t) && n + OpCount(ts, t) <= MAX_OPS && |have + LeafSet(ts, t)| <= MAX_LEAVES
  }

  lemma {:induction false} SubsetSize<T>(a: set<T>, b: set<T>)
    requires a <= b
    ensures |a| <= |b|
  {
    if a != {} {
      var x :| x in a;
      SubsetSize(a - {x}, b - {x});
    }
  }

  lemma {:induction false} DistinctSize(leaves: seq<nat>)
    requires forall i, j :: 0 <= i < j < |leaves| ==> leaves[i] != leaves[j]
    ensures |Ids(leaves)| == |leaves|
  {
    if leaves != [] {
      var n := |leaves| - 1;
      DistinctSize(leaves[..n]);
      assert leaves == leaves[..n] + [leaves[n]];
      assert Ids(leaves) == Ids(leaves[..n]) + {leaves[n]};
    }
  }

  lemma LeafFits(ts: Tensors, leaves: seq<nat>, n: nat, t: nat)
    requires Dag(ts) && LeavesOk(ts, leaves) && |leaves| <= MAX_LEAVES && n <= MAX_OPS && t < |ts| && ts[t].buf != 0
    ensures Fits(ts, n, Ids(leaves), t) <==> t in leaves || |leaves| < MAX_LEAVES
  {
    DistinctSize(leaves);
    assert LeafSet(ts, t) == {t} && OpCount(ts, t) == 0;
    if t in leaves {
      assert Ids(leaves) + {t} == Ids(leaves);
    } else {
      assert |Ids(leaves) + {t}| == |leaves| + 1;
    }
  }

  /** No room for the first source: no room for t. */
  lemma LeftMustFit(ts: Tensors, n: nat, have: set<nat>, t: nat)
    requires Dag(ts) && Deferred(ts, t) && Fits(ts, n, have, t)
    ensures Fits(ts, n, have, ts[t].src0)
  {
    SubsetSize(have + LeafSet(ts, ts[t].src0), have + LeafSet(ts, t));
  }

  lemma RightMustFit(ts: Tensors, n: nat, have: set<nat>, t: nat)
    requires Dag(ts) && Deferred(ts, t) && IsBinary(ts[t].op) && Fits(ts, n, have, t)
    ensures Fits(ts, n + OpCount(ts, ts[t].src0), have + LeafSet(ts, ts[t].src0), ts[t].src1)
  {
    assert have + LeafSet(ts, t) == (have + LeafSet(ts, ts[t].src0)) + LeafSet(ts, ts[t].src1);
  }

  lemma UnaryFits(ts: Tensors, n: nat, have: set<nat>, t: nat)
    requires Dag(ts) && Deferred(ts, t) && !IsBinary(ts[t].op) && Fits(ts, n, have, ts[t].src0)
    ensures Fits(ts, n, have, t) <==> n + OpCount(ts, ts[t].src0) < MAX_OPS
    ensures have + LeafSet(ts, ts[t].src0) == have + LeafSet(ts, t)
  {
    assert LeafSet(ts, t) == LeafSet(ts, ts[t].src0);
  }

  lemma BinaryFits(ts: Tensors, n: nat, have: set<nat>, t: nat)
    requires Dag(ts) && Deferred(ts, t) && IsBinary(ts[t].op) && Fits(ts, n, have, ts[t].src0)
    requires Fits(ts, n + OpCount(ts, ts[t].src0), have + LeafSet(ts, ts[t].src0), ts[t].src1)
    ensures Fits(ts, n, have, t) <==> n + OpCount(ts, ts[t].src0) + OpCount(ts, ts[t].src1) < MAX_OPS
    ensures (have + LeafSet(ts, ts[t].src0)) + LeafSet(ts, ts[t].src1) == have + LeafSet(ts, t)
  {
    assert have + LeafSet(ts, t) == (have + LeafSet(ts, ts[t].src0)) + LeafSet(ts, ts[t].src1);
  }

  /** New operations compute t, last and once, or tensors made before it. */
  ghost predicate Below(tab: Table, tab': Table, t: nat) {
    forall k {:trigger tab'.tids[k]} :: |tab.tids| <= k < |tab'.tids| ==>
      tab'.tids[k] <= t && (tab'.tids[k] == t ==> k == |tab'.tids| - 1)
  }

  /** The new operations compute the schedule of t. */
  ghost predicate Scheduled(ts: Tensors, tab: Table, tab': Table, t: nat)
    requires Dag(ts)
  {
    tab'.tids == tab.tids + Schedule(ts, t)
  }

  /** What a walk of t does to the tables, and what its result r names. It succeeds
      exactly when everything that t needs fits. */
  ghost predicate Walked(ts: Tensors, mem: Mem, tab: Table, tab': Table, t: nat, r: int)
    requires Dag(ts)
  {
    Sound(ts, mem, tab') && Grows(tab, tab') && Below(tab, tab', t) && r >= -1 &&
    (r >= 0 <==> Fits(ts, |tab.ops|, Ids(tab.leaves), t)) &&
    (r >= 0 ==>
       Names(ts, mem, tab', r, t) && |tab'.ops| == |tab.ops| + OpCount(ts, t) && Scheduled(ts, tab, tab', t) &&
       Ids(tab'.leaves) == Ids(tab.leaves) + LeafSet(ts, t) &&
       (Deferred(ts, t) ==> r == MAX_LEAVES + |tab'.ops| - 1 && tab'.tids[|tab'.ops| - 1] == t))
  }

  lemma LeftFailed(ts: Tensors, mem: Mem, tab: Table, mid: Table, t: nat)
    requires Dag(ts) && Deferred(ts, t) && Walked(ts, mem, tab, mid, ts[t].src0, -1)
    ensures Walked(ts, mem, tab, mid, t, -1)
  {
    if Fits(ts, |tab.ops|, Ids(tab.leaves), t) { LeftMustFit(ts, |tab.ops|, Ids(tab.leaves), t); }
  }

  lemma RightFailed(ts: Tensors, mem: Mem, tab: Table, mid: Table, end: Table, t: nat, a: nat)
    requires Dag(ts) && Deferred(ts, t) && IsBinary(ts[t].op)
    requires Walked(ts, mem, tab, mid, ts[t].src0, a) && Walked(ts, mem, mid, end, ts[t].src1, -1)
    ensures Walked(ts, mem, tab, end, t, -1)
  {
    if Fits(ts, |tab.ops|, Ids(tab.leaves), t) { RightMustFit(ts, |tab.ops|, Ids(tab.leaves), t); }
  }

  function OpFor(m: Meta, a: nat, b: nat): FusedOp {
    FusedOp(m.op, a, if IsBinary(m.op) then b else 0, Aux(m.op, m.dtype))
  }

  function WithOp(tab: Table, op: FusedOp, t: nat): Table { tab.(ops := tab.ops + [op], tids := tab.tids + [t]) }

  /** The operands of t are in the tables: adding its operation finishes the walk,
      and without room for it the walk fails. */
  ghost predicate ArgsWalked(ts: Tensors, mem: Mem, tab: Table, end: Table, t: nat, a: nat, b: nat)
    requires Dag(ts) && t < |ts|
  {
    if |end.ops| < MAX_OPS then Walked(ts, mem, tab, WithOp(end, OpFor(ts[t], a, b), t), t, MAX_LEAVES + |end.ops|)
    else Walked(ts, mem, tab, end, t, -1)
  }

  /** Adding the operation for t, when its operands are in the tables. */
  lemma FinishWalked(ts: Tensors, mem: Mem, tab: Table, end: Table, t: nat, a: nat, b: nat)
    requires Dag(ts) && Deferred(ts, t) && Sound(ts, mem, end) && Grows(tab, end)
    requires forall k {:trigger end.tids[k]} :: |tab.tids| <= k < |end.tids| ==> end.tids[k] < t
    requires Names(ts, mem, end, a, ts[t].src0) && (IsBinary(ts[t].op) ==> Names(ts, mem, end, b, ts[t].src1))
    requires Fits(ts, |tab.ops|, Ids(tab.leaves), t) <==> |end.ops| < MAX_OPS
    requires Ids(end.leaves) == Ids(tab.leaves) + LeafSet(ts, t) && |end.ops| + 1 == |tab.ops| + OpCount(ts, t)
    requires Scheduled(ts, tab, end.(tids := end.tids + [t]), t)
    ensures ArgsWalked(ts, mem, tab, end, t, a, b)
  {
    if |end.ops| < MAX_OPS {
      AddOp(ts, mem, end, t, a, b);
      WithOpGrows(tab, end, OpFor(ts[t], a, b), t);
    }
  }

  lemma WithOpGrows(tab: Table, end: Table, op: FusedOp, t: nat)
    requires Grows(tab, end) && |end.tids| == |end.ops| && |tab.tids| == |tab.ops|
    requires forall k {:trigger end.tids[k]} :: |tab.tids| <= k < |end.tids| ==> end.tids[k] < t
    ensures Grows(tab, WithOp(end, op, t)) && Below(tab, WithOp(end, op, t), t)
    ensures WithOp(end, op, t).tids[|end.ops|] == t
  {
  }

  lemma ScheduleUnary(ts: Tensors, t: nat, tab: Table, mid: Table)
    requires Dag(ts) && Deferred(ts, t) && !IsBinary(ts[t].op) && Scheduled(ts, tab, mid, ts[t].src0)
    ensures Scheduled(ts, tab, mid.(tids := mid.tids + [t]), t)
  {
    var a := Schedule(ts, ts[t].src0);
    assert Schedule(ts, t) == a + [] + [t] == a + [t];
    ConcatAssociates(tab.tids, a, [t]);
  }

  lemma ScheduleBinary(ts: Tensors, t: nat, tab: Table, mid: Table, end: Table)
    requires Dag(ts) && Deferred(ts, t) && IsBinary(ts[t].op)
    requires Scheduled(ts, tab, mid, ts[t].src0) && Scheduled(ts, mid, end, ts[t].src1)
    ensures Scheduled(ts, tab, end.(tids := end.tids + [t]), t)
  {
    var (a, b) := (Schedule(ts, ts[t].src0), Schedule(ts, ts[t].src1));
    ConcatAssociates(tab.tids, a, b);
    ConcatAssociates(tab.tids, a + b, [t]);
  }

  lemma ConcatAssociates<T>(a: seq<T>, b: seq<T>, c: seq<T>)
    ensures (a + b) + c == a + (b + c)
  {
  }

  lemma UnaryWalked(ts: Tensors, mem: Mem, tab: Table, mid: Table, t: nat, a: nat)
    requires Dag(ts) && Deferred(ts, t) && !IsBinary(ts[t].op) && Walked(ts, mem, tab, mid, ts[t].src0, a)
    ensures ArgsWalked(ts, mem, tab, mid, t, a, 0)
  {
    UnaryFits(ts, |tab.ops|, Ids(tab.leaves), t);
    ScheduleUnary(ts, t, tab, mid);
    FinishWalked(ts, mem, tab, mid, t, a, 0);
  }

  lemma BinaryRoom(ts: Tensors, mem: Mem, tab: Table, mid: Table, end: Table, t: nat, a: nat, b: nat)
    requires Dag(ts) && Deferred(ts, t) && IsBinary(ts[t].op)
    requires Walked(ts, mem, tab, mid, ts[t].src0, a) && Walked(ts, mem, mid, end, ts[t].src1, b)
    ensures Fits(ts, |tab.ops|, Ids(tab.leaves), t) <==> |end.ops| < MAX_OPS
    ensures Ids(end.leaves) == Ids(tab.leaves) + LeafSet(ts, t) && |end.ops| + 1 == |tab.ops| + OpCount(ts, t)
    ensures Grows(tab, end) && Names(ts, mem, end, a, ts[t].src0) && Names(ts, mem, end, b, ts[t].src1)
  {
    BinaryFits(ts, |tab.ops|, Ids(tab.leaves), t);
    NamesKept(ts, mem, mid, end, a, ts[t].src0);
  }

  lemma BinaryWalked(ts: Tensors, mem: Mem, tab: Table, mid: Table, end: Table, t: nat, a: nat, b: nat)
    requires Dag(ts) && Deferred(ts, t) && IsBinary(ts[t].op)
    requires Walked(ts, mem, tab, mid, ts[t].src0, a) && Walked(ts, mem, mid, end, ts[t].src1, b)
    ensures ArgsWalked(ts, mem, tab, end, t, a, b)
  {
    BinaryRoom(ts, mem, tab, mid, end, t, a, b);
    ScheduleBinary(ts, t, tab, mid, end);
    forall k | |tab.tids| <= k < |end.tids| ensures end.tids[k] < t {
      if k < |mid.tids| { assert mid.tids[k] == end.tids[k]; }
    }
    FinishWalked(ts, mem, tab, end, t, a, b);
  }

  class Walker {
    const ops: array<FusedOp>
    const tids: array<nat>
    const leaves: array<nat>
    var nOps: nat
    var nLeaves: nat

    constructor ()
      ensures Valid() && Tab() == Table([], [], []) && fresh(ops) && fresh(tids) && fresh(leaves)
    {
      ops := new FusedOp[MAX_OPS](_ => FusedOp(0, 0, 0, 0));
      tids := new nat[MAX_OPS](_ => 0);
      leaves := new nat[MAX_LEAVES](_ => 0);
      nOps, nLeaves := 0, 0;
    }

    ghost predicate Valid()
      reads this
    {
      ops.Length == tids.Length == MAX_OPS && leaves.Length == MAX_LEAVES && tids != leaves &&
      nOps <= MAX_OPS && nLeaves <= MAX_LEAVES
    }

    ghost function Tab(): Table
      reads this, ops, tids, leaves
      requires Valid()
    {
      Table(ops[..nOps], tids[..nOps], leaves[..nLeaves])
    }

    method FindLeaf(t: nat) returns (r: int)
      requires Valid()
      ensures -1 <= r < nLeaves && (r >= 0 ==> leaves[r] == t) && (r < 0 ==> t !in leaves[..nLeaves])
    {
      for i := 0 to nLeaves
        invariant t !in leaves[..i]
      {
        if leaves[i] == t {
          return i;
        }
      }
      return -1;
    }

    method PushLeaf(t: nat)
      requires Valid() && nLeaves < MAX_LEAVES
      modifies this`nLeaves, leaves
      ensures Valid() && Tab() == old(Tab()).(leaves := old(Tab()).leaves + [t])
    {
      leaves[nLeaves] := t;
      nLeaves := nLeaves + 1;
      assert leaves[..nLeaves] == old(leaves[..nLeaves]) + [t];
    }

    method PushOp(op: FusedOp, t: nat)
      requires Valid() && nOps < MAX_OPS
      modifies this`nOps, ops, tids
      ensures Valid() && nOps == old(nOps) + 1
      ensures Tab() == Table(old(Tab()).ops + [op], old(Tab()).tids + [t], old(Tab()).leaves)
    {
      ops[nOps] := op;
      tids[nOps] := t;
      nOps := nOps + 1;
      assert ops[..nOps] == old(ops[..nOps]) + [op];
      assert tids[..nOps] == old(tids[..nOps]) + [t];
    }

    method WalkLeaf(ts: Tensors, ghost mem: Mem, t: nat) returns (r: int)
      requires Valid() && Dag(ts) && Sound(ts, mem, Tab()) && t < |ts| && ts[t].buf != 0
      modifies this`nLeaves, leaves
      ensures Valid() && Walked(ts, mem, old(Tab()), Tab(), t, r)
    {
      LeafFits(ts, Tab().leaves, nOps, t);
      assert Tab().tids + [] == Tab().tids;
      r := FindLeaf(t);
      if r >= 0 {
        assert Ids(Tab().leaves) + {t} == Ids(Tab().leaves);
        return;
      }
      if nLeaves >= MAX_LEAVES {
        return -1;
      }
      AddLeaf(ts, mem, Tab(), t);
      r := nLeaves;
      ghost var was := Tab().leaves;
      PushLeaf(t);
      assert Ids(was + [t]) == Ids(was) + {t};
    }

    method AppendOp(ts: Tensors, ghost mem: Mem, t: nat, a: nat, b: nat, ghost tab: Table) returns (r: int)
      requires Valid() && Dag(ts) && t < |ts| && ArgsWalked(ts, mem, tab, Tab(), t, a, b)
      modifies this`nOps, ops, tids
      ensures Valid() && Walked(ts, mem, tab, Tab(), t, r)
    {
      if nOps >= MAX_OPS {
        return -1;
      }
      var m := ts[t];
      r := MAX_LEAVES + nOps;
      PushOp(FusedOp(m.op, a, if IsBinary(m.op) then b else 0, Aux(m.op, m.dtype)), t);
    }

    method Walk(ts: Tensors, ghost mem: Mem, t: nat) returns (r: int)
      requires Valid() && Dag(ts) && Sound(ts, mem, Tab()) && t < |ts|
      modifies this`nOps, this`nLeaves, ops, tids, leaves
      ensures Valid() && Walked(ts, mem, old(Tab()), Tab(), t, r)
      decreases t
    {
      var m := ts[t];
      if m.buf != 0 {
        r := WalkLeaf(ts, mem, t);
        return;
      }
      if !IsElementwise(m.op) {
        return -1;
      }
      ghost var tab := Tab();
      var a := Walk(ts, mem, m.src0);
      ghost var mid := Tab();
      if a < 0 {
        LeftFailed(ts, mem, tab, mid, t);
        return -1;
      }
      if !IsBinary(m.op) {
        UnaryWalked(ts, mem, tab, mid, t, a);
        r := AppendOp(ts, mem, t, a, 0, tab);
        return;
      }
      var b := Walk(ts, mem, m.src1);
      if b < 0 {
        RightFailed(ts, mem, tab, mid, Tab(), t, a);
        return -1;
      }
      BinaryWalked(ts, mem, tab, mid, Tab(), t, a, b);
      r := AppendOp(ts, mem, t, a, b, tab);
    }
  }
}
