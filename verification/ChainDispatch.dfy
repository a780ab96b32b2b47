/** From a walked chain to a program: index remap, output and side buffers. */
module ChainDispatch {
  import opened Chains
  import opened ChainWalk

  const MAX_SIDES: nat := 8

  // ---------------------------------------------------------------- the remap

  function RemapArg(arg: nat, n: nat): nat { if arg >= MAX_LEAVES then n + (arg - MAX_LEAVES) else arg }

  function RemapOp(op: FusedOp, n: nat): FusedOp {
    op.(argA := RemapArg(op.argA, n), argB := RemapArg(op.argB, n))
  }

  function Remapped(ops: seq<FusedOp>, n: nat): (r: seq<FusedOp>)
    ensures |r| == |ops|
  {
    seq(|ops|, i requires 0 <= i < |ops| => RemapOp(ops[i], n))
  }

  /** Move the operation indices from MAX_LEAVES down to the leaf count, in place. */
  method RemapOps(ops: array<FusedOp>, nOps: nat, nLeaves: nat)
    requires nOps <= ops.Length
    modifies ops
    ensures ops[..nOps] == Remapped(old(ops[..nOps]), nLeaves) && ops[nOps..] == old(ops[nOps..])
  {
    for i := 0 to nOps
      invariant forall j :: 0 <= j < i ==> ops[j] == RemapOp(old(ops[j]), nLeaves)
      invariant forall j :: i <= j < ops.Length ==> ops[j] == old(ops[j])
    {
      if ops[i].argA >= MAX_LEAVES { ops[i] := ops[i].(argA := nLeaves + (ops[i].argA - MAX_LEAVES)); }
      if ops[i].argB >= MAX_LEAVES { ops[i] := ops[i].(argB := nLeaves + (ops[i].argB - MAX_LEAVES)); }
    }
  }

  lemma RemapOrdered(ops: seq<FusedOp>, n: nat)
    requires Ordered(ops, n, MAX_LEAVES)
    ensures Ordered(Remapped(ops, n), n, n)
  {
    forall k | 0 <= k < |ops| ensures OpOk(Remapped(ops, n)[k], n, n, k) { assert OpOk(ops[k], n, MAX_LEAVES, k); }
  }

  /** The remapped program computes the same results. */
  lemma {:induction false} RemapKeeps(inputs: seq<Val>, ops: seq<FusedOp>, k: nat)
    requires Ordered(ops, |inputs|, MAX_LEAVES) && k < |ops|
    ensures Result(inputs, Remapped(ops, |inputs|), |inputs|, k) == Result(inputs, ops, MAX_LEAVES, k)
    decreases k, 1
  {
    assert OpOk(ops[k], |inputs|, MAX_LEAVES, k);
    RemapOperand(inputs, ops, k, ops[k].argA);
    if IsBinary(ops[k].uop) { RemapOperand(inputs, ops, k, ops[k].argB); }
  }

  lemma {:induction false} RemapOperand(inputs: seq<Val>, ops: seq<FusedOp>, k: nat, arg: nat)
    requires Ordered(ops, |inputs|, MAX_LEAVES) && k <= |ops| && ArgOk(arg, |inputs|, MAX_LEAVES, k)
    ensures Operand(inputs, Remapped(ops, |inputs|), |inputs|, k, RemapArg(arg, |inputs|))
         == Operand(inputs, ops, MAX_LEAVES, k, arg)
    decreases k, 0
  {
    if arg >= MAX_LEAVES { RemapKeeps(inputs, ops, arg - MAX_LEAVES); }
  }

  // ------------------------------------------------------------- a chain to run

  /** A program with operands counted from the leaf count, as the kernel gets it. */
  ghost predicate Ready(ts: Tensors, mem: Mem, tab: Table, t: nat)
    requires Dag(ts)
  {
    var n := |tab.leaves|;
    0 < |tab.ops| == |tab.tids| && LeavesOk(ts, tab.leaves) && Ordered(tab.ops, n, n) &&
    (forall k {:trigger tab.tids[k]} :: 0 <= k < |tab.ops| ==> Computes(ts, mem, tab, k)) &&
    tab.tids[|tab.ops| - 1] == t && (forall k {:trigger tab.tids[k]} :: 0 <= k < |tab.ops| - 1 ==> tab.tids[k] != t)
  }

  /** Operation k of a remapped program computes its own tensor. */
  ghost predicate Computes(ts: Tensors, mem: Mem, tab: Table, k: nat)
    requires Dag(ts)
  {
    k < |tab.ops| == |tab.tids| && Deferred(ts, tab.tids[k]) && tab.ops[k].uop == ts[tab.tids[k]].op &&
    Result(Inputs(ts, mem, tab.leaves), tab.ops, |tab.leaves|, k) == ValueOf(ts, mem, tab.tids[k])
  }

  /** A walk that succeeds, remapped, is ready to run. */
  lemma WalkIsReady(ts: Tensors, mem: Mem, tab: Table, t: nat, r: nat)
    requires Dag(ts) && Deferred(ts, t) && Walked(ts, mem, Table([], [], []), tab, t, r)
    ensures Ready(ts, mem, tab.(ops := Remapped(tab.ops, |tab.leaves|)), t)
  {
    var tab' := tab.(ops := Remapped(tab.ops, |tab.leaves|));
    RemapOrdered(tab.ops, |tab.leaves|);
    forall k | 0 <= k < |tab'.ops| ensures Computes(ts, mem, tab', k) {
      assert RowOk(ts, mem, tab, k);
      RemapKeeps(Inputs(ts, mem, tab.leaves), tab.ops, k);
    }
  }

  /** A program that computes the schedule of t from the leaves of t. */
  ghost predicate Planned(ts: Tensors, mem: Mem, tab: Table, t: nat)
    requires Dag(ts)
  {
    Ready(ts, mem, tab, t) && tab.tids == Schedule(ts, t) && Ids(tab.leaves) == LeafSet(ts, t) &&
    Wiring(ts, tab, |tab.leaves|)
  }

  /** The remap keeps operations on the sources of their tensors. */
  lemma RemapWires(ts: Tensors, tab: Table)
    requires Wiring(ts, tab, MAX_LEAVES) && |tab.ops| == |tab.tids| && Ordered(tab.ops, |tab.leaves|, MAX_LEAVES)
    ensures Wiring(ts, tab.(ops := Remapped(tab.ops, |tab.leaves|)), |tab.leaves|)
  {
    var (n, tab') := (|tab.leaves|, tab.(ops := Remapped(tab.ops, |tab.leaves|)));
    forall k: nat | k < |tab'.ops| ensures Wired(ts, tab', n, k) {
      assert Wired(ts, tab, MAX_LEAVES, k) && OpOk(tab.ops[k], n, MAX_LEAVES, k);
    }
  }

  /** When a walk that starts from empty tables succeeds, and what it leaves. */
  lemma WalkPlans(ts: Tensors, mem: Mem, tab: Table, t: nat, r: int)
    requires Dag(ts) && Deferred(ts, t) && Walked(ts, mem, Table([], [], []), tab, t, r)
    ensures r >= 0 <==> Elementary(ts, t) && OpCount(ts, t) <= MAX_OPS && |LeafSet(ts, t)| <= MAX_LEAVES
    ensures r >= 0 ==> Planned(ts, mem, tab.(ops := Remapped(tab.ops, |tab.leaves|)), t)
  {
    EmptyFits(ts, t);
    if r >= 0 {
      WalkIsReady(ts, mem, tab, t, r);
      RemapWires(ts, tab);
      assert tab.tids == [] + Schedule(ts, t);
    }
  }

  lemma EmptyFits(ts: Tensors, t: nat)
    requires Dag(ts) && Deferred(ts, t)
    ensures Fits(ts, 0, Ids([]), t) <==>
      Elementary(ts, t) && OpCount(ts, t) <= MAX_OPS && |LeafSet(ts, t)| <= MAX_LEAVES
    ensures Ids([]) + LeafSet(ts, t) == LeafSet(ts, t)
  {
    assert Ids([]) == {};
  }

  /** The materialisation of a chain, from the lazy tensor to a program: it goes
      through exactly when the tensor is elementary and fits the tables. */
  method Plan(ts: Tensors, ghost mem: Mem, t: nat)
      returns (ok: bool, ops: seq<FusedOp>, tids: seq<nat>, leaves: seq<nat>)
    requires Dag(ts) && Deferred(ts, t)
    ensures ok <==> Elementary(ts, t) && OpCount(ts, t) <= 64 && |LeafSet(ts, t)| <= 64
    ensures ok ==> Planned(ts, mem, Table(ops, tids, leaves), t)
  {
    var w := new Walker();
    var r := w.Walk(ts, mem, t);
    ghost var tab := w.Tab();
    WalkPlans(ts, mem, tab, t, r);
    ok := r >= 0;
    RemapOps(w.ops, w.nOps, w.nLeaves);
    ops, tids, leaves := w.ops[..w.nOps], w.tids[..w.nOps], w.leaves[..w.nLeaves];
    assert Table(ops, tids, leaves) == tab.(ops := Remapped(tab.ops, |tab.leaves|));
  }

  // ------------------------------------------------------------- output buffers

  /** Every buffer in use, and every buffer chosen beforehand, is below `next`. */
  ghost predicate InUse(ts: Tensors, next: nat) {
    next > 0 && forall u {:trigger ts[u]} :: 0 <= u < |ts| ==> ts[u].buf < next && ts[u].target < next
  }

  /** Only buffers differ between ts and ts'. */
  ghost predicate SameButBufs(ts: Tensors, ts': Tensors) {
    |ts'| == |ts| && forall u {:trigger ts'[u]} {:trigger ts[u]} :: 0 <= u < |ts| ==>
      ts'[u] == ts[u].(buf := ts'[u].buf)
  }

  /** Tensor u gets a side buffer: it has been counted as a source, by this chain or
      by anybody else. */
  predicate Wanted(ts: Tensors, tids: seq<nat>, t: nat, u: nat) {
    u < |ts| && u in tids && u != t && ts[u].consumers > 0
  }

  predicate Given(ts: Tensors, tids: seq<nat>, t: nat, u: nat) { u == t || Wanted(ts, tids, t, u) }

  /** Tensors that are given a buffer are given different ones. */
  ghost predicate Apart(ts: Tensors, ts': Tensors, tids: seq<nat>, t: nat) {
    forall u: nat, v: nat {:trigger Given(ts, tids, t, u), Given(ts, tids, t, v)} ::
      u < |ts'| && v < |ts'| && u != v && Given(ts, tids, t, u) && Given(ts, tids, t, v) ==> ts'[u].buf != ts'[v].buf
  }

  /** The buffers of ts' are those of ts, except that t has its output buffer and
      the wanted tensors have new ones, all different. */
  ghost predicate Allocated(ts: Tensors, ts': Tensors, tids: seq<nat>, t: nat, next: nat) {
    SameButBufs(ts, ts') && t < |ts| &&
    (if ts[t].target != 0 then ts'[t].buf == ts[t].target else ts'[t].buf >= next) &&
    (forall u {:trigger ts'[u]} :: 0 <= u < |ts| && u != t ==>
       if Wanted(ts, tids, t, u) then ts'[u].buf >= next else ts'[u].buf == ts[u].buf) &&
    Apart(ts, ts', tids, t)
  }

  lemma DagKept(ts: Tensors, ts': Tensors)
    requires Dag(ts) && SameButBufs(ts, ts') &&
      forall u {:trigger ts'[u]} :: 0 <= u < |ts| && ts[u].buf != 0 ==> ts'[u].buf != 0
    ensures Dag(ts')
  {
    forall u | 0 <= u < |ts'| && Deferred(ts', u)
      ensures ts'[u].src0 < u && (IsBinary(ts'[u].op) ==> ts'[u].src1 < u)
    {
      assert Deferred(ts, u);
    }
  }

  lemma WantedNext(ts: Tensors, tids: seq<nat>, i: nat, t: nat, v: nat)
    requires i < |tids| && tids[i] < |ts|
    ensures Wanted(ts, tids[..i + 1], t, v) <==>
      Wanted(ts, tids[..i], t, v) || (v == tids[i] && v != t && ts[v].consumers > 0)
  {
    assert tids[..i + 1] == tids[..i] + [tids[i]];
  }

  /** The next tensor already has what it is to have. */
  lemma AllocateNone(ts: Tensors, ts': Tensors, tids: seq<nat>, i: nat, t: nat, next: nat)
    requires i < |tids| && Allocated(ts, ts', tids[..i], t, next) && tids[i] < |ts| && ts[tids[i]].buf == 0 && next > 0
    requires !(ts'[tids[i]].consumers > 0 && ts'[tids[i]].buf == 0 && tids[i] != t)
    ensures Allocated(ts, ts', tids[..i + 1], t, next)
  {
    forall v ensures Wanted(ts, tids[..i + 1], t, v) <==> Wanted(ts, tids[..i], t, v) { WantedNext(ts, tids, i, t, v); }
    forall u: nat, v: nat | u < |ts'| && v < |ts'| && u != v && Given(ts, tids[..i + 1], t, u) &&
      Given(ts, tids[..i + 1], t, v)
      ensures ts'[u].buf != ts'[v].buf
    {
      assert Given(ts, tids[..i], t, u) && Given(ts, tids[..i], t, v);
    }
  }

  /** Tensor tids[i] is given the new buffer b. */
  lemma AllocateOne(ts: Tensors, ts': Tensors, tids: seq<nat>, i: nat, t: nat, next: nat, b: nat)
    requires i < |tids| && Allocated(ts, ts', tids[..i], t, next) && tids[i] < |ts| && tids[i] != t &&
      ts[tids[i]].consumers > 0
    requires InUse(ts', b) && b >= next
    ensures Allocated(ts, ts'[tids[i] := ts'[tids[i]].(buf := b)], tids[..i + 1], t, next)
  {
    var ts1 := ts'[tids[i] := ts'[tids[i]].(buf := b)];
    forall v ensures Wanted(ts, tids[..i + 1], t, v) <==> Wanted(ts, tids[..i], t, v) || v == tids[i] {
      WantedNext(ts, tids, i, t, v);
    }
    forall u: nat, v: nat | u < |ts1| && v < |ts1| && u != v && Given(ts, tids[..i + 1], t, u) &&
      Given(ts, tids[..i + 1], t, v)
      ensures ts1[u].buf != ts1[v].buf
    {
      if u != tids[i] && v != tids[i] {
        assert Given(ts, tids[..i], t, u) && Given(ts, tids[..i], t, v);
      }
    }
  }

  /** The output buffer and the side buffers. */
  method Allocate(ts: Tensors, tids: seq<nat>, t: nat, next: nat) returns (ts': Tensors, next': nat)
    requires t < |ts| && ts[t].buf == 0 && InUse(ts, next)
    requires forall k {:trigger tids[k]} :: 0 <= k < |tids| ==> tids[k] < |ts| && ts[tids[k]].buf == 0
    ensures Allocated(ts, ts', tids, t, next) && next' >= next && InUse(ts', next')
  {
    next' := next;
    if ts[t].target != 0 {
      ts' := ts[t := ts[t].(buf := ts[t].target)];
    } else {
      ts' := ts[t := ts[t].(buf := next')];
      next' := next' + 1;
    }
    for i := 0 to |tids|
      invariant Allocated(ts, ts', tids[..i], t, next) && next' >= next && InUse(ts', next')
    {
      var u := tids[i];
      if ts'[u].consumers > 0 && ts'[u].buf == 0 && u != t {
        AllocateOne(ts, ts', tids, i, t, next, next');
        ts' := ts'[u := ts'[u].(buf := next')];
        next' := next' + 1;
      } else {
        AllocateNone(ts, ts', tids, i, t, next);
      }
    }
    assert tids[..|tids|] == tids;
  }

  // --------------------------------------------------------------- side outputs

  predicate Qualifies(ts: Tensors, tids: seq<nat>, t: nat, i: nat) {
    i < |tids| && tids[i] < |ts| && ts[tids[i]].buf != 0 && ts[tids[i]].consumers > 0 && tids[i] != t
  }

  /** The first `room` positions from i on whose tensors qualify. */
  function Sides(ts: Tensors, tids: seq<nat>, t: nat, i: nat, room: nat): seq<nat>
    requires i <= |tids|
    decreases |tids| - i
  {
    if i == |tids| || room == 0 then []
    else if Qualifies(ts, tids, t, i) then [i] + Sides(ts, tids, t, i + 1, room - 1)
    else Sides(ts, tids, t, i + 1, room)
  }

  /** The kernel takes at most eight side outputs. */
  method CollectSides(ts: Tensors, tids: seq<nat>, t: nat) returns (sides: seq<nat>)
    requires forall k {:trigger tids[k]} :: 0 <= k < |tids| ==> tids[k] < |ts|
    ensures sides == Sides(ts, tids, t, 0, MAX_SIDES)
  {
    sides := [];
    var i := 0;
    while i < |tids| && |sides| < MAX_SIDES
      invariant 0 <= i <= |tids| && |sides| <= MAX_SIDES
      invariant sides + Sides(ts, tids, t, i, MAX_SIDES - |sides|) == Sides(ts, tids, t, 0, MAX_SIDES)
    {
      var u := tids[i];
      if ts[u].buf != 0 && ts[u].consumers > 0 && u != t {
        assert sides + ([i] + Sides(ts, tids, t, i + 1, MAX_SIDES - |sides| - 1)) ==
               (sides + [i]) + Sides(ts, tids, t, i + 1, MAX_SIDES - |sides| - 1);
        sides := sides + [i];
      }
      i := i + 1;
    }
  }

  lemma {:induction false} SidesQualify(ts: Tensors, tids: seq<nat>, t: nat, i: nat, room: nat, p: nat)
    requires i <= |tids| && p in Sides(ts, tids, t, i, room)
    ensures i <= p < |tids| && Qualifies(ts, tids, t, p)
    decreases |tids| - i
  {
    if Qualifies(ts, tids, t, i) {
      if p != i { SidesQualify(ts, tids, t, i + 1, room - 1, p); }
    } else {
      SidesQualify(ts, tids, t, i + 1, room, p);
    }
  }
}
