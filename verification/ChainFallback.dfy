/** The fallback: one operation of the chain at a time. */
module ChainFallback {
  import opened Chains
  import opened ChainDispatch
  import opened ChainOutputs
  import opened ChainValues

  /** The buffers after i operations: the chain's tensors so far have buffers from
      `next` on (t the one chosen for it), the others are as Allocate left them. */
  ghost predicate Bufs(ts: Tensors, ts1: Tensors, tab: Table, t: nat, next: nat, i: nat, ts2: Tensors, next2: nat)
    requires i <= |tab.tids|
  {
    SameButBufs(ts, ts2) && |ts1| == |ts| && InUse(ts2, next2) && next2 >= next &&
    (forall u {:trigger ts2[u]} :: 0 <= u < |ts| ==>
       if u != t && u in tab.tids[..i] then ts2[u].buf >= next else ts2[u].buf == ts1[u].buf) &&
    (forall u, v {:trigger ts2[u], ts2[v]} :: 0 <= u < |ts| && 0 <= v < |ts| && u != v && ts2[u].buf >= next ==>
       ts2[u].buf != ts2[v].buf)
  }

  /** The contents after i operations: buffers from before are untouched, except
      that the last operation may write to the one chosen for t. */
  ghost predicate Filled(ts: Tensors, mem: Mem, tab: Table, t: nat, next: nat, i: nat, ts2: Tensors, mem2: Mem)
    requires Dag(ts) && i <= |tab.tids| && t < |ts|
  {
    (forall k {:trigger tab.tids[k]} :: 0 <= k < i ==>
      tab.tids[k] < |ts2| && Served(ts, mem, ts2, mem2, tab.tids[k])) &&
    (forall b: nat {:trigger Contents(mem2, b)} :: b < next && (i < |tab.tids| || b != ts[t].target) ==>
       Contents(mem2, b) == Contents(mem, b))
  }

  /** The buffers that operand indices stand for. */
  ghost predicate Temps(ts: Tensors, tab: Table, i: nat, ts2: Tensors, temps: seq<nat>)
    requires i <= |tab.tids|
  {
    var n := |tab.leaves|;
    |temps| == n + i &&
    (forall j {:trigger temps[j]} :: 0 <= j < n ==> tab.leaves[j] < |ts| && temps[j] == ts[tab.leaves[j]].buf) &&
    (forall k {:trigger tab.tids[k]} :: 0 <= k < i ==> tab.tids[k] < |ts2| && temps[n + k] == ts2[tab.tids[k]].buf)
  }

  /** An operand's buffer holds the operand's value. */
  lemma OperandHeld(ts: Tensors, mem: Mem, tab: Table, t: nat, next: nat, i: nat, ts2: Tensors, mem2: Mem,
                    temps: seq<nat>, arg: nat)
    requires Dag(ts) && Ready(ts, mem, tab, t) && InUse(ts, next) && i < |tab.tids| && t < |ts|
    requires Filled(ts, mem, tab, t, next, i, ts2, mem2) && Temps(ts, tab, i, ts2, temps)
    requires ArgOk(arg, |tab.leaves|, |tab.leaves|, i)
    ensures Contents(mem2, temps[arg]) == Operand(Inputs(ts, mem, tab.leaves), tab.ops, |tab.leaves|, i, arg)
  {
    var n := |tab.leaves|;
    if arg < n {
      assert ts[tab.leaves[arg]].buf < next;
    } else {
      assert temps[n + (arg - n)] == ts2[tab.tids[arg - n]].buf;
      assert Computes(ts, mem, tab, arg - n);
    }
  }

  /** What operation i computes from the buffers of its operands. */
  function Computed(op: FusedOp, mem2: Mem, temps: seq<nat>): Val
    requires op.argA < |temps| && (IsBinary(op.uop) ==> op.argB < |temps|)
  {
    if IsBinary(op.uop) then Bin(op.uop, op.aux, Contents(mem2, temps[op.argA]), Contents(mem2, temps[op.argB]))
    else Un(op.uop, op.aux, Contents(mem2, temps[op.argA]))
  }

  lemma ComputedRight(ts: Tensors, mem: Mem, tab: Table, t: nat, next: nat, i: nat, ts2: Tensors, mem2: Mem,
                      temps: seq<nat>)
    requires Dag(ts) && Ready(ts, mem, tab, t) && InUse(ts, next) && i < |tab.tids| && t < |ts|
    requires Filled(ts, mem, tab, t, next, i, ts2, mem2) && Temps(ts, tab, i, ts2, temps)
    ensures OpOk(tab.ops[i], |tab.leaves|, |tab.leaves|, i) &&
      Computed(tab.ops[i], mem2, temps) == ValueOf(ts, mem, tab.tids[i])
  {
    assert OpOk(tab.ops[i], |tab.leaves|, |tab.leaves|, i);
    assert Computes(ts, mem, tab, i);
    OperandHeld(ts, mem, tab, t, next, i, ts2, mem2, temps, tab.ops[i].argA);
    if IsBinary(tab.ops[i].uop) {
      OperandHeld(ts, mem, tab, t, next, i, ts2, mem2, temps, tab.ops[i].argB);
    }
  }

  /** Giving tensor u a new buffer. */
  lemma BufGiven(ts: Tensors, ts1: Tensors, tab: Table, t: nat, next: nat, i: nat, ts2: Tensors, next2: nat)
    requires i < |tab.tids| && tab.tids[i] < |ts| && Bufs(ts, ts1, tab, t, next, i, ts2, next2) && tab.tids[i] != t
    ensures Bufs(ts, ts1, tab, t, next, i + 1, ts2[tab.tids[i] := ts2[tab.tids[i]].(buf := next2)], next2 + 1)
  {
    assert tab.tids[..i + 1] == tab.tids[..i] + [tab.tids[i]];
  }

  lemma BufKept(ts: Tensors, ts1: Tensors, tab: Table, t: nat, next: nat, i: nat, ts2: Tensors, next2: nat)
    requires i < |tab.tids| && tab.tids[i] < |ts| && Bufs(ts, ts1, tab, t, next, i, ts2, next2)
    requires tab.tids[i] == t || ts2[tab.tids[i]].buf >= next
    ensures Bufs(ts, ts1, tab, t, next, i + 1, ts2, next2)
  {
    assert tab.tids[..i + 1] == tab.tids[..i] + [tab.tids[i]];
  }

  lemma FilledNext(ts: Tensors, mem: Mem, ts1: Tensors, tab: Table, t: nat, next: nat, i: nat, ts2: Tensors, mem2: Mem,
                   ts3: Tensors, next3: nat)
    requires Dag(ts) && Ready(ts, mem, tab, t) && i < |tab.tids| && t < |ts| && InUse(ts, next)
    requires Filled(ts, mem, tab, t, next, i, ts2, mem2) && Bufs(ts, ts1, tab, t, next, i + 1, ts3, next3)
    requires ts3[t].buf == ts[t].target || ts3[t].buf >= next
    requires forall k {:trigger tab.tids[k]} :: 0 <= k < i ==>
      tab.tids[k] < |ts2| && ts3[tab.tids[k]].buf == ts2[tab.tids[k]].buf
    ensures Filled(ts, mem, tab, t, next, i + 1, ts3, mem2[ts3[tab.tids[i]].buf := ValueOf(ts, mem, tab.tids[i])])
  {
    var (u, v) := (tab.tids[i], ValueOf(ts, mem, tab.tids[i]));
    var mem3 := mem2[ts3[u].buf := v];
    assert Computes(ts, mem, tab, i);
    assert tab.tids[..i + 1] == tab.tids[..i] + [u];
    assert u in tab.tids[..i + 1];
    forall k | 0 <= k < i + 1 ensures tab.tids[k] < |ts3| && Served(ts, mem, ts3, mem3, tab.tids[k]) {
      if k < i && tab.tids[k] != u {
        assert tab.tids[k] != t;
        assert tab.tids[k] in tab.tids[..i + 1];
        assert ts3[tab.tids[k]].buf >= next;
        assert ts3[tab.tids[k]].buf != ts3[u].buf;
      }
    }
    forall b: nat | b < next && (i + 1 < |tab.tids| || b != ts[t].target)
      ensures Contents(mem3, b) == Contents(mem, b)
    {
      assert Contents(mem2, b) == Contents(mem, b);
      if u == t { assert i + 1 == |tab.tids|; }
    }
  }

  lemma StartBufs(ts: Tensors, mem: Mem, ts1: Tensors, tab: Table, t: nat, next: nat, next1: nat)
    requires Dag(ts) && Ready(ts, mem, tab, t) && InUse(ts, next)
    requires Allocated(ts, ts1, tab.tids, t, next) && next1 >= next && InUse(ts1, next1)
    ensures Bufs(ts, ts1, tab, t, next, 0, ts1, next1) && Filled(ts, mem, tab, t, next, 0, ts1, mem)
  {
    forall u, v | 0 <= u < |ts| && 0 <= v < |ts| && u != v && ts1[u].buf >= next ensures ts1[u].buf != ts1[v].buf {
      assert ts[u].buf < next && ts[v].buf < next && ts[t].target < next;
      assert Given(ts, tab.tids, t, u);
      if ts1[v].buf >= next { assert Given(ts, tab.tids, t, v); }
    }
  }

  /** The tensors after operation i has found its buffer. */
  function Placed(ts2: Tensors, u: nat, t: nat, next2: nat): Tensors
    requires u < |ts2|
  {
    if u == t || ts2[u].buf != 0 then ts2 else ts2[u := ts2[u].(buf := next2)]
  }

  lemma PlacedBufs(ts: Tensors, mem: Mem, ts1: Tensors, tab: Table, t: nat, next: nat, i: nat, ts2: Tensors, next2: nat)
    requires Dag(ts) && Ready(ts, mem, tab, t) && Allocated(ts, ts1, tab.tids, t, next) && i < |tab.tids|
    requires InUse(ts, next) && Bufs(ts, ts1, tab, t, next, i, ts2, next2)
    ensures tab.tids[i] < |ts2|
    ensures var ts3 := Placed(ts2, tab.tids[i], t, next2);
      Bufs(ts, ts1, tab, t, next, i + 1, ts3, if ts3 == ts2 then next2 else next2 + 1) &&
      (ts3[t].buf == ts[t].target || ts3[t].buf >= next) &&
      forall k {:trigger tab.tids[k]} :: 0 <= k < i ==>
        tab.tids[k] < |ts2| && ts3[tab.tids[k]].buf == ts2[tab.tids[k]].buf
  {
    var u := tab.tids[i];
    assert Computes(ts, mem, tab, i);
    var ts3 := Placed(ts2, u, t, next2);
    if u == t || ts2[u].buf != 0 {
      BufKept(ts, ts1, tab, t, next, i, ts2, next2);
    } else {
      BufGiven(ts, ts1, tab, t, next, i, ts2, next2);
      assert ts3 != ts2;
    }
    forall k | 0 <= k < i ensures tab.tids[k] < |ts2| && ts3[tab.tids[k]].buf == ts2[tab.tids[k]].buf {
      assert Computes(ts, mem, tab, k);
      assert tab.tids[k] in tab.tids[..i] && tab.tids[k] != t;
    }
  }

  ghost predicate Progress(ts: Tensors, mem: Mem, ts1: Tensors, tab: Table, t: nat, next: nat, i: nat,
                           ts2: Tensors, mem2: Mem, next2: nat, temps: seq<nat>)
    requires Dag(ts) && i <= |tab.tids| && t < |ts|
  {
    Bufs(ts, ts1, tab, t, next, i, ts2, next2) && Filled(ts, mem, tab, t, next, i, ts2, mem2) &&
    Temps(ts, tab, i, ts2, temps)
  }

  lemma ProgressNext(ts: Tensors, mem: Mem, ts1: Tensors, tab: Table, t: nat, next: nat, i: nat,
                     ts2: Tensors, mem2: Mem, next2: nat, temps: seq<nat>)
    requires Dag(ts) && Ready(ts, mem, tab, t) && Allocated(ts, ts1, tab.tids, t, next) && InUse(ts, next) &&
      i < |tab.tids|
    requires Progress(ts, mem, ts1, tab, t, next, i, ts2, mem2, next2, temps)
    ensures tab.tids[i] < |ts2| && OpOk(tab.ops[i], |tab.leaves|, |tab.leaves|, i)
    ensures var ts3 := Placed(ts2, tab.tids[i], t, next2);
      Progress(ts, mem, ts1, tab, t, next, i + 1, ts3, mem2[ts3[tab.tids[i]].buf := Computed(tab.ops[i], mem2, temps)],
               if ts3 == ts2 then next2 else next2 + 1, temps + [ts3[tab.tids[i]].buf])
  {
    var ts3 := Placed(ts2, tab.tids[i], t, next2);
    var next3 := if ts3 == ts2 then next2 else next2 + 1;
    ComputedRight(ts, mem, tab, t, next, i, ts2, mem2, temps);
    PlacedBufs(ts, mem, ts1, tab, t, next, i, ts2, next2);
    FilledNext(ts, mem, ts1, tab, t, next, i, ts2, mem2, ts3, next3);
    TempsNext(ts, tab, i, ts2, temps, ts3);
  }

  lemma TempsNext(ts: Tensors, tab: Table, i: nat, ts2: Tensors, temps: seq<nat>, ts3: Tensors)
    requires i < |tab.tids| && Temps(ts, tab, i, ts2, temps) && |ts3| == |ts2| && tab.tids[i] < |ts3|
    requires forall k {:trigger tab.tids[k]} :: 0 <= k < i ==>
      tab.tids[k] < |ts2| && ts3[tab.tids[k]].buf == ts2[tab.tids[k]].buf
    ensures Temps(ts, tab, i + 1, ts3, temps + [ts3[tab.tids[i]].buf])
  {
    var (n, temps') := (|tab.leaves|, temps + [ts3[tab.tids[i]].buf]);
    forall j | 0 <= j < n ensures tab.leaves[j] < |ts| && temps'[j] == ts[tab.leaves[j]].buf {
      assert temps'[j] == temps[j];
    }
  }

  method Place(ts2: Tensors, u: nat, t: nat, next2: nat) returns (ts3: Tensors, next3: nat)
    requires u < |ts2| && next2 > 0
    ensures ts3 == Placed(ts2, u, t, next2) && next3 == if ts3 == ts2 then next2 else next2 + 1
  {
    if u == t || ts2[u].buf != 0 {
      return ts2, next2;
    }
    ts3, next3 := ts2[u := ts2[u].(buf := next2)], next2 + 1;
    assert ts3[u] != ts2[u];
  }

  /** Run the operations one by one. Every tensor of the chain ends up with a buffer
      that holds its value. */
  method RunOneByOne(ts1: Tensors, mem: Mem, ops: seq<FusedOp>, tids: seq<nat>, leaves: seq<nat>, t: nat, next1: nat,
                     ghost ts: Tensors, ghost next: nat)
    returns (ts2: Tensors, mem2: Mem, next2: nat)
    requires Dag(ts) && Ready(ts, mem, Table(ops, tids, leaves), t) && InUse(ts, next)
    requires Allocated(ts, ts1, tids, t, next) && next1 >= next && InUse(ts1, next1)
    ensures Bufs(ts, ts1, Table(ops, tids, leaves), t, next, |tids|, ts2, next2)
    ensures Filled(ts, mem, Table(ops, tids, leaves), t, next, |tids|, ts2, mem2)
  {
    ghost var tab := Table(ops, tids, leaves);
    ts2, mem2, next2 := ts1, mem, next1;
    var temps := LeafBuffers(ts1, leaves);
    StartBufs(ts, mem, ts1, tab, t, next, next1);
    AllocatedDag(ts, mem, ts1, tab, t, next);
    for i := 0 to |ops|
      invariant Progress(ts, mem, ts1, tab, t, next, i, ts2, mem2, next2, temps)
    {
      ProgressNext(ts, mem, ts1, tab, t, next, i, ts2, mem2, next2, temps);
      var u := tids[i];
      var v := Computed(ops[i], mem2, temps);
      ts2, next2 := Place(ts2, u, t, next2);
      mem2 := mem2[ts2[u].buf := v];
      temps := temps + [ts2[u].buf];
    }
  }

  method LeafBuffers(ts: Tensors, leaves: seq<nat>) returns (temps: seq<nat>)
    requires forall j {:trigger leaves[j]} :: 0 <= j < |leaves| ==> leaves[j] < |ts|
    ensures |temps| == |leaves| && forall j {:trigger temps[j]} :: 0 <= j < |leaves| ==> temps[j] == ts[leaves[j]].buf
  {
    temps := [];
    for i := 0 to |leaves|
      invariant |temps| == i && forall j {:trigger temps[j]} :: 0 <= j < i ==> temps[j] == ts[leaves[j]].buf
    {
      temps := temps + [ts[leaves[i]].buf];
    }
  }

  /** The fallback keeps the value of every tensor, whether or not anybody waits for
      it, if and only if the output overwrites no other value. */
  lemma FallbackKeepsIff(ts: Tensors, mem: Mem, ts1: Tensors, tab: Table, t: nat, next: nat, ts2: Tensors, mem2: Mem,
                         next2: nat)
    requires Dag(ts) && Ready(ts, mem, tab, t) && InUse(ts, next) && Allocated(ts, ts1, tab.tids, t, next)
    requires Bufs(ts, ts1, tab, t, next, |tab.tids|, ts2, next2) && Filled(ts, mem, tab, t, next, |tab.tids|, ts2, mem2)
    ensures Dag(ts2) && (AllKept(ts, mem, ts2, mem2) <==> TargetFree(ts, mem, t))
  {
    FallbackBuffers(ts, mem, ts1, tab, t, next, ts2, mem2, next2);
    if TargetFree(ts, mem, t) {
      FallbackMoves(ts, mem, ts1, tab, t, next, ts2, mem2, next2);
      forall u: nat ensures ValueOf(ts2, mem2, u) == ValueOf(ts, mem, u) { MovedKeeps(ts, mem, ts2, mem2, u); }
    } else {
      var u :| 0 <= u < |ts| && ts[u].buf == ts[t].target;
      assert ValueOf(ts2, mem2, u) != ValueOf(ts, mem, u);
    }
  }

  /** Buffers from before stay where they are, and t's holds t's value. */
  lemma FallbackBuffers(ts: Tensors, mem: Mem, ts1: Tensors, tab: Table, t: nat, next: nat, ts2: Tensors, mem2: Mem,
                        next2: nat)
    requires Dag(ts) && Ready(ts, mem, tab, t) && InUse(ts, next) && Allocated(ts, ts1, tab.tids, t, next)
    requires Bufs(ts, ts1, tab, t, next, |tab.tids|, ts2, next2) && Filled(ts, mem, tab, t, next, |tab.tids|, ts2, mem2)
    ensures Dag(ts2) && t < |ts2| && Served(ts, mem, ts2, mem2, t) && ts2[t].buf == ts1[t].buf
    ensures forall u {:trigger ts[u]} :: 0 <= u < |ts| && ts[u].buf != 0 ==> ts2[u].buf == ts[u].buf
  {
    assert tab.tids[..|tab.tids|] == tab.tids;
    AllocatedDag(ts, mem, ts1, tab, t, next);
    forall u | 0 <= u < |ts| && ts[u].buf != 0 ensures ts2[u].buf == ts[u].buf { NotInChain(ts, mem, tab, t, u); }
    DagKept(ts, ts2);
    assert tab.tids[|tab.ops| - 1] == t;
  }

  lemma FallbackMoves(ts: Tensors, mem: Mem, ts1: Tensors, tab: Table, t: nat, next: nat, ts2: Tensors, mem2: Mem,
                      next2: nat)
    requires Dag(ts) && Ready(ts, mem, tab, t) && InUse(ts, next) && Allocated(ts, ts1, tab.tids, t, next)
    requires Bufs(ts, ts1, tab, t, next, |tab.tids|, ts2, next2) && Filled(ts, mem, tab, t, next, |tab.tids|, ts2, mem2)
    requires TargetFree(ts, mem, t)
    ensures Moved(ts, mem, ts2, mem2)
  {
    FallbackBuffers(ts, mem, ts1, tab, t, next, ts2, mem2, next2);
    assert tab.tids[..|tab.tids|] == tab.tids;
    forall u: nat | NewlyGiven(ts, ts2, u) ensures Served(ts, mem, ts2, mem2, u) {
      assert tab.tids[|tab.ops| - 1] == t;
      assert ts1[u].buf == ts[u].buf || Given(ts, tab.tids, t, u);
      var k :| 0 <= k < |tab.tids| && tab.tids[k] == u;
    }
  }
}
