/** What a fused kernel leaves in the buffers. */
module ChainOutputs {
  import opened Chains
  import opened ChainDispatch

  /** A tensor that had no buffer has one now. */
  predicate NewlyGiven(ts: Tensors, ts': Tensors, u: nat) { u < |ts| == |ts'| && ts[u].buf == 0 && ts'[u].buf != 0 }

  /** Its buffer holds its value. */
  ghost predicate Served(ts: Tensors, mem: Mem, ts': Tensors, mem': Mem, u: nat)
    requires Dag(ts) && u < |ts'|
  {
    Contents(mem', ts'[u].buf) == ValueOf(ts, mem, u)
  }

  // ------------------------------------------------------------- the fused kernel

  ghost predicate Within(ts': Tensors, tab: Table, positions: seq<nat>) {
    |tab.ops| == |tab.tids| &&
    forall j {:trigger positions[j]} :: 0 <= j < |positions| ==>
      positions[j] < |tab.tids| && tab.tids[positions[j]] < |ts'|
  }

  /** The kernel computes every operation from the leaves as they are, then writes
      the results at the given positions to their tensors' buffers. */
  ghost function Writes(mem: Mem, ts': Tensors, tab: Table, inputs: seq<Val>, positions: seq<nat>): Mem
    requires Within(ts', tab, positions)
  {
    if positions == [] then mem
    else
      var (rest, p) := (positions[..|positions| - 1], positions[|positions| - 1]);
      Writes(mem, ts', tab, inputs, rest)[ts'[tab.tids[p]].buf := Result(inputs, tab.ops, |tab.leaves|, p)]
  }

  /** The main output is the last operation's; then come the side outputs. */
  ghost function FusedPositions(ts': Tensors, tab: Table, t: nat): seq<nat>
    requires |tab.tids| > 0
  {
    [|tab.tids| - 1] + Sides(ts', tab.tids, t, 0, MAX_SIDES)
  }

  /** The positions written to are in the program, and tensors written to are given
      buffers of their own. */
  ghost predicate Targets(ts: Tensors, ts': Tensors, tab: Table, t: nat, positions: seq<nat>) {
    Within(ts', tab, positions) &&
    forall j {:trigger positions[j]} :: 0 <= j < |positions| ==> Given(ts, tab.tids, t, tab.tids[positions[j]])
  }

  ghost predicate Avoids(ts': Tensors, tab: Table, positions: seq<nat>, b: nat) {
    Within(ts', tab, positions) &&
    forall j {:trigger positions[j]} :: 0 <= j < |positions| ==> ts'[tab.tids[positions[j]]].buf != b
  }

  lemma {:induction false} WritesServe(ts: Tensors, mem: Mem, ts': Tensors, tab: Table, t: nat, next: nat,
                                       positions: seq<nat>, p: nat)
    requires Dag(ts) && Ready(ts, mem, tab, t) && Allocated(ts, ts', tab.tids, t, next)
    requires Targets(ts, ts', tab, t, positions) && p in positions
    ensures Served(ts, mem, ts', Writes(mem, ts', tab, Inputs(ts, mem, tab.leaves), positions), tab.tids[p])
  {
    var (rest, q) := (positions[..|positions| - 1], positions[|positions| - 1]);
    assert positions == rest + [q];
    assert Computes(ts, mem, tab, q) && Given(ts, tab.tids, t, tab.tids[q]);
    if tab.tids[p] != tab.tids[q] {
      assert p in rest;
      WritesServe(ts, mem, ts', tab, t, next, rest, p);
      var j :| 0 <= j < |positions| && positions[j] == p;
      assert Given(ts, tab.tids, t, tab.tids[p]);
    }
  }

  lemma {:induction false} WritesElsewhere(mem: Mem, ts': Tensors, tab: Table, inputs: seq<Val>, positions: seq<nat>,
                                           b: nat)
    requires Avoids(ts', tab, positions, b)
    ensures Contents(Writes(mem, ts', tab, inputs, positions), b) == Contents(mem, b)
  {
    if positions != [] {
      var rest := positions[..|positions| - 1];
      WritesElsewhere(mem, ts', tab, inputs, rest, b);
    }
  }

  lemma FusedTargets(ts: Tensors, mem: Mem, ts': Tensors, tab: Table, t: nat, next: nat)
    requires Dag(ts) && Ready(ts, mem, tab, t) && Allocated(ts, ts', tab.tids, t, next)
    ensures Targets(ts, ts', tab, t, FusedPositions(ts', tab, t))
  {
    var ps := FusedPositions(ts', tab, t);
    forall j | 0 <= j < |ps|
      ensures ps[j] < |tab.ops| == |tab.tids| && tab.tids[ps[j]] < |ts'| && Given(ts, tab.tids, t, tab.tids[ps[j]])
    {
      if j > 0 {
        assert ps[j] in Sides(ts', tab.tids, t, 0, MAX_SIDES);
        SidesQualify(ts', tab.tids, t, 0, MAX_SIDES, ps[j]);
        assert ts'[tab.tids[ps[j]]].consumers == ts[tab.tids[ps[j]]].consumers;
      }
    }
  }

  ghost function FusedMem(ts: Tensors, mem: Mem, ts': Tensors, tab: Table, t: nat, next: nat): Mem
    requires Dag(ts) && Ready(ts, mem, tab, t) && Allocated(ts, ts', tab.tids, t, next)
  {
    FusedTargets(ts, mem, ts', tab, t, next);
    Writes(mem, ts', tab, Inputs(ts, mem, tab.leaves), FusedPositions(ts', tab, t))
  }

  /** u is the tensor asked for, or one of the first eight positions that qualify
      computes it. */
  predicate Collected(ts': Tensors, tids: seq<nat>, t: nat, u: nat) {
    u == t || exists p :: p in Sides(ts', tids, t, 0, MAX_SIDES) && p < |tids| && tids[p] == u
  }

  lemma FusedServes(ts: Tensors, mem: Mem, ts': Tensors, tab: Table, t: nat, next: nat, u: nat)
    requires Dag(ts) && Ready(ts, mem, tab, t) && Allocated(ts, ts', tab.tids, t, next)
    requires Collected(ts', tab.tids, t, u)
    ensures u < |ts'| && Served(ts, mem, ts', FusedMem(ts, mem, ts', tab, t, next), u)
  {
    var ps := FusedPositions(ts', tab, t);
    FusedTargets(ts, mem, ts', tab, t, next);
    var p := |tab.tids| - 1;
    assert ps[0] == p;
    if u != t {
      p :| p in Sides(ts', tab.tids, t, 0, MAX_SIDES) && p < |tab.tids| && tab.tids[p] == u;
      SidesQualify(ts', tab.tids, t, 0, MAX_SIDES, p);
    }
    assert Computes(ts, mem, tab, p);
    WritesServe(ts, mem, ts', tab, t, next, ps, p);
  }

  /** A tensor with a new buffer that is not collected: its buffer is never written. */
  lemma NotCollected(ts: Tensors, mem: Mem, ts': Tensors, tab: Table, t: nat, next: nat, u: nat)
    requires Dag(ts) && Ready(ts, mem, tab, t) && Allocated(ts, ts', tab.tids, t, next)
    requires Wanted(ts, tab.tids, t, u) && !Collected(ts', tab.tids, t, u)
    ensures Contents(FusedMem(ts, mem, ts', tab, t, next), ts'[u].buf) == Contents(mem, ts'[u].buf)
  {
    var ps := FusedPositions(ts', tab, t);
    FusedTargets(ts, mem, ts', tab, t, next);
    forall j | 0 <= j < |ps| ensures ts'[tab.tids[ps[j]]].buf != ts'[u].buf {
      assert Given(ts, tab.tids, t, tab.tids[ps[j]]) && Given(ts, tab.tids, t, u);
      if j > 0 { assert ps[j] in Sides(ts', tab.tids, t, 0, MAX_SIDES); }
    }
    WritesElsewhere(mem, ts', tab, Inputs(ts, mem, tab.leaves), ps, ts'[u].buf);
  }

  /** The buffers of the kernel are right if and only if every tensor that was given
      one is collected; `mem` knows nothing about buffers not yet handed out. */
  lemma FusedRightIff(ts: Tensors, mem: Mem, ts': Tensors, tab: Table, t: nat, next: nat)
    requires Dag(ts) && Ready(ts, mem, tab, t) && Allocated(ts, ts', tab.tids, t, next)
    requires forall b {:trigger b in mem} :: b in mem ==> b < next
    ensures (forall u: nat {:trigger Wanted(ts, tab.tids, t, u)} :: Wanted(ts, tab.tids, t, u) ==>
               Served(ts, mem, ts', FusedMem(ts, mem, ts', tab, t, next), u))
       <==> (forall u: nat {:trigger Wanted(ts, tab.tids, t, u)} :: Wanted(ts, tab.tids, t, u) ==>
         Collected(ts', tab.tids, t, u))
  {
    forall u: nat | Wanted(ts, tab.tids, t, u)
      ensures Served(ts, mem, ts', FusedMem(ts, mem, ts', tab, t, next), u) <==> Collected(ts', tab.tids, t, u)
    {
      if Collected(ts', tab.tids, t, u) {
        FusedServes(ts, mem, ts', tab, t, next, u);
      } else {
        NotCollected(ts, mem, ts', tab, t, next, u);
        var k :| 0 <= k < |tab.tids| && tab.tids[k] == u;
        assert Computes(ts, mem, tab, k);
        assert ValueOf(ts, mem, u).Un? || ValueOf(ts, mem, u).Bin?;
      }
    }
  }
}
