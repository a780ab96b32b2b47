/** When materialising a chain keeps the value of every tensor. */
module ChainValues {
  import opened Chains
  import opened ChainDispatch
  import opened ChainOutputs

  /** Old buffers keep their contents, and tensors with new buffers are served. */
  ghost predicate Moved(ts: Tensors, mem: Mem, ts': Tensors, mem': Mem)
    requires Dag(ts)
  {
    SameButBufs(ts, ts') &&
    (forall u {:trigger ts[u]} :: 0 <= u < |ts| && ts[u].buf != 0 ==>
       ts'[u].buf == ts[u].buf && Contents(mem', ts[u].buf) == Contents(mem, ts[u].buf)) &&
    (forall u: nat {:trigger NewlyGiven(ts, ts', u)} :: NewlyGiven(ts, ts', u) ==> Served(ts, mem, ts', mem', u))
  }

  lemma {:induction false} MovedKeeps(ts: Tensors, mem: Mem, ts': Tensors, mem': Mem, u: nat)
    requires Dag(ts) && Dag(ts') && Moved(ts, mem, ts', mem')
    ensures ValueOf(ts', mem', u) == ValueOf(ts, mem, u)
    decreases u
  {
    if u < |ts| {
      if ts[u].buf == 0 && ts'[u].buf != 0 {
        assert NewlyGiven(ts, ts', u);
      } else if Deferred(ts, u) {
        MovedKeeps(ts, mem, ts', mem', ts[u].src0);
        if IsBinary(ts[u].op) { MovedKeeps(ts, mem, ts', mem', ts[u].src1); }
      }
    }
  }

  /** The chain computes deferred tensors only. */
  lemma NotInChain(ts: Tensors, mem: Mem, tab: Table, t: nat, u: nat)
    requires Dag(ts) && Ready(ts, mem, tab, t) && u < |ts| && ts[u].buf != 0
    ensures u !in tab.tids && u != t
  {
    forall k | 0 <= k < |tab.tids| ensures tab.tids[k] != u { assert Computes(ts, mem, tab, k); }
  }

  lemma AllocatedDag(ts: Tensors, mem: Mem, ts': Tensors, tab: Table, t: nat, next: nat)
    requires Dag(ts) && Ready(ts, mem, tab, t) && Allocated(ts, ts', tab.tids, t, next) && InUse(ts, next)
    ensures Dag(ts') && forall u {:trigger ts[u]} :: 0 <= u < |ts| && ts[u].buf != 0 ==> ts'[u].buf == ts[u].buf
  {
    forall u | 0 <= u < |ts| && ts[u].buf != 0 ensures ts'[u].buf == ts[u].buf { NotInChain(ts, mem, tab, t, u); }
    DagKept(ts, ts');
  }

  ghost predicate AllCollected(ts: Tensors, ts': Tensors, tids: seq<nat>, t: nat) {
    forall u: nat {:trigger Wanted(ts, tids, t, u)} :: Wanted(ts, tids, t, u) ==> Collected(ts', tids, t, u)
  }

  ghost predicate AllKept(ts: Tensors, mem: Mem, ts': Tensors, mem': Mem)
    requires Dag(ts) && Dag(ts')
  {
    forall u: nat {:trigger ValueOf(ts', mem', u)} :: ValueOf(ts', mem', u) == ValueOf(ts, mem, u)
  }

  /** The buffer chosen for t beforehand, if there is one, holds no tensor's value
      that overwriting it would change. */
  ghost predicate TargetFree(ts: Tensors, mem: Mem, t: nat)
    requires Dag(ts) && t < |ts|
  {
    ts[t].target == 0 || Contents(mem, ts[t].target) == ValueOf(ts, mem, t) ||
    forall u {:trigger ts[u]} :: 0 <= u < |ts| ==> ts[u].buf != ts[t].target
  }

  lemma FusedMoves(ts: Tensors, mem: Mem, ts': Tensors, tab: Table, t: nat, next: nat)
    requires Dag(ts) && Ready(ts, mem, tab, t) && Allocated(ts, ts', tab.tids, t, next) && InUse(ts, next)
    requires TargetFree(ts, mem, t) && AllCollected(ts, ts', tab.tids, t)
    ensures Moved(ts, mem, ts', FusedMem(ts, mem, ts', tab, t, next))
  {
    var mem' := FusedMem(ts, mem, ts', tab, t, next);
    var ps := FusedPositions(ts', tab, t);
    AllocatedDag(ts, mem, ts', tab, t, next);
    FusedTargets(ts, mem, ts', tab, t, next);
    FusedServes(ts, mem, ts', tab, t, next, t);
    forall u | 0 <= u < |ts| && ts[u].buf != 0 ensures Contents(mem', ts[u].buf) == Contents(mem, ts[u].buf) {
      if ts[u].buf != ts'[t].buf {
        forall j | 0 <= j < |ps| ensures ts'[tab.tids[ps[j]]].buf != ts[u].buf {
          assert Given(ts, tab.tids, t, tab.tids[ps[j]]);
        }
        WritesElsewhere(mem, ts', tab, Inputs(ts, mem, tab.leaves), ps, ts[u].buf);
      }
    }
    forall u: nat | NewlyGiven(ts, ts', u) ensures Served(ts, mem, ts', mem', u) {
      assert u == t || Wanted(ts, tab.tids, t, u);
      FusedServes(ts, mem, ts', tab, t, next, u);
    }
  }

  lemma LostValue(ts: Tensors, mem: Mem, ts': Tensors, tab: Table, t: nat, next: nat, u: nat)
    requires Dag(ts) && Ready(ts, mem, tab, t) && Allocated(ts, ts', tab.tids, t, next) && InUse(ts, next)
    requires forall b {:trigger b in mem} :: b in mem ==> b < next
    requires Wanted(ts, tab.tids, t, u) && !Collected(ts', tab.tids, t, u) && Dag(ts')
    ensures ValueOf(ts', FusedMem(ts, mem, ts', tab, t, next), u) != ValueOf(ts, mem, u)
  {
    NotCollected(ts, mem, ts', tab, t, next, u);
    var k :| 0 <= k < |tab.tids| && tab.tids[k] == u;
    assert Computes(ts, mem, tab, k);
    assert ts'[u].buf >= next;
  }

  /** Writing the result over a tensor with another value. */
  lemma Overwritten(ts: Tensors, mem: Mem, ts': Tensors, tab: Table, t: nat, next: nat) returns (u: nat)
    requires Dag(ts) && Ready(ts, mem, tab, t) && Allocated(ts, ts', tab.tids, t, next) && InUse(ts, next)
    requires !TargetFree(ts, mem, t) && Dag(ts')
    ensures ValueOf(ts', FusedMem(ts, mem, ts', tab, t, next), u) != ValueOf(ts, mem, u)
  {
    u :| 0 <= u < |ts| && ts[u].buf == ts[t].target;
    AllocatedDag(ts, mem, ts', tab, t, next);
    FusedServes(ts, mem, ts', tab, t, next, t);
  }

  /** Running the fused kernel keeps the value of every tensor if and only if every
      tensor that was given a side buffer is collected, and the output overwrites
      no other value. */
  lemma FusedKeepsIff(ts: Tensors, mem: Mem, ts': Tensors, tab: Table, t: nat, next: nat)
    requires Dag(ts) && Ready(ts, mem, tab, t) && Allocated(ts, ts', tab.tids, t, next) && InUse(ts, next)
    requires forall b {:trigger b in mem} :: b in mem ==> b < next
    ensures Dag(ts') &&
      (AllKept(ts, mem, ts', FusedMem(ts, mem, ts', tab, t, next)) <==>
         AllCollected(ts, ts', tab.tids, t) && TargetFree(ts, mem, t))
  {
    AllocatedDag(ts, mem, ts', tab, t, next);
    var mem' := FusedMem(ts, mem, ts', tab, t, next);
    if !TargetFree(ts, mem, t) {
      var u := Overwritten(ts, mem, ts', tab, t, next);
      assert ValueOf(ts', mem', u) != ValueOf(ts, mem, u);
    } else if AllCollected(ts, ts', tab.tids, t) {
      FusedMoves(ts, mem, ts', tab, t, next);
      forall u: nat ensures ValueOf(ts', mem', u) == ValueOf(ts, mem, u) { MovedKeeps(ts, mem, ts', mem', u); }
    } else {
      var u: nat :| Wanted(ts, tab.tids, t, u) && !Collected(ts', tab.tids, t, u);
      LostValue(ts, mem, ts', tab, t, next, u);
      assert ValueOf(ts', mem', u) != ValueOf(ts, mem, u);
    }
  }

  // --------------------------------------------------- when all are collected

  /** Positions from i up to p whose tensors get side buffers; a tensor that is computed
      several times counts every time. */
  function Demand(ts: Tensors, tids: seq<nat>, t: nat, i: nat, p: nat): nat
    requires i <= p <= |tids|
    decreases p - i
  {
    if i == p then 0 else (if Wanted(ts, tids, t, tids[i]) then 1 else 0) + Demand(ts, tids, t, i + 1, p)
  }

  lemma {:induction false} DemandGrows(ts: Tensors, tids: seq<nat>, t: nat, i: nat, p: nat, q: nat)
    requires i <= p <= q <= |tids|
    ensures Demand(ts, tids, t, i, p) <= Demand(ts, tids, t, i, q)
    ensures p < q && Wanted(ts, tids, t, tids[p]) ==> Demand(ts, tids, t, i, p) < Demand(ts, tids, t, i, q)
    decreases p - i
  {
    if i < p { DemandGrows(ts, tids, t, i + 1, p, q); }
  }

  /** Once buffers are allocated, the tensors that qualify are those that got one. */
  lemma QualifyingIsWanted(ts: Tensors, mem: Mem, ts': Tensors, tab: Table, t: nat, next: nat, p: nat)
    requires Dag(ts) && Ready(ts, mem, tab, t) && Allocated(ts, ts', tab.tids, t, next) && next > 0 && p < |tab.tids|
    ensures Qualifies(ts', tab.tids, t, p) <==> Wanted(ts, tab.tids, t, tab.tids[p])
  {
    assert Computes(ts, mem, tab, p);
    assert ts'[tab.tids[p]].consumers == ts[tab.tids[p]].consumers;
  }

  /** A position is among the first `room` that qualify exactly when it qualifies and
      fewer than `room` before it do. */
  lemma {:induction false} SidesIff(ts: Tensors, mem: Mem, ts': Tensors, tab: Table, t: nat, next: nat, i: nat,
                                    room: nat, p: nat)
    requires Dag(ts) && Ready(ts, mem, tab, t) && Allocated(ts, ts', tab.tids, t, next) && next > 0
    requires i <= p < |tab.tids|
    ensures p in Sides(ts', tab.tids, t, i, room) <==>
      Wanted(ts, tab.tids, t, tab.tids[p]) && Demand(ts, tab.tids, t, i, p) < room
    decreases p - i
  {
    QualifyingIsWanted(ts, mem, ts', tab, t, next, i);
    if i == p {
      if p in Sides(ts', tab.tids, t, i + 1, room) { SidesQualify(ts', tab.tids, t, i + 1, room, p); }
    } else if room > 0 {
      SidesIff(ts, mem, ts', tab, t, next, i + 1, if Wanted(ts, tab.tids, t, tab.tids[i]) then room - 1 else room, p);
    }
  }

  /** u is computed at a place with fewer than eight side outputs before it. */
  predicate InTime(ts: Tensors, tids: seq<nat>, t: nat, u: nat) {
    exists p :: 0 <= p < |tids| && tids[p] == u && Demand(ts, tids, t, 0, p) < 8
  }

  ghost predicate AllInTime(ts: Tensors, tids: seq<nat>, t: nat) {
    forall u: nat {:trigger Wanted(ts, tids, t, u)} :: Wanted(ts, tids, t, u) ==> InTime(ts, tids, t, u)
  }

  lemma CollectedInTime(ts: Tensors, mem: Mem, ts': Tensors, tab: Table, t: nat, next: nat, u: nat)
    requires Dag(ts) && Ready(ts, mem, tab, t) && Allocated(ts, ts', tab.tids, t, next) && next > 0
    requires Wanted(ts, tab.tids, t, u)
    ensures Collected(ts', tab.tids, t, u) <==> InTime(ts, tab.tids, t, u)
  {
    forall p: nat | p < |tab.tids| && tab.tids[p] == u
      ensures p in Sides(ts', tab.tids, t, 0, MAX_SIDES) <==> Demand(ts, tab.tids, t, 0, p) < MAX_SIDES
    {
      SidesIff(ts, mem, ts', tab, t, next, 0, MAX_SIDES, p);
    }
  }

  /** All side outputs are served if and only if every tensor that gets a side buffer is
      computed in time, at one of its places. */
  lemma CollectedIff(ts: Tensors, mem: Mem, ts': Tensors, tab: Table, t: nat, next: nat)
    requires Dag(ts) && Ready(ts, mem, tab, t) && Allocated(ts, ts', tab.tids, t, next) && next > 0
    ensures AllCollected(ts, ts', tab.tids, t) <==> AllInTime(ts, tab.tids, t)
  {
    forall u: nat | Wanted(ts, tab.tids, t, u)
      ensures Collected(ts', tab.tids, t, u) <==> InTime(ts, tab.tids, t, u)
    {
      CollectedInTime(ts, mem, ts', tab, t, next, u);
    }
  }

  /** A chain that is planned and run keeps the value of every tensor if and only if,
      in the schedule of t, every tensor that gets a side buffer comes in time, and the
      output overwrites no other value. */
  lemma ChainKeepsIff(ts: Tensors, mem: Mem, ts': Tensors, tab: Table, t: nat, next: nat)
    requires Dag(ts) && Planned(ts, mem, tab, t) && Allocated(ts, ts', tab.tids, t, next) && InUse(ts, next)
    requires forall b {:trigger b in mem} :: b in mem ==> b < next
    ensures Dag(ts') &&
      (AllKept(ts, mem, ts', FusedMem(ts, mem, ts', tab, t, next)) <==>
         AllInTime(ts, Schedule(ts, t), t) && TargetFree(ts, mem, t))
  {
    FusedKeepsIff(ts, mem, ts', tab, t, next);
    CollectedIff(ts, mem, ts', tab, t, next);
  }

  /** At most eight places always suffice, and are needed when no tensor is computed twice. */
  lemma AtMostEight(ts: Tensors, tids: seq<nat>, t: nat)
    ensures Demand(ts, tids, t, 0, |tids|) <= 8 ==> AllInTime(ts, tids, t)
    ensures (forall i, j :: 0 <= i < j < |tids| ==> tids[i] != tids[j]) && AllInTime(ts, tids, t) ==>
      Demand(ts, tids, t, 0, |tids|) <= 8
  {
    if Demand(ts, tids, t, 0, |tids|) <= MAX_SIDES {
      forall u: nat | Wanted(ts, tids, t, u) ensures InTime(ts, tids, t, u) {
        var p :| 0 <= p < |tids| && tids[p] == u;
        DemandGrows(ts, tids, t, 0, p, |tids|);
      }
    } else if forall i, j :: 0 <= i < j < |tids| ==> tids[i] != tids[j] {
      var p := LatePlace(ts, tids, t, 0, MAX_SIDES);
      assert Wanted(ts, tids, t, tids[p]) && !InTime(ts, tids, t, tids[p]);
    }
  }

  lemma {:induction false} LatePlace(ts: Tensors, tids: seq<nat>, t: nat, i: nat, room: nat) returns (p: nat)
    requires i <= |tids| && Demand(ts, tids, t, i, |tids|) > room
    ensures i <= p < |tids| && Wanted(ts, tids, t, tids[p]) && Demand(ts, tids, t, i, p) >= room
    decreases |tids| - i
  {
    if Wanted(ts, tids, t, tids[i]) {
      if room == 0 {
        p := i;
      } else {
        p := LatePlace(ts, tids, t, i + 1, room - 1);
      }
    } else {
      p := LatePlace(ts, tids, t, i + 1, room);
    }
  }

  // ------------------------------------------------------- counters as they are kept

  /** Making a deferred tensor counts its sources, so every source of one has been counted. */
  ghost predicate Counted(ts: Tensors) {
    forall u {:trigger ts[u]} :: 0 <= u < |ts| && Deferred(ts, u) ==>
      SourceCounted(ts, ts[u].src0) && (IsBinary(ts[u].op) ==> SourceCounted(ts, ts[u].src1))
  }

  predicate SourceCounted(ts: Tensors, u: nat) { u < |ts| && ts[u].consumers > 0 }

  /** An entry of a schedule before the last one: an earlier tensor, and counted. */
  predicate Inner(ts: Tensors, t: nat, u: nat) { u < t && SourceCounted(ts, u) }

  lemma {:induction false} ScheduleInner(ts: Tensors, t: nat)
    requires Dag(ts) && Counted(ts)
    ensures var tids := Schedule(ts, t);
      (forall k :: 0 <= k < |tids| - 1 ==> Inner(ts, t, tids[k])) && (tids != [] ==> tids[|tids| - 1] == t)
    decreases t
  {
    if Deferred(ts, t) {
      var m := ts[t];
      ScheduleInner(ts, m.src0);
      AllInner(ts, m.src0, t);
      if IsBinary(m.op) {
        ScheduleInner(ts, m.src1);
        AllInner(ts, m.src1, t);
      }
    }
  }

  /** The schedule of a counted source lies inside that of its reader. */
  lemma AllInner(ts: Tensors, src: nat, t: nat)
    requires Dag(ts) && src < t && SourceCounted(ts, src)
    requires var tids := Schedule(ts, src);
      (forall k :: 0 <= k < |tids| - 1 ==> Inner(ts, src, tids[k])) && (tids != [] ==> tids[|tids| - 1] == src)
    ensures forall k :: 0 <= k < |Schedule(ts, src)| ==> Inner(ts, t, Schedule(ts, src)[k])
  {
  }

  /** Every place of the schedule but the last takes a side output. */
  lemma {:induction false} EveryPlaceCounts(ts: Tensors, t: nat, i: nat, p: nat)
    requires Dag(ts) && Counted(ts) && i <= p < |Schedule(ts, t)|
    ensures Demand(ts, Schedule(ts, t), t, i, p) == p - i
    decreases p - i
  {
    if i < p {
      ScheduleInner(ts, t);
      assert Inner(ts, t, Schedule(ts, t)[i]);
      EveryPlaceCounts(ts, t, i + 1, p);
    }
  }

  /** One of the first eight places computes u. */
  predicate AmongFirst(tids: seq<nat>, u: nat) {
    exists p :: 0 <= p < |tids| && p < 8 && tids[p] == u
  }

  ghost predicate AllAmongFirst(ts: Tensors, t: nat)
    requires Dag(ts)
  {
    forall u: nat {:trigger AmongFirst(Schedule(ts, t), u)} ::
      u in Schedule(ts, t) && u != t ==> AmongFirst(Schedule(ts, t), u)
  }

  lemma InTimeIsFirst(ts: Tensors, t: nat, u: nat)
    requires Dag(ts) && Counted(ts) && u in Schedule(ts, t) && u != t
    ensures Wanted(ts, Schedule(ts, t), t, u)
    ensures InTime(ts, Schedule(ts, t), t, u) <==> AmongFirst(Schedule(ts, t), u)
  {
    var tids := Schedule(ts, t);
    ScheduleInner(ts, t);
    var k :| 0 <= k < |tids| && tids[k] == u;
    assert Inner(ts, t, tids[k]);
    forall p | 0 <= p < |tids| && tids[p] == u ensures Demand(ts, tids, t, 0, p) == p { EveryPlaceCounts(ts, t, 0, p); }
  }

  /** With counters as they are kept, and no buffer chosen beforehand, a planned chain
      keeps every value if and only if each tensor of it but the last is computed at one
      of the first eight places, whether anybody else reads it or not. */
  lemma CountedKeepsIff(ts: Tensors, mem: Mem, ts': Tensors, tab: Table, t: nat, next: nat)
    requires Dag(ts) && Planned(ts, mem, tab, t) && Allocated(ts, ts', tab.tids, t, next) && InUse(ts, next)
    requires forall b {:trigger b in mem} :: b in mem ==> b < next
    requires Counted(ts) && ts[t].target == 0
    ensures Dag(ts') &&
      (AllKept(ts, mem, ts', FusedMem(ts, mem, ts', tab, t, next)) <==> AllAmongFirst(ts, t))
  {
    ChainKeepsIff(ts, mem, ts', tab, t, next);
    FirstIff(ts, t);
  }

  lemma FirstIff(ts: Tensors, t: nat)
    requires Dag(ts) && Counted(ts)
    ensures AllInTime(ts, Schedule(ts, t), t) <==> AllAmongFirst(ts, t)
  {
    var tids := Schedule(ts, t);
    forall u: nat | u in tids && u != t
      ensures Wanted(ts, tids, t, u) && (InTime(ts, tids, t, u) <==> AmongFirst(tids, u))
    {
      InTimeIsFirst(ts, t, u);
    }
  }

  /** When no tensor is computed twice, that is: at most nine operations. */
  lemma AtMostNine(ts: Tensors, t: nat)
    requires Dag(ts) && Counted(ts)
    requires var tids := Schedule(ts, t); forall i, j :: 0 <= i < j < |tids| ==> tids[i] != tids[j]
    ensures AllAmongFirst(ts, t) <==> |Schedule(ts, t)| <= 9
  {
    var tids := Schedule(ts, t);
    ScheduleInner(ts, t);
    if |tids| > MAX_SIDES + 1 {
      assert Inner(ts, t, tids[MAX_SIDES]);
      assert tids[MAX_SIDES] in tids && !AmongFirst(tids, tids[MAX_SIDES]);
    } else {
      forall u: nat | u in tids && u != t ensures AmongFirst(tids, u) {
        var p :| 0 <= p < |tids| && tids[p] == u;
      }
    }
  }

  // ------------------------------------------------------------- the counterexample

  /** A leaf and then ten negations in a row, each of them read by the next and by nobody
      else. */
  function TenInARow(): (ts: Tensors)
    ensures |ts| == 12
  {
    seq(12, (i: nat) => if i == 0 then Meta(0, 0, 0, 0, 0, 0, 0)
                 else if i == 1 then Meta(1, 0, 0, 0, 0, 1, 0)
                 else Meta(0, UOP_NEG, i - 1, 0, 0, if i < 11 then 1 else 0, 0))
  }

  /** Their program: operation i negates operand i. */
  function TenOps(): Table {
    Table(seq(10, (i: nat) => FusedOp(UOP_NEG, i, 0, 0)), seq(10, (i: nat) => i + 2), [1])
  }

  /** The buffers that are handed out: the output's first, then one for each of the others. */
  function TenBuffers(): Tensors {
    seq(12, (i: nat) requires i < 12 => TenInARow()[i].(buf := if i < 2 then i else if i == 11 then 2 else i + 1))
  }

  lemma TenDag()
    ensures Dag(TenInARow())
  {
  }

  lemma TenCounted()
    ensures Counted(TenInARow())
  {
  }

  lemma {:induction false} TenSchedule(n: nat)
    requires n < 11
    ensures Dag(TenInARow()) && Schedule(TenInARow(), n + 1) == seq(n, (i: nat) => i + 2)
  {
    TenDag();
    if n > 0 {
      TenSchedule(n - 1);
      assert Deferred(TenInARow(), n + 1) && !IsBinary(UOP_NEG);
      assert Schedule(TenInARow(), n + 1) == Schedule(TenInARow(), n) + [] + [n + 1];
    }
  }

  lemma {:induction false} TenLeaves(n: nat)
    requires n < 11
    ensures Dag(TenInARow()) && LeafSet(TenInARow(), n + 1) == {1}
  {
    TenDag();
    if n > 0 { TenLeaves(n - 1); }
  }

  lemma {:induction false} TenValues(mem: Mem, k: nat)
    requires k < 10
    ensures Dag(TenInARow())
    ensures Result(Inputs(TenInARow(), mem, [1]), TenOps().ops, 1, k) == ValueOf(TenInARow(), mem, k + 2)
  {
    TenDag();
    if k > 0 { TenValues(mem, k - 1); }
  }

  lemma TenWired()
    ensures Wiring(TenInARow(), TenOps(), 1)
  {
  }

  lemma TenReady(mem: Mem)
    ensures Dag(TenInARow()) && Ready(TenInARow(), mem, TenOps(), 11)
  {
    TenDag();
    forall k | 0 <= k < 10 ensures Computes(TenInARow(), mem, TenOps(), k) { TenValues(mem, k); }
    forall k | 0 <= k < 10 ensures OpOk(TenOps().ops[k], 1, 1, k) {}
  }

  lemma TenPlanned(mem: Mem)
    ensures Dag(TenInARow()) && Planned(TenInARow(), mem, TenOps(), 11)
  {
    TenReady(mem);
    TenSchedule(10);
    TenLeaves(10);
    TenWired();
  }

  lemma TenAllocated()
    ensures InUse(TenInARow(), 2) && Allocated(TenInARow(), TenBuffers(), TenOps().tids, 11, 2)
  {
    var (ts, tids) := (TenInARow(), TenOps().tids);
    forall u | 0 <= u < 12 ensures Wanted(ts, tids, 11, u) <==> 2 <= u < 11 {
      if 2 <= u { assert tids[u - 2] == u; }
    }
  }

  lemma {:induction false} TenDemand(i: nat, p: nat)
    requires i <= p <= 9
    ensures p <= |TenOps().tids| && Demand(TenInARow(), TenOps().tids, 11, i, p) == p - i
    decreases p - i
  {
    if i < p {
      assert TenOps().tids[i] == i + 2;
      TenDemand(i + 1, p);
    }
  }

  /** The ninth intermediate is given a buffer that the kernel never writes, so
      its value is lost. */
  lemma NinthIsLost(mem: Mem)
    requires forall b {:trigger b in mem} :: b in mem ==> b < 2
    ensures Dag(TenInARow()) && Dag(TenBuffers()) && Planned(TenInARow(), mem, TenOps(), 11)
    ensures Counted(TenInARow())
    ensures Allocated(TenInARow(), TenBuffers(), TenOps().tids, 11, 2)
    ensures !AllKept(TenInARow(), mem, TenBuffers(), FusedMem(TenInARow(), mem, TenBuffers(), TenOps(), 11, 2))
  {
    TenPlanned(mem);
    TenAllocated();
    TenCounted();
    ChainKeepsIff(TenInARow(), mem, TenBuffers(), TenOps(), 11, 2);
    NinthIsLate();
  }

  lemma NinthIsLate()
    ensures !AllInTime(TenInARow(), TenOps().tids, 11)
  {
    var tids := TenOps().tids;
    assert tids[8] == 10 && Wanted(TenInARow(), tids, 11, 10);
    forall p | 0 <= p < |tids| && tids[p] == 10 ensures Demand(TenInARow(), tids, 11, 0, p) >= MAX_SIDES {
      TenDemand(0, 8);
    }
  }
}
