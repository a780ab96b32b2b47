/** Whole runs of the continuation protocol. */
module ContinuationRuns {
  import opened TreeSum
  import opened Continuations
  import opened ContinuationSteps
  import opened ContinuationWork

  ghost function StartBook(depth: nat): Book {
    Book(map[ROOT_RET := ByAct(0)], map[ROOT_RET := GSum(depth, 0)], {}, {}, map[])
  }

  lemma StartInv(depth: nat)
    ensures Inv(Start(depth), StartBook(depth))
  {
    var (s, b) := (Start(depth), StartBook(depth));
    forall i: nat | i < |s.acts| ensures ActOk(s, b, i) {
      assert i == 0;
    }
  }

  /** The continuation that an action fires, if it fires one. */
  ghost function FiredBy(s: State, a: Action): set<nat> {
    if a.DoFire? && a.i < |s.acts| && s.acts[a.i].Firing? then {s.acts[a.i].dp} else {}
  }

  ghost function NextBook(s: State, b: Book, a: Action): Book
    requires Inv(s, b)
  {
    match a
    case DoDispatch(i, at) =>
      if i < |s.acts| && s.acts[i].Queued? && s.acts[i].task.ret in b.goal then DispatchBook(s, b, i, at) else b
    case DoDeliver(_) => DeliveredBook(b)
    case DoCount(i) =>
      if i < |s.acts| && s.acts[i].Stored? && s.acts[i].ret / 2 in s.conts then CountedBook(s, b, i) else b
    case DoFire(i, _) =>
      if i < |s.acts| && s.acts[i].Firing? && s.acts[i].dp in s.conts then FiredBook(s, b, i) else b
    case _ => b
  }

  lemma NextKeeps(s: State, b: Book, a: Action, s': State)
    requires Inv(s, b) && Next(s, a, s')
    ensures Inv(s', NextBook(s, b, a)) && s'.depth == s.depth
  {
    match a
    case DoDispatch(i, at) => DispatchKeeps(s, b, i, at, s');
    case DoEvaluate(i, cells, v) => EvaluateKeeps(s, b, i, cells, v, s');
    case DoDeliver(i) => DeliverKeeps(s, b, i, s');
    case DoWriteTag(i) => WriteTagKeeps(s, b, i, s');
    case DoWriteLoc(i) => WriteLocKeeps(s, b, i, s');
    case DoCount(i) => CountKeeps(s, b, i, s');
    case DoFire(i, at) => FireKeeps(s, b, i, at, s');
  }

  lemma NextFires(s: State, b: Book, a: Action, s': State)
    requires Inv(s, b) && Next(s, a, s')
    ensures b.fired !! FiredBy(s, a) && NextBook(s, b, a).fired == b.fired + FiredBy(s, a)
  {
    if a.DoFire? { FiringFact(s, b, a.i); }
  }

  /** Every step lowers the work that is left. */
  lemma NextWork(s: State, b: Book, a: Action, s': State)
    requires Inv(s, b) && Next(s, a, s') && Inv(s', NextBook(s, b, a))
    ensures Work(s', NextBook(s, b, a)) < Work(s, b)
  {
    match a
    case DoDispatch(i, at) => DispatchWork(s, b, i, at, s');
    case DoEvaluate(i, cells, v) => FinishWork(s, b, i, s');
    case DoDeliver(i) => StageWork(s, b, i, s', DeliveredBook(b));
    case DoWriteTag(i) => StageWork(s, b, i, s', b);
    case DoWriteLoc(i) => StageWork(s, b, i, s', b);
    case DoCount(i) => HeaderStays(s, b, i, s'); StageWork(s, b, i, s', CountedBook(s, b, i));
    case DoFire(i, at) => FireWork(s, b, i, at, s');
  }

  lemma HeaderStays(s: State, b: Book, i: nat, s': State)
    requires Inv(s, b) && Count(s, i, s')
    ensures b.live <= s.conts.Keys == s'.conts.Keys
    ensures forall dp :: dp in b.live ==> FnOf(s'.conts[dp]) == FnOf(s.conts[dp])
  {
    CountHeader(s, b, i, s');
  }

  // -------------------------------------------------------------------- runs

  ghost predicate IsRun(depth: nat, ss: seq<State>, acts: seq<Action>) {
    |ss| == |acts| + 1 && ss[0] == Start(depth) &&
    forall k {:trigger acts[k]} :: 0 <= k < |acts| ==> Next(ss[k], acts[k], ss[k + 1])
  }

  /** What has fired before step n. */
  ghost function Fired(ss: seq<State>, acts: seq<Action>, n: nat): set<nat>
    requires n <= |acts| < |ss|
  {
    if n == 0 then {} else Fired(ss, acts, n - 1) + FiredBy(ss[n - 1], acts[n - 1])
  }

  lemma RunNext(depth: nat, ss: seq<State>, acts: seq<Action>, n: nat)
    requires IsRun(depth, ss, acts) && 0 < n <= |acts|
    ensures Next(ss[n - 1], acts[n - 1], ss[n])
  {
    var _ := acts[n - 1];
  }

  lemma RunStep(s: State, b: Book, a: Action, s': State) returns (b': Book)
    requires Inv(s, b) && Next(s, a, s')
    ensures b' == NextBook(s, b, a) && Inv(s', b') && s'.depth == s.depth
    ensures b'.fired == b.fired + FiredBy(s, a) && Work(s', b') < Work(s, b)
  {
    NextKeeps(s, b, a, s');
    NextFires(s, b, a, s');
    NextWork(s, b, a, s');
    b' := NextBook(s, b, a);
  }

  lemma {:induction false} RunInv(depth: nat, ss: seq<State>, acts: seq<Action>, n: nat) returns (b: Book)
    requires IsRun(depth, ss, acts) && n <= |acts|
    ensures Inv(ss[n], b) && b.fired == Fired(ss, acts, n) && ss[n].depth == depth
    ensures n + Work(ss[n], b) <= Work(Start(depth), StartBook(depth))
  {
    if n == 0 {
      b := RunStart(depth, ss, acts);
    } else {
      var b0 := RunInv(depth, ss, acts, n - 1);
      b := RunMore(depth, ss, acts, n, b0, Work(Start(depth), StartBook(depth)));
    }
  }

  lemma RunStart(depth: nat, ss: seq<State>, acts: seq<Action>) returns (b: Book)
    requires IsRun(depth, ss, acts)
    ensures b == StartBook(depth) && Inv(ss[0], b) && b.fired == Fired(ss, acts, 0) && ss[0].depth == depth
    ensures Work(ss[0], b) <= Work(Start(depth), StartBook(depth))
  {
    StartInv(depth);
    b := StartBook(depth);
  }

  lemma RunMore(depth: nat, ss: seq<State>, acts: seq<Action>, n: nat, b: Book, most: nat) returns (b': Book)
    requires IsRun(depth, ss, acts) && 0 < n <= |acts|
    requires Inv(ss[n - 1], b) && b.fired == Fired(ss, acts, n - 1) && n - 1 + Work(ss[n - 1], b) <= most
    ensures Inv(ss[n], b') && b'.fired == Fired(ss, acts, n) && ss[n].depth == ss[n - 1].depth
    ensures n + Work(ss[n], b') <= most
  {
    RunNext(depth, ss, acts, n);
    b' := RunStep(ss[n - 1], b, acts[n - 1], ss[n]);
  }

  lemma {:induction false} FiredGrows(ss: seq<State>, acts: seq<Action>, j: nat, n: nat)
    requires j < n <= |acts| < |ss|
    ensures FiredBy(ss[j], acts[j]) <= Fired(ss, acts, n)
    decreases n
  {
    if j < n - 1 { FiredGrows(ss, acts, j, n - 1); }
  }

  /** No continuation fires twice in any run. */
  lemma FiresOnce(depth: nat, ss: seq<State>, acts: seq<Action>, j: nat, k: nat)
    requires IsRun(depth, ss, acts) && j < k < |acts|
    ensures FiredBy(ss[j], acts[j]) !! FiredBy(ss[k], acts[k])
  {
    var b := RunInv(depth, ss, acts, k);
    assert Next(ss[k], acts[k], ss[k + 1]);
    NextFires(ss[k], b, acts[k], ss[k + 1]);
    FiredGrows(ss, acts, j, k);
  }

  /** Nobody is still going to write to continuation dp. */
  ghost predicate Settled(s: State, dp: nat) {
    forall j, slot {:trigger Claims(s.acts[j], EncRet(dp, slot))} ::
      0 <= j < |s.acts| && 0 <= slot < 2 ==> !Claims(s.acts[j], EncRet(dp, slot))
  }

  lemma SettledFact(s: State, b: Book, i: nat)
    requires Inv(s, b) && i < |s.acts| && s.acts[i].Firing?
    ensures Settled(s, s.acts[i].dp)
  {
    FiringFact(s, b, i);
    var dp := s.acts[i].dp;
    forall j, slot | 0 <= j < |s.acts| && 0 <= slot < 2
      ensures !Claims(s.acts[j], EncRet(dp, slot))
    {
      NoClaim(s, b, dp, j, slot);
    }
  }

  lemma NoClaim(s: State, b: Book, dp: nat, j: nat, slot: nat)
    requires Inv(s, b) && dp in b.live && j < |s.acts| && slot < 2
    requires dp in s.conts && Owned(b, EncRet(dp, 0), Counted)
    requires Need(FnOf(s.conts[dp])) == 2 ==> Owned(b, EncRet(dp, 1), Counted)
    ensures !Claims(s.acts[j], EncRet(dp, slot))
  {
    ActFact(s, b, j);
    ContFact(s, b, dp);
    KeyFact(s, b, EncRet(dp, slot));
    assert EncRet(dp, slot) / 2 == dp && EncRet(dp, slot) % 2 == slot;
  }

  // ------------------------------------------------------- nothing is lost

  /** Calls nest: a slot's goal is below the goal of its continuation. */
  function Rank(depth: nat, g: Goal): nat { if g.GBuild? then g.d else depth + 1 + g.d }

  ghost predicate Quiet(s: State) { forall i :: 0 <= i < |s.acts| ==> s.acts[i].Idle? }

  lemma SlotBelow(s: State, b: Book, dp: nat, slot: nat)
    requires Inv(s, b) && dp in b.live && slot < 2
    requires dp in s.conts && (slot == 1 ==> Need(FnOf(s.conts[dp])) == 2)
    ensures s.conts[dp].ret in b.goal && EncRet(dp, slot) in b.goal
    ensures Rank(s.depth, b.goal[EncRet(dp, slot)]) < Rank(s.depth, b.goal[s.conts[dp].ret])
  {
    ContFact(s, b, dp);
  }

  /** Whatever is still owed is owed by somebody: follow the slots that are open
      down to an activity. */
  lemma {:induction false} SomebodyWorks(s: State, b: Book, r: nat) returns (i: nat)
    requires Inv(s, b) && r in b.owner && b.owner[r] != Counted
    ensures i < |s.acts| && !s.acts[i].Idle?
    decreases if r in b.goal then Rank(s.depth, b.goal[r]) else 0
  {
    KeyFact(s, b, r);
    OwnerActs(s, b, r);
    match b.owner[r]
    case ByAct(j) => i := j;
    case ByCont(q) =>
      HeaderFact(s, b, q);
      if Open(b, EncRet(q, 0)) == 1 {
        SlotBelow(s, b, q, 0);
        i := SomebodyWorks(s, b, EncRet(q, 0));
      } else if Need(FnOf(s.conts[q])) == 2 && Open(b, EncRet(q, 1)) == 1 {
        SlotBelow(s, b, q, 1);
        i := SomebodyWorks(s, b, EncRet(q, 1));
      } else {
        i := b.firer[q];
      }
  }

  /** The owner of an address is an activity that claims it or a live continuation
      that returns to it. */
  lemma OwnerActs(s: State, b: Book, r: nat)
    requires Inv(s, b) && r in b.owner
    ensures match b.owner[r]
      case ByAct(i) => i < |s.acts| && Claims(s.acts[i], r)
      case ByCont(q) => q in b.live && q in s.conts && s.conts[q].ret == r
      case Counted => true
  {
    KeyFact(s, b, r);
    if r != ROOT_RET && b.owner[r] != Counted {
      ContFact(s, b, r / 2);
      assert r == EncRet(r / 2, r % 2);
    }
  }

  /** Whatever is still owed is owed, in the end, to the root. */
  lemma {:induction false} RootWaits(s: State, b: Book, r: nat)
    requires Inv(s, b) && r in b.owner && b.owner[r] != Counted
    ensures b.owner[ROOT_RET] != Counted
    decreases if r in b.goal then 2 * s.depth + 1 - Rank(s.depth, b.goal[r]) else 0
  {
    KeyFact(s, b, r);
    if r != ROOT_RET {
      var dp := r / 2;
      ContFact(s, b, dp);
      assert r == EncRet(dp, r % 2);
      SlotBelow(s, b, dp, r % 2);
      KeyFact(s, b, s.conts[dp].ret);
      RootWaits(s, b, s.conts[dp].ret);
    }
  }

  lemma RootResult(s: State, b: Book)
    requires Inv(s, b)
    ensures if b.owner[ROOT_RET] == Counted then s.result == [Number(SumOf(s.depth, 0))] else s.result == []
  {
  }

  lemma TheSum(depth: nat)
    ensures Number(SumOf(depth, 0)) == Word(0, LeafSum(0, Pow2(depth)) % MOD)
  {
    SumClosedForm(depth, 0);
    NumberReduced(LeafSum(0, Pow2(depth)));
    assert 0 * Pow2(depth) == 0;
  }

  lemma QuietWhenCounted(s: State, b: Book)
    requires Inv(s, b)
    ensures Quiet(s) <==> b.owner[ROOT_RET] == Counted
  {
    if b.owner[ROOT_RET] == Counted {
      forall i | 0 <= i < |s.acts| ensures s.acts[i].Idle? { IdleWhenCounted(s, b, i); }
    } else {
      var i := SomebodyWorks(s, b, ROOT_RET);
      assert !s.acts[i].Idle?;
    }
  }

  /** At every moment of every run: either the result is out, it is the sum, and
      there is nothing left to do anywhere; or it is not out and somebody works. */
  lemma DoneExactlyWhenQuiet(depth: nat, ss: seq<State>, acts: seq<Action>, n: nat)
    requires IsRun(depth, ss, acts) && n <= |acts|
    ensures ss[n].result == [] || ss[n].result == [Word(0, LeafSum(0, Pow2(depth)) % MOD)]
    ensures Quiet(ss[n]) <==> ss[n].result != []
  {
    var b := RunInv(depth, ss, acts, n);
    RootResult(ss[n], b);
    QuietWhenCounted(ss[n], b);
    TheSum(depth);
  }

  /** Once the result is out, every continuation that was ever opened has fired. */
  lemma {:induction false} AllFired(depth: nat, ss: seq<State>, acts: seq<Action>, n: nat)
    requires IsRun(depth, ss, acts) && n <= |acts| && ss[n].result != []
    ensures ss[n].conts.Keys == Fired(ss, acts, n)
  {
    var b := RunInv(depth, ss, acts, n);
    NothingLive(ss[n], b);
  }

  /** A live continuation still owes something to the root. */
  lemma NothingLive(s: State, b: Book)
    requires Inv(s, b) && s.result != []
    ensures b.live == {}
  {
    RootResult(s, b);
    if b.live != {} {
      var dp :| dp in b.live;
      ContFact(s, b, dp);
      RootWaits(s, b, s.conts[dp].ret);
      assert false;
    }
  }

  lemma {:induction false} FiredAt(ss: seq<State>, acts: seq<Action>, n: nat, dp: nat) returns (j: nat)
    requires n <= |acts| < |ss| && dp in Fired(ss, acts, n)
    ensures j < n && dp in FiredBy(ss[j], acts[j])
  {
    if dp in FiredBy(ss[n - 1], acts[n - 1]) {
      j := n - 1;
    } else {
      j := FiredAt(ss, acts, n - 1, dp);
    }
  }

  /** Once the result is out, every continuation that was ever opened has fired in
      exactly one step of the run. */
  lemma FiresExactlyOnce(depth: nat, ss: seq<State>, acts: seq<Action>, n: nat, dp: nat) returns (j: nat)
    requires IsRun(depth, ss, acts) && n <= |acts| && ss[n].result != [] && dp in ss[n].conts
    ensures j < n && dp in FiredBy(ss[j], acts[j])
    ensures forall k :: 0 <= k < n && k != j ==> dp !in FiredBy(ss[k], acts[k])
  {
    AllFired(depth, ss, acts, n);
    j := FiredAt(ss, acts, n, dp);
    forall k | 0 <= k < n && k != j ensures dp !in FiredBy(ss[k], acts[k]) {
      if k < j { FiresOnce(depth, ss, acts, k, j); } else { FiresOnce(depth, ss, acts, j, k); }
    }
  }

  lemma IdleWhenCounted(s: State, b: Book, i: nat)
    requires Inv(s, b) && b.owner[ROOT_RET] == Counted && i < |s.acts|
    ensures s.acts[i].Idle?
  {
    ActFact(s, b, i);
    match s.acts[i]
    case Idle =>
    case Queued(t) => RootWaits(s, b, t.ret);
    case Holding(r, _) => RootWaits(s, b, r);
    case Tagged(r, _) => RootWaits(s, b, r);
    case Stored(r, _) => RootWaits(s, b, r);
    case Firing(dp) => ContFact(s, b, dp); RootWaits(s, b, s.conts[dp].ret);
  }

  /** An activity that is not idle can always take a step: `at` is an address
      that the allocator may hand out. */
  lemma CanStep(s: State, b: Book, i: nat, at: nat) returns (a: Action, s': State)
    requires Inv(s, b) && i < |s.acts| && !s.acts[i].Idle? && FreshCells(s, at, 2) && FreshCont(s, at)
    ensures Next(s, a, s')
  {
    ActFact(s, b, i);
    match s.acts[i]
    case Queued(t) => a, s' := CanDispatch(s, b, i, at);
    case Holding(r, v) =>
      if r == ROOT_RET {
        a, s' := DoDeliver(i), Become(s.(result := s.result + [v]), i, Idle);
      } else {
        TagZero(s, b, i);
        a, s' := DoWriteTag(i), Become(Put(s, r / 2, OrTag(s.conts[r / 2], r % 2, v.tag)), i, Tagged(r, v));
      }
    case Tagged(r, v) =>
      TagStays(s, b, i);
      var k := s.conts[r / 2];
      a, s' := DoWriteLoc(i), Become(Put(s, r / 2, if r % 2 == 0 then k.(loc0 := v.loc) else k.(loc1 := v.loc)),
                                     i, Stored(r, v));
    case Stored(r, v) =>
      StoredOpen(s, b, i);
      var k := s.conts[r / 2];
      var act := if Countdown(k) == 1 then Firing(r / 2) else Idle;
      a, s' := DoCount(i), Become(Put(s, r / 2, k.(hdr := k.hdr - 1)), i, act);
    case Firing(dp) => a, s' := CanFire(s, b, i, at);
  }

  lemma StoredOpen(s: State, b: Book, i: nat)
    requires Inv(s, b) && i < |s.acts| && s.acts[i].Stored?
    ensures var dp := s.acts[i].ret / 2; dp in s.conts && s.conts[dp].hdr > 0
  {
    var r := s.acts[i].ret;
    ActFact(s, b, i);
    KeyFact(s, b, r);
    HeaderFact(s, b, r / 2);
    assert r == EncRet(r / 2, r % 2);
  }

  lemma CanDispatch(s: State, b: Book, i: nat, at: nat) returns (a: Action, s': State)
    requires Inv(s, b) && i < |s.acts| && s.acts[i].Queued? && FreshCells(s, at, 2) && FreshCont(s, at)
    ensures Next(s, a, s')
  {
    ActFact(s, b, i);
    a := DoDispatch(i, at);
    var Task(fn, ret, a0, a1) := s.acts[i].task;
    if fn == FN_BUILD {
      if a0.loc == 0 {
        s' := Become(s.(cells := s.cells[at := Number(a1.loc)]), i, Holding(ret, Word(1, at)));
      } else {
        s' := SplitTo(s, i, at, CONT_BUILD, ret,
                      Task(FN_BUILD, EncRet(at, 0), Word(0, a0.loc - 1), Word(0, Left(a1.loc))),
                      Task(FN_BUILD, EncRet(at, 1), Word(0, a0.loc - 1), Word(0, Right(a1.loc))));
      }
    } else if fn == FN_SUM {
      if a0.tag == 1 {
        s' := Become(s, i, Holding(ret, s.cells[a0.loc]));
      } else {
        s' := SplitTo(s, i, at, CONT_SUM, ret,
                      Task(FN_SUM, EncRet(at, 0), s.cells[a0.loc], Word(0, 0)),
                      Task(FN_SUM, EncRet(at, 1), s.cells[a0.loc + 1], Word(0, 0)));
      }
    } else {
      s' := Become(s.(conts := s.conts[at := NewCont(CONT_MAIN, ret, 1)]), i,
                   Queued(Task(FN_BUILD, EncRet(at, 0), Word(0, s.depth), Word(0, 0))));
    }
  }

  lemma CanFire(s: State, b: Book, i: nat, at: nat) returns (a: Action, s': State)
    requires Inv(s, b) && i < |s.acts| && s.acts[i].Firing? && FreshCells(s, at, 2)
    ensures Next(s, a, s')
  {
    FiringFact(s, b, i);
    a := DoFire(i, at);
    var k := s.conts[s.acts[i].dp];
    var (a0, a1) := (SlotWord(k, 0), SlotWord(k, 1));
    if FnOf(k) == CONT_BUILD {
      s' := Become(s.(cells := s.cells[at := a0][at + 1 := a1]), i, Holding(k.ret, Word(2, at)));
    } else if FnOf(k) == CONT_SUM {
      s' := Become(s, i, Holding(k.ret, Number(a0.loc + a1.loc)));
    } else {
      s' := Become(s, i, Queued(Task(FN_SUM, k.ret, a0, Word(0, 0))));
    }
  }

  lemma StartWork(depth: nat)
    ensures Work(Start(depth), StartBook(depth)) == 2 * TreeWork(depth) + 2
  {
    var (s, b) := (Start(depth), StartBook(depth));
    assert s.acts[..0] == [];
    assert ActsWork(depth, b.goal, s.acts[..0]) == 0;
    assert s.acts[0] == Queued(Task(FN_MAIN, ROOT_RET, Word(0, 0), Word(0, 0)));
    assert ContsWork(depth, s.conts, b.live) == 0;
  }

  /** Every run ends: building and summing a tree of depth d takes at most
      18 * 2^d - 8 atomic steps, however the workers are scheduled. */
  lemma RunsEnd(depth: nat, ss: seq<State>, acts: seq<Action>)
    requires IsRun(depth, ss, acts)
    ensures |acts| <= 18 * Pow2(depth) - 8
  {
    var b := RunInv(depth, ss, acts, |acts|);
    StartWork(depth);
    TreeWorkClosed(depth);
  }

  /** Deadlock freedom: as long as the result is not out and the allocator has an
      address to hand out, some step is possible. */
  lemma NeverStuck(depth: nat, ss: seq<State>, acts: seq<Action>, n: nat, at: nat) returns (a: Action, s': State)
    requires IsRun(depth, ss, acts) && n <= |acts| && ss[n].result == []
    requires FreshCells(ss[n], at, 2) && FreshCont(ss[n], at)
    ensures Next(ss[n], a, s')
  {
    var b := RunInv(depth, ss, acts, n);
    DoneExactlyWhenQuiet(depth, ss, acts, n);
    var i: nat :| i < |ss[n].acts| && !ss[n].acts[i].Idle?;
    a, s' := CanStep(ss[n], b, i, at);
  }
}
