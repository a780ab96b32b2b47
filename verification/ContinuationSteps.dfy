/** Every atomic step of the continuation protocol keeps the invariant. The
    bookkeeping that says who owes what to which return address is ghost, and the
    next book is a function of the step. */
module ContinuationSteps {
  import opened TreeSum
  import opened SeqEval
  import opened Continuations

  lemma MeetsKept(cells: Cells, cells': Cells, goal: Goal, v: Word)
    requires Meets(cells, goal, v) && Extends(cells, cells')
    ensures Meets(cells', goal, v)
  {
    if goal.GBuild? { TreeKept(cells, cells', v, goal.d, goal.x); }
  }

  /** Growing the tree heap harms no activity. */
  lemma ActGrows(s: State, b: Book, s': State, j: nat)
    requires ActOk(s, b, j) && j < |s'.acts| && s'.acts[j] == s.acts[j]
    requires s'.depth == s.depth && s'.conts == s.conts && Extends(s.cells, s'.cells)
    ensures ActOk(s', b, j)
  {
    match s.acts[j]
    case Queued(t) =>
      if t.fn == FN_SUM { TreeKept(s.cells, s'.cells, t.a0, b.goal[t.ret].d, b.goal[t.ret].x); }
    case Holding(r, v) => MeetsKept(s.cells, s'.cells, b.goal[r], v);
    case Tagged(r, v) => MeetsKept(s.cells, s'.cells, b.goal[r], v);
    case Stored(r, v) => MeetsKept(s.cells, s'.cells, b.goal[r], v);
    case _ =>
  }

  lemma SlotGrows(s: State, b: Book, s': State, dp: nat, slot: nat, i: nat)
    requires dp in s.conts && SlotOk(s, b, dp, slot) && slot < 2
    requires s'.conts == s.conts && Extends(s.cells, s'.cells)
    requires i < |s.acts| <= |s'.acts| && (forall j {:trigger s'.acts[j]} :: 0 <= j < |s.acts| && j != i ==>
      s'.acts[j] == s.acts[j])
    requires s.acts[i].Queued? && s'.acts[i].Holding? && s'.acts[i].ret == s.acts[i].task.ret
    ensures SlotOk(s', b, dp, slot)
  {
    var r := EncRet(dp, slot);
    if b.owner[r] == Counted { MeetsKept(s.cells, s'.cells, b.goal[r], SlotWord(s.conts[dp], slot)); }
  }

  /** An activity finishes its task: it now holds a value that meets the goal. */
  lemma FinishKeeps(s: State, b: Book, i: nat, cells: Cells, v: Word, s': State)
    requires Inv(s, b) && i < |s.acts| && s.acts[i].Queued? && Extends(s.cells, cells)
    requires s' == Become(s.(cells := cells), i, Holding(s.acts[i].task.ret, v))
    requires s.acts[i].task.ret in b.goal && Meets(cells, b.goal[s.acts[i].task.ret], v)
    ensures Inv(s', b)
  {
    ActFact(s, b, i);
    forall j: nat | j < |s'.acts| ensures ActOk(s', b, j) {
      ActFact(s, b, j);
      if j != i { ActGrows(s, b, s', j); }
    }
    forall dp: nat | dp in b.live ensures ContOk(s', b, dp) {
      ContFact(s, b, dp);
      SlotGrows(s, b, s', dp, 0, i);
      if Need(FnOf(s.conts[dp])) == 2 { SlotGrows(s, b, s', dp, 1, i); }
    }
    forall r: nat ensures KeyOk(s', b, r) { KeyFact(s, b, r); }
  }

  lemma EvaluateKeeps(s: State, b: Book, i: nat, cells: Cells, v: Word, s': State)
    requires Inv(s, b) && Evaluate(s, i, cells, v, s')
    ensures Inv(s', b)
  {
    ActFact(s, b, i);
    var Task(fn, ret, a0, a1) := s.acts[i].task;
    if fn == FN_SUM {
      var n :| IsTree(cells, a0, n) && v == TreeTotal(cells, a0, n);
      var (d, x) := (b.goal[ret].d, b.goal[ret].x);
      TreeKept(s.cells, cells, a0, d, x);
      TotalOfBuild(cells, a0, d, x);
      TotalUnique(cells, a0, n, d);
    }
    FinishKeeps(s, b, i, cells, v, s');
  }

  lemma {:induction false} TotalUnique(cells: Cells, w: Word, n: nat, m: nat)
    requires IsTree(cells, w, n) && IsTree(cells, w, m)
    ensures TreeTotal(cells, w, n) == TreeTotal(cells, w, m)
    decreases n
  {
    if w.tag == 2 {
      TotalUnique(cells, cells[w.loc], n - 1, m - 1);
      TotalUnique(cells, cells[w.loc + 1], n - 1, m - 1);
    }
  }

  // ------------------------------------------------- opening a continuation

  /** Task i opens the continuation `at`: it goes on as the task for slot 0 and,
      for a two-slot continuation, a new activity gets the task for slot 1. */
  ghost predicate Opens(s: State, b: Book, i: nat, at: nat, fn: nat, t0: Task, t1: Task, g0: Goal, g1: Goal,
                        s': State) {
    i < |s.acts| && s.acts[i].Queued? && FreshCont(s, at) &&
    (var ret := s.acts[i].task.ret;
     ret in b.goal && t0.ret == EncRet(at, 0) && TaskFits(s, t0, g0) &&
     (Need(fn) == 2 ==> t1.ret == EncRet(at, 1) && TaskFits(s, t1, g1)) &&
     (if fn == CONT_BUILD then b.goal[ret].GBuild? && b.goal[ret].d > 0 &&
        g0 == GBuild(b.goal[ret].d - 1, Left(b.goal[ret].x)) && g1 == GBuild(b.goal[ret].d - 1, Right(b.goal[ret].x))
      else if fn == CONT_SUM then b.goal[ret].GSum? && b.goal[ret].d > 0 &&
        g0 == GSum(b.goal[ret].d - 1, Left(b.goal[ret].x)) && g1 == GSum(b.goal[ret].d - 1, Right(b.goal[ret].x))
      else fn == CONT_MAIN && b.goal[ret] == GSum(s.depth, 0) && g0 == GBuild(s.depth, 0)) &&
     s' == State(s.depth, s.cells, s.conts[at := NewCont(fn, ret, Need(fn))],
                 s.acts[i := Queued(t0)] + (if Need(fn) == 2 then [Queued(t1)] else []), s.result))
  }

  ghost function OpenedBook(s: State, b: Book, i: nat, at: nat, fn: nat, g0: Goal, g1: Goal): Book
    requires i < |s.acts| && s.acts[i].Queued?
  {
    var (e0, e1, ret) := (EncRet(at, 0), EncRet(at, 1), s.acts[i].task.ret);
    var b1 := b.(owner := b.owner[ret := ByCont(at)][e0 := ByAct(i)], goal := b.goal[e0 := g0], live := b.live + {at});
    if Need(fn) == 2 then b1.(owner := b1.owner[e1 := ByAct(|s.acts|)], goal := b1.goal[e1 := g1]) else b1
  }

  /** Return addresses of the fresh continuation have never been used. */
  lemma FreshRets(s: State, b: Book, at: nat, slot: nat)
    requires Inv(s, b) && FreshCont(s, at) && slot < 2
    ensures EncRet(at, slot) !in b.owner && EncRet(at, slot) != ROOT_RET && EncRet(at, slot) / 2 == at
    ensures at !in b.live && at !in b.fired
  {
    KeyFact(s, b, EncRet(at, slot));
  }

  lemma OpenActs(s: State, b: Book, i: nat, at: nat, fn: nat, t0: Task, t1: Task, g0: Goal, g1: Goal, s': State, j: nat)
    requires Inv(s, b) && Opens(s, b, i, at, fn, t0, t1, g0, g1, s') && j < |s'.acts|
    ensures ActOk(s', OpenedBook(s, b, i, at, fn, g0, g1), j)
  {
    FreshRets(s, b, at, 0);
    FreshRets(s, b, at, 1);
    ActFact(s, b, i);
    if j < |s.acts| { ActFact(s, b, j); }
  }

  lemma OpenSlot(s: State, b: Book, i: nat, at: nat, fn: nat, t0: Task, t1: Task, g0: Goal, g1: Goal, s': State,
                 dp: nat, slot: nat)
    requires Inv(s, b) && Opens(s, b, i, at, fn, t0, t1, g0, g1, s') && dp in b.live && slot < 2
    requires dp in s.conts && SlotOk(s, b, dp, slot)
    ensures dp in s'.conts && SlotOk(s', OpenedBook(s, b, i, at, fn, g0, g1), dp, slot)
    ensures Open(OpenedBook(s, b, i, at, fn, g0, g1), EncRet(dp, slot)) == Open(b, EncRet(dp, slot))
  {
    FreshRets(s, b, at, 0);
    FreshRets(s, b, at, 1);
    ActFact(s, b, i);
  }

  /** What ContOk says apart from the slots is not touched by opening `at`. */
  lemma OpenFrame(s: State, b: Book, i: nat, at: nat, fn: nat, t0: Task, t1: Task, g0: Goal, g1: Goal, s': State,
                  dp: nat)
    requires Inv(s, b) && Opens(s, b, i, at, fn, t0, t1, g0, g1, s') && dp in b.live
    ensures dp in s.conts && dp in s'.conts && s'.conts[dp] == s.conts[dp] && dp != at
    ensures var (b', r) := (OpenedBook(s, b, i, at, fn, g0, g1), s.conts[dp].ret);
      Owned(b', r, ByCont(dp)) && b'.goal[r] == b.goal[r] && b'.firer == b.firer &&
      (dp in b.firer && b.firer[dp] < |s.acts| && s.acts[b.firer[dp]] == Firing(dp) ==>
         b.firer[dp] < |s'.acts| && s'.acts[b.firer[dp]] == Firing(dp))
  {
    FreshRets(s, b, at, 0);
    FreshRets(s, b, at, 1);
    ActFact(s, b, i);
    ContFact(s, b, dp);
  }

  lemma OpenGoal(s: State, b: Book, i: nat, at: nat, fn: nat, g0: Goal, g1: Goal, r: nat)
    requires Inv(s, b) && i < |s.acts| && s.acts[i].Queued? && FreshCont(s, at) && r in b.owner && r in b.goal
    ensures var b' := OpenedBook(s, b, i, at, fn, g0, g1); r in b'.goal && b'.goal[r] == b.goal[r]
  {
    FreshRets(s, b, at, 0);
    FreshRets(s, b, at, 1);
  }

  lemma OpenConts(s: State, b: Book, i: nat, at: nat, fn: nat, t0: Task, t1: Task, g0: Goal, g1: Goal, s': State,
                  dp: nat)
    requires Inv(s, b) && Opens(s, b, i, at, fn, t0, t1, g0, g1, s') && dp in b.live
    ensures ContOk(s', OpenedBook(s, b, i, at, fn, g0, g1), dp)
  {
    OpenFrame(s, b, i, at, fn, t0, t1, g0, g1, s', dp);
    ContFact(s, b, dp);
    OpenSlot(s, b, i, at, fn, t0, t1, g0, g1, s', dp, 0);
    OpenGoal(s, b, i, at, fn, g0, g1, EncRet(dp, 0));
    if Need(FnOf(s.conts[dp])) == 2 {
      OpenSlot(s, b, i, at, fn, t0, t1, g0, g1, s', dp, 1);
      OpenGoal(s, b, i, at, fn, g0, g1, EncRet(dp, 1));
    }
  }

  lemma OpenNew(s: State, b: Book, i: nat, at: nat, fn: nat, t0: Task, t1: Task, g0: Goal, g1: Goal, s': State)
    requires Inv(s, b) && Opens(s, b, i, at, fn, t0, t1, g0, g1, s')
    ensures ContOk(s', OpenedBook(s, b, i, at, fn, g0, g1), at)
  {
    FreshRets(s, b, at, 0);
    FreshRets(s, b, at, 1);
    ActFact(s, b, i);
  }

  lemma OpenKey(s: State, b: Book, i: nat, at: nat, fn: nat, t0: Task, t1: Task, g0: Goal, g1: Goal, s': State, r: nat)
    requires Inv(s, b) && Opens(s, b, i, at, fn, t0, t1, g0, g1, s')
    ensures KeyOk(s', OpenedBook(s, b, i, at, fn, g0, g1), r)
  {
    ActFact(s, b, i);
    KeyFact(s, b, r);
    KeyFact(s, b, s.acts[i].task.ret);
    assert EncRet(r / 2, r % 2) == r;
  }

  lemma OpenRoot(s: State, b: Book, i: nat, at: nat, fn: nat, t0: Task, t1: Task, g0: Goal, g1: Goal, s': State)
    requires Inv(s, b) && Opens(s, b, i, at, fn, t0, t1, g0, g1, s')
    ensures RootOk(s', OpenedBook(s, b, i, at, fn, g0, g1))
  {
    FreshRets(s, b, at, 0);
    FreshRets(s, b, at, 1);
    ActFact(s, b, i);
  }

  lemma OpenKeeps(s: State, b: Book, i: nat, at: nat, fn: nat, t0: Task, t1: Task, g0: Goal, g1: Goal, s': State)
    requires Inv(s, b) && Opens(s, b, i, at, fn, t0, t1, g0, g1, s')
    ensures Inv(s', OpenedBook(s, b, i, at, fn, g0, g1))
  {
    var b' := OpenedBook(s, b, i, at, fn, g0, g1);
    FreshRets(s, b, at, 0);
    OpenRoot(s, b, i, at, fn, t0, t1, g0, g1, s');
    forall j: nat | j < |s'.acts| ensures ActOk(s', b', j) {
      OpenActs(s, b, i, at, fn, t0, t1, g0, g1, s', j);
    }
    forall dp: nat | dp in b'.live ensures ContOk(s', b', dp) {
      if dp == at {
        OpenNew(s, b, i, at, fn, t0, t1, g0, g1, s');
      } else {
        OpenConts(s, b, i, at, fn, t0, t1, g0, g1, s', dp);
      }
    }
    forall r: nat ensures KeyOk(s', b', r) { OpenKey(s, b, i, at, fn, t0, t1, g0, g1, s', r); }
  }

  /** The goal of a recursive call on one half. */
  function Half(g: Goal, right: bool): Goal {
    var (d, x) := (if g.d == 0 then 0 else g.d - 1, if right then Right(g.x) else Left(g.x));
    if g.GBuild? then GBuild(d, x) else GSum(d, x)
  }

  ghost function DispatchBook(s: State, b: Book, i: nat, at: nat): Book
    requires i < |s.acts| && s.acts[i].Queued? && s.acts[i].task.ret in b.goal
  {
    var Task(fn, ret, a0, a1) := s.acts[i].task;
    var g := b.goal[ret];
    if fn == FN_BUILD && a0.loc > 0 then OpenedBook(s, b, i, at, CONT_BUILD, Half(g, false), Half(g, true))
    else if fn == FN_SUM && a0.tag == 2 then OpenedBook(s, b, i, at, CONT_SUM, Half(g, false), Half(g, true))
    else if fn == FN_MAIN then OpenedBook(s, b, i, at, CONT_MAIN, GBuild(s.depth, 0), GBuild(s.depth, 0))
    else b
  }

  lemma QueuedFact(s: State, b: Book, i: nat)
    requires Inv(s, b) && i < |s.acts| && s.acts[i].Queued?
    ensures var t := s.acts[i].task; t.ret in b.goal && TaskFits(s, t, b.goal[t.ret]) && b.goal[t.ret].d <= s.depth
  {
    ActFact(s, b, i);
    KeyFact(s, b, s.acts[i].task.ret);
  }

  /** The continuation that a dispatch opens, with the tasks for its slots. */
  lemma DispatchOpens(s: State, b: Book, i: nat, at: nat, s': State)
      returns (fn: nat, t0: Task, t1: Task, g0: Goal, g1: Goal)
    requires Inv(s, b) && Dispatch(s, i, at, s') && s'.conts != s.conts
    ensures Opens(s, b, i, at, fn, t0, t1, g0, g1, s')
    ensures s.acts[i].task.ret in b.goal && DispatchBook(s, b, i, at) == OpenedBook(s, b, i, at, fn, g0, g1)
    ensures fn == CONT_BUILD || fn == CONT_SUM ==>
      g0 == Half(b.goal[s.acts[i].task.ret], false) && g1 == Half(b.goal[s.acts[i].task.ret], true) &&
      t0.fn == t1.fn == s.acts[i].task.fn != FN_MAIN
    ensures fn == CONT_MAIN ==> g0 == GBuild(s.depth, 0) && t0.fn == FN_BUILD && s.acts[i].task.fn == FN_MAIN
  {
    QueuedFact(s, b, i);
    var Task(f, ret, a0, a1) := s.acts[i].task;
    if f == FN_MAIN {
      fn, g0 := CONT_MAIN, GBuild(s.depth, 0);
      t0, g1 := Task(FN_BUILD, EncRet(at, 0), Word(0, s.depth), Word(0, 0)), g0;
      t1 := t0;
    } else {
      g0, g1 := Half(b.goal[ret], false), Half(b.goal[ret], true);
      if f == FN_BUILD {
        fn := CONT_BUILD;
        t0 := Task(FN_BUILD, EncRet(at, 0), Word(0, a0.loc - 1), Word(0, Left(a1.loc)));
        t1 := Task(FN_BUILD, EncRet(at, 1), Word(0, a0.loc - 1), Word(0, Right(a1.loc)));
      } else {
        fn := CONT_SUM;
        t0 := Task(FN_SUM, EncRet(at, 0), s.cells[a0.loc], Word(0, 0));
        t1 := Task(FN_SUM, EncRet(at, 1), s.cells[a0.loc + 1], Word(0, 0));
      }
    }
  }

  /** A dispatch that opens no continuation finishes its task. */
  lemma DispatchFinishes(s: State, b: Book, i: nat, at: nat, s': State)
    requires Inv(s, b) && Dispatch(s, i, at, s') && s'.conts == s.conts
    ensures s.acts[i].task.ret in b.goal && DispatchBook(s, b, i, at) == b && Extends(s.cells, s'.cells)
    ensures s'.acts == s.acts[i := s'.acts[i]] && s'.acts[i].Holding? && s'.acts[i].ret == s.acts[i].task.ret
    ensures Meets(s'.cells, b.goal[s.acts[i].task.ret], s'.acts[i].val)
  {
    QueuedFact(s, b, i);
    NumberReduced(b.goal[s.acts[i].task.ret].x);
  }

  /** Dispatching a task keeps the invariant; a task that splits opens a continuation. */
  lemma DispatchKeeps(s: State, b: Book, i: nat, at: nat, s': State)
    requires Inv(s, b) && Dispatch(s, i, at, s')
    ensures s.acts[i].task.ret in b.goal && Inv(s', DispatchBook(s, b, i, at))
  {
    if s'.conts == s.conts {
      DispatchFinishes(s, b, i, at, s');
      FinishKeeps(s, b, i, s'.cells, s'.acts[i].val, s');
    } else {
      var fn, t0, t1, g0, g1 := DispatchOpens(s, b, i, at, s');
      OpenKeeps(s, b, i, at, fn, t0, t1, g0, g1, s');
    }
  }

  // ------------------------------------------------------ delivering a value

  ghost function DeliveredBook(b: Book): Book { b.(owner := b.owner[ROOT_RET := Counted]) }

  lemma DeliverKeeps(s: State, b: Book, i: nat, s': State)
    requires Inv(s, b) && Deliver(s, i, s')
    ensures Inv(s', DeliveredBook(b))
  {
    var b' := DeliveredBook(b);
    ActFact(s, b, i);
    forall j: nat | j < |s'.acts| ensures ActOk(s', b', j) { ActFact(s, b, j); }
    forall dp: nat | dp in b'.live ensures ContOk(s', b', dp) { ContFact(s, b, dp); }
    forall r: nat ensures KeyOk(s', b', r) { KeyFact(s, b, r); }
  }

  /** Before a worker writes its slot, the slot's tag byte is zero. */
  lemma TagZero(s: State, b: Book, i: nat)
    requires Inv(s, b) && i < |s.acts| && s.acts[i].Holding? && s.acts[i].ret != ROOT_RET
    ensures var (dp, slot) := (s.acts[i].ret / 2, s.acts[i].ret % 2);
      dp in b.live && dp in s.conts && TagByte(s.conts[dp], slot) == 0
  {
    var ret := s.acts[i].ret;
    ActFact(s, b, i);
    KeyFact(s, b, ret);
    ContFact(s, b, ret / 2);
    assert EncRet(ret / 2, ret % 2) == ret;
  }

  /** s' is s with activity i further on in its write to the address it claims;
      only tags and payloads of the cell written to may differ. */
  ghost predicate Writes(s: State, i: nat, s': State) {
    i < |s.acts| && (s.acts[i].Holding? || s.acts[i].Tagged?) && s.acts[i].ret != ROOT_RET &&
    (var (ret, v) := (s.acts[i].ret, s.acts[i].val);
     ret / 2 in s.conts &&
     ret / 2 in s'.conts && |s'.acts| == |s.acts| && s' == Become(Put(s, ret / 2, s'.conts[ret / 2]), i, s'.acts[i]) &&
     s'.acts[i] == (if s.acts[i].Holding? then Tagged(ret, v) else Stored(ret, v)) &&
     s'.conts[ret / 2].hdr == s.conts[ret / 2].hdr && s'.conts[ret / 2].ret == s.conts[ret / 2].ret)
  }

  /** The write leaves what its activity's next stage promises in its own slot,
      and the other slot of the cell as it was. */
  ghost predicate WritesSlot(k: Cont, k': Cont, slot: nat, a: Activity)
    requires slot < 2
  {
    SlotWord(k', 1 - slot) == SlotWord(k, 1 - slot) &&
    match a
    case Tagged(_, v) => TagByte(k', slot) == v.tag
    case Stored(_, v) => SlotWord(k', slot) == v
    case _ => false
  }

  lemma WriteSlot(s: State, b: Book, i: nat, s': State, dp: nat, slot: nat)
    requires Inv(s, b) && Writes(s, i, s') && dp in s.conts && slot < 2 && SlotOk(s, b, dp, slot)
    requires WritesSlot(s.conts[s.acts[i].ret / 2], s'.conts[s.acts[i].ret / 2], s.acts[i].ret % 2, s'.acts[i])
    ensures dp in s'.conts && SlotOk(s', b, dp, slot)
  {
    ActFact(s, b, i);
    var ret := s.acts[i].ret;
    if dp == ret / 2 {
      if slot == ret % 2 {
        assert EncRet(dp, slot) == ret;
      } else {
        assert slot == 1 - ret % 2;
        assert EncRet(dp, slot) != ret;
      }
    }
  }

  lemma WriteAct(s: State, b: Book, i: nat, s': State, j: nat)
    requires Inv(s, b) && Writes(s, i, s') && j < |s.acts|
    ensures ActOk(s', b, j)
  {
    ActFact(s, b, i);
    ActFact(s, b, j);
  }

  lemma WriteCont(s: State, b: Book, i: nat, s': State, dp: nat)
    requires Inv(s, b) && Writes(s, i, s') && dp in b.live
    requires WritesSlot(s.conts[s.acts[i].ret / 2], s'.conts[s.acts[i].ret / 2], s.acts[i].ret % 2, s'.acts[i])
    ensures ContOk(s', b, dp)
  {
    ContFact(s, b, dp);
    WriteSlot(s, b, i, s', dp, 0);
    if Need(FnOf(s.conts[dp])) == 2 { WriteSlot(s, b, i, s', dp, 1); }
  }

  lemma WriteKeeps(s: State, b: Book, i: nat, s': State)
    requires Inv(s, b) && Writes(s, i, s')
    requires WritesSlot(s.conts[s.acts[i].ret / 2], s'.conts[s.acts[i].ret / 2], s.acts[i].ret % 2, s'.acts[i])
    ensures Inv(s', b)
  {
    ActFact(s, b, i);
    forall j: nat | j < |s'.acts| ensures ActOk(s', b, j) { WriteAct(s, b, i, s', j); }
    forall dp: nat | dp in b.live ensures ContOk(s', b, dp) { WriteCont(s, b, i, s', dp); }
    forall r: nat ensures KeyOk(s', b, r) { KeyFact(s, b, r); }
  }

  lemma WriteTagKeeps(s: State, b: Book, i: nat, s': State)
    requires Inv(s, b) && WriteTag(s, i, s')
    ensures Inv(s', b)
  {
    TagZero(s, b, i);
    var Holding(ret, v) := s.acts[i];
    WriteKeeps(s, b, i, s');
  }

  /** Between the two halves of a write the slot's tag is the value's tag. */
  lemma TagStays(s: State, b: Book, i: nat)
    requires Inv(s, b) && i < |s.acts| && s.acts[i].Tagged?
    ensures var (dp, slot) := (s.acts[i].ret / 2, s.acts[i].ret % 2);
      s.acts[i].ret != ROOT_RET && dp in b.live && dp in s.conts && TagByte(s.conts[dp], slot) == s.acts[i].val.tag
  {
    var ret := s.acts[i].ret;
    ActFact(s, b, i);
    KeyFact(s, b, ret);
    ContFact(s, b, ret / 2);
    assert EncRet(ret / 2, ret % 2) == ret;
  }

  lemma WriteLocKeeps(s: State, b: Book, i: nat, s': State)
    requires Inv(s, b) && WriteLoc(s, i, s')
    ensures Inv(s', b)
  {
    TagStays(s, b, i);
    WriteKeeps(s, b, i, s');
  }

  // ------------------------------------------------------------- the countdown

  ghost function CountedBook(s: State, b: Book, i: nat): Book
    requires i < |s.acts| && s.acts[i].Stored? && s.acts[i].ret / 2 in s.conts
  {
    var ret := s.acts[i].ret;
    var b1 := b.(owner := b.owner[ret := Counted]);
    if Countdown(s.conts[ret / 2]) == 1 then b1.(firer := b1.firer[ret / 2 := i]) else b1
  }

  /** The header counts exactly the slots that have not been counted yet. */
  lemma HeaderFact(s: State, b: Book, dp: nat)
    requires Inv(s, b) && dp in b.live
    ensures ContOk(s, b, dp) && Countdown(s.conts[dp]) == Remaining(b, dp, FnOf(s.conts[dp])) <= 2
  {
    ContFact(s, b, dp);
  }

  lemma CountSlot(s: State, b: Book, i: nat, s': State, dp: nat, slot: nat)
    requires Inv(s, b) && Count(s, i, s') && dp in b.live && slot < 2
    requires dp in s.conts && SlotOk(s, b, dp, slot)
    ensures SlotOk(s', CountedBook(s, b, i), dp, slot)
    ensures Open(CountedBook(s, b, i), EncRet(dp, slot)) ==
      Open(b, EncRet(dp, slot)) - if EncRet(dp, slot) == s.acts[i].ret then 1 else 0
  {
    ActFact(s, b, i);
  }

  lemma CountOther(s: State, b: Book, i: nat, s': State, dp: nat)
    requires Inv(s, b) && Count(s, i, s') && dp in b.live && dp != s.acts[i].ret / 2
    ensures ContOk(s', CountedBook(s, b, i), dp)
  {
    ActFact(s, b, i);
    ContFact(s, b, dp);
    CountSlot(s, b, i, s', dp, 0);
    if Need(FnOf(s.conts[dp])) == 2 { CountSlot(s, b, i, s', dp, 1); }
  }

  /** Counting a slot of dp: the header stays in step with the open slots. */
  lemma CountHeader(s: State, b: Book, i: nat, s': State)
    requires Inv(s, b) && Count(s, i, s')
    ensures var (dp, b') := (s.acts[i].ret / 2, CountedBook(s, b, i));
      dp in b.live && s.acts[i].ret != ROOT_RET && 0 < Countdown(s.conts[dp]) &&
      FnOf(s'.conts[dp]) == FnOf(s.conts[dp]) &&
      Remaining(b', dp, FnOf(s.conts[dp])) == Remaining(b, dp, FnOf(s.conts[dp])) - 1 == Countdown(s'.conts[dp])
  {
    var ret := s.acts[i].ret;
    ActFact(s, b, i);
    KeyFact(s, b, ret);
    HeaderFact(s, b, ret / 2);
    assert EncRet(ret / 2, ret % 2) == ret;
    RemainingDrops(b, CountedBook(s, b, i), ret / 2, ret % 2, FnOf(s.conts[ret / 2]));
  }

  lemma RemainingDrops(b: Book, b': Book, dp: nat, slot: nat, fn: nat)
    requires slot < 2 && (slot == 1 ==> Need(fn) == 2) && Open(b, EncRet(dp, slot)) == 1
    requires b'.owner == b.owner[EncRet(dp, slot) := Counted]
    ensures Remaining(b', dp, fn) == Remaining(b, dp, fn) - 1
  {
  }

  lemma CountSame(s: State, b: Book, i: nat, s': State)
    requires Inv(s, b) && Count(s, i, s')
    ensures ContOk(s', CountedBook(s, b, i), s.acts[i].ret / 2)
  {
    var dp := s.acts[i].ret / 2;
    ActFact(s, b, i);
    CountHeader(s, b, i, s');
    HeaderFact(s, b, dp);
    CountSlot(s, b, i, s', dp, 0);
    if Need(FnOf(s.conts[dp])) == 2 { CountSlot(s, b, i, s', dp, 1); }
  }

  lemma CountAct(s: State, b: Book, i: nat, s': State, j: nat)
    requires Inv(s, b) && Count(s, i, s') && j < |s.acts|
    ensures ActOk(s', CountedBook(s, b, i), j)
  {
    CountHeader(s, b, i, s');
    ActFact(s, b, i);
    ActFact(s, b, j);
  }

  lemma CountKeeps(s: State, b: Book, i: nat, s': State)
    requires Inv(s, b) && Count(s, i, s')
    ensures Inv(s', CountedBook(s, b, i))
  {
    var b' := CountedBook(s, b, i);
    CountHeader(s, b, i, s');
    ActFact(s, b, i);
    forall j: nat | j < |s'.acts| ensures ActOk(s', b', j) { CountAct(s, b, i, s', j); }
    forall dp: nat | dp in b'.live ensures ContOk(s', b', dp) {
      if dp == s.acts[i].ret / 2 { CountSame(s, b, i, s'); } else { CountOther(s, b, i, s', dp); }
    }
    forall r: nat ensures KeyOk(s', b', r) { KeyFact(s, b, r); }
  }

  // ------------------------------------------------------------------- firing

  /** A continuation that is about to fire is live, has not fired before, and all
      its slots hold the values they were waiting for. */
  lemma FiringFact(s: State, b: Book, i: nat)
    requires Inv(s, b) && i < |s.acts| && s.acts[i].Firing?
    ensures var dp := s.acts[i].dp;
      dp in b.live && dp !in b.fired && dp in s.conts &&
      (var (k, r) := (s.conts[dp], s.conts[dp].ret);
       Owned(b, r, ByCont(dp)) && EncRet(dp, 0) in b.goal && (Need(FnOf(k)) == 2 ==> EncRet(dp, 1) in b.goal) &&
       GoalsOk(s, b, dp, FnOf(k), r) &&
       Meets(s.cells, b.goal[EncRet(dp, 0)], SlotWord(k, 0)) && Owned(b, EncRet(dp, 0), Counted) &&
       (Need(FnOf(k)) == 2 ==>
          Meets(s.cells, b.goal[EncRet(dp, 1)], SlotWord(k, 1)) && Owned(b, EncRet(dp, 1), Counted)))
  {
    ActFact(s, b, i);
    HeaderFact(s, b, s.acts[i].dp);
  }

  ghost function FiredBook(s: State, b: Book, i: nat): Book
    requires i < |s.acts| && s.acts[i].Firing? && s.acts[i].dp in s.conts
  {
    var dp := s.acts[i].dp;
    b.(owner := b.owner[s.conts[dp].ret := ByAct(i)], live := b.live - {dp}, fired := b.fired + {dp})
  }

  /** The activity that fired goes on with a value or task that meets the goal of
      the continuation's own return address. */
  ghost predicate Continues(s: State, b: Book, i: nat, s': State) {
    i < |s.acts| && s.acts[i].Firing? && s.acts[i].dp in s.conts &&
    (var ret := s.conts[s.acts[i].dp].ret;
     |s'.acts| == |s.acts| && s' == Become(s.(cells := s'.cells), i, s'.acts[i]) && Extends(s.cells, s'.cells) &&
     ret in b.goal &&
     match s'.acts[i]
     case Holding(r, v) => r == ret && Meets(s'.cells, b.goal[ret], v)
     case Queued(t) => t.ret == ret && TaskFits(s', t, b.goal[ret])
     case _ => false)
  }

  /** What a continuation computes from filled slots meets its own goal. */
  lemma NodeMeets(cells: Cells, at: nat, w0: Word, w1: Word, d: nat, x: nat)
    requires d > 0 && TreeAt(cells, w0, d - 1, Left(x)) && TreeAt(cells, w1, d - 1, Right(x))
    requires at !in cells && at + 1 !in cells
    ensures TreeAt(cells[at := w0][at + 1 := w1], Word(2, at), d, x)
  {
    var cells' := cells[at := w0][at + 1 := w1];
    TreeKept(cells, cells', w0, d - 1, Left(x));
    TreeKept(cells, cells', w1, d - 1, Right(x));
  }

  lemma SumMeets(d: nat, x: nat)
    requires d > 0
    ensures Number(Number(SumOf(d - 1, Left(x))).loc + Number(SumOf(d - 1, Right(x))).loc) == Number(SumOf(d, x))
  {
    var (l, r) := (SumOf(d - 1, Left(x)), SumOf(d - 1, Right(x)));
    SmallNumber(l);
    SmallNumber(r);
    NumberReduced(l + r);
  }

  lemma FireContinues(s: State, b: Book, i: nat, at: nat, s': State)
    requires Inv(s, b) && Fire(s, i, at, s')
    ensures Continues(s, b, i, s')
  {
    FiringFact(s, b, i);
    var dp := s.acts[i].dp;
    var (k, goal) := (s.conts[dp], b.goal[s.conts[dp].ret]);
    if FnOf(k) == CONT_BUILD {
      NodeMeets(s.cells, at, SlotWord(k, 0), SlotWord(k, 1), goal.d, goal.x);
    } else if FnOf(k) == CONT_SUM {
      SumMeets(goal.d, goal.x);
    }
  }

  lemma FireSlot(s: State, b: Book, i: nat, s': State, dp: nat, slot: nat)
    requires Inv(s, b) && Continues(s, b, i, s') && dp in b.live && dp != s.acts[i].dp && slot < 2
    requires dp in s.conts && SlotOk(s, b, dp, slot)
    ensures SlotOk(s', FiredBook(s, b, i), dp, slot)
    ensures Open(FiredBook(s, b, i), EncRet(dp, slot)) == Open(b, EncRet(dp, slot))
  {
    FiringFact(s, b, i);
    var r := EncRet(dp, slot);
    if b.owner[r] == Counted { MeetsKept(s.cells, s'.cells, b.goal[r], SlotWord(s.conts[dp], slot)); }
  }

  lemma FireCont(s: State, b: Book, i: nat, s': State, dp: nat)
    requires Inv(s, b) && Continues(s, b, i, s') && dp in b.live && dp != s.acts[i].dp
    ensures ContOk(s', FiredBook(s, b, i), dp)
  {
    FiringFact(s, b, i);
    ContFact(s, b, dp);
    FireSlot(s, b, i, s', dp, 0);
    if Need(FnOf(s.conts[dp])) == 2 { FireSlot(s, b, i, s', dp, 1); }
  }

  lemma FireAct(s: State, b: Book, i: nat, s': State, j: nat)
    requires Inv(s, b) && Continues(s, b, i, s') && j < |s.acts|
    ensures ActOk(s', FiredBook(s, b, i), j)
  {
    FiringFact(s, b, i);
    ActFact(s, b, i);
    ActFact(s, b, j);
    if j != i { ActGrows(s, b, s', j); }
  }

  lemma FireKeeps(s: State, b: Book, i: nat, at: nat, s': State)
    requires Inv(s, b) && Fire(s, i, at, s')
    ensures Inv(s', FiredBook(s, b, i))
  {
    var b' := FiredBook(s, b, i);
    FiringFact(s, b, i);
    FireContinues(s, b, i, at, s');
    forall j: nat | j < |s'.acts| ensures ActOk(s', b', j) { FireAct(s, b, i, s', j); }
    forall dp: nat | dp in b'.live ensures ContOk(s', b', dp) { FireCont(s, b, i, s', dp); }
    forall r: nat ensures KeyOk(s', b', r) {
      KeyFact(s, b, r);
      assert r == EncRet(r / 2, r % 2);
    }
  }
}
