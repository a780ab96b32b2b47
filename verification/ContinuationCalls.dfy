/** What a continuation fires with. */
module ContinuationCalls {
  import opened TreeSum
  import opened SeqEval
  import opened Continuations
  import opened ContinuationSteps
  import opened ContinuationRuns

  lemma BookStep(depth: nat, ss: seq<State>, acts: seq<Action>, n: nat, b: Book)
    requires IsRun(depth, ss, acts) && n < |acts| && Inv(ss[n], b)
    ensures Next(ss[n], acts[n], ss[n + 1]) && Inv(ss[n + 1], NextBook(ss[n], b, acts[n]))
  {
    assert Next(ss[n], acts[n], ss[n + 1]);
    NextKeeps(ss[n], b, acts[n], ss[n + 1]);
  }

  /** The bookkeeping after n steps of a run. */
  ghost function BookAt(depth: nat, ss: seq<State>, acts: seq<Action>, n: nat): (b: Book)
    requires IsRun(depth, ss, acts) && n <= |acts|
    ensures Inv(ss[n], b)
  {
    if n == 0 then
      StartInv(depth);
      StartBook(depth)
    else
      var b := BookAt(depth, ss, acts, n - 1);
      BookStep(depth, ss, acts, n - 1, b);
      NextBook(ss[n - 1], b, acts[n - 1])
  }

  // ------------------------------------------------- what never changes in a run

  /** A return address that has been made keeps its goal. */
  ghost predicate GoalStays(b: Book, b': Book, r: nat) {
    r in b.owner && r in b.goal ==> r in b'.owner && r in b'.goal && b'.goal[r] == b.goal[r]
  }

  lemma OpenGoalStays(s: State, b: Book, i: nat, at: nat, fn: nat, g0: Goal, g1: Goal, r: nat)
    requires Inv(s, b) && i < |s.acts| && s.acts[i].Queued? && FreshCont(s, at)
    ensures GoalStays(b, OpenedBook(s, b, i, at, fn, g0, g1), r)
  {
    if r in b.owner && r in b.goal { OpenGoal(s, b, i, at, fn, g0, g1, r); }
  }

  lemma NextGoal(s: State, b: Book, a: Action, s': State, r: nat)
    requires Inv(s, b) && Next(s, a, s')
    ensures GoalStays(b, NextBook(s, b, a), r)
  {
    if a.DoDispatch? && s'.conts == s.conts {
      DispatchFinishes(s, b, a.i, a.at, s');
    } else if a.DoDispatch? {
      var fn, t0, t1, g0, g1 := DispatchOpens(s, b, a.i, a.at, s');
      OpenGoalStays(s, b, a.i, a.at, fn, g0, g1, r);
    }
  }

  /** A continuation cell keeps its function and return address. */
  ghost predicate ContStays(s: State, s': State, dp: nat) {
    dp in s.conts ==> dp in s'.conts && FnOf(s'.conts[dp]) == FnOf(s.conts[dp]) && s'.conts[dp].ret == s.conts[dp].ret
  }

  lemma NextCont(s: State, b: Book, a: Action, s': State, dp: nat)
    requires Inv(s, b) && Next(s, a, s')
    ensures ContStays(s, s', dp)
  {
    if a.DoCount? { CountHeader(s, b, a.i, s'); }
  }

  ghost predicate Stays(s: State, b: Book, s': State, b': Book, r: nat, dp: nat) {
    GoalStays(b, b', r) && ContStays(s, s', dp)
  }

  lemma StaysTransitive(s0: State, b0: Book, s1: State, b1: Book, s2: State, b2: Book, r: nat, dp: nat)
    requires Stays(s0, b0, s1, b1, r, dp) && Stays(s1, b1, s2, b2, r, dp)
    ensures Stays(s0, b0, s2, b2, r, dp)
  {
  }

  lemma NextStays(depth: nat, ss: seq<State>, acts: seq<Action>, n: nat, b: Book, b': Book, r: nat, dp: nat)
    requires IsRun(depth, ss, acts) && n < |acts| && Inv(ss[n], b) && b' == NextBook(ss[n], b, acts[n])
    ensures Stays(ss[n], b, ss[n + 1], b', r, dp)
  {
    BookStep(depth, ss, acts, n, b);
    NextGoal(ss[n], b, acts[n], ss[n + 1], r);
    NextCont(ss[n], b, acts[n], ss[n + 1], dp);
  }

  lemma {:induction false} ConstantAfter(depth: nat, ss: seq<State>, acts: seq<Action>, j: nat, n: nat, r: nat, dp: nat)
    requires IsRun(depth, ss, acts) && j <= n <= |acts|
    ensures Stays(ss[j], BookAt(depth, ss, acts, j), ss[n], BookAt(depth, ss, acts, n), r, dp)
    decreases n
  {
    if j < n {
      var m := n - 1;
      ConstantAfter(depth, ss, acts, j, m, r, dp);
      NextStays(depth, ss, acts, m, BookAt(depth, ss, acts, m), BookAt(depth, ss, acts, n), r, dp);
      StaysTransitive(ss[j], BookAt(depth, ss, acts, j), ss[m], BookAt(depth, ss, acts, m), ss[n],
                      BookAt(depth, ss, acts, n), r, dp);
    }
  }

  // ------------------------------------------------------------------ opening

  /** Step j dispatches task t and opens continuation dp for it. */
  ghost predicate OpensFor(ss: seq<State>, acts: seq<Action>, j: nat, dp: nat, t: Task) {
    j < |acts| < |ss| && acts[j].DoDispatch? && acts[j].at == dp && acts[j].i < |ss[j].acts| &&
    ss[j].acts[acts[j].i] == Queued(t) && dp !in ss[j].conts && dp in ss[j + 1].conts
  }

  /** Every continuation was opened by a step of the run. */
  lemma {:induction false} OpenedBy(depth: nat, ss: seq<State>, acts: seq<Action>, n: nat, dp: nat)
      returns (j: nat, t: Task)
    requires IsRun(depth, ss, acts) && n <= |acts| && dp in ss[n].conts
    ensures j < n && OpensFor(ss, acts, j, dp, t)
  {
    assert Next(ss[n - 1], acts[n - 1], ss[n]);
    if dp in ss[n - 1].conts {
      j, t := OpenedBy(depth, ss, acts, n - 1, dp);
    } else {
      j, t := n - 1, ss[n - 1].acts[acts[n - 1].i].task;
    }
  }

  /** The kind of continuation that a task opens. */
  function ContFor(t: Task): nat {
    if t.fn == FN_BUILD then CONT_BUILD else if t.fn == FN_SUM then CONT_SUM else CONT_MAIN
  }

  /** What the slots of the continuation of t will be for. */
  ghost predicate GoalsFor(s: State, b: Book, t: Task, dp: nat) {
    t.ret in b.goal && TaskFits(s, t, b.goal[t.ret]) &&
    if t.fn == FN_MAIN then Opened(b, EncRet(dp, 0), GBuild(s.depth, 0))
    else b.goal[t.ret].d > 0 && Opened(b, EncRet(dp, 0), Half(b.goal[t.ret], false)) &&
         Opened(b, EncRet(dp, 1), Half(b.goal[t.ret], true))
  }

  ghost predicate Opened(b: Book, r: nat, g: Goal) { r in b.owner && r in b.goal && b.goal[r] == g }

  lemma OpenedGoals(s: State, b: Book, i: nat, at: nat, s': State)
    requires Inv(s, b) && Dispatch(s, i, at, s') && at !in s.conts && at in s'.conts
    ensures s.acts[i].task.ret in b.goal && SetDown(s, s.acts[i].task, s', DispatchBook(s, b, i, at), at)
  {
    QueuedFact(s, b, i);
    var fn, t0, t1, g0, g1 := DispatchOpens(s, b, i, at, s');
    OpenGoalStays(s, b, i, at, fn, g0, g1, s.acts[i].task.ret);
    FreshRets(s, b, at, 0);
    FreshRets(s, b, at, 1);
    ActFact(s, b, i);
  }

  // ------------------------------------------------------------------- firing

  /** The slots of k hold the results of the calls that task t, dispatched in state s0,
      makes: the two halves of the tree it builds, the totals of the two children of the
      tree it sums, or the tree of the whole program. */
  ghost predicate HoldsResults(s0: State, t: Task, s: State, k: Cont) {
    k.ret == t.ret && FnOf(k) == ContFor(t) &&
    if t.fn == FN_BUILD then
      t.a0.loc > 0 && TreeAt(s.cells, SlotWord(k, 0), t.a0.loc - 1, Left(t.a1.loc)) &&
      TreeAt(s.cells, SlotWord(k, 1), t.a0.loc - 1, Right(t.a1.loc))
    else if t.fn == FN_SUM then
      t.a0.tag == 2 && t.a0.loc in s0.cells && t.a0.loc + 1 in s0.cells &&
      IsTotal(s0.cells, s0.cells[t.a0.loc], SlotWord(k, 0)) && IsTotal(s0.cells, s0.cells[t.a0.loc + 1], SlotWord(k, 1))
    else t.fn == FN_MAIN && TreeAt(s.cells, SlotWord(k, 0), s.depth, 0)
  }

  /** v is the sum of the tree w. */
  ghost predicate IsTotal(cells: Cells, w: Word, v: Word) {
    exists n :: IsTree(cells, w, n) && v == TreeTotal(cells, w, n)
  }

  lemma ChildTotals(cells: Cells, w: Word, d: nat, x: nat)
    requires d > 0 && TreeAt(cells, w, d, x)
    ensures w.tag == 2 && w.loc in cells && w.loc + 1 in cells
    ensures IsTotal(cells, cells[w.loc], Number(SumOf(d - 1, Left(x))))
    ensures IsTotal(cells, cells[w.loc + 1], Number(SumOf(d - 1, Right(x))))
  {
    TotalOfBuild(cells, cells[w.loc], d - 1, Left(x));
    TotalOfBuild(cells, cells[w.loc + 1], d - 1, Right(x));
  }

  /** Slots that meet the goals of the calls of t hold their results. */
  lemma SlotsHold(s0: State, b: Book, t: Task, dp: nat, s: State, k: Cont)
    requires GoalsFor(s0, b, t, dp) && k.ret == t.ret && FnOf(k) == ContFor(t) && s.depth == s0.depth
    requires Meets(s.cells, b.goal[EncRet(dp, 0)], SlotWord(k, 0))
    requires t.fn != FN_MAIN ==> Meets(s.cells, b.goal[EncRet(dp, 1)], SlotWord(k, 1))
    ensures HoldsResults(s0, t, s, k)
  {
    var g := b.goal[t.ret];
    if t.fn == FN_SUM { ChildTotals(s0.cells, t.a0, g.d, g.x); }
  }

  /** When a continuation fires its countdown is zero, its slots hold the results of the
      calls of the task that opened it, and nobody is still going to write to it. */
  lemma FiresFilled(depth: nat, ss: seq<State>, acts: seq<Action>, n: nat) returns (j: nat, t: Task)
    requires IsRun(depth, ss, acts) && n < |acts| && acts[n].DoFire?
    ensures var (s, i) := (ss[n], acts[n].i);
      i < |s.acts| && s.acts[i].Firing? && s.acts[i].dp in s.conts && s.depth == depth &&
      Countdown(s.conts[s.acts[i].dp]) == 0 && Settled(s, s.acts[i].dp) &&
      j < n && OpensFor(ss, acts, j, s.acts[i].dp, t) && HoldsResults(ss[j], t, s, s.conts[s.acts[i].dp])
  {
    var (s, i, b) := (ss[n], acts[n].i, BookAt(depth, ss, acts, n));
    BookStep(depth, ss, acts, n, b);
    ActFact(s, b, i);
    SettledFact(s, b, i);
    FiringFact(s, b, i);
    var dp := s.acts[i].dp;
    j, t := OpenedBy(depth, ss, acts, n, dp);
    OpenedStays(depth, ss, acts, j, n, b, dp, t);
    DepthStays(depth, ss, acts, n);
    DepthStays(depth, ss, acts, j);
    SlotsHold(ss[j], b, t, dp, s, s.conts[dp]);
  }

  lemma DepthStays(depth: nat, ss: seq<State>, acts: seq<Action>, n: nat)
    requires IsRun(depth, ss, acts) && n <= |acts|
    ensures ss[n].depth == depth
  {
    var _ := RunInv(depth, ss, acts, n);
  }

  /** What the opening step sets down: the goals of the slots, and the cell. */
  ghost predicate SetDown(s0: State, t: Task, s: State, b: Book, dp: nat) {
    GoalsFor(s0, b, t, dp) && t.ret in b.owner && dp in s.conts && s.conts[dp].ret == t.ret &&
    FnOf(s.conts[dp]) == ContFor(t)
  }

  lemma OpeningSets(depth: nat, ss: seq<State>, acts: seq<Action>, j: nat, b: Book, dp: nat, t: Task)
    requires IsRun(depth, ss, acts) && OpensFor(ss, acts, j, dp, t) && Inv(ss[j], b)
    ensures SetDown(ss[j], t, ss[j + 1], NextBook(ss[j], b, acts[j]), dp)
  {
    BookStep(depth, ss, acts, j, b);
    OpenedGoals(ss[j], b, acts[j].i, dp, ss[j + 1]);
  }

  lemma SetDownStays(s0: State, t: Task, s: State, b: Book, s': State, b': Book, dp: nat)
    requires SetDown(s0, t, s, b, dp) && Stays(s, b, s', b', EncRet(dp, 0), dp)
    requires Stays(s, b, s', b', EncRet(dp, 1), dp) && Stays(s, b, s', b', t.ret, dp)
    ensures SetDown(s0, t, s', b', dp)
  {
  }

  /** It still holds when the continuation fires. */
  lemma OpenedStays(depth: nat, ss: seq<State>, acts: seq<Action>, j: nat, n: nat, b: Book, dp: nat, t: Task)
    requires IsRun(depth, ss, acts) && j < n <= |acts| && OpensFor(ss, acts, j, dp, t) &&
      b == BookAt(depth, ss, acts, n)
    ensures SetDown(ss[j], t, ss[n], b, dp)
  {
    var k := j + 1;
    OpeningSets(depth, ss, acts, j, BookAt(depth, ss, acts, j), dp, t);
    ConstantAfter(depth, ss, acts, k, n, EncRet(dp, 0), dp);
    ConstantAfter(depth, ss, acts, k, n, EncRet(dp, 1), dp);
    ConstantAfter(depth, ss, acts, k, n, t.ret, dp);
    SetDownStays(ss[j], t, ss[k], BookAt(depth, ss, acts, k), ss[n], b, dp);
  }
}
