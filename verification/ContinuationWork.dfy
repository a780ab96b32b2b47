/** A measure that every step of the continuation protocol lowers. */
module ContinuationWork {
  import opened TreeSum
  import opened Continuations
  import opened ContinuationSteps

  /** Steps that a build or sum of depth d still takes, all calls included. */
  function TreeWork(d: nat): nat { if d == 0 then 4 else 2 * TreeWork(d - 1) + 5 }

  lemma {:induction false} TreeWorkClosed(d: nat)
    ensures TreeWork(d) == 9 * Pow2(d) - 5
  {
    if d > 0 { TreeWorkClosed(d - 1); }
  }

  ghost function TaskWork(depth: nat, goal: map<nat, Goal>, t: Task): nat {
    if t.fn == FN_MAIN then 2 * TreeWork(depth) + 2
    else if t.ret in goal then TreeWork(goal[t.ret].d) else 0
  }

  ghost function ActWork(depth: nat, goal: map<nat, Goal>, a: Activity): nat {
    match a
    case Queued(t) => TaskWork(depth, goal, t)
    case Holding(_, _) => 3
    case Tagged(_, _) => 2
    case Stored(_, _) => 1
    case _ => 0
  }

  function ContWork(depth: nat, k: Cont): nat { if FnOf(k) == CONT_MAIN then TreeWork(depth) + 1 else 4 }

  ghost function ActsWork(depth: nat, goal: map<nat, Goal>, acts: seq<Activity>): nat {
    if acts == [] then 0
    else ActsWork(depth, goal, acts[..|acts| - 1]) + ActWork(depth, goal, acts[|acts| - 1])
  }

  ghost function ContsWork(depth: nat, conts: map<nat, Cont>, live: set<nat>): nat
    requires live <= conts.Keys
  {
    if live == {} then 0
    else var dp :| dp in live; ContWork(depth, conts[dp]) + ContsWork(depth, conts, live - {dp})
  }

  ghost function Work(s: State, b: Book): nat
    requires b.live <= s.conts.Keys
  {
    ActsWork(s.depth, b.goal, s.acts) + ContsWork(s.depth, s.conts, b.live)
  }

  lemma {:induction false} ActsUpdate(depth: nat, goal: map<nat, Goal>, acts: seq<Activity>, i: nat, a: Activity)
    requires i < |acts|
    ensures ActsWork(depth, goal, acts[i := a]) ==
      ActsWork(depth, goal, acts) - ActWork(depth, goal, acts[i]) + ActWork(depth, goal, a)
  {
    var n := |acts| - 1;
    if i < n {
      ActsUpdate(depth, goal, acts[..n], i, a);
      assert acts[i := a][..n] == acts[..n][i := a];
    } else {
      assert acts[i := a][..n] == acts[..n];
    }
  }

  lemma {:induction false} ActsSame(depth: nat, goal: map<nat, Goal>, goal': map<nat, Goal>, acts: seq<Activity>)
    requires forall j :: 0 <= j < |acts| ==> ActWork(depth, goal', acts[j]) == ActWork(depth, goal, acts[j])
    ensures ActsWork(depth, goal', acts) == ActsWork(depth, goal, acts)
  {
    if acts != [] { ActsSame(depth, goal, goal', acts[..|acts| - 1]); }
  }

  lemma {:induction false} ContsRemove(depth: nat, conts: map<nat, Cont>, live: set<nat>, dp: nat)
    requires live <= conts.Keys && dp in live
    ensures ContsWork(depth, conts, live) == ContWork(depth, conts[dp]) + ContsWork(depth, conts, live - {dp})
    decreases |live|
  {
    var q :| q in live && ContsWork(depth, conts, live) ==
      ContWork(depth, conts[q]) + ContsWork(depth, conts, live - {q});
    if q != dp {
      ContsRemove(depth, conts, live - {q}, dp);
      ContsRemove(depth, conts, live - {dp}, q);
      assert live - {q} - {dp} == live - {dp} - {q};
    }
  }

  lemma {:induction false} ContsSame(depth: nat, conts: map<nat, Cont>, conts': map<nat, Cont>, live: set<nat>)
    requires live <= conts.Keys && live <= conts'.Keys
    requires forall dp :: dp in live ==> ContWork(depth, conts'[dp]) == ContWork(depth, conts[dp])
    ensures ContsWork(depth, conts', live) == ContsWork(depth, conts, live)
    decreases |live|
  {
    if live != {} {
      var dp :| dp in live;
      ContsRemove(depth, conts, live, dp);
      ContsRemove(depth, conts', live, dp);
      ContsSame(depth, conts, conts', live - {dp});
    }
  }

  // ------------------------------------------------------ each step lowers it

  /** One activity moves on; no continuation opens or fires. */
  lemma StageWork(s: State, b: Book, i: nat, s': State, b': Book)
    requires b.live <= s.conts.Keys && b.live <= s'.conts.Keys && b'.live == b.live && b'.goal == b.goal
    requires i < |s.acts| == |s'.acts| && s'.acts == s.acts[i := s'.acts[i]] && s'.depth == s.depth
    requires forall dp :: dp in b.live ==> FnOf(s'.conts[dp]) == FnOf(s.conts[dp])
    requires ActWork(s.depth, b.goal, s'.acts[i]) < ActWork(s.depth, b.goal, s.acts[i])
    ensures Work(s', b') < Work(s, b)
  {
    ActsUpdate(s.depth, b.goal, s.acts, i, s'.acts[i]);
    ContsSame(s.depth, s.conts, s'.conts, b.live);
  }

  lemma TreeWorkAtLeast(d: nat)
    ensures TreeWork(d) >= 4
  {
  }

  lemma FinishWork(s: State, b: Book, i: nat, s': State)
    requires Inv(s, b) && i < |s.acts| && s.acts[i].Queued? && s'.conts == s.conts && s'.depth == s.depth
    requires |s'.acts| == |s.acts| && s'.acts == s.acts[i := s'.acts[i]] && s'.acts[i].Holding?
    ensures Work(s', b) < Work(s, b)
  {
    QueuedFact(s, b, i);
    TreeWorkAtLeast(s.depth);
    TreeWorkAtLeast(b.goal[s.acts[i].task.ret].d);
    StageWork(s, b, i, s', b);
  }

  /** Old activities weigh the same under the goals of an opened book. */
  lemma OpenOldActs(s: State, b: Book, i: nat, at: nat, fn: nat, t0: Task, t1: Task, g0: Goal, g1: Goal, s': State)
    requires Inv(s, b) && Opens(s, b, i, at, fn, t0, t1, g0, g1, s')
    ensures ActsWork(s.depth, OpenedBook(s, b, i, at, fn, g0, g1).goal, s.acts) == ActsWork(s.depth, b.goal, s.acts)
  {
    var goal' := OpenedBook(s, b, i, at, fn, g0, g1).goal;
    FreshRets(s, b, at, 0);
    FreshRets(s, b, at, 1);
    forall j | 0 <= j < |s.acts| ensures ActWork(s.depth, goal', s.acts[j]) == ActWork(s.depth, b.goal, s.acts[j]) {
      ActFact(s, b, j);
    }
    ActsSame(s.depth, b.goal, goal', s.acts);
  }

  lemma OpenWork(s: State, b: Book, i: nat, at: nat, fn: nat, t0: Task, t1: Task, g0: Goal, g1: Goal, s': State)
    requires Inv(s, b) && Opens(s, b, i, at, fn, t0, t1, g0, g1, s')
    ensures var b' := OpenedBook(s, b, i, at, fn, g0, g1);
      b'.live <= s'.conts.Keys && b.live <= s.conts.Keys &&
      Work(s', b') == Work(s, b) - TaskWork(s.depth, b.goal, s.acts[i].task) +
        ContWork(s.depth, NewCont(fn, 0, Need(fn))) + TaskWork(s.depth, b'.goal, t0) +
        if Need(fn) == 2 then TaskWork(s.depth, b'.goal, t1) else 0
  {
    var b' := OpenedBook(s, b, i, at, fn, g0, g1);
    FreshRets(s, b, at, 0);
    QueuedFact(s, b, i);
    OpenOldActs(s, b, i, at, fn, t0, t1, g0, g1, s');
    OpenOldTask(s, b, i, at, fn, g0, g1);
    ActsUpdate(s.depth, b'.goal, s.acts, i, Queued(t0));
    var acts := s.acts[i := Queued(t0)];
    if Need(fn) == 2 {
      assert s'.acts[..|s'.acts| - 1] == acts;
    } else {
      assert s'.acts == acts;
    }
    ContsRemove(s.depth, s'.conts, b'.live, at);
    assert b'.live - {at} == b.live;
    ContsSame(s.depth, s.conts, s'.conts, b.live);
  }

  lemma OpenOldTask(s: State, b: Book, i: nat, at: nat, fn: nat, g0: Goal, g1: Goal)
    requires Inv(s, b) && i < |s.acts| && s.acts[i].Queued? && FreshCont(s, at)
    ensures TaskWork(s.depth, OpenedBook(s, b, i, at, fn, g0, g1).goal, s.acts[i].task) ==
      TaskWork(s.depth, b.goal, s.acts[i].task)
  {
    FreshRets(s, b, at, 0);
    FreshRets(s, b, at, 1);
    ActFact(s, b, i);
  }

  lemma DispatchWork(s: State, b: Book, i: nat, at: nat, s': State)
    requires Inv(s, b) && Dispatch(s, i, at, s')
    ensures s.acts[i].task.ret in b.goal &&
      (var b' := DispatchBook(s, b, i, at);
       b'.live <= s'.conts.Keys && b.live <= s.conts.Keys && Work(s', b') < Work(s, b))
  {
    if s'.conts == s.conts {
      DispatchFinishes(s, b, i, at, s');
      FinishWork(s, b, i, s');
    } else {
      var fn, t0, t1, g0, g1 := DispatchOpens(s, b, i, at, s');
      OpenWork(s, b, i, at, fn, t0, t1, g0, g1, s');
      FreshRets(s, b, at, 0);
      FreshRets(s, b, at, 1);
      QueuedFact(s, b, i);
    }
  }

  lemma FireWork(s: State, b: Book, i: nat, at: nat, s': State)
    requires Inv(s, b) && Fire(s, i, at, s')
    ensures var b' := FiredBook(s, b, i);
      b'.live <= s'.conts.Keys && b.live <= s.conts.Keys && Work(s', b') < Work(s, b)
  {
    FiringFact(s, b, i);
    var dp := s.acts[i].dp;
    ActsUpdate(s.depth, b.goal, s.acts, i, s'.acts[i]);
    ContsRemove(s.depth, s.conts, b.live, dp);
    ContsSame(s.depth, s.conts, s'.conts, b.live - {dp});
  }
}
