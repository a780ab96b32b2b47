/** Whole runs of the work-stealing collapse. */
module StealingRuns {
  import opened BranchTrees
  import opened StealingCollapse

  /** The deques before the workers start: task j goes to worker j modulo n. */
  function Dealt(tasks: seq<Branch>, n: nat): (ws: seq<Worker>)
    requires n > 0
    ensures |ws| == n
  {
    if tasks == [] then seq(n, _ => Worker([], Looking, []))
    else
      var (last, ws) := (|tasks| - 1, Dealt(tasks[..|tasks| - 1], n));
      ws[last % n := Given(ws[last % n], tasks[last])]
  }

  lemma MulAtLeast(p: nat, q: nat, n: nat)
    requires p < q
    ensures q * n >= p * n + n
  {
    var k := q - p - 1;
    assert q * n == p * n + n + k * n;
  }

  /** A number m with i + (q - 1) * n < m <= i + q * n is i + q * n exactly when its
      remainder is i. */
  lemma NextPlace(m: nat, n: nat, i: nat, q: nat, qn: nat)
    requires i < n && qn == q * n && m <= i + qn && (q > 0 ==> i + qn < m + n)
    ensures m % n == i <==> m == i + qn
  {
    var (p, pn) := (m / n, (m / n) * n);
    assert m == pn + m % n;
    if p < q { MulAtLeast(p, q, n); }
    if p > q { MulAtLeast(q, p, n); }
  }

  predicate TaskAt(tasks: seq<Branch>, n: nat, i: nat, k: nat, t: Branch) {
    var j := i + k * n;
    0 <= j < |tasks| && tasks[j] == t
  }

  /** Worker i of n has been dealt the tasks i, i + n, i + 2 * n and so on, up to the end. */
  ghost predicate DealtTo(tasks: seq<Branch>, n: nat, i: nat, deque: seq<Branch>) {
    (forall k: nat {:trigger TaskAt(tasks, n, i, k, deque[k])} :: k < |deque| ==> TaskAt(tasks, n, i, k, deque[k])) &&
    |tasks| <= i + |deque| * n
  }

  lemma EndOf(tasks: seq<Branch>, n: nat, i: nat, deque: seq<Branch>, q: nat, qn: nat)
    requires i < n && q == |deque| && qn == q * n && DealtTo(tasks, n, i, deque)
    ensures |tasks| <= i + qn && (q > 0 ==> i + qn < |tasks| + n)
  {
    if q > 0 {
      assert TaskAt(tasks, n, i, q - 1, deque[q - 1]);
      assert qn == (q - 1) * n + n;
    }
  }

  lemma DealtNext(tasks: seq<Branch>, n: nat, i: nat, deque: seq<Branch>, t: Branch, q: nat, qn: nat)
    requires i < n && q == |deque| && qn == q * n && DealtTo(tasks, n, i, deque)
    ensures if |tasks| % n == i then DealtTo(tasks + [t], n, i, deque + [t]) else DealtTo(tasks + [t], n, i, deque)
  {
    EndOf(tasks, n, i, deque, q, qn);
    NextPlace(|tasks|, n, i, q, qn);
    MulAtLeast(q, q + 1, n);
    var (tasks', deque') := (tasks + [t], if |tasks| % n == i then deque + [t] else deque);
    forall k: nat | k < |deque'| ensures TaskAt(tasks', n, i, k, deque'[k]) {
      if k < q { assert TaskAt(tasks, n, i, k, deque[k]); }
    }
  }

  /** The tasks are dealt in turn. */
  lemma {:induction false} DealtInTurn(tasks: seq<Branch>, n: nat, i: nat)
    requires i < n
    ensures DealtTo(tasks, n, i, Dealt(tasks, n)[i].deque)
  {
    if tasks != [] {
      var (earlier, t) := (tasks[..|tasks| - 1], tasks[|tasks| - 1]);
      var deque := Dealt(earlier, n)[i].deque;
      DealtInTurn(earlier, n, i);
      DealtNext(earlier, n, i, deque, t, |deque|, |deque| * n);
      assert tasks == earlier + [t];
    }
  }

  function Start(tasks: seq<Branch>, n: nat): State
    requires n > 0
  {
    State(Dealt(tasks, n), |tasks|)
  }

  /** Who steps, and from whom it steals if it does. */
  datatype Turn = Turn(i: nat, victim: nat)

  ghost predicate IsRun(tasks: seq<Branch>, n: nat, ss: seq<State>, turns: seq<Turn>) {
    n > 0 && |ss| == |turns| + 1 && ss[0] == Start(tasks, n) &&
    forall k {:trigger turns[k]} :: 0 <= k < |turns| ==> Next(ss[k], turns[k].i, turns[k].victim, ss[k + 1])
  }

  // ----------------------------------------------------------------- the start

  ghost predicate Waiting(ws: seq<Worker>) {
    forall i {:trigger ws[i]} :: 0 <= i < |ws| ==> ws[i].hand == Looking && ws[i].result == []
  }

  lemma {:induction false} EmptyWorkers(ws: seq<Worker>)
    requires forall i {:trigger ws[i]} :: 0 <= i < |ws| ==> ws[i] == Worker([], Looking, [])
    ensures Owed(ws) == 0 && Kept(ws) == [] && Waiting(ws)
  {
    if ws != [] { EmptyWorkers(ws[..|ws| - 1]); }
  }

  function Given(w: Worker, t: Branch): Worker { w.(deque := w.deque + [t]) }

  lemma KeepsMore(w: Worker, t: Branch)
    requires w.hand.Looking?
    ensures multiset(Keeps(Given(w, t))) == multiset(Keeps(w)) + multiset(Found(t))
  {
    FoundAllPush(w.deque, t);
    LeavesAtEnd(w.result, FoundAll(w.deque), Found(t));
  }

  lemma LeavesAtEnd<T>(r: seq<T>, f: seq<T>, x: seq<T>)
    ensures multiset(r + ((f + x) + [])) == multiset(r + (f + [])) + multiset(x)
  {
  }

  lemma AddKept(ws: seq<Worker>, i: nat, t: Branch)
    requires i < |ws| && ws[i].hand.Looking?
    ensures multiset(Kept(ws[i := Given(ws[i], t)])) == multiset(Kept(ws)) + multiset(Found(t))
  {
    KeptUpdate(ws, i, Given(ws[i], t));
    KeepsMore(ws[i], t);
    AddedLeaves(multiset(Kept(ws)), multiset(Kept(ws[i := Given(ws[i], t)])), multiset(Keeps(ws[i])),
                multiset(Found(t)));
  }

  lemma AddOwed(ws: seq<Worker>, i: nat, t: Branch)
    requires i < |ws| && Waiting(ws)
    ensures Owed(ws[i := Given(ws[i], t)]) == Owed(ws) + 1 && Waiting(ws[i := Given(ws[i], t)])
  {
    OwedUpdate(ws, i, Given(ws[i], t));
  }

  lemma AddedLeaves<T>(k: multiset<T>, k': multiset<T>, w: multiset<T>, f: multiset<T>)
    requires k' + w == k + (w + f)
    ensures k' == k + f
  {
    forall e ensures k'[e] == (k + f)[e] { assert (k' + w)[e] == (k + (w + f))[e]; }
  }

  lemma FoundMore(tasks: seq<Branch>)
    requires tasks != []
    ensures multiset(FoundAll(tasks)) == multiset(FoundAll(tasks[..|tasks| - 1])) + multiset(Found(tasks[|tasks| - 1]))
  {
    assert FoundAll(tasks) == FoundAll(tasks[..|tasks| - 1]) + Found(tasks[|tasks| - 1]);
  }

  lemma {:induction false} DealtCounts(tasks: seq<Branch>, n: nat)
    requires n > 0
    ensures Owed(Dealt(tasks, n)) == |tasks| && Waiting(Dealt(tasks, n))
    ensures multiset(Kept(Dealt(tasks, n))) == multiset(FoundAll(tasks))
  {
    if tasks == [] {
      EmptyWorkers(Dealt(tasks, n));
    } else {
      var last := |tasks| - 1;
      DealtCounts(tasks[..last], n);
      AddOwed(Dealt(tasks[..last], n), last % n, tasks[last]);
      AddKept(Dealt(tasks[..last], n), last % n, tasks[last]);
      FoundMore(tasks);
    }
  }

  lemma StartInv(tasks: seq<Branch>, n: nat)
    requires n > 0
    ensures Inv(Start(tasks, n), multiset(FoundAll(tasks)))
  {
    DealtCounts(tasks, n);
  }

  lemma {:induction false} RunInv(tasks: seq<Branch>, n: nat, ss: seq<State>, turns: seq<Turn>, k: nat)
    requires IsRun(tasks, n, ss, turns) && k <= |turns|
    ensures Inv(ss[k], multiset(FoundAll(tasks)))
  {
    if k == 0 {
      StartInv(tasks, n);
    } else {
      RunInv(tasks, n, ss, turns, k - 1);
      assert Next(ss[k - 1], turns[k - 1].i, turns[k - 1].victim, ss[k]);
      NextKeeps(ss[k - 1], multiset(FoundAll(tasks)), turns[k - 1].i, turns[k - 1].victim, ss[k]);
    }
  }

  // ------------------------------------------------------- what the counter means

  /** A worker that has nothing queued and nothing in hand. */
  predicate Bare(w: Worker) { w.deque == [] && (w.hand.Looking? || w.hand.Exited?) }

  lemma {:induction false} NothingOwed(ws: seq<Worker>)
    requires Owed(ws) == 0
    ensures Kept(ws) == Merged(ws) && forall i {:trigger ws[i]} :: 0 <= i < |ws| ==> Bare(ws[i])
  {
    if ws != [] {
      var n := |ws| - 1;
      NothingOwed(ws[..n]);
      assert Keeps(ws[n]) == ws[n].result;
      forall i | 0 <= i < |ws| ensures Bare(ws[i]) {
        if i < n { assert ws[..n][i] == ws[i]; }
      }
    }
  }

  lemma {:induction false} OwedIsHeld(ws: seq<Worker>)
    requires forall i {:trigger ws[i]} :: 0 <= i < |ws| && ws[i].hand.Stored? ==> ws[i].result != []
    ensures Owed(ws) <= |Kept(ws)|
  {
    if ws != [] {
      OwedIsHeld(ws[..|ws| - 1]);
      assert Owes(ws[|ws| - 1]) <= |Keeps(ws[|ws| - 1])|;
    }
  }

  /** At every moment of every run the counter is zero exactly when no task is
      queued or in anybody's hands; then the stored leaves are all there are. It is
      never negative and never exceeds the number of leaves, so it cannot overflow. */
  lemma CounterIsExact(tasks: seq<Branch>, n: nat, ss: seq<State>, turns: seq<Turn>, k: nat)
    requires IsRun(tasks, n, ss, turns) && k <= |turns|
    ensures var s := ss[k];
      0 <= s.remaining <= |FoundAll(tasks)| &&
      (s.remaining == 0 <==> forall i {:trigger s.workers[i]} :: 0 <= i < |s.workers| ==> Bare(s.workers[i])) &&
      (s.remaining == 0 ==> multiset(Merged(s.workers)) == multiset(FoundAll(tasks)))
  {
    var s := ss[k];
    RunInv(tasks, n, ss, turns, k);
    OwedIsHeld(s.workers);
    assert |multiset(Kept(s.workers))| == |Kept(s.workers)|;
    assert |multiset(FoundAll(tasks))| == |FoundAll(tasks)|;
    if s.remaining == 0 { NothingOwed(s.workers); }
    if forall i {:trigger s.workers[i]} :: 0 <= i < |s.workers| ==> Bare(s.workers[i]) { BareOwesNothing(s.workers); }
  }

  lemma {:induction false} BareOwesNothing(ws: seq<Worker>)
    requires forall i {:trigger ws[i]} :: 0 <= i < |ws| ==> Bare(ws[i])
    ensures Owed(ws) == 0
  {
    if ws != [] { BareOwesNothing(ws[..|ws| - 1]); }
  }

  /** As soon as one worker has left, every deque is empty, nobody holds a task, and
      every leaf has been stored exactly as often as it occurs. */
  lemma ExitMeansDone(tasks: seq<Branch>, n: nat, ss: seq<State>, turns: seq<Turn>, k: nat, i: nat)
    requires IsRun(tasks, n, ss, turns) && k <= |turns|
    requires i < |ss[k].workers| && ss[k].workers[i].hand.Exited?
    ensures forall j {:trigger ss[k].workers[j]} :: 0 <= j < |ss[k].workers| ==> Bare(ss[k].workers[j])
    ensures multiset(Merged(ss[k].workers)) == multiset(FoundAll(tasks))
  {
    RunInv(tasks, n, ss, turns, k);
    assert WorkerOk(ss[k].workers[i], ss[k].remaining);
    CounterIsExact(tasks, n, ss, turns, k);
  }

  // -------------------------------------------------------- every run comes to an end

  function TaskWork(t: Branch): nat { 4 * Size(t) }

  function QueueWork(ts: seq<Branch>): nat {
    if ts == [] then 0 else QueueWork(ts[..|ts| - 1]) + TaskWork(ts[|ts| - 1])
  }

  function HandWork(h: Hand): nat {
    match h
    case Looking => 1
    case Has(t) => TaskWork(t)
    case Forking(l, r) => TaskWork(l) + TaskWork(r) + 3
    case Half(r) => TaskWork(r) + 2
    case Stored => 2
    case Exited => 0
  }

  function Work(w: Worker): nat { QueueWork(w.deque) + HandWork(w.hand) }

  function TotalWork(ws: seq<Worker>): nat {
    if ws == [] then 0 else TotalWork(ws[..|ws| - 1]) + Work(ws[|ws| - 1])
  }

  lemma {:induction false} WorkUpdate(ws: seq<Worker>, i: nat, w: Worker)
    requires i < |ws|
    ensures TotalWork(ws[i := w]) == TotalWork(ws) - Work(ws[i]) + Work(w)
  {
    var n := |ws| - 1;
    if i < n {
      WorkUpdate(ws[..n], i, w);
      assert ws[i := w][..n] == ws[..n][i := w];
    } else {
      assert ws[i := w][..n] == ws[..n];
    }
  }

  lemma {:induction false} QueueFront(ts: seq<Branch>)
    requires ts != []
    ensures QueueWork(ts) == TaskWork(ts[0]) + QueueWork(ts[1..])
  {
    var n := |ts| - 1;
    if n > 0 {
      QueueFront(ts[..n]);
      assert ts[..n][1..] == ts[1..][..n - 1];
    } else {
      assert ts[..0] == [] && ts[1..] == [];
    }
  }

  lemma QueuePush(ts: seq<Branch>, t: Branch)
    ensures QueueWork(ts + [t]) == QueueWork(ts) + TaskWork(t)
  {
    assert (ts + [t])[..|ts|] == ts;
  }

  lemma NextWork(s: State, i: nat, victim: nat, s': State)
    requires Next(s, i, victim, s')
    ensures TotalWork(s'.workers) < TotalWork(s.workers) && |s'.workers| == |s.workers|
  {
    var w := s.workers[i];
    if Steal(s, i, victim, s') {
      StealWork(s, i, victim, s');
    } else {
      WorkUpdate(s.workers, i, s'.workers[i]);
      OwnWork(s, i, s');
    }
  }

  lemma OwnWork(s: State, i: nat, s': State)
    requires At(s, i) && At(s', i)
    requires Pop(s, i, s') || Raise(s, i, s') || PushLeft(s, i, s') || PushRight(s, i, s') ||
      StoreLeaf(s, i, s') || Lower(s, i, s') || Exit(s, i, s')
    ensures Work(s'.workers[i]) < Work(s.workers[i])
  {
    var w := s.workers[i];
    if w.hand.Forking? { QueuePush(w.deque, w.hand.left); }
    if w.hand.Half? { QueuePush(w.deque, w.hand.right); }
  }

  lemma StealWork(s: State, i: nat, victim: nat, s': State)
    requires Steal(s, i, victim, s')
    ensures TotalWork(s'.workers) < TotalWork(s.workers)
  {
    var (w, v) := (s.workers[i], s.workers[victim]);
    var v' := v.(deque := v.deque[1..]);
    WorkUpdate(s.workers, victim, v');
    WorkUpdate(s.workers[victim := v'], i, w.(hand := Has(v.deque[0])));
    QueueFront(v.deque);
  }

  lemma {:induction false} DealtWork(tasks: seq<Branch>, n: nat)
    requires n > 0
    ensures TotalWork(Dealt(tasks, n)) == QueueWork(tasks) + n
  {
    if tasks == [] {
      LookingWork(Dealt(tasks, n));
    } else {
      var last := |tasks| - 1;
      var ws := Dealt(tasks[..last], n);
      DealtWork(tasks[..last], n);
      QueuePush(ws[last % n].deque, tasks[last]);
      WorkUpdate(ws, last % n, Given(ws[last % n], tasks[last]));
    }
  }

  lemma {:induction false} LookingWork(ws: seq<Worker>)
    requires forall i {:trigger ws[i]} :: 0 <= i < |ws| ==> ws[i] == Worker([], Looking, [])
    ensures TotalWork(ws) == |ws|
  {
    if ws != [] { LookingWork(ws[..|ws| - 1]); }
  }

  lemma {:induction false} RunWork(tasks: seq<Branch>, n: nat, ss: seq<State>, turns: seq<Turn>, k: nat)
    requires IsRun(tasks, n, ss, turns) && k <= |turns|
    ensures k + TotalWork(ss[k].workers) <= QueueWork(tasks) + n && |ss[k].workers| == n
  {
    if k == 0 {
      DealtWork(tasks, n);
    } else {
      RunWork(tasks, n, ss, turns, k - 1);
      assert Next(ss[k - 1], turns[k - 1].i, turns[k - 1].victim, ss[k]);
      NextWork(ss[k - 1], turns[k - 1].i, turns[k - 1].victim, ss[k]);
    }
  }

  /** Every schedule comes to an end, after at most four steps per node of the
      tasks and one per worker. */
  lemma RunsEnd(tasks: seq<Branch>, n: nat, ss: seq<State>, turns: seq<Turn>)
    requires IsRun(tasks, n, ss, turns)
    ensures |turns| <= QueueWork(tasks) + n
  {
    RunWork(tasks, n, ss, turns, |turns|);
  }

  /** A worker that has not left can step, or somebody else can. */
  lemma NeverStuck(tasks: seq<Branch>, n: nat, ss: seq<State>, turns: seq<Turn>, k: nat, i: nat)
    returns (turn: Turn, s': State)
    requires IsRun(tasks, n, ss, turns) && k <= |turns|
    requires i < |ss[k].workers| && !ss[k].workers[i].hand.Exited?
    ensures Next(ss[k], turn.i, turn.victim, s')
  {
    var s := ss[k];
    CounterIsExact(tasks, n, ss, turns, k);
    RunWork(tasks, n, ss, turns, k);
    if s.workers[i].hand.Looking? {
      if s.remaining == 0 {
        turn, s' := Turn(i, i), Set(s, i, s.workers[i].(hand := Exited));
        assert Exit(s, i, s');
      } else {
        var j :| 0 <= j < |s.workers| && !Bare(s.workers[j]);
        if s.workers[j].hand.Looking? || s.workers[j].hand.Exited? {
          turn, s' := CanTake(s, i, j);
        } else {
          turn, s' := CanWork(s, j);
        }
      }
    } else {
      turn, s' := CanWork(s, i);
    }
  }

  lemma CanTake(s: State, i: nat, j: nat) returns (turn: Turn, s': State)
    requires At(s, i) && At(s, j) && s.workers[i].hand.Looking? && s.workers[j].deque != []
    ensures Next(s, turn.i, turn.victim, s')
  {
    var (w, v) := (s.workers[i], s.workers[j]);
    turn := Turn(i, j);
    if i == j {
      var n := |w.deque| - 1;
      s' := Set(s, i, w.(deque := w.deque[..n], hand := Has(w.deque[n])));
      assert Pop(s, i, s');
    } else {
      s' := Set(Set(s, j, v.(deque := v.deque[1..])), i, w.(hand := Has(v.deque[0])));
      assert Steal(s, i, j, s');
    }
  }

  lemma CanWork(s: State, i: nat) returns (turn: Turn, s': State)
    requires At(s, i) && !s.workers[i].hand.Looking? && !s.workers[i].hand.Exited?
    ensures Next(s, turn.i, turn.victim, s')
  {
    var w := s.workers[i];
    turn := Turn(i, i);
    match w.hand
    case Has(t) =>
      var h := Head(t);
      if h.Sup? {
        s' := Set(s, i, w.(hand := Forking(h.left, h.right))).(remaining := s.remaining + 1);
        assert Raise(s, i, s');
      } else {
        s' := Set(s, i, w.(result := w.result + [h], hand := Stored));
        assert StoreLeaf(s, i, s');
      }
    case Forking(l, r) =>
      s' := Set(s, i, w.(deque := w.deque + [l], hand := Half(r)));
      assert PushLeft(s, i, s');
    case Half(r) =>
      s' := Set(s, i, w.(deque := w.deque + [r], hand := Looking));
      assert PushRight(s, i, s');
    case Stored =>
      s' := Set(s, i, w.(hand := Looking)).(remaining := s.remaining - 1);
      assert Lower(s, i, s');
  }

  // -------------------------------------------------- agreement with the plain collapse

  lemma {:induction false} LeavesFoundAsTheyAre(ls: seq<Branch>)
    requires forall x :: x in ls ==> x.Value? || x.Erased?
    ensures FoundAll(ls) == ls
  {
    if ls != [] {
      var n := |ls| - 1;
      LeavesFoundAsTheyAre(ls[..n]);
      assert ls == ls[..n] + [ls[n]];
      assert ls[n] in ls;
    }
  }

  /** The parallel collapse hands the leaves of the plain collapse to its workers.
      Whenever all of them (or any one of them) have left, the merged result is a
      rearrangement of the plain collapse, whatever the schedule was. */
  lemma ParallelIsPlain(t: Branch, n: nat, ss: seq<State>, turns: seq<Turn>, i: nat)
    requires IsRun(Leaves(t), n, ss, turns)
    requires i < |ss[|turns|].workers| && ss[|turns|].workers[i].hand.Exited?
    ensures multiset(Merged(ss[|turns|].workers)) == multiset(Leaves(t))
  {
    ExitMeansDone(Leaves(t), n, ss, turns, |turns|, i);
    LeavesFoundAsTheyAre(Leaves(t));
  }
}
