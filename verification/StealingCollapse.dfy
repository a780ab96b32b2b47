/** The work-stealing collapse as atomic steps of its workers: conservation of
    leaves, the meaning of the shared counter, and what every step keeps. A deque
    operation and a counter update are one step each. */
module StealingCollapse {
  import opened BranchTrees

  /** What a worker stores for a task: only SUP is split here, USP is a leaf. */
  function Found(t: Branch): (ls: seq<Branch>)
    ensures |ls| > 0
    decreases Size(t)
  {
    var h := Head(t);
    if h.Sup? then Found(h.left) + Found(h.right) else [h]
  }

  /** Superpositions of the ordered kind only. */
  predicate Ordered(t: Branch) {
    match t
    case Sup(l, r) => Ordered(l) && Ordered(r)
    case Usp(_, _) => false
    case Inc(x) => Ordered(x)
    case Lazy(x) => Ordered(x)
    case _ => true
  }

  lemma {:induction false} OrderedHead(t: Branch)
    requires Ordered(t)
    ensures Ordered(Head(t))
  {
    if t.Inc? || t.Lazy? { OrderedHead(t.inner); }
  }

  /** Without USP the workers find the leaves of the plain collapse below a task, erased ones
      included; a USP is itself a leaf for them. */
  lemma {:induction false} FoundIsPlain(t: Branch)
    ensures Ordered(t) ==> Found(t) == Leaves(t)
    ensures Head(t).Usp? ==> Found(t) == [Head(t)]
    decreases Size(t)
  {
    var h := Head(t);
    if h.Sup? {
      FoundIsPlain(h.left);
      FoundIsPlain(h.right);
    }
    if Ordered(t) { OrderedHead(t); }
  }

  function FoundAll(ts: seq<Branch>): (ls: seq<Branch>)
    ensures |ls| >= |ts|
  {
    if ts == [] then [] else FoundAll(ts[..|ts| - 1]) + Found(ts[|ts| - 1])
  }

  /** Where a worker is in its loop. */
  datatype Hand =
    | Looking                              // between tasks
    | Has(task: Branch)                    // popped or stolen, not yet processed
    | Forking(left: Branch, right: Branch) // the counter has been raised, nothing pushed
    | Half(right: Branch)                  // the left child has been pushed
    | Stored                               // the leaf is stored, the counter not yet lowered
    | Exited

  datatype Worker = Worker(deque: seq<Branch>, hand: Hand, result: seq<Branch>)

  datatype State = State(workers: seq<Worker>, remaining: int)

  // ------------------------------------------------------------------- steps

  function Set(s: State, i: nat, w: Worker): State
    requires i < |s.workers|
  {
    s.(workers := s.workers[i := w])
  }

  predicate At(s: State, i: nat) { i < |s.workers| }

  /** Take the newest task of one's own deque. */
  ghost predicate Pop(s: State, i: nat, s': State) {
    At(s, i) && s.workers[i].hand.Looking? && s.workers[i].deque != [] &&
    (var (w, n) := (s.workers[i], |s.workers[i].deque| - 1);
     s' == Set(s, i, w.(deque := w.deque[..n], hand := Has(w.deque[n]))))
  }

  /** Take the oldest task of another worker's deque. */
  ghost predicate Steal(s: State, i: nat, victim: nat, s': State) {
    At(s, i) && At(s, victim) && victim != i && s.workers[i].hand.Looking? && s.workers[victim].deque != [] &&
    (var (w, v) := (s.workers[i], s.workers[victim]);
     s' == Set(Set(s, victim, v.(deque := v.deque[1..])), i, w.(hand := Has(v.deque[0]))))
  }

  /** Reduce to a SUP: two tasks for one, so raise the counter first. */
  ghost predicate Raise(s: State, i: nat, s': State) {
    At(s, i) && s.workers[i].hand.Has? && Head(s.workers[i].hand.task).Sup? &&
    (var h := Head(s.workers[i].hand.task);
     s' == Set(s, i, s.workers[i].(hand := Forking(h.left, h.right))).(remaining := s.remaining + 1))
  }

  ghost predicate PushLeft(s: State, i: nat, s': State) {
    At(s, i) && s.workers[i].hand.Forking? &&
    (var w := s.workers[i];
     s' == Set(s, i, w.(deque := w.deque + [w.hand.left], hand := Half(w.hand.right))))
  }

  ghost predicate PushRight(s: State, i: nat, s': State) {
    At(s, i) && s.workers[i].hand.Half? &&
    (var w := s.workers[i];
     s' == Set(s, i, w.(deque := w.deque + [w.hand.right], hand := Looking)))
  }

  ghost predicate StoreLeaf(s: State, i: nat, s': State) {
    At(s, i) && s.workers[i].hand.Has? && !Head(s.workers[i].hand.task).Sup? &&
    (var w := s.workers[i];
     s' == Set(s, i, w.(result := w.result + [Head(w.hand.task)], hand := Stored)))
  }

  ghost predicate Lower(s: State, i: nat, s': State) {
    At(s, i) && s.workers[i].hand.Stored? &&
    s' == Set(s, i, s.workers[i].(hand := Looking)).(remaining := s.remaining - 1)
  }

  /** Nothing found, and the counter says that nothing is left. */
  ghost predicate Exit(s: State, i: nat, s': State) {
    At(s, i) && s.workers[i].hand.Looking? && s.remaining <= 0 &&
    s' == Set(s, i, s.workers[i].(hand := Exited))
  }

  ghost predicate Next(s: State, i: nat, victim: nat, s': State) {
    Pop(s, i, s') || Steal(s, i, victim, s') || Raise(s, i, s') || PushLeft(s, i, s') || PushRight(s, i, s') ||
    StoreLeaf(s, i, s') || Lower(s, i, s') || Exit(s, i, s')
  }

  // --------------------------------------------------------------- accounting

  function InHand(h: Hand): seq<Branch> {
    match h
    case Has(t) => Found(t)
    case Forking(l, r) => Found(l) + Found(r)
    case Half(r) => Found(r)
    case _ => []
  }

  /** Units of the counter that a worker answers for. */
  function Owes(w: Worker): nat {
    |w.deque| +
    match w.hand
    case Has(_) => 1
    case Forking(_, _) => 2
    case Half(_) => 1
    case Stored => 1
    case _ => 0
  }

  /** The leaves a worker has stored or will store or pass on. */
  function Keeps(w: Worker): seq<Branch> { w.result + (FoundAll(w.deque) + InHand(w.hand)) }

  function Owed(ws: seq<Worker>): nat {
    if ws == [] then 0 else Owed(ws[..|ws| - 1]) + Owes(ws[|ws| - 1])
  }

  function Kept(ws: seq<Worker>): seq<Branch> {
    if ws == [] then [] else Kept(ws[..|ws| - 1]) + Keeps(ws[|ws| - 1])
  }

  /** The per-worker results, merged in worker order. */
  function Merged(ws: seq<Worker>): seq<Branch> {
    if ws == [] then [] else Merged(ws[..|ws| - 1]) + ws[|ws| - 1].result
  }

  lemma {:induction false} OwedUpdate(ws: seq<Worker>, i: nat, w: Worker)
    requires i < |ws|
    ensures Owed(ws[i := w]) == Owed(ws) - Owes(ws[i]) + Owes(w)
  {
    var n := |ws| - 1;
    if i < n {
      OwedUpdate(ws[..n], i, w);
      assert ws[i := w][..n] == ws[..n][i := w];
    } else {
      assert ws[i := w][..n] == ws[..n];
    }
  }

  // Cancellation for multisets.

  lemma Cancel<T>(a: multiset<T>, b: multiset<T>, x: multiset<T>)
    requires a + x == b + x
    ensures a == b
  {
    forall e ensures a[e] == b[e] { assert (a + x)[e] == (b + x)[e]; }
  }

  lemma CancelThree<T>(k0: multiset<T>, k1: multiset<T>, k2: multiset<T>, v: multiset<T>, v': multiset<T>,
                       w: multiset<T>, w': multiset<T>)
    requires k1 + v == k0 + v' && k2 + w == k1 + w' && w' + v' == w + v
    ensures k2 == k0
  {
    forall e ensures k2[e] == k0[e] {
      assert (k1 + v)[e] == (k0 + v')[e] && (k2 + w)[e] == (k1 + w')[e] && (w' + v')[e] == (w + v)[e];
    }
  }

  lemma AddBoth<T>(f: multiset<T>, f': multiset<T>, b: multiset<T>, x: multiset<T>, y: multiset<T>)
    requires f' + x == f + y
    ensures (f' + b) + x == (f + b) + y
  {
    forall e ensures ((f' + b) + x)[e] == ((f + b) + y)[e] { assert (f' + x)[e] == (f + y)[e]; }
  }

  lemma MixSwap<T>(front: seq<T>, front': seq<T>, back: seq<T>, x: seq<T>, y: seq<T>)
    requires multiset(front') + multiset(x) == multiset(front) + multiset(y)
    ensures multiset(front' + back) + multiset(x) == multiset(front + back) + multiset(y)
  {
    AddBoth(multiset(front), multiset(front'), multiset(back), multiset(x), multiset(y));
  }

  lemma MixLast<T>(front: seq<T>, x: seq<T>, y: seq<T>)
    ensures multiset(front + y) + multiset(x) == multiset(front + x) + multiset(y)
  {
  }

  lemma {:induction false} KeptUpdate(ws: seq<Worker>, i: nat, w: Worker)
    requires i < |ws|
    ensures multiset(Kept(ws[i := w])) + multiset(Keeps(ws[i])) == multiset(Kept(ws)) + multiset(Keeps(w))
  {
    var n := |ws| - 1;
    if i < n {
      KeptUpdate(ws[..n], i, w);
      assert ws[i := w][..n] == ws[..n][i := w];
      MixSwap(Kept(ws[..n]), Kept(ws[..n][i := w]), Keeps(ws[n]), Keeps(ws[i]), Keeps(w));
    } else {
      assert ws[i := w][..n] == ws[..n];
      MixLast(Kept(ws[..n]), Keeps(ws[n]), Keeps(w));
    }
  }

  lemma {:induction false} FoundAllFront(ts: seq<Branch>)
    requires ts != []
    ensures FoundAll(ts) == Found(ts[0]) + FoundAll(ts[1..])
  {
    var n := |ts| - 1;
    if n > 0 {
      FoundAllFront(ts[..n]);
      assert ts[..n][1..] == ts[1..][..n - 1];
      ConcatAssociates(Found(ts[0]), FoundAll(ts[1..][..n - 1]), Found(ts[n]));
    } else {
      assert ts[..0] == [] && ts[1..] == [];
    }
  }

  lemma FoundAllPush(ts: seq<Branch>, t: Branch)
    ensures FoundAll(ts + [t]) == FoundAll(ts) + Found(t)
  {
    assert (ts + [t])[..|ts|] == ts;
  }

  // ---------------------------------------------------------------- invariant

  /** A worker that has just stored a leaf has one, and a worker that has left did
      so when nothing was left, which stays so. */
  ghost predicate WorkerOk(w: Worker, remaining: int) {
    (w.hand.Stored? ==> w.result != []) && (w.hand.Exited? ==> remaining == 0)
  }

  ghost predicate WorkersOk(s: State) {
    forall i {:trigger s.workers[i]} :: 0 <= i < |s.workers| ==> WorkerOk(s.workers[i], s.remaining)
  }

  /** The counter is what all workers together answer for, no leaf is lost or
      invented, and once a worker has left there is nothing more to do. */
  ghost predicate Inv(s: State, total: multiset<Branch>) {
    s.remaining == Owed(s.workers) && multiset(Kept(s.workers)) == total && WorkersOk(s)
  }

  lemma KeptSame(ws: seq<Worker>, i: nat, w: Worker)
    requires i < |ws| && multiset(Keeps(w)) == multiset(Keeps(ws[i]))
    ensures multiset(Kept(ws[i := w])) == multiset(Kept(ws))
  {
    KeptUpdate(ws, i, w);
    Cancel(multiset(Kept(ws[i := w])), multiset(Kept(ws)), multiset(Keeps(w)));
  }

  /** The counter may only move while something is owed. */
  lemma OkOne(s: State, i: nat, w: Worker, s': State)
    requires WorkersOk(s) && At(s, i) && s'.workers == s.workers[i := w] && WorkerOk(w, s'.remaining)
    requires s.remaining != 0 || s'.remaining == s.remaining
    ensures WorkersOk(s')
  {
  }

  /** A step of worker i alone: its leaves stay the same and the counter moves by
      what it answers for. */
  lemma OneWorker(s: State, total: multiset<Branch>, i: nat, w: Worker, s': State)
    requires Inv(s, total) && At(s, i) && multiset(Keeps(w)) == multiset(Keeps(s.workers[i]))
    requires s'.workers == s.workers[i := w] && s'.remaining - s.remaining == Owes(w) - Owes(s.workers[i])
    requires WorkerOk(w, s'.remaining) && (Owes(s.workers[i]) > 0 || s'.remaining == s.remaining)
    ensures Inv(s', total)
  {
    OwedUpdate(s.workers, i, w);
    KeptSame(s.workers, i, w);
    OwesNothing(s.workers, i);
    OkOne(s, i, w, s');
  }

  /** When nothing is owed in all, nobody owes anything. */
  lemma {:induction false} OwesNothing(ws: seq<Worker>, i: nat)
    requires i < |ws|
    ensures Owes(ws[i]) <= Owed(ws)
  {
    var n := |ws| - 1;
    if i < n { OwesNothing(ws[..n], i); }
  }

  lemma PopSame(result: seq<Branch>, deque: seq<Branch>, n: nat)
    requires |deque| == n + 1
    ensures result + (FoundAll(deque[..n]) + Found(deque[n])) == result + (FoundAll(deque) + [])
  {
    assert FoundAll(deque) == FoundAll(deque[..n]) + Found(deque[n]);
  }

  lemma PopKeeps(s: State, total: multiset<Branch>, i: nat, s': State)
    requires Inv(s, total) && Pop(s, i, s')
    ensures Inv(s', total)
  {
    var (w, n) := (s.workers[i], |s.workers[i].deque| - 1);
    PopSame(w.result, w.deque, n);
    OneWorker(s, total, i, w.(deque := w.deque[..n], hand := Has(w.deque[n])), s');
  }

  lemma RaiseKeeps(s: State, total: multiset<Branch>, i: nat, s': State)
    requires Inv(s, total) && Raise(s, i, s')
    ensures Inv(s', total)
  {
    OneWorker(s, total, i, s'.workers[i], s');
  }

  /** Pushing a child moves its leaves from the hand to the deque. */
  lemma PushSame(result: seq<Branch>, deque: seq<Branch>, t: Branch, rest: seq<Branch>)
    ensures result + (FoundAll(deque + [t]) + rest) == result + (FoundAll(deque) + (Found(t) + rest))
  {
    FoundAllPush(deque, t);
    ConcatAssociates(FoundAll(deque), Found(t), rest);
  }

  lemma PushLeftKeeps(s: State, total: multiset<Branch>, i: nat, s': State)
    requires Inv(s, total) && PushLeft(s, i, s')
    ensures Inv(s', total)
  {
    var w := s.workers[i];
    PushSame(w.result, w.deque, w.hand.left, Found(w.hand.right));
    OneWorker(s, total, i, s'.workers[i], s');
  }

  lemma PushRightKeeps(s: State, total: multiset<Branch>, i: nat, s': State)
    requires Inv(s, total) && PushRight(s, i, s')
    ensures Inv(s', total)
  {
    var w := s.workers[i];
    PushSame(w.result, w.deque, w.hand.right, []);
    assert Found(w.hand.right) + [] == Found(w.hand.right);
    OneWorker(s, total, i, s'.workers[i], s');
  }

  lemma StoreKeeps(s: State, total: multiset<Branch>, i: nat, s': State)
    requires Inv(s, total) && StoreLeaf(s, i, s')
    ensures Inv(s', total)
  {
    var (w, h) := (s.workers[i], Head(s.workers[i].hand.task));
    assert Found(w.hand.task) == [h];
    OneWorker(s, total, i, s'.workers[i], s');
  }

  lemma LowerKeeps(s: State, total: multiset<Branch>, i: nat, s': State)
    requires Inv(s, total) && (Lower(s, i, s') || Exit(s, i, s'))
    ensures Inv(s', total)
  {
    OneWorker(s, total, i, s'.workers[i], s');
  }

  lemma StealSame(ws: seq<Worker>, i: nat, w': Worker, victim: nat, v': Worker)
    requires i < |ws| && victim < |ws| && i != victim
    requires multiset(Keeps(w')) + multiset(Keeps(v')) == multiset(Keeps(ws[i])) + multiset(Keeps(ws[victim]))
    ensures multiset(Kept(ws[victim := v'][i := w'])) == multiset(Kept(ws))
  {
    var mid := ws[victim := v'];
    KeptUpdate(ws, victim, v');
    KeptUpdate(mid, i, w');
    CancelThree(multiset(Kept(ws)), multiset(Kept(mid)), multiset(Kept(mid[i := w'])),
                multiset(Keeps(ws[victim])), multiset(Keeps(v')), multiset(Keeps(ws[i])), multiset(Keeps(w')));
  }

  lemma StealOwed(ws: seq<Worker>, i: nat, w': Worker, victim: nat, v': Worker)
    requires i < |ws| && victim < |ws| && i != victim && Owes(w') + Owes(v') == Owes(ws[i]) + Owes(ws[victim])
    ensures Owed(ws[victim := v'][i := w']) == Owed(ws)
  {
    OwedUpdate(ws, victim, v');
    OwedUpdate(ws[victim := v'], i, w');
  }

  /** A theft moves a task's leaves from the victim to the thief. */
  lemma StealKeeps(s: State, total: multiset<Branch>, i: nat, victim: nat, s': State)
    requires Inv(s, total) && Steal(s, i, victim, s')
    ensures Inv(s', total)
  {
    var (w, v) := (s.workers[i], s.workers[victim]);
    var (w', v') := (w.(hand := Has(v.deque[0])), v.(deque := v.deque[1..]));
    StealOwed(s.workers, i, w', victim, v');
    StolenLeaves(w, w', v, v');
    StealSame(s.workers, i, w', victim, v');
    var mid := Set(s, victim, v');
    OkOne(s, victim, v', mid);
    OkOne(mid, i, w', s');
  }

  lemma StolenLeaves(w: Worker, w': Worker, v: Worker, v': Worker)
    requires w.hand.Looking? && v.deque != [] && w' == w.(hand := Has(v.deque[0])) && v' == v.(deque := v.deque[1..])
    ensures multiset(Keeps(w')) + multiset(Keeps(v')) == multiset(Keeps(w)) + multiset(Keeps(v))
  {
    FoundAllFront(v.deque);
    var t := Found(v.deque[0]);
    assert Keeps(w') == Keeps(w) + t;
    StolenFront(v.result, t, FoundAll(v'.deque), InHand(v.hand));
  }

  lemma StolenFront<T>(a: seq<T>, t: seq<T>, b: seq<T>, c: seq<T>)
    ensures multiset(a + ((t + b) + c)) == multiset(t) + multiset(a + (b + c))
  {
  }

  lemma NextKeeps(s: State, total: multiset<Branch>, i: nat, victim: nat, s': State)
    requires Inv(s, total) && Next(s, i, victim, s')
    ensures Inv(s', total)
  {
    if Pop(s, i, s') { PopKeeps(s, total, i, s'); }
    else if Steal(s, i, victim, s') { StealKeeps(s, total, i, victim, s'); }
    else if Raise(s, i, s') { RaiseKeeps(s, total, i, s'); }
    else if PushLeft(s, i, s') { PushLeftKeeps(s, total, i, s'); }
    else if PushRight(s, i, s') { PushRightKeeps(s, total, i, s'); }
    else if StoreLeaf(s, i, s') { StoreKeeps(s, total, i, s'); }
    else { LowerKeeps(s, total, i, s'); }
  }
}
