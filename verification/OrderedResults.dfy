/** Which leaves the ordered collapse returns, and how many. */
module OrderedResults {
  import opened BranchTrees
  import opened OrderedCollapse

  /** The values below an entry, left to right, each with the priority it will
      have when it is stored; no queue is involved. */
  function KeyedLeaves(e: Entry): seq<Entry>
    decreases Size(e.task)
  {
    var p := Peel(e);
    var h := Head(p.task);
    if h.Sup? || h.Usp? then
      KeyedLeaves(Entry(Later(p.key), h.left)) + KeyedLeaves(Entry(Later(p.key), h.right))
    else if h.Erased? then [] else [Entry(p.key, h)]
  }

  lemma {:induction false} PeelHead(e: Entry)
    ensures Head(Peel(e).task) == Head(e.task)
    decreases e.task
  {
    if e.task.Inc? { PeelHead(Entry(Sooner(e.key), e.task.inner)); }
  }

  lemma {:induction false} KeyedLeavesAreValues(e: Entry)
    ensures Tasks(KeyedLeaves(e)) == Values(e.task)
    decreases Size(e.task)
  {
    PeelHead(e);
    var (p, h) := (Peel(e), Head(e.task));
    if h.Sup? || h.Usp? {
      var (l, r) := (Entry(Later(p.key), h.left), Entry(Later(p.key), h.right));
      KeyedLeavesAreValues(l);
      KeyedLeavesAreValues(r);
      TasksConcat(KeyedLeaves(l), KeyedLeaves(r));
    }
  }

  // ---------------------------------------------------------- which and how many

  /** The leaves that a queue still stands for. */
  function Pending(q: seq<Entry>): seq<Entry> {
    if q == [] then [] else KeyedLeaves(q[0]) + Pending(q[1..])
  }

  lemma PendingStep(q: seq<Entry>)
    requires q != []
    ensures Pending(q) == KeyedLeaves(q[0]) + Pending(q[1..])
  {
  }

  lemma PendingOne(e: Entry)
    ensures Pending([e]) == KeyedLeaves(e)
  {
    PendingStep([e]);
    assert [e][1..] == [] && Pending([]) == [];
  }

  lemma {:induction false} PendingConcat(a: seq<Entry>, b: seq<Entry>)
    ensures Pending(a + b) == Pending(a) + Pending(b)
  {
    if a == [] {
      assert a + b == b;
    } else {
      PendingConcat(a[1..], b);
      PendingStep(a + b);
      assert (a + b)[1..] == a[1..] + b;
      ConcatAssociates(KeyedLeaves(a[0]), Pending(a[1..]), Pending(b));
    }
  }

  lemma PendingMiddle(a: seq<Entry>, e: Entry, b: seq<Entry>)
    ensures Pending(a + ([e] + b)) == Pending(a) + (KeyedLeaves(e) + Pending(b))
  {
    PendingConcat(a, [e] + b);
    PendingConcat([e], b);
    PendingOne(e);
  }

  lemma PendingWithout(q: seq<Entry>, i: nat)
    requires i < |q|
    ensures Pending(q) == Pending(q[..i]) + (KeyedLeaves(q[i]) + Pending(q[i + 1..]))
    ensures Pending(Without(q, i)) == Pending(q[..i]) + Pending(q[i + 1..])
  {
    Around(q, i);
    PendingMiddle(q[..i], q[i], q[i + 1..]);
    PendingConcat(q[..i], q[i + 1..]);
  }

  lemma PeelKept(e: Entry)
    ensures KeyedLeaves(Peel(e)) == KeyedLeaves(e)
  {
    assert Peel(Peel(e)) == Peel(e);
  }

  /** Processing an entry stores it or puts back what it stands for. */
  lemma PendingAgain(e: Entry)
    ensures KeyedLeaves(e) == Emit(e) + Pending(Again(e))
  {
    var h := Head(e.task);
    if e.task.Inc? {
      PeelKept(e);
      PendingOne(Peel(e));
    } else if h.Sup? || h.Usp? {
      var (l, r) := (Entry(Later(e.key), h.left), Entry(Later(e.key), h.right));
      assert [l, r] == [l] + [r];
      PendingConcat([l], [r]);
      PendingOne(l);
      PendingOne(r);
    }
  }

  lemma Moved<T>(a: seq<T>, out: seq<T>, back: seq<T>, b: seq<T>)
    ensures multiset(a + ((out + back) + b)) == multiset(out) + multiset((a + b) + back)
  {
  }

  /** A turn moves leaves from pending to stored, and loses or invents none. */
  lemma TurnConserves(q: seq<Entry>)
    requires q != []
    ensures multiset(Pending(q)) == multiset(Emit(q[Best(q)])) + multiset(Pending(Rest(q)))
  {
    var i := Best(q);
    PendingWithout(q, i);
    PendingConcat(Without(q, i), Again(q[i]));
    PendingAgain(q[i]);
    Moved(Pending(q[..i]), Emit(q[i]), Pending(Again(q[i])), Pending(q[i + 1..]));
  }

  /** Everything the collapse stores when there is no limit. */
  function All(q: seq<Entry>): seq<Entry>
    decreases Total(q)
  {
    if q == [] then [] else Emit(q[Best(q)]) + All(Rest(q))
  }

  function First<T>(s: seq<T>, n: nat): seq<T> { if n <= |s| then s[..n] else s }

  lemma FirstStep<T>(out: seq<T>, s: seq<T>, n: nat)
    requires |out| <= n
    ensures First(out + s, n) == out + First(s, n - |out|)
  {
  }

  lemma FirstNone<T>(s: seq<T>)
    ensures First(s, 0) == []
  {
  }

  lemma AllUnfolds(q: seq<Entry>)
    requires q != []
    ensures |Emit(q[Best(q)])| <= 1 && Total(Rest(q)) < Total(q)
    ensures All(q) == Emit(q[Best(q)]) + All(Rest(q))
  {
  }

  /** The limit only cuts the results short. */
  lemma {:induction false} LimitCuts(q: seq<Entry>, limit: nat)
    ensures Ordered(q, limit) == First(All(q), limit)
    decreases Total(q)
  {
    if q == [] {
      assert Ordered(q, limit) == All(q) == [];
    } else if limit == 0 {
      FirstNone(All(q));
    } else {
      OrderedUnfolds(q, limit);
      AllUnfolds(q);
      var (out, rest) := (Emit(q[Best(q)]), Rest(q));
      LimitCuts(rest, limit - |out|);
      FirstStep(out, All(rest), limit);
    }
  }

  lemma ConcatCounts<T>(a: seq<T>, b: seq<T>, pa: multiset<T>, pb: multiset<T>)
    requires multiset(b) == pb && multiset(a) == pa
    ensures multiset(a + b) == pa + pb
  {
  }

  /** What is stored is what was pending. */
  lemma {:induction false} AllConserves(q: seq<Entry>)
    ensures multiset(All(q)) == multiset(Pending(q))
    decreases Total(q)
  {
    if q != [] {
      AllUnfolds(q);
      var (out, rest) := (Emit(q[Best(q)]), Rest(q));
      AllConserves(rest);
      TurnConserves(q);
      ConcatCounts(out, All(rest), multiset(out), multiset(Pending(rest)));
    }
  }

  lemma TakeOne<T>(a: seq<T>, b: seq<T>, i: nat)
    requires a != [] && i < |b| && b[i] == a[0] && multiset(a) <= multiset(b)
    ensures multiset(a[1..]) <= multiset(b[..i] + b[i + 1..])
  {
    assert a == [a[0]] + a[1..];
    assert b == b[..i] + ([b[i]] + b[i + 1..]);
    assert multiset(b) == multiset(b[..i] + b[i + 1..]) + multiset{b[i]};
    assert multiset(a) == multiset(a[1..]) + multiset{a[0]};
    forall x ensures multiset(a[1..])[x] <= multiset(b[..i] + b[i + 1..])[x] {
      assert multiset(a)[x] <= multiset(b)[x];
    }
  }

  lemma TasksAround(b: seq<Entry>, i: nat)
    requires i < |b|
    ensures multiset(Tasks(b)) == multiset{b[i].task} + multiset(Tasks(b[..i] + b[i + 1..]))
  {
    var ts := Tasks(b);
    assert Tasks(b[..i] + b[i + 1..]) == ts[..i] + ts[i + 1..];
    assert ts == ts[..i] + ([ts[i]] + ts[i + 1..]);
  }

  lemma {:induction false} TasksMonotone(a: seq<Entry>, b: seq<Entry>)
    requires multiset(a) <= multiset(b)
    ensures multiset(Tasks(a)) <= multiset(Tasks(b))
  {
    if a != [] {
      assert a[0] in multiset(a);
      assert a[0] in b;
      var i :| 0 <= i < |b| && b[i] == a[0];
      TakeOne(a, b, i);
      TasksMonotone(a[1..], b[..i] + b[i + 1..]);
      TasksAround(b, i);
      TasksAround(a, 0);
      assert a[..0] + a[1..] == a[1..];
    }
  }

  lemma FirstIsPart<T>(r: seq<T>, s: seq<T>, limit: nat)
    requires r == First(s, limit)
    ensures multiset(r) <= multiset(s) && |r| == (if limit <= |s| then limit else |s|)
    ensures limit >= |s| ==> multiset(r) == multiset(s)
  {
    if limit <= |s| { assert s == s[..limit] + s[limit..]; }
  }

  lemma SameSize<T>(a: seq<T>, b: seq<T>)
    requires multiset(a) == multiset(b)
    ensures |a| == |b|
  {
    assert |multiset(a)| == |a|;
  }

  /** The ordered collapse returns min(limit, n) of the n values that the plain
      collapse finds, none more often than it occurs there, and all of them when
      the limit allows it; their priorities are those of KeyedLeaves. */
  lemma OrderedReturns(t: Branch, limit: nat)
    ensures var (r, all, n) := (Ordered([Entry(MIDDLE, t)], limit), KeyedLeaves(Entry(MIDDLE, t)),
                                |NonErased(Leaves(t))|);
      multiset(r) <= multiset(all) && |r| == (if limit <= n then limit else n) &&
      (limit >= n ==> multiset(r) == multiset(all)) && Tasks(all) == NonErased(Leaves(t))
  {
    var e := Entry(MIDDLE, t);
    LimitCuts([e], limit);
    AllConserves([e]);
    PendingOne(e);
    SameSize(All([e]), KeyedLeaves(e));
    FirstIsPart(Ordered([e], limit), All([e]), limit);
    KeyedLeavesAreValues(e);
    ValuesOfLeaves(t);
  }

  /** The same for the terms that the method returns, without their priorities. */
  lemma ReturnedTerms(t: Branch, limit: nat)
    ensures multiset(Tasks(Ordered([Entry(MIDDLE, t)], limit))) <= multiset(NonErased(Leaves(t)))
  {
    OrderedReturns(t, limit);
    TasksMonotone(Ordered([Entry(MIDDLE, t)], limit), KeyedLeaves(Entry(MIDDLE, t)));
  }
}
