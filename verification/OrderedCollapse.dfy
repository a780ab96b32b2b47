/** The ordered collapse refines a stable priority queue. */
module OrderedCollapse {
  import opened BranchTrees
  import opened BucketQueues

  const MIDDLE: nat := 32

  /** A task or result with the priority it has; lower keys come first. */
  datatype Entry = Entry(key: nat, task: Branch)

  function Later(key: nat): nat { if key < BUCKETS - 1 then key + 1 else BUCKETS - 1 }

  function Sooner(key: nat): nat { if key > 0 then key - 1 else 0 }

  /** Strip the INC wrappers that are visible before reduction, one priority step each. */
  function Peel(e: Entry): (p: Entry)
    ensures !p.task.Inc? && Size(p.task) <= Size(e.task) && (e.task.Inc? ==> Size(p.task) < Size(e.task))
    ensures e.key < BUCKETS ==> p.key < BUCKETS
    decreases e.task
  {
    if e.task.Inc? then Peel(Entry(Sooner(e.key), e.task.inner)) else e
  }

  // ------------------------------------------------- the stable priority queue

  /** The first entry with the least key, in a list in order of insertion. */
  function Best(q: seq<Entry>): (i: nat)
    requires q != []
    ensures i < |q|
  {
    if |q| == 1 then 0
    else
      var i := Best(q[1..]);
      if q[0].key <= q[1..][i].key then 0 else i + 1
  }

  lemma {:induction false} BestIsFirst(q: seq<Entry>)
    requires q != []
    ensures forall j :: 0 <= j < |q| ==> q[Best(q)].key <= q[j].key
    ensures forall j :: 0 <= j < Best(q) ==> q[Best(q)].key < q[j].key
  {
    if |q| > 1 {
      BestIsFirst(q[1..]);
      forall j | 0 <= j < |q| ensures q[Best(q)].key <= q[j].key {
        if j > 0 { assert q[j] == q[1..][j - 1]; }
      }
      forall j | 0 <= j < Best(q) ensures q[Best(q)].key < q[j].key {
        if j > 0 { assert q[j] == q[1..][j - 1]; }
      }
    }
  }

  function Without(q: seq<Entry>, i: nat): seq<Entry>
    requires i < |q|
  {
    q[..i] + q[i + 1..]
  }

  function Total(q: seq<Entry>): nat {
    if q == [] then 0 else Size(q[0].task) + Total(q[1..])
  }

  lemma {:induction false} TotalConcat(a: seq<Entry>, b: seq<Entry>)
    ensures Total(a + b) == Total(a) + Total(b)
  {
    if a == [] {
      assert a + b == b;
    } else {
      TotalConcat(a[1..], b);
      assert (a + b)[1..] == a[1..] + b;
    }
  }

  lemma TotalOne(e: Entry)
    ensures Total([e]) == Size(e.task)
  {
    assert [e][1..] == [];
  }

  lemma TotalWithout(q: seq<Entry>, i: nat)
    requires i < |q|
    ensures Total(q) == Total(Without(q, i)) + Size(q[i].task)
  {
    Around(q, i);
    TotalConcat(q[..i], q[i + 1..]);
    TotalConcat(q[..i], [q[i]] + q[i + 1..]);
    TotalConcat([q[i]], q[i + 1..]);
    TotalOne(q[i]);
  }

  /** What processing an entry puts back into the queue. */
  function Again(e: Entry): (es: seq<Entry>)
    ensures Total(es) < Size(e.task)
  {
    if e.task.Inc? then
      var p := Peel(e);
      assert Total([p]) == Size(p.task);
      [p]
    else
      var h := Head(e.task);
      if h.Sup? || h.Usp? then
        var (l, r) := (Entry(Later(e.key), h.left), Entry(Later(e.key), h.right));
        assert Total([l, r]) == Size(h.left) + Total([r]);
        [l, r]
      else []
  }

  /** What processing an entry stores as a result. */
  function Emit(e: Entry): seq<Entry> {
    if !e.task.Inc? && Head(e.task).Value? then [Entry(e.key, Head(e.task))] else []
  }

  function Rest(q: seq<Entry>): (r: seq<Entry>)
    requires q != []
    ensures Total(r) < Total(q)
  {
    var i := Best(q);
    TotalWithout(q, i);
    TotalConcat(Without(q, i), Again(q[i]));
    Without(q, i) + Again(q[i])
  }

  /** The collapse through a stable priority queue, stopping at `limit` results. */
  function Ordered(q: seq<Entry>, limit: nat): seq<Entry>
    decreases Total(q)
  {
    if q == [] || limit == 0 then []
    else
      var out := Emit(q[Best(q)]);
      out + Ordered(Rest(q), limit - |out|)
  }

  // ------------------------------------------------------ the buckets refine it

  function Tasks(es: seq<Entry>): (ts: seq<Branch>)
    ensures |ts| == |es|
  {
    seq(|es|, i requires 0 <= i < |es| => es[i].task)
  }

  lemma TasksConcat(a: seq<Entry>, b: seq<Entry>)
    ensures Tasks(a + b) == Tasks(a) + Tasks(b)
  {
  }

  /** The entries with key k, oldest first. */
  function AtKey(q: seq<Entry>, k: nat): seq<Entry> {
    if q == [] then [] else (if q[0].key == k then [q[0]] else []) + AtKey(q[1..], k)
  }

  lemma {:induction false} AtKeyConcat(a: seq<Entry>, b: seq<Entry>, k: nat)
    ensures AtKey(a + b, k) == AtKey(a, k) + AtKey(b, k)
  {
    if a == [] {
      assert a + b == b;
    } else {
      var front := if a[0].key == k then [a[0]] else [];
      AtKeyConcat(a[1..], b, k);
      AtKeyStep(a + b, k);
      assert (a + b)[1..] == a[1..] + b;
      ConcatAssociates(front, AtKey(a[1..], k), AtKey(b, k));
    }
  }

  lemma AtKeyStep(q: seq<Entry>, k: nat)
    requires q != []
    ensures AtKey(q, k) == (if q[0].key == k then [q[0]] else []) + AtKey(q[1..], k)
  {
  }

  lemma {:induction false} AtKeyNone(q: seq<Entry>, k: nat)
    requires forall j :: 0 <= j < |q| ==> q[j].key != k
    ensures AtKey(q, k) == []
  {
    if q != [] { AtKeyNone(q[1..], k); }
  }

  lemma AtKeyWithout(q: seq<Entry>, i: nat, k: nat)
    requires i < |q| && forall j :: 0 <= j < i ==> q[j].key != q[i].key
    ensures k == q[i].key ==> AtKey(q, k) == [q[i]] + AtKey(Without(q, i), k)
    ensures k != q[i].key ==> AtKey(q, k) == AtKey(Without(q, i), k)
  {
    AtKeyConcat(q[..i], q[i + 1..], k);
    AtKeyConcat(q[..i], [q[i]] + q[i + 1..], k);
    AtKeyConcat([q[i]], q[i + 1..], k);
    assert q == q[..i] + ([q[i]] + q[i + 1..]);
    if k == q[i].key { AtKeyNone(q[..i], k); }
  }

  ghost predicate Keyed(q: seq<Entry>) { forall j :: 0 <= j < |q| ==> q[j].key < BUCKETS }

  /** The buckets hold the queue. */
  ghost predicate Holds(buckets: seq<seq<Branch>>, q: seq<Entry>) {
    |buckets| == BUCKETS && Keyed(q) && forall k :: 0 <= k < BUCKETS ==> buckets[k] == Tasks(AtKey(q, k))
  }

  /** The front of the lowest non-empty bucket is the best entry of the queue. */
  lemma LowestIsBest(buckets: seq<seq<Branch>>, q: seq<Entry>, k: nat)
    requires Holds(buckets, q) && k < BUCKETS && buckets[k] != [] && forall j :: 0 <= j < k ==> buckets[j] == []
    ensures q != [] && q[Best(q)] == Entry(k, buckets[k][0])
    ensures Holds(buckets[k := buckets[k][1..]], Without(q, Best(q)))
  {
    assert AtKey([], k) == [];
    var i := Best(q);
    BestIsFirst(q);
    AtKeyWithout(q, i, q[i].key);
    if q[i].key > k {
      AtKeyNone(q, k);
    }
    forall j | 0 <= j < BUCKETS ensures buckets[k := buckets[k][1..]][j] == Tasks(AtKey(Without(q, i), j)) {
      AtKeyWithout(q, i, j);
    }
  }

  lemma NoneLeft(buckets: seq<seq<Branch>>, q: seq<Entry>)
    requires Holds(buckets, q) && forall j :: 0 <= j < BUCKETS ==> buckets[j] == []
    ensures q == []
  {
    if q != [] {
      BestIsFirst(q);
      AtKeyWithout(q, Best(q), q[Best(q)].key);
    }
  }

  function Put(buckets: seq<seq<Branch>>, e: Entry): (bs: seq<seq<Branch>>)
    requires |buckets| == BUCKETS && e.key < BUCKETS
    ensures |bs| == BUCKETS
  {
    buckets[e.key := buckets[e.key] + [e.task]]
  }

  lemma PutHolds(buckets: seq<seq<Branch>>, q: seq<Entry>, e: Entry)
    requires Holds(buckets, q) && e.key < BUCKETS
    ensures Holds(Put(buckets, e), q + [e])
  {
    forall k | 0 <= k < BUCKETS ensures Put(buckets, e)[k] == Tasks(AtKey(q + [e], k)) {
      AtKeyConcat(q, [e], k);
    }
  }

  /** The buckets after the front task of bucket `best` has been processed. */
  function Turned(buckets: seq<seq<Branch>>, best: nat): seq<seq<Branch>>
    requires |buckets| == BUCKETS && best < BUCKETS && buckets[best] != []
  {
    var e := Entry(best, buckets[best][0]);
    var left := buckets[best := buckets[best][1..]];
    if e.task.Inc? then Put(left, Peel(e))
    else
      var h := Head(e.task);
      if h.Sup? || h.Usp? then Put(Put(left, Entry(Later(best), h.left)), Entry(Later(best), h.right)) else left
  }

  lemma TurnedHolds(buckets: seq<seq<Branch>>, q: seq<Entry>, best: nat)
    requires Holds(buckets, q) && best < BUCKETS && buckets[best] != [] &&
      forall j :: 0 <= j < best ==> buckets[j] == []
    ensures q != [] && q[Best(q)] == Entry(best, buckets[best][0]) && Holds(Turned(buckets, best), Rest(q))
  {
    LowestIsBest(buckets, q, best);
    var e := Entry(best, buckets[best][0]);
    var left := buckets[best := buckets[best][1..]];
    var rest := Without(q, Best(q));
    if e.task.Inc? {
      PutHolds(left, rest, Peel(e));
    } else {
      var h := Head(e.task);
      if h.Sup? || h.Usp? {
        var (l, r) := (Entry(Later(best), h.left), Entry(Later(best), h.right));
        PutHolds(left, rest, l);
        PutHolds(Put(left, l), rest + [l], r);
        assert rest + [l] + [r] == rest + [l, r];
      } else {
        assert rest + [] == rest;
      }
    }
  }

  method PeelTask(best: nat, task: Branch) returns (key: nat, inner: Branch)
    ensures Entry(key, inner) == Peel(Entry(best, task))
  {
    key, inner := best, task;
    while inner.Inc?
      invariant Peel(Entry(key, inner)) == Peel(Entry(best, task))
      decreases inner
    {
      key := if key > 0 then key - 1 else 0;
      inner := inner.inner;
    }
  }

  /** One turn of the loop: take a task from the lowest bucket and process it. */
  method Turn(buckets: BucketQueue, best: nat) returns (found: seq<Branch>)
    requires buckets.Valid() && best < BUCKETS && buckets.contents[best] != []
    modifies buckets.repr
    ensures buckets.Valid() && fresh(buckets.repr - old(buckets.repr))
    ensures buckets.contents == Turned(old(buckets.contents), best)
    ensures found == Tasks(Emit(Entry(best, old(buckets.contents)[best][0])))
  {
    var task := buckets.PopAt(best);
    found := [];
    if task.Inc? {
      var key, inner := PeelTask(best, task);
      buckets.PushAt(key, inner);
    } else {
      var reduced := Head(task);
      if reduced.Sup? || reduced.Usp? {
        var key := if best < BUCKETS - 1 then best + 1 else BUCKETS - 1;
        buckets.PushAt(key, reduced.left);
        buckets.PushAt(key, reduced.right);
      } else if !reduced.Erased? {
        found := [reduced];
      }
    }
  }

  lemma EmitsOne(e: Entry)
    ensures |Emit(e)| <= 1
  {
  }

  lemma OrderedUnfolds(q: seq<Entry>, limit: nat)
    requires q != [] && limit > 0
    ensures |Emit(q[Best(q)])| <= 1
    ensures Ordered(q, limit) == Emit(q[Best(q)]) + Ordered(Rest(q), limit - |Emit(q[Best(q)])|)
  {
    EmitsOne(q[Best(q)]);
  }

  /** What is stored already and what is still to come. */
  ghost function Future(q: seq<Entry>, cr: seq<Branch>, limit: nat): seq<Branch>
    requires |cr| <= limit
  {
    cr + Tasks(Ordered(q, limit - |cr|))
  }

  lemma FutureSplits(cr: seq<Branch>, whole: seq<Entry>, out: seq<Entry>, later: seq<Entry>)
    requires whole == out + later
    ensures (cr + Tasks(out)) + Tasks(later) == cr + Tasks(whole)
  {
    TasksConcat(out, later);
    ConcatAssociates(cr, Tasks(out), Tasks(later));
  }

  /** Results moved to what is stored do not change what is stored in the end. */
  lemma FutureKept(q: seq<Entry>, cr: seq<Branch>, limit: nat, out: seq<Entry>, rest: seq<Entry>)
    requires |cr| + |out| <= limit && Ordered(q, limit - |cr|) == out + Ordered(rest, limit - |cr| - |out|)
    ensures Future(rest, cr + Tasks(out), limit) == Future(q, cr, limit)
  {
    FutureSplits(cr, Ordered(q, limit - |cr|), out, Ordered(rest, limit - |cr| - |out|));
  }

  lemma FutureDone(q: seq<Entry>, cr: seq<Branch>, limit: nat)
    requires |cr| <= limit && (|cr| == limit || q == [])
    ensures Future(q, cr, limit) == cr
  {
  }

  lemma SeedHolds(t: Branch, empty: seq<seq<Branch>>)
    requires |empty| == BUCKETS && forall i :: 0 <= i < BUCKETS ==> empty[i] == []
    ensures Holds(empty[MIDDLE := empty[MIDDLE] + [t]], [Entry(MIDDLE, t)])
  {
    PutHolds(empty, [], Entry(MIDDLE, t));
    assert [] + [Entry(MIDDLE, t)] == [Entry(MIDDLE, t)];
  }

  /** A turn on the lowest bucket changes neither what the buckets stand for nor what
      is stored in the end. */
  lemma TurnKeeps(contents: seq<seq<Branch>>, q: seq<Entry>, best: nat, cr: seq<Branch>, limit: nat)
      returns (rest: seq<Entry>)
    requires Holds(contents, q) && |cr| < limit && best < BUCKETS
    requires contents[best] != [] && forall i :: 0 <= i < best ==> contents[i] == []
    ensures Holds(Turned(contents, best), rest) && Total(rest) < Total(q)
    ensures var cr' := cr + Tasks(Emit(Entry(best, contents[best][0])));
      |cr'| <= limit && Future(rest, cr', limit) == Future(q, cr, limit)
  {
    TurnedHolds(contents, q, best);
    rest := Rest(q);
    OrderedUnfolds(q, limit - |cr|);
    FutureKept(q, cr, limit, Emit(q[Best(q)]), rest);
  }

  /** Take a task from the lowest bucket, unless all are empty. */
  method NextTurn(buckets: BucketQueue, cr: seq<Branch>, limit: nat, ghost q: seq<Entry>)
    returns (more: bool, cr': seq<Branch>, ghost rest: seq<Entry>)
    requires buckets.Valid() && Holds(buckets.contents, q) && |cr| < limit
    modifies buckets.repr
    ensures buckets.Valid() && fresh(buckets.repr - old(buckets.repr)) && Holds(buckets.contents, rest)
    ensures |cr'| <= limit && Future(rest, cr', limit) == Future(q, cr, limit)
    ensures if more then Total(rest) < Total(q) else rest == []
  {
    var best := buckets.Lowest();
    if best < 0 {
      NoneLeft(buckets.contents, q);
      return false, cr, q;
    }
    rest := TurnKeeps(buckets.contents, q, best, cr, limit);
    var found := Turn(buckets, best);
    more, cr' := true, cr + found;
  }

  /** Empty buckets, with the term at middle priority. */
  method Seeded(t: Branch) returns (buckets: BucketQueue)
    ensures buckets.Valid() && fresh(buckets.repr) && Holds(buckets.contents, [Entry(MIDDLE, t)])
  {
    buckets := new BucketQueue();
    SeedHolds(t, buckets.contents);
    buckets.PushAt(MIDDLE, t);
  }

  /** The collapse with 64 buckets returns what the stable priority queue returns. */
  method CollapseOrdered(t: Branch, limit: nat) returns (cr: seq<Branch>)
    ensures cr == Tasks(Ordered([Entry(MIDDLE, t)], limit))
  {
    var buckets := Seeded(t);
    ghost var q := [Entry(MIDDLE, t)];
    cr := [];
    ghost var all := Future(q, cr, limit);
    var more := true;
    while |cr| < limit && more
      invariant buckets.Valid() && fresh(buckets.repr) && Holds(buckets.contents, q)
      invariant |cr| <= limit && Future(q, cr, limit) == all && (!more ==> q == [])
      decreases Total(q), more
    {
      more, cr, q := NextTurn(buckets, cr, limit, q);
    }
    FutureDone(q, cr, limit);
  }
}
