/** Without INC the ordered collapse is a breadth-first traversal. */
module OrderedLevels {
  import opened BranchTrees
  import opened BucketQueues
  import opened OrderedCollapse
  import opened OrderedResults

  /** No task made from t is an INC wrapper. */
  predicate NoInc(t: Branch)
    decreases Size(t)
  {
    var h := Head(t);
    !t.Inc? && (h.Sup? || h.Usp? ==> NoInc(h.left) && NoInc(h.right))
  }

  ghost predicate NoIncs(ts: seq<Branch>) { forall t :: t in ts ==> NoInc(t) }

  function Sizes(ts: seq<Branch>): nat { if ts == [] then 0 else Size(ts[0]) + Sizes(ts[1..]) }

  lemma {:induction false} SizesConcat(a: seq<Branch>, b: seq<Branch>)
    ensures Sizes(a + b) == Sizes(a) + Sizes(b)
  {
    if a == [] {
      assert a + b == b;
    } else {
      SizesConcat(a[1..], b);
      assert (a + b)[1..] == a[1..] + b;
    }
  }

  // --------------------------------------------------------- one level at a time

  /** The branches of a superposition. */
  function Branches(t: Branch): (ts: seq<Branch>)
    ensures Sizes(ts) < Size(t)
  {
    var h := Head(t);
    if h.Sup? || h.Usp? then
      assert Sizes([h.left, h.right]) == Size(h.left) + Sizes([h.right]) &&
        Sizes([h.right]) == Size(h.right) + Sizes([]);
      [h.left, h.right]
    else []
  }

  /** The value of a term that is one, with its depth. */
  function Found(t: Branch, d: nat): seq<Entry> {
    if Head(t).Value? then [Entry(d, Head(t))] else []
  }

  /** The next level, left to right. */
  function NextLevel(ts: seq<Branch>): (us: seq<Branch>)
    ensures Sizes(us) <= Sizes(ts) && (ts != [] ==> Sizes(us) < Sizes(ts))
  {
    if ts == [] then []
    else
      SizesConcat(Branches(ts[0]), NextLevel(ts[1..]));
      Branches(ts[0]) + NextLevel(ts[1..])
  }

  /** The values of one level, left to right. */
  function ThisLevel(ts: seq<Branch>, d: nat): seq<Entry> {
    if ts == [] then [] else Found(ts[0], d) + ThisLevel(ts[1..], d)
  }

  /** Breadth-first order: the values of a level, then those of the next levels. */
  function Levels(ts: seq<Branch>, d: nat): seq<Entry>
    decreases Sizes(ts)
  {
    if ts == [] then [] else ThisLevel(ts, d) + Levels(NextLevel(ts), d + 1)
  }

  // ------------------------------------------ breadth-first order and the tree

  /** The values of t, left to right, each with its depth in superpositions. */
  function DepthLeaves(t: Branch, d: nat): seq<Entry>
    decreases Size(t)
  {
    var h := Head(t);
    if h.Sup? || h.Usp? then DepthLeaves(h.left, d + 1) + DepthLeaves(h.right, d + 1)
    else if h.Erased? then [] else [Entry(d, h)]
  }

  function AllLeaves(ts: seq<Branch>, d: nat): seq<Entry> {
    if ts == [] then [] else DepthLeaves(ts[0], d) + AllLeaves(ts[1..], d)
  }

  lemma {:induction false} AllLeavesConcat(a: seq<Branch>, b: seq<Branch>, d: nat)
    ensures AllLeaves(a + b, d) == AllLeaves(a, d) + AllLeaves(b, d)
  {
    if a == [] {
      assert a + b == b;
    } else {
      AllLeavesConcat(a[1..], b, d);
      assert (a + b)[1..] == a[1..] + b;
      ConcatAssociates(DepthLeaves(a[0], d), AllLeaves(a[1..], d), AllLeaves(b, d));
    }
  }

  ghost predicate AtLeast(r: seq<Entry>, k: nat) { forall i :: 0 <= i < |r| ==> k <= r[i].key }

  lemma {:induction false} LeavesAtLeast(t: Branch, d: nat)
    ensures AtLeast(DepthLeaves(t, d), d)
    decreases Size(t)
  {
    var h := Head(t);
    if h.Sup? || h.Usp? {
      LeavesAtLeast(h.left, d + 1);
      LeavesAtLeast(h.right, d + 1);
    }
  }

  lemma OneAt(e: Entry, k: nat)
    ensures AtKey([e], k) == if e.key == k then [e] else []
  {
    AtKeyStep([e], k);
    assert [e][1..] == [];
  }

  /** At depth k a term has its own value or what its branches have. */
  lemma TermAt(t: Branch, d: nat, k: nat)
    requires d <= k
    ensures AtKey(DepthLeaves(t, d), k) == if k == d then Found(t, d) else AtKey(AllLeaves(Branches(t), d + 1), k)
  {
    var h := Head(t);
    if h.Sup? || h.Usp? {
      TwoBranches(h.left, h.right, d + 1);
      LeavesAtLeast(h.left, d + 1);
      LeavesAtLeast(h.right, d + 1);
      if k == d { AtKeyNone(DepthLeaves(t, d), k); }
    } else {
      assert AtKey([], k) == [];
      assert AllLeaves([], d + 1) == [];
      if !h.Erased? { OneAt(Entry(d, h), k); }
    }
  }

  lemma TwoBranches(l: Branch, r: Branch, d: nat)
    ensures AllLeaves([l, r], d) == DepthLeaves(l, d) + DepthLeaves(r, d)
  {
    assert [l, r][1..] == [r] && [r][1..] == [];
    assert AllLeaves([r], d) == DepthLeaves(r, d) + AllLeaves([], d);
  }

  lemma {:induction false} LevelAt(ts: seq<Branch>, d: nat, k: nat)
    requires d <= k
    ensures AtKey(AllLeaves(ts, d), k) == if k == d then ThisLevel(ts, d) else AtKey(AllLeaves(NextLevel(ts), d + 1), k)
  {
    if ts != [] {
      LevelAt(ts[1..], d, k);
      TermAt(ts[0], d, k);
      AtKeyConcat(DepthLeaves(ts[0], d), AllLeaves(ts[1..], d), k);
      AllLeavesConcat(Branches(ts[0]), NextLevel(ts[1..]), d + 1);
      AtKeyConcat(AllLeaves(Branches(ts[0]), d + 1), AllLeaves(NextLevel(ts[1..]), d + 1), k);
    }
  }

  lemma {:induction false} ThisLevelKeys(ts: seq<Branch>, d: nat)
    ensures forall i :: 0 <= i < |ThisLevel(ts, d)| ==> ThisLevel(ts, d)[i].key == d
  {
    if ts != [] { ThisLevelKeys(ts[1..], d); }
  }

  lemma {:induction false} AtKeyAll(q: seq<Entry>, k: nat)
    requires forall i :: 0 <= i < |q| ==> q[i].key == k
    ensures AtKey(q, k) == q
  {
    if q != [] {
      AtKeyAll(q[1..], k);
      AtKeyStep(q, k);
    }
  }

  ghost predicate Sorted(r: seq<Entry>) { forall i, j :: 0 <= i < j < |r| ==> r[i].key <= r[j].key }

  /** Breadth-first order is sorted by depth. */
  lemma {:induction false} LevelsSorted(ts: seq<Branch>, d: nat)
    ensures Sorted(Levels(ts, d)) && AtLeast(Levels(ts, d), d)
    decreases Sizes(ts)
  {
    if ts != [] {
      ThisLevelKeys(ts, d);
      LevelsSorted(NextLevel(ts), d + 1);
      SortedConcat(ThisLevel(ts, d), Levels(NextLevel(ts), d + 1), d);
    }
  }

  lemma SortedConcat(a: seq<Entry>, b: seq<Entry>, d: nat)
    requires (forall i :: 0 <= i < |a| ==> a[i].key == d) && Sorted(b) && AtLeast(b, d + 1)
    ensures Sorted(a + b) && AtLeast(a + b, d)
  {
  }

  /** At every depth, breadth-first order has the leaves of the tree from left to right. */
  lemma {:induction false} LevelsAt(ts: seq<Branch>, d: nat, k: nat)
    requires d <= k
    ensures AtKey(Levels(ts, d), k) == AtKey(AllLeaves(ts, d), k)
    decreases Sizes(ts)
  {
    if ts != [] {
      LevelAt(ts, d, k);
      ThisLevelKeys(ts, d);
      LevelsSorted(NextLevel(ts), d + 1);
      AtKeyConcat(ThisLevel(ts, d), Levels(NextLevel(ts), d + 1), k);
      if k == d {
        AtKeyAll(ThisLevel(ts, d), k);
        AtKeyNone(Levels(NextLevel(ts), d + 1), k);
      } else {
        AtKeyNone(ThisLevel(ts, d), k);
        LevelsAt(NextLevel(ts), d + 1, k);
      }
    }
  }

  // ------------------------------------------------ the queue goes breadth first

  /** The priority of a depth: the last bucket is for all depths from 31 on. */
  function KeyOf(d: nat): nat { if MIDDLE + d < BUCKETS then MIDDLE + d else BUCKETS - 1 }

  /** The tasks of one depth as queue entries. */
  function Queued(ts: seq<Branch>, d: nat): (q: seq<Entry>)
    ensures |q| == |ts| && forall i :: 0 <= i < |q| ==> q[i] == Entry(KeyOf(d), ts[i])
  {
    seq(|ts|, i requires 0 <= i < |ts| => Entry(KeyOf(d), ts[i]))
  }

  function WithKeys(r: seq<Entry>): (s: seq<Entry>)
    ensures |s| == |r| && forall i :: 0 <= i < |r| ==> s[i] == Entry(KeyOf(r[i].key), r[i].task)
  {
    seq(|r|, i requires 0 <= i < |r| => Entry(KeyOf(r[i].key), r[i].task))
  }

  lemma WithKeysConcat(a: seq<Entry>, b: seq<Entry>)
    ensures WithKeys(a + b) == WithKeys(a) + WithKeys(b)
  {
  }

  lemma QueuedConcat(a: seq<Branch>, b: seq<Branch>, d: nat)
    ensures Queued(a + b, d) == Queued(a, d) + Queued(b, d)
  {
  }

  /** A queue sorted by key is served from the front, also when keys are equal. */
  lemma FrontIsBest(q: seq<Entry>)
    requires q != [] && forall i :: 0 <= i < |q| ==> q[0].key <= q[i].key
    ensures Best(q) == 0 && Without(q, 0) == q[1..]
  {
    BestIsFirst(q);
  }

  lemma AgainIs(t: Branch, d: nat)
    requires NoInc(t)
    ensures Again(Entry(KeyOf(d), t)) == Queued(Branches(t), d + 1)
    ensures Emit(Entry(KeyOf(d), t)) == WithKeys(Found(t, d))
  {
    assert Later(KeyOf(d)) == KeyOf(d + 1);
  }

  lemma NoIncBranches(t: Branch)
    requires NoInc(t)
    ensures NoIncs(Branches(t))
  {
  }

  lemma {:induction false} NoIncNext(ts: seq<Branch>)
    requires NoIncs(ts)
    ensures NoIncs(NextLevel(ts))
  {
    if ts != [] {
      NoIncBranches(ts[0]);
      NoIncNext(ts[1..]);
    }
  }

  /** A turn of a queue q sorted by key, with e in front. */
  lemma FrontTurn(q: seq<Entry>, e: Entry, rest: seq<Entry>, q': seq<Entry>, out: seq<Entry>)
    requires q == [e] + rest && forall i :: 0 <= i < |rest| ==> e.key <= rest[i].key
    requires q' == rest + Again(e) && out == Emit(e)
    ensures All(q) == out + All(q')
  {
    FrontIsBest(q);
    AllUnfolds(q);
    assert q[1..] == rest;
  }

  lemma QueueFront(t: Branch, ts: seq<Branch>, d: nat, y: seq<Entry>)
    ensures Queued([t] + ts, d) + y == [Entry(KeyOf(d), t)] + (Queued(ts, d) + y)
  {
    QueuedConcat([t], ts, d);
    assert Queued([t], d) == [Entry(KeyOf(d), t)];
    ConcatAssociates(Queued([t], d), Queued(ts, d), y);
  }

  /** What a turn puts back goes behind `next`. */
  lemma QueueBack(t: Branch, ts: seq<Branch>, next: seq<Branch>, d: nat)
    requires NoInc(t)
    ensures Queued(ts, d) + Queued(next, d + 1) + Again(Entry(KeyOf(d), t)) ==
      Queued(ts, d) + Queued(next + Branches(t), d + 1)
  {
    AgainIs(t, d);
    QueuedConcat(next, Branches(t), d + 1);
    ConcatAssociates(Queued(ts, d), Queued(next, d + 1), Queued(Branches(t), d + 1));
  }

  /** A turn takes the first task of the level and queues its branches behind `next`. */
  lemma LevelTurn(t: Branch, ts: seq<Branch>, next: seq<Branch>, d: nat)
    requires NoInc(t)
    ensures All(Queued([t] + ts, d) + Queued(next, d + 1)) ==
      WithKeys(Found(t, d)) + All(Queued(ts, d) + Queued(next + Branches(t), d + 1))
  {
    QueueFront(t, ts, d, Queued(next, d + 1));
    QueueBack(t, ts, next, d);
    AgainIs(t, d);
    FrontTurn(Queued([t] + ts, d) + Queued(next, d + 1), Entry(KeyOf(d), t), Queued(ts, d) + Queued(next, d + 1),
              Queued(ts, d) + Queued(next + Branches(t), d + 1), WithKeys(Found(t, d)));
  }

  /** The rest of a level is served before what is queued for the next one. */
  lemma {:induction false} LevelRuns(ts: seq<Branch>, next: seq<Branch>, d: nat)
    requires NoIncs(ts)
    ensures All(Queued(ts, d) + Queued(next, d + 1)) ==
      WithKeys(ThisLevel(ts, d)) + All(Queued(next + NextLevel(ts), d + 1))
  {
    if ts == [] {
      assert Queued(ts, d) + Queued(next, d + 1) == Queued(next, d + 1) && next + NextLevel(ts) == next;
    } else {
      var (t, rest) := (ts[0], ts[1..]);
      assert ts == [t] + rest;
      LevelTurn(t, rest, next, d);
      LevelRuns(rest, next + Branches(t), d);
      ConcatAssociates(next, Branches(t), NextLevel(rest));
      WithKeysConcat(Found(t, d), ThisLevel(rest, d));
      ConcatAssociates(WithKeys(Found(t, d)), WithKeys(ThisLevel(rest, d)), All(Queued(next + NextLevel(ts), d + 1)));
    }
  }

  /** The queue serves level after level, at every depth. */
  lemma {:induction false} LevelOrder(ts: seq<Branch>, d: nat)
    requires NoIncs(ts)
    ensures All(Queued(ts, d)) == WithKeys(Levels(ts, d))
    decreases Sizes(ts)
  {
    if ts != [] {
      LevelRuns(ts, [], d);
      assert Queued(ts, d) + Queued([], d + 1) == Queued(ts, d) && [] + NextLevel(ts) == NextLevel(ts);
      NoIncNext(ts);
      LevelOrder(NextLevel(ts), d + 1);
      WithKeysConcat(ThisLevel(ts, d), Levels(NextLevel(ts), d + 1));
    }
  }

  lemma SeedOrder(t: Branch)
    requires NoInc(t)
    ensures All([Entry(MIDDLE, t)]) == WithKeys(Levels([t], 0))
  {
    LevelOrder([t], 0);
    assert Queued([t], 0) == [Entry(MIDDLE, t)];
  }

  lemma SeedLeaves(t: Branch)
    ensures AllLeaves([t], 0) == DepthLeaves(t, 0)
  {
    assert [t][1..] == [];
    assert AllLeaves([t], 0) == DepthLeaves(t, 0) + AllLeaves([], 0);
  }

  /** The ordered collapse of a term without INC returns the first `limit` values in
      breadth-first order: sorted by depth, however deep, and at each depth the leaves
      of that depth from left to right. */
  lemma OrderedByDepth(t: Branch, limit: nat)
    requires NoInc(t)
    ensures var r := Levels([t], 0);
      Ordered([Entry(MIDDLE, t)], limit) == First(WithKeys(r), limit) && Sorted(r) &&
      forall k: nat :: AtKey(r, k) == AtKey(DepthLeaves(t, 0), k)
  {
    SeedOrder(t);
    LimitCuts([Entry(MIDDLE, t)], limit);
    LevelsSorted([t], 0);
    SeedLeaves(t);
    forall k: nat ensures AtKey(Levels([t], 0), k) == AtKey(DepthLeaves(t, 0), k) {
      LevelsAt([t], 0, k);
    }
  }
}
