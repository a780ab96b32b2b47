/** Priorities counted on the term. */
module Priorities {
  import opened BranchTrees
  import opened OrderedCollapse
  import opened OrderedResults

  // ------------------------------------------------------------- visible wrappers

  /** INC wrappers that can be seen before the word is reduced. */
  function Incs(t: Branch): nat { if t.Inc? then 1 + Incs(t.inner) else 0 }

  function Bare(t: Branch): (b: Branch)
    ensures !b.Inc? && Size(b) <= Size(t)
  {
    if t.Inc? then Bare(t.inner) else t
  }

  /** A key moves n steps to the front, and no further than 0. */
  lemma {:induction false} PeelIncs(e: Entry)
    ensures Peel(e) == Entry(if e.key > Incs(e.task) then e.key - Incs(e.task) else 0, Bare(e.task))
    decreases e.task
  {
    if e.task.Inc? { PeelIncs(Entry(Sooner(e.key), e.task.inner)); }
  }

  /** A task under n > 0 wrappers that is taken at key k is queued again, bare, at
      max(0, k - n), behind all others of that key. */
  lemma WrappedAgain(q: seq<Entry>)
    requires q != [] && q[Best(q)].task.Inc?
    ensures var (i, n) := (Best(q), Incs(q[Best(q)].task));
      n > 0 && Rest(q) == q[..i] + q[i + 1..] + [Entry(if q[i].key > n then q[i].key - n else 0, Bare(q[i].task))]
  {
    PeelIncs(q[Best(q)]);
  }

  /** Taken at a key above 0, it is the task that is served next. */
  lemma WrappedNext(q: seq<Entry>)
    requires q != [] && q[Best(q)].task.Inc? && q[Best(q)].key > 0
    ensures Rest(q) != [] && Rest(q)[Best(Rest(q))].task == Bare(q[Best(q)].task)
    ensures Rest(q)[Best(Rest(q))].key < q[Best(q)].key
  {
    var (i, rest) := (Best(q), Rest(q));
    WrappedAgain(q);
    BestIsFirst(q);
    BestIsFirst(rest);
    var last := |rest| - 1;
    forall j | 0 <= j < last ensures rest[j].key >= q[i].key {
      assert rest[j] == if j < i then q[j] else q[j + 1];
    }
    assert rest[last].key < q[i].key;
  }

  // ---------------------------------------------------------------- along a path

  /** A value of a term: the branches that lead to it, 32 plus the superpositions minus the
      visible wrappers on the way, and whether that number stayed within 0 and 63. */
  datatype Place = Place(path: seq<bool>, number: int, inRange: bool, value: Branch)

  function Places(t: Branch, path: seq<bool>, number: int, inRange: bool): seq<Place>
    decreases Size(t), 1
  {
    PlacesOf(Head(Bare(t)), path, number - Incs(t), inRange && Incs(t) <= number)
  }

  /** The same for a word that has been reduced. */
  function PlacesOf(h: Branch, path: seq<bool>, n: int, inRange: bool): seq<Place>
    decreases Size(h), 0
  {
    if h.Sup? || h.Usp? then
      Places(h.left, path + [false], n + 1, inRange && n < 63) +
      Places(h.right, path + [true], n + 1, inRange && n < 63)
    else if h.Value? then [Place(path, n, inRange, h)] else []
  }

  /** The entry e is the value at place p, with the number counted there. */
  predicate KeyedAs(e: Entry, p: Place) { e.task == p.value && (p.inRange ==> e.key == p.number) }

  predicate AllKeyedAs(ks: seq<Entry>, ps: seq<Place>) {
    |ks| == |ps| && forall i {:trigger ks[i]} {:trigger ps[i]} :: 0 <= i < |ks| ==> KeyedAs(ks[i], ps[i])
  }

  lemma KeyedTogether(ks: seq<Entry>, ks': seq<Entry>, ps: seq<Place>, ps': seq<Place>)
    requires AllKeyedAs(ks, ps) && AllKeyedAs(ks', ps')
    ensures AllKeyedAs(ks + ks', ps + ps')
  {
  }

  /** The places of a word that reduces to a superposition are those of its branches. */
  lemma PlacesFork(t: Branch, path: seq<bool>, number: int, inRange: bool, h: Branch, n: int, ok: bool)
    requires h == Head(Bare(t)) && (h.Sup? || h.Usp?) && n == number - Incs(t) + 1
    requires ok <==> inRange && Incs(t) <= number && n <= 63
    ensures Places(t, path, number, inRange) ==
      Places(h.left, path + [false], n, ok) + Places(h.right, path + [true], n, ok)
  {
  }

  lemma KeyedFork(e: Entry, h: Branch, k: nat)
    requires h == Head(Bare(e.task)) && (h.Sup? || h.Usp?) && k == Peel(e).key
    ensures KeyedLeaves(e) == KeyedLeaves(Entry(Later(k), h.left)) + KeyedLeaves(Entry(Later(k), h.right))
  {
    PeelIncs(e);
  }

  lemma {:induction false} KeysAreNumbers(e: Entry, path: seq<bool>, number: int, inRange: bool)
    requires inRange ==> number == e.key <= 63
    ensures AllKeyedAs(KeyedLeaves(e), Places(e.task, path, number, inRange))
    decreases Size(e.task)
  {
    PeelIncs(e);
    var (k, h, n) := (Peel(e).key, Head(Bare(e.task)), number - Incs(e.task) + 1);
    var ok := inRange && Incs(e.task) <= number && n <= 63;
    if h.Sup? || h.Usp? {
      var (l, r) := (Entry(Later(k), h.left), Entry(Later(k), h.right));
      KeysAreNumbers(l, path + [false], n, ok);
      KeysAreNumbers(r, path + [true], n, ok);
      PlacesFork(e.task, path, number, inRange, h, n, ok);
      KeyedFork(e, h, k);
      KeyedTogether(KeyedLeaves(l), KeyedLeaves(r), Places(h.left, path + [false], n, ok),
                    Places(h.right, path + [true], n, ok));
    }
  }

  /** What the collapse of t stores without a limit is every value of t, with the key that
      has been counted on its path. */
  lemma StoredNumbers(t: Branch)
    ensures var (ks, ps) := (KeyedLeaves(Entry(MIDDLE, t)), Places(t, [], 32, true));
      multiset(All([Entry(MIDDLE, t)])) == multiset(ks) && AllKeyedAs(ks, ps)
  {
    AllConserves([Entry(MIDDLE, t)]);
    PendingOne(Entry(MIDDLE, t));
    KeysAreNumbers(Entry(MIDDLE, t), [], 32, true);
  }

  /** One turn on a queue whose best entry is known. */
  lemma TurnOn(q: seq<Entry>, limit: nat, i: nat, rest: seq<Entry>)
    requires i < |q| && limit > 0 && Best(q) == i && Emit(q[i]) == [] && rest == Without(q, i) + Again(q[i])
    ensures Ordered(q, limit) == Ordered(rest, limit)
  {
    OrderedUnfolds(q, limit);
  }

  /** SUP(INC(v1), v2) with limit 1 gives v1. */
  lemma WrappedFirst(v1: nat, v2: nat)
    ensures Tasks(Ordered([Entry(MIDDLE, Sup(Inc(Value(v1)), Value(v2)))], 1)) == [Value(v1)]
  {
    var (a, b) := (Inc(Value(v1)), Value(v2));
    var q := [Entry(32, Sup(a, b))];
    var q1 := [Entry(33, a), Entry(33, b)];
    var q2 := [Entry(33, b), Entry(32, Value(v1))];
    assert q[1..] == [] && q1[1..] == [Entry(33, b)] && q2[1..] == [Entry(32, Value(v1))];
    TurnOn(q, 1, 0, q1);
    PeelIncs(q1[0]);
    assert Incs(a) == 1 && Bare(a) == Value(v1);
    TurnOn(q1, 1, 0, q2);
    OrderedUnfolds(q2, 1);
    assert Best(q2) == 1 && Emit(q2[1]) == [q2[1]];
    assert Ordered(Rest(q2), 0) == [];
  }

  // ------------------------------------------------------------- from left to right

  /** The word that is reached by taking the branches of a path. */
  function Reached(t: Branch, path: seq<bool>): Branch
    decreases |path|
  {
    var h := Head(t);
    if path == [] || !(h.Sup? || h.Usp?) then h else Reached(if path[0] then h.right else h.left, path[1..])
  }

  lemma {:induction false} BareHead(t: Branch)
    ensures Head(Bare(t)) == Head(t)
  {
    if t.Inc? { BareHead(t.inner); }
  }

  /** p is a place on or below `path`, at the word t. */
  predicate Leads(t: Branch, path: seq<bool>, p: Place) { path <= p.path && Reached(t, p.path[|path|..]) == p.value }

  lemma LeadsOn(t: Branch, path: seq<bool>, b: bool, p: Place)
    requires var h := Head(t); (h.Sup? || h.Usp?) && Leads(if b then h.right else h.left, path + [b], p)
    ensures Leads(t, path, p)
  {
    assert p.path[|path|] == b && p.path[|path|..][1..] == p.path[|path| + 1..];
    assert path == (path + [b])[..|path|];
  }

  lemma {:induction false} PlaceReached(t: Branch, path: seq<bool>, number: int, inRange: bool, p: Place)
    requires p in Places(t, path, number, inRange)
    ensures Leads(t, path, p)
    decreases Size(t)
  {
    BareHead(t);
    var (h, n) := (Head(t), number - Incs(t) + 1);
    var ok := inRange && Incs(t) <= number && n <= 63;
    if h.Sup? || h.Usp? {
      PlacesFork(t, path, number, inRange, h, n, ok);
      if p in Places(h.left, path + [false], n, ok) {
        PlaceReached(h.left, path + [false], n, ok, p);
        LeadsOn(t, path, false, p);
      } else {
        PlaceReached(h.right, path + [true], n, ok, p);
        LeadsOn(t, path, true, p);
      }
    } else {
      assert p.path[|path|..] == [];
    }
  }

  /** The first path branches off to the left of the second. */
  predicate LeftOf(p: seq<bool>, q: seq<bool>)
  {
    p != [] && q != [] && if p[0] == q[0] then LeftOf(p[1..], q[1..]) else !p[0]
  }

  lemma {:induction false} LeftBelow(path: seq<bool>, p: seq<bool>, q: seq<bool>)
    requires path + [false] <= p && path + [true] <= q
    ensures LeftOf(p, q)
  {
    if path != [] {
      LeftBelow(path[1..], p[1..], q[1..]);
    }
  }

  predicate InOrder(ps: seq<Place>) { forall i, j :: 0 <= i < j < |ps| ==> LeftOf(ps[i].path, ps[j].path) }

  lemma OrderedTogether(ps: seq<Place>, qs: seq<Place>)
    requires InOrder(ps) && InOrder(qs)
    requires forall p, q :: p in ps && q in qs ==> LeftOf(p.path, q.path)
    ensures InOrder(ps + qs)
  {
  }

  /** The values are listed from left to right. */
  lemma {:induction false} PlacesInOrder(t: Branch, path: seq<bool>, number: int, inRange: bool)
    ensures InOrder(Places(t, path, number, inRange))
    decreases Size(t)
  {
    var (h, n) := (Head(Bare(t)), number - Incs(t) + 1);
    var ok := inRange && Incs(t) <= number && n <= 63;
    if h.Sup? || h.Usp? {
      var (left, right) := (Places(h.left, path + [false], n, ok), Places(h.right, path + [true], n, ok));
      PlacesFork(t, path, number, inRange, h, n, ok);
      PlacesInOrder(h.left, path + [false], n, ok);
      PlacesInOrder(h.right, path + [true], n, ok);
      forall p, q | p in left && q in right ensures LeftOf(p.path, q.path) {
        PlaceReached(h.left, path + [false], n, ok, p);
        PlaceReached(h.right, path + [true], n, ok, q);
        LeftBelow(path, p.path, q.path);
      }
      OrderedTogether(left, right);
    }
  }
}
