/** The turns of the ordered collapse on a net: its tasks are slots of the net with the
    choices that led to them, served in the order of the stable priority queue. The tasks
    form a decision table, and what a turn does to a task keeps it one. */
module OrderedNets {
  import opened Streams
  import opened Nets
  import opened Soundness
  import opened Runs
  import opened DecisionTables
  import opened NetCollapse
  import BranchTrees
  import OrderedCollapse

  /** A task or result: the choices that led to it, the slot of its word, and its priority. */
  datatype Row = Row(path: seq<Choice>, slot: nat, key: nat)

  /** The net, the tasks in order of insertion, and what has come out so far. */
  datatype Config = Config(net: State, waiting: seq<Row>, stored: seq<Row>, erased: seq<Row>)

  ghost function Start(s: State, p: nat): Config { Config(s, [Row([], p, OrderedCollapse.MIDDLE)], [], []) }

  /** The task that the queue serves next. */
  function NextTask(rows: seq<Row>): (i: nat)
    requires rows != []
    ensures i < |rows|
  {
    OrderedCollapse.Best(seq(|rows|, i requires 0 <= i < |rows| =>
      OrderedCollapse.Entry(rows[i].key, BranchTrees.Value(rows[i].slot))))
  }

  function Others(rows: seq<Row>, i: nat): seq<Row>
    requires i < |rows|
  {
    rows[..i] + rows[i + 1..]
  }

  ghost predicate Rooted(s: State, p: nat) { Sound(s) && Root(s.heap, s.rank, p) && p < |s.heap| }

  ghost predicate Wrapped(s: State, p: nat) { Rooted(s, p) && s.heap[p].term.Inc? }

  ghost predicate Forked(s: State, p: nat) { Rooted(s, p) && s.heap[p].term.Sup? }

  lemma RootedNow(s: State, p: nat)
    requires Sound(s) && Root(s.heap, s.rank, p)
    ensures Rooted(s, p) && RankedAt(s.heap, s.rank, p)
  {
    Live(s.heap, s.rank, p);
  }

  /** Taking the visible INC wrappers off, one priority step each. */
  ghost function Peeled(s: State, row: Row): (r: (State, Row))
    requires Rooted(s, row.slot)
    ensures r.1.path == row.path && Rooted(r.0, r.1.slot) && !Wrapped(r.0, r.1.slot)
    decreases s.rank[row.slot]
  {
    if Wrapped(s, row.slot) then
      UnwrappedRoot(s, row.slot);
      Peeled(Released(s, row.slot), Unwrapped(s, row))
    else (s, row)
  }

  function Unwrapped(s: State, row: Row): Row
    requires row.slot < |s.heap| && s.heap[row.slot].term.Inc?
  {
    Row(row.path, s.heap[row.slot].term.loc, OrderedCollapse.Sooner(row.key))
  }

  /** The tasks for the two branches of a SUP. */
  function Branches(row: Row, lab: Label, b: nat): seq<Row> {
    [Row(row.path + [Choice(lab, false)], b, OrderedCollapse.Later(row.key)),
     Row(row.path + [Choice(lab, true)], b + 1, OrderedCollapse.Later(row.key))]
  }

  /** What becomes of a task whose word the reducer has brought to head-normal form. */
  ghost function Settle(c: Config, rest: seq<Row>, row: Row, mid: State): Config
    requires row.slot < |mid.heap|
  {
    match mid.heap[row.slot].term
    case Sup(lab, b) => Config(Released(mid, row.slot), rest + Branches(row, lab, b), c.stored, c.erased)
    case Era => Config(mid, rest, c.stored, c.erased + [row])
    case _ => Config(mid, rest, c.stored + [row], c.erased)
  }

  ghost predicate Normal(s: State, p: nat) {
    Rooted(s, p) && RankedAt(s.heap, s.rank, p) && HeadNormal(s.heap, s.rank, s.heap[p].term)
  }

  /** One turn of the loop. `slots` are the interactions, in any order, that bring the
      task's word to head-normal form in mid. */
  ghost predicate Turn(c: Config, slots: seq<nat>, mid: State, c': Config) {
    c.waiting != [] &&
    var i := NextTask(c.waiting);
    var (row, rest) := (c.waiting[i], Others(c.waiting, i));
    Rooted(c.net, row.slot) &&
    if Wrapped(c.net, row.slot) then
      var (net, again) := Peeled(c.net, row);
      c' == Config(net, rest + [again], c.stored, c.erased)
    else Run(c.net, slots, mid) && Normal(mid, row.slot) && c' == Settle(c, rest, row, mid)
  }

  // ------------------------------------------------------- wrappers and branches

  /** Taking a root INC off turns its slot into a root, with the same value. */
  lemma UnwrappedRoot(s: State, p: nat)
    requires Wrapped(s, p)
    ensures var (t, b) := (Released(s, p), s.heap[p].term.loc);
      Rooted(t, b) && b in s.rank && s.rank[b] < s.rank[p] && t.rank[b] == s.rank[b] && b != p
    ensures forall env: Env :: SameMeaning(s, p, env, Released(s, p), s.heap[p].term.loc, env)
  {
    var (t, b) := (Released(s, p), s.heap[p].term.loc);
    ReleasedSound(s, p);
    Live(s.heap, s.rank, p);
    Live(s.heap, s.rank, b);
    Live(t.heap, t.rank, b);
    forall c | c in t.rank ensures !HitsAt(t.heap, c, b) {
      Live(s.heap, s.rank, c);
      LivePair(s.heap, s.rank, c, p);
    }
    forall env: Env ensures SameMeaning(s, p, env, t, b, env) {
      MeaningOfHeap(s.heap, s.rank, t.rank, s.heap[b].term, env);
    }
  }

  /** Another root outlives the wrapper. */
  lemma UnwrappedOther(s: State, p: nat, r: nat)
    requires Wrapped(s, p) && Root(s.heap, s.rank, r) && r != p
    ensures Kept(s, Released(s, p), r) && r != s.heap[p].term.loc
  {
    ReleasedKeeps(s, p, r);
    assert !HitsAt(s.heap, p, r);
  }

  // ---------------------------------------------------------------- priorities

  /** INC wrappers that can be seen in slot p. */
  ghost function Wrappers(h: Heap, rank: Rank, p: nat): nat
    requires Ranked(h, rank) && p in rank
    decreases rank[p]
  {
    Live(h, rank, p);
    if h[p].term.Inc? then 1 + Wrappers(h, rank, h[p].term.loc) else 0
  }

  lemma {:induction false} SameWrappers(h: Heap, rank: Rank, rank': Rank, p: nat)
    requires Ranked(h, rank) && Ranked(h, rank') && p in rank && p in rank'
    ensures Wrappers(h, rank, p) == Wrappers(h, rank', p)
    decreases rank[p]
  {
    Live(h, rank, p);
    Live(h, rank', p);
    if h[p].term.Inc? { SameWrappers(h, rank, rank', h[p].term.loc); }
  }

  lemma {:induction false} PeeledKey(s: State, row: Row)
    requires Rooted(s, row.slot)
    ensures var n := Wrappers(s.heap, s.rank, row.slot);
      Peeled(s, row).1.key == (if row.key > n then row.key - n else 0)
    decreases s.rank[row.slot]
  {
    if Wrapped(s, row.slot) {
      UnwrappedRoot(s, row.slot);
      var (t, x) := (Released(s, row.slot), Unwrapped(s, row));
      PeeledKey(t, x);
      SameWrappers(s.heap, s.rank, t.rank, x.slot);
    }
  }

  /** A turn on a task with n visible wrappers puts it back n steps nearer to the front; a
      turn on a SUP puts both branches one step further back, the first branch first. */
  lemma TurnKeys(c: Config, slots: seq<nat>, mid: State, c': Config)
    requires Turn(c, slots, mid, c')
    ensures var (row, rest) := (c.waiting[NextTask(c.waiting)], Others(c.waiting, NextTask(c.waiting)));
      if Wrapped(c.net, row.slot) then
        var n := Wrappers(c.net.heap, c.net.rank, row.slot);
        |c'.waiting| == |rest| + 1 && c'.waiting[..|rest|] == rest && n > 0 &&
        c'.waiting[|rest|].key == (if row.key > n then row.key - n else 0)
      else if row.slot < |mid.heap| && mid.heap[row.slot].term.Sup? then
        var (lab, b, k) := (mid.heap[row.slot].term.lab, mid.heap[row.slot].term.loc,
                            if row.key < 63 then row.key + 1 else 63);
        c'.waiting == rest + [Row(row.path + [Choice(lab, false)], b, k), Row(row.path + [Choice(lab, true)], b + 1, k)]
      else c'.waiting == rest
  {
    var row := c.waiting[NextTask(c.waiting)];
    PeeledKey(c.net, row);
  }

  // ----------------------------------------------------------------- the table

  lemma {:induction false} FollowsMore(env: Env, path: seq<Choice>, c: Choice)
    ensures Follows(env, path + [c]) <==> Follows(env, path) && Top(After(env, path), c.lab) == c.branch
    ensures After(env, path + [c]) == Pop(After(env, path), c.lab)
    decreases |path|
  {
    if path == [] {
      assert ([] + [c])[1..] == [];
    } else {
      assert (path + [c])[1..] == path[1..] + [c];
      FollowsMore(Pop(env, path[0].lab), path[1..], c);
    }
  }

  /** The row is the only one with its slot, and its slot is a root. */
  ghost predicate RowAlone(s: State, rows: multiset<Row>, r: Row) {
    rows[r] == 1 && Rooted(s, r.slot) && forall q :: q in rows && q.slot == r.slot ==> q == r
  }

  /** env leads to the row r, which holds what slot p0 of s0 selects. */
  ghost predicate Chosen(s0: State, p0: nat, env: Env, s: State, r: Row) {
    Follows(env, r.path) && SameValue(s0, p0, env, s, r.slot, After(env, r.path))
  }

  ghost predicate PicksOne(s0: State, p0: nat, env: Env, s: State, rows: multiset<Row>) {
    exists r :: r in rows && Chosen(s0, p0, env, s, r) &&
      forall q :: q in rows && Follows(env, q.path) ==> q == r
  }

  /** The rows are distinct roots, and every environment leads to exactly one of them. */
  ghost predicate Table(s0: State, p0: nat, s: State, rows: multiset<Row>) {
    Sound(s) &&
    (forall r {:trigger RowAlone(s, rows, r)} :: r in rows ==> RowAlone(s, rows, r)) &&
    forall env: Env {:trigger PicksOne(s0, p0, env, s, rows)} :: PicksOne(s0, p0, env, s, rows)
  }

  lemma ChosenKept(s0: State, p0: nat, env: Env, s: State, r: Row, s': State)
    requires Chosen(s0, p0, env, s, r) && Kept(s, s', r.slot)
    ensures Chosen(s0, p0, env, s', r)
  {
    SameMeaningKept(s0, p0, env, s, r.slot, After(env, r.path), s');
  }

  /** Interactions keep the table. */
  lemma TableRuns(s0: State, p0: nat, s: State, rows: multiset<Row>, slots: seq<nat>, s': State, row: Row)
    requires Table(s0, p0, s, rows) && Run(s, slots, s') && row in rows
    ensures Table(s0, p0, s', rows)
  {
    forall r | r in rows ensures Kept(s, s', r.slot) && RowAlone(s', rows, r) {
      assert RowAlone(s, rows, r);
      RunKept(s, slots, s', r.slot);
      RootedNow(s', r.slot);
    }
    assert RowAlone(s', rows, row);
    forall env: Env ensures PicksOne(s0, p0, env, s', rows) {
      assert PicksOne(s0, p0, env, s, rows);
      var r :| r in rows && Chosen(s0, p0, env, s, r) && forall q :: q in rows && Follows(env, q.path) ==> q == r;
      ChosenKept(s0, p0, env, s, r, s');
    }
  }

  /** rows' has x and y in the place of row. */
  ghost predicate Replaced(rows: multiset<Row>, row: Row, x: Row, y: Row, rows': multiset<Row>) {
    row in rows && rows' == rows - multiset{row} + (if x == y then multiset{x} else multiset{x, y})
  }

  /** Slots of new rows: not those of other rows. */
  ghost predicate Newcomer(rows: multiset<Row>, row: Row, t: State, x: Row) {
    Rooted(t, x.slot) && forall q :: q in rows && q != row ==> q.slot != x.slot
  }

  lemma ReplacedAlone(s: State, rows: multiset<Row>, row: Row, t: State, x: Row, y: Row, rows': multiset<Row>, r: Row)
    requires Replaced(rows, row, x, y, rows') && RowAlone(s, rows, row) && (x == y || x.slot != y.slot)
    requires Newcomer(rows, row, t, x) && Newcomer(rows, row, t, y) && r in rows'
    requires r in rows && r != row ==> RowAlone(s, rows, r) && Kept(s, t, r.slot)
    ensures RowAlone(t, rows', r)
  {
    if r in rows && r != row {
      RootedNow(t, r.slot);
    }
  }

  /** A table in which the row that is replaced leads on to the rows that replace it. */
  lemma TableReplaced(s0: State, p0: nat, s: State, rows: multiset<Row>, row: Row, t: State, x: Row, y: Row,
                      rows': multiset<Row>)
    requires Table(s0, p0, s, rows) && Sound(t) && Replaced(rows, row, x, y, rows') && (x == y || x.slot != y.slot)
    requires Newcomer(rows, row, t, x) && Newcomer(rows, row, t, y)
    requires forall r :: r in rows && r != row ==> Kept(s, t, r.slot)
    requires forall env: Env {:trigger LeadsOn(s0, p0, env, s, row, t, x, y)} :: LeadsOn(s0, p0, env, s, row, t, x, y)
    ensures Table(s0, p0, t, rows')
  {
    assert RowAlone(s, rows, row);
    forall r | r in rows' ensures RowAlone(t, rows', r) {
      if r in rows && r != row { assert RowAlone(s, rows, r); }
      ReplacedAlone(s, rows, row, t, x, y, rows', r);
    }
    forall env: Env ensures PicksOne(s0, p0, env, t, rows') {
      PickReplaced(s0, p0, env, s, rows, row, t, x, y, rows');
    }
  }

  /** Only who followed the old row follows a new one, and then exactly one, to the same value. */
  ghost predicate LeadsOn(s0: State, p0: nat, env: Env, s: State, row: Row, t: State, x: Row, y: Row) {
    (Follows(env, x.path) || Follows(env, y.path) ==> Follows(env, row.path)) &&
    (x == y || !(Follows(env, x.path) && Follows(env, y.path))) &&
    (Chosen(s0, p0, env, s, row) ==> Chosen(s0, p0, env, t, x) || Chosen(s0, p0, env, t, y))
  }

  lemma PickReplaced(s0: State, p0: nat, env: Env, s: State, rows: multiset<Row>, row: Row,
                     t: State, x: Row, y: Row, rows': multiset<Row>)
    requires PicksOne(s0, p0, env, s, rows) && RowAlone(s, rows, row) && Replaced(rows, row, x, y, rows')
    requires LeadsOn(s0, p0, env, s, row, t, x, y)
    requires forall r :: r in rows && r != row ==> Kept(s, t, r.slot)
    ensures PicksOne(s0, p0, env, t, rows')
  {
    var r :| r in rows && Chosen(s0, p0, env, s, r) && forall q :: q in rows && Follows(env, q.path) ==> q == r;
    var r' := r;
    if r == row {
      r' := if Chosen(s0, p0, env, t, x) then x else y;
    } else {
      ChosenKept(s0, p0, env, s, r, t);
    }
    forall q | q in rows' && Follows(env, q.path) ensures q == r' {
      assert q == x || q == y || (q in rows && q != row);
    }
    assert r' in rows' && Chosen(s0, p0, env, t, r');
  }

  // ------------------------------------------------------------ forks and wrappers

  lemma ForkLeads(s0: State, p0: nat, env: Env, s: State, row: Row, lab: Label, b: nat)
    requires Forked(s, row.slot) && s.heap[row.slot].term == Sup(lab, b)
    ensures var xs := Branches(row, lab, b);
      LeadsOn(s0, p0, env, s, row, Released(s, row.slot), xs[0], xs[1])
  {
    var (t, inner) := (Released(s, row.slot), After(env, row.path));
    FollowsMore(env, row.path, Choice(lab, false));
    FollowsMore(env, row.path, Choice(lab, true));
    if Chosen(s0, p0, env, s, row) {
      var c := if Top(inner, lab) then b + 1 else b;
      BranchRoots(s, row.slot, t, b);
      ReleasedMeaning(s, row.slot, inner, c);
      SameMeaningTransitive(s0, p0, env, s, row.slot, inner, t, c, Pop(inner, lab));
    }
  }

  lemma ForkNew(s: State, rows: multiset<Row>, row: Row, lab: Label, b: nat, x: Row)
    requires Forked(s, row.slot) && s.heap[row.slot].term == Sup(lab, b) && row in rows
    requires forall r :: r in rows ==> RowAlone(s, rows, r)
    requires x.slot == b || x.slot == b + 1
    ensures Newcomer(rows, row, Released(s, row.slot), x)
    ensures forall r :: r in rows && r != row ==> Kept(s, Released(s, row.slot), r.slot)
  {
    var t := Released(s, row.slot);
    BranchRoots(s, row.slot, t, b);
    RootedNow(t, x.slot);
    forall r | r in rows && r != row ensures Kept(s, t, r.slot) && r.slot != x.slot {
      assert RowAlone(s, rows, r) && RowAlone(s, rows, row);
      OtherRoot(s, row.slot, t, b, r.slot);
    }
  }

  lemma TableForks(s0: State, p0: nat, s: State, rows: multiset<Row>, row: Row, lab: Label, b: nat,
                   rows': multiset<Row>)
    requires Table(s0, p0, s, rows) && Forked(s, row.slot) && s.heap[row.slot].term == Sup(lab, b)
    requires Replaced(rows, row, Branches(row, lab, b)[0], Branches(row, lab, b)[1], rows')
    ensures Table(s0, p0, Released(s, row.slot), rows')
  {
    var (t, x, y) := (Released(s, row.slot), Branches(row, lab, b)[0], Branches(row, lab, b)[1]);
    ReleasedSound(s, row.slot);
    ForkNew(s, rows, row, lab, b, x);
    ForkNew(s, rows, row, lab, b, y);
    forall env: Env ensures LeadsOn(s0, p0, env, s, row, t, x, y) { ForkLeads(s0, p0, env, s, row, lab, b); }
    TableReplaced(s0, p0, s, rows, row, t, x, y, rows');
  }

  lemma TableUnwraps(s0: State, p0: nat, s: State, rows: multiset<Row>, row: Row, rows': multiset<Row>)
    requires Table(s0, p0, s, rows) && Wrapped(s, row.slot)
    requires Replaced(rows, row, Unwrapped(s, row), Unwrapped(s, row), rows')
    ensures Table(s0, p0, Released(s, row.slot), rows')
  {
    var (t, x) := (Released(s, row.slot), Unwrapped(s, row));
    UnwrappedRoot(s, row.slot);
    forall r | r in rows && r != row ensures Kept(s, t, r.slot) && r.slot != x.slot {
      assert RowAlone(s, rows, r) && RowAlone(s, rows, row);
      UnwrappedOther(s, row.slot, r.slot);
    }
    forall env: Env ensures LeadsOn(s0, p0, env, s, row, t, x, x) {
      if Chosen(s0, p0, env, s, row) {
        var inner := After(env, row.path);
        SameMeaningTransitive(s0, p0, env, s, row.slot, inner, t, x.slot, inner);
      }
    }
    TableReplaced(s0, p0, s, rows, row, t, x, x, rows');
  }

  lemma {:induction false} TablePeels(s0: State, p0: nat, s: State, rows: multiset<Row>, row: Row)
    requires Table(s0, p0, s, rows) && row in rows && Rooted(s, row.slot)
    ensures var (t, x) := Peeled(s, row); Table(s0, p0, t, rows - multiset{row} + multiset{x})
    decreases s.rank[row.slot]
  {
    if Wrapped(s, row.slot) {
      UnwrappedRoot(s, row.slot);
      var (t, x) := (Released(s, row.slot), Unwrapped(s, row));
      var rows1 := rows - multiset{row} + multiset{x};
      TableUnwraps(s0, p0, s, rows, row, rows1);
      TablePeels(s0, p0, t, rows1, x);
      assert rows1 - multiset{x} == rows - multiset{row};
    } else {
      assert rows - multiset{row} + multiset{row} == rows;
    }
  }
}
