/** The ordered collapse of a net, run to its end. */
module OrderedNetRuns {
  import opened Streams
  import opened Nets
  import opened Soundness
  import opened Runs
  import opened DecisionTables
  import opened NetCollapse
  import opened OrderedNets
  import opened Descents
  import opened Weights
  import Rules
  import Termination

  ghost function Rows(c: Config): multiset<Row> { multiset(c.waiting) + multiset(c.stored) + multiset(c.erased) }

  /** Slot p selects an erasure in every environment, or in none. */
  ghost predicate Selects(s: State, p: nat, erasure: bool) {
    Rooted(s, p) && RankedAt(s.heap, s.rank, p) &&
    forall env: Env :: Meaning(s.heap, s.rank, s.heap[p].term, env) == VEra <==> erasure
  }

  /** Erased rows select erasures, and stored ones never do. */
  ghost predicate Sorted(c: Config) {
    (forall r :: r in c.erased ==> Selects(c.net, r.slot, true)) &&
    forall r :: r in c.stored ==> Selects(c.net, r.slot, false)
  }

  /** Every environment leads to exactly one row, waiting, stored or erased, and its slot
      holds what slot p0 of s0 selects. */
  ghost predicate Decides(s0: State, p0: nat, c: Config) { Table(s0, p0, c.net, Rows(c)) && Sorted(c) }

  lemma SelectsKept(s: State, p: nat, erasure: bool, t: State)
    requires Selects(s, p, erasure) && Kept(s, t, p)
    ensures Selects(t, p, erasure)
  {
    RootedNow(t, p);
  }

  lemma SortedKept(c: Config, t: State)
    requires Sorted(c) && forall r :: r in c.erased || r in c.stored ==> Kept(c.net, t, r.slot)
    ensures Sorted(c.(net := t))
  {
    forall r | r in c.erased ensures Selects(t, r.slot, true) { SelectsKept(c.net, r.slot, true, t); }
    forall r | r in c.stored ensures Selects(t, r.slot, false) { SelectsKept(c.net, r.slot, false, t); }
  }

  /** A head-normal word that is neither a SUP nor an erasure never selects one. */
  lemma NormalSelects(s: State, p: nat)
    requires Normal(s, p) && !s.heap[p].term.Sup?
    ensures Selects(s, p, s.heap[p].term == Era)
  {
    if s.heap[p].term.Bin? {
      forall env: Env ensures Meaning(s.heap, s.rank, s.heap[p].term, env) != VEra {
        HeadNormalValue(s.heap, s.rank, s.heap[p].term, env);
      }
    }
  }

  lemma {:induction false} PeelKeeps(s: State, row: Row, r: nat)
    requires Rooted(s, row.slot) && Root(s.heap, s.rank, r) && r != row.slot
    ensures Kept(s, Peeled(s, row).0, r)
    decreases s.rank[row.slot]
  {
    if Wrapped(s, row.slot) {
      UnwrappedRoot(s, row.slot);
      UnwrappedOther(s, row.slot, r);
      PeelKeeps(Released(s, row.slot), Unwrapped(s, row), r);
      KeptTransitive(s, Released(s, row.slot), Peeled(s, row).0, r);
    } else {
      RootedNow(s, r);
    }
  }

  /** The served task leaves the queue. */
  lemma Served(rows: seq<Row>, i: nat)
    requires i < |rows|
    ensures multiset(rows) == multiset(Others(rows, i)) + multiset{rows[i]}
  {
    assert rows == rows[..i] + [rows[i]] + rows[i + 1..];
  }

  /** A row that has come out and the row being served are different roots. */
  lemma OutApart(s0: State, p0: nat, c: Config, i: nat, r: Row)
    requires Decides(s0, p0, c) && i < |c.waiting| && (r in c.erased || r in c.stored)
    ensures Root(c.net.heap, c.net.rank, r.slot) && r.slot != c.waiting[i].slot
  {
    var rows := Rows(c);
    assert c.waiting[i] in multiset(c.waiting) && (r in multiset(c.erased) || r in multiset(c.stored));
    assert RowAlone(c.net, rows, r) && RowAlone(c.net, rows, c.waiting[i]);
  }

  lemma PeelDecides(s0: State, p0: nat, c: Config, slots: seq<nat>, mid: State, c': Config)
    requires Decides(s0, p0, c) && Turn(c, slots, mid, c')
    requires Wrapped(c.net, c.waiting[NextTask(c.waiting)].slot)
    ensures Decides(s0, p0, c')
  {
    var i := NextTask(c.waiting);
    var row := c.waiting[i];
    var (t, x) := Peeled(c.net, row);
    Served(c.waiting, i);
    TablePeels(s0, p0, c.net, Rows(c), row);
    assert Rows(c') == Rows(c) - multiset{row} + multiset{x};
    forall r | r in c.erased || r in c.stored ensures Kept(c.net, t, r.slot) {
      OutApart(s0, p0, c, i, r);
      PeelKeeps(c.net, row, r.slot);
    }
    SortedKept(c, t);
  }

  /** What the interactions of a turn leave behind. */
  lemma RunDecides(s0: State, p0: nat, c: Config, slots: seq<nat>, mid: State, i: nat)
    requires Decides(s0, p0, c) && Run(c.net, slots, mid) && i < |c.waiting|
    ensures Decides(s0, p0, c.(net := mid))
  {
    assert c.waiting[i] in Rows(c);
    TableRuns(s0, p0, c.net, Rows(c), slots, mid, c.waiting[i]);
    forall r | r in c.erased || r in c.stored ensures Kept(c.net, mid, r.slot) {
      OutApart(s0, p0, c, i, r);
      RunKept(c.net, slots, mid, r.slot);
    }
    SortedKept(c, mid);
  }

  lemma ForkDecides(s0: State, p0: nat, c: Config, i: nat, lab: Label, b: nat)
    requires Decides(s0, p0, c) && i < |c.waiting| && Forked(c.net, c.waiting[i].slot)
    requires c.net.heap[c.waiting[i].slot].term == Sup(lab, b)
    ensures Decides(s0, p0, Settle(c, Others(c.waiting, i), c.waiting[i], c.net))
  {
    var (row, c') := (c.waiting[i], Settle(c, Others(c.waiting, i), c.waiting[i], c.net));
    var (x, y) := (Branches(row, lab, b)[0], Branches(row, lab, b)[1]);
    Served(c.waiting, i);
    assert x.slot != y.slot && Branches(row, lab, b) == [x, y];
    assert Rows(c') == Rows(c) - multiset{row} + multiset{x, y};
    TableForks(s0, p0, c.net, Rows(c), row, lab, b, Rows(c'));
    forall r | r in c.erased || r in c.stored ensures Kept(c.net, c'.net, r.slot) {
      OutApart(s0, p0, c, i, r);
      OtherRoot(c.net, row.slot, c'.net, b, r.slot);
    }
    SortedKept(c, c'.net);
  }

  /** A row that has been served and put elsewhere is still there. */
  lemma OutRows(waiting: seq<Row>, i: nat, stored: seq<Row>, erased: seq<Row>)
    requires i < |waiting|
    ensures var (row, rest, all) := (waiting[i], Others(waiting, i),
                                     multiset(waiting) + multiset(stored) + multiset(erased));
      multiset(rest) + multiset(stored + [row]) + multiset(erased) == all &&
      multiset(rest) + multiset(stored) + multiset(erased + [row]) == all
  {
    Served(waiting, i);
  }

  lemma OutSorted(c: Config, row: Row, c': Config)
    requires Sorted(c) && c'.net == c.net
    requires (c'.erased == c.erased + [row] && c'.stored == c.stored && Selects(c.net, row.slot, true)) ||
      (c'.erased == c.erased && c'.stored == c.stored + [row] && Selects(c.net, row.slot, false))
    ensures Sorted(c')
  {
  }

  lemma OutDecides(s0: State, p0: nat, c: Config, i: nat)
    requires Decides(s0, p0, c) && i < |c.waiting| && Normal(c.net, c.waiting[i].slot)
    requires !c.net.heap[c.waiting[i].slot].term.Sup?
    ensures Decides(s0, p0, Settle(c, Others(c.waiting, i), c.waiting[i], c.net))
  {
    var (row, c') := (c.waiting[i], Settle(c, Others(c.waiting, i), c.waiting[i], c.net));
    NormalSelects(c.net, row.slot);
    OutRows(c.waiting, i, c.stored, c.erased);
    OutSorted(c, row, c');
    assert Rows(c') == Rows(c);
  }

  lemma SettleDecides(s0: State, p0: nat, c: Config, i: nat)
    requires Decides(s0, p0, c) && i < |c.waiting| && Normal(c.net, c.waiting[i].slot)
    ensures Decides(s0, p0, Settle(c, Others(c.waiting, i), c.waiting[i], c.net))
  {
    var t := c.net.heap[c.waiting[i].slot].term;
    if t.Sup? { ForkDecides(s0, p0, c, i, t.lab, t.loc); } else { OutDecides(s0, p0, c, i); }
  }

  /** A turn of the loop keeps the table. */
  lemma TurnDecides(s0: State, p0: nat, c: Config, slots: seq<nat>, mid: State, c': Config)
    requires Decides(s0, p0, c) && Turn(c, slots, mid, c')
    ensures Decides(s0, p0, c')
  {
    var i := NextTask(c.waiting);
    if Wrapped(c.net, c.waiting[i].slot) {
      PeelDecides(s0, p0, c, slots, mid, c');
    } else {
      RunDecides(s0, p0, c, slots, mid, i);
      SettleDecides(s0, p0, c.(net := mid), i);
    }
  }

  ghost predicate NextTurn(c: Config, c': Config) { exists slots, mid :: Turn(c, slots, mid, c') }

  lemma NextDecides(s0: State, p0: nat, c: Config, c': Config)
    requires Decides(s0, p0, c) && NextTurn(c, c')
    ensures Decides(s0, p0, c')
  {
    var slots, mid :| Turn(c, slots, mid, c');
    TurnDecides(s0, p0, c, slots, mid, c');
  }

  /** The turns of one ordered collapse, each with some schedule of the reducer. */
  ghost predicate IsRun(s: State, p: nat, cs: seq<Config>) {
    cs != [] && cs[0] == Start(s, p) && forall k {:trigger cs[k]} :: 0 < k < |cs| ==> NextTurn(cs[k - 1], cs[k])
  }

  lemma StartDecides(s: State, p: nat)
    requires Rooted(s, p)
    ensures Decides(s, p, Start(s, p))
  {
    var (c, row) := (Start(s, p), Start(s, p).waiting[0]);
    RootedNow(s, p);
    assert Rows(c) == multiset{row};
    assert RowAlone(s, Rows(c), row);
    forall env: Env ensures PicksOne(s, p, env, s, Rows(c)) {
      SameMeaningSelf(s, p, env);
      assert Chosen(s, p, env, s, row);
    }
  }

  /** At every moment of an ordered collapse each environment leads to exactly one row,
      and that row's slot holds the value the collapsed word selects. */
  lemma {:induction false} OrderedDecides(s: State, p: nat, cs: seq<Config>, k: nat)
    requires Rooted(s, p) && IsRun(s, p, cs) && k < |cs|
    ensures Decides(s, p, cs[k])
  {
    if k == 0 {
      StartDecides(s, p);
    } else {
      OrderedDecides(s, p, cs, k - 1);
      NextDecides(s, p, cs[k - 1], cs[k]);
    }
  }

  /** The environment leads to exactly one stored result, which holds the value that slot p
      of s selects, or to none, exactly when that value is an erasure. */
  ghost predicate Answered(s: State, p: nat, env: Env, c: Config) {
    Rooted(s, p) && RankedAt(s.heap, s.rank, p) &&
    if Meaning(s.heap, s.rank, s.heap[p].term, env) == VEra then forall r :: r in c.stored ==> !Follows(env, r.path)
    else PicksOne(s, p, env, c.net, multiset(c.stored))
  }

  /** Who is led to a row selects an erasure exactly when the row does. */
  lemma ChosenSelects(s: State, p: nat, env: Env, t: State, r: Row, erasure: bool)
    requires Chosen(s, p, env, t, r) && Selects(t, r.slot, erasure)
    ensures Ranked(s.heap, s.rank) && RankedAt(s.heap, s.rank, p)
    ensures Meaning(s.heap, s.rank, s.heap[p].term, env) == VEra <==> erasure
  {
  }

  lemma AnswerFrom(s: State, p: nat, env: Env, c: Config)
    requires Rooted(s, p) && Decides(s, p, c) && c.waiting == []
    ensures Answered(s, p, env, c)
  {
    var (t, rows, stored) := (c.net, Rows(c), multiset(c.stored));
    assert PicksOne(s, p, env, t, rows);
    var r :| r in rows && Chosen(s, p, env, t, r) && forall q :: q in rows && Follows(env, q.path) ==> q == r;
    assert forall q :: q in stored ==> q in rows;
    if r in stored {
      assert r in c.stored;
      ChosenSelects(s, p, env, t, r, false);
      assert PicksOne(s, p, env, t, stored);
    } else {
      assert r in c.erased;
      ChosenSelects(s, p, env, t, r, true);
    }
  }

  /** When the queue is empty the stored results answer every environment. */
  lemma OrderedAnswers(s: State, p: nat, cs: seq<Config>, env: Env)
    requires Rooted(s, p) && IsRun(s, p, cs) && cs[|cs| - 1].waiting == []
    ensures Answered(s, p, env, cs[|cs| - 1])
  {
    OrderedDecides(s, p, cs, |cs| - 1);
    AnswerFrom(s, p, env, cs[|cs| - 1]);
  }

  // ------------------------------------------------------------ the collapse ends

  ghost function LoadsNow(s: State): Loads
    requires Ranked(s.heap, s.rank)
  {
    Termination.LoadsOf(s.heap, s.rank)
  }

  /** Taking a root apart lowers the weights of the net. */
  lemma ReleaseLowers(s: State, p: nat)
    requires Rooted(s, p)
    ensures Sound(Released(s, p)) && Lowers(LoadsNow(Released(s, p)), LoadsNow(s))
  {
    var t := Released(s, p);
    ReleasedSound(s, p);
    var (m', m) := (LoadsNow(t), LoadsNow(s));
    forall c | c in m' ensures c in m && c != p && NoMore(m'[c], m[c]) {
      Live(s.heap, s.rank, c);
      Live(t.heap, t.rank, c);
      WeightOfHeap(s.heap, s.rank, t.rank, s.heap[c].term);
    }
    assert LowersAt(m', m, p);
  }

  /** A lowering makes the remaining sequences end sooner. */
  lemma SoonerAfter(o: ORDINAL, m: Loads, m': Loads) returns (o': ORDINAL)
    requires Ends#[o](m) && Lowers(m', m)
    ensures o' < o && Ends#[o'](m')
    decreases o
  {
    if o.IsLimit {
      var o1 :| o1 < o && Ends#[o1](m);
      o' := SoonerAfter(o1, m, m');
    } else {
      o' := o - 1;
    }
  }

  lemma {:induction false} SoonerRun(o: ORDINAL, s: State, slots: seq<nat>, s': State) returns (o': ORDINAL)
    requires Sound(s) && Run(s, slots, s') && Ends#[o](LoadsNow(s))
    ensures Sound(s') && o' <= o && Ends#[o'](LoadsNow(s'))
    decreases |slots|
  {
    o' := o;
    if slots != [] {
      var p := slots[0];
      var s1 := State(Rules.Step(s.heap, p), StepRank(s.heap, s.rank, p));
      if Rules.RuleOf(s.heap, s.heap[p].term) == Rules.Blocked {
        assert s1 == s;
      } else {
        Termination.FiringLowers(s, p, s1);
        o' := SoonerAfter(o, LoadsNow(s), LoadsNow(s1));
      }
      o' := SoonerRun(o', s1, slots[1..], s');
    }
  }

  lemma {:induction false} SoonerPeel(o: ORDINAL, s: State, row: Row) returns (o': ORDINAL)
    requires Wrapped(s, row.slot) && Ends#[o](LoadsNow(s))
    ensures o' < o && Ends#[o'](LoadsNow(Peeled(s, row).0))
    decreases s.rank[row.slot]
  {
    var (t, x) := (Released(s, row.slot), Unwrapped(s, row));
    UnwrappedRoot(s, row.slot);
    ReleaseLowers(s, row.slot);
    var o1 := SoonerAfter(o, LoadsNow(s), LoadsNow(t));
    assert Peeled(s, row) == Peeled(t, x);
    if Wrapped(t, x.slot) {
      o' := SoonerPeel(o1, t, x);
    } else {
      o' := o1;
      assert Peeled(t, x) == (t, x);
    }
  }

  /** A turn of the loop lowers the net, or else shortens the queue. */
  lemma TurnDescends(o: ORDINAL, c: Config, slots: seq<nat>, mid: State, c': Config) returns (o': ORDINAL)
    requires Sound(c.net) && Turn(c, slots, mid, c') && Ends#[o](LoadsNow(c.net))
    ensures Sound(c'.net) && o' <= o && Ends#[o'](LoadsNow(c'.net))
    ensures o' == o ==> |c'.waiting| < |c.waiting|
  {
    var row := c.waiting[NextTask(c.waiting)];
    if Wrapped(c.net, row.slot) {
      o' := SoonerPeel(o, c.net, row);
    } else {
      o' := SoonerRun(o, c.net, slots, mid);
      if mid.heap[row.slot].term.Sup? {
        ReleaseLowers(mid, row.slot);
        o' := SoonerAfter(o', LoadsNow(mid), LoadsNow(c'.net));
      }
    }
  }

  ghost predicate TurnsNext(cs: nat -> Config, i: nat) { NextTurn(cs(i), cs(i + 1)) }

  lemma {:induction false} NoEndlessTurns(o: ORDINAL, cs: nat -> Config, n: nat)
    requires Sound(cs(n).net) && Ends#[o](LoadsNow(cs(n).net))
    requires forall i: nat {:trigger TurnsNext(cs, i)} :: TurnsNext(cs, i)
    ensures false
    decreases o, |cs(n).waiting|
  {
    assert TurnsNext(cs, n);
    var slots, mid :| Turn(cs(n), slots, mid, cs(n + 1));
    var o' := TurnDescends(o, cs(n), slots, mid, cs(n + 1));
    NoEndlessTurns(o', cs, n + 1);
  }

  /** The loop of the ordered collapse ends, however the reducer is scheduled. */
  lemma OrderedEnds(cs: nat -> Config)
    ensures exists i: nat {:trigger TurnsNext(cs, i)} :: !TurnsNext(cs, i)
  {
    if forall i: nat {:trigger TurnsNext(cs, i)} :: TurnsNext(cs, i) {
      assert TurnsNext(cs, 0);
      AllEnd(LoadsNow(cs(0).net));
      var o: ORDINAL :| Ends#[o](LoadsNow(cs(0).net));
      NoEndlessTurns(o, cs, 0);
    }
  }

  /** The served task is in a root of a sound net. */
  lemma ServedRoot(s0: State, p0: nat, c: Config, i: nat)
    requires Decides(s0, p0, c) && i < |c.waiting|
    ensures Rooted(c.net, c.waiting[i].slot)
  {
    assert c.waiting[i] in Rows(c);
    assert RowAlone(c.net, Rows(c), c.waiting[i]);
  }

  lemma PeelTurn(c: Config) returns (c': Config)
    requires c.waiting != [] && Wrapped(c.net, c.waiting[NextTask(c.waiting)].slot)
    ensures Turn(c, [], c.net, c')
  {
    var i := NextTask(c.waiting);
    var (t, x) := Peeled(c.net, c.waiting[i]);
    c' := Config(t, Others(c.waiting, i) + [x], c.stored, c.erased);
  }

  lemma TurnFrom(s0: State, p0: nat, c: Config) returns (slots: seq<nat>, mid: State, c': Config)
    requires Decides(s0, p0, c) && c.waiting != []
    ensures var slot := c.waiting[NextTask(c.waiting)].slot;
      Turn(c, slots, mid, c') || (Termination.Reduces(c.net, slots, mid, slot) && !Normal(mid, slot))
  {
    var i := NextTask(c.waiting);
    var slot := c.waiting[i].slot;
    ServedRoot(s0, p0, c, i);
    slots, mid, c' := [], c.net, c;
    if Wrapped(c.net, slot) {
      c' := PeelTurn(c);
    } else {
      slots, mid := Termination.ReducerEnds(c.net, slot);
      if Normal(mid, slot) {
        Termination.ReducesRuns(c.net, slots, mid, slot);
        c' := Settle(c, Others(c.waiting, i), c.waiting[i], mid);
      }
    }
  }

  /** While tasks wait there is a next turn, by the reducer's own run, unless that run meets
      a shared left operand. */
  lemma OrderedNeverStuck(s: State, p: nat, cs: seq<Config>) returns (slots: seq<nat>, mid: State, c': Config)
    requires Rooted(s, p) && IsRun(s, p, cs) && cs[|cs| - 1].waiting != []
    ensures var c := cs[|cs| - 1];
      var slot := c.waiting[NextTask(c.waiting)].slot;
      Turn(c, slots, mid, c') || (Termination.Reduces(c.net, slots, mid, slot) && !Normal(mid, slot))
  {
    OrderedDecides(s, p, cs, |cs| - 1);
    slots, mid, c' := TurnFrom(s, p, cs[|cs| - 1]);
  }
}
