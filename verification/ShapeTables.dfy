/** The shape table: trackers of lazy nodes by heap location. */
module ShapeTables {
  import opened Probing

  const SIZE: nat := 0x40000
  const PROBES: nat := 16

  datatype Option<V> = None | Some(value: V)

  /** keys[i] is a location plus one, or zero for a slot never used. */
  datatype Table<V> = Table(keys: seq<nat>, vals: seq<V>)

  function Home(loc: nat): (h: nat) ensures h < SIZE { loc % SIZE }

  function Probe(keys: seq<nat>, loc: nat): (q: nat)
    requires |keys| == SIZE
    ensures q <= PROBES && (q < PROBES ==> keys[Slot(loc, q)] == 0 || keys[Slot(loc, q)] == loc + 1)
  {
    ProbeFrom(keys, PROBES, Home(loc), loc + 1, 0)
  }

  function Slot(loc: nat, p: nat): (i: nat)
    requires p <= PROBES
    ensures i < SIZE
  {
    At(SIZE, Home(loc), p)
  }

  ghost predicate Shaped<V>(t: Table<V>) { |t.keys| == SIZE && |t.vals| == SIZE }

  /** The slot a store writes: the one probed, or the home slot when all are taken. */
  function Target(keys: seq<nat>, loc: nat): (i: nat)
    requires |keys| == SIZE
    ensures i < SIZE
  {
    var p := Probe(keys, loc);
    if p < PROBES then Slot(loc, p) else Home(loc)
  }

  function Stored<V>(t: Table<V>, loc: nat, v: V): (r: Table<V>)
    requires Shaped(t)
    ensures Shaped(r)
  {
    var i := Target(t.keys, loc);
    Table(t.keys[i := loc + 1], t.vals[i := v])
  }

  function Lookup<V>(t: Table<V>, loc: nat): Option<V>
    requires Shaped(t)
  {
    var p := Probe(t.keys, loc);
    if p < PROBES && t.keys[Slot(loc, p)] == loc + 1 then Some(t.vals[Slot(loc, p)]) else None
  }

  // ------------------------------------------------------------- the invariant

  /** Probing for the location in slot i leads to slot i. */
  ghost predicate Reached(keys: seq<nat>, i: nat) {
    |keys| == SIZE && i < SIZE &&
    (keys[i] > 0 ==>
       var p := Probe(keys, keys[i] - 1);
       p < PROBES && Slot(keys[i] - 1, p) == i)
  }

  ghost predicate Inv<V>(t: Table<V>) {
    Shaped(t) && forall i {:trigger Reached(t.keys, i)} :: 0 <= i < SIZE ==> Reached(t.keys, i)
  }

  /** A location is in at most one slot, and that is where a lookup finds it. */
  lemma LookupFinds<V>(t: Table<V>, loc: nat, i: nat)
    requires Inv(t) && i < SIZE && t.keys[i] == loc + 1
    ensures Lookup(t, loc) == Some(t.vals[i]) && Probe(t.keys, loc) < PROBES && Target(t.keys, loc) == i
  {
    assert Reached(t.keys, i);
  }

  lemma StoredReaches(keys: seq<nat>, loc: nat, i: nat)
    requires |keys| == SIZE && i == Target(keys, loc)
    ensures Reached(keys[i := loc + 1], i)
  {
    if Probe(keys, loc) < PROBES {
      OwnProbe(keys, PROBES, i, Home(loc), loc + 1, 0);
    } else {
      assert Probe(keys[i := loc + 1], loc) == 0;
    }
  }

  /** Another location's slot is reached as before. */
  lemma StillReached(keys: seq<nat>, i: nat, loc: nat, j: nat)
    requires |keys| == SIZE && i < SIZE && j < SIZE && j != i && keys[j] != loc + 1 && Reached(keys, j)
    ensures Reached(keys[i := loc + 1], j)
  {
    if keys[j] > 0 { SameProbe(keys, PROBES, i, loc + 1, Home(keys[j] - 1), keys[j], 0); }
  }

  /** A store keeps the invariant: no location is ever in two slots. */
  lemma StoredKeeps<V>(t: Table<V>, loc: nat, v: V)
    requires Inv(t)
    ensures Inv(Stored(t, loc, v))
  {
    var (i, keys') := (Target(t.keys, loc), Stored(t, loc, v).keys);
    forall j | 0 <= j < SIZE ensures Reached(keys', j) {
      if j == i {
        StoredReaches(t.keys, loc, i);
      } else {
        if t.keys[j] == loc + 1 { LookupFinds(t, loc, j); }
        assert Reached(t.keys, j);
        StillReached(t.keys, i, loc, j);
      }
    }
  }

  /** The store of v for loc pushes other out of the table. */
  predicate Evicts(keys: seq<nat>, loc: nat, other: nat)
    requires |keys| == SIZE
  {
    Probe(keys, loc) == PROBES && keys[Home(loc)] == other + 1
  }

  lemma Held<V>(t: Table<V>, loc: nat) returns (i: nat)
    requires Inv(t) && Lookup(t, loc) != None
    ensures i < SIZE && t.keys[i] == loc + 1 && Lookup(t, loc) == Some(t.vals[i])
  {
    i := Slot(loc, Probe(t.keys, loc));
  }

  /** What lookups find after a store: the tracker just stored, nothing for the
      location pushed out, and for every other location what they found before. */
  lemma LookupAfterStore<V>(t: Table<V>, loc: nat, v: V, other: nat)
    requires Inv(t)
    ensures Lookup(Stored(t, loc, v), other) ==
      if other == loc then Some(v) else if Evicts(t.keys, loc, other) then None else Lookup(t, other)
  {
    var (t', i) := (Stored(t, loc, v), Target(t.keys, loc));
    StoredKeeps(t, loc, v);
    if other == loc {
      LookupFinds(t', loc, i);
    } else if Lookup(t', other) != None {
      var j := Held(t', other);
      LookupFinds(t, other, j);
      if Evicts(t.keys, loc, other) { LookupFinds(t, other, i); }
    } else if Lookup(t, other) != None {
      var j := Held(t, other);
      if j != i { LookupFinds(t', other, j); }
    }
  }

  // --------------------------------------------------------- sequences of stores

  datatype Store<V> = Store(loc: nat, val: V)

  function Empty<V>(blank: V): (t: Table<V>)
    ensures Shaped(t)
  {
    Table(seq(SIZE, _ => 0), seq(SIZE, _ => blank))
  }

  function After<V>(blank: V, stores: seq<Store<V>>): (t: Table<V>)
    ensures Shaped(t)
  {
    if stores == [] then Empty(blank)
    else Stored(After(blank, stores[..|stores| - 1]), stores[|stores| - 1].loc, stores[|stores| - 1].val)
  }

  /** The last tracker stored for loc. */
  function LastFor<V>(stores: seq<Store<V>>, loc: nat): Option<V> {
    if stores == [] then None
    else if stores[|stores| - 1].loc == loc then Some(stores[|stores| - 1].val)
    else LastFor(stores[..|stores| - 1], loc)
  }

  /** The last store for loc has not been pushed out by a later store. */
  predicate Survives<V>(blank: V, stores: seq<Store<V>>, loc: nat) {
    stores != [] &&
    var (earlier, s) := (stores[..|stores| - 1], stores[|stores| - 1]);
    s.loc == loc || (Survives(blank, earlier, loc) && !Evicts(After(blank, earlier).keys, s.loc, loc))
  }

  lemma {:induction false} AfterInv<V>(blank: V, stores: seq<Store<V>>)
    ensures Inv(After(blank, stores))
  {
    if stores != [] {
      AfterInv(blank, stores[..|stores| - 1]);
      StoredKeeps(After(blank, stores[..|stores| - 1]), stores[|stores| - 1].loc, stores[|stores| - 1].val);
    }
  }

  /** After any sequence of stores a lookup finds the last tracker stored for its
      location, or nothing, and nothing exactly when that store was pushed out. */
  lemma {:induction false} LastOrNothing<V>(blank: V, stores: seq<Store<V>>, loc: nat)
    ensures Lookup(After(blank, stores), loc) == if Survives(blank, stores, loc) then LastFor(stores, loc) else None
    ensures Survives(blank, stores, loc) ==> LastFor(stores, loc) != None
  {
    if stores != [] {
      var (earlier, s) := (stores[..|stores| - 1], stores[|stores| - 1]);
      AfterInv(blank, earlier);
      LastOrNothing(blank, earlier, loc);
      LookupAfterStore(After(blank, earlier), s.loc, s.val, loc);
    }
  }

  // ------------------------------------------------------ locations below the size

  /** Every slot is unused or holds the location with its own number. */
  ghost predicate AtHome(keys: seq<nat>) {
    |keys| == SIZE && forall i {:trigger keys[i]} :: 0 <= i < SIZE ==> keys[i] == 0 || keys[i] == i + 1
  }

  lemma HomeProbe(keys: seq<nat>, loc: nat)
    requires AtHome(keys) && loc < SIZE
    ensures Home(loc) == loc && Probe(keys, loc) == 0 && Target(keys, loc) == loc
  {
    ProbeStops(keys, PROBES, loc, loc + 1);
  }

  lemma ProbeStops(keys: seq<nat>, w: nat, h: nat, k: nat)
    requires h < |keys| && 0 < w <= |keys| && (keys[h] == 0 || keys[h] == k)
    ensures At(|keys|, h, 0) == h && ProbeFrom(keys, w, h, k, 0) == 0
  {
  }

  lemma {:induction false} SmallAtHome<V>(blank: V, stores: seq<Store<V>>)
    requires forall i :: 0 <= i < |stores| ==> stores[i].loc < SIZE
    ensures AtHome(After(blank, stores).keys)
  {
    if stores != [] {
      SmallAtHome(blank, stores[..|stores| - 1]);
      HomeProbe(After(blank, stores[..|stores| - 1]).keys, stores[|stores| - 1].loc);
    }
  }

  /** While all locations are below the size of the table nothing is ever pushed out: a
      lookup finds the last tracker stored for its location. */
  lemma {:induction false} SmallNeverLost<V>(blank: V, stores: seq<Store<V>>, loc: nat)
    requires loc < 0x40000 && forall i :: 0 <= i < |stores| ==> stores[i].loc < 0x40000
    ensures Lookup(After(blank, stores), loc) == LastFor(stores, loc)
  {
    if stores != [] {
      var (earlier, s) := (stores[..|stores| - 1], stores[|stores| - 1]);
      SmallNeverLost(blank, earlier, loc);
      SmallAtHome(blank, earlier);
      HomeProbe(After(blank, earlier).keys, s.loc);
      AfterInv(blank, earlier);
      LookupAfterStore(After(blank, earlier), s.loc, s.val, loc);
    }
  }

  /** What meeting an unused slot or the location at probe p says about a lookup. */
  lemma LookupStops<V>(t: Table<V>, loc: nat, h: nat, p: nat, i: nat)
    requires Shaped(t) && h == Home(loc) && p < PROBES && i == At(SIZE, h, p)
    requires Probe(t.keys, loc) == ProbeFrom(t.keys, PROBES, h, loc + 1, p)
    ensures t.keys[i] == loc + 1 ==> Lookup(t, loc) == Some(t.vals[i])
    ensures t.keys[i] == 0 ==> Lookup(t, loc) == None
  {
  }

  /** What meeting them says about a store, and where a store goes after all probes. */
  lemma StoreStops<V>(t: Table<V>, loc: nat, v: V, h: nat, p: nat, i: nat)
    requires Shaped(t) && h == Home(loc) && p <= PROBES && i == (if p < PROBES then At(SIZE, h, p) else h)
    requires Probe(t.keys, loc) == ProbeFrom(t.keys, PROBES, h, loc + 1, p)
    requires p < PROBES ==> t.keys[i] == 0 || t.keys[i] == loc + 1
    ensures Stored(t, loc, v) == Table(t.keys[i := loc + 1], t.vals[i := v])
  {
  }

  // ---------------------------------------------------------------- the arrays

  class ShapeTable<V> {
    const keys: array<nat>
    const trackers: array<V>

    ghost predicate Valid() {
      keys.Length == SIZE && trackers.Length == SIZE && (keys as object) != (trackers as object)
    }

    ghost function Contents(): (t: Table<V>)
      reads keys, trackers
      requires Valid()
      ensures Shaped(t)
    {
      Table(keys[..], trackers[..])
    }

    constructor (blank: V)
      ensures Valid() && fresh(keys) && fresh(trackers) && Contents() == Empty(blank)
    {
      keys := new nat[SIZE](_ => 0);
      trackers := new V[SIZE](_ => blank);
    }

    method Write(i: nat, loc: nat, v: V)
      requires Valid() && i < SIZE
      modifies keys, trackers
      ensures Contents() == Table(old(Contents()).keys[i := loc + 1], old(Contents()).vals[i := v])
    {
      trackers[i] := v;
      keys[i] := loc + 1;
    }

    method SetTracker(loc: nat, v: V)
      requires Valid()
      modifies keys, trackers
      ensures Contents() == Stored(old(Contents()), loc, v)
    {
      ghost var was := Contents();
      var h, p := loc % SIZE, 0;
      while p < PROBES
        invariant p <= PROBES && Contents() == was
        invariant Probe(was.keys, loc) == ProbeFrom(was.keys, PROBES, h, loc + 1, p)
      {
        AtWraps(SIZE, h, p);
        var i := (h + p) % SIZE;
        assert keys[i] == was.keys[i];
        if keys[i] == 0 || keys[i] == loc + 1 {
          StoreStops(was, loc, v, h, p, i);
          Write(i, loc, v);
          return;
        }
        p := p + 1;
      }
      StoreStops(was, loc, v, h, p, h);
      Write(h, loc, v);
    }

    method GetTracker(loc: nat) returns (r: Option<V>)
      requires Valid()
      ensures r == Lookup(Contents(), loc)
    {
      ghost var was := Contents();
      var h, p := loc % SIZE, 0;
      while p < PROBES
        invariant p <= PROBES && Contents() == was && Probe(was.keys, loc) == ProbeFrom(was.keys, PROBES, h, loc + 1, p)
      {
        AtWraps(SIZE, h, p);
        var i := (h + p) % SIZE;
        assert keys[i] == was.keys[i] && trackers[i] == was.vals[i];
        LookupStops(was, loc, h, p, i);
        if keys[i] == loc + 1 { return Some(trackers[i]); }
        if keys[i] == 0 { return None; }
        p := p + 1;
      }
      return None;
    }
  }
}
