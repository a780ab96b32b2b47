/** How many locations the shape table holds. */
module TableRoom {
  import opened Probing
  import opened ShapeTables

  /** The slots in use. */
  function Taken(keys: seq<nat>): set<nat> { set i: nat | i < |keys| && keys[i] > 0 }

  lemma {:induction false} SubsetSize(a: set<nat>, b: set<nat>)
    requires a <= b
    ensures |a| <= |b|
  {
    if a != {} {
      var x :| x in a;
      SubsetSize(a - {x}, b - {x});
    }
  }

  /** The slots of the first n probes. */
  function Window(size: nat, h: nat, n: nat): (s: set<nat>)
    requires h < size && n <= size
  {
    if n == 0 then {} else Window(size, h, n - 1) + {At(size, h, n - 1)}
  }

  lemma {:induction false} InWindow(size: nat, h: nat, n: nat, i: nat)
    requires h < size && n <= size && i in Window(size, h, n)
    ensures exists p: nat :: p < n && At(size, h, p) == i
  {
    if i in Window(size, h, n - 1) { InWindow(size, h, n - 1, i); }
  }

  lemma {:induction false} WindowSize(size: nat, h: nat, n: nat)
    requires h < size && n <= size
    ensures |Window(size, h, n)| == n
  {
    if n > 0 {
      WindowSize(size, h, n - 1);
      if At(size, h, n - 1) in Window(size, h, n - 1) { InWindow(size, h, n - 1, At(size, h, n - 1)); }
    }
  }

  /** Probes that are passed over meet used slots. */
  lemma {:induction false} PassedOver(keys: seq<nat>, w: nat, h: nat, k: nat, p: nat, j: nat)
    requires h < |keys| && p <= j < w <= |keys| && ProbeFrom(keys, w, h, k, p) == w
    ensures keys[At(|keys|, h, j)] > 0
    decreases w - p
  {
    if p < j { PassedOver(keys, w, h, k, p + 1, j); }
  }

  /** With fewer than sixteen slots in use there is room for every location. */
  lemma RoomLeft(keys: seq<nat>, loc: nat)
    requires |keys| == SIZE && |Taken(keys)| < 16
    ensures Probe(keys, loc) < PROBES
  {
    if Probe(keys, loc) == PROBES {
      var w := Window(SIZE, Home(loc), PROBES);
      WindowSize(SIZE, Home(loc), PROBES);
      forall i | i in w ensures i in Taken(keys) {
        InWindow(SIZE, Home(loc), PROBES, i);
        var p: nat :| p < PROBES && At(SIZE, Home(loc), p) == i;
        PassedOver(keys, PROBES, Home(loc), loc + 1, 0, p);
      }
      SubsetSize(w, Taken(keys));
    }
  }

  lemma {:induction false} TakenBound<V>(blank: V, stores: seq<Store<V>>)
    ensures |Taken(After(blank, stores).keys)| <= |stores|
  {
    if stores == [] {
      assert Taken(After(blank, stores).keys) == {};
    } else {
      var (earlier, s) := (stores[..|stores| - 1], stores[|stores| - 1]);
      TakenBound(blank, earlier);
      var keys := After(blank, earlier).keys;
      SubsetSize(Taken(After(blank, stores).keys), Taken(keys) + {Target(keys, s.loc)});
    }
  }

  /** Sixteen stores are never too many, whatever their locations: a lookup finds the last
      tracker stored for its location. */
  lemma {:induction false} SixteenNeverLost<V>(blank: V, stores: seq<Store<V>>, loc: nat)
    requires |stores| <= 16
    ensures Lookup(After(blank, stores), loc) == LastFor(stores, loc)
  {
    if stores != [] {
      var (earlier, s) := (stores[..|stores| - 1], stores[|stores| - 1]);
      SixteenNeverLost(blank, earlier, loc);
      AfterInv(blank, earlier);
      TakenBound(blank, earlier);
      RoomLeft(After(blank, earlier).keys, s.loc);
      LookupAfterStore(After(blank, earlier), s.loc, s.val, loc);
    }
  }

  // ----------------------------------------------------------------- the seventeenth

  /** Stores for n locations with one home slot. */
  function Crowd<V>(v: V, n: nat): (stores: seq<Store<V>>)
    ensures |stores| == n
  {
    if n == 0 then [] else Crowd(v, n - 1) + [Store((n - 1) * 0x40000, v)]
  }

  function CrowdKeys(n: nat): (keys: seq<nat>)
    ensures |keys| == SIZE
  {
    seq(SIZE, i requires 0 <= i < SIZE => if i < n then i * 0x40000 + 1 else 0)
  }

  lemma CrowdHome(n: nat)
    ensures Home(n * 0x40000) == 0
  {
  }

  lemma {:induction false} CrowdProbe(n: nat, p: nat)
    requires p <= n <= PROBES
    ensures ProbeFrom(CrowdKeys(n), PROBES, 0, n * 0x40000 + 1, p) == n
    decreases n - p
  {
    if p < n {
      assert CrowdKeys(n)[p] == p * 0x40000 + 1;
      CrowdProbe(n, p + 1);
    }
  }

  lemma CrowdStored<V>(t: Table<V>, v: V, n: nat, m: nat)
    requires n < PROBES && m == n + 1 && Shaped(t) && t.keys == CrowdKeys(n)
    ensures Stored(t, n * 0x40000, v).keys == CrowdKeys(m)
  {
    CrowdHome(n);
    CrowdProbe(n, 0);
    assert Slot(n * 0x40000, n) == n;
    assert CrowdKeys(m) == CrowdKeys(n)[n := n * 0x40000 + 1];
  }

  lemma AfterOne<V>(blank: V, stores: seq<Store<V>>, s: Store<V>)
    ensures After(blank, stores + [s]) == Stored(After(blank, stores), s.loc, s.val)
  {
    assert (stores + [s])[..|stores|] == stores;
  }

  lemma CrowdStart<V>(blank: V, v: V)
    ensures After(blank, Crowd(v, 0)).keys == CrowdKeys(0)
  {
  }

  lemma {:induction false} CrowdAfter<V>(blank: V, v: V, n: nat)
    requires n <= PROBES
    ensures After(blank, Crowd(v, n)).keys == CrowdKeys(n)
  {
    if n == 0 {
      CrowdStart(blank, v);
    } else {
      CrowdAfter(blank, v, n - 1);
      AfterOne(blank, Crowd(v, n - 1), Store((n - 1) * 0x40000, v));
      CrowdStored(After(blank, Crowd(v, n - 1)), v, n - 1, n);
    }
  }

  /** The seventeenth location with one home slot pushes the first one out. */
  lemma SeventeenthPushes<V>(blank: V, v: V)
    ensures Lookup(After(blank, Crowd(v, 17)), 0) == None && Lookup(After(blank, Crowd(v, 16)), 0) == Some(v)
  {
    CrowdAfter(blank, v, 16);
    CrowdHome(16);
    CrowdProbe(16, 0);
    AfterOne(blank, Crowd(v, 16), Store(16 * 0x40000, v));
    AfterInv(blank, Crowd(v, 16));
    LookupAfterStore(After(blank, Crowd(v, 16)), 16 * 0x40000, v, 0);
    SixteenNeverLost(blank, Crowd(v, 16), 0);
    FirstStored(v, 16);
  }

  lemma {:induction false} FirstStored<V>(v: V, n: nat)
    requires n > 0
    ensures LastFor(Crowd(v, n), 0) == Some(v)
  {
    if n > 1 {
      FirstStored(v, n - 1);
      assert Crowd(v, n)[..n - 1] == Crowd(v, n - 1);
    }
  }
}
