/** Maps from slots to weights cannot be lowered for ever, even though lowering one slot
    may bring in any number of new slots with smaller weights. */
module Descents {
  import opened Weights

  type Loads = map<nat, Weight>

  /** In m' a slot has at most the weight it has in m, or less than slot p had there; p
      itself is among the latter. */
  ghost predicate LowersAt(m': Loads, m: Loads, p: nat) {
    p in m && forall c {:trigger m'[c]} :: c in m' ==> (c in m && c != p && NoMore(m'[c], m[c])) || Less(m'[c], m[p])
  }

  ghost predicate Lowers(m': Loads, m: Loads) { exists p :: LowersAt(m', m, p) }

  /** Every sequence of lowerings that starts from m comes to an end. */
  least predicate Ends(m: Loads) {
    forall m' {:trigger Lowers(m', m)} :: Lowers(m', m) ==> Ends(m')
  }

  lemma EndsNext(m: Loads, m': Loads)
    requires Ends(m) && Lowers(m', m)
    ensures Ends(m')
  {
  }

  /** m0 has fewer slots than m, and no heavier ones. */
  ghost predicate Within(m0: Loads, m: Loads) {
    forall c {:trigger m0[c]} :: c in m0 ==> c in m && NoMore(m0[c], m[c])
  }

  lemma EndsWithin(m0: Loads, m: Loads)
    requires Ends(m) && Within(m0, m)
    ensures Ends(m0)
  {
    forall m' | Lowers(m', m0) ensures Ends(m') {
      var p :| LowersAt(m', m0, p);
      assert m0[p] == m0[p];
      assert LowersAt(m', m, p);
      EndsNext(m, m');
    }
  }

  /** Adding a slot of a weight below w does not matter. */
  ghost predicate Harmless(w: Weight) {
    forall m: Loads, k: nat, v: Weight {:trigger m[k := v], Less(v, w)} ::
      Less(v, w) && Ends(m) && k !in m ==> Ends(m[k := v])
  }

  /** Adding any number of slots of weights below w. */
  lemma {:induction false} AddMany(m: Loads, all: Loads, extra: set<nat>, w: Weight)
    requires Ends(m) && Harmless(w) && m.Keys !! extra && all.Keys == m.Keys + extra
    requires (forall c :: c in m ==> all[c] == m[c]) && forall c :: c in extra ==> Less(all[c], w)
    ensures Ends(all)
    decreases extra
  {
    if extra == {} {
      assert all == m;
    } else {
      var k :| k in extra;
      var m1 := m[k := all[k]];
      assert m.Keys !! extra && k !in m && Less(all[k], w);
      assert Ends(m1);
      AddMany(m1, all, extra - {k}, w);
    }
  }

  /** Lowering slot k itself, which was added to m with weight w. */
  lemma LowerAdded(m: Loads, k: nat, w: Weight, m': Loads)
    requires Ends(m) && k !in m && Harmless(w) && LowersAt(m', m[k := w], k)
    ensures Ends(m')
  {
    var kept := map c | c in m' && c in m && NoMore(m'[c], m[c]) :: m'[c];
    EndsWithin(kept, m);
    AddMany(kept, m', m'.Keys - kept.Keys, w);
  }

  /** What lowering another slot does to m, and to the slot k added to it. */
  lemma LowerOther(m: Loads, k: nat, w: Weight, m': Loads, p: nat)
    requires k !in m && LowersAt(m', m[k := w], p) && p != k
    ensures Lowers(map c | c in m' && c != k :: m'[c], m)
    ensures k in m' && !NoMore(m'[k], w) ==> Lowers(m', m)
  {
    var rest := map c | c in m' && c != k :: m'[c];
    assert LowersAt(rest, m, p);
    if k in m' && !NoMore(m'[k], w) { assert LowersAt(m', m, p); }
  }

  lemma EndsWhole(o: ORDINAL, m: Loads)
    requires Ends#[o](m)
    ensures Ends(m)
  {
  }

  /** By induction on how soon sequences that start from m end. */
  lemma {:induction false} AddOne(o: ORDINAL, m: Loads, k: nat, w: Weight)
    requires Ends#[o](m) && k !in m && Harmless(w)
    ensures Ends(m[k := w])
    decreases o, 1
  {
    if o.IsLimit {
      var o' :| o' < o && Ends#[o'](m);
      AddOne(o', m, k, w);
    } else {
      EndsWhole(o, m);
      forall m' {:trigger Lowers(m', m[k := w])} | Lowers(m', m[k := w]) ensures Ends(m') {
        var p :| LowersAt(m', m[k := w], p);
        if p == k {
          LowerAdded(m, k, w, m');
        } else {
          LowerOther(m, k, w, m', p);
          AddRest(o, m, k, w, m', map c | c in m' && c != k :: m'[c]);
        }
      }
    }
  }

  lemma AddRest(o: ORDINAL, m: Loads, k: nat, w: Weight, m': Loads, rest: Loads)
    requires o.IsSucc && Ends#[o](m) && k !in m && Harmless(w)
    requires rest == (map c | c in m' && c != k :: m'[c]) && Lowers(rest, m)
    requires k in m' && !NoMore(m'[k], w) ==> Lowers(m', m)
    ensures Ends(m')
    decreases o, 0
  {
    EndsWhole(o, m);
    EndsNext(m, rest);
    if k !in m' {
      assert m' == rest;
    } else if !NoMore(m'[k], w) {
      EndsNext(m, m');
    } else {
      assert m' == rest[k := m'[k]];
      if m'[k] == w {
        assert Ends#[o - 1](rest);
        AddOne(o - 1, rest, k, w);
      } else {
        assert Less(m'[k], w) && k !in rest;
        assert Ends(rest[k := m'[k]]);
      }
    }
  }

  /** By induction on the weight that is added. */
  lemma {:induction false} AddHarmless(m: Loads, k: nat, w: Weight)
    requires Ends(m) && k !in m
    ensures Ends(m[k := w])
    decreases w.mass, w.load
  {
    forall m0: Loads, k0: nat, v: Weight | Less(v, w) && Ends(m0) && k0 !in m0 ensures Ends(m0[k0 := v]) {
      AddHarmless(m0, k0, v);
    }
    var o: ORDINAL :| Ends#[o](m);
    AddOne(o, m, k, w);
  }

  /** Every sequence of lowerings ends, whatever it starts from. */
  lemma {:induction false} AllEnd(m: Loads)
    ensures Ends(m)
    decreases |m|
  {
    if m.Keys == {} {
      assert m == map[];
    } else {
      var k :| k in m.Keys;
      var rest := map c | c in m && c != k :: m[c];
      assert rest.Keys == m.Keys - {k};
      AllEnd(rest);
      AddHarmless(rest, k, m[k]);
      assert m == rest[k := m[k]];
    }
  }

  ghost predicate Descends(ms: nat -> Loads, n: nat) { Lowers(ms(n + 1), ms(n)) }

  lemma {:induction false} NoDescent(o: ORDINAL, ms: nat -> Loads, n: nat)
    requires Ends#[o](ms(n)) && forall i: nat {:trigger Descends(ms, i)} :: Descends(ms, i)
    ensures false
    decreases o
  {
    if o.IsLimit {
      var o' :| o' < o && Ends#[o'](ms(n));
      NoDescent(o', ms, n);
    } else {
      assert Descends(ms, n);
      NoDescent(o - 1, ms, n + 1);
    }
  }

  /** There is no endless sequence of lowerings. */
  lemma NoEndlessDescent(ms: nat -> Loads)
    requires forall i: nat {:trigger Descends(ms, i)} :: Descends(ms, i)
    ensures false
  {
    AllEnd(ms(0));
    var o: ORDINAL :| Ends#[o](ms(0));
    NoDescent(o, ms, 0);
  }
}
