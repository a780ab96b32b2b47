/** Open addressing with a bounded window: the tables that look at a fixed number
    of slots from the home slot of a key on, wrapping at the end, and whose slots
    are never emptied again. Key zero marks an unused slot. */
module Probing {

  /** The p-th slot from slot h on. */
  function At(size: nat, h: nat, p: nat): (i: nat)
    requires h < size && p <= size
    ensures i < size
  {
    if h + p < size then h + p else h + p - size
  }

  lemma AtWraps(size: nat, h: nat, p: nat)
    requires h < size && p <= size
    ensures (h + p) % size == At(size, h, p)
  {
    if h + p >= size { ModOnce(h + p - size, size); }
  }

  lemma ModOnce(r: nat, n: nat)
    requires r < n
    ensures (r + n) % n == r
  {
  }

  /** The first probe from p on that meets an unused slot or the key k, or w. */
  function ProbeFrom(keys: seq<nat>, w: nat, h: nat, k: nat, p: nat): (q: nat)
    requires h < |keys| && p <= w <= |keys|
    ensures p <= q <= w && (q < w ==> keys[At(|keys|, h, q)] == 0 || keys[At(|keys|, h, q)] == k)
    decreases w - p
  {
    if p == w || keys[At(|keys|, h, p)] == 0 || keys[At(|keys|, h, p)] == k then p
    else ProbeFrom(keys, w, h, k, p + 1)
  }

  /** Filling another slot with another key does not change where k is found. */
  lemma {:induction false} SameProbe(keys: seq<nat>, w: nat, i: nat, x: nat, h: nat, k: nat, p: nat)
    requires i < |keys| && h < |keys| && p <= w <= |keys| && x != 0 && x != k
    requires var q := ProbeFrom(keys, w, h, k, p); q < w ==> At(|keys|, h, q) != i
    ensures ProbeFrom(keys[i := x], w, h, k, p) == ProbeFrom(keys, w, h, k, p)
    decreases w - p
  {
    if ProbeFrom(keys, w, h, k, p) > p { SameProbe(keys, w, i, x, h, k, p + 1); }
  }

  /** A key put into the slot where its probing stops is found there. */
  lemma {:induction false} OwnProbe(keys: seq<nat>, w: nat, i: nat, h: nat, k: nat, p: nat)
    requires i < |keys| && h < |keys| && p <= w <= |keys| && k > 0
    requires var q := ProbeFrom(keys, w, h, k, p); q < w && At(|keys|, h, q) == i
    ensures var q' := ProbeFrom(keys[i := k], w, h, k, p); q' < w && At(|keys|, h, q') == i
    decreases w - p
  {
    if ProbeFrom(keys, w, h, k, p) > p && At(|keys|, h, p) != i { OwnProbe(keys, w, i, h, k, p + 1); }
  }
}
