/** Collapsing a superposed net with any schedule of the reducer. */
module NetCollapse {
  import opened Streams
  import opened Nets
  import opened Soundness
  import opened Runs
  import opened DecisionTables

  /** What the reducer did during one collapse: the interactions it fired on the
      way to head-normal form, then either the leaf or the two branches. The
      schedule of the reducer is arbitrary. */
  datatype Walk =
    | Stop(slots: seq<nat>, end: State)
    | Fork(slots: seq<nat>, mid: State, left: Walk, right: Walk)

  ghost function End(w: Walk): State {
    match w
    case Stop(_, s) => s
    case Fork(_, _, _, r) => End(r)
  }

  /** The walk no longer needs slot p: its SUP has been taken apart. */
  ghost function Released(s: State, p: nat): State {
    State(s.heap, map c | c in s.rank && c != p :: s.rank[c])
  }

  /** w is a collapse of the word in slot p of s. */
  ghost predicate Collapses(s: State, p: nat, w: Walk)
    decreases w
  {
    match w
    case Stop(slots, end) => Run(s, slots, end) && p < |end.heap| && !end.heap[p].term.Sup?
    case Fork(slots, mid, l, r) =>
      Run(s, slots, mid) && p < |mid.heap| && mid.heap[p].term.Sup? &&
      Collapses(Released(mid, p), mid.heap[p].term.loc, l) &&
      Collapses(End(l), mid.heap[p].term.loc + 1, r)
  }

  /** The superposition tree that a walk went through. */
  ghost function TreeOf(p: nat, w: Walk): Tree
    decreases w
  {
    match w
    case Stop(_, _) => Tip(p)
    case Fork(_, mid, l, r) =>
      if p < |mid.heap| && mid.heap[p].term.Sup? then
        var Sup(lab, s) := mid.heap[p].term;
        Split(lab, TreeOf(s, l), TreeOf(s + 1, r))
      else Tip(p)
  }

  // ------------------------------------------------------- roots along a walk

  ghost predicate Sound(s: State) { Valid(s.heap, s.rank) }

  ghost predicate Kept(s: State, s': State, r: nat) {
    Sound(s) && Sound(s') && r in s.rank && RootKept(s.heap, s.rank, s'.heap, s'.rank, r)
  }

  lemma KeptTransitive(s: State, s1: State, s2: State, r: nat)
    requires Kept(s, s1, r) && Kept(s1, s2, r)
    ensures Kept(s, s2, r)
  {
  }

  lemma ReleasedSound(s: State, p: nat)
    requires Sound(s) && Root(s.heap, s.rank, p)
    ensures Sound(Released(s, p))
  {
    var t := Released(s, p);
    forall c | c in t.rank ensures RankedAt(t.heap, t.rank, c) {
      Live(s.heap, s.rank, c);
      assert !HitsAt(s.heap, c, p);
    }
    forall c | c in t.rank ensures PlainAt(t.heap, c) {
      assert PlainAt(s.heap, c);
    }
    forall c, d | c in t.rank && d in t.rank ensures ApartAt(t.heap, c, d) {
      LivePair(s.heap, s.rank, c, d);
    }
  }

  lemma ReleasedKeeps(s: State, p: nat, r: nat)
    requires Sound(s) && Root(s.heap, s.rank, p) && Root(s.heap, s.rank, r) && r != p
    ensures Kept(s, Released(s, p), r)
  {
    var t := Released(s, p);
    ReleasedSound(s, p);
    Live(s.heap, s.rank, r);
    Live(t.heap, t.rank, r);
    forall c | c in t.rank ensures !HitsAt(t.heap, c, r) {
      assert !HitsAt(s.heap, c, r);
    }
    forall env: Env
      ensures Meaning(t.heap, t.rank, t.heap[r].term, env) == Meaning(s.heap, s.rank, s.heap[r].term, env)
    {
      MeaningOfHeap(s.heap, s.rank, t.rank, s.heap[r].term, env);
    }
  }

  /** Taking a root SUP apart turns its two slots into roots. */
  lemma ReleasedBranch(s: State, p: nat, b: nat)
    requires Sound(s) && Root(s.heap, s.rank, p) && p < |s.heap| && s.heap[p].term.Sup?
    requires b == s.heap[p].term.loc || b == s.heap[p].term.loc + 1
    ensures Sound(Released(s, p)) && Root(s.heap, Released(s, p).rank, b)
    ensures RankedAt(s.heap, s.rank, b) && RankedAt(s.heap, Released(s, p).rank, b)
    ensures forall env: Env :: Meaning(s.heap, Released(s, p).rank, s.heap[b].term, env)
                            == Meaning(s.heap, s.rank, s.heap[b].term, env)
  {
    var t := Released(s, p);
    ReleasedSound(s, p);
    Live(s.heap, s.rank, p);
    Live(s.heap, s.rank, b);
    assert b in t.rank;
    Live(t.heap, t.rank, b);
    forall c | c in t.rank ensures !HitsAt(t.heap, c, b) {
      Live(s.heap, s.rank, c);
      LivePair(s.heap, s.rank, c, p);
    }
    forall env: Env
      ensures Meaning(t.heap, t.rank, t.heap[b].term, env) == Meaning(s.heap, s.rank, s.heap[b].term, env)
    {
      MeaningOfHeap(s.heap, s.rank, t.rank, s.heap[b].term, env);
    }
  }

  /** A collapse of a root of a sound net. */
  ghost predicate Collapsing(s: State, p: nat, w: Walk) {
    Sound(s) && Root(s.heap, s.rank, p) && Collapses(s, p, w)
  }

  lemma RunKept(s: State, slots: seq<nat>, s': State, r: nat)
    requires Sound(s) && Root(s.heap, s.rank, r) && Run(s, slots, s')
    ensures Kept(s, s', r)
  {
    RunSound(s, slots, s', r);
  }

  /** Both branches of a root SUP are roots once it has been taken apart. */
  lemma BranchRoots(s: State, p: nat, t: State, b: nat)
    requires Sound(s) && Root(s.heap, s.rank, p) && p < |s.heap| && s.heap[p].term.Sup?
    requires t == Released(s, p) && b == s.heap[p].term.loc
    ensures Sound(t) && Root(t.heap, t.rank, b) && Root(t.heap, t.rank, b + 1)
  {
    ReleasedBranch(s, p, b);
    ReleasedBranch(s, p, b + 1);
  }

  /** Another root stays one, and is not one of the branches. */
  lemma OtherRoot(s: State, p: nat, t: State, b: nat, r: nat)
    requires Sound(s) && Root(s.heap, s.rank, p) && p < |s.heap| && s.heap[p].term.Sup?
    requires t == Released(s, p) && b == s.heap[p].term.loc && Root(s.heap, s.rank, r) && r != p
    ensures Kept(s, t, r) && Root(t.heap, t.rank, r) && r != b && r != b + 1
  {
    ReleasedKeeps(s, p, r);
    Live(s.heap, s.rank, p);
    assert !HitsAt(s.heap, p, r);
  }

  /** Up to the fork, and the starts of the two collapses after it. */
  lemma ForkMid(s: State, p: nat, w: Walk)
    requires Collapsing(s, p, w) && w.Fork?
    ensures Kept(s, w.mid, p) && Root(w.mid.heap, w.mid.rank, p) && p < |w.mid.heap| && w.mid.heap[p].term.Sup?
    ensures var (t, b) := (Released(w.mid, p), w.mid.heap[p].term.loc);
      Collapsing(t, b, w.left) && Root(t.heap, t.rank, b + 1) && Collapses(End(w.left), b + 1, w.right)
  {
    RunKept(s, w.slots, w.mid, p);
    BranchRoots(w.mid, p, Released(w.mid, p), w.mid.heap[p].term.loc);
  }

  /** Another root up to the fork. */
  lemma KeptToFork(s: State, p: nat, w: Walk, r: nat, t: State, b: nat)
    requires Collapsing(s, p, w) && w.Fork? && Root(s.heap, s.rank, r) && r != p && p < |w.mid.heap|
    requires w.mid.heap[p].term.Sup? && t == Released(w.mid, p) && b == w.mid.heap[p].term.loc
    ensures Kept(s, t, r) && Root(t.heap, t.rank, r) && r != b && r != b + 1
  {
    RunKept(s, w.slots, w.mid, p);
    RunKept(s, w.slots, w.mid, r);
    OtherRoot(w.mid, p, t, b, r);
    KeptTransitive(s, w.mid, t, r);
  }

  /** A collapse keeps the net invariant and every other root. */
  lemma {:induction false} CollapseKeeps(s: State, p: nat, w: Walk, r: nat)
    requires Collapsing(s, p, w) && Root(s.heap, s.rank, r) && r != p
    ensures Kept(s, End(w), r)
    decreases w
  {
    if w.Stop? {
      RunKept(s, w.slots, w.end, r);
    } else {
      ForkMid(s, p, w);
      var (t, b) := (Released(w.mid, p), w.mid.heap[p].term.loc);
      KeptToFork(s, p, w, r, t, b);
      CollapseKeeps(t, b, w.left, r);
      CollapseKeeps(t, b, w.left, b + 1);
      CollapseKeeps(End(w.left), b + 1, w.right, r);
      KeptTransitive(s, t, End(w.left), r);
      KeptTransitive(s, End(w.left), End(w.right), r);
    }
  }

  /** The two collapses that one at a fork consists of. */
  lemma ForkStarts(s: State, p: nat, w: Walk)
    requires Collapsing(s, p, w) && w.Fork?
    ensures p < |w.mid.heap| && w.mid.heap[p].term.Sup?
    ensures var (t, b) := (Released(w.mid, p), w.mid.heap[p].term.loc);
      Collapsing(t, b, w.left) && Collapsing(End(w.left), b + 1, w.right) && Root(t.heap, t.rank, b + 1)
  {
    ForkMid(s, p, w);
    CollapseKeeps(Released(w.mid, p), w.mid.heap[p].term.loc, w.left, w.mid.heap[p].term.loc + 1);
  }

  /** What an environment picks at a fork is what it picks in the branch it takes. */
  lemma PickFork(p: nat, w: Walk, env: Env)
    requires w.Fork? && p < |w.mid.heap| && w.mid.heap[p].term.Sup?
    ensures var (Sup(lab, b), tree, inner) := (w.mid.heap[p].term, TreeOf(p, w), Pop(env, w.mid.heap[p].term.lab));
      var branch := if Top(env, lab) then TreeOf(b + 1, w.right) else TreeOf(b, w.left);
      PickSlot(tree, env) == PickSlot(branch, inner) && PickEnv(tree, env) == PickEnv(branch, inner)
  {
  }

  /** Another root is one where each of the two collapses starts. */
  lemma ForkOthers(s: State, p: nat, w: Walk, r: nat)
    requires Collapsing(s, p, w) && w.Fork? && Root(s.heap, s.rank, r) && r != p
    ensures p < |w.mid.heap| && w.mid.heap[p].term.Sup?
    ensures var (t, b) := (Released(w.mid, p), w.mid.heap[p].term.loc);
      r != b && r != b + 1 && Root(t.heap, t.rank, r) && Root(End(w.left).heap, End(w.left).rank, r)
  {
    ForkMid(s, p, w);
    var (t, b) := (Released(w.mid, p), w.mid.heap[p].term.loc);
    KeptToFork(s, p, w, r, t, b);
    CollapseKeeps(t, b, w.left, r);
  }

  /** No leaf of a collapse is stored in the slot of another root. */
  lemma {:induction false} PickAvoids(s: State, p: nat, w: Walk, env: Env, r: nat)
    requires Collapsing(s, p, w) && Root(s.heap, s.rank, r) && r != p
    ensures PickSlot(TreeOf(p, w), env) != r
    decreases w
  {
    if w.Fork? {
      ForkStarts(s, p, w);
      PickFork(p, w, env);
      var (t, Sup(lab, b)) := (Released(w.mid, p), w.mid.heap[p].term);
      ForkOthers(s, p, w, r);
      if Top(env, lab) {
        PickAvoids(End(w.left), b + 1, w.right, Pop(env, lab), r);
      } else {
        PickAvoids(t, b, w.left, Pop(env, lab), r);
      }
    }
  }

  /** Slot p of s and slot b of t hold the same value in the two environments. */
  ghost predicate SameMeaning(s: State, p: nat, env: Env, t: State, b: nat, inner: Env) {
    Sound(s) && Sound(t) && RankedAt(s.heap, s.rank, p) && RankedAt(t.heap, t.rank, b) &&
    Meaning(s.heap, s.rank, s.heap[p].term, env) == Meaning(t.heap, t.rank, t.heap[b].term, inner)
  }

  lemma SameMeaningKept(s: State, p: nat, env: Env, t: State, b: nat, inner: Env, t': State)
    requires SameMeaning(s, p, env, t, b, inner) && Kept(t, t', b)
    ensures SameMeaning(s, p, env, t', b, inner)
  {
  }

  lemma SameMeaningTransitive(s: State, p: nat, env: Env, t: State, b: nat, inner: Env, u: State, c: nat, env': Env)
    requires SameMeaning(s, p, env, t, b, inner) && SameMeaning(t, b, inner, u, c, env')
    ensures SameMeaning(s, p, env, u, c, env')
  {
  }

  /** At a root SUP the value is that of the branch the environment takes. */
  lemma ReleasedMeaning(s: State, p: nat, env: Env, b: nat)
    requires Sound(s) && Root(s.heap, s.rank, p) && p < |s.heap| && s.heap[p].term.Sup?
    requires b == s.heap[p].term.loc + if Top(env, s.heap[p].term.lab) then 1 else 0
    ensures SameMeaning(s, p, env, Released(s, p), b, Pop(env, s.heap[p].term.lab))
  {
    Live(s.heap, s.rank, p);
    ReleasedBranch(s, p, b);
  }

  lemma TakenMeaning(s: State, p: nat, w: Walk, env: Env, c: nat, inner: Env)
    requires Collapsing(s, p, w) && w.Fork? && p < |w.mid.heap| && w.mid.heap[p].term.Sup?
    requires inner == Pop(env, w.mid.heap[p].term.lab)
    requires c == w.mid.heap[p].term.loc + if Top(env, w.mid.heap[p].term.lab) then 1 else 0
    ensures SameMeaning(s, p, env, Released(w.mid, p), c, inner)
  {
    ForkMid(s, p, w);
    SameMeaningSelf(s, p, env);
    SameMeaningKept(s, p, env, s, p, env, w.mid);
    ReleasedMeaning(w.mid, p, env, c);
    SameMeaningTransitive(s, p, env, w.mid, p, env, Released(w.mid, p), c, inner);
  }

  lemma RightKept(s: State, p: nat, w: Walk, b: nat)
    requires Collapsing(s, p, w) && w.Fork? && p < |w.mid.heap| && w.mid.heap[p].term.Sup? &&
      b == w.mid.heap[p].term.loc
    ensures Kept(Released(w.mid, p), End(w.left), b + 1)
  {
    ForkMid(s, p, w);
    CollapseKeeps(Released(w.mid, p), b, w.left, b + 1);
  }

  /** The value at a fork is that of the branch the environment takes, in the net from
      which that branch is collapsed. */
  lemma BranchMeaning(s: State, p: nat, w: Walk, env: Env, b: nat, inner: Env)
    requires Collapsing(s, p, w) && w.Fork? && p < |w.mid.heap| && w.mid.heap[p].term.Sup?
    requires b == w.mid.heap[p].term.loc && inner == Pop(env, w.mid.heap[p].term.lab)
    ensures if Top(env, w.mid.heap[p].term.lab) then SameMeaning(s, p, env, End(w.left), b + 1, inner)
      else SameMeaning(s, p, env, Released(w.mid, p), b, inner)
  {
    if Top(env, w.mid.heap[p].term.lab) {
      TakenMeaning(s, p, w, env, b + 1, inner);
      RightKept(s, p, w, b);
      SameMeaningKept(s, p, env, Released(w.mid, p), b + 1, inner, End(w.left));
    } else {
      TakenMeaning(s, p, w, env, b, inner);
    }
  }

  lemma SameMeaningSelf(s: State, p: nat, env: Env)
    requires Sound(s) && Root(s.heap, s.rank, p)
    ensures SameMeaning(s, p, env, s, p, env)
  {
    Live(s.heap, s.rank, p);
  }

  /** Slot q of `end`, a root, holds, under `env'`, the value that slot p of s selects under env. */
  ghost predicate SameValue(s: State, p: nat, env: Env, end: State, q: nat, env': Env) {
    SameMeaning(s, p, env, end, q, env') && Root(end.heap, end.rank, q)
  }

  /** The leaf picked in the left branch is kept while the right one is collapsed. */
  lemma LeftKept(s: State, b: nat, inner: Env, left: State, q: nat, env': Env, c: nat, right: Walk)
    requires SameValue(s, b, inner, left, q, env') && Collapsing(left, c, right) && q != c
    ensures SameValue(s, b, inner, End(right), q, env')
  {
    CollapseKeeps(left, c, right, q);
    SameMeaningKept(s, b, inner, left, q, env', End(right));
  }

  lemma StopValue(s: State, p: nat, w: Walk, env: Env)
    requires Collapsing(s, p, w) && w.Stop?
    ensures SameValue(s, p, env, w.end, p, env)
  {
    RunSound(s, w.slots, w.end, p);
    SameMeaningSelf(s, p, env);
    SameMeaningKept(s, p, env, s, p, env, w.end);
  }

  /** The leaf picked in the branch that is taken is the leaf picked at the fork. */
  lemma PickThrough(s: State, p: nat, w: Walk, env: Env, t: State, c: nat, branch: Tree, inner: Env, end: State)
    requires w.Fork? && p < |w.mid.heap| && w.mid.heap[p].term.Sup?
    requires inner == Pop(env, w.mid.heap[p].term.lab) &&
      c == w.mid.heap[p].term.loc + (if Top(env, w.mid.heap[p].term.lab) then 1 else 0)
    requires branch == TreeOf(c, if Top(env, w.mid.heap[p].term.lab) then w.right else w.left)
    requires SameMeaning(s, p, env, t, c, inner)
    requires SameValue(t, c, inner, end, PickSlot(branch, inner), PickEnv(branch, inner))
    ensures SameValue(s, p, env, end, PickSlot(TreeOf(p, w), env), PickEnv(TreeOf(p, w), env))
  {
    PickFork(p, w, env);
    SameMeaningTransitive(s, p, env, t, c, inner, end, PickSlot(branch, inner), PickEnv(branch, inner));
  }

  lemma {:induction false} PickValue(s: State, p: nat, w: Walk, env: Env)
    requires Collapsing(s, p, w)
    ensures SameValue(s, p, env, End(w), PickSlot(TreeOf(p, w), env), PickEnv(TreeOf(p, w), env))
    decreases w
  {
    if w.Stop? {
      StopValue(s, p, w, env);
    } else {
      ForkStarts(s, p, w);
      var (t, Sup(lab, b), inner) := (Released(w.mid, p), w.mid.heap[p].term, Pop(env, w.mid.heap[p].term.lab));
      BranchMeaning(s, p, w, env, b, inner);
      if Top(env, lab) {
        PickValue(End(w.left), b + 1, w.right, inner);
        PickThrough(s, p, w, env, End(w.left), b + 1, TreeOf(b + 1, w.right), inner, End(w.right));
      } else {
        PickValue(t, b, w.left, inner);
        PickAvoids(t, b, w.left, inner, b + 1);
        LeftKept(t, b, inner, End(w.left), PickSlot(TreeOf(b, w.left), inner), PickEnv(TreeOf(b, w.left), inner), b + 1,
                 w.right);
        PickThrough(s, p, w, env, t, b, TreeOf(b, w.left), inner, End(w.right));
      }
    }
  }

  /** The grouped collapse of a net is a complete decision table: every label
      environment follows exactly one recorded path, and the leaf it leads to
      has, under the rest of the environment, the value the collapsed word selects. */
  lemma CollapseDecides(s: State, p: nat, w: Walk, env: Env)
    requires Collapsing(s, p, w)
    ensures var (rows, j) := (Grouped(TreeOf(p, w), []), PickIndex(TreeOf(p, w), env));
      j < |rows| && (forall k :: 0 <= k < |rows| ==> (Follows(env, rows[k].path) <==> k == j)) &&
      SameValue(s, p, env, End(w), rows[j].slot, After(env, rows[j].path))
  {
    ExactlyOnePath(TreeOf(p, w), env);
    PickValue(s, p, w, env);
  }
}
