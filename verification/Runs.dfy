/** Runs of interactions keep the net and what every root selects. */
module Runs {
  import opened Streams
  import opened Nets
  import opened Rules
  import opened Soundness

  /** An interaction the reducer may fire at slot p. */
  ghost predicate Legal(h: Heap, rank: Rank, p: nat) {
    Valid(h, rank) && p in rank && RankedAt(h, rank, p) && Fits(h, h[p].term) &&
    Ready(h, rank, p) && !SharesLeft(h, h[p].term)
  }

  lemma SoundBlocked(h: Heap, rank: Rank, p: nat)
    requires Legal(h, rank, p) && RuleOf(h, h[p].term) == Blocked
    ensures Preserves(h, rank, p, Step(h, p), StepRank(h, rank, p))
  {
    assert Step(h, p) == h;
    forall r: nat | Root(h, rank, r) ensures RootKept(h, rank, h, rank, r) {
      Live(h, rank, r);
    }
  }

  /** Every rule keeps the net linear and acyclic, and keeps what each root
      selects in every label environment. */
  lemma StepSound(h: Heap, rank: Rank, p: nat)
    requires Legal(h, rank, p)
    ensures Preserves(h, rank, p, Step(h, p), StepRank(h, rank, p))
  {
    match RuleOf(h, h[p].term)
    case Blocked => SoundBlocked(h, rank, p);
    case TakeSub => SoundTakeSub(h, rank, p);
    case Annihilate => SoundAnnihilate(h, rank, p);
    case Commute => SoundCommute(h, rank, p);
    case CopyAtom => SoundCopyAtom(h, rank, p);
    case CopyNode => SoundCopyNode(h, rank, p);
    case DistLeft => SoundDistLeft(h, rank, p);
    case DistRight => SoundDistRight(h, rank, p);
    case LiftLeft => SoundLiftLeft(h, rank, p);
    case LiftRight => SoundLiftRight(h, rank, p);
    case Mismatch => SoundMismatch(h, rank, p);
    case Reply(_, _) => SoundReply(h, rank, p);
    case Strip => SoundStrip(h, rank, p);
  }

  /** Storing a pointer twice cannot be repaired by any choice of live slots. */
  lemma SharedLeftBreaksLinearity(h: Heap, rank: Rank, p: nat, rank': Rank)
    requires Valid(h, rank) && p in rank && RankedAt(h, rank, p) && Fits(h, h[p].term)
    requires SharesLeft(h, h[p].term) && p in rank'
    ensures !Valid(Step(h, p), rank')
  {
    var (t, n, h') := (h[p].term, |h|, Step(h, p));
    LiveFits(h, rank, p);
    RightShape(h, p, t.op, t.loc, h[t.loc + 1].term.lab, h[t.loc + 1].term.loc);
    assert !ApartAt(h', n, n + 2);
    if Valid(h', rank') {
      NestedLive(h', rank', p, n + 4);
    }
  }

  lemma NestedLive(h: Heap, rank: Rank, p: nat, s: nat)
    requires Ranked(h, rank) && p in rank && p < |h| && s + 1 < |h|
    requires h[p].term.Sup? && h[p].term.loc == s && h[s].term.Bin? && h[s + 1].term.Bin?
    ensures h[s].term.loc in rank && h[s + 1].term.loc in rank
  {
    Live(h, rank, p);
    Live(h, rank, s);
    Live(h, rank, s + 1);
  }

  /** A rule leaves a linear, acyclic net behind exactly when it is not a
      right-hand SUP rule with a pointer on the left. */
  lemma StepValidIff(h: Heap, rank: Rank, p: nat)
    requires Valid(h, rank) && p in rank && RankedAt(h, rank, p) && Fits(h, h[p].term) && Ready(h, rank, p)
    ensures (exists rank': Rank :: p in rank' && Valid(Step(h, p), rank')) <==> !SharesLeft(h, h[p].term)
  {
    if SharesLeft(h, h[p].term) {
      forall rank': Rank | p in rank' ensures !Valid(Step(h, p), rank') {
        SharedLeftBreaksLinearity(h, rank, p, rank');
      }
    } else {
      StepSound(h, rank, p);
      var rank' := StepRank(h, rank, p);
      assert p in rank' && Valid(Step(h, p), rank');
    }
  }

  /** OP2(OP2(ANY, 1), &7{2, 3}): the left operand is stuck, but not an atom. */
  function SharedHeap(): Heap {
    [Plain(Bin(Op2(0), 1)), Plain(Bin(Op2(0), 3)), Plain(Sup(7, 5)), Plain(Any), Plain(Num(1)), Plain(Num(2)),
     Plain(Num(3))]
  }

  function SharedRank(): Rank { map[0 := 2, 1 := 1, 2 := 1, 3 := 0, 4 := 0, 5 := 0, 6 := 0] }

  lemma SharedCell(c: nat)
    requires c <= 6
    ensures RankedAt(SharedHeap(), SharedRank(), c) && PlainAt(SharedHeap(), c)
    ensures !SharedHeap()[c].term.Dp? && (c > 2 ==> Atom(SharedHeap()[c].term))
  {
    assert c == 0 || c == 1 || c == 2 || c == 3 || c == 4 || c == 5 || c == 6;
  }

  lemma SharedPair(c: nat, d: nat)
    requires c <= 6 && d <= 6
    ensures ApartAt(SharedHeap(), c, d)
  {
    SharedCell(c);
    SharedCell(d);
    assert (c == 0 || c == 1 || c == 2 || c > 2) && (d == 0 || d == 1 || d == 2 || d > 2);
  }

  lemma SharedValid()
    ensures Valid(SharedHeap(), SharedRank())
  {
    var (h, rank) := (SharedHeap(), SharedRank());
    forall c | c in rank ensures RankedAt(h, rank, c) && PlainAt(h, c) { SharedCell(c); }
    forall c, d | c in rank && d in rank ensures ApartAt(h, c, d) { SharedPair(c, d); }
  }

  /** A net on which the right-hand SUP rule of OP2 breaks linearity. */
  lemma SharedExample(rank': Rank)
    requires 0 in rank'
    ensures Valid(SharedHeap(), SharedRank()) && Fits(SharedHeap(), SharedHeap()[0].term)
    ensures SharesLeft(SharedHeap(), SharedHeap()[0].term) && !Valid(Step(SharedHeap(), 0), rank')
  {
    SharedValid();
    SharedCell(0);
    SharedLeftBreaksLinearity(SharedHeap(), SharedRank(), 0, rank');
  }

  // ------------------------------------------------------------------- runs

  datatype State = State(heap: Heap, rank: Rank)

  ghost predicate Run(s: State, slots: seq<nat>, s': State)
    decreases |slots|
  {
    if slots == [] then s' == s
    else
      Legal(s.heap, s.rank, slots[0]) &&
      Run(State(Step(s.heap, slots[0]), StepRank(s.heap, s.rank, slots[0])), slots[1..], s')
  }

  /** Any run keeps the invariant, keeps every root a root, and keeps the value
      it selects in every label environment. */
  lemma {:induction false} RunSound(s: State, slots: seq<nat>, s': State, r: nat)
    requires Valid(s.heap, s.rank) && Root(s.heap, s.rank, r) && Run(s, slots, s')
    ensures Valid(s'.heap, s'.rank) && |s.heap| <= |s'.heap|
    ensures RootKept(s.heap, s.rank, s'.heap, s'.rank, r)
    decreases |slots|
  {
    if slots == [] {
      assert RankedAt(s.heap, s.rank, r);
    } else {
      var p := slots[0];
      StepSound(s.heap, s.rank, p);
      var s1 := State(Step(s.heap, p), StepRank(s.heap, s.rank, p));
      assert RootKept(s.heap, s.rank, s1.heap, s1.rank, r);
      RunSound(s1, slots[1..], s', r);
    }
  }

  /** Two runs that both bring a root to an atom bring it to the same atom. */
  lemma AnswersAgree(s: State, slots1: seq<nat>, s1: State, slots2: seq<nat>, s2: State, r: nat)
    requires Valid(s.heap, s.rank) && Root(s.heap, s.rank, r)
    requires Run(s, slots1, s1) && Run(s, slots2, s2)
    ensures r < |s1.heap| && r < |s2.heap|
    ensures Atom(s1.heap[r].term) && Atom(s2.heap[r].term) ==> s1.heap[r].term == s2.heap[r].term
  {
    RunSound(s, slots1, s1, r);
    RunSound(s, slots2, s2, r);
    var env: Env := ZeroEnv();
    assert Meaning(s1.heap, s1.rank, s1.heap[r].term, env) == Meaning(s2.heap, s2.rank, s2.heap[r].term, env);
  }
}
