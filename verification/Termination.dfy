/** Every reduction ends. */
module Termination {
  import opened Streams
  import opened Nets
  import opened Rules
  import opened Patches
  import opened Keeping
  import opened Duplication
  import opened Distribution
  import opened Soundness
  import opened Runs
  import opened Strategy
  import opened Weights
  import opened Descents
  import opened Lightening

  ghost function SlotWeight(h: Heap, rank: Rank, c: nat): Weight
    requires Ranked(h, rank) && c in rank
  {
    Live(h, rank, c);
    WeightOf(h, rank, h[c].term)
  }

  /** The weights of the live slots. */
  ghost function LoadsOf(h: Heap, rank: Rank): Loads
    requires Ranked(h, rank)
  {
    map c | c in rank :: SlotWeight(h, rank, c)
  }

  lemma RedexIsLight(h: Heap, rank: Rank, p: nat, h': Heap, rank': Rank, d: nat)
    requires Ranked(h, rank) && Ranked(h', rank') && Lightens(h, rank, p, h', rank', d)
    ensures RedexLight(h, rank, p, h', rank')
  {
    assert LessAt(h, rank, p, h', rank', p);
  }

  /** A rewiring that lightens the redex lowers the weights of the whole net. */
  lemma PatchLowers(h: Heap, rank: Rank, p: nat, h': Heap, rank': Rank, plan: Plan, spare: nat)
    requires Patched(h, rank, p, h', rank', plan, spare) && Valid(h', rank') && RankedAt(h, rank, p)
    requires LightBelow(h, rank, h', rank', plan, Height(rank, h[p].term) - 1) ==>
      Lightens(h, rank, p, h', rank', plan.d)
    ensures Lowers(LoadsOf(h', rank'), LoadsOf(h, rank))
  {
    if LightBelow(h, rank, h', rank', plan, Height(rank, h[p].term) - 1) {
      RedexIsLight(h, rank, p, h', rank', plan.d);
    }
    LightAll(h, rank, p, h', rank', plan, spare, Height(rank, h[p].term));
    LightLess(h, rank, h', rank', plan, Height(rank, h[p].term));
    var (m', m) := (LoadsOf(h', rank'), LoadsOf(h, rank));
    forall c | c in m' ensures (c in m && c != p && NoMore(m'[c], m[c])) || Less(m'[c], m[p]) {
      SlotLower(h, rank, p, h', rank', plan, spare, c);
    }
    assert LowersAt(m', m, p);
  }

  lemma LightLess(h: Heap, rank: Rank, h': Heap, rank': Rank, plan: Plan, k: nat)
    requires Ranked(h, rank) && Ranked(h', rank') && LightBelow(h, rank, h', rank', plan, k)
    ensures LightBelow(h, rank, h', rank', plan, k - 1)
  {
    forall c: nat | Low(h, rank, plan, c, k - 1) ensures LightAt(h, rank, h', rank', plan, c) {
      assert Low(h, rank, plan, c, k);
    }
  }

  lemma SlotLower(h: Heap, rank: Rank, p: nat, h': Heap, rank': Rank, plan: Plan, spare: nat, c: nat)
    requires Patched(h, rank, p, h', rank', plan, spare) && Valid(h', rank') && RankedAt(h, rank, p)
    requires Lightens(h, rank, p, h', rank', plan.d) && c in rank'
    ensures (c in rank && c != p && NoMore(SlotWeight(h', rank', c), SlotWeight(h, rank, c))) ||
      Less(SlotWeight(h', rank', c), SlotWeight(h, rank, p))
  {
    Live(h', rank', c);
    if c == p || c == plan.d || c >= |h| {
      assert LessAt(h, rank, p, h', rank', c);
    } else {
      Live(h, rank, c);
      RedexIsLight(h, rank, p, h', rank', plan.d);
      LightAll(h, rank, p, h', rank', plan, spare, Height(rank, h[c].term));
      assert LightAt(h, rank, h', rank', plan, c);
    }
  }

  // ------------------------------------------------------------- rule by rule

  /** The step at p lowers the weights of the net. */
  ghost predicate StepLowers(h: Heap, rank: Rank, p: nat) {
    Redex(h, rank, p) && Valid(Step(h, p), StepRank(h, rank, p)) &&
    Lowers(LoadsOf(Step(h, p), StepRank(h, rank, p)), LoadsOf(h, rank))
  }

  lemma LowerTakeSub(h: Heap, rank: Rank, p: nat)
    requires Redex(h, rank, p) && RuleOf(h, h[p].term) == TakeSub
    ensures StepLowers(h, rank, p)
  {
    var (side, lab, d) := (h[p].term.side, h[p].term.lab, h[p].term.loc);
    LiveFits(h, rank, p);
    LiveFits(h, rank, d);
    var (h', rank', plan) := (Step(h, p), StepRank(h, rank, p), PlanOf(h, rank, p));
    RegrowRegrown(h, rank, plan);
    TakePatched(h, rank, p, side, lab, d, h', rank');
    PatchedValid(h, rank, p, h', rank', plan, |h|);
    if LightBelow(h, rank, h', rank', plan, Height(rank, h[p].term) - 1) {
      TakeLightens(h, rank, p, side, lab, d, h', rank');
    }
    PatchLowers(h, rank, p, h', rank', plan, |h|);
  }

  lemma LowerAnnihilate(h: Heap, rank: Rank, p: nat)
    requires Redex(h, rank, p) && RuleOf(h, h[p].term) == Annihilate
    ensures StepLowers(h, rank, p)
  {
    var (side, lab, d) := (h[p].term.side, h[p].term.lab, h[p].term.loc);
    LiveFits(h, rank, p);
    LiveFits(h, rank, d);
    var s := h[d].term.loc;
    var (h', rank', plan) := (Step(h, p), StepRank(h, rank, p), PlanOf(h, rank, p));
    RegrowRegrown(h, rank, plan);
    AnnihilateShape(h, p, side, lab, d, s);
    AnnihilatePatched(h, rank, p, side, lab, d, s, h', rank');
    PatchedValid(h, rank, p, h', rank', plan, |h|);
    if LightBelow(h, rank, h', rank', plan, Height(rank, h[p].term) - 1) {
      AnnihilateLightens(h, rank, p, side, lab, d, s, h', rank');
    }
    PatchLowers(h, rank, p, h', rank', plan, |h|);
  }

  lemma LowerCopyAtom(h: Heap, rank: Rank, p: nat)
    requires Redex(h, rank, p) && RuleOf(h, h[p].term) == CopyAtom
    ensures StepLowers(h, rank, p)
  {
    var (side, lab, d) := (h[p].term.side, h[p].term.lab, h[p].term.loc);
    LiveFits(h, rank, p);
    LiveFits(h, rank, d);
    var (h', rank', plan) := (Step(h, p), StepRank(h, rank, p), PlanOf(h, rank, p));
    RegrowRegrown(h, rank, plan);
    AtomShape(h, p, side, lab, d);
    AtomPatched(h, rank, p, side, lab, d, h', rank');
    PatchedValid(h, rank, p, h', rank', plan, |h|);
    if LightBelow(h, rank, h', rank', plan, Height(rank, h[p].term) - 1) {
      AtomLightens(h, rank, p, side, lab, d, h', rank');
    }
    PatchLowers(h, rank, p, h', rank', plan, |h|);
  }

  lemma LowerCommute(h: Heap, rank: Rank, p: nat)
    requires Redex(h, rank, p) && RuleOf(h, h[p].term) == Commute
    ensures StepLowers(h, rank, p)
  {
    var (side, lab, d) := (h[p].term.side, h[p].term.lab, h[p].term.loc);
    LiveFits(h, rank, p);
    LiveFits(h, rank, d);
    assert PlainAt(h, d);
    var (m, s) := (h[d].term.lab, h[d].term.loc);
    var (h', rank', plan) := (Step(h, p), StepRank(h, rank, p), PlanOf(h, rank, p));
    RegrowRegrown(h, rank, plan);
    CommuteShape(h, p, side, lab, d, m, s);
    assert Commuting(h, rank, p, side, lab, d, m, s, h', rank');
    CommutePatched(h, rank, p, side, lab, d, m, s, h', rank');
    PatchedValid(h, rank, p, h', rank', plan, s);
    if LightBelow(h, rank, h', rank', plan, Height(rank, h[p].term) - 1) {
      CommuteLightens(h, rank, p, side, lab, d, m, s, h', rank');
    }
    PatchLowers(h, rank, p, h', rank', plan, s);
  }

  lemma LowerCopyNode(h: Heap, rank: Rank, p: nat)
    requires Redex(h, rank, p) && RuleOf(h, h[p].term) == CopyNode
    ensures StepLowers(h, rank, p)
  {
    var (side, lab, d) := (h[p].term.side, h[p].term.lab, h[p].term.loc);
    LiveFits(h, rank, p);
    LiveFits(h, rank, d);
    var (op, v) := (h[d].term.op, h[d].term.loc);
    RegrowRegrown(h, rank, PlanOf(h, rank, p));
    CopyPlanLayout(rank, |h|, p, d, op, v);
    CopyShape(h, p, side, lab, d, op, v);
    CopyLowers(h, rank, p, side, lab, d, op, v, CopyCells(op, |h|), CopyPorts(op, |h|),
               Step(h, p), StepRank(h, rank, p), PlanOf(h, rank, p));
  }

  lemma CopyLowers(h: Heap, rank: Rank, p: nat, side: bool, lab: Label, d: nat, op: Op, v: nat, c: nat, r: nat,
                   h': Heap, rank': Rank, plan: Plan)
    requires Copying(h, rank, p, side, lab, d, op, v, c, r, h', rank', plan)
    ensures Valid(h', rank') && Lowers(LoadsOf(h', rank'), LoadsOf(h, rank))
  {
    CopyPatched(h, rank, p, side, lab, d, op, v, c, r, h', rank', plan);
    PatchedValid(h, rank, p, h', rank', plan, |h|);
    if LightBelow(h, rank, h', rank', plan, Height(rank, h[p].term) - 1) {
      CopyLightens(h, rank, p, side, lab, d, op, v, c, r, h', rank', plan);
    }
    PatchLowers(h, rank, p, h', rank', plan, |h|);
  }

  lemma LowerDistLeft(h: Heap, rank: Rank, p: nat)
    requires Redex(h, rank, p) && RuleOf(h, h[p].term) == DistLeft
    ensures StepLowers(h, rank, p)
  {
    LiveFits(h, rank, p);
    var (op, l) := (h[p].term.op, h[p].term.loc);
    LiveFits(h, rank, l);
    var (m, s) := (h[l].term.lab, h[l].term.loc);
    var (h', rank', plan) := (Step(h, p), StepRank(h, rank, p), PlanOf(h, rank, p));
    RegrowRegrown(h, rank, plan);
    LeftShape(h, p, op, l, m, s);
    LeftPatched(h, rank, p, op, l, m, s, h', rank');
    PatchedValid(h, rank, p, h', rank', plan, |h|);
    if LightBelow(h, rank, h', rank', plan, Height(rank, h[p].term) - 1) {
      LeftLightens(h, rank, p, op, l, m, s, h', rank');
    }
    PatchLowers(h, rank, p, h', rank', plan, |h|);
  }

  lemma LowerDistRight(h: Heap, rank: Rank, p: nat)
    requires Redex(h, rank, p) && RuleOf(h, h[p].term) == DistRight && !SharesLeft(h, h[p].term)
    ensures StepLowers(h, rank, p)
  {
    LiveFits(h, rank, p);
    var (op, l) := (h[p].term.op, h[p].term.loc);
    LiveFits(h, rank, l + 1);
    var (m, s) := (h[l + 1].term.lab, h[l + 1].term.loc);
    var (h', rank', plan) := (Step(h, p), StepRank(h, rank, p), PlanOf(h, rank, p));
    RegrowRegrown(h, rank, plan);
    RightShape(h, p, op, l, m, s);
    RightPatched(h, rank, p, op, l, m, s, h', rank');
    PatchedValid(h, rank, p, h', rank', plan, |h|);
    if LightBelow(h, rank, h', rank', plan, Height(rank, h[p].term) - 1) {
      RightLightens(h, rank, p, op, l, m, s, h', rank');
    }
    PatchLowers(h, rank, p, h', rank', plan, |h|);
  }

  lemma LiftLowers(h: Heap, rank: Rank, p: nat, l: nat, i: nat, x: nat, y: nat, h': Heap, rank': Rank)
    requires LiftStep(h, rank, p, l, i, x, y, h', rank')
    ensures Valid(h', rank') && Lowers(LoadsOf(h', rank'), LoadsOf(h, rank))
  {
    var plan := LiftPlan(rank, p, l, i, x, y);
    LiftPatched(h, rank, p, l, i, x, y, h', rank');
    PatchedValid(h, rank, p, h', rank', plan, |h|);
    if LightBelow(h, rank, h', rank', plan, Height(rank, h[p].term) - 1) {
      LiftLightens(h, rank, p, l, i, x, y, h', rank');
    }
    PatchLowers(h, rank, p, h', rank', plan, |h|);
  }

  lemma LowerLift(h: Heap, rank: Rank, p: nat)
    requires Redex(h, rank, p) && (RuleOf(h, h[p].term) == LiftLeft || RuleOf(h, h[p].term) == LiftRight)
    ensures StepLowers(h, rank, p)
  {
    LiveFits(h, rank, p);
    var l := h[p].term.loc;
    LiveFits(h, rank, l);
    LiveFits(h, rank, l + 1);
    RegrowRegrown(h, rank, PlanOf(h, rank, p));
    if RuleOf(h, h[p].term) == LiftLeft {
      var i := h[l].term.loc;
      LiftLowers(h, rank, p, l, i, i, l + 1, Step(h, p), StepRank(h, rank, p));
    } else {
      var i := h[l + 1].term.loc;
      LiftLowers(h, rank, p, l, i, l, i, Step(h, p), StepRank(h, rank, p));
    }
  }

  lemma ForwardLowers(h: Heap, rank: Rank, p: nat, t: Term, q: nat, h': Heap, rank': Rank)
    requires ForwardStep(h, rank, p, t, q, h', rank')
    ensures Valid(h', rank') && Lowers(LoadsOf(h', rank'), LoadsOf(h, rank))
  {
    var plan := ForwardPlan(p, t, q);
    ForwardPatched(h, rank, p, t, q, h', rank');
    PatchedValid(h, rank, p, h', rank', plan, |h|);
    if LightBelow(h, rank, h', rank', plan, Height(rank, t) - 1) {
      ForwardLightens(h, rank, p, t, q, h', rank');
    }
    PatchLowers(h, rank, p, h', rank', plan, |h|);
  }

  lemma AnswerLowers(h: Heap, rank: Rank, p: nat, op: Op, l: nat, a: Term, h': Heap, rank': Rank)
    requires AnswerStep(h, rank, p, op, l, a, h', rank')
    ensures Valid(h', rank') && Lowers(LoadsOf(h', rank'), LoadsOf(h, rank))
  {
    var plan := AnswerPlan(p, l);
    AnswerPatched(h, rank, p, op, l, a, h', rank');
    PatchedValid(h, rank, p, h', rank', plan, |h|);
    AnswerLightens(h, rank, p, op, l, a, h', rank');
    PatchLowers(h, rank, p, h', rank', plan, |h|);
  }

  lemma LowerStrip(h: Heap, rank: Rank, p: nat)
    requires Redex(h, rank, p) && RuleOf(h, h[p].term) == Strip
    ensures StepLowers(h, rank, p)
  {
    LiveFits(h, rank, p);
    RegrowRegrown(h, rank, PlanOf(h, rank, p));
    ForwardLowers(h, rank, p, h[p].term, h[p].term.loc, Step(h, p), StepRank(h, rank, p));
  }

  lemma LowerMismatch(h: Heap, rank: Rank, p: nat)
    requires Redex(h, rank, p) && RuleOf(h, h[p].term) == Mismatch
    ensures StepLowers(h, rank, p)
  {
    LiveFits(h, rank, p);
    RegrowRegrown(h, rank, PlanOf(h, rank, p));
    AnswerLowers(h, rank, p, Eql, h[p].term.loc, Num(0), Step(h, p), StepRank(h, rank, p));
  }

  lemma LowerReply(h: Heap, rank: Rank, p: nat)
    requires Redex(h, rank, p) && RuleOf(h, h[p].term).Reply?
    ensures StepLowers(h, rank, p)
  {
    LiveFits(h, rank, p);
    RegrowRegrown(h, rank, PlanOf(h, rank, p));
    var t := h[p].term;
    var a := RuleOf(h, t).answer;
    if Atom(a) {
      AnswerLowers(h, rank, p, t.op, t.loc, a, Step(h, p), StepRank(h, rank, p));
    } else {
      ForwardLowers(h, rank, p, t, if t.op.Ann? then t.loc else t.loc + 1, Step(h, p), StepRank(h, rank, p));
    }
  }

  // -------------------------------------------------------------- reduction ends

  /** A legal step at p that fires a rule takes s to s'. */
  ghost predicate Fires(s: State, p: nat, s': State) {
    Legal(s.heap, s.rank, p) && RuleOf(s.heap, s.heap[p].term) != Blocked &&
    s' == State(Step(s.heap, p), StepRank(s.heap, s.rank, p))
  }

  lemma FiringLowers(s: State, p: nat, s': State)
    requires Fires(s, p, s')
    ensures Valid(s.heap, s.rank) && Valid(s'.heap, s'.rank)
    ensures Lowers(LoadsOf(s'.heap, s'.rank), LoadsOf(s.heap, s.rank))
  {
    var (h, rank) := (s.heap, s.rank);
    match RuleOf(h, h[p].term)
    case TakeSub => LowerTakeSub(h, rank, p);
    case Annihilate => LowerAnnihilate(h, rank, p);
    case Commute => LowerCommute(h, rank, p);
    case CopyAtom => LowerCopyAtom(h, rank, p);
    case CopyNode => LowerCopyNode(h, rank, p);
    case DistLeft => LowerDistLeft(h, rank, p);
    case DistRight => LowerDistRight(h, rank, p);
    case LiftLeft => LowerLift(h, rank, p);
    case LiftRight => LowerLift(h, rank, p);
    case Mismatch => LowerMismatch(h, rank, p);
    case Reply(_, _) => LowerReply(h, rank, p);
    case Strip => LowerStrip(h, rank, p);
  }

  ghost predicate FiresNext(states: nat -> State, slots: nat -> nat, i: nat) {
    Fires(states(i), slots(i), states(i + 1))
  }

  /** Whatever the order of the interactions, firing comes to an end. */
  lemma ReductionEnds(states: nat -> State, slots: nat -> nat)
    ensures exists i: nat {:trigger FiresNext(states, slots, i)} :: !FiresNext(states, slots, i)
  {
    if forall i: nat {:trigger FiresNext(states, slots, i)} :: FiresNext(states, slots, i) {
      var loads := (i: nat) =>
        if Ranked(states(i).heap, states(i).rank) then LoadsOf(states(i).heap, states(i).rank) else map[];
      forall i: nat ensures Descends(loads, i) {
        assert FiresNext(states, slots, i);
        FiringLowers(states(i), slots(i), states(i + 1));
      }
      NoEndlessDescent(loads);
    }
  }

  /** The word in slot r is head normal, or the next redex below it shares its left operand. */
  ghost predicate Finished(s: State, r: nat) {
    Valid(s.heap, s.rank) && r in s.rank && RankedAt(s.heap, s.rank, r) &&
    (HeadNormal(s.heap, s.rank, s.heap[r].term) ||
     var p := NextRedex(s.heap, s.rank, r);
     p in s.rank && RankedAt(s.heap, s.rank, p) && Fits(s.heap, s.heap[p].term) && SharesLeft(s.heap, s.heap[p].term))
  }

  /** The reducer's run for the word in slot r: it fires the next redex until it is finished. */
  ghost predicate Reduces(s: State, slots: seq<nat>, s': State, r: nat)
    decreases |slots|
  {
    if slots == [] then s' == s && Finished(s, r)
    else
      Valid(s.heap, s.rank) && r in s.rank && RankedAt(s.heap, s.rank, r) &&
      !HeadNormal(s.heap, s.rank, s.heap[r].term) && slots[0] == NextRedex(s.heap, s.rank, r) &&
      Legal(s.heap, s.rank, slots[0]) &&
      Reduces(State(Step(s.heap, slots[0]), StepRank(s.heap, s.rank, slots[0])), slots[1..], s', r)
  }

  lemma {:induction false} ReducesRuns(s: State, slots: seq<nat>, s': State, r: nat)
    requires Reduces(s, slots, s', r)
    ensures Run(s, slots, s') && Finished(s', r)
    decreases |slots|
  {
    if slots != [] {
      ReducesRuns(State(Step(s.heap, slots[0]), StepRank(s.heap, s.rank, slots[0])), slots[1..], s', r);
    }
  }

  /** The reducer has no choice: its run is the only one. */
  lemma {:induction false} ReducesOnce(s: State, slots1: seq<nat>, s1: State, slots2: seq<nat>, s2: State, r: nat)
    requires Reduces(s, slots1, s1, r) && Reduces(s, slots2, s2, r)
    ensures slots1 == slots2 && s1 == s2
    decreases |slots1|
  {
    if slots1 != [] {
      var p := slots1[0];
      assert slots2 != [] && slots2[0] == p;
      ReducesOnce(State(Step(s.heap, p), StepRank(s.heap, s.rank, p)), slots1[1..], s1, slots2[1..], s2, r);
      assert slots1 == [p] + slots1[1..] && slots2 == [p] + slots2[1..];
    }
  }

  lemma {:induction false} ReduceFrom(o: ORDINAL, s: State, r: nat) returns (slots: seq<nat>, s': State)
    requires Valid(s.heap, s.rank) && Root(s.heap, s.rank, r) && Ends#[o](LoadsOf(s.heap, s.rank))
    ensures Reduces(s, slots, s', r)
    decreases o
  {
    var (h, rank) := (s.heap, s.rank);
    slots, s' := [], s;
    if o.IsLimit {
      var o' :| o' < o && Ends#[o'](LoadsOf(h, rank));
      slots, s' := ReduceFrom(o', s, r);
    } else if !Finished(s, r) {
      Live(h, rank, r);
      Progress(h, rank, r);
      var p := NextRedex(h, rank, r);
      var s1 := State(Step(h, p), StepRank(h, rank, p));
      FiringLowers(s, p, s1);
      StepSound(h, rank, p);
      assert RootKept(h, rank, s1.heap, s1.rank, r);
      assert Ends#[o - 1](LoadsOf(s1.heap, s1.rank));
      var rest, last := ReduceFrom(o - 1, s1, r);
      slots, s' := [p] + rest, last;
    }
  }

  /** The reducer comes to an end on every root, in head-normal form or at a redex whose
      left operand it would share, and the root has kept its value. */
  lemma ReducerEnds(s: State, r: nat) returns (slots: seq<nat>, s': State)
    requires Valid(s.heap, s.rank) && Root(s.heap, s.rank, r)
    ensures Reduces(s, slots, s', r) && Valid(s'.heap, s'.rank) && Finished(s', r)
    ensures RootKept(s.heap, s.rank, s'.heap, s'.rank, r)
  {
    AllEnd(LoadsOf(s.heap, s.rank));
    var o: ORDINAL :| Ends#[o](LoadsOf(s.heap, s.rank));
    slots, s' := ReduceFrom(o, s, r);
    ReducesRuns(s, slots, s', r);
    RunSound(s, slots, s', r);
  }
}
