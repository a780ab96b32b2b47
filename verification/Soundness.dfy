/** One interaction keeps the net linear and acyclic, and every root's value. */
module Soundness {
  import opened Streams
  import opened Nets
  import opened Rules
  import opened Patches
  import opened Keeping
  import opened Duplication
  import opened Distribution

  ghost function PlanOf(h: Heap, rank: Rank, p: nat): Plan
    requires Ranked(h, rank) && p in rank
  {
    LiveFits(h, rank, p);
    var t := h[p].term;
    match RuleOf(h, t)
    case Blocked => Plan({}, [], [], p, p, p, p)
    case TakeSub => TakePlan(p, t.loc)
    case Annihilate => AnnihilatePlan(p, t.side, t.loc, h[t.loc].term.loc)
    case Commute =>
      LiveFits(h, rank, t.loc);
      CommutePlan(rank, p, t.loc, h[t.loc].term.loc)
    case CopyAtom => AtomPlan(p, t.loc)
    case CopyNode =>
      LiveFits(h, rank, t.loc);
      CopyPlan(rank, p, t.loc, h[t.loc].term.op, h[t.loc].term.loc)
    case DistLeft => LeftPlan(rank, p, t.loc, h[t.loc].term.loc)
    case DistRight => RightPlan(rank, p, t.loc, h[t.loc + 1].term.loc)
    case LiftLeft => LiftPlan(rank, p, t.loc, h[t.loc].term.loc, h[t.loc].term.loc, t.loc + 1)
    case LiftRight => LiftPlan(rank, p, t.loc, h[t.loc + 1].term.loc, t.loc, h[t.loc + 1].term.loc)
    case Mismatch => AnswerPlan(p, t.loc)
    case Reply(answer, _) =>
      if Atom(answer) then AnswerPlan(p, t.loc)
      else ForwardPlan(p, t, if t.op.Ann? then t.loc else t.loc + 1)
    case Strip => ForwardPlan(p, t, t.loc)
  }

  /** The ghost ranks after the step at p. */
  ghost function StepRank(h: Heap, rank: Rank, p: nat): Rank
    requires Ranked(h, rank) && p in rank
  {
    LiveFits(h, rank, p);
    if RuleOf(h, h[p].term) == Blocked then rank else Regrow(rank, |h|, PlanOf(h, rank, p))
  }

  // ----------------------------------------------------------- when a step is sound

  /** Head normal: an atom, a SUP, or a strict node stuck on head-normal operands. */
  ghost predicate HeadNormal(h: Heap, rank: Rank, t: Term)
    requires Ranked(h, rank) && Good(rank, t)
    decreases Height(rank, t)
  {
    match t
    case Sup(_, _) => true
    case Bin(op, n) =>
      Live(h, rank, n);
      Live(h, rank, n + 1);
      BinRule(op, h[n].term, h[n + 1].term) == Blocked && HeadNormal(h, rank, h[n].term) &&
      (op.Op2? ==> HeadNormal(h, rank, h[n + 1].term))
    case _ => Atom(t)
  }

  /** EQL looks at operands the reducer has brought to head-normal form: the
      left one always, the right one before it may answer that they differ. */
  ghost predicate Ready(h: Heap, rank: Rank, p: nat)
    requires Ranked(h, rank) && p in rank
  {
    LiveFits(h, rank, p);
    var t := h[p].term;
    t.Bin? && t.op.Eql? ==>
      (h[t.loc].term.Inc? || HeadNormal(h, rank, h[t.loc].term)) &&
      (RuleOf(h, t) == Mismatch ==> HeadNormal(h, rank, h[t.loc + 1].term))
  }

  /** The right-hand SUP rules of OP2 and EQL store the left operand twice. */
  predicate SharesLeft(h: Heap, t: Term)
    requires Fits(h, t)
  {
    RuleOf(h, t) == DistRight && !Atom(h[t.loc].term)
  }

  lemma HeadNormalValue(h: Heap, rank: Rank, t: Term, env: Env)
    requires Ranked(h, rank) && Good(rank, t) && HeadNormal(h, rank, t) && t.Bin?
    ensures Meaning(h, rank, t, env).VStuck?
    decreases Height(rank, t)
  {
    var n := t.loc;
    Live(h, rank, n);
    Live(h, rank, n + 1);
    if h[n].term.Bin? { HeadNormalValue(h, rank, h[n].term, env); }
    if t.op.Op2? && h[n + 1].term.Bin? { HeadNormalValue(h, rank, h[n + 1].term, env); }
  }

  // -------------------------------------------------------- roots of the net

  predicate HitsAt(h: Heap, c: nat, r: nat) { c < |h| && Hits(h[c].term, r) }

  /** A live slot that no live word points at. */
  ghost predicate Root(h: Heap, rank: Rank, r: nat) {
    r in rank && forall c {:trigger HitsAt(h, c, r)} :: c in rank ==> !HitsAt(h, c, r)
  }

  /** Every root is still a root and selects the same values. */
  ghost predicate RootKept(h: Heap, rank: Rank, h': Heap, rank': Rank, r: nat)
    requires Ranked(h, rank) && Ranked(h', rank') && r in rank
  {
    RankedAt(h, rank, r) && Root(h', rank', r) && RankedAt(h', rank', r) &&
    h'[r].sub == h[r].sub &&
    forall env: Env :: Meaning(h', rank', h'[r].term, env) == Meaning(h, rank, h[r].term, env)
  }

  /** What is proved of a single interaction. */
  ghost predicate Preserves(h: Heap, rank: Rank, p: nat, h': Heap, rank': Rank) {
    Valid(h, rank) && Valid(h', rank') && |h| <= |h'| && p in rank' &&
    forall r: nat {:trigger Root(h, rank, r)} :: Root(h, rank, r) ==> RootKept(h, rank, h', rank', r)
  }

  lemma PatchKeepsRoots(h: Heap, rank: Rank, p: nat, h': Heap, rank': Rank, plan: Plan, spare: nat)
    requires Patched(h, rank, p, h', rank', plan, spare)
    requires Valid(h', rank') && RankedAt(h, rank, p)
    requires KeptBelow(h, rank, h', rank', plan, Height(rank, h[p].term) - 1) ==> Faithful(h, rank, p, h', rank')
    requires forall r: nat {:trigger Root(h, rank, r)} :: Root(h, rank, r) ==> r !in plan.dead && r != spare
    ensures Preserves(h, rank, p, h', rank')
  {
    assert p in rank' by {
      KeepAll(h, rank, p, h', rank', plan, spare, Height(rank, h[p].term));
      assert KeptBelow(h, rank, h', rank', plan, Height(rank, h[p].term) - 1) by {
        forall c: nat, env: Env | Low(h, rank, plan, c, Height(rank, h[p].term) - 1)
          ensures KeptAt(h, rank, h', rank', plan, c, env)
        {
          assert Low(h, rank, plan, c, Height(rank, h[p].term));
        }
      }
      assert FaithfulIn(h, rank, p, h', rank', ZeroEnv());
    }
    forall r: nat | Root(h, rank, r) ensures RootKept(h, rank, h', rank', r) {
      assert RankedAt(h, rank, r) && !HitsAt(h, p, r);
      assert r in rank' && RankedAt(h', rank', r);
      forall c | c in rank' ensures !HitsAt(h', c, r) {
        assert Placed(h, rank, p, h', rank', plan, c, spare);
        var o := Source(plan, |h|, c);
        if o >= 0 { assert !HitsAt(h, o, r); }
      }
      var k := Max(Height(rank, h[p].term), Height(rank, h[r].term));
      KeepAll(h, rank, p, h', rank', plan, spare, k);
      assert KeptBelow(h, rank, h', rank', plan, Height(rank, h[p].term) - 1) by {
        forall c: nat, env: Env | Low(h, rank, plan, c, Height(rank, h[p].term) - 1)
          ensures KeptAt(h, rank, h', rank', plan, c, env)
        {
          assert Low(h, rank, plan, c, k);
        }
      }
      forall env: Env ensures Meaning(h', rank', h'[r].term, env) == Meaning(h, rank, h[r].term, env) {
        assert FaithfulIn(h, rank, p, h', rank', env);
        if r != p {
          assert r != plan.d && Source(plan, |h|, r) == r;
          assert Low(h, rank, plan, r, k);
          assert KeptAt(h, rank, h', rank', plan, r, env);
        }
      }
    }
  }

  ghost predicate Redex(h: Heap, rank: Rank, p: nat) {
    Valid(h, rank) && p in rank && RankedAt(h, rank, p) && Fits(h, h[p].term)
  }

  lemma SoundTakeSub(h: Heap, rank: Rank, p: nat)
    requires Redex(h, rank, p) && RuleOf(h, h[p].term) == TakeSub
    ensures Preserves(h, rank, p, Step(h, p), StepRank(h, rank, p))
  {
    var t := h[p].term;
    var (side, lab, d) := (t.side, t.lab, t.loc);
    LiveFits(h, rank, p);
    LiveFits(h, rank, d);
    assert PlainAt(h, d);
    var (h', rank', plan) := (Step(h, p), StepRank(h, rank, p), PlanOf(h, rank, p));
    RegrowRegrown(h, rank, plan);
    TakePatched(h, rank, p, side, lab, d, h', rank');
    PatchedValid(h, rank, p, h', rank', plan, |h|);
    if KeptBelow(h, rank, h', rank', plan, Height(rank, t) - 1) {
      TakeFaithful(h, rank, p, side, lab, d, h', rank');
    }
    forall r: nat | Root(h, rank, r) ensures r !in plan.dead && r != |h| {
      Live(h, rank, r);
      assert !HitsAt(h, p, r);
    }
    PatchKeepsRoots(h, rank, p, h', rank', plan, |h|);
  }

  lemma SoundAnnihilate(h: Heap, rank: Rank, p: nat)
    requires Redex(h, rank, p) && RuleOf(h, h[p].term) == Annihilate
    ensures Preserves(h, rank, p, Step(h, p), StepRank(h, rank, p))
  {
    var t := h[p].term;
    var (side, lab, d) := (t.side, t.lab, t.loc);
    LiveFits(h, rank, p);
    LiveFits(h, rank, d);
    assert PlainAt(h, d);
    var s := h[d].term.loc;
    var (h', rank', plan) := (Step(h, p), StepRank(h, rank, p), PlanOf(h, rank, p));
    RegrowRegrown(h, rank, plan);
    AnnihilateShape(h, p, side, lab, d, s);
    AnnihilatePatched(h, rank, p, side, lab, d, s, h', rank');
    PatchedValid(h, rank, p, h', rank', plan, |h|);
    if KeptBelow(h, rank, h', rank', plan, Height(rank, t) - 1) {
      AnnihilateFaithful(h, rank, p, side, lab, d, s, h', rank');
    }
    forall r: nat | Root(h, rank, r) ensures r !in plan.dead && r != |h| {
      Live(h, rank, r);
      assert !HitsAt(h, d, r);
    }
    PatchKeepsRoots(h, rank, p, h', rank', plan, |h|);
  }

  lemma AnnihilateShape(h: Heap, p: nat, side: bool, lab: Label, d: nat, s: nat)
    requires p < |h| && Fits(h, h[p].term) && h[p].term == Dp(side, lab, d)
    requires d != p && h[d] == Plain(Sup(lab, s)) && s + 1 < |h|
    ensures AnnihilateTo(h, p, side, d, s, Step(h, p))
  {
    assert RuleOf(h, h[p].term) == Annihilate;
  }

  lemma SoundCopyAtom(h: Heap, rank: Rank, p: nat)
    requires Redex(h, rank, p) && RuleOf(h, h[p].term) == CopyAtom
    ensures Preserves(h, rank, p, Step(h, p), StepRank(h, rank, p))
  {
    var t := h[p].term;
    var (side, lab, d) := (t.side, t.lab, t.loc);
    LiveFits(h, rank, p);
    LiveFits(h, rank, d);
    assert PlainAt(h, d);
    var (h', rank', plan) := (Step(h, p), StepRank(h, rank, p), PlanOf(h, rank, p));
    RegrowRegrown(h, rank, plan);
    AtomShape(h, p, side, lab, d);
    AtomPatched(h, rank, p, side, lab, d, h', rank');
    PatchedValid(h, rank, p, h', rank', plan, |h|);
    if KeptBelow(h, rank, h', rank', plan, Height(rank, t) - 1) {
      AtomFaithful(h, rank, p, side, lab, d, h', rank');
    }
    forall r: nat | Root(h, rank, r) ensures r !in plan.dead && r != |h| {
      Live(h, rank, r);
    }
    PatchKeepsRoots(h, rank, p, h', rank', plan, |h|);
  }

  lemma AtomShape(h: Heap, p: nat, side: bool, lab: Label, d: nat)
    requires p < |h| && Fits(h, h[p].term) && h[p].term == Dp(side, lab, d)
    requires d != p && !h[d].sub && Atom(h[d].term)
    ensures AtomTo(h, p, d, Step(h, p))
  {
    assert RuleOf(h, h[p].term) == CopyAtom;
  }

  lemma SoundCommute(h: Heap, rank: Rank, p: nat)
    requires Redex(h, rank, p) && RuleOf(h, h[p].term) == Commute
    ensures Preserves(h, rank, p, Step(h, p), StepRank(h, rank, p))
  {
    var t := h[p].term;
    var (side, lab, d) := (t.side, t.lab, t.loc);
    LiveFits(h, rank, p);
    LiveFits(h, rank, d);
    assert PlainAt(h, d);
    var (m, s) := (h[d].term.lab, h[d].term.loc);
    var (h', rank', plan) := (Step(h, p), StepRank(h, rank, p), PlanOf(h, rank, p));
    RegrowRegrown(h, rank, plan);
    CommuteShape(h, p, side, lab, d, m, s);
    assert Commuting(h, rank, p, side, lab, d, m, s, h', rank');
    CommutePatched(h, rank, p, side, lab, d, m, s, h', rank');
    PatchedValid(h, rank, p, h', rank', plan, s);
    if KeptBelow(h, rank, h', rank', plan, Height(rank, t) - 1) {
      CommuteFaithful(h, rank, p, side, lab, d, m, s, h', rank');
    }
    forall r: nat | Root(h, rank, r) ensures r !in plan.dead && r != s {
      assert !HitsAt(h, d, r);
    }
    PatchKeepsRoots(h, rank, p, h', rank', plan, s);
  }

  lemma CommuteShape(h: Heap, p: nat, side: bool, lab: Label, d: nat, m: Label, s: nat)
    requires p < |h| && Fits(h, h[p].term) && h[p].term == Dp(side, lab, d)
    requires d != p && h[d] == Plain(Sup(m, s)) && m != lab && s + 1 < |h| && !h[s].sub
    requires s != p && s != d
    ensures CommuteTo(h, p, side, lab, d, m, s, Step(h, p))
  {
    var n := |h|;
    var h' := Step(h, p);
    assert RuleOf(h, h[p].term) == Commute;
    var q := Ports(lab, s, n);
    assert h'[n] == Plain(h[s + 1].term);
    assert h'[n + 1] == q[0] && h'[n + 2] == q[1] && h'[n + 3] == q[2] && h'[n + 4] == q[3];
  }

  lemma SoundCopyNode(h: Heap, rank: Rank, p: nat)
    requires Redex(h, rank, p) && RuleOf(h, h[p].term) == CopyNode
    ensures Preserves(h, rank, p, Step(h, p), StepRank(h, rank, p))
  {
    var t := h[p].term;
    var d := t.loc;
    LiveFits(h, rank, p);
    LiveFits(h, rank, d);
    assert PlainAt(h, d);
    var (op, v) := (h[d].term.op, h[d].term.loc);
    RegrowRegrown(h, rank, PlanOf(h, rank, p));
    CopyPlanLayout(rank, |h|, p, d, op, v);
    CopyShape(h, p, t.side, t.lab, d, op, v);
    CopyPreserves(h, rank, p, t.side, t.lab, d, op, v, CopyCells(op, |h|), CopyPorts(op, |h|),
                  Step(h, p), StepRank(h, rank, p), PlanOf(h, rank, p));
  }

  lemma CopyPreserves(h: Heap, rank: Rank, p: nat, side: bool, lab: Label, d: nat, op: Op, v: nat, c: nat, r: nat,
                      h': Heap, rank': Rank, plan: Plan)
    requires Copying(h, rank, p, side, lab, d, op, v, c, r, h', rank', plan)
    ensures Preserves(h, rank, p, h', rank')
  {
    CopyPatched(h, rank, p, side, lab, d, op, v, c, r, h', rank', plan);
    PatchedValid(h, rank, p, h', rank', plan, |h|);
    if KeptBelow(h, rank, h', rank', plan, Height(rank, h[p].term) - 1) {
      CopyFaithful(h, rank, p, side, lab, d, op, v, c, r, h', rank', plan);
    }
    forall x: nat | Root(h, rank, x) ensures x !in plan.dead && x != |h| {
      Live(h, rank, x);
      assert !HitsAt(h, d, x);
    }
    PatchKeepsRoots(h, rank, p, h', rank', plan, |h|);
  }

  lemma CopyShape(h: Heap, p: nat, side: bool, lab: Label, d: nat, op: Op, v: nat)
    requires p < |h| && Fits(h, h[p].term) && h[p].term == Dp(side, lab, d)
    requires d != p && h[d] == Plain(Bin(op, v)) && v + 1 < |h|
    ensures CopyTo(h, p, side, lab, d, op, v, CopyCells(op, |h|), CopyPorts(op, |h|), Step(h, p))
  {
    var (n, h') := (|h|, Step(h, p));
    assert RuleOf(h, h[p].term) == CopyNode;
    var (c, r) := (CopyCells(op, n), CopyPorts(op, n));
    var q := Ports(lab, c, c + 1);
    assert h'[c] == Plain(h[v].term) && h'[c + 1] == Plain(h[v + 1].term);
    assert h'[r] == q[0] && h'[r + 1] == q[1] && h'[r + 2] == q[2] && h'[r + 3] == q[3];
  }

  lemma SoundDistLeft(h: Heap, rank: Rank, p: nat)
    requires Redex(h, rank, p) && RuleOf(h, h[p].term) == DistLeft
    ensures Preserves(h, rank, p, Step(h, p), StepRank(h, rank, p))
  {
    var t := h[p].term;
    LiveFits(h, rank, p);
    LiveFits(h, rank, t.loc);
    var (op, l, m, s) := (t.op, t.loc, h[t.loc].term.lab, h[t.loc].term.loc);
    var (h', rank', plan) := (Step(h, p), StepRank(h, rank, p), PlanOf(h, rank, p));
    RegrowRegrown(h, rank, plan);
    LeftShape(h, p, op, l, m, s);
    LeftPatched(h, rank, p, op, l, m, s, h', rank');
    PatchedValid(h, rank, p, h', rank', plan, |h|);
    if KeptBelow(h, rank, h', rank', plan, Height(rank, t) - 1) {
      LeftFaithful(h, rank, p, op, l, m, s, h', rank');
    }
    forall r: nat | Root(h, rank, r) ensures r !in plan.dead && r != |h| {
      Live(h, rank, r);
      assert !HitsAt(h, p, r) && !HitsAt(h, l, r);
    }
    PatchKeepsRoots(h, rank, p, h', rank', plan, |h|);
  }

  lemma LeftShape(h: Heap, p: nat, op: Op, l: nat, m: Label, s: nat)
    requires p < |h| && Fits(h, h[p].term) && h[p].term == Bin(op, l) && op != Ann
    requires h[l].term == Sup(m, s)
    ensures LeftTo(h, p, op, l, m, s, Step(h, p))
  {
    assert RuleOf(h, h[p].term) == DistLeft;
  }

  lemma SoundDistRight(h: Heap, rank: Rank, p: nat)
    requires Redex(h, rank, p) && RuleOf(h, h[p].term) == DistRight && !SharesLeft(h, h[p].term)
    ensures Preserves(h, rank, p, Step(h, p), StepRank(h, rank, p))
  {
    var t := h[p].term;
    LiveFits(h, rank, p);
    LiveFits(h, rank, t.loc + 1);
    var (op, l, m, s) := (t.op, t.loc, h[t.loc + 1].term.lab, h[t.loc + 1].term.loc);
    var (h', rank', plan) := (Step(h, p), StepRank(h, rank, p), PlanOf(h, rank, p));
    RegrowRegrown(h, rank, plan);
    RightShape(h, p, op, l, m, s);
    RightPatched(h, rank, p, op, l, m, s, h', rank');
    PatchedValid(h, rank, p, h', rank', plan, |h|);
    if KeptBelow(h, rank, h', rank', plan, Height(rank, t) - 1) {
      RightFaithful(h, rank, p, op, l, m, s, h', rank');
    }
    forall r: nat | Root(h, rank, r) ensures r !in plan.dead && r != |h| {
      Live(h, rank, r);
      assert !HitsAt(h, p, r) && !HitsAt(h, l + 1, r);
    }
    PatchKeepsRoots(h, rank, p, h', rank', plan, |h|);
  }

  lemma RightShape(h: Heap, p: nat, op: Op, l: nat, m: Label, s: nat)
    requires p < |h| && Fits(h, h[p].term) && h[p].term == Bin(op, l) && RuleOf(h, h[p].term) == DistRight
    requires h[l + 1].term == Sup(m, s)
    ensures RightTo(h, p, op, l, m, s, Step(h, p))
  {
  }

  lemma LiftPreserves(h: Heap, rank: Rank, p: nat, l: nat, i: nat, x: nat, y: nat, h': Heap, rank': Rank)
    requires LiftStep(h, rank, p, l, i, x, y, h', rank')
    ensures Preserves(h, rank, p, h', rank')
  {
    var plan := LiftPlan(rank, p, l, i, x, y);
    LiftPatched(h, rank, p, l, i, x, y, h', rank');
    PatchedValid(h, rank, p, h', rank', plan, |h|);
    if KeptBelow(h, rank, h', rank', plan, Height(rank, h[p].term) - 1) {
      LiftFaithful(h, rank, p, l, i, x, y, h', rank');
    }
    forall r: nat | Root(h, rank, r) ensures r !in plan.dead && r != |h| {
      Live(h, rank, r);
      assert !HitsAt(h, p, r) && !HitsAt(h, if x == i then l else l + 1, r);
    }
    PatchKeepsRoots(h, rank, p, h', rank', plan, |h|);
  }

  lemma SoundLiftLeft(h: Heap, rank: Rank, p: nat)
    requires Redex(h, rank, p) && RuleOf(h, h[p].term) == LiftLeft
    ensures Preserves(h, rank, p, Step(h, p), StepRank(h, rank, p))
  {
    var l := h[p].term.loc;
    LiveFits(h, rank, p);
    LiveFits(h, rank, l);
    var i := h[l].term.loc;
    RegrowRegrown(h, rank, PlanOf(h, rank, p));
    LiftPreserves(h, rank, p, l, i, i, l + 1, Step(h, p), StepRank(h, rank, p));
  }

  lemma SoundLiftRight(h: Heap, rank: Rank, p: nat)
    requires Redex(h, rank, p) && RuleOf(h, h[p].term) == LiftRight
    ensures Preserves(h, rank, p, Step(h, p), StepRank(h, rank, p))
  {
    var l := h[p].term.loc;
    LiveFits(h, rank, p);
    LiveFits(h, rank, l + 1);
    var i := h[l + 1].term.loc;
    RegrowRegrown(h, rank, PlanOf(h, rank, p));
    LiftPreserves(h, rank, p, l, i, l, i, Step(h, p), StepRank(h, rank, p));
  }

  lemma ForwardPreserves(h: Heap, rank: Rank, p: nat, t: Term, q: nat, h': Heap, rank': Rank)
    requires ForwardStep(h, rank, p, t, q, h', rank')
    requires forall env: Env :: Meaning(h, rank, t, env) == Meaning(h, rank, h[q].term, env)
    ensures Preserves(h, rank, p, h', rank')
  {
    var plan := ForwardPlan(p, t, q);
    ForwardPatched(h, rank, p, t, q, h', rank');
    PatchedValid(h, rank, p, h', rank', plan, |h|);
    if KeptBelow(h, rank, h', rank', plan, Height(rank, t) - 1) {
      ForwardFaithful(h, rank, p, t, q, h', rank');
    }
    forall r: nat | Root(h, rank, r) ensures r !in plan.dead && r != |h| {
      Live(h, rank, r);
      assert !HitsAt(h, p, r);
    }
    PatchKeepsRoots(h, rank, p, h', rank', plan, |h|);
  }

  lemma AnswerPreserves(h: Heap, rank: Rank, p: nat, op: Op, l: nat, a: Term, h': Heap, rank': Rank)
    requires AnswerStep(h, rank, p, op, l, a, h', rank')
    requires forall env: Env :: Meaning(h, rank, h[p].term, env) == AtomValue(a)
    ensures Preserves(h, rank, p, h', rank')
  {
    var plan := AnswerPlan(p, l);
    AnswerPatched(h, rank, p, op, l, a, h', rank');
    PatchedValid(h, rank, p, h', rank', plan, |h|);
    AnswerFaithful(h, rank, p, op, l, a, h', rank');
    forall r: nat | Root(h, rank, r) ensures r !in plan.dead && r != |h| {
      Live(h, rank, r);
      assert !HitsAt(h, p, r);
    }
    PatchKeepsRoots(h, rank, p, h', rank', plan, |h|);
  }

  lemma SoundStrip(h: Heap, rank: Rank, p: nat)
    requires Redex(h, rank, p) && RuleOf(h, h[p].term) == Strip
    ensures Preserves(h, rank, p, Step(h, p), StepRank(h, rank, p))
  {
    LiveFits(h, rank, p);
    RegrowRegrown(h, rank, PlanOf(h, rank, p));
    ForwardPreserves(h, rank, p, h[p].term, h[p].term.loc, Step(h, p), StepRank(h, rank, p));
  }

  lemma SoundMismatch(h: Heap, rank: Rank, p: nat)
    requires Redex(h, rank, p) && RuleOf(h, h[p].term) == Mismatch && Ready(h, rank, p)
    ensures Preserves(h, rank, p, Step(h, p), StepRank(h, rank, p))
  {
    LiveFits(h, rank, p);
    var l := h[p].term.loc;
    RegrowRegrown(h, rank, PlanOf(h, rank, p));
    forall env: Env ensures Meaning(h, rank, h[p].term, env) == VNum(0) {
      if h[l].term.Bin? { HeadNormalValue(h, rank, h[l].term, env); }
      if h[l + 1].term.Bin? { HeadNormalValue(h, rank, h[l + 1].term, env); }
    }
    AnswerPreserves(h, rank, p, Eql, l, Num(0), Step(h, p), StepRank(h, rank, p));
  }

  /** A node means what it is replaced by. */
  lemma ReplyMeaning(h: Heap, rank: Rank, p: nat, env: Env)
    requires Redex(h, rank, p) && RuleOf(h, h[p].term).Reply? && Ready(h, rank, p)
    ensures var t := h[p].term;
      var a := RuleOf(h, t).answer;
      var q := if t.op.Ann? then t.loc else t.loc + 1;
      RankedAt(h, rank, q) && (Atom(a) || a == h[q].term) && Good(rank, a) &&
      Meaning(h, rank, t, env) == Meaning(h, rank, a, env)
  {
    LiveFits(h, rank, p);
    var (op, l) := (h[p].term.op, h[p].term.loc);
    if op.Eql? && h[l].term.Bin? { HeadNormalValue(h, rank, h[l].term, env); }
  }

  lemma SoundReply(h: Heap, rank: Rank, p: nat)
    requires Redex(h, rank, p) && RuleOf(h, h[p].term).Reply? && Ready(h, rank, p)
    ensures Preserves(h, rank, p, Step(h, p), StepRank(h, rank, p))
  {
    var t := h[p].term;
    LiveFits(h, rank, p);
    var (op, l, a) := (t.op, t.loc, RuleOf(h, t).answer);
    RegrowRegrown(h, rank, PlanOf(h, rank, p));
    forall env: Env ensures Good(rank, a) && Meaning(h, rank, t, env) == Meaning(h, rank, a, env) {
      ReplyMeaning(h, rank, p, env);
    }
    ReplyMeaning(h, rank, p, ZeroEnv());
    if Atom(a) {
      forall env: Env ensures Meaning(h, rank, t, env) == AtomValue(a) { AtomMeaning(h, rank, a, env); }
      AnswerPreserves(h, rank, p, op, l, a, Step(h, p), StepRank(h, rank, p));
    } else {
      ForwardPreserves(h, rank, p, t, if op.Ann? then l else l + 1, Step(h, p), StepRank(h, rank, p));
    }
  }
}
