/** Keeping the value of a shared operand. */
module SharedOperands {
  import opened Streams
  import opened Nets
  import opened Rules
  import opened Soundness

  /** The redex at p stores its left operand twice, and what is live below it is below it. */
  ghost predicate Sharing(h: Heap, rank: Rank, p: nat) {
    Ranked(h, rank) && p in rank && RankedAt(h, rank, p) && Fits(h, h[p].term) && SharesLeft(h, h[p].term)
  }

  ghost predicate SameAt(h: Heap, h': Heap, c: nat) { c < |h| && c < |h'| && h'[c] == h[c] }

  /** Nothing but slot p and slots beyond the heap differs. */
  ghost predicate Elsewhere(h: Heap, p: nat, h': Heap) {
    |h| <= |h'| && forall c: nat {:trigger SameAt(h, h', c)} :: c < |h| && c != p ==> SameAt(h, h', c)
  }

  lemma SameCell(h: Heap, rank: Rank, p: nat, h': Heap, rank': Rank, c: nat)
    requires Ranked(h, rank) && Ranked(h', rank') && p in rank && Elsewhere(h, p, h')
    requires c in rank && c in rank' && rank[c] < rank[p]
    ensures RankedAt(h, rank, c) && RankedAt(h', rank', c) && h'[c] == h[c]
  {
    Live(h, rank, c);
    Live(h', rank', c);
    assert SameAt(h, h', c);
  }

  /** Words below p mean what they meant. */
  lemma {:induction false} BelowKept(h: Heap, rank: Rank, p: nat, h': Heap, rank': Rank, t: Term, env: Env)
    requires Ranked(h, rank) && Ranked(h', rank') && p in rank && Good(rank, t) && Good(rank', t)
    requires Height(rank, t) <= rank[p] && Elsewhere(h, p, h')
    ensures Meaning(h', rank', t, env) == Meaning(h, rank, t, env)
    decreases Height(rank, t)
  {
    match t
    case Num(_) =>
    case Era =>
    case Any =>
    case Sup(lab, s) =>
      var c := if Top(env, lab) then s + 1 else s;
      SameCell(h, rank, p, h', rank', c);
      BelowKept(h, rank, p, h', rank', h[c].term, Pop(env, lab));
    case Dp(side, lab, d) =>
      SameCell(h, rank, p, h', rank', d);
      BelowKept(h, rank, p, h', rank', h[d].term, if h[d].sub then env else Push(env, lab, side));
    case Bin(op, n) =>
      SameCell(h, rank, p, h', rank', n);
      SameCell(h, rank, p, h', rank', n + 1);
      BelowKept(h, rank, p, h', rank', h[n].term, env);
      BelowKept(h, rank, p, h', rank', h[n + 1].term, env);
    case Inc(n) =>
      SameCell(h, rank, p, h', rank', n);
      BelowKept(h, rank, p, h', rank', h[n].term, env);
  }

  /** The node with its left operand read after a bit of the SUP's label has been taken:
      what the step makes of it. */
  ghost function Popped(h: Heap, rank: Rank, p: nat, env: Env): Value
    requires Sharing(h, rank, p)
  {
    LiveFits(h, rank, p);
    var (op, l) := (h[p].term.op, h[p].term.loc);
    Combine(op, Meaning(h, rank, h[l].term, Pop(env, h[l + 1].term.lab)), Meaning(h, rank, h[l + 1].term, env))
  }

  /** A new node of x and a branch y of the SUP, read below the SUP. */
  lemma NodePops(h: Heap, rank: Rank, p: nat, h': Heap, rank': Rank, op: Op, q: nat, x: Term, y: Term, env: Env)
    requires Ranked(h, rank) && Ranked(h', rank') && p in rank && q in rank' && q + 1 in rank'
    requires Good(rank, x) && Good(rank, y) && Height(rank, x) <= rank[p] && Height(rank, y) <= rank[p]
    requires Elsewhere(h, p, h')
    requires q + 1 < |h'| && h'[q].term == x && h'[q + 1].term == y
    ensures Meaning(h', rank', Bin(op, q), env) == Combine(op, Meaning(h, rank, x, env), Meaning(h, rank, y, env))
  {
    Live(h', rank', q);
    Live(h', rank', q + 1);
    BelowKept(h, rank, p, h', rank', x, env);
    BelowKept(h, rank, p, h', rank', y, env);
  }

  /** Where the environment leads below the new SUP. */
  lemma TakenNode(h': Heap, rank': Rank, p: nat, m: Label, n: nat, op: Op, env: Env, side: nat)
    requires Ranked(h', rank') && p in rank' && p < |h'| && n + 5 < |h'| && side == if Top(env, m) then 1 else 0
    requires h'[p].term == Sup(m, n + 4) && h'[n + 4].term == Bin(op, n) && h'[n + 5].term == Bin(op, n + 2)
    ensures RankedAt(h', rank', p) && Good(rank', Bin(op, n + 2 * side))
    ensures Meaning(h', rank', h'[p].term, env) == Meaning(h', rank', Bin(op, n + 2 * side), Pop(env, m))
  {
    Live(h', rank', p);
    Live(h', rank', n + 4 + side);
  }

  /** The operands of the redex are below it, and so are the branches of the SUP. */
  lemma OperandsBelow(h: Heap, rank: Rank, p: nat, op: Op, l: nat, m: Label, s: nat)
    requires Ranked(h, rank) && p in rank && p < |h| && h[p].term == Bin(op, l) && l + 1 < |h| &&
      h[l + 1].term == Sup(m, s)
    ensures s + 1 < |h| && Good(rank, h[l].term) && Good(rank, h[s].term) && Good(rank, h[s + 1].term)
    ensures Height(rank, h[l].term) <= rank[p] && Height(rank, h[s].term) <= rank[p] &&
      Height(rank, h[s + 1].term) <= rank[p]
  {
    LiveFits(h, rank, p);
    LiveFits(h, rank, l + 1);
  }

  lemma StepPops(h: Heap, rank: Rank, p: nat, rank': Rank, env: Env)
    requires Sharing(h, rank, p) && Ranked(Step(h, p), rank') && p in rank'
    ensures RankedAt(Step(h, p), rank', p)
    ensures Meaning(Step(h, p), rank', Step(h, p)[p].term, env) == Popped(h, rank, p, env)
  {
    LiveFits(h, rank, p);
    var (op, l) := (h[p].term.op, h[p].term.loc);
    var (x, Sup(m, s)) := (h[l].term, h[l + 1].term);
    OperandsBelow(h, rank, p, op, l, m, s);
    SharedShape(h, p, op, l, m, s);
    var side := if Top(env, m) then 1 else 0;
    TakenNode(Step(h, p), rank', p, m, |h|, op, env, side);
    NodePops(h, rank, p, Step(h, p), rank', op, |h| + 2 * side, x, h[s + side].term, Pop(env, m));
    PoppedIs(h, rank, p, op, l, m, s, env);
  }

  lemma PoppedIs(h: Heap, rank: Rank, p: nat, op: Op, l: nat, m: Label, s: nat, env: Env)
    requires Sharing(h, rank, p) && h[p].term == Bin(op, l) && l + 1 < |h| && h[l + 1].term == Sup(m, s)
    ensures var y := if Top(env, m) then s + 1 else s;
      y < |h| && Good(rank, h[l].term) && Good(rank, h[y].term) &&
      Popped(h, rank, p, env) == Combine(op, Meaning(h, rank, h[l].term, Pop(env, m)),
                                         Meaning(h, rank, h[y].term, Pop(env, m)))
  {
    LiveFits(h, rank, p);
    LiveFits(h, rank, l + 1);
  }

  lemma SharedShape(h: Heap, p: nat, op: Op, l: nat, m: Label, s: nat)
    requires p < |h| && Fits(h, h[p].term) && RuleOf(h, h[p].term) == DistRight && h[p].term == Bin(op, l)
    requires h[l + 1].term == Sup(m, s)
    ensures var (h', n) := (Step(h, p), |h|);
      |h'| == n + 6 && Elsewhere(h, p, h') && h'[p].term == Sup(m, n + 4) &&
      h'[n] == Plain(h[l].term) && h'[n + 1] == Plain(h[s].term) && h'[n + 2] == Plain(h[l].term) &&
      h'[n + 3] == Plain(h[s + 1].term) && h'[n + 4] == Plain(Bin(op, n)) && h'[n + 5] == Plain(Bin(op, n + 2))
  {
  }

  // ------------------------------------------------------------- when it is kept

  /** The step keeps the value of the redex in one environment. */
  ghost predicate KeepsIn(h: Heap, rank: Rank, p: nat, rank': Rank, env: Env)
    requires Sharing(h, rank, p) && Ranked(Step(h, p), rank') && p in rank'
  {
    RankedAt(Step(h, p), rank', p) &&
    Meaning(Step(h, p), rank', Step(h, p)[p].term, env) == Meaning(h, rank, h[p].term, env)
  }

  /** The left operand of the redex, and the label of the SUP on its right. */
  function LeftOf(h: Heap, p: nat): Term
    requires p < |h| && Fits(h, h[p].term) && SharesLeft(h, h[p].term)
  {
    h[h[p].term.loc].term
  }

  function LabelOf(h: Heap, p: nat): Label
    requires p < |h| && Fits(h, h[p].term) && SharesLeft(h, h[p].term)
  {
    h[h[p].term.loc + 1].term.lab
  }

  /** The left operand is a head-normal node, so it stays stuck in every environment. */
  ghost predicate StuckLeft(h: Heap, rank: Rank, p: nat)
    requires Sharing(h, rank, p)
  {
    LiveFits(h, rank, p);
    HeadNormal(h, rank, LeftOf(h, p))
  }

  lemma LeftIsStuck(h: Heap, rank: Rank, p: nat, env: Env)
    requires Sharing(h, rank, p) && StuckLeft(h, rank, p)
    ensures Good(rank, LeftOf(h, p)) && Meaning(h, rank, LeftOf(h, p), env).VStuck?
  {
    LiveFits(h, rank, p);
    HeadNormalValue(h, rank, LeftOf(h, p), env);
  }

  /** EQL never loses its value: it does not look into a stuck operand. */
  lemma EqlKeeps(h: Heap, rank: Rank, p: nat, rank': Rank, env: Env)
    requires Sharing(h, rank, p) && Ranked(Step(h, p), rank') && p in rank'
    requires h[p].term.op.Eql? && StuckLeft(h, rank, p)
    ensures KeepsIn(h, rank, p, rank', env)
  {
    LiveFits(h, rank, p);
    StepPops(h, rank, p, rank', env);
    LeftIsStuck(h, rank, p, env);
    LeftIsStuck(h, rank, p, Pop(env, LabelOf(h, p)));
  }

  /** OP2 keeps its value in an environment if and only if the left operand is the same
      before and after a bit of the SUP's label has been taken. */
  lemma Op2KeepsIff(h: Heap, rank: Rank, p: nat, rank': Rank, env: Env)
    requires Sharing(h, rank, p) && Ranked(Step(h, p), rank') && p in rank'
    requires h[p].term.op.Op2? && StuckLeft(h, rank, p)
    ensures Good(rank, LeftOf(h, p))
    ensures KeepsIn(h, rank, p, rank', env) <==>
      Meaning(h, rank, LeftOf(h, p), Pop(env, LabelOf(h, p))) == Meaning(h, rank, LeftOf(h, p), env)
  {
    LiveFits(h, rank, p);
    StepPops(h, rank, p, rank', env);
    LeftIsStuck(h, rank, p, env);
    LeftIsStuck(h, rank, p, Pop(env, LabelOf(h, p)));
  }

  /** No SUP with label m can be reached from t. */
  ghost predicate NoSup(h: Heap, rank: Rank, t: Term, m: Label)
    requires Ranked(h, rank) && Good(rank, t)
    decreases Height(rank, t)
  {
    match t
    case Sup(lab, s) =>
      Live(h, rank, s);
      Live(h, rank, s + 1);
      lab != m && NoSup(h, rank, h[s].term, m) && NoSup(h, rank, h[s + 1].term, m)
    case Dp(_, _, d) =>
      Live(h, rank, d);
      NoSup(h, rank, h[d].term, m)
    case Bin(_, n) =>
      Live(h, rank, n);
      Live(h, rank, n + 1);
      NoSup(h, rank, h[n].term, m) && NoSup(h, rank, h[n + 1].term, m)
    case Inc(n) =>
      Live(h, rank, n);
      NoSup(h, rank, h[n].term, m)
    case _ => true
  }

  /** Environments that differ in the stream of label m at most. */
  ghost predicate AgreeOff(env: Env, env': Env, m: Label) {
    forall lab: Label :: lab != m ==> env'[lab] == env[lab]
  }

  /** A term without such a SUP does not read that stream. */
  lemma {:induction false} NoSupReads(h: Heap, rank: Rank, t: Term, m: Label, env: Env, env': Env)
    requires Ranked(h, rank) && Good(rank, t) && NoSup(h, rank, t, m) && AgreeOff(env, env', m)
    ensures Meaning(h, rank, t, env') == Meaning(h, rank, t, env)
    decreases Height(rank, t)
  {
    match t
    case Num(_) =>
    case Era =>
    case Any =>
    case Sup(lab, s) =>
      var c := if Top(env, lab) then s + 1 else s;
      Live(h, rank, c);
      NoSupReads(h, rank, h[c].term, m, Pop(env, lab), Pop(env', lab));
    case Dp(side, lab, d) =>
      Live(h, rank, d);
      if h[d].sub {
        NoSupReads(h, rank, h[d].term, m, env, env');
      } else {
        NoSupReads(h, rank, h[d].term, m, Push(env, lab, side), Push(env', lab, side));
      }
    case Bin(op, n) =>
      Live(h, rank, n);
      Live(h, rank, n + 1);
      NoSupReads(h, rank, h[n].term, m, env, env');
      NoSupReads(h, rank, h[n + 1].term, m, env, env');
    case Inc(n) =>
      Live(h, rank, n);
      NoSupReads(h, rank, h[n].term, m, env, env');
  }

  /** A shared operand is harmless to the value in every environment when the node is an
      EQL, or when the operand holds no SUP with the label that is distributed. */
  lemma SharedKeeps(h: Heap, rank: Rank, p: nat, rank': Rank, env: Env)
    requires Sharing(h, rank, p) && Ranked(Step(h, p), rank') && p in rank' && StuckLeft(h, rank, p)
    requires Good(rank, LeftOf(h, p))
    requires h[p].term.op.Eql? || NoSup(h, rank, LeftOf(h, p), LabelOf(h, p))
    ensures KeepsIn(h, rank, p, rank', env)
  {
    if h[p].term.op.Eql? {
      EqlKeeps(h, rank, p, rank', env);
    } else {
      NoSupReads(h, rank, LeftOf(h, p), LabelOf(h, p), env, Pop(env, LabelOf(h, p)));
      Op2KeepsIff(h, rank, p, rank', env);
    }
  }

  // ------------------------------------------------------------- the counterexample

  /** OP2(AND(ANY, &7{1, 2}), &7{2, 3}): both operands read the stream of label 7. */
  function CorrelatedHeap(): Heap {
    [Plain(Bin(Op2(0), 1)), Plain(Bin(And, 3)), Plain(Sup(7, 5)), Plain(Any), Plain(Sup(7, 7)),
     Plain(Num(2)), Plain(Num(3)), Plain(Num(1)), Plain(Num(2))]
  }

  function CorrelatedRank(): Rank { map[0 := 3, 1 := 2, 2 := 1, 3 := 0, 4 := 1, 5 := 0, 6 := 0, 7 := 0, 8 := 0] }

  /** Ranks after the step, for what can be reached from slot 0. */
  function SharedTwiceRank(): Rank {
    map[0 := 4, 3 := 0, 4 := 1, 5 := 0, 6 := 0, 7 := 0, 8 := 0, 9 := 2, 10 := 0, 11 := 2, 12 := 0, 13 := 3, 14 := 3]
  }

  lemma CorrelatedCell(c: nat)
    requires c <= 8
    ensures RankedAt(CorrelatedHeap(), CorrelatedRank(), c) && PlainAt(CorrelatedHeap(), c)
    ensures !CorrelatedHeap()[c].term.Dp? && (c > 4 || c == 3 ==> Atom(CorrelatedHeap()[c].term))
  {
    assert c == 0 || c == 1 || c == 2 || c == 3 || c == 4 || c == 5 || c == 6 || c == 7 || c == 8;
  }

  lemma CorrelatedPair(c: nat, d: nat)
    requires c <= 8 && d <= 8
    ensures ApartAt(CorrelatedHeap(), c, d)
  {
    CorrelatedCell(c);
    CorrelatedCell(d);
    assert (c == 0 || c == 1 || c == 2 || c == 4 || c == 3 || c > 4) &&
      (d == 0 || d == 1 || d == 2 || d == 4 || d == 3 || d > 4);
  }

  lemma CorrelatedValid()
    ensures Valid(CorrelatedHeap(), CorrelatedRank())
  {
    var (h, rank) := (CorrelatedHeap(), CorrelatedRank());
    forall c | c in rank ensures RankedAt(h, rank, c) && PlainAt(h, c) { CorrelatedCell(c); }
    forall c, d | c in rank && d in rank ensures ApartAt(h, c, d) { CorrelatedPair(c, d); }
  }

  /** The heap after the step. */
  function SharedTwice(): Heap {
    [Plain(Sup(7, 13)), Plain(Bin(And, 3)), Plain(Sup(7, 5)), Plain(Any), Plain(Sup(7, 7)),
     Plain(Num(2)), Plain(Num(3)), Plain(Num(1)), Plain(Num(2)),
     Plain(Bin(And, 3)), Plain(Num(2)), Plain(Bin(And, 3)), Plain(Num(3)), Plain(Bin(Op2(0), 9)),
     Plain(Bin(Op2(0), 11))]
  }

  lemma SharedTwiceIs()
    ensures Fits(CorrelatedHeap(), CorrelatedHeap()[0].term) && Step(CorrelatedHeap(), 0) == SharedTwice()
  {
    CorrelatedCell(0);
  }

  lemma SharedTwiceCell(c: nat)
    requires c in SharedTwiceRank()
    ensures RankedAt(SharedTwice(), SharedTwiceRank(), c)
  {
    assert c == 0 || c == 3 || c == 4 || c == 5 || c == 6 || c == 7 || c == 8 || c == 9 || c == 10 || c == 11 ||
      c == 12 || c == 13 || c == 14;
  }

  /** What the left operand is in an environment. */
  lemma CorrelatedLeft(env: Env)
    ensures Ranked(CorrelatedHeap(), CorrelatedRank()) && RankedAt(CorrelatedHeap(), CorrelatedRank(), 1)
    ensures Meaning(CorrelatedHeap(), CorrelatedRank(), Bin(And, 3), env) ==
      VStuck(And, VAny, VNum(if Top(env, 7) then 2 else 1))
  {
    CorrelatedValid();
    CorrelatedCell(1);
    CorrelatedCell(4);
    CorrelatedCell(7);
    CorrelatedCell(8);
    assert Meaning(CorrelatedHeap(), CorrelatedRank(), Sup(7, 7), env) == VNum(if Top(env, 7) then 2 else 1);
    assert Meaning(CorrelatedHeap(), CorrelatedRank(), Any, env) == VAny;
  }

  lemma SharedTwiceRanked()
    ensures Ranked(SharedTwice(), SharedTwiceRank())
  {
    forall c | c in SharedTwiceRank() ensures RankedAt(SharedTwice(), SharedTwiceRank(), c) { SharedTwiceCell(c); }
  }

  lemma CorrelatedSharing()
    ensures Valid(CorrelatedHeap(), CorrelatedRank()) && Sharing(CorrelatedHeap(), CorrelatedRank(), 0)
  {
    CorrelatedValid();
    CorrelatedCell(0);
  }

  lemma PoppedDiffers(env: Env)
    requires !Top(env, 7) && Top(Pop(env, 7), 7)
    ensures Sharing(CorrelatedHeap(), CorrelatedRank(), 0)
    ensures Popped(CorrelatedHeap(), CorrelatedRank(), 0, env) !=
      Meaning(CorrelatedHeap(), CorrelatedRank(), CorrelatedHeap()[0].term, env)
  {
    CorrelatedSharing();
    CorrelatedCell(1);
    CorrelatedLeft(env);
    CorrelatedLeft(Pop(env, 7));
  }

  /** On this valid net the step changes the value of the root. */
  lemma SharedValueChanges() returns (env: Env)
    ensures Valid(CorrelatedHeap(), CorrelatedRank()) && Sharing(CorrelatedHeap(), CorrelatedRank(), 0)
    ensures Ranked(Step(CorrelatedHeap(), 0), SharedTwiceRank()) &&
      RankedAt(Step(CorrelatedHeap(), 0), SharedTwiceRank(), 0)
    ensures Meaning(Step(CorrelatedHeap(), 0), SharedTwiceRank(), Step(CorrelatedHeap(), 0)[0].term, env) !=
      Meaning(CorrelatedHeap(), CorrelatedRank(), CorrelatedHeap()[0].term, env)
  {
    CorrelatedSharing();
    SharedTwiceIs();
    SharedTwiceRanked();
    var later := Push(ZeroEnv(), 7, true);
    env := Push(later, 7, false);
    PopPush(ZeroEnv(), 7, true);
    PopPush(later, 7, false);
    PoppedDiffers(env);
    StepPops(CorrelatedHeap(), CorrelatedRank(), 0, SharedTwiceRank(), env);
  }
}
