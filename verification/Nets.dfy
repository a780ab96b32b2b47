/** The heap of the interaction-net runtime: packed terms, DUP cells with a SUB
    bit, linearity and acyclicity of the live slots, and the value that a term on
    such a heap selects in a label environment. */
module Nets {
  import opened Streams

  const WORD: nat := 0x1_0000_0000

  type U32 = n: nat | n < WORD

  /** The two-slot nodes [a, b] that are not superpositions. */
  datatype Op = Op2(code: nat) | Eql | And | Or | Seq | Ann

  /** A term word: tag, label (EXT) and location (VAL). `Dp(false, ..)` is DP0
      and `Dp(true, ..)` is DP1. */
  datatype Term =
    | Num(val: U32)
    | Era
    | Any
    | Sup(lab: Label, loc: nat)
    | Dp(side: bool, lab: Label, loc: nat)
    | Bin(op: Op, loc: nat)
    | Inc(loc: nat)

  /** A heap slot; `sub` is the SUB bit of the word stored there. */
  datatype Cell = Cell(term: Term, sub: bool)

  type Heap = seq<Cell>

  /** Number of heap slots of the node a term points to. */
  function Size(t: Term): nat {
    if t.Sup? || t.Bin? then 2 else if t.Dp? || t.Inc? then 1 else 0
  }

  predicate Atom(t: Term) { t.Num? || t.Era? || t.Any? }

  predicate InHeap(h: Heap, t: Term) {
    Atom(t) || t.loc + Size(t) <= |h|
  }

  // ---------------------------------------------------------------- linearity

  predicate Overlap(t: Term, u: Term) {
    !Atom(t) && !Atom(u) && t.loc < u.loc + Size(u) && u.loc < t.loc + Size(t)
  }

  /** The two ports of one DUP cell that has not fired yet. */
  predicate Siblings(h: Heap, t: Term, u: Term) {
    t.Dp? && u.Dp? && t.loc == u.loc && t.lab == u.lab && t.side != u.side &&
    t.loc < |h| && !h[t.loc].sub
  }

  /** Two live words may both be stored: they own different nodes, or are the
      two ports of one unfired DUP cell. */
  predicate Apart(h: Heap, t: Term, u: Term) {
    Overlap(t, u) ==> Siblings(h, t, u)
  }

  /** Only DUP ports may point at a slot whose SUB bit is set. */
  predicate PlainNode(h: Heap, t: Term)
    requires InHeap(h, t)
  {
    !Atom(t) && !t.Dp? ==> !h[t.loc].sub && (Size(t) == 2 ==> !h[t.loc + 1].sub)
  }

  // ---------------------------------------------------------------- acyclicity

  /** A ghost rank for every live slot. Slots outside the map are garbage. */
  type Rank = map<nat, nat>

  ghost predicate Good(rank: Rank, t: Term) {
    Atom(t) || (t.loc in rank && (Size(t) == 2 ==> t.loc + 1 in rank))
  }

  ghost function Height(rank: Rank, t: Term): nat
    requires Good(rank, t)
  {
    if Atom(t) then 0
    else if Size(t) == 1 then rank[t.loc] + 1
    else Max(rank[t.loc], rank[t.loc + 1]) + 1
  }

  function Max(a: nat, b: nat): nat { if a < b then b else a }

  /** Slot c points below itself. */
  ghost predicate RankedAt(h: Heap, rank: Rank, c: nat) {
    c < |h| && c in rank && Good(rank, h[c].term) && Height(rank, h[c].term) <= rank[c] &&
    InHeap(h, h[c].term)
  }

  ghost predicate Ranked(h: Heap, rank: Rank) {
    forall c {:trigger RankedAt(h, rank, c)} :: c in rank ==> RankedAt(h, rank, c)
  }

  lemma Live(h: Heap, rank: Rank, c: nat)
    requires Ranked(h, rank) && c in rank
    ensures RankedAt(h, rank, c)
  {
  }

  predicate PlainAt(h: Heap, c: nat) {
    c < |h| && InHeap(h, h[c].term) && PlainNode(h, h[c].term)
  }

  predicate ApartAt(h: Heap, c: nat, d: nat) {
    c < |h| && d < |h| && (c != d ==> Apart(h, h[c].term, h[d].term))
  }

  ghost predicate Linear(h: Heap, live: set<nat>) {
    && (forall c {:trigger PlainAt(h, c)} :: c in live ==> PlainAt(h, c))
    && (forall c, d {:trigger ApartAt(h, c, d)} :: c in live && d in live ==> ApartAt(h, c, d))
  }

  lemma LivePair(h: Heap, rank: Rank, c: nat, d: nat)
    requires Linear(h, rank.Keys) && c in rank && d in rank
    ensures ApartAt(h, c, d)
  {
  }

  /** The net invariant: acyclic and linear on its live slots. */
  ghost predicate Valid(h: Heap, rank: Rank) {
    Ranked(h, rank) && Linear(h, rank.Keys)
  }

  // ---------------------------------------------------------------- meaning

  datatype Value =
    | VNum(val: U32)
    | VEra
    | VAny
    | VStuck(op: Op, left: Value, right: Value)

  function B2N(b: bool): U32 { if b then 1 else 0 }

  lemma MulGrows(y: nat, q: nat)
    requires y > 0
    ensures q <= y * q
  {
    if y > 1 {
      MulGrows(y - 1, q);
      assert y * q == (y - 1) * q + q;
    }
  }

  lemma QuotientBound(x: nat, y: nat)
    requires y > 0
    ensures x / y <= x
  {
    MulGrows(y, x / y);
  }

  function Quotient(x: U32, y: U32): U32 {
    if y == 0 then 0 else QuotientBound(x, y); x / y
  }

  function Remainder(x: U32, y: U32): U32 {
    if y == 0 then 0 else x % y
  }

  /** 32-bit arithmetic of OP2; division and remainder by zero give zero. */
  function Arith(code: nat, x: U32, y: U32): U32 {
    match code
    case 0 => (x + y) % WORD
    case 1 => (x - y) % WORD
    case 2 => (x * y) % WORD
    case 3 => Quotient(x, y)
    case 4 => B2N(x == y)
    case 5 => Remainder(x, y)
    case _ => 0
  }

  function Combine(op: Op, a: Value, b: Value): Value {
    match op
    case Op2(code) =>
      if a.VNum? && b.VNum? then VNum(Arith(code, a.val, b.val)) else VStuck(op, a, b)
    case Eql =>
      if a.VEra? then VEra
      else if a.VAny? then VNum(1)
      else if b.VEra? then VEra
      else if b.VAny? then VNum(1)
      else VNum(B2N(a.VNum? && b.VNum? && a.val == b.val))
    case And =>
      if a.VNum? then if a.val == 0 then a else b
      else if a.VEra? then VEra
      else VStuck(op, a, b)
    case Or =>
      if a.VNum? then if a.val == 0 then b else VNum(1)
      else if a.VEra? then VEra
      else VStuck(op, a, b)
    case Seq => b
    case Ann => a
  }

  /** The value a term selects in a label environment. */
  ghost function Meaning(h: Heap, rank: Rank, t: Term, env: Env): Value
    requires Ranked(h, rank) && Good(rank, t)
    decreases Height(rank, t)
  {
    match t
    case Num(n) => VNum(n)
    case Era => VEra
    case Any => VAny
    case Sup(lab, s) =>
      var c := if Top(env, lab) then s + 1 else s;
      Live(h, rank, c);
      Meaning(h, rank, h[c].term, Pop(env, lab))
    case Dp(side, lab, d) =>
      Live(h, rank, d);
      Meaning(h, rank, h[d].term, if h[d].sub then env else Push(env, lab, side))
    case Bin(op, n) =>
      Live(h, rank, n);
      Live(h, rank, n + 1);
      Combine(op, Meaning(h, rank, h[n].term, env), Meaning(h, rank, h[n + 1].term, env))
    case Inc(n) =>
      Live(h, rank, n);
      Meaning(h, rank, h[n].term, env)
  }

  /** What a term means depends on the heap alone, not on the ghost ranks. */
  lemma {:induction false} MeaningOfHeap(h: Heap, rank: Rank, rank': Rank, t: Term, env: Env)
    requires Ranked(h, rank) && Ranked(h, rank') && Good(rank, t) && Good(rank', t)
    ensures Meaning(h, rank, t, env) == Meaning(h, rank', t, env)
    decreases Height(rank, t)
  {
    match t
    case Num(_) =>
    case Era =>
    case Any =>
    case Sup(lab, s) =>
      var c := if Top(env, lab) then s + 1 else s;
      Live(h, rank, c);
      Live(h, rank', c);
      MeaningOfHeap(h, rank, rank', h[c].term, Pop(env, lab));
    case Dp(side, lab, d) =>
      Live(h, rank, d);
      Live(h, rank', d);
      MeaningOfHeap(h, rank, rank', h[d].term, if h[d].sub then env else Push(env, lab, side));
    case Bin(op, n) =>
      Live(h, rank, n);
      Live(h, rank', n);
      Live(h, rank, n + 1);
      Live(h, rank', n + 1);
      MeaningOfHeap(h, rank, rank', h[n].term, env);
      MeaningOfHeap(h, rank, rank', h[n + 1].term, env);
    case Inc(n) =>
      Live(h, rank, n);
      Live(h, rank', n);
      MeaningOfHeap(h, rank, rank', h[n].term, env);
  }
}
