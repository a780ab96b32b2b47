/** The parallel continuation protocol of the tree-sum program as atomic steps
    over a heap of continuation cells and a bag of worker activities: dispatch,
    the two halves of a slot write, the countdown, and firing. */
module Continuations {
  import opened TreeSum
  import opened SeqEval

  const FN_BUILD: nat := 0
  const FN_SUM: nat := 1
  const FN_MAIN: nat := 2
  const CONT_BUILD: nat := 3
  const CONT_SUM: nat := 4
  const CONT_MAIN: nat := 5

  const ROOT_RET: nat := 0xFFFFFFFF
  const HEAP_CAP: nat := 0x8000_0000

  /** Function, return address and the two arguments in use. */
  datatype Task = Task(fn: nat, ret: nat, a0: Word, a1: Word)

  /** A continuation cell: header (function id and countdown), the return
      address, the two bytes in use of the packed tag word, and the payloads. */
  datatype Cont = Cont(hdr: nat, ret: nat, tag0: bv8, tag1: bv8, loc0: nat, loc1: nat)

  function EncRet(dp: nat, slot: nat): nat { 2 * dp + slot }

  function Countdown(k: Cont): nat { k.hdr % 4 }

  function FnOf(k: Cont): nat { k.hdr / 4096 }

  /** The tag word as it is stored, and the atomic or of a shifted tag into it. */
  function Packed(tag0: bv8, tag1: bv8): bv32 { (tag0 as bv32) | ((tag1 as bv32) << 8) }

  function OrTag(k: Cont, slot: nat, tag: bv8): Cont {
    if slot == 0 then k.(tag0 := k.tag0 | tag) else k.(tag1 := k.tag1 | tag)
  }

  lemma WidenOr(a: bv8, b: bv8)
    ensures (a | b) as bv32 == (a as bv32) | (b as bv32)
  {
  }

  lemma OrShifted(a: bv32, b: bv32, t: bv32)
    ensures (a | (b << 8)) | (t << 8) == a | ((b | t) << 8)
  {
  }

  /** Or-ing a tag into the packed word for slot 0 leaves the byte of slot 1 alone,
      so the two writers of a cell cannot disturb each other ... */
  lemma OrIntoSlot0(tag0: bv8, tag1: bv8, tag: bv8)
    ensures Packed(tag0, tag1) | (tag as bv32) == Packed(tag0 | tag, tag1)
  {
    WidenOr(tag0, tag);
  }

  /** ... and likewise for slot 1. */
  lemma OrIntoSlot1(tag0: bv8, tag1: bv8, tag: bv8)
    ensures Packed(tag0, tag1) | ((tag as bv32) << 8) == Packed(tag0, tag1 | tag)
  {
    WidenOr(tag1, tag);
    OrShifted(tag0 as bv32, tag1 as bv32, tag as bv32);
  }

  /** The two bytes are read back from the packed word. */
  lemma UnpackTags(tag0: bv8, tag1: bv8)
    ensures Packed(tag0, tag1) & 0xFF == tag0 as bv32
    ensures (Packed(tag0, tag1) >> 8) & 0xFF == tag1 as bv32
  {
  }

  function TagByte(k: Cont, slot: nat): bv8 { if slot == 0 then k.tag0 else k.tag1 }

  function SlotWord(k: Cont, slot: nat): Word {
    if slot == 0 then Word(k.tag0, k.loc0) else Word(k.tag1, k.loc1)
  }

  /** What one worker is in the middle of. */
  datatype Activity =
    | Idle
    | Queued(task: Task)             // in the task buffer, or claimed by a worker
    | Holding(ret: nat, val: Word)   // resolve: a value to deliver
    | Tagged(ret: nat, val: Word)    // its tag has been or-ed into the cell
    | Stored(ret: nat, val: Word)    // its payload has been stored as well
    | Firing(dp: nat)                // the countdown went from one to zero

  /** `depth` is the tree depth that main builds; `result` collects what is
      delivered to the root. */
  datatype State = State(depth: nat, cells: Cells, conts: map<nat, Cont>, acts: seq<Activity>, result: seq<Word>)

  // ------------------------------------------------------------------- steps

  /** Addresses that alloc may return: a fresh block that fits the heap. */
  predicate FreshCells(s: State, loc: nat, n: nat) {
    loc + n <= HEAP_CAP && forall i :: loc <= i < loc + n ==> i !in s.cells
  }

  predicate FreshCont(s: State, dp: nat) {
    dp + 5 <= HEAP_CAP && dp !in s.conts
  }

  function NewCont(fn: nat, ret: nat, need: nat): Cont { Cont(fn * 4096 + need, ret, 0, 0, 0, 0) }

  /** Replace activity i, and append one more if there is one. */
  function Become(s: State, i: nat, a: Activity): State
    requires i < |s.acts|
  {
    s.(acts := s.acts[i := a])
  }

  /** A worker dispatches the task in activity i; `at` is what alloc returned. */
  ghost predicate Dispatch(s: State, i: nat, at: nat, s': State) {
    i < |s.acts| && s.acts[i].Queued? &&
    (var Task(fn, ret, a0, a1) := s.acts[i].task;
     if fn == FN_BUILD then
       if a0.loc == 0 then
         FreshCells(s, at, 1) &&
         s' == Become(s.(cells := s.cells[at := Number(a1.loc)]), i, Holding(ret, Word(1, at)))
       else
         FreshCont(s, at) &&
         s' == SplitTo(s, i, at, CONT_BUILD, ret,
                       Task(FN_BUILD, EncRet(at, 0), Word(0, a0.loc - 1), Word(0, Left(a1.loc))),
                       Task(FN_BUILD, EncRet(at, 1), Word(0, a0.loc - 1), Word(0, Right(a1.loc))))
     else if fn == FN_SUM then
       if a0.tag == 1 then a0.loc in s.cells && s' == Become(s, i, Holding(ret, s.cells[a0.loc]))
       else if a0.tag == 2 then
         FreshCont(s, at) && a0.loc in s.cells && a0.loc + 1 in s.cells &&
         s' == SplitTo(s, i, at, CONT_SUM, ret,
                       Task(FN_SUM, EncRet(at, 0), s.cells[a0.loc], Word(0, 0)),
                       Task(FN_SUM, EncRet(at, 1), s.cells[a0.loc + 1], Word(0, 0)))
       else s' == Become(s, i, Holding(ret, Number(0)))
     else if fn == FN_MAIN then
       FreshCont(s, at) &&
       s' == Become(s.(conts := s.conts[at := NewCont(CONT_MAIN, ret, 1)]), i,
                    Queued(Task(FN_BUILD, EncRet(at, 0), Word(0, s.depth), Word(0, 0))))
     else s' == Become(s, i, Holding(ret, Number(0))))
  }

  function SplitTo(s: State, i: nat, dp: nat, fn: nat, ret: nat, t0: Task, t1: Task): State
    requires i < |s.acts|
  {
    State(s.depth, s.cells, s.conts[dp := NewCont(fn, ret, 2)], s.acts[i := Queued(t0)] + [Queued(t1)], s.result)
  }

  /** A worker evaluates the task in activity i with the sequential evaluator,
      which allocates fresh tree cells and touches nothing else; v is its result. */
  ghost predicate Evaluate(s: State, i: nat, cells: Cells, v: Word, s': State) {
    i < |s.acts| && s.acts[i].Queued? && Extends(s.cells, cells) &&
    (var Task(fn, ret, a0, a1) := s.acts[i].task;
     s' == Become(s.(cells := cells), i, Holding(ret, v)) &&
     if fn == FN_BUILD then TreeAt(cells, v, a0.loc, a1.loc)
     else if fn == FN_SUM then exists n :: IsTree(cells, a0, n) && v == TreeTotal(cells, a0, n)
     else if fn == FN_MAIN then v == Number(SumOf(s.depth, 0))
     else v == Number(0))
  }

  /** resolve at the root: publish the result. */
  ghost predicate Deliver(s: State, i: nat, s': State) {
    i < |s.acts| && s.acts[i].Holding? && s.acts[i].ret == ROOT_RET &&
    s' == Become(s.(result := s.result + [s.acts[i].val]), i, Idle)
  }

  function Put(s: State, dp: nat, k: Cont): State { s.(conts := s.conts[dp := k]) }

  /** write_slot, first half: or the tag into the packed tag word. */
  ghost predicate WriteTag(s: State, i: nat, s': State) {
    i < |s.acts| && s.acts[i].Holding? && s.acts[i].ret != ROOT_RET &&
    (var Holding(ret, v) := s.acts[i];
     var (dp, slot) := (ret / 2, ret % 2);
     dp in s.conts &&
     s' == Become(Put(s, dp, OrTag(s.conts[dp], slot, v.tag)), i, Tagged(ret, v)))
  }

  /** write_slot, second half: store the payload. */
  ghost predicate WriteLoc(s: State, i: nat, s': State) {
    i < |s.acts| && s.acts[i].Tagged? &&
    (var Tagged(ret, v) := s.acts[i];
     var (dp, slot) := (ret / 2, ret % 2);
     dp in s.conts &&
     s' == Become(Put(s, dp, if slot == 0 then s.conts[dp].(loc0 := v.loc) else s.conts[dp].(loc1 := v.loc)),
                  i, Stored(ret, v)))
  }

  /** The atomic countdown: the worker that takes it from one to zero fires. */
  ghost predicate Count(s: State, i: nat, s': State) {
    i < |s.acts| && s.acts[i].Stored? &&
    (var dp := s.acts[i].ret / 2;
     dp in s.conts && s.conts[dp].hdr > 0 &&
     s' == Become(Put(s, dp, s.conts[dp].(hdr := s.conts[dp].hdr - 1)), i,
                  if Countdown(s.conts[dp]) == 1 then Firing(dp) else Idle))
  }

  /** fire_cont and the dispatch of the continuation; `at` is what alloc returned. */
  ghost predicate Fire(s: State, i: nat, at: nat, s': State) {
    i < |s.acts| && s.acts[i].Firing? && s.acts[i].dp in s.conts &&
    (var k := s.conts[s.acts[i].dp];
     var (a0, a1) := (SlotWord(k, 0), SlotWord(k, 1));
     if FnOf(k) == CONT_BUILD then
       FreshCells(s, at, 2) &&
       s' == Become(s.(cells := s.cells[at := a0][at + 1 := a1]), i, Holding(k.ret, Word(2, at)))
     else if FnOf(k) == CONT_SUM then s' == Become(s, i, Holding(k.ret, Number(a0.loc + a1.loc)))
     else if FnOf(k) == CONT_MAIN then s' == Become(s, i, Queued(Task(FN_SUM, k.ret, a0, Word(0, 0))))
     else s' == Become(s, i, Holding(k.ret, Number(0))))
  }

  datatype Action =
    | DoDispatch(i: nat, at: nat)
    | DoEvaluate(i: nat, cells: Cells, v: Word)
    | DoDeliver(i: nat)
    | DoWriteTag(i: nat)
    | DoWriteLoc(i: nat)
    | DoCount(i: nat)
    | DoFire(i: nat, at: nat)

  ghost predicate Next(s: State, a: Action, s': State) {
    match a
    case DoDispatch(i, at) => Dispatch(s, i, at, s')
    case DoEvaluate(i, cells, v) => Evaluate(s, i, cells, v, s')
    case DoDeliver(i) => Deliver(s, i, s')
    case DoWriteTag(i) => WriteTag(s, i, s')
    case DoWriteLoc(i) => WriteLoc(s, i, s')
    case DoCount(i) => Count(s, i, s')
    case DoFire(i, at) => Fire(s, i, at, s')
  }

  function Start(depth: nat): State {
    State(depth, map[], map[], [Queued(Task(FN_MAIN, ROOT_RET, Word(0, 0), Word(0, 0)))], [])
  }

  // --------------------------------------------------------------- invariant

  /** What must be delivered to a return address. */
  datatype Goal = GBuild(d: nat, x: nat) | GSum(d: nat, x: nat)

  ghost predicate Meets(cells: Cells, goal: Goal, v: Word) {
    match goal
    case GBuild(d, x) => TreeAt(cells, v, d, x)
    case GSum(d, x) => v == Number(SumOf(d, x))
  }

  /** Who is going to deliver to a return address, or that it has been counted. */
  datatype Owner = ByAct(i: nat) | ByCont(dp: nat) | Counted

  /** Ghost bookkeeping: an owner and a goal for every return address ever made,
      the continuations that have not fired, those that have, and the activity
      that is about to fire a continuation whose countdown is zero. */
  datatype Book = Book(owner: map<nat, Owner>, goal: map<nat, Goal>, live: set<nat>, fired: set<nat>,
                       firer: map<nat, nat>)

  function Need(fn: nat): nat { if fn == CONT_MAIN then 1 else 2 }

  ghost predicate Owned(b: Book, r: nat, o: Owner) {
    r in b.owner && r in b.goal && b.owner[r] == o
  }

  ghost predicate TaskFits(s: State, t: Task, goal: Goal) {
    if t.fn == FN_BUILD then goal == GBuild(t.a0.loc, t.a1.loc)
    else if t.fn == FN_SUM then goal.GSum? && TreeAt(s.cells, t.a0, goal.d, goal.x)
    else t.fn == FN_MAIN && goal == GSum(s.depth, 0)
  }

  ghost predicate ActOk(s: State, b: Book, i: nat) {
    i < |s.acts| &&
    match s.acts[i]
    case Idle => true
    case Queued(t) => Owned(b, t.ret, ByAct(i)) && TaskFits(s, t, b.goal[t.ret])
    case Holding(r, v) => Owned(b, r, ByAct(i)) && Meets(s.cells, b.goal[r], v)
    case Tagged(r, v) => r != ROOT_RET && Owned(b, r, ByAct(i)) && Meets(s.cells, b.goal[r], v)
    case Stored(r, v) => r != ROOT_RET && Owned(b, r, ByAct(i)) && Meets(s.cells, b.goal[r], v)
    case Firing(dp) => dp in b.live && dp in s.conts && dp in b.firer && b.firer[dp] == i && Countdown(s.conts[dp]) == 0
  }

  /** The return address an activity delivers to. */
  function Claims(a: Activity, r: nat): bool {
    match a
    case Queued(t) => t.ret == r
    case Holding(q, _) => q == r
    case Tagged(q, _) => q == r
    case Stored(q, _) => q == r
    case _ => false
  }

  ghost predicate SlotOk(s: State, b: Book, dp: nat, slot: nat)
    requires dp in s.conts
  {
    var (k, r) := (s.conts[dp], EncRet(dp, slot));
    r in b.owner && r in b.goal &&
    match b.owner[r]
    case Counted => Meets(s.cells, b.goal[r], SlotWord(k, slot))
    case ByCont(q) => q in b.live && q in s.conts && s.conts[q].ret == r && TagByte(k, slot) == 0
    case ByAct(i) =>
      i < |s.acts| && Claims(s.acts[i], r) &&
      (match s.acts[i]
       case Tagged(_, v) => TagByte(k, slot) == v.tag
       case Stored(_, v) => SlotWord(k, slot) == v
       case _ => TagByte(k, slot) == 0)
  }

  function Open(b: Book, r: nat): nat { if r in b.owner && b.owner[r] == Counted then 0 else 1 }

  /** Slots of dp that have not been counted. */
  function Remaining(b: Book, dp: nat, fn: nat): nat {
    Open(b, EncRet(dp, 0)) + if Need(fn) == 2 then Open(b, EncRet(dp, 1)) else 0
  }

  /** The goals of a continuation's slots are the ones its own goal needs. */
  ghost predicate GoalsOk(s: State, b: Book, dp: nat, fn: nat, ret: nat)
    requires ret in b.goal && EncRet(dp, 0) in b.goal && (Need(fn) == 2 ==> EncRet(dp, 1) in b.goal)
  {
    var (g, g0) := (b.goal[ret], b.goal[EncRet(dp, 0)]);
    if fn == CONT_BUILD then
      g.GBuild? && g.d > 0 && g0 == GBuild(g.d - 1, Left(g.x)) &&
      b.goal[EncRet(dp, 1)] == GBuild(g.d - 1, Right(g.x))
    else if fn == CONT_SUM then
      g.GSum? && g.d > 0 && g0 == GSum(g.d - 1, Left(g.x)) &&
      b.goal[EncRet(dp, 1)] == GSum(g.d - 1, Right(g.x))
    else fn == CONT_MAIN && g == GSum(s.depth, 0) && g0 == GBuild(s.depth, 0)
  }

  ghost predicate ContOk(s: State, b: Book, dp: nat) {
    dp in s.conts && dp + 5 <= HEAP_CAP &&
    (var k := s.conts[dp];
     var fn := FnOf(k);
     Owned(b, k.ret, ByCont(dp)) && SlotOk(s, b, dp, 0) && (Need(fn) == 2 ==> SlotOk(s, b, dp, 1)) &&
     GoalsOk(s, b, dp, fn, k.ret) &&
     k.hdr == fn * 4096 + Remaining(b, dp, fn) &&
     (Remaining(b, dp, fn) == 0 ==>
        dp in b.firer && b.firer[dp] < |s.acts| && s.acts[b.firer[dp]] == Firing(dp)))
  }

  ghost predicate RootOk(s: State, b: Book) {
    ROOT_RET in b.owner && ROOT_RET in b.goal && b.goal[ROOT_RET] == GSum(s.depth, 0) &&
    match b.owner[ROOT_RET]
    case Counted => s.result == [Number(SumOf(s.depth, 0))]
    case ByCont(q) => s.result == [] && q in b.live && q in s.conts && s.conts[q].ret == ROOT_RET
    case ByAct(i) => s.result == [] && i < |s.acts| && Claims(s.acts[i], ROOT_RET)
  }

  ghost predicate KeyOk(s: State, b: Book, r: nat) {
    r in b.owner ==>
      r in b.goal && b.goal[r].d <= s.depth &&
      (r != ROOT_RET ==>
         r / 2 in s.conts && (r % 2 == 1 ==> Need(FnOf(s.conts[r / 2])) == 2) &&
         (b.owner[r] != Counted ==> r / 2 in b.live))
  }

  ghost predicate Inv(s: State, b: Book) {
    RootOk(s, b) && b.live !! b.fired && s.conts.Keys == b.live + b.fired &&
    (forall r: nat {:trigger KeyOk(s, b, r)} :: KeyOk(s, b, r)) &&
    (forall i: nat {:trigger ActOk(s, b, i)} :: i < |s.acts| ==> ActOk(s, b, i)) &&
    (forall dp: nat {:trigger ContOk(s, b, dp)} :: dp in b.live ==> ContOk(s, b, dp))
  }

  lemma ActFact(s: State, b: Book, i: nat)
    requires Inv(s, b) && i < |s.acts|
    ensures ActOk(s, b, i)
  {
  }

  lemma ContFact(s: State, b: Book, dp: nat)
    requires Inv(s, b) && dp in b.live
    ensures ContOk(s, b, dp)
  {
  }

  lemma KeyFact(s: State, b: Book, r: nat)
    requires Inv(s, b)
    ensures KeyOk(s, b, r)
  {
  }
}
