/** Deferred elementwise tensors and the linear programs that fused kernels run:
    the value of a tensor on one side, the value of an operation list with encoded
    operand indices on the other. */
module Chains {

  const MAX_OPS: nat := 64
  const MAX_LEAVES: nat := 64

  const UOP_NEG: nat := 3
  const UOP_CAST: nat := 7
  const UOP_SQRT: nat := 8
  const UOP_ADD: nat := 9
  const UOP_SUB: nat := 14

  /** ADD, MUL, DIV, MAX, CMP and SUB. */
  predicate IsBinary(uop: nat) { UOP_ADD <= uop <= UOP_SUB }

  /** The binary operations and NEG, EXP, LOG, RELU, CAST and SQRT. */
  predicate IsElementwise(uop: nat) { IsBinary(uop) || UOP_NEG <= uop <= UOP_SQRT }

  /** A tensor: its buffer (0 while it is deferred), the operation that creates it
      with its sources, its dtype, how many deferred tensors read it, and a buffer
      chosen beforehand for its result (0 for none). */
  datatype Meta = Meta(buf: nat, op: nat, src0: nat, src1: nat, dtype: nat, consumers: nat, target: nat)

  type Tensors = seq<Meta>

  datatype FusedOp = FusedOp(uop: nat, argA: nat, argB: nat, aux: nat)

  function Aux(uop: nat, dtype: nat): nat { if uop == UOP_CAST then dtype else 0 }

  /** What a buffer holds: something uploaded, or a result of an operation. The
      operations are uninterpreted, so equal values are equal for every backend. */
  datatype Val = Raw(id: nat) | Un(uop: nat, aux: nat, a: Val) | Bin(uop: nat, aux: nat, a: Val, b: Val)

  type Mem = map<nat, Val>

  function Contents(mem: Mem, buf: nat): Val { if buf in mem then mem[buf] else Raw(buf) }

  predicate Deferred(ts: Tensors, t: nat) { t < |ts| && ts[t].buf == 0 && IsElementwise(ts[t].op) }

  /** Sources exist before the tensors made from them. */
  ghost predicate Dag(ts: Tensors) {
    forall t {:trigger ts[t]} :: 0 <= t < |ts| && Deferred(ts, t) ==>
      ts[t].src0 < t && (IsBinary(ts[t].op) ==> ts[t].src1 < t)
  }

  /** The value of a tensor: what its buffer holds, or what its operation makes of
      the values of its sources. */
  ghost function ValueOf(ts: Tensors, mem: Mem, t: nat): Val
    requires Dag(ts)
    decreases t
  {
    if t >= |ts| then Raw(0)
    else if ts[t].buf != 0 then Contents(mem, ts[t].buf)
    else if !Deferred(ts, t) then Raw(0)
    else if IsBinary(ts[t].op) then
      Bin(ts[t].op, Aux(ts[t].op, ts[t].dtype), ValueOf(ts, mem, ts[t].src0), ValueOf(ts, mem, ts[t].src1))
    else Un(ts[t].op, Aux(ts[t].op, ts[t].dtype), ValueOf(ts, mem, ts[t].src0))
  }

  /** Casts of one tensor to different dtypes have different values. */
  lemma CastsDiffer(ts: Tensors, mem: Mem, t: nat, u: nat)
    requires Dag(ts) && t < |ts| && u < |ts| && ts[t].buf == ts[u].buf == 0
    requires ts[t].op == ts[u].op == 7 && ts[t].src0 == ts[u].src0 && ts[t].dtype != ts[u].dtype
    ensures ValueOf(ts, mem, t) != ValueOf(ts, mem, u)
  {
  }

  /** The codes 3 to 14 are fused, and of these 9 to 14 read a second source, which has its
      own place: exchanging sources of different values gives a different value. */
  lemma SourcesDiffer(ts: Tensors, mem: Mem, t: nat, u: nat)
    requires Dag(ts) && t < |ts| && u < |ts| && ts[t].buf == ts[u].buf == 0 && ts[t].op == ts[u].op
    requires ts[u].src0 == ts[t].src1 && ts[u].src1 == ts[t].src0
    ensures Deferred(ts, t) <==> 3 <= ts[t].op <= 14
    ensures 9 <= ts[t].op <= 14 && ValueOf(ts, mem, ts[t].src0) != ValueOf(ts, mem, ts[t].src1) ==>
      ValueOf(ts, mem, t) != ValueOf(ts, mem, u)
  {
  }

  /** Only elementwise operations separate t from tensors that have a buffer. */
  ghost predicate Elementary(ts: Tensors, t: nat)
    requires Dag(ts)
    decreases t
  {
    t < |ts| &&
    (ts[t].buf != 0 ||
     (Deferred(ts, t) && Elementary(ts, ts[t].src0) && (IsBinary(ts[t].op) ==> Elementary(ts, ts[t].src1))))
  }

  /** Operations in the program for t; a shared tensor is computed at every use. */
  ghost function OpCount(ts: Tensors, t: nat): nat
    requires Dag(ts)
    decreases t
  {
    if !Deferred(ts, t) then 0
    else 1 + OpCount(ts, ts[t].src0) + if IsBinary(ts[t].op) then OpCount(ts, ts[t].src1) else 0
  }

  /** The tensors that the program for t computes, in order: sources before uses. */
  ghost function Schedule(ts: Tensors, t: nat): (tids: seq<nat>)
    requires Dag(ts)
    ensures |tids| == OpCount(ts, t)
    decreases t
  {
    if !Deferred(ts, t) then []
    else Schedule(ts, ts[t].src0) + (if IsBinary(ts[t].op) then Schedule(ts, ts[t].src1) else []) + [t]
  }

  /** The tensors with a buffer that t is computed from. */
  ghost function LeafSet(ts: Tensors, t: nat): set<nat>
    requires Dag(ts)
    decreases t
  {
    if t < |ts| && ts[t].buf != 0 then {t}
    else if !Deferred(ts, t) then {}
    else LeafSet(ts, ts[t].src0) + if IsBinary(ts[t].op) then LeafSet(ts, ts[t].src1) else {}
  }

  // ------------------------------------------------------------ linear programs

  /** Operand `arg` of operation k: below `base` it names an input, from `base` on
      the result of an earlier operation. */
  ghost function Operand(inputs: seq<Val>, ops: seq<FusedOp>, base: nat, k: nat, arg: nat): Val
    requires k <= |ops|
    decreases k, 0
  {
    if arg < base then (if arg < |inputs| then inputs[arg] else Raw(0))
    else if arg - base < k then Result(inputs, ops, base, arg - base)
    else Raw(0)
  }

  ghost function Result(inputs: seq<Val>, ops: seq<FusedOp>, base: nat, k: nat): Val
    requires k < |ops|
    decreases k, 1
  {
    var op := ops[k];
    if IsBinary(op.uop) then
      Bin(op.uop, op.aux, Operand(inputs, ops, base, k, op.argA), Operand(inputs, ops, base, k, op.argB))
    else Un(op.uop, op.aux, Operand(inputs, ops, base, k, op.argA))
  }

  /** arg names one of n inputs or one of the k operations before. */
  predicate ArgOk(arg: nat, n: nat, base: nat, k: nat) { arg < n || base <= arg < base + k }

  predicate OpOk(op: FusedOp, n: nat, base: nat, k: nat) {
    ArgOk(op.argA, n, base, k) && (IsBinary(op.uop) ==> ArgOk(op.argB, n, base, k))
  }

  /** Topologically ordered, and all operands exist. */
  ghost predicate Ordered(ops: seq<FusedOp>, n: nat, base: nat) {
    n <= base && forall k {:trigger ops[k]} :: 0 <= k < |ops| ==> OpOk(ops[k], n, base, k)
  }

  /** Results do not change when inputs and operations are appended. */
  lemma {:induction false} ResultKept(inputs: seq<Val>, ops: seq<FusedOp>, base: nat, inputs': seq<Val>,
                                      ops': seq<FusedOp>, k: nat)
    requires Ordered(ops, |inputs|, base) && inputs <= inputs' && ops <= ops' && k < |ops| && |inputs'| <= base
    ensures Result(inputs', ops', base, k) == Result(inputs, ops, base, k)
    decreases k, 1
  {
    assert OpOk(ops[k], |inputs|, base, k);
    OperandKept(inputs, ops, base, inputs', ops', k, ops[k].argA);
    if IsBinary(ops[k].uop) { OperandKept(inputs, ops, base, inputs', ops', k, ops[k].argB); }
  }

  lemma {:induction false} OperandKept(inputs: seq<Val>, ops: seq<FusedOp>, base: nat, inputs': seq<Val>,
                                       ops': seq<FusedOp>, k: nat, arg: nat)
    requires Ordered(ops, |inputs|, base) && inputs <= inputs' && ops <= ops' && k <= |ops| && |inputs'| <= base
    requires ArgOk(arg, |inputs|, base, k)
    ensures Operand(inputs', ops', base, |ops'|, arg) == Operand(inputs', ops', base, k, arg) ==
      Operand(inputs, ops, base, k, arg)
    decreases k, 0
  {
    if arg >= base { ResultKept(inputs, ops, base, inputs', ops', arg - base); }
  }

  // ------------------------------------------------------------------ the tables

  /** The tables that a walk fills: operations, the tensor each one computes, and
      the tensors that serve as inputs. Operand indices from MAX_LEAVES on name
      operations. */
  datatype Table = Table(ops: seq<FusedOp>, tids: seq<nat>, leaves: seq<nat>)

  ghost function Inputs(ts: Tensors, mem: Mem, leaves: seq<nat>): (vs: seq<Val>)
    requires Dag(ts)
    ensures |vs| == |leaves|
  {
    seq(|leaves|, i requires 0 <= i < |leaves| => ValueOf(ts, mem, leaves[i]))
  }

  ghost predicate LeavesOk(ts: Tensors, leaves: seq<nat>) {
    (forall i {:trigger leaves[i]} :: 0 <= i < |leaves| ==> leaves[i] < |ts| && ts[leaves[i]].buf != 0) &&
    forall i, j :: 0 <= i < j < |leaves| ==> leaves[i] != leaves[j]
  }

  /** Below `base` the operand index names a leaf, from `base` on an earlier operation; it
      is there for tensor u. */
  predicate ArgFor(tab: Table, base: nat, k: nat, arg: nat, u: nat) {
    if arg < base then arg < |tab.leaves| && tab.leaves[arg] == u
    else arg - base < k && arg - base < |tab.tids| && tab.tids[arg - base] == u
  }

  /** Operation k is the one of its own tensor, on the tensor's own sources in order. Code 7
      is the cast, which takes the dtype along; codes 9 to 14 take two operands. */
  predicate Wired(ts: Tensors, tab: Table, base: nat, k: nat) {
    k < |tab.ops| == |tab.tids| && tab.tids[k] < |ts| &&
    var (op, m) := (tab.ops[k], ts[tab.tids[k]]);
    op.uop == m.op && 3 <= m.op <= 14 && op.aux == (if m.op == 7 then m.dtype else 0) &&
    ArgFor(tab, base, k, op.argA, m.src0) &&
    (if 9 <= m.op <= 14 then ArgFor(tab, base, k, op.argB, m.src1) else op.argB == 0)
  }

  ghost predicate Wiring(ts: Tensors, tab: Table, base: nat) {
    forall k: nat {:trigger Wired(ts, tab, base, k)} :: k < |tab.ops| ==> Wired(ts, tab, base, k)
  }

  lemma WiredKept(ts: Tensors, tab: Table, tab': Table, k: nat)
    requires Wired(ts, tab, MAX_LEAVES, k) && Grows(tab, tab') && |tab'.ops| == |tab'.tids|
    ensures Wired(ts, tab', MAX_LEAVES, k)
  {
  }

  /** Operation k computes the value of its own tensor. */
  ghost predicate RowOk(ts: Tensors, mem: Mem, tab: Table, k: nat)
    requires Dag(ts)
  {
    k < |tab.ops| == |tab.tids| && Deferred(ts, tab.tids[k]) && tab.ops[k].uop == ts[tab.tids[k]].op &&
    Result(Inputs(ts, mem, tab.leaves), tab.ops, MAX_LEAVES, k) == ValueOf(ts, mem, tab.tids[k])
  }

  ghost predicate Sound(ts: Tensors, mem: Mem, tab: Table)
    requires Dag(ts)
  {
    |tab.ops| == |tab.tids| && |tab.ops| <= MAX_OPS && |tab.leaves| <= MAX_LEAVES && LeavesOk(ts, tab.leaves) &&
    Ordered(tab.ops, |tab.leaves|, MAX_LEAVES) && Wiring(ts, tab, MAX_LEAVES) &&
    forall k: nat {:trigger RowOk(ts, mem, tab, k)} :: k < |tab.ops| ==> RowOk(ts, mem, tab, k)
  }

  /** r is an operand index for the value of tensor t. */
  ghost predicate Names(ts: Tensors, mem: Mem, tab: Table, r: nat, t: nat)
    requires Dag(ts)
  {
    ArgOk(r, |tab.leaves|, MAX_LEAVES, |tab.ops|) && ArgFor(tab, MAX_LEAVES, |tab.ops|, r, t) &&
    Operand(Inputs(ts, mem, tab.leaves), tab.ops, MAX_LEAVES, |tab.ops|, r) == ValueOf(ts, mem, t)
  }

  ghost predicate Grows(tab: Table, tab': Table) {
    tab.ops <= tab'.ops && tab.tids <= tab'.tids && tab.leaves <= tab'.leaves
  }

  lemma InputsGrow(ts: Tensors, mem: Mem, a: seq<nat>, b: seq<nat>)
    requires Dag(ts) && a <= b
    ensures Inputs(ts, mem, a) <= Inputs(ts, mem, b)
  {
  }

  /** An operand index keeps its meaning while the tables grow. */
  lemma NamesKept(ts: Tensors, mem: Mem, tab: Table, tab': Table, r: nat, t: nat)
    requires Dag(ts) && Sound(ts, mem, tab) && Grows(tab, tab') && |tab'.leaves| <= MAX_LEAVES &&
      Names(ts, mem, tab, r, t)
    ensures Names(ts, mem, tab', r, t)
  {
    InputsGrow(ts, mem, tab.leaves, tab'.leaves);
    OperandKept(Inputs(ts, mem, tab.leaves), tab.ops, MAX_LEAVES, Inputs(ts, mem, tab'.leaves), tab'.ops, |tab.ops|, r);
  }

  lemma RowKept(ts: Tensors, mem: Mem, tab: Table, tab': Table, k: nat)
    requires Dag(ts) && Sound(ts, mem, tab) && Grows(tab, tab') && |tab'.leaves| <= MAX_LEAVES && k < |tab.ops|
    requires |tab'.ops| == |tab'.tids|
    ensures RowOk(ts, mem, tab', k)
  {
    assert RowOk(ts, mem, tab, k);
    InputsGrow(ts, mem, tab.leaves, tab'.leaves);
    ResultKept(Inputs(ts, mem, tab.leaves), tab.ops, MAX_LEAVES, Inputs(ts, mem, tab'.leaves), tab'.ops, k);
  }

  lemma AddLeaf(ts: Tensors, mem: Mem, tab: Table, t: nat)
    requires Dag(ts) && Sound(ts, mem, tab) && t < |ts| && ts[t].buf != 0 && t !in tab.leaves &&
      |tab.leaves| < MAX_LEAVES
    ensures var tab' := tab.(leaves := tab.leaves + [t]);
      Sound(ts, mem, tab') && Names(ts, mem, tab', |tab.leaves|, t) && Grows(tab, tab')
  {
    var tab' := tab.(leaves := tab.leaves + [t]);
    forall k: nat | k < |tab'.ops| ensures RowOk(ts, mem, tab', k) { RowKept(ts, mem, tab, tab', k); }
    forall k: nat | k < |tab'.ops| ensures Wired(ts, tab', MAX_LEAVES, k) { WiredKept(ts, tab, tab', k); }
  }

  lemma AddOp(ts: Tensors, mem: Mem, tab: Table, t: nat, a: nat, b: nat)
    requires Dag(ts) && Sound(ts, mem, tab) && Deferred(ts, t) && |tab.ops| < MAX_OPS
    requires Names(ts, mem, tab, a, ts[t].src0) && (IsBinary(ts[t].op) ==> Names(ts, mem, tab, b, ts[t].src1))
    ensures var op := FusedOp(ts[t].op, a, if IsBinary(ts[t].op) then b else 0, Aux(ts[t].op, ts[t].dtype));
      var tab' := tab.(ops := tab.ops + [op], tids := tab.tids + [t]);
      Sound(ts, mem, tab') && Names(ts, mem, tab', MAX_LEAVES + |tab.ops|, t) && Grows(tab, tab')
  {
    var op := FusedOp(ts[t].op, a, if IsBinary(ts[t].op) then b else 0, Aux(ts[t].op, ts[t].dtype));
    var tab' := tab.(ops := tab.ops + [op], tids := tab.tids + [t]);
    var (inputs, k) := (Inputs(ts, mem, tab.leaves), |tab.ops|);
    OperandKept(inputs, tab.ops, MAX_LEAVES, inputs, tab'.ops, k, a);
    if IsBinary(ts[t].op) { OperandKept(inputs, tab.ops, MAX_LEAVES, inputs, tab'.ops, k, b); }
    forall j: nat | j < |tab'.ops| ensures RowOk(ts, mem, tab', j) {
      if j < k { RowKept(ts, mem, tab, tab', j); }
    }
    forall j: nat | j < |tab'.ops| ensures Wired(ts, tab', MAX_LEAVES, j) {
      if j < k { WiredKept(ts, tab, tab', j); }
    }
  }
}
