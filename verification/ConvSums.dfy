/** The terms and sums that thvm_conv2d computes. */
module ConvSums {
  import opened Shapes
  import opened Moves
  import opened Pooling
  import opened PoolPaths
  import opened PoolPadded
  import opened Convolution

  /** Padding before and after the two spatial axes. */
  datatype Pads = Pads(top: nat, bottom: nat, left: nat, right: nat)

  ghost predicate PadsOk(v: Conv, d: Pads) {
    ConvOk(v) && d.top + d.bottom < v.h.size && d.left + d.right < v.w.size
  }

  /** The padded input, and the input itself. */
  function Padded(v: Conv): Shape { [v.bs] + [v.groups * v.cin] + [v.h.size] + [v.w.size] }

  function Input(v: Conv, d: Pads): Shape
    requires d.top + d.bottom <= v.h.size && d.left + d.right <= v.w.size
  {
    [v.bs] + [v.groups * v.cin] + [v.h.size - d.top - d.bottom] + [v.w.size - d.left - d.right]
  }

  function PadMoves(d: Pads): seq<Move> {
    if d == Pads(0, 0, 0, 0) then [] else [Pad([0, 0, d.top, d.left], [0, 0, d.bottom, d.right])]
  }

  /** A padded coordinate inside the input, or in the padding. */
  function Unpadded(v: Conv, d: Pads, b: nat, ch: nat, row: nat, col: nat): Source {
    if d.top <= row < v.h.size - d.bottom && d.left <= col < v.w.size - d.right then
      Element([b, ch, row - d.top, col - d.left])
    else Zero
  }

  ghost predicate InRange(v: Conv, b: nat, ch: nat, y: nat, x: nat, kh: nat, kw: nat)
    requires ConvOk(v)
  {
    b < v.bs && ch < v.groups * v.cin && y < Count(v.h) && x < Count(v.w) && kh < v.h.k && kw < v.w.k
  }

  ghost predicate ReadsAt(v: Conv, pool: seq<Move>, b: nat, ch: nat, y: nat, x: nat, kh: nat, kw: nat)
    requires ConvOk(v)
  {
    Arrives(Padded(v), pool, Pooled(v), [b] + [ch] + [y] + [x] + [kh] + [kw],
            [b] + [ch] + [y * v.h.s + kh] + [x * v.w.s + kw])
  }

  /** The pool in use reads window elements. */
  ghost predicate ReadsWindows(v: Conv, pool: seq<Move>)
    requires ConvOk(v)
  {
    forall b: nat, ch: nat, y: nat, x: nat, kh: nat, kw: nat {:trigger ReadsAt(v, pool, b, ch, y, x, kh, kw)} ::
      InRange(v, b, ch, y, x, kh, kw) ==> ReadsAt(v, pool, b, ch, y, x, kh, kw)
  }

  lemma RangeSpot(v: Conv, b: nat, ch: nat, y: nat, x: nat, kh: nat, kw: nat)
    requires ConvOk(v) && InRange(v, b, ch, y, x, kh, kw)
    ensures SpotOk([v.bs, v.groups * v.cin], v.h, v.w, [b, ch], y, x, kh, kw)
  {
    PositiveProduct(v.groups, v.cin);
  }

  lemma Lists(b: nat, ch: nat, y: nat, x: nat, kh: nat, kw: nat)
    ensures [b, ch] + [y, x, kh, kw] == [b] + [ch] + [y] + [x] + [kh] + [kw]
    ensures [b, ch] + [y, x] == [b] + [ch] + [y] + [x] && [b, ch] + [y] + [x] == [b, ch] + [y, x]
  {
  }

  /** The shapes before and after the pool, as the pool has them. */
  lemma PoolShapesOf(v: Conv)
    requires ConvOk(v)
    ensures [v.bs, v.groups * v.cin] + [v.h.size, v.w.size] == Padded(v)
    ensures [v.bs, v.groups * v.cin] + [Count(v.h), Count(v.w), v.h.k, v.w.k] == Pooled(v)
  {
    Lists(v.bs, v.groups * v.cin, v.h.size, v.w.size, 0, 0);
    Lists(v.bs, v.groups * v.cin, Count(v.h), Count(v.w), v.h.k, v.w.k);
  }

  /** A pool that reads element (row, col) in its own lists reads it at ReadsAt. */
  lemma ReadsInLists(v: Conv, pool: seq<Move>, b: nat, ch: nat, y: nat, x: nat, kh: nat, kw: nat, row: nat, col: nat)
    requires ConvOk(v) && row == y * v.h.s + kh && col == x * v.w.s + kw
    requires Arrives(Padded(v), pool, Pooled(v), [b, ch] + [y, x, kh, kw], [b, ch] + [row, col])
    ensures ReadsAt(v, pool, b, ch, y, x, kh, kw)
  {
    Lists(b, ch, y, x, kh, kw);
    Lists(b, ch, row, col, 0, 0);
  }

  lemma RepeatReadsAt(v: Conv, b: nat, ch: nat, y: nat, x: nat, kh: nat, kw: nat)
    requires ConvOk(v) && Fits(v.h) && Fits(v.w) && InRange(v, b, ch, y, x, kh, kw)
    ensures PoolOk([v.bs, v.groups * v.cin], v.h, v.w)
    ensures ReadsAt(v, RepeatProgram([v.bs, v.groups * v.cin], v.h, v.w), b, ch, y, x, kh, kw)
  {
    RangeSpot(v, b, ch, y, x, kh, kw);
    var dims := [v.bs, v.groups * v.cin];
    RepeatArrives(dims, v.h, v.w, [b, ch], y, x, kh, kw, y * v.h.s + kh, x * v.w.s + kw);
    PoolShapesOf(v);
    ReadsInLists(v, RepeatProgram(dims, v.h, v.w), b, ch, y, x, kh, kw, y * v.h.s + kh, x * v.w.s + kw);
  }

  /** The repeat chain is such a pool, */
  lemma RepeatReads(v: Conv)
    requires ConvOk(v) && Fits(v.h) && Fits(v.w)
    ensures PoolOk([v.bs, v.groups * v.cin], v.h, v.w) &&
      ReadsWindows(v, RepeatProgram([v.bs, v.groups * v.cin], v.h, v.w))
  {
    PositiveProduct(v.groups, v.cin);
    forall b: nat, ch: nat, y: nat, x: nat, kh: nat, kw: nat | InRange(v, b, ch, y, x, kh, kw)
      ensures ReadsAt(v, RepeatProgram([v.bs, v.groups * v.cin], v.h, v.w), b, ch, y, x, kh, kw)
    {
      RepeatReadsAt(v, b, ch, y, x, kh, kw);
    }
  }

  lemma PadReadsAt(v: Conv, b: nat, ch: nat, y: nat, x: nat, kh: nat, kw: nat)
    requires ConvOk(v) && Small(v.h) && Small(v.w) && InRange(v, b, ch, y, x, kh, kw)
    ensures PoolOk([v.bs, v.groups * v.cin], v.h, v.w)
    ensures ReadsAt(v, PadProgram([v.bs, v.groups * v.cin], v.h, v.w), b, ch, y, x, kh, kw)
  {
    RangeSpot(v, b, ch, y, x, kh, kw);
    PadPool([v.bs, v.groups * v.cin], v.h, v.w, [b, ch], y, x, kh, kw, y * v.h.s + kh, x * v.w.s + kw);
    PoolShapesOf(v);
    ReadsInLists(v, PadProgram([v.bs, v.groups * v.cin], v.h, v.w), b, ch, y, x, kh, kw, y * v.h.s + kh,
                 x * v.w.s + kw);
  }

  /** and so is the pad chain for kernels no longer than their strides, */
  lemma PadReads(v: Conv)
    requires ConvOk(v) && Small(v.h) && Small(v.w)
    ensures PoolOk([v.bs, v.groups * v.cin], v.h, v.w) &&
      ReadsWindows(v, PadProgram([v.bs, v.groups * v.cin], v.h, v.w))
  {
    PositiveProduct(v.groups, v.cin);
    forall b: nat, ch: nat, y: nat, x: nat, kh: nat, kw: nat | InRange(v, b, ch, y, x, kh, kw)
      ensures ReadsAt(v, PadProgram([v.bs, v.groups * v.cin], v.h, v.w), b, ch, y, x, kh, kw)
    {
      PadReadsAt(v, b, ch, y, x, kh, kw);
    }
  }

  lemma ViewReadsAt(v: Conv, b: nat, ch: nat, y: nat, x: nat, kh: nat, kw: nat)
    requires ConvOk(v) && InRange(v, b, ch, y, x, kh, kw)
    ensures ReadsAt(v, [SlideOf(v.h, v.w)], b, ch, y, x, kh, kw)
  {
    RangeSpot(v, b, ch, y, x, kh, kw);
    SlidePool([v.bs, v.groups * v.cin], v.h, v.w, [b, ch], y, x, kh, kw);
    PoolShapesOf(v);
    ReadsInLists(v, [SlideOf(v.h, v.w)], b, ch, y, x, kh, kw, y * v.h.s + kh, x * v.w.s + kw);
  }

  /** and so is the strided view, for kernels and strides of any size. */
  lemma ViewReads(v: Conv)
    requires ConvOk(v)
    ensures ReadsWindows(v, [SlideOf(v.h, v.w)])
  {
    forall b: nat, ch: nat, y: nat, x: nat, kh: nat, kw: nat | InRange(v, b, ch, y, x, kh, kw)
      ensures ReadsAt(v, [SlideOf(v.h, v.w)], b, ch, y, x, kh, kw)
    {
      ViewReadsAt(v, b, ch, y, x, kh, kw);
    }
  }

  // ----------------------------------------------------------------- the input factor

  lemma PadMoveOk(v: Conv, d: Pads)
    requires PadsOk(v, d)
    ensures Runs(Input(v, d), PadMoves(d)) && Result(Input(v, d), PadMoves(d)) == Padded(v)
  {
    if d != Pads(0, 0, 0, 0) {
      assert PadMoves(d)[1..] == [];
      assert Moved(Input(v, d), PadMoves(d)[0]) == Padded(v);
    }
  }

  /** The input element behind a coordinate that a program reads in the padded input. */
  lemma PadOrigin(v: Conv, d: Pads, prog: seq<Move>, to: Shape, c: seq<nat>, b: nat, ch: nat, row: nat, col: nat)
    requires PadsOk(v, d) && Arrives(Padded(v), prog, to, c, [b] + [ch] + [row] + [col])
    requires b < v.bs && ch < v.groups * v.cin && row < v.h.size && col < v.w.size
    ensures Runs(Input(v, d), PadMoves(d) + prog) && Result(Input(v, d), PadMoves(d) + prog) == to
    ensures Origin(Input(v, d), PadMoves(d) + prog, c) == Unpadded(v, d, b, ch, row, col)
  {
    PadMoveOk(v, d);
    var s := Input(v, d);
    assert [b] + [ch] + [row] + [col] == [b, ch, row, col];
    if d == Pads(0, 0, 0, 0) {
      assert PadMoves(d) + prog == prog && s == Padded(v);
    } else {
      var m := Pad([0, 0, d.top, d.left], [0, 0, d.bottom, d.right]);
      assert (PadMoves(d) + prog)[1..] == prog && (PadMoves(d) + prog)[0] == m;
      PadReadsCoord(v, d, b, ch, row, col);
    }
  }

  lemma PadReadsCoord(v: Conv, d: Pads, b: nat, ch: nat, row: nat, col: nat)
    requires PadsOk(v, d) && b < v.bs && ch < v.groups * v.cin && row < v.h.size && col < v.w.size
    ensures Ok(Input(v, d), Pad([0, 0, d.top, d.left], [0, 0, d.bottom, d.right]))
    ensures Reads(Input(v, d), Pad([0, 0, d.top, d.left], [0, 0, d.bottom, d.right]), [b, ch, row, col]) ==
      Unpadded(v, d, b, ch, row, col)
  {
    var (s, c, before) := (Input(v, d), [b, ch, row, col], [0, 0, d.top, d.left]);
    assert s == [v.bs, v.groups * v.cin, v.h.size - d.top - d.bottom, v.w.size - d.left - d.right];
    if d.top <= row < v.h.size - d.bottom && d.left <= col < v.w.size - d.right {
      assert forall i :: 0 <= i < 4 ==> before[i] <= c[i] < before[i] + s[i];
    } else {
      assert !(before[2] <= c[2] < before[2] + s[2]) || !(before[3] <= c[3] < before[3] + s[3]);
    }
  }

  // ---------------------------------------------------------------------- the sums

  function Value(f: seq<nat> -> int, r: Source): int { if r.Zero? then 0 else f(r.c) }

  /** The k-th term, over input channels of the group and kernel elements, for output
      position r of group g. */
  function Nth(v: Conv, b: nat, g: nat, r: nat, y: nat, x: nat, k: nat): Spot
    requires ConvOk(v) && Numel([v.cin, v.h.k, v.w.k]) > 0
  {
    var i := Unflat([v.cin, v.h.k, v.w.k], k);
    Spot(b, g, r, y, x, i[0], i[1], i[2])
  }

  /** What padding and then the given moves read at coordinate c. */
  ghost function ProgramValue(v: Conv, d: Pads, prog: seq<Move>, x: seq<nat> -> int, c: seq<nat>): int
    requires PadsOk(v, d)
  {
    var whole := PadMoves(d) + prog;
    if Runs(Input(v, d), whole) && |Result(Input(v, d), whole)| == |c| then
      Value(x, Origin(Input(v, d), whole, c))
    else 0
  }

  /** What the input moves read for a term. */
  ghost function InputFactor(v: Conv, d: Pads, pool: seq<Move>, x: seq<nat> -> int, p: Spot): int
    requires PadsOk(v, d)
  {
    ProgramValue(v, d, Windows(v, pool), x, OutputAt(p))
  }

  /** What the weight moves read for a term; the product broadcasts over the axes of
      size one. */
  ghost function WeightFactor(v: Conv, w: seq<nat> -> int, p: Spot): int
    requires ConvOk(v)
  {
    if Ok(Weights(v), Reshape(Spread(v))) then
      Value(w, Reads(Weights(v), Reshape(Spread(v)), Clamp(Spread(v), OutputAt(p))))
    else 0
  }

  /** A term of a grouped convolution, by definition. */
  ghost function Term(v: Conv, d: Pads, x: seq<nat> -> int, w: seq<nat> -> int, p: Spot): int
    requires PadsOk(v, d)
  {
    Value(x, Unpadded(v, d, p.b, p.g * v.cin + p.c, p.y * v.h.s + p.kh, p.x * v.w.s + p.kw)) *
    w([p.g * v.cout + p.r, p.c, p.kh, p.kw])
  }

  lemma SpotRange(v: Conv, p: Spot)
    requires InConv(v, p)
    ensures InRange(v, p.b, p.g * v.cin + p.c, p.y, p.x, p.kh, p.kw)
    ensures p.y * v.h.s + p.kh < v.h.size && p.x * v.w.s + p.kw < v.w.size
  {
    BlockBound(p.g, v.groups, p.c, v.cin);
    WindowInside(v.h, Pos(p.kh, p.y));
    WindowInside(v.w, Pos(p.kw, p.x));
  }

  /** The element of the padded input that the windows read for a term. */
  lemma WindowsArrive(v: Conv, pool: seq<Move>, p: Spot, ch: nat, row: nat, col: nat)
    requires InConv(v, p) && ReadsAt(v, pool, p.b, ch, p.y, p.x, p.kh, p.kw)
    requires ch == p.g * v.cin + p.c && row == p.y * v.h.s + p.kh && col == p.x * v.w.s + p.kw
    ensures Arrives(Padded(v), Windows(v, pool), Outputs(v), OutputAt(p), [p.b] + [ch] + [row] + [col])
  {
    WindowsRead(v, pool, p, Padded(v), ch, [p.b] + [ch] + [row] + [col]);
  }

  /** The element of the input itself. */
  lemma ProgramReadsInput(v: Conv, d: Pads, prog: seq<Move>, to: Shape, c: seq<nat>, x: seq<nat> -> int, b: nat,
                          ch: nat, row: nat, col: nat)
    requires PadsOk(v, d) && Arrives(Padded(v), prog, to, c, [b] + [ch] + [row] + [col])
    requires b < v.bs && ch < v.groups * v.cin && row < v.h.size && col < v.w.size
    ensures ProgramValue(v, d, prog, x, c) == Value(x, Unpadded(v, d, b, ch, row, col))
  {
    PadOrigin(v, d, prog, to, c, b, ch, row, col);
  }

  lemma InputFactorIs(v: Conv, d: Pads, pool: seq<Move>, x: seq<nat> -> int, p: Spot)
    requires PadsOk(v, d) && InConv(v, p) && ReadsWindows(v, pool)
    ensures InputFactor(v, d, pool, x, p) ==
      Value(x, Unpadded(v, d, p.b, p.g * v.cin + p.c, p.y * v.h.s + p.kh, p.x * v.w.s + p.kw))
  {
    var (ch, row, col) := (p.g * v.cin + p.c, p.y * v.h.s + p.kh, p.x * v.w.s + p.kw);
    SpotRange(v, p);
    assert ReadsAt(v, pool, p.b, ch, p.y, p.x, p.kh, p.kw);
    WindowsArrive(v, pool, p, ch, row, col);
    ProgramReadsInput(v, d, Windows(v, pool), Outputs(v), OutputAt(p), x, p.b, ch, row, col);
  }

  lemma WeightFactorIs(v: Conv, w: seq<nat> -> int, p: Spot)
    requires InConv(v, p)
    ensures WeightFactor(v, w, p) == w([p.g * v.cout + p.r, p.c, p.kh, p.kw])
  {
    var co := p.g * v.cout + p.r;
    WeightsRead(v, p, co);
    assert [co] + [p.c] + [p.kh] + [p.kw] == [co, p.c, p.kh, p.kw];
  }

  /** What the product holds for a term is the term of the convolution. */
  lemma TermIs(v: Conv, d: Pads, pool: seq<Move>, x: seq<nat> -> int, w: seq<nat> -> int, p: Spot)
    requires PadsOk(v, d) && InConv(v, p) && ReadsWindows(v, pool)
    ensures InputFactor(v, d, pool, x, p) * WeightFactor(v, w, p) == Term(v, d, x, w, p)
  {
    InputFactorIs(v, d, pool, x, p);
    WeightFactorIs(v, w, p);
  }

  /** The first n terms of the sum that the program computes, and of the convolution. */
  ghost function Summed(v: Conv, d: Pads, pool: seq<Move>, x: seq<nat> -> int, w: seq<nat> -> int,
                        b: nat, g: nat, r: nat, y: nat, z: nat, n: nat): int
    requires PadsOk(v, d) && Numel([v.cin, v.h.k, v.w.k]) > 0
  {
    if n == 0 then 0
    else
      var p := Nth(v, b, g, r, y, z, n - 1);
      Summed(v, d, pool, x, w, b, g, r, y, z, n - 1) + InputFactor(v, d, pool, x, p) * WeightFactor(v, w, p)
  }

  ghost function Convolved(v: Conv, d: Pads, x: seq<nat> -> int, w: seq<nat> -> int,
                           b: nat, g: nat, r: nat, y: nat, z: nat, n: nat): int
    requires PadsOk(v, d) && Numel([v.cin, v.h.k, v.w.k]) > 0
  {
    if n == 0 then 0
    else Convolved(v, d, x, w, b, g, r, y, z, n - 1) + Term(v, d, x, w, Nth(v, b, g, r, y, z, n - 1))
  }

  lemma NthInside(v: Conv, b: nat, g: nat, r: nat, y: nat, x: nat, k: nat)
    requires ConvOk(v) && b < v.bs && g < v.groups && r < v.cout && y < Count(v.h) && x < Count(v.w)
    requires k < Numel([v.cin, v.h.k, v.w.k])
    ensures InConv(v, Nth(v, b, g, r, y, x, k))
  {
    FlatUnflat([v.cin, v.h.k, v.w.k], k);
  }

  lemma {:induction false} SummedIsConvolved(v: Conv, d: Pads, pool: seq<Move>, x: seq<nat> -> int, w: seq<nat> -> int,
                                             b: nat, g: nat, r: nat, y: nat, z: nat, n: nat)
    requires PadsOk(v, d) && ReadsWindows(v, pool) && Numel([v.cin, v.h.k, v.w.k]) > 0 &&
      n <= Numel([v.cin, v.h.k, v.w.k])
    requires b < v.bs && g < v.groups && r < v.cout && y < Count(v.h) && z < Count(v.w)
    ensures Summed(v, d, pool, x, w, b, g, r, y, z, n) == Convolved(v, d, x, w, b, g, r, y, z, n)
  {
    if n > 0 {
      SummedIsConvolved(v, d, pool, x, w, b, g, r, y, z, n - 1);
      NthInside(v, b, g, r, y, z, n - 1);
      TermIs(v, d, pool, x, w, Nth(v, b, g, r, y, z, n - 1));
    }
  }

  /** Every channel and kernel element has its place in the sum. */
  lemma NthCovers(v: Conv, b: nat, g: nat, r: nat, y: nat, x: nat, c: nat, kh: nat, kw: nat)
    requires ConvOk(v) && c < v.cin && kh < v.h.k && kw < v.w.k
    ensures Numel([v.cin, v.h.k, v.w.k]) > Flat([v.cin, v.h.k, v.w.k], [c, kh, kw])
    ensures Nth(v, b, g, r, y, x, Flat([v.cin, v.h.k, v.w.k], [c, kh, kw])) == Spot(b, g, r, y, x, c, kh, kw)
  {
    FlatBound([v.cin, v.h.k, v.w.k], [c, kh, kw]);
    UnflatFlat([v.cin, v.h.k, v.w.k], [c, kh, kw]);
  }
}
