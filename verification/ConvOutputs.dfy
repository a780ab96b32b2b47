/** Every output element of thvm_conv2d is a grouped convolution. */
module ConvOutputs {
  import opened Shapes
  import opened Moves
  import opened Pooling
  import opened PoolPaths
  import opened PoolPadded
  import opened Convolution
  import opened ConvSums

  // ------------------------------------------------- grouped convolution by definition

  /** What output channel co takes from channel c of its group and kernel element (i, j):
      an element of the input, or zero in the padding, times a weight. */
  ghost function Part(v: Conv, d: Pads, x: seq<nat> -> int, w: seq<nat> -> int, b: nat, co: nat, y: nat, z: nat,
                      c: nat, i: nat, j: nat): int
    requires PadsOk(v, d)
  {
    Value(x, Unpadded(v, d, b, (co / v.cout) * v.cin + c, y * v.h.s + i, z * v.w.s + j)) * w([co, c, i, j])
  }

  /** The sum over the first n columns of kernel row i, */
  ghost function OverColumns(v: Conv, d: Pads, x: seq<nat> -> int, w: seq<nat> -> int, b: nat, co: nat, y: nat, z: nat,
                             c: nat, i: nat, n: nat): int
    requires PadsOk(v, d)
  {
    if n == 0 then 0
    else OverColumns(v, d, x, w, b, co, y, z, c, i, n - 1) + Part(v, d, x, w, b, co, y, z, c, i, n - 1)
  }

  /** over the first n kernel rows, */
  ghost function OverRows(v: Conv, d: Pads, x: seq<nat> -> int, w: seq<nat> -> int, b: nat, co: nat, y: nat, z: nat,
                          c: nat, n: nat): int
    requires PadsOk(v, d)
  {
    if n == 0 then 0
    else OverRows(v, d, x, w, b, co, y, z, c, n - 1) + OverColumns(v, d, x, w, b, co, y, z, c, n - 1, v.w.k)
  }

  /** and over the first n input channels of the group. */
  ghost function OverChannels(v: Conv, d: Pads, x: seq<nat> -> int, w: seq<nat> -> int, b: nat, co: nat, y: nat, z: nat,
                              n: nat): int
    requires PadsOk(v, d)
  {
    if n == 0 then 0
    else OverChannels(v, d, x, w, b, co, y, z, n - 1) + OverRows(v, d, x, w, b, co, y, z, n - 1, v.h.k)
  }

  ghost function GroupedConvolution(v: Conv, d: Pads, x: seq<nat> -> int, w: seq<nat> -> int,
                                    b: nat, co: nat, y: nat, z: nat): int
    requires PadsOk(v, d)
  {
    OverChannels(v, d, x, w, b, co, y, z, v.cin)
  }

  // ------------------------------------------------- one sum over all of them is the same

  /** The first n terms in the order in which the three axes are summed as one. */
  ghost function Flattened(v: Conv, d: Pads, x: seq<nat> -> int, w: seq<nat> -> int, b: nat, co: nat, y: nat, z: nat,
                           n: nat): int
    requires PadsOk(v, d) && Numel([v.cin, v.h.k, v.w.k]) > 0
  {
    Convolved(v, d, x, w, b, co / v.cout, co % v.cout, y, z, n)
  }

  lemma NextTerm(v: Conv, d: Pads, x: seq<nat> -> int, w: seq<nat> -> int, b: nat, co: nat, y: nat, z: nat,
                 c: nat, i: nat, j: nat, k: nat)
    requires PadsOk(v, d) && Numel([v.cin, v.h.k, v.w.k]) > 0 && c < v.cin && i < v.h.k && j < v.w.k &&
      k == Flat([v.cin, v.h.k, v.w.k], [c, i, j])
    ensures Flattened(v, d, x, w, b, co, y, z, k + 1) ==
      Flattened(v, d, x, w, b, co, y, z, k) + Part(v, d, x, w, b, co, y, z, c, i, j)
  {
    NthCovers(v, b, co / v.cout, co % v.cout, y, z, c, i, j);
    DivMod(co, v.cout);
  }

  lemma {:induction false} ColumnsFlat(v: Conv, d: Pads, x: seq<nat> -> int, w: seq<nat> -> int, b: nat, co: nat,
                                       y: nat, z: nat, c: nat, i: nat, n: nat, k: nat)
    requires PadsOk(v, d) && Numel([v.cin, v.h.k, v.w.k]) > 0 && c < v.cin && i < v.h.k && n <= v.w.k &&
      k == Flat([v.cin, v.h.k, v.w.k], [c, i, 0])
    ensures Flattened(v, d, x, w, b, co, y, z, k + n) ==
      Flattened(v, d, x, w, b, co, y, z, k) + OverColumns(v, d, x, w, b, co, y, z, c, i, n)
  {
    if n > 0 {
      ColumnsFlat(v, d, x, w, b, co, y, z, c, i, n - 1, k);
      FlatThree(v.cin, v.h.k, v.w.k, c, i, 0);
      FlatThree(v.cin, v.h.k, v.w.k, c, i, n - 1);
      NextTerm(v, d, x, w, b, co, y, z, c, i, n - 1, k + (n - 1));
    }
  }

  lemma OneMore(n: nat, m: nat)
    requires n > 0
    ensures (n - 1) * m + m == n * m
  {
  }

  lemma {:induction false} RowsFlat(v: Conv, d: Pads, x: seq<nat> -> int, w: seq<nat> -> int, b: nat, co: nat, y: nat,
                                    z: nat, c: nat, n: nat, k: nat)
    requires PadsOk(v, d) && Numel([v.cin, v.h.k, v.w.k]) > 0 && c < v.cin && n <= v.h.k && k == c * (v.h.k * v.w.k)
    ensures Flattened(v, d, x, w, b, co, y, z, k + n * v.w.k) ==
      Flattened(v, d, x, w, b, co, y, z, k) + OverRows(v, d, x, w, b, co, y, z, c, n)
  {
    if n > 0 {
      RowsFlat(v, d, x, w, b, co, y, z, c, n - 1, k);
      FlatThree(v.cin, v.h.k, v.w.k, c, n - 1, 0);
      ColumnsFlat(v, d, x, w, b, co, y, z, c, n - 1, v.w.k, k + (n - 1) * v.w.k);
      OneMore(n, v.w.k);
    }
  }

  lemma {:induction false} ChannelsFlat(v: Conv, d: Pads, x: seq<nat> -> int, w: seq<nat> -> int, b: nat, co: nat,
                                        y: nat, z: nat, n: nat, m: nat)
    requires PadsOk(v, d) && Numel([v.cin, v.h.k, v.w.k]) > 0 && n <= v.cin && m == v.h.k * v.w.k
    ensures Flattened(v, d, x, w, b, co, y, z, n * m) == OverChannels(v, d, x, w, b, co, y, z, n)
  {
    if n > 0 {
      ChannelsFlat(v, d, x, w, b, co, y, z, n - 1, m);
      RowsFlat(v, d, x, w, b, co, y, z, n - 1, v.h.k, (n - 1) * m);
      OneMore(n, m);
    } else {
      assert n * m == 0;
    }
  }

  // --------------------------------------------------------------- the output tensor

  /** The sum over three axes keeps them as axes of size one. */
  function SumShape(v: Conv): Shape
    requires ConvOk(v)
  {
    [v.bs] + [v.groups, v.cout] + [Count(v.h)] + [Count(v.w), 1, 1, 1]
  }

  function OutShape(v: Conv): Shape
    requires ConvOk(v)
  {
    [v.bs] + [v.groups * v.cout] + [Count(v.h)] + [Count(v.w)]
  }

  /** The element of the summed product at coordinate c. */
  ghost function SumElement(v: Conv, d: Pads, pool: seq<Move>, x: seq<nat> -> int, w: seq<nat> -> int, c: seq<nat>): int
    requires PadsOk(v, d) && |c| == 8
  {
    var n := Numel([v.cin, v.h.k, v.w.k]);
    if n == 0 then 0 else Summed(v, d, pool, x, w, c[0], c[1], c[2], c[3], c[4], n)
  }

  /** The element of the result at coordinate c: what the last reshape reads. */
  ghost function OutElement(v: Conv, d: Pads, pool: seq<Move>, x: seq<nat> -> int, w: seq<nat> -> int, c: seq<nat>): int
    requires PadsOk(v, d) && |c| == 4 && Ok(SumShape(v), Reshape(OutShape(v)))
  {
    SumElement(v, d, pool, x, w, Reads(SumShape(v), Reshape(OutShape(v)), c).c)
  }

  /** The last reshape turns [bs, groups, cout per group, OY, OX, 1, 1, 1] into
      [bs, groups * cout per group, OY, OX]: output channel co is position co mod
      cout-per-group of group co div cout-per-group. */
  lemma OutputReshape(v: Conv, b: nat, co: nat, y: nat, x: nat)
    requires ConvOk(v) && b < v.bs && co < v.groups * v.cout && y < Count(v.h) && x < Count(v.w)
    ensures co / v.cout < v.groups && co % v.cout < v.cout
    ensures Carries(SumShape(v), Reshape(OutShape(v)), OutShape(v),
                    [b] + [co] + [y] + [x], [b] + [co / v.cout, co % v.cout] + [y] + [x, 0, 0, 0])
  {
    var (o0, o1, g, r) := (Count(v.h), Count(v.w), co / v.cout, co % v.cout);
    var gs := [[v.bs], [v.groups, v.cout], [o0], [o1, 1, 1, 1]];
    var hs := [[v.bs], [v.groups * v.cout], [o0], [o1]];
    var cs := [[b], [co], [y], [x]];
    var ds := [[b], [g, r], [y], [x, 0, 0, 0]];
    QuotientBound(co, v.groups, v.cout);
    SameAxis(v.bs, b);
    SplitAxis(v.groups, v.cout, co, v.groups * v.cout);
    SameAxis(o0, y);
    UnitAxes(o1, x);
    AxesRead(gs, hs, cs, ds);
    JoinedFour(gs[0], gs[1], gs[2], gs[3]);
    JoinedFour(hs[0], hs[1], hs[2], hs[3]);
    JoinedFour(cs[0], cs[1], cs[2], cs[3]);
    JoinedFour(ds[0], ds[1], ds[2], ds[3]);
  }

  lemma TermCount(v: Conv)
    requires ConvOk(v)
    ensures Numel([v.cin, v.h.k, v.w.k]) == v.cin * (v.h.k * v.w.k) > 0
  {
    NumelOf(v.cin, v.h.k, v.w.k);
    PositiveProduct(v.h.k, v.w.k);
    PositiveProduct(v.cin, v.h.k * v.w.k);
  }

  lemma SumIsConvolution(v: Conv, d: Pads, pool: seq<Move>, x: seq<nat> -> int, w: seq<nat> -> int, b: nat, co: nat,
                         y: nat, z: nat)
    requires PadsOk(v, d) && ReadsWindows(v, pool)
    requires b < v.bs && co < v.groups * v.cout && y < Count(v.h) && z < Count(v.w)
    ensures SumElement(v, d, pool, x, w, [b] + [co / v.cout, co % v.cout] + [y] + [z, 0, 0, 0]) ==
      GroupedConvolution(v, d, x, w, b, co, y, z)
  {
    QuotientBound(co, v.groups, v.cout);
    TermCount(v);
    SummedIsConvolved(v, d, pool, x, w, b, co / v.cout, co % v.cout, y, z, Numel([v.cin, v.h.k, v.w.k]));
    ChannelsFlat(v, d, x, w, b, co, y, z, v.cin, v.h.k * v.w.k);
  }

  /** Element [b, co, y, z] of the result of thvm_conv2d is the grouped convolution of
      the padded input, whichever way the windows are built. */
  lemma ConvOutput(v: Conv, d: Pads, pool: seq<Move>, x: seq<nat> -> int, w: seq<nat> -> int, b: nat, co: nat, y: nat,
                   z: nat)
    requires PadsOk(v, d) && ReadsWindows(v, pool)
    requires b < v.bs && co < v.groups * v.cout && y < Count(v.h) && z < Count(v.w)
    ensures Ok(SumShape(v), Reshape(OutShape(v))) && Moved(SumShape(v), Reshape(OutShape(v))) == OutShape(v)
    ensures OutElement(v, d, pool, x, w, [b] + [co] + [y] + [z]) == GroupedConvolution(v, d, x, w, b, co, y, z)
  {
    OutputReshape(v, b, co, y, z);
    SumIsConvolution(v, d, pool, x, w, b, co, y, z);
  }

  /** With the strided view: for all kernels, strides, paddings and groups. */
  lemma ConvByView(v: Conv, d: Pads, x: seq<nat> -> int, w: seq<nat> -> int, b: nat, co: nat, y: nat, z: nat)
    requires PadsOk(v, d) && b < v.bs && co < v.groups * v.cout && y < Count(v.h) && z < Count(v.w)
    ensures Ok(SumShape(v), Reshape(OutShape(v)))
    ensures OutElement(v, d, [SlideOf(v.h, v.w)], x, w, [b] + [co] + [y] + [z]) ==
      GroupedConvolution(v, d, x, w, b, co, y, z)
  {
    ViewReads(v);
    ConvOutput(v, d, [SlideOf(v.h, v.w)], x, w, b, co, y, z);
  }

  /** With the repeat chain, wherever it can be applied. */
  lemma ConvByRepeat(v: Conv, d: Pads, x: seq<nat> -> int, w: seq<nat> -> int, b: nat, co: nat, y: nat, z: nat)
    requires PadsOk(v, d) && b < v.bs && co < v.groups * v.cout && y < Count(v.h) && z < Count(v.w)
    requires Fits(v.h) && Fits(v.w)
    ensures Ok(SumShape(v), Reshape(OutShape(v))) && PoolOk([v.bs, v.groups * v.cin], v.h, v.w)
    ensures OutElement(v, d, RepeatProgram([v.bs, v.groups * v.cin], v.h, v.w), x, w, [b] + [co] + [y] + [z]) ==
      GroupedConvolution(v, d, x, w, b, co, y, z)
  {
    RepeatReads(v);
    ConvOutput(v, d, RepeatProgram([v.bs, v.groups * v.cin], v.h, v.w), x, w, b, co, y, z);
  }

  /** With the pad chain, for kernels no longer than their strides. */
  lemma ConvByPad(v: Conv, d: Pads, x: seq<nat> -> int, w: seq<nat> -> int, b: nat, co: nat, y: nat, z: nat)
    requires PadsOk(v, d) && b < v.bs && co < v.groups * v.cout && y < Count(v.h) && z < Count(v.w)
    requires Small(v.h) && Small(v.w)
    ensures Ok(SumShape(v), Reshape(OutShape(v))) && PoolOk([v.bs, v.groups * v.cin], v.h, v.w)
    ensures OutElement(v, d, PadProgram([v.bs, v.groups * v.cin], v.h, v.w), x, w, [b] + [co] + [y] + [z]) ==
      GroupedConvolution(v, d, x, w, b, co, y, z)
  {
    PadReads(v);
    ConvOutput(v, d, PadProgram([v.bs, v.groups * v.cin], v.h, v.w), x, w, b, co, y, z);
  }

  lemma SplitAxis(n: nat, m: nat, i: nat, nm: nat)
    requires nm == n * m && i < nm && m > 0
    ensures Numel([n, m]) == Numel([nm]) > 0 && Coord([nm], [i]) && Unflat([n, m], Flat([nm], [i])) == [i / m, i % m]
  {
    QuotientBound(i, n, m);
    NumelOf(nm, 0, 0);
    NumelOf(n, m, 0);
    FlatOne(nm, i);
    FlatTwo(n, m, i / m, i % m);
    DivMod(i, m);
    UnflatFlat([n, m], [i / m, i % m]);
  }

  lemma UnitAxes(n: nat, i: nat)
    requires i < n
    ensures Numel([n, 1, 1, 1]) == Numel([n]) > 0 && Coord([n], [i]) &&
      Unflat([n, 1, 1, 1], Flat([n], [i])) == [i, 0, 0, 0]
  {
    assert [n, 1, 1, 1] == [n] + [1, 1, 1] && [i, 0, 0, 0] == [i] + [0, 0, 0];
    NumelConcat([n], [1, 1, 1]);
    NumelOf(1, 1, 1);
    NumelOf(n, 0, 0);
    FlatConcat([n], [1, 1, 1], [i], [0, 0, 0]);
    FlatThree(1, 1, 1, 0, 0, 0);
    FlatOne(n, i);
    UnflatFlat([n, 1, 1, 1], [i, 0, 0, 0]);
  }
}
