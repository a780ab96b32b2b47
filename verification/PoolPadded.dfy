/** The pad-based chain of thvm_pool. */
module PoolPadded {
  import opened Shapes
  import opened Moves
  import opened Pooling
  import opened PoolPaths

  lemma TailReshape(dims: Shape, b: seq<nat>, t: Shape, d: seq<nat>, t': Shape, d': seq<nat>)
    requires Numel(dims) > 0 && Coord(dims, b) && Coord(t, d) && Coord(t', d')
    requires Numel(t) == Numel(t') && Flat(t, d) == Flat(t', d')
    ensures Carries(dims + t, Reshape(dims + t'), dims + t', b + d', b + d)
  {
    FlatBound(t, d);
    ReshapeStep(dims, t, dims, t', b, d');
    UnflatFlat(dims, b);
    UnflatFlat(t, d);
    NumelConcat(dims, t);
    NumelConcat(dims, t');
  }

  lemma TailShrink(dims: Shape, b: seq<nat>, t: Shape, t': Shape, d: seq<nat>)
    requires |b| == |dims| && |d| == |t| == |t'| && forall i :: 0 <= i < |t| ==> t'[i] <= t[i]
    ensures Carries(dims + t, Shrink(Zeros(|dims + t'|), dims + t'), dims + t', b + d, b + d)
  {
    ShrinkEnds(dims + t, Zeros(|dims + t'|), dims + t', b + d);
  }

  /** Padding after the last axes is not read by coordinates inside them. */
  lemma TailPad(dims: Shape, b: seq<nat>, t: Shape, after: seq<nat>, t': Shape, d: seq<nat>)
    requires Coord(dims, b) && Coord(t, d) && |after| == |t| == |t'| &&
      forall i :: 0 <= i < |t| ==> t'[i] == t[i] + after[i]
    ensures Carries(dims + t, Pad(Zeros(|dims + t|), Zeros(|dims|) + after), dims + t', b + d, b + d)
  {
    var (s, m) := (dims + t, Pad(Zeros(|dims + t|), Zeros(|dims|) + after));
    assert Moved(s, m) == dims + t';
    assert forall i :: 0 <= i < |s| ==> (b + d)[i] < s[i];
    assert Reads(s, m, b + d).c == b + d;
  }

  /** Padding that makes the axis as long as all its steps. */
  function Padding(a: Axis): nat
    requires a.Window? && AxisOk(a)
  {
    if Count(a) * a.s > a.size then Count(a) * a.s - a.size else 0
  }

  ghost predicate Small(a: Axis) { a.Window? && AxisOk(a) && a.k <= a.s }

  function NeedPad(h: Axis, w: Axis): bool
    requires h.Window? && AxisOk(h) && w.Window? && AxisOk(w)
  {
    Padding(h) > 0 || Padding(w) > 0
  }

  ghost function PadProgram(dims: Shape, h: Axis, w: Axis): seq<Move>
    requires PoolOk(dims, h, w)
  {
    var n := |dims|;
    var steps := dims + [Count(h) * h.s, Count(w) * w.s];
    var split := dims + [Count(h), h.s, Count(w), w.s];
    var cut := dims + [Count(h), h.k, Count(w), w.k];
    (if NeedPad(h, w) then [Pad(Zeros(n + 2), Zeros(n) + [Padding(h), Padding(w)])] else []) +
    [Shrink(Zeros(n + 2), steps)] + [Reshape(split)] + [Shrink(Zeros(n + 4), cut)] +
    [Permute(PermLast(n, [0, 2, 1, 3]))]
  }

  lemma SplitFlat(o0: nat, s0: nat, o1: nat, s1: nat, y: nat, ky: nat, x: nat, kx: nat, n: nat, m: nat, row: nat,
                  col: nat)
    requires n == o0 * s0 && m == o1 * s1 && row == y * s0 + ky && col == x * s1 + kx
    ensures Numel([n, m]) == Numel([o0, s0, o1, s1]) &&
      Flat([n, m], [row, col]) == Flat([o0, s0, o1, s1], [y, ky, x, kx])
  {
    assert [o0, s0, o1, s1] == [o0, s0] + [o1, s1] && [y, ky, x, kx] == [y, ky] + [x, kx];
    NumelConcat([o0, s0], [o1, s1]);
    FlatConcat([o0, s0], [o1, s1], [y, ky], [x, kx]);
    NumelOf(o0, s0, 0);
    NumelOf(o1, s1, 0);
    NumelOf(n, m, 0);
    FlatTwo(o0, s0, y, ky);
    FlatTwo(o1, s1, x, kx);
    FlatTwo(n, m, row, col);
  }

  lemma StepInside(a: Axis, y: nat, k: nat)
    requires Small(a) && y < Count(a) && k < a.k
    ensures y * a.s + k < Count(a) * a.s && y * a.s + k < a.size && k < a.s
  {
    WindowInside(a, Pos(k, y));
    BlockBound(y, Count(a), k, a.s);
  }

  lemma {:induction false} PositiveNumel(dims: Shape)
    requires forall i :: 0 <= i < |dims| ==> dims[i] > 0
    ensures Numel(dims) > 0
  {
    if dims != [] {
      PositiveNumel(dims[1..]);
      PositiveProduct(dims[0], Numel(dims[1..]));
    }
  }

  /** Up to the shrink to all steps, padded or not, the element stays where it is. */
  lemma PadFirst(dims: Shape, h: Axis, w: Axis, b: seq<nat>, d: seq<nat>)
    requires PoolOk(dims, h, w) && Coord(dims, b) && Coord([h.size, w.size], d)
    requires d[0] < Count(h) * h.s && d[1] < Count(w) * w.s
    ensures var n := |dims|;
      Arrives(dims + [h.size, w.size],
              (if NeedPad(h, w) then [Pad(Zeros(n + 2), Zeros(n) + [Padding(h), Padding(w)])] else []) +
              [Shrink(Zeros(n + 2), dims + [Count(h) * h.s, Count(w) * w.s])],
              dims + [Count(h) * h.s, Count(w) * w.s], b + d, b + d)
  {
    var n := |dims|;
    var (t, t', u) := ([h.size, w.size], [h.size + Padding(h), w.size + Padding(w)], [Count(h) * h.s, Count(w) * w.s]);
    var shrink := Shrink(Zeros(n + 2), dims + u);
    if NeedPad(h, w) {
      var pad := Pad(Zeros(n + 2), Zeros(n) + [Padding(h), Padding(w)]);
      TailPad(dims, b, t, [Padding(h), Padding(w)], t', d);
      OneMove(dims + t, pad, dims + t', b + d, b + d);
      TailShrink(dims, b, t', u, d);
      ArrivesNext(dims + t, [pad], dims + t', shrink, dims + u, b + d, b + d, b + d);
    } else {
      TailShrink(dims, b, t, u, d);
      OneMove(dims + t, shrink, dims + u, b + d, b + d);
      assert [] + [shrink] == [shrink];
    }
  }

  lemma OneMove(s: Shape, m: Move, to: Shape, c: seq<nat>, c0: seq<nat>)
    requires Carries(s, m, to, c, c0)
    ensures Arrives(s, [m], to, c, c0)
  {
    assert [m][1..] == [];
  }

  /** All steps, split into windows and positions within a step. */
  lemma PadSplit(s: Shape, prog: seq<Move>, dims: Shape, h: Axis, w: Axis, b: seq<nat>, y: nat, x: nat, ky: nat,
                 kx: nat, row: nat, col: nat, c0: seq<nat>)
    requires SpotOk(dims, h, w, b, y, x, ky, kx) && Small(h) && Small(w)
    requires row == y * h.s + ky && col == x * w.s + kx && row < Count(h) * h.s && col < Count(w) * w.s
    requires Arrives(s, prog, dims + [Count(h) * h.s, Count(w) * w.s], b + [row, col], c0)
    ensures Arrives(s, prog + [Reshape(dims + [Count(h), h.s, Count(w), w.s])], dims + [Count(h), h.s, Count(w), w.s],
                    b + [y, ky, x, kx], c0)
  {
    var (n, m) := (Count(h) * h.s, Count(w) * w.s);
    PositiveNumel(dims);
    SplitFlat(Count(h), h.s, Count(w), w.s, y, ky, x, kx, n, m, row, col);
    TailReshape(dims, b, [n, m], [row, col], [Count(h), h.s, Count(w), w.s], [y, ky, x, kx]);
    ArrivesNext(s, prog, dims + [n, m], Reshape(dims + [Count(h), h.s, Count(w), w.s]),
                dims + [Count(h), h.s, Count(w), w.s], b + [y, ky, x, kx], b + [row, col], c0);
  }

  /** Within a step, the window's elements only. */
  lemma PadCut(s: Shape, prog: seq<Move>, dims: Shape, u: Shape, v: Shape, b: seq<nat>, e: seq<nat>, c0: seq<nat>)
    requires |b| == |dims| && |e| == |u| == |v| == 4 && (forall i :: 0 <= i < 4 ==> v[i] <= u[i])
    requires Arrives(s, prog, dims + u, b + e, c0)
    ensures Arrives(s, prog + [Shrink(Zeros(|dims| + 4), dims + v)], dims + v, b + e, c0)
  {
    TailShrink(dims, b, u, v, e);
    ArrivesNext(s, prog, dims + u, Shrink(Zeros(|dims| + 4), dims + v), dims + v, b + e, b + e, c0);
  }

  lemma PadTurn(s: Shape, prog: seq<Move>, dims: Shape, o0: nat, k0: nat, o1: nat, k1: nat, b: seq<nat>,
                y: nat, x: nat, ky: nat, kx: nat, c0: seq<nat>)
    requires |b| == |dims| && Arrives(s, prog, dims + [o0, k0, o1, k1], b + [y, ky, x, kx], c0)
    ensures Arrives(s, prog + [Permute(PermLast(|dims|, [0, 2, 1, 3]))], dims + [o0, o1, k0, k1], b + [y, x, ky, kx],
                    c0)
  {
    SwapOrder(o0, k0, o1, k1);
    SwapOrder(y, ky, x, kx);
    PermLastReads(dims, [0, 2, 1, 3], [0, 2, 1, 3], [o0, k0, o1, k1], b, [y, ky, x, kx], [o0, o1, k0, k1],
                  [y, x, ky, kx]);
    ArrivesNext(s, prog, dims + [o0, k0, o1, k1], Permute(PermLast(|dims|, [0, 2, 1, 3])), dims + [o0, o1, k0, k1],
                b + [y, x, ky, kx], b + [y, ky, x, kx], c0);
  }

  /** The pad chain turns [batch, H, W] into [batch, OY, OX, KH, KW] and reads element
      (y * s + ky, x * s + kx) of the input, like the repeat chain. */
  lemma PadPool(dims: Shape, h: Axis, w: Axis, b: seq<nat>, y: nat, x: nat, ky: nat, kx: nat, row: nat, col: nat)
    requires SpotOk(dims, h, w, b, y, x, ky, kx) && Small(h) && Small(w)
    requires row == y * h.s + ky && col == x * w.s + kx
    ensures Arrives(dims + [h.size, w.size], PadProgram(dims, h, w), dims + [Count(h), Count(w), h.k, w.k],
                    b + [y, x, ky, kx], b + [row, col])
  {
    var (n, s, c0) := (|dims|, dims + [h.size, w.size], b + [row, col]);
    StepInside(h, y, ky);
    StepInside(w, x, kx);
    PadFirst(dims, h, w, b, [row, col]);
    var first := (if NeedPad(h, w) then [Pad(Zeros(n + 2), Zeros(n) + [Padding(h), Padding(w)])] else []) +
      [Shrink(Zeros(n + 2), dims + [Count(h) * h.s, Count(w) * w.s])];
    var (u, v) := ([Count(h), h.s, Count(w), w.s], [Count(h), h.k, Count(w), w.k]);
    PadSplit(s, first, dims, h, w, b, y, x, ky, kx, row, col, c0);
    PadCut(s, first + [Reshape(dims + u)], dims, u, v, b, [y, ky, x, kx], c0);
    PadTurn(s, first + [Reshape(dims + u)] + [Shrink(Zeros(n + 4), dims + v)], dims, Count(h), h.k, Count(w), w.k,
            b, y, x, ky, kx, c0);
  }
}
