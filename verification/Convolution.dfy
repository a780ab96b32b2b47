/** The movement operations of thvm_conv2d. */
module Convolution {
  import opened Shapes
  import opened Moves
  import opened Pooling
  import opened PoolPaths

  /** Batch, groups, input channels per group, output channels per group; the two
      padded axes with their kernels and strides. */
  datatype Conv = Conv(bs: nat, groups: nat, cin: nat, cout: nat, h: Axis, w: Axis)

  ghost predicate ConvOk(v: Conv) {
    v.bs > 0 && v.groups > 0 && v.cin > 0 && v.cout > 0 &&
    v.h.Window? && v.w.Window? && AxisOk(v.h) && AxisOk(v.w)
  }

  /** An output element and a term of its sum. */
  datatype Spot = Spot(b: nat, g: nat, r: nat, y: nat, x: nat, c: nat, kh: nat, kw: nat)

  ghost predicate InConv(v: Conv, p: Spot) {
    ConvOk(v) && p.b < v.bs && p.g < v.groups && p.r < v.cout && p.y < Count(v.h) && p.x < Count(v.w) &&
    p.c < v.cin && p.kh < v.h.k && p.kw < v.w.k
  }

  lemma JoinedSix(a: seq<nat>, b: seq<nat>, c: seq<nat>, d: seq<nat>, e: seq<nat>, f: seq<nat>)
    ensures Joined([a, b, c, d, e, f]) == a + b + c + d + e + f
  {
    JoinedPair(e, f);
    JoinedPair(c, d);
    JoinedPair(a, b);
    JoinedConcat([a, b], [c, d]);
    JoinedConcat([a, b] + [c, d], [e, f]);
    assert [a, b, c, d, e, f] == ([a, b] + [c, d]) + [e, f];
  }

  lemma JoinedFour(a: seq<nat>, b: seq<nat>, c: seq<nat>, d: seq<nat>)
    ensures Joined([a, b, c, d]) == a + b + c + d
  {
    JoinedPair(a, b);
    JoinedPair(c, d);
    JoinedConcat([a, b], [c, d]);
    assert [a, b, c, d] == [a, b] + [c, d];
  }

  /** An axis that a reshape leaves alone. */
  lemma SameAxis(n: nat, i: nat)
    requires i < n
    ensures Numel([n]) == n > 0 && Coord([n], [i]) && Unflat([n], Flat([n], [i])) == [i]
  {
    NumelOf(n, 0, 0);
    UnflatFlat([n], [i]);
  }

  /** Joining axes (n, m, 1) into one of n * m. */
  lemma JoinAxis(n: nat, m: nat, i: nat, j: nat, nm: nat, ij: nat)
    requires i < n && j < m && nm == n * m && ij == i * m + j
    ensures Numel([nm]) == Numel([n, m, 1]) > 0 && Coord([n, m, 1], [i, j, 0]) && ij < nm
    ensures Unflat([nm], Flat([n, m, 1], [i, j, 0])) == [ij]
  {
    NumelOf(nm, 0, 0);
    NumelOf(n, m, 1);
    BlockBound(i, n, j, m);
    FlatThree(n, m, 1, i, j, 0);
    FlatOne(nm, ij);
    UnflatFlat([nm], [ij]);
  }

  // ------------------------------------------------------- the windows of the input

  function Pooled(v: Conv): Shape
    requires ConvOk(v)
  {
    [v.bs] + [v.groups * v.cin] + [Count(v.h)] + [Count(v.w)] + [v.h.k] + [v.w.k]
  }

  function Split(v: Conv, n: nat): Shape
    requires ConvOk(v)
  {
    [v.bs] + [v.groups, v.cin, n] + [Count(v.h)] + [Count(v.w)] + [v.h.k] + [v.w.k]
  }

  function SplitAt(p: Spot, r: nat): seq<nat> { [p.b] + [p.g, p.c, r] + [p.y] + [p.x] + [p.kh] + [p.kw] }

  lemma SplitChannels(v: Conv, p: Spot, ch: nat)
    requires InConv(v, p) && ch == p.g * v.cin + p.c
    ensures Carries(Pooled(v), Reshape(Split(v, 1)), Split(v, 1), SplitAt(p, 0),
                    [p.b] + [ch] + [p.y] + [p.x] + [p.kh] + [p.kw])
  {
    var (o0, o1) := (Count(v.h), Count(v.w));
    var gs := [[v.bs], [v.groups * v.cin], [o0], [o1], [v.h.k], [v.w.k]];
    var hs := [[v.bs], [v.groups, v.cin, 1], [o0], [o1], [v.h.k], [v.w.k]];
    var cs := [[p.b], [p.g, p.c, 0], [p.y], [p.x], [p.kh], [p.kw]];
    var ds := [[p.b], [ch], [p.y], [p.x], [p.kh], [p.kw]];
    SameAxis(v.bs, p.b);
    JoinAxis(v.groups, v.cin, p.g, p.c, v.groups * v.cin, ch);
    SameAxis(o0, p.y);
    SameAxis(o1, p.x);
    SameAxis(v.h.k, p.kh);
    SameAxis(v.w.k, p.kw);
    AxesRead(gs, hs, cs, ds);
    JoinedSix(gs[0], gs[1], gs[2], gs[3], gs[4], gs[5]);
    JoinedSix(hs[0], hs[1], hs[2], hs[3], hs[4], hs[5]);
    JoinedSix(cs[0], cs[1], cs[2], cs[3], cs[4], cs[5]);
    JoinedSix(ds[0], ds[1], ds[2], ds[3], ds[4], ds[5]);
  }

  lemma RegroupedAre(gs: seq<Shape>, hs: seq<Shape>, cs: seq<seq<nat>>, ds: seq<seq<nat>>)
    requires SameSizes(gs, hs) && Inside(hs, cs) && |ds| == |gs|
    requires forall a {:trigger ds[a]} :: 0 <= a < |gs| ==> Unflat(gs[a], Flat(hs[a], cs[a])) == ds[a]
    ensures Regrouped(gs, hs, cs) == ds
  {
    var rs := Regrouped(gs, hs, cs);
    forall a | 0 <= a < |gs| ensures rs[a] == ds[a] {
    }
  }

  /** A reshape that maps every axis as given maps the whole coordinate. */
  lemma AxesRead(gs: seq<Shape>, hs: seq<Shape>, cs: seq<seq<nat>>, ds: seq<seq<nat>>)
    requires SameSizes(gs, hs) && Inside(hs, cs) && |ds| == |gs|
    requires forall a {:trigger ds[a]} :: 0 <= a < |gs| ==> Unflat(gs[a], Flat(hs[a], cs[a])) == ds[a]
    ensures Carries(Joined(gs), Reshape(Joined(hs)), Joined(hs), Joined(cs), Joined(ds))
  {
    ReshapeAxes(gs, hs, cs);
    RegroupedAre(gs, hs, cs, ds);
    ReshapeCarries(Joined(gs), Joined(hs), Joined(cs), Joined(ds));
  }

  lemma ReshapeCarries(s: Shape, t: Shape, c: seq<nat>, d: seq<nat>)
    requires Numel(s) == Numel(t) > 0 && |c| == |t| && Unflat(s, Flat(t, c)) == d
    ensures Carries(s, Reshape(t), t, c, d)
  {
  }

  /** One window element per output channel of the group, and the order that puts the
      output axes first. */
  lemma SpreadChannels(v: Conv, p: Spot)
    requires InConv(v, p)
    ensures Carries(Split(v, 1), Expand(Split(v, v.cout)), Split(v, v.cout), SplitAt(p, p.r), SplitAt(p, 0))
  {
    var (s, t, c, d) := (Split(v, 1), Split(v, v.cout), SplitAt(p, p.r), SplitAt(p, 0));
    assert s == [v.bs, v.groups, v.cin, 1, Count(v.h), Count(v.w), v.h.k, v.w.k];
    assert t == [v.bs, v.groups, v.cin, v.cout, Count(v.h), Count(v.w), v.h.k, v.w.k];
    assert c == [p.b, p.g, p.c, p.r, p.y, p.x, p.kh, p.kw] && d == [p.b, p.g, p.c, 0, p.y, p.x, p.kh, p.kw];
    assert Clamp(s, c) == d;
  }

  function Outputs(v: Conv): Shape
    requires ConvOk(v)
  {
    [v.bs, v.groups] + [v.cout, Count(v.h), Count(v.w), v.cin, v.h.k, v.w.k]
  }

  function OutputAt(p: Spot): seq<nat> { [p.b, p.g] + [p.r, p.y, p.x, p.c, p.kh, p.kw] }

  lemma ConvOrder(a: nat, b: nat, c: nat, d: nat, e: nat, f: nat)
    ensures IsPerm([1, 2, 3, 0, 4, 5]) && Undoes([1, 2, 3, 0, 4, 5], [3, 0, 1, 2, 4, 5])
    ensures forall i :: 0 <= i < 6 ==> [b, c, d, a, e, f][i] == [a, b, c, d, e, f][[1, 2, 3, 0, 4, 5][i]]
  {
  }

  lemma TurnChannels(v: Conv, p: Spot)
    requires InConv(v, p)
    ensures Carries(Split(v, v.cout), Permute(PermLast(2, [1, 2, 3, 0, 4, 5])), Outputs(v), OutputAt(p),
                    SplitAt(p, p.r))
  {
    var (o0, o1) := (Count(v.h), Count(v.w));
    ConvOrder(v.cin, v.cout, o0, o1, v.h.k, v.w.k);
    ConvOrder(p.c, p.r, p.y, p.x, p.kh, p.kw);
    PermLastReads([v.bs, v.groups], [1, 2, 3, 0, 4, 5], [3, 0, 1, 2, 4, 5], [v.cin, v.cout, o0, o1, v.h.k, v.w.k],
                  [p.b, p.g], [p.c, p.r, p.y, p.x, p.kh, p.kw], [v.cout, o0, o1, v.cin, v.h.k, v.w.k],
                  [p.r, p.y, p.x, p.c, p.kh, p.kw]);
    assert Split(v, v.cout) == [v.bs, v.groups] + [v.cin, v.cout, o0, o1, v.h.k, v.w.k];
    assert SplitAt(p, p.r) == [p.b, p.g] + [p.c, p.r, p.y, p.x, p.kh, p.kw];
  }

  /** The moves on the pooled input. */
  ghost function Windows(v: Conv, pool: seq<Move>): seq<Move>
    requires ConvOk(v)
  {
    pool + [Reshape(Split(v, 1))] + [Expand(Split(v, v.cout))] + [Permute(PermLast(2, [1, 2, 3, 0, 4, 5]))]
  }

  /** After any pool that reads window elements: the factor taken from the input. */
  lemma WindowsRead(v: Conv, pool: seq<Move>, p: Spot, s: Shape, ch: nat, c0: seq<nat>)
    requires InConv(v, p) && ch == p.g * v.cin + p.c
    requires Arrives(s, pool, Pooled(v), [p.b] + [ch] + [p.y] + [p.x] + [p.kh] + [p.kw], c0)
    ensures Arrives(s, Windows(v, pool), Outputs(v), OutputAt(p), c0)
  {
    SplitChannels(v, p, ch);
    ArrivesNext(s, pool, Pooled(v), Reshape(Split(v, 1)), Split(v, 1), SplitAt(p, 0),
                [p.b] + [ch] + [p.y] + [p.x] + [p.kh] + [p.kw], c0);
    SpreadChannels(v, p);
    var first := pool + [Reshape(Split(v, 1))];
    ArrivesNext(s, first, Split(v, 1), Expand(Split(v, v.cout)), Split(v, v.cout), SplitAt(p, p.r), SplitAt(p, 0), c0);
    TurnChannels(v, p);
    ArrivesNext(s, first + [Expand(Split(v, v.cout))], Split(v, v.cout), Permute(PermLast(2, [1, 2, 3, 0, 4, 5])),
                Outputs(v), OutputAt(p), SplitAt(p, p.r), c0);
  }

  // --------------------------------------------------------------------- weights

  function Weights(v: Conv): Shape
    requires ConvOk(v)
  {
    [v.groups * v.cout] + [v.cin] + [v.h.k] + [v.w.k]
  }

  function Spread(v: Conv): Shape
    requires ConvOk(v)
  {
    [1, v.groups, v.cout, 1, 1] + [v.cin] + [v.h.k] + [v.w.k]
  }

  lemma FlatFive(n: nat, m: nat, i: nat, j: nat)
    ensures Numel([1, n, m, 1, 1]) == n * m && Flat([1, n, m, 1, 1], [0, i, j, 0, 0]) == i * m + j
  {
    assert [1, n, m, 1, 1] == [1] + ([n, m] + [1, 1]) && [0, i, j, 0, 0] == [0] + ([i, j] + [0, 0]);
    NumelConcat([1], [n, m] + [1, 1]);
    NumelConcat([n, m], [1, 1]);
    NumelOf(1, 1, 0);
    NumelOf(n, m, 0);
    FlatConcat([1], [n, m] + [1, 1], [0], [i, j] + [0, 0]);
    FlatConcat([n, m], [1, 1], [i, j], [0, 0]);
    FlatOne(1, 0);
    FlatTwo(1, 1, 0, 0);
    FlatTwo(n, m, i, j);
  }

  /** The output channel of group g and position r. */
  lemma OutputChannel(n: nat, m: nat, i: nat, j: nat, nm: nat, ij: nat)
    requires i < n && j < m && nm == n * m && ij == i * m + j
    ensures ij < nm && Numel([nm]) == Numel([1, n, m, 1, 1]) > 0 && Coord([1, n, m, 1, 1], [0, i, j, 0, 0])
    ensures Unflat([nm], Flat([1, n, m, 1, 1], [0, i, j, 0, 0])) == [ij]
  {
    FlatFive(n, m, i, j);
    BlockBound(i, n, j, m);
    NumelOf(nm, 0, 0);
    FlatOne(nm, ij);
    UnflatFlat([nm], [ij]);
  }

  /** The factor taken from the weights: [cout, cin, KH, KW] seen as
      [1, groups, cout per group, 1, 1, cin, KH, KW]. */
  lemma WeightsRead(v: Conv, p: Spot, co: nat)
    requires InConv(v, p) && co == p.g * v.cout + p.r
    ensures Carries(Weights(v), Reshape(Spread(v)), Spread(v), [0, p.g, p.r, 0, 0] + [p.c] + [p.kh] + [p.kw],
                    [co] + [p.c] + [p.kh] + [p.kw])
    ensures [0, p.g, p.r, 0, 0] + [p.c] + [p.kh] + [p.kw] == Clamp(Spread(v), OutputAt(p))
  {
    var gs := [[v.groups * v.cout], [v.cin], [v.h.k], [v.w.k]];
    var hs := [[1, v.groups, v.cout, 1, 1], [v.cin], [v.h.k], [v.w.k]];
    var cs := [[0, p.g, p.r, 0, 0], [p.c], [p.kh], [p.kw]];
    var ds := [[co], [p.c], [p.kh], [p.kw]];
    OutputChannel(v.groups, v.cout, p.g, p.r, v.groups * v.cout, co);
    SameAxis(v.cin, p.c);
    SameAxis(v.h.k, p.kh);
    SameAxis(v.w.k, p.kw);
    AxesRead(gs, hs, cs, ds);
    JoinedFour(gs[0], gs[1], gs[2], gs[3]);
    JoinedFour(hs[0], hs[1], hs[2], hs[3]);
    JoinedFour(cs[0], cs[1], cs[2], cs[3]);
    JoinedFour(ds[0], ds[1], ds[2], ds[3]);
    SpreadClamps(v, p);
  }

  lemma SpreadClamps(v: Conv, p: Spot)
    requires InConv(v, p)
    ensures [0, p.g, p.r, 0, 0] + [p.c] + [p.kh] + [p.kw] == Clamp(Spread(v), OutputAt(p))
  {
    assert Spread(v) == [1, v.groups, v.cout, 1, 1, v.cin, v.h.k, v.w.k];
    assert OutputAt(p) == [p.b, p.g, p.r, p.y, p.x, p.c, p.kh, p.kw];
  }
}
