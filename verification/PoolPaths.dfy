/** The repeat chain and the strided view of thvm_pool on two axes. */
module PoolPaths {
  import opened Shapes
  import opened Moves
  import opened Pooling
  import opened PoolChain

  function Batches(dims: Shape): (axes: seq<Axis>)
    ensures |axes| == |dims| && forall i :: 0 <= i < |dims| ==> axes[i] == Batch(dims[i])
  {
    seq(|dims|, i requires 0 <= i < |dims| => Batch(dims[i]))
  }

  function Places(b: seq<nat>): (ps: seq<Pos>)
    ensures |ps| == |b| && forall i :: 0 <= i < |b| ==> ps[i] == Pos(b[i], 0)
  {
    seq(|b|, i requires 0 <= i < |b| => Pos(b[i], 0))
  }

  /** A pool: batch dimensions, and two axes with windows. */
  ghost predicate PoolOk(dims: Shape, h: Axis, w: Axis) {
    (forall i :: 0 <= i < |dims| ==> dims[i] > 0) && h.Window? && w.Window? && AxisOk(h) && AxisOk(w)
  }

  function Axes(dims: Shape, h: Axis, w: Axis): seq<Axis> { Batches(dims) + [h, w] }

  function Spots(b: seq<nat>, y: nat, x: nat, ky: nat, kx: nat): seq<Pos> { Places(b) + [Pos(ky, y), Pos(kx, x)] }

  /** Batch index b, window (y, x) and element (ky, kx) of it are in range. */
  ghost predicate SpotOk(dims: Shape, h: Axis, w: Axis, b: seq<nat>, y: nat, x: nat, ky: nat, kx: nat) {
    PoolOk(dims, h, w) && Coord(dims, b) && y < Count(h) && x < Count(w) && ky < h.k && kx < w.k
  }

  lemma AxesFit(dims: Shape, h: Axis, w: Axis, b: seq<nat>, y: nat, x: nat, ky: nat, kx: nat)
    requires SpotOk(dims, h, w, b, y, x, ky, kx)
    ensures AllOk(Axes(dims, h, w)) && AllPos(Axes(dims, h, w), Spots(b, y, x, ky, kx))
    ensures Fits(h) && Fits(w) ==> AllFit(Axes(dims, h, w))
  {
  }

  // ------------------------------------------------------------ joined batch axes

  lemma {:induction false} JoinedConcat(a: seq<seq<nat>>, b: seq<seq<nat>>)
    ensures Joined(a + b) == Joined(a) + Joined(b)
  {
    if a == [] {
      assert a + b == b;
    } else {
      JoinedConcat(a[1..], b);
      assert (a + b)[1..] == a[1..] + b;
      ConcatAssociates(a[0], Joined(a[1..]), Joined(b));
    }
  }

  lemma {:induction false} JoinedSingles(gs: seq<seq<nat>>, s: seq<nat>)
    requires |gs| == |s| && forall i {:trigger gs[i]} :: 0 <= i < |s| ==> gs[i] == [s[i]]
    ensures Joined(gs) == s
  {
    if gs != [] {
      JoinedSingles(gs[1..], s[1..]);
      assert s == [s[0]] + s[1..];
    }
  }

  lemma JoinedPair(p: seq<nat>, q: seq<nat>)
    ensures Joined([p, q]) == p + q
  {
    assert [p, q][1..] == [q] && [q][1..] == [];
    assert Joined([q]) == q + Joined([]);
  }

  /** Groups that are single dimensions for the batch and given for the two windows. */
  lemma JoinedPool(gs: seq<seq<nat>>, s: seq<nat>, p: seq<nat>, q: seq<nat>)
    requires |gs| == |s| + 2 && gs[|s|] == p && gs[|s| + 1] == q
    requires forall i {:trigger gs[i]} :: 0 <= i < |s| ==> gs[i] == [s[i]]
    ensures Joined(gs) == s + p + q
  {
    assert gs == gs[..|s|] + [p, q];
    JoinedConcat(gs[..|s|], [p, q]);
    JoinedSingles(gs[..|s|], s);
    JoinedPair(p, q);
    ConcatAssociates(s, p, q);
  }

  lemma PoolStages(dims: Shape, h: Axis, w: Axis, n: nat)
    requires PoolOk(dims, h, w) && n in {0, 9}
    ensures AllOk(Axes(dims, h, w)) && StageShape(n, Axes(dims, h, w)) == dims + Stage(n, h) + Stage(n, w)
  {
    var axes := Axes(dims, h, w);
    var gs := Groups(n, axes);
    forall i | 0 <= i < |dims| ensures gs[i] == [dims[i]] { assert gs[i] == Stage(n, axes[i]); }
    JoinedPool(gs, dims, Stage(n, h), Stage(n, w));
  }

  lemma PoolShapes(dims: Shape, h: Axis, w: Axis)
    requires PoolOk(dims, h, w)
    ensures AllOk(Axes(dims, h, w)) && StageShape(0, Axes(dims, h, w)) == dims + [h.size] + [w.size]
    ensures StageShape(9, Axes(dims, h, w)) == dims + [h.k, Count(h)] + [w.k, Count(w)]
  {
    PoolStages(dims, h, w, 0);
    PoolStages(dims, h, w, 9);
  }

  lemma WindowStart(a: Axis, e: nat, y: nat)
    requires a.Window? && AxisOk(a) && e < a.k && y < Count(a)
    ensures At(0, a, Pos(e, y)) == [y * a.s + e]
  {
    TiledReads(a, Pos(e, y));
  }

  lemma PoolStart(dims: Shape, h: Axis, w: Axis, b: seq<nat>, y: nat, x: nat, ky: nat, kx: nat)
    requires SpotOk(dims, h, w, b, y, x, ky, kx)
    ensures AllOk(Axes(dims, h, w)) && |Spots(b, y, x, ky, kx)| == |Axes(dims, h, w)|
    ensures Joined(Coords(0, Axes(dims, h, w), Spots(b, y, x, ky, kx))) == b + [y * h.s + ky] + [x * w.s + kx]
  {
    var (axes, ps) := (Axes(dims, h, w), Spots(b, y, x, ky, kx));
    AxesFit(dims, h, w, b, y, x, ky, kx);
    forall i | 0 <= i < |b| ensures Coords(0, axes, ps)[i] == [b[i]] {
      TiledReads(axes[i], ps[i]);
    }
    WindowStart(h, ky, y);
    WindowStart(w, kx, x);
    JoinedPool(Coords(0, axes, ps), b, [y * h.s + ky], [x * w.s + kx]);
  }

  lemma PoolEnd(dims: Shape, h: Axis, w: Axis, b: seq<nat>, y: nat, x: nat, ky: nat, kx: nat)
    requires SpotOk(dims, h, w, b, y, x, ky, kx)
    ensures AllOk(Axes(dims, h, w)) && |Spots(b, y, x, ky, kx)| == |Axes(dims, h, w)|
    ensures Joined(Coords(9, Axes(dims, h, w), Spots(b, y, x, ky, kx))) == b + [ky, y] + [kx, x]
  {
    AxesFit(dims, h, w, b, y, x, ky, kx);
    JoinedPool(Coords(9, Axes(dims, h, w), Spots(b, y, x, ky, kx)), b, [ky, y], [kx, x]);
  }

  // ------------------------------------------------------------- the permutation

  /** Batch axes stay; of four axes the order given by `last`. */
  function PermLast(n: nat, last: seq<nat>): (perm: seq<nat>)
    ensures |perm| == n + |last|
  {
    seq(n, i requires 0 <= i => i) + seq(|last|, i requires 0 <= i < |last| => n + last[i])
  }

  /** inv undoes the order `last`. */
  ghost predicate Undoes(last: seq<nat>, inv: seq<nat>) {
    |inv| == |last| && forall j :: 0 <= j < |last| ==> last[j] < |last| && inv[j] < |last| && last[inv[j]] == j
  }

  lemma PermLastMoves(s: Shape, last: seq<nat>, t: Shape, t': Shape)
    requires |t| == |t'| == |last| && IsPerm(last) && forall i :: 0 <= i < |last| ==> t'[i] == t[last[i]]
    ensures Ok(s + t, Permute(PermLast(|s|, last))) && Moved(s + t, Permute(PermLast(|s|, last))) == s + t'
  {
    var (n, perm) := (|s|, PermLast(|s|, last));
    PermLastIsPerm(n, last);
    forall i | 0 <= i < n + |last| ensures (s + t)[perm[i]] == (s + t')[i] {
      if i >= n { assert perm[i] == n + last[i - n] && (s + t)[n + last[i - n]] == t[last[i - n]]; }
    }
  }

  lemma PermLastFinds(last: seq<nat>, inv: seq<nat>, c: seq<nat>, d: seq<nat>, d': seq<nat>)
    requires |d| == |last| == |d'| && IsPerm(last) && Undoes(last, inv)
    requires forall i :: 0 <= i < |last| ==> d'[i] == d[last[i]]
    ensures Unpermuted(PermLast(|c|, last), c + d') == c + d
  {
    var (n, perm) := (|c|, PermLast(|c|, last));
    PermLastIsPerm(n, last);
    var c0 := Unpermuted(perm, c + d');
    forall j | 0 <= j < |c0| ensures c0[j] == (c + d)[j] {
      PermLastFindsAt(last, inv, c, d, d', j);
    }
  }

  lemma PermLastFindsAt(last: seq<nat>, inv: seq<nat>, c: seq<nat>, d: seq<nat>, d': seq<nat>, j: nat)
    requires |d| == |last| == |d'| && IsPerm(last) && Undoes(last, inv) && IsPerm(PermLast(|c|, last))
    requires forall i :: 0 <= i < |last| ==> d'[i] == d[last[i]]
    requires j < |c| + |d|
    ensures Unpermuted(PermLast(|c|, last), c + d')[j] == (c + d)[j]
  {
    var (n, perm) := (|c|, PermLast(|c|, last));
    if j < n {
      FoundAt(perm, c + d', j, j);
    } else {
      FoundAt(perm, c + d', n + inv[j - n], j);
    }
  }

  lemma FoundAt(perm: seq<nat>, c: seq<nat>, i: nat, j: nat)
    requires IsPerm(perm) && |c| == |perm| && i < |perm| && perm[i] == j
    ensures j < |perm| && Unpermuted(perm, c)[j] == c[i]
  {
    UnpermutedReads(perm, c);
  }

  lemma PermLastReads(s: Shape, last: seq<nat>, inv: seq<nat>, t: Shape, c: seq<nat>, d: seq<nat>, t': Shape,
                      d': seq<nat>)
    requires |c| == |s| && |d| == |t| == |last| == |t'| == |d'| && IsPerm(last) && Undoes(last, inv)
    requires forall i :: 0 <= i < |last| ==> t'[i] == t[last[i]]
    requires forall i :: 0 <= i < |last| ==> d'[i] == d[last[i]]
    ensures Carries(s + t, Permute(PermLast(|s|, last)), s + t', c + d', c + d)
  {
    PermLastMoves(s, last, t, t');
    PermLastFinds(last, inv, c, d, d');
  }

  lemma PermLastIsPerm(n: nat, last: seq<nat>)
    requires IsPerm(last)
    ensures IsPerm(PermLast(n, last))
  {
    var perm := PermLast(n, last);
    forall i, j | 0 <= i < j < |perm| ensures perm[i] != perm[j] {
      if i >= n { assert last[i - n] != last[j - n]; }
    }
  }

  // ------------------------------------------------------------ the repeat chain

  ghost function RepeatProgram(dims: Shape, h: Axis, w: Axis): seq<Move>
    requires PoolOk(dims, h, w)
  {
    PoolShapes(dims, h, w);
    Chain(9, Axes(dims, h, w)) + [Permute(PermLast(|dims|, [1, 3, 0, 2]))]
  }

  /** Windows before elements, of axes given as [element, window] pairs ... */
  lemma PairOrder(p: nat, q: nat, r: nat, t: nat)
    ensures IsPerm([1, 3, 0, 2]) && Undoes([1, 3, 0, 2], [2, 0, 3, 1])
    ensures forall i :: 0 <= i < 4 ==> [q, t, p, r][i] == [p, q, r, t][[1, 3, 0, 2][i]]
  {
  }

  /** ... and of axes given as [window, element] pairs. */
  lemma SwapOrder(p: nat, q: nat, r: nat, t: nat)
    ensures IsPerm([0, 2, 1, 3]) && Undoes([0, 2, 1, 3], [0, 2, 1, 3])
    ensures forall i :: 0 <= i < 4 ==> [p, r, q, t][i] == [p, q, r, t][[0, 2, 1, 3][i]]
  {
  }

  lemma RepeatTurn(s: Shape, prog: seq<Move>, dims: Shape, k0: nat, o0: nat, k1: nat, o1: nat, b: seq<nat>,
                   y: nat, x: nat, ky: nat, kx: nat, c0: seq<nat>)
    requires |b| == |dims| && Arrives(s, prog, dims + [k0, o0, k1, o1], b + [ky, y, kx, x], c0)
    ensures Arrives(s, prog + [Permute(PermLast(|dims|, [1, 3, 0, 2]))], dims + [o0, o1, k0, k1], b + [y, x, ky, kx],
                    c0)
  {
    PairOrder(k0, o0, k1, o1);
    PairOrder(ky, y, kx, x);
    PermLastReads(dims, [1, 3, 0, 2], [2, 0, 3, 1], [k0, o0, k1, o1], b, [ky, y, kx, x], [o0, o1, k0, k1],
                  [y, x, ky, kx]);
    ArrivesNext(s, prog, dims + [k0, o0, k1, o1], Permute(PermLast(|dims|, [1, 3, 0, 2])), dims + [o0, o1, k0, k1],
                b + [y, x, ky, kx], b + [ky, y, kx, x], c0);
  }

  lemma PairsJoin(s: seq<nat>, p: nat, q: nat, r: nat, t: nat)
    ensures s + [p, q] + [r, t] == s + [p, q, r, t]
  {
  }

  /** The repeat chain turns [batch, H, W] into [batch, OY, OX, KH, KW] and reads
      element (y * s + ky, x * s + kx) of the input. */
  lemma RepeatPool(dims: Shape, h: Axis, w: Axis, b: seq<nat>, y: nat, x: nat, ky: nat, kx: nat)
    requires SpotOk(dims, h, w, b, y, x, ky, kx) && Fits(h) && Fits(w)
    ensures Arrives(dims + [h.size] + [w.size], RepeatProgram(dims, h, w), dims + [Count(h), Count(w), h.k, w.k],
                    b + [y, x, ky, kx], b + [y * h.s + ky] + [x * w.s + kx])
  {
    var (axes, ps) := (Axes(dims, h, w), Spots(b, y, x, ky, kx));
    AxesFit(dims, h, w, b, y, x, ky, kx);
    ChainReads(9, axes, ps);
    PoolShapes(dims, h, w);
    PoolStart(dims, h, w, b, y, x, ky, kx);
    PoolEnd(dims, h, w, b, y, x, ky, kx);
    PairsJoin(dims, h.k, Count(h), w.k, Count(w));
    PairsJoin(b, ky, y, kx, x);
    RepeatTurn(dims + [h.size] + [w.size], Chain(9, axes), dims, h.k, Count(h), w.k, Count(w), b, y, x, ky, kx,
               b + [y * h.s + ky] + [x * w.s + kx]);
  }

  lemma OneList(s: seq<nat>, p: nat, q: nat)
    ensures s + [p] + [q] == s + [p, q]
  {
  }

  /** The same with the two window axes in one list. */
  lemma RepeatArrives(dims: Shape, h: Axis, w: Axis, b: seq<nat>, y: nat, x: nat, ky: nat, kx: nat, row: nat, col: nat)
    requires SpotOk(dims, h, w, b, y, x, ky, kx) && Fits(h) && Fits(w) && row == y * h.s + ky && col == x * w.s + kx
    ensures Arrives(dims + [h.size, w.size], RepeatProgram(dims, h, w), dims + [Count(h), Count(w), h.k, w.k],
                    b + [y, x, ky, kx], b + [row, col])
  {
    RepeatPool(dims, h, w, b, y, x, ky, kx);
    OneList(dims, h.size, w.size);
    OneList(b, row, col);
  }

  lemma WindowsMustFit(dims: Shape, h: Axis, w: Axis)
    requires AllFit(Axes(dims, h, w))
    ensures Fits(h) && Fits(w)
  {
    var axes := Axes(dims, h, w);
    assert axes[|dims|] == h && axes[|dims| + 1] == w;
  }

  lemma RepeatRuns(dims: Shape, h: Axis, w: Axis)
    requires PoolOk(dims, h, w) && Fits(h) && Fits(w)
    ensures Runs(dims + [h.size] + [w.size], RepeatProgram(dims, h, w))
  {
    RepeatPool(dims, h, w, Zeros(|dims|), 0, 0, 0, 0);
  }

  lemma RepeatMustFit(dims: Shape, h: Axis, w: Axis)
    requires PoolOk(dims, h, w) && Runs(dims + [h.size] + [w.size], RepeatProgram(dims, h, w))
    ensures Fits(h) && Fits(w)
  {
    var axes := Axes(dims, h, w);
    PoolShapes(dims, h, w);
    RunsPrefix(StageShape(0, axes), Chain(9, axes), Permute(PermLast(|dims|, [1, 3, 0, 2])));
    ChainRunsIff(axes);
    WindowsMustFit(dims, h, w);
  }

  /** The repeat chain can be applied exactly when no step is more than twice its axis
      plus one. */
  lemma RepeatRunsIff(dims: Shape, h: Axis, w: Axis)
    requires PoolOk(dims, h, w)
    ensures Runs(dims + [h.size] + [w.size], RepeatProgram(dims, h, w)) <==> Fits(h) && Fits(w)
  {
    if Fits(h) && Fits(w) { RepeatRuns(dims, h, w); }
    if Runs(dims + [h.size] + [w.size], RepeatProgram(dims, h, w)) { RepeatMustFit(dims, h, w); }
  }

  /** On a 1 by 2 input, kernels of 1 and 2 with steps of 4 and 1: the second kernel is
      longer than its step, so the repeat chain is taken, and it goes out of range. */
  lemma LongStepFails()
    ensures PoolOk([], Window(1, 1, 4), Window(2, 2, 1))
    ensures !Runs([] + [1] + [2], RepeatProgram([], Window(1, 1, 4), Window(2, 2, 1)))
  {
    RepeatRunsIff([], Window(1, 1, 4), Window(2, 2, 1));
  }

  // ------------------------------------------------------------ the strided view

  function Dot(strides: seq<int>, c: seq<nat>): int
    requires |strides| == |c|
  {
    if c == [] then 0 else strides[0] * c[0] + Dot(strides[1..], c[1..])
  }

  lemma {:induction false} DotConcat(s: seq<int>, t: seq<int>, c: seq<nat>, d: seq<nat>)
    requires |s| == |c| && |t| == |d|
    ensures Dot(s + t, c + d) == Dot(s, c) + Dot(t, d)
  {
    if c == [] {
      assert s + t == t && c + d == d;
    } else {
      DotConcat(s[1..], t, c[1..], d);
      assert (s + t)[1..] == s[1..] + t && (c + d)[1..] == c[1..] + d;
    }
  }

  lemma DotTwo(p: int, q: int, c: nat, d: nat)
    ensures Dot([p, q], [c, d]) == p * c + q * d
  {
    assert [p, q][1..] == [q] && [c, d][1..] == [d] && [q][1..] == [] && [d][1..] == [];
    assert Dot([q], [d]) == q * d + Dot([], []);
  }

  lemma DotFour(p: int, q: int, r: int, s: int, c: nat, d: nat, e: nat, f: nat)
    ensures Dot([p, q, r, s], [c, d, e, f]) == p * c + q * d + (r * e + s * f)
  {
    assert [p, q, r, s] == [p, q] + [r, s] && [c, d, e, f] == [c, d] + [e, f];
    DotConcat([p, q], [r, s], [c, d], [e, f]);
    DotTwo(p, q, c, d);
    DotTwo(r, s, e, f);
  }

  lemma StrideSplits(p: int, s: nat, y: nat, k: nat)
    ensures (p * s) * y + p * k == p * (y * s + k)
  {
    assert (p * s) * y == p * (s * y) && s * y == y * s;
  }

  /** The strided view over an input with strides (batch.., p, q): window axes step by
      s times the stride, element axes by the stride itself. It addresses the input
      element that the repeat chain reads, whatever the strides of the input are. */
  lemma ViewPool(batch: seq<int>, p: int, q: int, s0: nat, s1: nat, b: seq<nat>, y: nat, x: nat, ky: nat, kx: nat,
                 sy: int, sx: int, row: nat, col: nat)
    requires |batch| == |b| && sy == p * s0 && sx == q * s1 && row == y * s0 + ky && col == x * s1 + kx
    ensures Dot(batch + [sy, sx, p, q], b + [y, x, ky, kx]) == Dot(batch + [p, q], b + [row, col])
  {
    WindowDot(p, q, s0, s1, y, x, ky, kx, sy, sx, row, col);
    DotTail(batch, [sy, sx, p, q], [p, q], b, [y, x, ky, kx], [row, col]);
  }

  lemma DotTail(s: seq<int>, t: seq<int>, t': seq<int>, c: seq<nat>, d: seq<nat>, d': seq<nat>)
    requires |s| == |c| && |t| == |d| && |t'| == |d'| && Dot(t, d) == Dot(t', d')
    ensures Dot(s + t, c + d) == Dot(s + t', c + d')
  {
    DotConcat(s, t, c, d);
    DotConcat(s, t', c, d');
  }

  /** The strides of the view over an input with the given strides. */
  function ViewStrides(strides: seq<int>, s0: nat, s1: nat): seq<int>
    requires |strides| >= 2
  {
    var n := |strides| - 2;
    strides[..n] + [strides[n] * s0, strides[n + 1] * s1, strides[n], strides[n + 1]]
  }

  lemma LastTwo<T>(s: seq<T>, n: nat)
    requires |s| == n + 2
    ensures s == s[..n] + [s[n], s[n + 1]]
  {
  }

  lemma LastFour<T>(s: seq<T>, n: nat)
    requires |s| == n + 4
    ensures s == s[..n] + [s[n], s[n + 1], s[n + 2], s[n + 3]]
  {
  }

  /** Every coordinate of the view addresses the element that the sliding move reads. */
  lemma SlideAddress(s: Shape, m: Move, strides: seq<int>, c: seq<nat>)
    requires m.Slide? && Ok(s, m) && |c| == |Moved(s, m)| && |strides| == |s|
    ensures |ViewStrides(strides, m.s0, m.s1)| == |c|
    ensures Dot(ViewStrides(strides, m.s0, m.s1), c) == Dot(strides, Reads(s, m, c).c)
  {
    var n := |s| - 2;
    LastTwo(strides, n);
    LastFour(c, n);
    ViewPool(strides[..n], strides[n], strides[n + 1], m.s0, m.s1, c[..n], c[n], c[n + 1], c[n + 2], c[n + 3],
             strides[n] * m.s0, strides[n + 1] * m.s1, c[n] * m.s0 + c[n + 2], c[n + 1] * m.s1 + c[n + 3]);
  }

  /** The strided view reads the same elements as the chains, for steps of any size. */
  lemma SlidePool(dims: Shape, h: Axis, w: Axis, b: seq<nat>, y: nat, x: nat, ky: nat, kx: nat)
    requires SpotOk(dims, h, w, b, y, x, ky, kx)
    ensures Arrives(dims + [h.size, w.size], [SlideOf(h, w)], dims + [Count(h), Count(w), h.k, w.k],
                    b + [y, x, ky, kx], b + [y * h.s + ky, x * w.s + kx])
  {
    SlideAt(dims, h, w, b, y, x, ky, kx);
    assert [SlideOf(h, w)][1..] == [];
  }

  // --------------------------------------------------------------- masked inputs

  /** The part of an input that is not padding, dimension by dimension. */
  datatype Mask = Mask(begin: seq<nat>, end: seq<nat>)

  ghost predicate Visible(m: Mask, c: seq<nat>) {
    |m.begin| == |m.end| == |c| && forall i :: 0 <= i < |c| ==> m.begin[i] <= c[i] < m.end[i]
  }

  /** A check of a view on two of its axes: begin <= c[a] * stride + c[b] < end. */
  datatype Compound = Compound(a: nat, b: nat, stride: nat, begin: nat, end: nat)

  /** The checks that the strided view makes instead of the input's mask: one for each
      window axis, none for the n batch axes. */
  function ViewMasks(m: Mask, n: nat, s0: nat, s1: nat): seq<Compound>
    requires |m.begin| == |m.end| == n + 2
  {
    [Compound(n, n + 2, s0, m.begin[n], m.end[n]), Compound(n + 1, n + 3, s1, m.begin[n + 1], m.end[n + 1])]
  }

  predicate Passes(cs: seq<Compound>, c: seq<nat>) {
    forall i :: 0 <= i < |cs| ==>
      cs[i].a < |c| && cs[i].b < |c| && cs[i].begin <= c[cs[i].a] * cs[i].stride + c[cs[i].b] < cs[i].end
  }

  /** The view and the input agree on whether the view's element at c is padding. */
  ghost predicate MaskAgrees(s: Shape, v: Move, m: Mask, c: seq<nat>)
    requires v.Slide? && Ok(s, v) && |c| == |Moved(s, v)| && |m.begin| == |m.end| == |s|
  {
    Passes(ViewMasks(m, |s| - 2, v.s0, v.s1), c) <==> Visible(m, Reads(s, v, c).c)
  }

  /** No batch axis of the input is masked. */
  predicate BatchUnmasked(m: Mask, dims: Shape)
    requires |m.begin| == |m.end| == |dims| + 2
  {
    forall i :: 0 <= i < |dims| ==> m.begin[i] == 0 && dims[i] <= m.end[i]
  }

  /** Window y's element e of the axis is not padding. */
  predicate DataAt(a: Axis, begin: nat, end: nat, y: nat, e: nat)
    requires a.Window? && AxisOk(a)
  {
    y < Count(a) && e < a.k && begin <= y * a.s + e < end
  }

  /** Some element of some window of the axis is not padding. */
  ghost predicate SeesData(a: Axis, begin: nat, end: nat)
    requires a.Window? && AxisOk(a)
  {
    exists y, e :: DataAt(a, begin, end, y, e)
  }

  function SlideOf(h: Axis, w: Axis): Move
    requires h.Window? && w.Window?
  {
    Slide(h.k, w.k, h.s, w.s)
  }

  lemma SlideMoves(dims: Shape, h: Axis, w: Axis)
    requires PoolOk(dims, h, w)
    ensures Ok(dims + [h.size, w.size], SlideOf(h, w))
    ensures Moved(dims + [h.size, w.size], SlideOf(h, w)) == dims + [Count(h), Count(w), h.k, w.k]
  {
    assert (dims + [h.size, w.size])[..|dims|] == dims;
  }

  /** The view checks the window axes, the input all of them. */
  lemma MaskParts(dims: Shape, h: Axis, w: Axis, m: Mask, b: seq<nat>, y: nat, x: nat, ky: nat, kx: nat)
    requires SpotOk(dims, h, w, b, y, x, ky, kx) && |m.begin| == |m.end| == |dims| + 2
    ensures var (s, v, c, n) := (dims + [h.size, w.size], SlideOf(h, w), b + [y, x, ky, kx], |dims|);
      Ok(s, v) && |c| == |Moved(s, v)| &&
      (Passes(ViewMasks(m, n, h.s, w.s), c) <==>
         DataAt(h, m.begin[n], m.end[n], y, ky) && DataAt(w, m.begin[n + 1], m.end[n + 1], x, kx)) &&
      (Visible(m, Reads(s, v, c).c) <==>
         Passes(ViewMasks(m, n, h.s, w.s), c) && forall i :: 0 <= i < n ==> m.begin[i] <= b[i] < m.end[i])
  {
    var (s, c, n) := (dims + [h.size, w.size], b + [y, x, ky, kx], |dims|);
    SlideMoves(dims, h, w);
    SlideAt(dims, h, w, b, y, x, ky, kx);
    PassesTwo(ViewMasks(m, n, h.s, w.s)[0], ViewMasks(m, n, h.s, w.s)[1], c);
    VisibleParts(m, b, y * h.s + ky, x * w.s + kx);
  }

  lemma SlideAt(dims: Shape, h: Axis, w: Axis, b: seq<nat>, y: nat, x: nat, ky: nat, kx: nat)
    requires SpotOk(dims, h, w, b, y, x, ky, kx)
    ensures Carries(dims + [h.size, w.size], SlideOf(h, w), dims + [Count(h), Count(w), h.k, w.k],
                    b + [y, x, ky, kx], b + [y * h.s + ky, x * w.s + kx])
  {
    SlideMoves(dims, h, w);
    assert (b + [y, x, ky, kx])[..|b|] == b;
  }

  lemma PassesTwo(p: Compound, q: Compound, c: seq<nat>)
    ensures Passes([p, q], c) <==> Passes([p], c) && Passes([q], c)
  {
    assert [p, q][0] == p && [p, q][1] == q && [p][0] == p && [q][0] == q;
  }

  lemma VisibleParts(m: Mask, b: seq<nat>, row: nat, col: nat)
    requires |m.begin| == |m.end| == |b| + 2
    ensures Visible(m, b + [row, col]) <==>
      (forall i :: 0 <= i < |b| ==> m.begin[i] <= b[i] < m.end[i]) &&
      m.begin[|b|] <= row < m.end[|b|] && m.begin[|b| + 1] <= col < m.end[|b| + 1]
  {
    var c := b + [row, col];
    assert c[|b|] == row && c[|b| + 1] == col && forall i :: 0 <= i < |b| ==> c[i] == b[i];
  }

  /** A coordinate that a masked batch axis hides. */
  lemma HiddenBatch(m: Mask, dims: Shape) returns (b: seq<nat>)
    requires |m.begin| == |m.end| == |dims| + 2 && !BatchUnmasked(m, dims)
    requires forall i :: 0 <= i < |dims| ==> dims[i] > 0
    ensures Coord(dims, b) && !(forall i :: 0 <= i < |dims| ==> m.begin[i] <= b[i] < m.end[i])
  {
    var i: nat :| i < |dims| && !(m.begin[i] == 0 && dims[i] <= m.end[i]);
    b := Zeros(|dims|);
    if m.begin[i] == 0 { b := b[i := dims[i] - 1]; }
    assert !(m.begin[i] <= b[i] < m.end[i]);
  }

  /** The view and the input agree at every window element. */
  ghost predicate MasksAgree(dims: Shape, h: Axis, w: Axis, m: Mask)
    requires PoolOk(dims, h, w) && |m.begin| == |m.end| == |dims| + 2
  {
    SlideMoves(dims, h, w);
    forall b: seq<nat>, y: nat, x: nat, ky: nat, kx: nat {:trigger SpotOk(dims, h, w, b, y, x, ky, kx)} ::
      SpotOk(dims, h, w, b, y, x, ky, kx) ==> MaskAgrees(dims + [h.size, w.size], SlideOf(h, w), m, b + [y, x, ky, kx])
  }

  /** The view agrees with a masked input everywhere if and only if no batch axis is
      masked or the windows see nothing but padding. */
  lemma ViewMaskIff(dims: Shape, h: Axis, w: Axis, m: Mask)
    requires PoolOk(dims, h, w) && |m.begin| == |m.end| == |dims| + 2
    ensures var n := |dims|;
      MasksAgree(dims, h, w, m) <==>
        (BatchUnmasked(m, dims) || !SeesData(h, m.begin[n], m.end[n]) || !SeesData(w, m.begin[n + 1], m.end[n + 1]))
  {
    var n := |dims|;
    SlideMoves(dims, h, w);
    if !BatchUnmasked(m, dims) && SeesData(h, m.begin[n], m.end[n]) && SeesData(w, m.begin[n + 1], m.end[n + 1]) {
      var y, ky :| DataAt(h, m.begin[n], m.end[n], y, ky);
      var x, kx :| DataAt(w, m.begin[n + 1], m.end[n + 1], x, kx);
      MaskDiffers(dims, h, w, m, y, x, ky, kx);
    } else {
      forall b: seq<nat>, y: nat, x: nat, ky: nat, kx: nat | SpotOk(dims, h, w, b, y, x, ky, kx)
        ensures MaskAgrees(dims + [h.size, w.size], SlideOf(h, w), m, b + [y, x, ky, kx])
      {
        MaskParts(dims, h, w, m, b, y, x, ky, kx);
      }
    }
  }

  /** Data that the windows see, behind a batch coordinate that is masked. */
  lemma MaskDiffers(dims: Shape, h: Axis, w: Axis, m: Mask, y: nat, x: nat, ky: nat, kx: nat)
    requires PoolOk(dims, h, w) && |m.begin| == |m.end| == |dims| + 2 && !BatchUnmasked(m, dims)
    requires DataAt(h, m.begin[|dims|], m.end[|dims|], y, ky) &&
      DataAt(w, m.begin[|dims| + 1], m.end[|dims| + 1], x, kx)
    ensures !MasksAgree(dims, h, w, m)
  {
    var b := HiddenBatch(m, dims);
    assert SpotOk(dims, h, w, b, y, x, ky, kx);
    MaskParts(dims, h, w, m, b, y, x, ky, kx);
  }

  /** Two 2 by 2 images, the first of them masked: the view takes it for data. */
  lemma BatchMaskLost()
    ensures PoolOk([2], Window(2, 1, 1), Window(2, 1, 1))
    ensures !MasksAgree([2], Window(2, 1, 1), Window(2, 1, 1), Mask([1, 0, 0], [2, 2, 2]))
  {
    var (a, m) := (Window(2, 1, 1), Mask([1, 0, 0], [2, 2, 2]));
    assert Count(a) == 2 && DataAt(a, 0, 2, 0, 0);
    assert m.begin[0] == 1;
    MaskDiffers([2], a, a, m, 0, 0, 0, 0);
  }

  lemma WindowDot(p: int, q: int, s0: nat, s1: nat, y: nat, x: nat, ky: nat, kx: nat, sy: int, sx: int, row: nat,
                  col: nat)
    requires sy == p * s0 && sx == q * s1 && row == y * s0 + ky && col == x * s1 + kx
    ensures Dot([sy, sx, p, q], [y, x, ky, kx]) == Dot([p, q], [row, col])
  {
    DotFour(sy, sx, p, q, y, x, ky, kx);
    DotTwo(p, q, row, col);
    StrideSplits(p, s0, y, ky);
    StrideSplits(q, s1, x, kx);
  }
}
