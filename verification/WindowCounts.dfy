/** How many windows come out. */
module WindowCounts {
  import opened Shapes
  import opened Moves
  import opened Pooling
  import opened PoolPaths
  import opened PoolPadded
  import opened Convolution
  import opened ConvSums
  import opened ConvOutputs

  /** n windows of k elements in steps of s fit on an axis, and one more would not. */
  predicate AllWindows(n: nat, size: nat, k: nat, s: nat) {
    n > 0 && (n - 1) * s + k <= size < n * s + k
  }

  lemma CountCovers(a: Axis)
    requires a.Window? && AxisOk(a)
    ensures AllWindows(Count(a), a.size, a.k, a.s)
  {
    var (q, rest) := ((a.size - a.k) / a.s, (a.size - a.k) % a.s);
    assert a.size - a.k == q * a.s + rest;
    assert (q + 1) * a.s == q * a.s + a.s;
  }

  /** The batch axes, all windows of the two others, and the elements of a window. */
  predicate WindowShape(shape: Shape, dims: Shape, h: Axis, w: Axis)
    requires h.Window? && w.Window?
  {
    var n := |dims|;
    |shape| == n + 4 && shape[..n] == dims &&
    AllWindows(shape[n], h.size, h.k, h.s) && AllWindows(shape[n + 1], w.size, w.k, w.s) &&
    shape[n + 2] == h.k && shape[n + 3] == w.k
  }

  lemma CountShape(dims: Shape, h: Axis, w: Axis)
    requires PoolOk(dims, h, w)
    ensures WindowShape(dims + [Count(h), Count(w), h.k, w.k], dims, h, w)
  {
    CountCovers(h);
    CountCovers(w);
  }

  /** Whenever the repeat chain can be applied. */
  lemma RepeatShape(dims: Shape, h: Axis, w: Axis)
    requires PoolOk(dims, h, w) && Runs(dims + [h.size] + [w.size], RepeatProgram(dims, h, w))
    ensures WindowShape(Result(dims + [h.size] + [w.size], RepeatProgram(dims, h, w)), dims, h, w)
  {
    RepeatMustFit(dims, h, w);
    RepeatPool(dims, h, w, Zeros(|dims|), 0, 0, 0, 0);
    CountShape(dims, h, w);
  }

  lemma PadShape(dims: Shape, h: Axis, w: Axis)
    requires PoolOk(dims, h, w) && Small(h) && Small(w)
    ensures Runs(dims + [h.size, w.size], PadProgram(dims, h, w))
    ensures WindowShape(Result(dims + [h.size, w.size], PadProgram(dims, h, w)), dims, h, w)
  {
    PadPool(dims, h, w, Zeros(|dims|), 0, 0, 0, 0, 0, 0);
    CountShape(dims, h, w);
  }

  lemma ViewShape(dims: Shape, h: Axis, w: Axis)
    requires PoolOk(dims, h, w)
    ensures Ok(dims + [h.size, w.size], SlideOf(h, w))
    ensures WindowShape(Moved(dims + [h.size, w.size], SlideOf(h, w)), dims, h, w)
  {
    SlideMoves(dims, h, w);
    CountShape(dims, h, w);
  }

  /** The output of a convolution: the batch, all output channels, and one element for
      every window of the input with its padding. */
  lemma OutputWindows(v: Conv, d: Pads)
    requires PadsOk(v, d)
    ensures var (s, o) := (Input(v, d), OutShape(v));
      |s| == |o| == 4 && o[0] == s[0] && o[1] == v.groups * v.cout &&
      AllWindows(o[2], d.top + s[2] + d.bottom, v.h.k, v.h.s) && AllWindows(o[3], d.left + s[3] + d.right, v.w.k, v.w.s)
  {
    CountCovers(v.h);
    CountCovers(v.w);
  }
}
