/** Sliding windows from movement operations alone: what one axis looks like
    after each step of the repeat chain of thvm_pool, and where each step reads
    the element of a window. */
module Pooling {
  import opened Shapes
  import opened Moves

  /** An axis that is carried along, or one that windows of k elements slide over
      in steps of s. */
  datatype Axis = Batch(size: nat) | Window(size: nat, k: nat, s: nat)

  predicate AxisOk(a: Axis) { a.size > 0 && (a.Window? ==> 1 <= a.k <= a.size && a.s >= 1) }

  /** Number of windows. */
  function Count(a: Axis): nat
    requires a.Window? && AxisOk(a)
  {
    (a.size - a.k) / a.s + 1
  }

  /** The tiling factor: two when the windows' steps run past the last start. */
  function Factor(a: Axis): nat
    requires a.Window? && AxisOk(a)
  {
    1 + if Count(a) * a.s > a.size - (a.k - 1) then 1 else 0
  }

  function Span(a: Axis): nat
    requires a.Window? && AxisOk(a)
  {
    a.size * Factor(a) + 1
  }

  function Repeats(a: Axis): nat
    requires AxisOk(a)
  {
    if a.Batch? then 1 else (a.k * Span(a) + a.size - 1) / a.size
  }

  /** The dimensions of one axis after each step of the chain. */
  function Stage(n: nat, a: Axis): Shape
    requires AxisOk(a)
  {
    if n == 0 then [a.size]
    else if n == 1 then [1, a.size]
    else if n == 2 then [Repeats(a), a.size]
    else if n == 3 then [Repeats(a) * a.size]
    else if a.Batch? then [a.size]
    else if n == 4 then [a.k * Span(a)]
    else if n == 5 then [a.k, Span(a)]
    else if n == 6 then [a.k, Count(a) * a.s]
    else if n == 7 then [a.k, Count(a), a.s]
    else if n == 8 then [a.k, Count(a), 1]
    else [a.k, Count(a)]
  }

  /** Where a step of the chain reads on one axis, for window y and element e of
      it (for a batch axis, index e). */
  datatype Pos = Pos(e: nat, y: nat)

  predicate PosOk(a: Axis, p: Pos)
    requires AxisOk(a)
  {
    if a.Batch? then p.e < a.size else p.e < a.k && p.y < Count(a)
  }

  /** Position of the element in the repeated axis. */
  function Tiled(a: Axis, p: Pos): nat
    requires AxisOk(a)
  {
    if a.Batch? then p.e else p.e * Span(a) + p.y * a.s
  }

  function At(n: nat, a: Axis, p: Pos): seq<nat>
    requires AxisOk(a)
  {
    if n == 0 then [Tiled(a, p) % a.size]
    else if n == 1 then [0, Tiled(a, p) % a.size]
    else if n == 2 then [Tiled(a, p) / a.size, Tiled(a, p) % a.size]
    else if a.Batch? then [p.e]
    else if n <= 4 then [Tiled(a, p)]
    else if n <= 6 then [p.e, p.y * a.s]
    else if n <= 8 then [p.e, p.y, 0]
    else [p.e, p.y]
  }

  // ------------------------------------------------------------ one axis, arithmetic

  /** The last window ends inside the axis. */
  lemma WindowsFit(a: Axis)
    requires AxisOk(a) && a.Window?
    ensures (Count(a) - 1) * a.s + a.k <= a.size
  {
    DivMod(a.size - a.k, a.s);
  }

  lemma WindowInside(a: Axis, p: Pos)
    requires AxisOk(a) && a.Window? && PosOk(a, p)
    ensures p.y * a.s + p.e < a.size
  {
    WindowsFit(a);
    MulLess(p.y, Count(a) - 1, a.s);
  }

  /** All steps of the windows fit the tiled axis, unless the step is more than
      twice the axis plus one. */
  lemma StepsFit(a: Axis)
    requires AxisOk(a) && a.Window?
    ensures Count(a) * a.s <= Span(a) <==> a.s <= 2 * a.size + 1
  {
    WindowsFit(a);
    var (o, s, i) := (Count(a), a.s, a.size);
    assert (o - 1) * s == o * s - s;
    if s > i {
      SingleWindow(a);
    }
  }

  lemma SingleWindow(a: Axis)
    requires AxisOk(a) && a.Window? && a.s > a.size
    ensures Count(a) == 1
  {
    assert (a.size - a.k) / a.s == 0;
  }

  /** The repeated axis is long enough. */
  lemma RepeatsEnough(a: Axis)
    requires AxisOk(a) && a.Window?
    ensures a.k * Span(a) <= Repeats(a) * a.size
  {
    var n := a.k * Span(a);
    DivMod(n + a.size - 1, a.size);
  }

  lemma RepeatsPositive(a: Axis)
    requires AxisOk(a)
    ensures Repeats(a) > 0
  {
    if a.Window? {
      RepeatsEnough(a);
      PositiveProduct(a.k, Span(a));
      MulPositive(Repeats(a), a.size);
    }
  }

  lemma ModMultiple(q: nat, r: nat, n: nat)
    requires r < n
    ensures (q * n + r) % n == r
  {
    DivBlock(q, r, n);
  }

  /** The element read is the one of the window. */
  lemma TiledReads(a: Axis, p: Pos)
    requires AxisOk(a) && PosOk(a, p)
    ensures Tiled(a, p) % a.size == if a.Batch? then p.e else p.y * a.s + p.e
  {
    if a.Window? {
      WindowInside(a, p);
      var f := Factor(a);
      assert p.e * (a.size * f + 1) == (p.e * f) * a.size + p.e;
      ModMultiple(p.e * f, p.y * a.s + p.e, a.size);
    } else {
      ModMultiple(0, p.e, a.size);
    }
  }

  lemma EarlierStart(y: nat, o: nat, s: nat)
    requires y < o && s > 0
    ensures y * s < o * s
  {
    MulLess(y + 1, o, s);
    assert (y + 1) * s == y * s + s;
  }

  lemma TiledWindow(a: Axis, p: Pos)
    requires AxisOk(a) && PosOk(a, p) && a.Window? && a.s <= 2 * a.size + 1
    ensures p.y * a.s < Count(a) * a.s <= Span(a) && Tiled(a, p) < a.k * Span(a)
  {
    StepsFit(a);
    EarlierStart(p.y, Count(a), a.s);
    BlockBound(p.e, a.k, p.y * a.s, Span(a));
  }

  lemma TiledInside(a: Axis, p: Pos)
    requires AxisOk(a) && PosOk(a, p) && (a.Window? ==> a.s <= 2 * a.size + 1)
    ensures a.Window? ==> p.y * a.s < Count(a) * a.s <= Span(a) && Tiled(a, p) < a.k * Span(a)
    ensures Tiled(a, p) < Repeats(a) * a.size
  {
    if a.Window? {
      TiledWindow(a, p);
      RepeatsEnough(a);
    }
  }

  // --------------------------------------------------- one axis, step by step

  lemma NumelOf(x: nat, y: nat, z: nat)
    ensures Numel([x]) == x && Numel([x, y]) == x * y && Numel([x, y, z]) == x * (y * z)
  {
    assert [x][1..] == [] && [x, y][1..] == [y] && [x, y, z][1..] == [y, z] && [y, z][1..] == [z];
    assert Numel([y]) == y * Numel([]) && Numel([z]) == z * Numel([]);
    assert Numel([x]) == x * Numel([]);
  }

  lemma FlatOne(n: nat, x: nat)
    ensures Flat([n], [x]) == x
  {
    assert [n][1..] == [] && [x][1..] == [];
    assert Flat([n], [x]) == x * Numel([]) + Flat([], []);
  }

  lemma FlatTwo(n: nat, m: nat, x: nat, y: nat)
    ensures Flat([n, m], [x, y]) == x * m + y
  {
    assert [n, m][1..] == [m] && [x, y][1..] == [y];
    NumelOf(m, 0, 0);
    FlatOne(m, y);
  }

  lemma FlatThree(n: nat, m: nat, l: nat, x: nat, y: nat, z: nat)
    ensures Flat([n, m, l], [x, y, z]) == x * (m * l) + (y * l + z)
  {
    assert [n, m, l][1..] == [m, l] && [x, y, z][1..] == [y, z];
    NumelOf(m, l, 0);
    FlatTwo(m, l, y, z);
  }

  /** The stage sizes agree across a reshape. */
  lemma StageSizes(n: nat, a: Axis)
    requires AxisOk(a) && n % 2 == 1 && n <= 9 && (a.Window? ==> a.s <= 2 * a.size + 1)
    ensures Numel(Stage(n - 1, a)) == Numel(Stage(n, a)) > 0
  {
    RepeatsPositive(a);
    if a.Window? {
      PositiveProduct(a.k, Span(a));
      PositiveProduct(Count(a), a.s);
      PositiveProduct(a.k, Count(a) * a.s);
      PositiveProduct(a.k, Count(a));
      NumelOf(a.k, Count(a), a.s);
      NumelOf(a.k, Count(a), 1);
      NumelOf(a.k, Count(a) * a.s, 0);
      NumelOf(a.k, Span(a), 0);
      NumelOf(a.k * Span(a), 0, 0);
    }
    PositiveProduct(Repeats(a), a.size);
    NumelOf(a.size, 0, 0);
    NumelOf(1, a.size, 0);
    NumelOf(Repeats(a), a.size, 0);
    NumelOf(Repeats(a) * a.size, 0, 0);
  }

  ghost predicate Fits(a: Axis) { AxisOk(a) && (a.Window? ==> a.s <= 2 * a.size + 1) }

  /** Every step reads inside the stage before it. */
  lemma AtInside(n: nat, a: Axis, p: Pos)
    requires Fits(a) && PosOk(a, p) && n <= 9
    ensures Coord(Stage(n, a), At(n, a, p))
  {
    TiledInside(a, p);
    if n == 2 { QuotientBound(Tiled(a, p), Repeats(a), a.size); }
  }

  lemma AtFlatUnsqueeze(i: nat, q: nat)
    ensures Flat([1, i], [0, q]) == Flat([i], [q])
  {
    FlatTwo(1, i, 0, q);
    FlatOne(i, q);
  }

  lemma AtFlatTile(r: nat, i: nat, t: nat, n: nat)
    requires i > 0 && n == r * i
    ensures Flat([n], [t]) == Flat([r, i], [t / i, t % i])
  {
    FlatOne(n, t);
    FlatTwo(r, i, t / i, t % i);
    DivMod(t, i);
  }

  lemma AtFlatRows(k: nat, span: nat, e: nat, x: nat, n: nat, t: nat)
    requires n == k * span && t == e * span + x
    ensures Flat([k, span], [e, x]) == Flat([n], [t])
  {
    FlatTwo(k, span, e, x);
    FlatOne(n, t);
  }

  lemma AtFlatSteps(k: nat, o: nat, s: nat, e: nat, y: nat, n: nat, x: nat)
    requires n == o * s && x == y * s
    ensures Flat([k, o, s], [e, y, 0]) == Flat([k, n], [e, x])
  {
    FlatThree(k, o, s, e, y, 0);
    FlatTwo(k, n, e, x);
  }

  lemma AtFlatSqueeze(k: nat, o: nat, e: nat, y: nat)
    ensures Flat([k, o], [e, y]) == Flat([k, o, 1], [e, y, 0])
  {
    FlatTwo(k, o, e, y);
    FlatThree(k, o, 1, e, y, 0);
  }

  lemma AtFlatWindow(n: nat, a: Axis, p: Pos)
    requires Fits(a) && PosOk(a, p) && a.Window? && n in {5, 7, 9}
    ensures |At(n, a, p)| == |Stage(n, a)| && |At(n - 1, a, p)| == |Stage(n - 1, a)|
    ensures Flat(Stage(n, a), At(n, a, p)) == Flat(Stage(n - 1, a), At(n - 1, a, p))
  {
    if n == 5 { AtFlatRows(a.k, Span(a), p.e, p.y * a.s, a.k * Span(a), Tiled(a, p)); }
    else if n == 7 { AtFlatSteps(a.k, Count(a), a.s, p.e, p.y, Count(a) * a.s, p.y * a.s); }
    else { AtFlatSqueeze(a.k, Count(a), p.e, p.y); }
  }

  /** Neighbouring stages place the element at the same flat position of the axis. */
  lemma AtFlat(n: nat, a: Axis, p: Pos)
    requires Fits(a) && PosOk(a, p) && n % 2 == 1 && n <= 9
    ensures |At(n, a, p)| == |Stage(n, a)| && |At(n - 1, a, p)| == |Stage(n - 1, a)|
    ensures Flat(Stage(n, a), At(n, a, p)) == Flat(Stage(n - 1, a), At(n - 1, a, p))
  {
    var t := Tiled(a, p);
    if n == 1 {
      AtFlatUnsqueeze(a.size, t % a.size);
    } else if n == 3 {
      AtFlatTile(Repeats(a), a.size, t, Repeats(a) * a.size);
    } else if a.Window? {
      AtFlatWindow(n, a, p);
    }
  }

  /** A reshape step reads, on this axis, what the stage before it holds there. */
  lemma AxisReads(n: nat, a: Axis, p: Pos)
    requires Fits(a) && PosOk(a, p) && n % 2 == 1 && n <= 9
    ensures Numel(Stage(n - 1, a)) > 0 && |At(n, a, p)| == |Stage(n, a)|
    ensures Unflat(Stage(n - 1, a), Flat(Stage(n, a), At(n, a, p))) == At(n - 1, a, p)
  {
    AtInside(n, a, p);
    AtInside(n - 1, a, p);
    AtFlat(n, a, p);
    UnflatFlat(Stage(n - 1, a), At(n - 1, a, p));
  }

  // ------------------------------------------------------------------ all axes

  ghost predicate AllFit(axes: seq<Axis>) { forall i {:trigger axes[i]} :: 0 <= i < |axes| ==> Fits(axes[i]) }

  ghost predicate AllOk(axes: seq<Axis>) { forall i {:trigger axes[i]} :: 0 <= i < |axes| ==> AxisOk(axes[i]) }

  ghost predicate AllPos(axes: seq<Axis>, ps: seq<Pos>)
    requires AllOk(axes)
  {
    |ps| == |axes| && forall i {:trigger axes[i]} {:trigger ps[i]} :: 0 <= i < |axes| ==> PosOk(axes[i], ps[i])
  }

  function Groups(n: nat, axes: seq<Axis>): (gs: seq<Shape>)
    requires forall i {:trigger axes[i]} :: 0 <= i < |axes| ==> AxisOk(axes[i])
    ensures |gs| == |axes| && forall i {:trigger gs[i]} {:trigger axes[i]} :: 0 <= i < |axes| ==>
      gs[i] == Stage(n, axes[i])
  {
    if axes == [] then [] else [Stage(n, axes[0])] + Groups(n, axes[1..])
  }

  function Coords(n: nat, axes: seq<Axis>, ps: seq<Pos>): (cs: seq<seq<nat>>)
    requires |ps| == |axes| && forall i {:trigger axes[i]} :: 0 <= i < |axes| ==> AxisOk(axes[i])
    ensures |cs| == |axes| && forall i {:trigger cs[i]} {:trigger axes[i]} :: 0 <= i < |axes| ==>
      cs[i] == At(n, axes[i], ps[i])
  {
    if axes == [] then [] else [At(n, axes[0], ps[0])] + Coords(n, axes[1..], ps[1..])
  }

  lemma CoordsInside(n: nat, axes: seq<Axis>, ps: seq<Pos>)
    requires AllFit(axes) && AllOk(axes) && AllPos(axes, ps) && n <= 9
    ensures Inside(Groups(n, axes), Coords(n, axes, ps))
    ensures Coord(Joined(Groups(n, axes)), Joined(Coords(n, axes, ps)))
  {
    forall i | 0 <= i < |axes| ensures Coord(Groups(n, axes)[i], Coords(n, axes, ps)[i]) {
      AtInside(n, axes[i], ps[i]);
    }
    JoinedCoord(Groups(n, axes), Coords(n, axes, ps));
  }

  function Zeros(n: nat): (z: seq<nat>)
    ensures |z| == n && forall i :: 0 <= i < n ==> z[i] == 0
  {
    seq(n, _ => 0)
  }

  function StageShape(n: nat, axes: seq<Axis>): Shape
    requires forall i {:trigger axes[i]} :: 0 <= i < |axes| ==> AxisOk(axes[i])
  {
    Joined(Groups(n, axes))
  }

  /** The n-th move of the chain: repeat is reshape, expand, reshape; then shrink and
      reshape alternate. */
  function Step(n: nat, axes: seq<Axis>): Move
    requires forall i {:trigger axes[i]} :: 0 <= i < |axes| ==> AxisOk(axes[i])
  {
    var s := StageShape(n, axes);
    if n % 2 == 1 then Reshape(s) else if n == 2 then Expand(s) else Shrink(Zeros(|s|), s)
  }

  lemma StepSizes(n: nat, axes: seq<Axis>)
    requires AllFit(axes) && AllOk(axes) && n % 2 == 1 && n <= 9
    ensures SameSizes(Groups(n - 1, axes), Groups(n, axes))
    ensures Ok(StageShape(n - 1, axes), Step(n, axes)) &&
      Moved(StageShape(n - 1, axes), Step(n, axes)) == StageShape(n, axes)
  {
    forall i | 0 <= i < |axes|
      ensures Numel(Groups(n - 1, axes)[i]) == Numel(Groups(n, axes)[i]) > 0
    {
      StageSizes(n, axes[i]);
    }
    JoinedNumel(Groups(n - 1, axes), Groups(n, axes));
  }

  lemma {:induction false} RegroupedIs(n: nat, axes: seq<Axis>, ps: seq<Pos>)
    requires AllFit(axes) && AllOk(axes) && AllPos(axes, ps) && n % 2 == 1 && n <= 9
    requires forall i {:trigger axes[i]} :: 0 <= i < |axes| ==>
      Numel(Stage(n - 1, axes[i])) > 0 && |At(n, axes[i], ps[i])| == |Stage(n, axes[i])|
    ensures Regrouped(Groups(n - 1, axes), Groups(n, axes), Coords(n, axes, ps)) == Coords(n - 1, axes, ps)
  {
    var ds := Regrouped(Groups(n - 1, axes), Groups(n, axes), Coords(n, axes, ps));
    forall i | 0 <= i < |axes| ensures ds[i] == Coords(n - 1, axes, ps)[i] { AxisReads(n, axes[i], ps[i]); }
  }

  /** Step n reads at its coordinates what the step before holds at its own. */
  ghost predicate StepReads(n: nat, axes: seq<Axis>, ps: seq<Pos>)
    requires 1 <= n && AllOk(axes) && AllPos(axes, ps)
  {
    Carries(StageShape(n - 1, axes), Step(n, axes), StageShape(n, axes), Joined(Coords(n, axes, ps)),
            Joined(Coords(n - 1, axes, ps)))
  }

  /** A reshape step reads the previous coordinates. */
  lemma ReshapeReads(n: nat, axes: seq<Axis>, ps: seq<Pos>)
    requires AllFit(axes) && AllOk(axes) && AllPos(axes, ps) && n % 2 == 1 && n <= 9
    ensures StepReads(n, axes, ps)
  {
    StepSizes(n, axes);
    CoordsInside(n, axes, ps);
    forall i | 0 <= i < |axes|
      ensures Numel(Stage(n - 1, axes[i])) > 0 && |At(n, axes[i], ps[i])| == |Stage(n, axes[i])|
    {
      AxisReads(n, axes[i], ps[i]);
    }
    RegroupedIs(n, axes, ps);
    ReshapeAxes(Groups(n - 1, axes), Groups(n, axes), Coords(n, axes, ps));
  }
}
