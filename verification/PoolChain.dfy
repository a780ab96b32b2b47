/** The steps of the repeat chain of thvm_pool, and its exact domain. */
module PoolChain {
  import opened Shapes
  import opened Moves
  import opened Pooling

  // ---------------------------------------------------------- shrinks and the expand

  lemma ShrinkStage(n: nat, a: Axis)
    requires Fits(a) && n in {4, 6, 8}
    ensures |Stage(n, a)| == |Stage(n - 1, a)|
    ensures forall i :: 0 <= i < |Stage(n, a)| ==> Stage(n, a)[i] <= Stage(n - 1, a)[i]
  {
    if a.Window? {
      RepeatsEnough(a);
      StepsFit(a);
    }
  }

  lemma ShrinkDims(n: nat, axes: seq<Axis>)
    requires AllFit(axes) && AllOk(axes) && n in {4, 6, 8}
    ensures |StageShape(n, axes)| == |StageShape(n - 1, axes)|
    ensures forall i :: 0 <= i < |StageShape(n, axes)| ==> StageShape(n, axes)[i] <= StageShape(n - 1, axes)[i]
  {
    forall i | 0 <= i < |axes|
      ensures |Groups(n, axes)[i]| == |Groups(n - 1, axes)[i]|
      ensures forall j :: 0 <= j < |Groups(n, axes)[i]| ==> Groups(n, axes)[i][j] <= Groups(n - 1, axes)[i][j]
    {
      ShrinkStage(n, axes[i]);
    }
    JoinedNoLarger(Groups(n - 1, axes), Groups(n, axes));
  }

  lemma SameCoords(n: nat, axes: seq<Axis>, ps: seq<Pos>)
    requires AllOk(axes) && AllPos(axes, ps) && n in {4, 6, 8}
    ensures Coords(n, axes, ps) == Coords(n - 1, axes, ps)
  {
    forall i | 0 <= i < |axes| ensures Coords(n, axes, ps)[i] == Coords(n - 1, axes, ps)[i] {
      assert At(n, axes[i], ps[i]) == At(n - 1, axes[i], ps[i]);
    }
  }

  lemma ShrinkReads(n: nat, axes: seq<Axis>, ps: seq<Pos>)
    requires AllFit(axes) && AllOk(axes) && AllPos(axes, ps) && n in {4, 6, 8}
    ensures StepReads(n, axes, ps)
  {
    ShrinkDims(n, axes);
    CoordsInside(n, axes, ps);
    SameCoords(n, axes, ps);
    var s := StageShape(n, axes);
    ShrinkEnds(StageShape(n - 1, axes), Zeros(|s|), s, Joined(Coords(n, axes, ps)));
  }

  lemma ExpandStage(a: Axis, p: Pos)
    requires Fits(a) && PosOk(a, p)
    ensures |At(2, a, p)| == |Stage(1, a)| == |Stage(2, a)| && Clamp(Stage(1, a), At(2, a, p)) == At(1, a, p)
    ensures forall i :: 0 <= i < 2 ==> Stage(1, a)[i] == 1 || Stage(1, a)[i] == Stage(2, a)[i]
  {
    AtInside(2, a, p);
  }

  lemma ExpandAxis(a: Axis)
    requires AxisOk(a)
    ensures |Stage(2, a)| == |Stage(1, a)| == 2
    ensures forall i :: 0 <= i < 2 ==> Stage(1, a)[i] == 1 || Stage(1, a)[i] == Stage(2, a)[i]
  {
  }

  lemma ExpandDims(axes: seq<Axis>)
    requires AllOk(axes)
    ensures Ok(StageShape(1, axes), Step(2, axes))
  {
    var (gs, hs) := (Groups(1, axes), Groups(2, axes));
    forall i | 0 <= i < |axes|
      ensures |hs[i]| == |gs[i]| && forall j :: 0 <= j < |gs[i]| ==> gs[i][j] == 1 || gs[i][j] == hs[i][j]
    {
      ExpandAxis(axes[i]);
    }
    JoinedExpands(gs, hs);
  }

  lemma ExpandReads(axes: seq<Axis>, ps: seq<Pos>)
    requires AllFit(axes) && AllOk(axes) && AllPos(axes, ps)
    ensures StepReads(2, axes, ps)
  {
    ExpandDims(axes);
    CoordsInside(2, axes, ps);
    var (gs, cs, ds) := (Groups(1, axes), Coords(2, axes, ps), Coords(1, axes, ps));
    forall i | 0 <= i < |axes| ensures |cs[i]| == |gs[i]| && ds[i] == Clamp(gs[i], cs[i]) {
      ExpandStage(axes[i], ps[i]);
    }
    JoinedClamp(gs, cs, ds);
  }

  // ---------------------------------------------------------------- the chain

  ghost function Chain(n: nat, axes: seq<Axis>): (prog: seq<Move>)
    requires AllOk(axes)
    ensures |prog| == n
  {
    seq(n, i requires 0 <= i < n => Step(i + 1, axes))
  }

  lemma EveryStepReads(n: nat, axes: seq<Axis>, ps: seq<Pos>)
    requires AllFit(axes) && AllOk(axes) && AllPos(axes, ps) && 1 <= n <= 9
    ensures StepReads(n, axes, ps)
  {
    if n % 2 == 1 { ReshapeReads(n, axes, ps); }
    else if n == 2 { ExpandReads(axes, ps); }
    else { ShrinkReads(n, axes, ps); }
  }

  lemma StepCarries(i: nat, axes: seq<Axis>, ps: seq<Pos>, s: Shape, m: Move, t: Shape, c: seq<nat>, c0: seq<nat>)
    requires AllFit(axes) && AllOk(axes) && AllPos(axes, ps) && i < 9
    requires s == StageShape(i, axes) && m == Step(i + 1, axes) && t == StageShape(i + 1, axes)
    requires c == Joined(Coords(i + 1, axes, ps)) && c0 == Joined(Coords(i, axes, ps))
    ensures Carries(s, m, t, c, c0)
  {
    EveryStepReads(i + 1, axes, ps);
  }

  /** The shapes of the first n stages. */
  function StageShapes(n: nat, axes: seq<Axis>): (shapes: seq<Shape>)
    requires forall i {:trigger axes[i]} :: 0 <= i < |axes| ==> AxisOk(axes[i])
    ensures |shapes| == n + 1 && forall i {:trigger shapes[i]} :: 0 <= i <= n ==> shapes[i] == StageShape(i, axes)
  {
    seq(n + 1, i requires 0 <= i <= n => StageShape(i, axes))
  }

  /** What the first n stages read at the given places. */
  ghost function StageCoords(n: nat, axes: seq<Axis>, ps: seq<Pos>): (coords: seq<seq<nat>>)
    requires AllOk(axes) && AllPos(axes, ps)
    ensures |coords| == n + 1 && forall i {:trigger coords[i]} :: 0 <= i <= n ==>
      coords[i] == Joined(Coords(i, axes, ps))
  {
    seq(n + 1, i requires 0 <= i <= n => Joined(Coords(i, axes, ps)))
  }

  lemma ChainCarries(n: nat, axes: seq<Axis>, ps: seq<Pos>, shapes: seq<Shape>, coords: seq<seq<nat>>)
    requires AllFit(axes) && AllOk(axes) && AllPos(axes, ps) && n <= 9
    requires shapes == StageShapes(n, axes) && coords == StageCoords(n, axes, ps)
    ensures forall i {:trigger Chain(n, axes)[i]} :: 0 <= i < n ==>
      Carries(shapes[i], Chain(n, axes)[i], shapes[i + 1], coords[i + 1], coords[i])
  {
    forall i | 0 <= i < n ensures Carries(shapes[i], Chain(n, axes)[i], shapes[i + 1], coords[i + 1], coords[i]) {
      StepCarries(i, axes, ps, shapes[i], Chain(n, axes)[i], shapes[i + 1], coords[i + 1], coords[i]);
    }
  }

  /** After n steps the chain reads, at every place, the input element it should. */
  lemma ChainReads(n: nat, axes: seq<Axis>, ps: seq<Pos>)
    requires AllFit(axes) && AllOk(axes) && AllPos(axes, ps) && n <= 9
    ensures Arrives(StageShape(0, axes), Chain(n, axes), StageShape(n, axes), Joined(Coords(n, axes, ps)),
                    Joined(Coords(0, axes, ps)))
  {
    var (shapes, coords, moves) := (StageShapes(n, axes), StageCoords(n, axes, ps), Chain(n, axes));
    ChainCarries(n, axes, ps, shapes, coords);
    CoordsInside(0, axes, ps);
    ProgramReads(shapes, moves, coords, n);
    assert moves[..n] == moves;
  }

  /** The second shrink is in range exactly when no step is more than twice its axis
      plus one. */
  lemma ShrinkInRangeIff(axes: seq<Axis>)
    requires AllOk(axes)
    ensures Ok(StageShape(5, axes), Step(6, axes)) <==> AllFit(axes)
  {
    if AllFit(axes) {
      ShrinkDims(6, axes);
    } else if Ok(StageShape(5, axes), Step(6, axes)) {
      forall i | 0 <= i < |axes| ensures Fits(axes[i]) { AxisFits(axes, i); }
    }
  }

  lemma ShrunkShape(s: Shape, t: Shape)
    requires Ok(s, Shrink(Zeros(|t|), t))
    ensures Moved(s, Shrink(Zeros(|t|), t)) == t
  {
  }

  /** A move that can be applied gives the shape of its stage. */
  lemma StageFollows(n: nat, axes: seq<Axis>)
    requires AllOk(axes) && n > 0 && Ok(StageShape(n - 1, axes), Step(n, axes))
    ensures Moved(StageShape(n - 1, axes), Step(n, axes)) == StageShape(n, axes)
  {
    if Step(n, axes).Shrink? { ShrunkShape(StageShape(n - 1, axes), StageShape(n, axes)); }
  }

  lemma StagesFollow(i: nat, axes: seq<Axis>, s: Shape, m: Move, t: Shape)
    requires AllOk(axes) && s == StageShape(i, axes) && m == Step(i + 1, axes) && t == StageShape(i + 1, axes)
    requires Ok(s, m)
    ensures Moved(s, m) == t
  {
    StageFollows(i + 1, axes);
  }

  /** Every move of the chain that can be applied gives the shape of its stage, so the
      second shrink meets the shape it is meant for. */
  lemma ChainMustFit(axes: seq<Axis>)
    requires AllOk(axes) && Runs(StageShape(0, axes), Chain(9, axes))
    ensures Ok(StageShape(5, axes), Step(6, axes))
  {
    var (shapes, moves) := (StageShapes(9, axes), Chain(9, axes));
    forall i | 0 <= i < 9 && Ok(shapes[i], moves[i]) ensures Moved(shapes[i], moves[i]) == shapes[i + 1] {
      StagesFollow(i, axes, shapes[i], moves[i], shapes[i + 1]);
    }
    EachApplies(shapes, moves, 5);
  }

  /** A place to read: the first element of the first window. */
  lemma FirstPlaces(axes: seq<Axis>) returns (ps: seq<Pos>)
    requires AllOk(axes)
    ensures AllPos(axes, ps)
  {
    ps := seq(|axes|, _ => Pos(0, 0));
  }

  /** The whole chain can be applied exactly when no step is more than twice its axis
      plus one. */
  lemma ChainRunsIff(axes: seq<Axis>)
    requires AllOk(axes)
    ensures Runs(StageShape(0, axes), Chain(9, axes)) <==> AllFit(axes)
  {
    if AllFit(axes) {
      var ps := FirstPlaces(axes);
      ChainReads(9, axes, ps);
    }
    if Runs(StageShape(0, axes), Chain(9, axes)) {
      ChainMustFit(axes);
      ShrinkInRangeIff(axes);
    }
  }

  /** Where axis i starts in a joined shape. */
  function Start(groups: seq<seq<nat>>, i: nat): nat
    requires i <= |groups|
  {
    if i == 0 then 0 else |groups[0]| + Start(groups[1..], i - 1)
  }

  lemma {:induction false} JoinedAt(groups: seq<seq<nat>>, i: nat, j: nat)
    requires i < |groups| && j < |groups[i]|
    ensures Start(groups, i) + j < |Joined(groups)| && Joined(groups)[Start(groups, i) + j] == groups[i][j]
  {
    if i > 0 { JoinedAt(groups[1..], i - 1, j); }
  }

  lemma {:induction false} SameStarts(gs: seq<seq<nat>>, hs: seq<seq<nat>>, i: nat)
    requires |gs| == |hs| && i <= |gs| && forall a {:trigger gs[a]} :: 0 <= a < |gs| ==> |gs[a]| == |hs[a]|
    ensures Start(gs, i) == Start(hs, i)
  {
    if i > 0 { SameStarts(gs[1..], hs[1..], i - 1); }
  }

  lemma AxisFits(axes: seq<Axis>, i: nat)
    requires AllOk(axes) && i < |axes| && Ok(StageShape(5, axes), Step(6, axes))
    ensures Fits(axes[i])
  {
    var a := axes[i];
    if a.Window? {
      StepsFit(a);
      SameStarts(Groups(5, axes), Groups(6, axes), i);
      JoinedAt(Groups(5, axes), i, 1);
      JoinedAt(Groups(6, axes), i, 1);
    }
  }
}
