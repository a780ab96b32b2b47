/** Movement operations as index maps: which source coordinate a coordinate of
    the result reads, or none where padding is read. A program of moves is read
    from its end, and axes that are handled alike are taken one by one. */
module Moves {
  import opened Shapes

  datatype Move =
    | Reshape(to: Shape)
    | Expand(to: Shape)
    | Shrink(lo: seq<nat>, hi: seq<nat>)
    | Permute(perm: seq<nat>)
    | Pad(before: seq<nat>, after: seq<nat>)
    | Slide(k0: nat, k1: nat, s0: nat, s1: nat) // a view with windows on the last two axes

  datatype Source = Zero | Element(c: seq<nat>)

  ghost predicate IsPerm(perm: seq<nat>) {
    (forall i :: 0 <= i < |perm| ==> perm[i] < |perm|) &&
    (forall i, j :: 0 <= i < j < |perm| ==> perm[i] != perm[j])
  }

  /** The move can be applied to a tensor of shape s. */
  ghost predicate Ok(s: Shape, m: Move) {
    match m
    case Reshape(to) => Numel(to) == Numel(s) > 0
    case Expand(to) => |to| == |s| && forall i :: 0 <= i < |s| ==> s[i] == 1 || s[i] == to[i]
    case Shrink(lo, hi) => |lo| == |hi| == |s| && forall i :: 0 <= i < |s| ==> lo[i] <= hi[i] <= s[i]
    case Permute(perm) => |perm| == |s| && IsPerm(perm)
    case Pad(before, after) => |before| == |after| == |s|
    case Slide(k0, k1, s0, s1) =>
      |s| >= 2 && 1 <= k0 <= s[|s| - 2] && 1 <= k1 <= s[|s| - 1] && s0 > 0 && s1 > 0
  }

  ghost function Moved(s: Shape, m: Move): (r: Shape)
    requires Ok(s, m)
  {
    match m
    case Reshape(to) => to
    case Expand(to) => to
    case Shrink(lo, hi) => seq(|s|, i requires 0 <= i < |s| => hi[i] - lo[i])
    case Permute(perm) => seq(|s|, i requires 0 <= i < |s| => s[perm[i]])
    case Pad(before, after) => seq(|s|, i requires 0 <= i < |s| => before[i] + s[i] + after[i])
    case Slide(k0, k1, s0, s1) =>
      s[..|s| - 2] + [(s[|s| - 2] - k0) / s0 + 1, (s[|s| - 1] - k1) / s1 + 1, k0, k1]
  }

  /** c0 of the source is what c of the permuted tensor reads. */
  ghost predicate PermReads(perm: seq<nat>, c: seq<nat>, c0: seq<nat>) {
    |c| == |c0| == |perm| && forall i :: 0 <= i < |perm| ==> perm[i] < |perm| && c0[perm[i]] == c[i]
  }

  function IndexOf(perm: seq<nat>, j: nat): (i: nat)
    ensures i <= |perm| && (i < |perm| ==> perm[i] == j) && (j in perm ==> i < |perm|)
  {
    if perm == [] || perm[0] == j then 0 else 1 + IndexOf(perm[1..], j)
  }

  function Unpermuted(perm: seq<nat>, c: seq<nat>): (c0: seq<nat>)
    requires |c| == |perm|
    ensures |c0| == |perm|
  {
    seq(|perm|, j requires 0 <= j < |perm| => if IndexOf(perm, j) < |perm| then c[IndexOf(perm, j)] else 0)
  }

  lemma UnpermutedReads(perm: seq<nat>, c: seq<nat>)
    requires IsPerm(perm) && |c| == |perm|
    ensures PermReads(perm, c, Unpermuted(perm, c))
  {
    forall i | 0 <= i < |perm| ensures Unpermuted(perm, c)[perm[i]] == c[i] {
      var j := IndexOf(perm, perm[i]);
      assert perm[j] == perm[i];
    }
  }

  /** What coordinate c of the moved tensor reads in a tensor of shape s. */
  ghost function Reads(s: Shape, m: Move, c: seq<nat>): (r: Source)
    requires Ok(s, m) && |c| == |Moved(s, m)|
    ensures r.Element? ==> |r.c| == |s|
  {
    match m
    case Reshape(to) => Element(Unflat(s, Flat(to, c)))
    case Expand(_) => Element(Clamp(s, c))
    case Shrink(lo, _) => Element(seq(|s|, i requires 0 <= i < |s| => lo[i] + c[i]))
    case Permute(perm) => Element(Unpermuted(perm, c))
    case Pad(before, _) =>
      if forall i :: 0 <= i < |s| ==> before[i] <= c[i] < before[i] + s[i] then
        Element(seq(|s|, i requires 0 <= i < |s| && before[i] <= c[i] => c[i] - before[i]))
      else Zero
    case Slide(_, _, s0, s1) =>
      var n := |s| - 2;
      Element(c[..n] + [c[n] * s0 + c[n + 2], c[n + 1] * s1 + c[n + 3]])
  }

  /** Every move of a program can be applied in turn. */
  ghost predicate Runs(s: Shape, prog: seq<Move>)
    decreases |prog|
  {
    prog == [] || (Ok(s, prog[0]) && Runs(Moved(s, prog[0]), prog[1..]))
  }

  ghost function Result(s: Shape, prog: seq<Move>): Shape
    requires Runs(s, prog)
    decreases |prog|
  {
    if prog == [] then s else Result(Moved(s, prog[0]), prog[1..])
  }

  ghost function Origin(s: Shape, prog: seq<Move>, c: seq<nat>): (r: Source)
    requires Runs(s, prog) && |c| == |Result(s, prog)|
    ensures r.Element? ==> |r.c| == |s|
    decreases |prog|
  {
    if prog == [] then Element(c)
    else
      var r := Origin(Moved(s, prog[0]), prog[1..], c);
      if r.Zero? then Zero else Reads(s, prog[0], r.c)
  }

  /** One more move at the end of a program. */
  lemma {:induction false} AndThen(s: Shape, prog: seq<Move>, m: Move)
    requires Runs(s, prog) && Ok(Result(s, prog), m)
    ensures Runs(s, prog + [m]) && Result(s, prog + [m]) == Moved(Result(s, prog), m)
    ensures forall c :: |c| == |Moved(Result(s, prog), m)| ==>
      Origin(s, prog + [m], c) ==
        (var r := Reads(Result(s, prog), m, c); if r.Zero? then Zero else Origin(s, prog, r.c))
    decreases |prog|
  {
    if prog == [] {
      assert prog + [m] == [m] && [m][1..] == [];
    } else {
      assert (prog + [m])[1..] == prog[1..] + [m];
      AndThen(Moved(s, prog[0]), prog[1..], m);
    }
  }

  /** Coordinate c of the result reads c0 of the source. */
  ghost predicate Arrives(s: Shape, prog: seq<Move>, to: Shape, c: seq<nat>, c0: seq<nat>) {
    Runs(s, prog) && Result(s, prog) == to && |c| == |to| && Origin(s, prog, c) == Element(c0)
  }

  ghost predicate Carries(s: Shape, m: Move, to: Shape, c: seq<nat>, c0: seq<nat>) {
    Ok(s, m) && Moved(s, m) == to && |c| == |to| && Reads(s, m, c) == Element(c0)
  }

  lemma ArrivesNext(s: Shape, prog: seq<Move>, mid: Shape, m: Move, to: Shape, c: seq<nat>, c1: seq<nat>, c0: seq<nat>)
    requires Arrives(s, prog, mid, c1, c0) && Carries(mid, m, to, c, c1)
    ensures Arrives(s, prog + [m], to, c, c0)
  {
    AndThen(s, prog, m);
  }

  /** A program that can be run can be run up to its last move. */
  lemma {:induction false} RunsPrefix(s: Shape, prog: seq<Move>, m: Move)
    requires Runs(s, prog + [m])
    ensures Runs(s, prog)
    decreases |prog|
  {
    if prog != [] {
      assert (prog + [m])[1..] == prog[1..] + [m];
      RunsPrefix(Moved(s, prog[0]), prog[1..], m);
    }
  }

  /** When a program runs, each of its moves can be applied to the shape it meets. */
  lemma {:induction false} EachApplies(shapes: seq<Shape>, moves: seq<Move>, n: nat)
    requires |shapes| == |moves| + 1 && n < |moves| && Runs(shapes[0], moves)
    requires forall i {:trigger moves[i]} :: 0 <= i < |moves| && Ok(shapes[i], moves[i]) ==>
      Moved(shapes[i], moves[i]) == shapes[i + 1]
    ensures Ok(shapes[n], moves[n])
  {
    if n > 0 {
      var (ss, ms) := (shapes[1..], moves[1..]);
      assert Ok(shapes[0], moves[0]);
      forall i | 0 <= i < |ms| && Ok(ss[i], ms[i]) ensures Moved(ss[i], ms[i]) == ss[i + 1] {
        assert ms[i] == moves[i + 1] && ss[i] == shapes[i + 1];
      }
      EachApplies(ss, ms, n - 1);
    }
  }

  /** A program whose every move carries its coordinate to the next one reads, at the
      last coordinate, the first. */
  lemma {:induction false} ProgramReads(shapes: seq<Shape>, moves: seq<Move>, coords: seq<seq<nat>>, n: nat)
    requires |shapes| == |coords| == |moves| + 1 && n <= |moves| && |coords[0]| == |shapes[0]|
    requires forall i {:trigger moves[i]} :: 0 <= i < n ==>
      Carries(shapes[i], moves[i], shapes[i + 1], coords[i + 1], coords[i])
    ensures Arrives(shapes[0], moves[..n], shapes[n], coords[n], coords[0])
  {
    if n > 0 {
      ProgramReads(shapes, moves, coords, n - 1);
      assert Carries(shapes[n - 1], moves[n - 1], shapes[n], coords[n], coords[n - 1]);
      ArrivesNext(shapes[0], moves[..n - 1], shapes[n - 1], moves[n - 1], shapes[n], coords[n], coords[n - 1],
                  coords[0]);
      assert moves[..n] == moves[..n - 1] + [moves[n - 1]];
    }
  }

  /** Cutting off the ends of axes reads the same coordinates. */
  lemma ShrinkEnds(s: Shape, lo: seq<nat>, hi: Shape, c: seq<nat>)
    requires |lo| == |hi| == |s| == |c| && forall i :: 0 <= i < |s| ==> lo[i] == 0 && hi[i] <= s[i]
    ensures Carries(s, Shrink(lo, hi), hi, c, c)
  {
    assert seq(|s|, i requires 0 <= i < |s| => hi[i] - lo[i]) == hi;
    assert seq(|s|, i requires 0 <= i < |s| => lo[i] + c[i]) == c;
  }

  // ------------------------------------------------------------- axis by axis

  /** Shapes and coordinates given as one group of dimensions per axis. */
  function Joined(groups: seq<seq<nat>>): (s: seq<nat>) {
    if groups == [] then [] else groups[0] + Joined(groups[1..])
  }

  ghost predicate SameArity(gs: seq<Shape>, cs: seq<seq<nat>>) {
    |cs| == |gs| && forall a {:trigger cs[a]} {:trigger gs[a]} :: 0 <= a < |gs| ==> |cs[a]| == |gs[a]|
  }

  ghost predicate Inside(gs: seq<Shape>, cs: seq<seq<nat>>) {
    |cs| == |gs| && forall a {:trigger cs[a]} {:trigger gs[a]} :: 0 <= a < |gs| ==> Coord(gs[a], cs[a])
  }

  lemma {:induction false} JoinedArity(gs: seq<Shape>, cs: seq<seq<nat>>)
    requires SameArity(gs, cs)
    ensures |Joined(cs)| == |Joined(gs)|
  {
    if gs != [] { JoinedArity(gs[1..], cs[1..]); }
  }

  lemma {:induction false} JoinedCoord(gs: seq<Shape>, cs: seq<seq<nat>>)
    requires Inside(gs, cs)
    ensures Coord(Joined(gs), Joined(cs))
  {
    if gs != [] { JoinedCoord(gs[1..], cs[1..]); }
  }

  ghost predicate SameSizes(gs: seq<Shape>, hs: seq<Shape>) {
    |gs| == |hs| && forall a {:trigger gs[a]} {:trigger hs[a]} :: 0 <= a < |gs| ==> Numel(gs[a]) == Numel(hs[a]) > 0
  }

  lemma {:induction false} JoinedNumel(gs: seq<Shape>, hs: seq<Shape>)
    requires SameSizes(gs, hs)
    ensures Numel(Joined(gs)) == Numel(Joined(hs)) > 0
  {
    if gs != [] {
      JoinedNumel(gs[1..], hs[1..]);
      NumelConcat(gs[0], Joined(gs[1..]));
      NumelConcat(hs[0], Joined(hs[1..]));
      PositiveProduct(Numel(gs[0]), Numel(Joined(gs[1..])));
    }
  }

  lemma PositiveProduct(x: nat, y: nat)
    requires x > 0 && y > 0
    ensures x * y > 0
  {
  }

  /** The groups that a reshape reads, axis by axis. */
  function Regrouped(gs: seq<Shape>, hs: seq<Shape>, cs: seq<seq<nat>>): (ds: seq<seq<nat>>)
    requires |gs| == |hs| == |cs| && (forall a {:trigger gs[a]} :: 0 <= a < |gs| ==>
      Numel(gs[a]) > 0 && |cs[a]| == |hs[a]|)
    ensures |ds| == |gs| && forall a {:trigger ds[a]} :: 0 <= a < |gs| ==> ds[a] == Unflat(gs[a], Flat(hs[a], cs[a]))
  {
    if gs == [] then []
    else
      assert forall a :: 0 <= a < |gs| - 1 ==>
        gs[1..][a] == gs[a + 1] && cs[1..][a] == cs[a + 1] && hs[1..][a] == hs[a + 1];
      [Unflat(gs[0], Flat(hs[0], cs[0]))] + Regrouped(gs[1..], hs[1..], cs[1..])
  }

  lemma SplitQuotient(q: nat, r: nat, n: nat, m: nat)
    requires n > 0 && r < m
    ensures q * m + r == (q / n) * (n * m) + ((q % n) * m + r) && (q % n) * m + r < n * m
  {
    DivMod(q, n);
    var (x, y) := (q / n, q % n);
    assert (x * n + y) * m == (x * n) * m + y * m;
    MulAssociates(x, n, m);
    BlockBound(y, n, r, m);
  }

  lemma ConcatPositive(a: Shape, b: Shape)
    requires Numel(a) > 0 && Numel(b) > 0
    ensures Numel(a + b) > 0
  {
    NumelConcat(a, b);
    PositiveProduct(Numel(a), Numel(b));
  }

  lemma RestConcat(a: Shape, b: Shape)
    requires a != []
    ensures (a + b)[1..] == a[1..] + b
  {
  }

  /** Position q * m + r of a joined shape: its first coordinate, and a position in
      the rest. */
  lemma JoinedHead(a: Shape, b: Shape, q: nat, r: nat, m: nat, f: nat)
    requires a != [] && Numel(a) > 0 && Numel(b) == m > r && f == q * m + r
    ensures Numel(a + b) > 0 && Numel(a[1..]) > 0 && Numel(a[1..] + b) > 0
    ensures Unflat(a + b, f) == [q / Numel(a[1..])] + Unflat(a[1..] + b, (q % Numel(a[1..])) * m + r)
  {
    NumelParts(a);
    ConcatPositive(a, b);
    ConcatPositive(a[1..], b);
    RestConcat(a, b);
    var n := Numel(a[1..]);
    NumelConcat(a[1..], b);
    SplitQuotient(q, r, n, m);
    UnflatParts(a + b, q / n, (q % n) * m + r, n * m, f);
  }

  lemma {:induction false} UnflatConcat(a: Shape, b: Shape, q: nat, r: nat, m: nat, f: nat)
    requires Numel(a) > 0 && q < Numel(a) && Numel(b) == m > r && f == q * m + r
    ensures Numel(a + b) > 0 && Unflat(a + b, f) == Unflat(a, q) + Unflat(b, r)
  {
    if a == [] {
      assert a + b == b;
    } else {
      JoinedHead(a, b, q, r, m, f);
      NumelParts(a);
      DivMod(q, Numel(a[1..]));
      UnflatConcat(a[1..], b, q % Numel(a[1..]), r, m, (q % Numel(a[1..])) * m + r);
      ConcatAssociates([q / Numel(a[1..])], Unflat(a[1..], q % Numel(a[1..])), Unflat(b, r));
    }
  }

  lemma ConcatAssociates<T>(a: seq<T>, b: seq<T>, c: seq<T>)
    ensures (a + b) + c == a + (b + c)
  {
  }

  lemma ReshapeStep(g: Shape, gs: Shape, h: Shape, hs: Shape, x: seq<nat>, y: seq<nat>)
    requires Numel(g) == Numel(h) > 0 && Numel(gs) == Numel(hs) > 0 && Coord(h, x) && Coord(hs, y)
    ensures Numel(g + gs) > 0 && |x + y| == |h + hs|
    ensures Unflat(g + gs, Flat(h + hs, x + y)) == Unflat(g, Flat(h, x)) + Unflat(gs, Flat(hs, y))
  {
    var (q, r, m) := (Flat(h, x), Flat(hs, y), Numel(hs));
    FlatBound(h, x);
    FlatBound(hs, y);
    JoinedPosition(h, hs, x, y, m, q, r);
    UnflatConcat(g, gs, q, r, m, Flat(h + hs, x + y));
  }

  lemma JoinedPosition(h: Shape, hs: Shape, x: seq<nat>, y: seq<nat>, m: nat, q: nat, r: nat)
    requires |x| == |h| && |y| == |hs| && m == Numel(hs) && q == Flat(h, x) && r == Flat(hs, y)
    ensures Flat(h + hs, x + y) == q * m + r
  {
    FlatConcat(h, hs, x, y);
  }

  /** A reshape that keeps the size of every axis works axis by axis. */
  lemma {:induction false} ReshapeAxes(gs: seq<Shape>, hs: seq<Shape>, cs: seq<seq<nat>>)
    requires SameSizes(gs, hs) && Inside(hs, cs)
    ensures Numel(Joined(gs)) == Numel(Joined(hs)) > 0 && |Joined(cs)| == |Joined(hs)|
    ensures Unflat(Joined(gs), Flat(Joined(hs), Joined(cs))) == Joined(Regrouped(gs, hs, cs))
  {
    JoinedNumel(gs, hs);
    JoinedArity(hs, cs);
    if gs != [] {
      ReshapeAxes(gs[1..], hs[1..], cs[1..]);
      JoinedCoord(hs[1..], cs[1..]);
      ReshapeStep(gs[0], Joined(gs[1..]), hs[0], Joined(hs[1..]), cs[0], Joined(cs[1..]));
    }
  }

  ghost predicate NoLarger(gs: seq<Shape>, hs: seq<Shape>) {
    |hs| == |gs| && forall a {:trigger hs[a]} {:trigger gs[a]} :: 0 <= a < |gs| ==>
      |hs[a]| == |gs[a]| && forall i :: 0 <= i < |gs[a]| ==> hs[a][i] <= gs[a][i]
  }

  lemma {:induction false} JoinedNoLarger(gs: seq<Shape>, hs: seq<Shape>)
    requires NoLarger(gs, hs)
    ensures |Joined(hs)| == |Joined(gs)| && forall i :: 0 <= i < |Joined(gs)| ==> Joined(hs)[i] <= Joined(gs)[i]
  {
    if gs != [] { JoinedNoLarger(gs[1..], hs[1..]); }
  }

  ghost predicate Expands(gs: seq<Shape>, hs: seq<Shape>) {
    |hs| == |gs| && forall a {:trigger hs[a]} {:trigger gs[a]} :: 0 <= a < |gs| ==>
      |hs[a]| == |gs[a]| && forall i :: 0 <= i < |gs[a]| ==> gs[a][i] == 1 || gs[a][i] == hs[a][i]
  }

  lemma {:induction false} JoinedExpands(gs: seq<Shape>, hs: seq<Shape>)
    requires Expands(gs, hs)
    ensures |Joined(hs)| == |Joined(gs)|
    ensures forall i :: 0 <= i < |Joined(gs)| ==> Joined(gs)[i] == 1 || Joined(gs)[i] == Joined(hs)[i]
  {
    if gs != [] { JoinedExpands(gs[1..], hs[1..]); }
  }

  /** Broadcasting works axis by axis. */
  lemma {:induction false} JoinedClamp(gs: seq<Shape>, cs: seq<seq<nat>>, ds: seq<seq<nat>>)
    requires SameArity(gs, cs) && |ds| == |gs|
    requires forall a {:trigger ds[a]} {:trigger gs[a]} :: 0 <= a < |gs| ==>
      |cs[a]| == |gs[a]| && ds[a] == Clamp(gs[a], cs[a])
    ensures |Joined(cs)| == |Joined(gs)| && Clamp(Joined(gs), Joined(cs)) == Joined(ds)
  {
    JoinedArity(gs, cs);
    if gs != [] {
      JoinedClamp(gs[1..], cs[1..], ds[1..]);
      assert Clamp(gs[0] + Joined(gs[1..]), cs[0] + Joined(cs[1..])) ==
        Clamp(gs[0], cs[0]) + Clamp(Joined(gs[1..]), Joined(cs[1..]));
    }
  }
}
