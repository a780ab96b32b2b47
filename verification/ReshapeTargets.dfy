/** Moving a reshape onto a broadcast leaf. */
module ReshapeTargets {
  import opened Shapes

  /** Dimensions of rs that the next op dimension consumes: as few as reach d. */
  function Taken(rs: Shape, prod: nat, d: nat): (k: nat)
    ensures k <= |rs|
  {
    if rs == [] || prod >= d then 0 else 1 + Taken(rs[1..], prod * rs[0], d)
  }

  /** What those dimensions become in the target: ones under a broadcast dimension. */
  function Part(a: Shape, leafDim: nat): (t: Shape)
    ensures |t| == |a|
  {
    if leafDim == 1 then Ones(|a|) else a
  }

  function Ones(n: nat): (t: Shape)
    ensures |t| == n && forall i :: 0 <= i < n ==> t[i] == 1
  {
    seq(n, _ => 1)
  }

  function LeafDim(leaf: Shape): nat { if leaf == [] then 1 else leaf[0] }

  function Tail(leaf: Shape): Shape { if leaf == [] then [] else leaf[1..] }

  datatype Found = Target(shape: Shape) | None

  /** The target, dimension by dimension of op, before the final size check. */
  function Match(op: Shape, rs: Shape, leaf: Shape): (f: Found)
    ensures f.Target? ==> |f.shape| == |rs|
  {
    if op == [] || rs == [] then Target(Ones(|rs|))
    else
      var k := Taken(rs, 1, op[0]);
      if Numel(rs[..k]) != op[0] || (LeafDim(leaf) != 1 && LeafDim(leaf) != op[0]) then None
      else
        var rest := Match(op[1..], rs[k..], Tail(leaf));
        if rest.None? then None else Target(Part(rs[..k], LeafDim(leaf)) + rest.shape)
  }

  function TargetFor(op: Shape, rs: Shape, leaf: Shape): Found {
    var f := Match(op, rs, leaf);
    if f.Target? && Numel(f.shape) == Numel(leaf) then f else None
  }

  // ---------------------------------------------------------------- the loops

  method Product(s: Shape) returns (n: nat)
    ensures n == Numel(s)
  {
    n := 1;
    for i := 0 to |s|
      invariant n == Numel(s[..i])
    {
      assert s[..i + 1] == s[..i] + [s[i]];
      NumelConcat(s[..i], [s[i]]);
      assert Numel([s[i]]) == s[i] * Numel([]);
      n := n * s[i];
    }
    assert s[..|s|] == s;
  }

  lemma NumelPush(s: Shape, d: nat)
    ensures Numel(s + [d]) == Numel(s) * d
  {
    NumelConcat(s, [d]);
    assert Numel([d]) == d * Numel([]);
  }

  /** Consume dimensions from `start` on until their product reaches d. */
  method TakeDims(rs: Shape, start: nat, d: nat) returns (ri: nat, prod: nat)
    requires start <= |rs|
    ensures start <= ri <= |rs| && ri == start + Taken(rs[start..], 1, d) && prod == Numel(rs[start..ri])
  {
    ri, prod := start, 1;
    assert rs[start..start] == [];
    while ri < |rs| && prod < d
      invariant start <= ri <= |rs| && prod == Numel(rs[start..ri])
      invariant start + Taken(rs[start..], 1, d) == ri + Taken(rs[ri..], prod, d)
      decreases |rs| - ri
    {
      assert rs[start..ri + 1] == rs[start..ri] + [rs[ri]];
      NumelPush(rs[start..ri], rs[ri]);
      assert rs[ri..][1..] == rs[ri + 1..];
      prod := prod * rs[ri];
      ri := ri + 1;
    }
  }

  method FillDims(out: Shape, from: nat, to: nat, dims: Shape) returns (filled: Shape)
    requires from <= to <= |out| && |dims| == to - from
    ensures filled == out[..from] + dims + out[to..]
  {
    filled := out;
    for j := from to to
      invariant |filled| == |out|
      invariant forall i :: 0 <= i < |out| ==> filled[i] == if from <= i < j then dims[i - from] else out[i]
    {
      filled := filled[j := dims[j - from]];
    }
  }

  function From(leaf: Shape, i: nat): Shape { if i <= |leaf| then leaf[i..] else [] }

  /** The match of what is left after i op dimensions and r dimensions of rs, joined
      to what is done. */
  function MatchFrom(op: Shape, rs: Shape, leaf: Shape, i: nat, r: nat, done: Shape): Found
    requires i <= |op| && r <= |rs|
  {
    var rest := Match(op[i..], rs[r..], From(leaf, i));
    if rest.None? then None else Target(done + rest.shape)
  }

  lemma DropTake<T>(s: seq<T>, i: nat, k: nat)
    requires i + k <= |s|
    ensures s[i..][k..] == s[i + k..] && s[i..][..k] == s[i..i + k]
  {
  }

  lemma FromNext(leaf: Shape, i: nat)
    ensures Tail(From(leaf, i)) == From(leaf, i + 1)
    ensures LeafDim(From(leaf, i)) == if i < |leaf| then leaf[i] else 1
  {
    if i < |leaf| { DropTake(leaf, i, 1); }
  }

  lemma MatchStep(op: Shape, rs: Shape, leaf: Shape, k: nat)
    requires op != [] && rs != [] && k == Taken(rs, 1, op[0])
    ensures Match(op, rs, leaf) ==
      if Numel(rs[..k]) != op[0] || (LeafDim(leaf) != 1 && LeafDim(leaf) != op[0]) then None
      else
        var rest := Match(op[1..], rs[k..], Tail(leaf));
        if rest.None? then None else Target(Part(rs[..k], LeafDim(leaf)) + rest.shape)
  {
  }

  lemma ConcatAssociates<T>(a: seq<T>, b: seq<T>, c: seq<T>)
    ensures (a + b) + c == a + (b + c)
  {
  }

  lemma MatchNext(op: Shape, rs: Shape, leaf: Shape, i: nat, r: nat, done: Shape, k: nat, leafDim: nat)
    requires i < |op| && r < |rs| && k == Taken(rs[r..], 1, op[i])
    requires leafDim == if i < |leaf| then leaf[i] else 1
    ensures r + k <= |rs|
    ensures MatchFrom(op, rs, leaf, i, r, done) ==
      if Numel(rs[r..r + k]) != op[i] || (leafDim != 1 && leafDim != op[i]) then None
      else MatchFrom(op, rs, leaf, i + 1, r + k, done + Part(rs[r..r + k], leafDim))
  {
    DropTake(op, i, 1);
    DropTake(rs, r, k);
    FromNext(leaf, i);
    MatchStep(op[i..], rs[r..], From(leaf, i), k);
    var rest := Match(op[i + 1..], rs[r + k..], From(leaf, i + 1));
    if rest.Target? { ConcatAssociates(done, Part(rs[r..r + k], leafDim), rest.shape); }
  }

  method FillGroup(out: Shape, rs: Shape, from: nat, to: nat, leafDim: nat) returns (filled: Shape)
    requires from <= to <= |rs| == |out|
    ensures |filled| == |out| && filled[..to] == out[..from] + Part(rs[from..to], leafDim)
  {
    if leafDim == 1 {
      filled := FillDims(out, from, to, Ones(to - from));
    } else {
      filled := FillDims(out, from, to, rs[from..to]);
    }
  }

  method FillOnes(out: Shape, from: nat) returns (filled: Shape)
    requires from <= |out|
    ensures filled == out[..from] + Ones(|out| - from)
  {
    filled := FillDims(out, from, |out|, Ones(|out| - from));
  }

  lemma MatchDone(op: Shape, rs: Shape, leaf: Shape, i: nat, r: nat, done: Shape)
    requires i <= |op| && r <= |rs| && (i == |op| || r == |rs|)
    ensures MatchFrom(op, rs, leaf, i, r, done) == Target(done + Ones(|rs| - r))
  {
  }

  lemma MatchStart(op: Shape, rs: Shape, leaf: Shape)
    ensures MatchFrom(op, rs, leaf, 0, 0, []) == Match(op, rs, leaf)
  {
    assert op[0..] == op && rs[0..] == rs && leaf[0..] == leaf;
    var rest := Match(op, rs, leaf);
    if rest.Target? { assert [] + rest.shape == rest.shape; }
  }

  /** One op dimension: the dimensions it consumes and what they become. */
  method MatchDim(op: Shape, rs: Shape, leaf: Shape, oi: nat, start: nat, out: Shape)
      returns (ok: bool, ri: nat, out': Shape)
    requires oi < |op| && start < |rs| == |out|
    ensures !ok ==> MatchFrom(op, rs, leaf, oi, start, out[..start]) == None
    ensures ok ==> ri <= |rs| == |out'|
    ensures ok ==> MatchFrom(op, rs, leaf, oi, start, out[..start]) == MatchFrom(op, rs, leaf, oi + 1, ri, out'[..ri])
  {
    var leafDim := if oi < |leaf| then leaf[oi] else 1;
    var prod;
    ri, prod := TakeDims(rs, start, op[oi]);
    MatchNext(op, rs, leaf, oi, start, out[..start], ri - start, leafDim);
    if prod != op[oi] || (leafDim != 1 && leafDim != op[oi]) {
      return false, ri, out;
    }
    out' := FillGroup(out, rs, start, ri, leafDim);
    ok := true;
  }

  /** All op dimensions; ri dimensions of rs are consumed and their part of the target
      is in out. */
  method MatchAll(op: Shape, rs: Shape, leaf: Shape, ghost goal: Found) returns (ok: bool, ri: nat, out: Shape)
    requires goal == MatchFrom(op, rs, leaf, 0, 0, [])
    ensures if ok then ri <= |rs| == |out| && goal == Target(out[..ri] + Ones(|rs| - ri)) else goal == None
  {
    out, ri := seq(|rs|, _ => 0), 0;
    var oi: nat := 0;
    assert out[..0] == [];
    while oi < |op| && ri < |rs|
      invariant oi <= |op| && ri <= |rs| == |out| && MatchFrom(op, rs, leaf, oi, ri, out[..ri]) == goal
    {
      ok, ri, out := MatchDim(op, rs, leaf, oi, ri, out);
      if !ok {
        return;
      }
      oi := oi + 1;
    }
    MatchDone(op, rs, leaf, oi, ri, out[..ri]);
    ok := true;
  }

  /** All op dimensions, and ones for the dimensions that are left. */
  method MatchDims(op: Shape, rs: Shape, leaf: Shape) returns (ok: bool, out: Shape)
    ensures ok <==> Match(op, rs, leaf).Target?
    ensures ok ==> out == Match(op, rs, leaf).shape
  {
    MatchStart(op, rs, leaf);
    var ri;
    ok, ri, out := MatchAll(op, rs, leaf, MatchFrom(op, rs, leaf, 0, 0, []));
    if ok {
      out := FillOnes(out, ri);
    }
  }

  /** The target shape for a leaf, with the loops of the fuser. */
  method ReshapeTarget(op: Shape, rs: Shape, leaf: Shape) returns (ok: bool, out: Shape)
    ensures ok <==> TargetFor(op, rs, leaf).Target?
    ensures ok ==> out == TargetFor(op, rs, leaf).shape
  {
    ok, out := MatchDims(op, rs, leaf);
    if !ok {
      return;
    }
    var outNumel := Product(out);
    var leafNumel := Product(leaf);
    ok := outNumel == leafNumel;
  }

  // ------------------------------------------- reshape commutes with broadcast

  /** The element of a leaf that op coordinate c reads: dimensions of size 1 are
      broadcast. */
  function LeafAt(op: Shape, leaf: Shape, c: seq<nat>): nat
    requires |leaf| == |op| == |c|
  {
    Flat(leaf, Clamp(leaf, c))
  }

  lemma {:induction false} OnesFacts(n: nat, c: seq<nat>)
    requires |c| == n
    ensures Numel(Ones(n)) == 1 && Flat(Ones(n), Clamp(Ones(n), c)) == 0
  {
    if n > 0 {
      assert Ones(n)[1..] == Ones(n - 1);
      assert Clamp(Ones(n), c)[1..] == Clamp(Ones(n - 1), c[1..]);
      OnesFacts(n - 1, c[1..]);
    }
  }

  /** Clamping changes nothing for a coordinate inside the shape. */
  lemma ClampInside(s: Shape, c: seq<nat>)
    requires Coord(s, c)
    ensures Clamp(s, c) == c
  {
  }

  /** The part of the target for one group reads the leaf's coordinate of that group. */
  lemma PartAt(a: Shape, d: nat, leafDim: nat, x: seq<nat>)
    requires Coord(a, x) && Numel(a) == d && (leafDim == 1 || leafDim == d)
    ensures Numel(Part(a, leafDim)) == leafDim
    ensures Flat(Part(a, leafDim), Clamp(Part(a, leafDim), x)) == if leafDim == 1 then 0 else Flat(a, x)
  {
    if leafDim == 1 { OnesFacts(|a|, x); } else { ClampInside(a, x); }
  }

  lemma {:induction false} ZeroAt(leaf: Shape, op: Shape)
    requires |leaf| == |op| && Numel(op) == 1
    ensures Flat(leaf, Clamp(leaf, Unflat(op, 0))) == 0
  {
    if op != [] {
      NumelParts(op);
      UnitProduct(op[0], Numel(op[1..]));
      ZeroAt(leaf[1..], op[1..]);
      assert Clamp(leaf, Unflat(op, 0))[1..] == Clamp(leaf[1..], Unflat(op[1..], 0));
    }
  }

  lemma UnitProduct(x: nat, y: nat)
    requires x * y == 1
    ensures x == 1 && y == 1
  {
    MulPositive(x, y);
    if x >= 2 { MulLess(2, x, y); }
  }

  lemma CancelFactor(d: nat, x: nat, y: nat)
    requires d > 0 && d * x == d * y
    ensures x == y
  {
    if x < y { MulLess(x + 1, y, d); } else if y < x { MulLess(y + 1, x, d); }
  }

  /** The first group and the rest of a match. */
  ghost predicate Splits(op: Shape, rs: Shape, leaf: Shape, k: nat, rest: Shape)
  {
    op != [] && |leaf| == |op| && k <= |rs| && |rest| == |rs| - k && Numel(rs[..k]) == op[0] > 0 &&
    (leaf[0] == 1 || leaf[0] == op[0]) && Match(op[1..], rs[k..], leaf[1..]) == Target(rest) &&
    Match(op, rs, leaf) == Target(Part(rs[..k], leaf[0]) + rest)
  }

  lemma MatchSplits(op: Shape, rs: Shape, leaf: Shape) returns (k: nat, rest: Shape)
    requires op != [] && rs != [] && |leaf| == |op| && Match(op, rs, leaf).Target? && Numel(op) > 0
    ensures Splits(op, rs, leaf, k, rest)
  {
    NumelParts(op);
    k := Taken(rs, 1, op[0]);
    rest := Match(op[1..], rs[k..], leaf[1..]).shape;
  }

  /** Sizes match in the rest as they do in the whole. */
  lemma RestSizes(op: Shape, rs: Shape, leaf: Shape, k: nat, rest: Shape)
    requires Splits(op, rs, leaf, k, rest) && Numel(rs) == Numel(op)
    requires Numel(Part(rs[..k], leaf[0]) + rest) == Numel(leaf)
    requires Numel(Part(rs[..k], leaf[0])) == leaf[0]
    ensures Numel(rs[k..]) == Numel(op[1..]) && Numel(rest) == Numel(leaf[1..])
  {
    assert rs == rs[..k] + rs[k..];
    NumelConcat(rs[..k], rs[k..]);
    CancelFactor(op[0], Numel(rs[k..]), Numel(op[1..]));
    NumelConcat(Part(rs[..k], leaf[0]), rest);
    CancelFactor(leaf[0], Numel(rest), Numel(leaf[1..]));
  }

  /** Reading the target at c: the group's part and the rest. */
  lemma TargetAt(a: Shape, rest: Shape, x: seq<nat>, y: seq<nat>)
    requires |x| == |a| && |y| == |rest|
    ensures Flat(a + rest, Clamp(a + rest, x + y)) == Flat(a, Clamp(a, x)) * Numel(rest) + Flat(rest, Clamp(rest, y))
  {
    assert Clamp(a + rest, x + y) == Clamp(a, x) + Clamp(rest, y);
    FlatConcat(a, rest, Clamp(a, x), Clamp(rest, y));
  }

  /** Reading the leaf at an op coordinate: its first coordinate and the rest. */
  lemma LeafAtParts(op: Shape, leaf: Shape, q: nat, u: seq<nat>)
    requires op != [] && |leaf| == |op| && |u| == |op| - 1
    ensures LeafAt(op, leaf, [q] + u) == (if leaf[0] == 1 then 0 else q) * Numel(leaf[1..]) +
      LeafAt(op[1..], leaf[1..], u)
  {
    assert Clamp(leaf, [q] + u)[1..] == Clamp(leaf[1..], u);
  }

  lemma SplitCoord(s: Shape, c: seq<nat>, k: nat)
    requires Coord(s, c) && k <= |s|
    ensures s == s[..k] + s[k..] && c == c[..k] + c[k..] && Coord(s[..k], c[..k]) && Coord(s[k..], c[k..])
  {
  }

  /** The flat position in rs, as an op coordinate. */
  lemma GroupAt(op: Shape, rs: Shape, leaf: Shape, c: seq<nat>, k: nat)
    requires op != [] && |leaf| == |op| && Coord(rs, c) && k <= |rs| && Numel(op) > 0 &&
      Numel(rs[k..]) == Numel(op[1..])
    ensures Numel(op[1..]) > 0
    ensures LeafAt(op, leaf, Unflat(op, Flat(rs, c))) ==
      (if leaf[0] == 1 then 0 else Flat(rs[..k], c[..k])) * Numel(leaf[1..]) +
      LeafAt(op[1..], leaf[1..], Unflat(op[1..], Flat(rs[k..], c[k..])))
  {
    SplitCoord(rs, c, k);
    FlatConcat(rs[..k], rs[k..], c[..k], c[k..]);
    FlatBound(rs[k..], c[k..]);
    var (q, r) := (Flat(rs[..k], c[..k]), Flat(rs[k..], c[k..]));
    UnflatParts(op, q, r, Numel(rs[k..]), Flat(rs, c));
    LeafAtParts(op, leaf, q, Unflat(op[1..], r));
  }

  /** The flat position in the target. */
  lemma PartsAt(op: Shape, rs: Shape, leaf: Shape, c: seq<nat>, k: nat, rest: Shape)
    requires Splits(op, rs, leaf, k, rest) && Coord(rs, c)
    ensures Numel(Part(rs[..k], leaf[0])) == leaf[0]
    ensures var target := Part(rs[..k], leaf[0]) + rest;
      Flat(target, Clamp(target, c)) ==
        (if leaf[0] == 1 then 0 else Flat(rs[..k], c[..k])) * Numel(rest) + Flat(rest, Clamp(rest, c[k..]))
  {
    SplitCoord(rs, c, k);
    PartAt(rs[..k], op[0], leaf[0], c[..k]);
    TargetAt(Part(rs[..k], leaf[0]), rest, c[..k], c[k..]);
  }

  /** The element that reshaped coordinate c reads through the target is the one
      that the op coordinate at the same position reads by broadcasting. */
  lemma {:induction false} MatchCommutes(op: Shape, rs: Shape, leaf: Shape, c: seq<nat>)
    requires |leaf| == |op| && Coord(rs, c) && Numel(rs) == Numel(op) > 0
    requires Match(op, rs, leaf).Target? && Numel(Match(op, rs, leaf).shape) == Numel(leaf)
    ensures var target := Match(op, rs, leaf).shape;
      Flat(target, Clamp(target, c)) == LeafAt(op, leaf, Unflat(op, Flat(rs, c)))
  {
    if op == [] || rs == [] {
      OnesFacts(|rs|, c);
      if op != [] { ZeroAt(leaf, op); }
    } else {
      var k, rest := MatchSplits(op, rs, leaf);
      PartsAt(op, rs, leaf, c, k, rest);
      RestSizes(op, rs, leaf, k, rest);
      GroupAt(op, rs, leaf, c, k);
      SplitCoord(rs, c, k);
      MatchCommutes(op[1..], rs[k..], leaf[1..], c[k..]);
    }
  }

  /** If the fuser finds a target, reshape commutes with broadcasting. */
  lemma ReshapeCommutes(op: Shape, rs: Shape, leaf: Shape, c: seq<nat>)
    requires |leaf| == |op| && Coord(rs, c) && Numel(rs) == Numel(op)
    requires TargetFor(op, rs, leaf).Target?
    ensures Numel(op) > 0 && |TargetFor(op, rs, leaf).shape| == |rs|
    ensures var target := TargetFor(op, rs, leaf).shape;
      Numel(target) == Numel(leaf) && Flat(target, Clamp(target, c)) == LeafAt(op, leaf, Unflat(op, Flat(rs, c)))
  {
    FlatBound(rs, c);
    MatchCommutes(op, rs, leaf, c);
  }
}
