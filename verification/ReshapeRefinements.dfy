/** Exactly when a reshape can be moved onto a broadcast leaf. */
module ReshapeRefinements {
  import opened Shapes
  import opened ReshapeTargets

  function Flatten(groups: seq<Shape>): Shape {
    if groups == [] then [] else groups[0] + Flatten(groups[1..])
  }

  /** rs splits every dimension of op into a group; m dimensions of size one may follow. */
  ghost predicate Refines(op: Shape, rs: Shape, groups: seq<Shape>, m: nat) {
    |groups| == |op| && rs == Flatten(groups) + Ones(m) &&
    forall i {:trigger groups[i]} :: 0 <= i < |op| ==> Numel(groups[i]) == op[i]
  }

  ghost predicate Broadcasts(leaf: Shape, op: Shape) {
    |leaf| == |op| && forall i :: 0 <= i < |op| ==> leaf[i] == 1 || leaf[i] == op[i]
  }

  // ------------------------------------------------------------ found, if refined

  lemma {:induction false} UnitIsOnes(s: Shape)
    requires Numel(s) == 1
    ensures s == Ones(|s|)
  {
    if s != [] {
      UnitProduct(s[0], Numel(s[1..]));
      UnitIsOnes(s[1..]);
      assert s == [1] + s[1..];
    }
  }

  lemma {:induction false} TakenOnes(z: nat, s: Shape, d: nat)
    requires d > 1
    ensures Taken(Ones(z) + s, 1, d) == z + Taken(s, 1, d)
  {
    if z == 0 {
      assert Ones(0) + s == s;
    } else {
      assert (Ones(z) + s)[1..] == Ones(z - 1) + s;
      TakenOnes(z - 1, s, d);
    }
  }

  /** Consuming a group stops when its product is reached; what is left of the group
      is ones. */
  lemma {:induction false} TakenGroup(g: Shape, s: Shape, prod: nat, d: nat)
    requires prod * Numel(g) == d > 0
    ensures var j := Taken(g + s, prod, d); j <= |g| && prod * Numel(g[..j]) == d && Numel(g[j..]) == 1
  {
    MulPositive(prod, Numel(g));
    if prod >= d {
      if Numel(g) >= 2 { MulLess(2, Numel(g), prod); }
      assert g[..0] == [] && g[0..] == g;
    } else {
      assert g != [] && (g + s)[1..] == g[1..] + s;
      MulAssociates(prod, g[0], Numel(g[1..]));
      TakenGroup(g[1..], s, prod * g[0], d);
      var j := Taken(g[1..] + s, prod * g[0], d);
      assert g[..j + 1][1..] == g[1..][..j] && g[1..][j..] == g[j + 1..];
      MulAssociates(prod, g[0], Numel(g[1..][..j]));
    }
  }

  lemma OnesJoin(a: nat, b: nat)
    ensures Ones(a) + Ones(b) == Ones(a + b)
  {
  }

  /** One op dimension in front of its group: it consumes part of it, and ones are left. */
  lemma TakeGroup(z: nat, g: Shape, s: Shape, d: nat) returns (left: nat)
    requires Numel(g) == d > 0
    ensures var (rs, k) := (Ones(z) + (g + s), Taken(Ones(z) + (g + s), 1, d));
      k <= |rs| && Numel(rs[..k]) == d && rs[k..] == Ones(left) + s
  {
    var rs := Ones(z) + (g + s);
    if d == 1 {
      left := z + |g|;
      UnitIsOnes(g);
      OnesJoin(z, |g|);
      assert Taken(rs, 1, 1) == 0 && rs[..0] == [] && rs[0..] == rs;
      assert rs == (Ones(z) + g) + s;
    } else {
      TakenOnes(z, g + s, d);
      TakenGroup(g, s, 1, d);
      var j := Taken(g + s, 1, d);
      left := |g| - j;
      UnitIsOnes(g[j..]);
      assert rs[..z + j] == Ones(z) + g[..j];
      assert rs[z + j..] == g[j..] + s;
      NumelConcat(Ones(z), g[..j]);
      OnesFacts(z, Ones(z));
    }
  }

  lemma {:induction false} BroadcastOnes(leaf: Shape, op: Shape)
    requires Broadcasts(leaf, op) && Numel(op) == 1
    ensures Numel(leaf) == 1
  {
    if op != [] {
      UnitProduct(op[0], Numel(op[1..]));
      BroadcastOnes(leaf[1..], op[1..]);
    }
  }

  lemma {:induction false} FlattenNumel(groups: seq<Shape>, op: Shape)
    requires |groups| == |op| && forall i {:trigger groups[i]} :: 0 <= i < |op| ==> Numel(groups[i]) == op[i]
    ensures Numel(Flatten(groups)) == Numel(op)
  {
    if op != [] {
      FlattenNumel(groups[1..], op[1..]);
      NumelConcat(groups[0], Flatten(groups[1..]));
    }
  }

  /** z ones left over from earlier groups do not disturb the search. */
  lemma {:induction false} RefinedFound(op: Shape, z: nat, groups: seq<Shape>, m: nat, leaf: Shape)
    requires |groups| == |op| && forall i {:trigger groups[i]} :: 0 <= i < |op| ==> Numel(groups[i]) == op[i]
    requires Numel(op) > 0 && Broadcasts(leaf, op)
    ensures var f := Match(op, Ones(z) + (Flatten(groups) + Ones(m)), leaf); f.Target? && Numel(f.shape) == Numel(leaf)
  {
    var rs := Ones(z) + (Flatten(groups) + Ones(m));
    if op == [] {
      OnesFacts(|rs|, rs);
    } else if rs == [] {
      assert Flatten(groups) == [];
      FlattenNumel(groups, op);
      BroadcastOnes(leaf, op);
    } else {
      NumelParts(op);
      var s := Flatten(groups[1..]) + Ones(m);
      ConcatAssociates(groups[0], Flatten(groups[1..]), Ones(m));
      var left := TakeGroup(z, groups[0], s, op[0]);
      RefinedFound(op[1..], left, groups[1..], m, leaf[1..]);
      var k := Taken(rs, 1, op[0]);
      MatchStep(op, rs, leaf, k);
      JoinedNumel(op, rs, leaf, k);
    }
  }

  lemma JoinedNumel(op: Shape, rs: Shape, leaf: Shape, k: nat)
    requires op != [] && |leaf| == |op| && k <= |rs| && Numel(rs[..k]) == op[0] && (leaf[0] == 1 || leaf[0] == op[0])
    requires Match(op[1..], rs[k..], leaf[1..]).Target? &&
      Numel(Match(op[1..], rs[k..], leaf[1..]).shape) == Numel(leaf[1..])
    ensures Numel(Part(rs[..k], leaf[0]) + Match(op[1..], rs[k..], leaf[1..]).shape) == Numel(leaf)
  {
    NumelConcat(Part(rs[..k], leaf[0]), Match(op[1..], rs[k..], leaf[1..]).shape);
    OnesFacts(k, rs[..k]);
  }

  // ------------------------------------------------------------ refined, if found

  lemma {:induction false} EmptyGroups(op: Shape) returns (groups: seq<Shape>)
    requires Numel(op) == 1
    ensures Refines(op, [], groups, 0)
  {
    groups := [];
    if op != [] {
      UnitProduct(op[0], Numel(op[1..]));
      var rest := EmptyGroups(op[1..]);
      groups := [[]] + rest;
      assert groups[1..] == rest;
    }
  }

  lemma {:induction false} LeafOfUnits(op: Shape, leaf: Shape)
    requires |leaf| == |op| && Numel(op) == 1 && Numel(leaf) == 1
    ensures Broadcasts(leaf, op)
  {
    UnitIsOnes(op);
    UnitIsOnes(leaf);
  }

  lemma RefinesMore(op: Shape, rs: Shape, k: nat, gs: seq<Shape>, n: nat)
    requires op != [] && k <= |rs| && Numel(rs[..k]) == op[0] && Refines(op[1..], rs[k..], gs, n)
    ensures Refines(op, rs, [rs[..k]] + gs, n)
  {
    assert ([rs[..k]] + gs)[1..] == gs;
    assert rs == rs[..k] + rs[k..];
    ConcatAssociates(rs[..k], Flatten(gs), Ones(n));
  }

  lemma BroadcastsMore(op: Shape, leaf: Shape)
    requires op != [] && |leaf| == |op| && (leaf[0] == 1 || leaf[0] == op[0]) && Broadcasts(leaf[1..], op[1..])
    ensures Broadcasts(leaf, op)
  {
    forall i | 0 <= i < |op| ensures leaf[i] == 1 || leaf[i] == op[i] {
      if i > 0 { assert leaf[1..][i - 1] == leaf[i] && op[1..][i - 1] == op[i]; }
    }
  }

  lemma SplitSizes(op: Shape, rs: Shape, leaf: Shape, k: nat, rest: Shape)
    requires Splits(op, rs, leaf, k, rest) && Numel(rs) == Numel(op) > 0
    requires Numel(Part(rs[..k], leaf[0]) + rest) == Numel(leaf)
    ensures Numel(rs[k..]) == Numel(op[1..]) > 0 && Numel(rest) == Numel(leaf[1..])
  {
    OnesFacts(k, rs[..k]);
    RestSizes(op, rs, leaf, k, rest);
    NumelParts(op);
  }

  lemma {:induction false} FoundRefined(op: Shape, rs: Shape, leaf: Shape) returns (groups: seq<Shape>, m: nat)
    requires |leaf| == |op| && Numel(rs) == Numel(op) > 0
    requires Match(op, rs, leaf).Target? && Numel(Match(op, rs, leaf).shape) == Numel(leaf)
    ensures Refines(op, rs, groups, m) && Broadcasts(leaf, op)
  {
    if op == [] {
      groups, m := [], |rs|;
      UnitIsOnes(rs);
    } else if rs == [] {
      groups := EmptyGroups(op);
      m := 0;
      LeafOfUnits(op, leaf);
    } else {
      var k, rest := MatchSplits(op, rs, leaf);
      SplitSizes(op, rs, leaf, k, rest);
      groups, m := FoundRefined(op[1..], rs[k..], leaf[1..]);
      RefinesMore(op, rs, k, groups, m);
      BroadcastsMore(op, leaf);
      groups := [rs[..k]] + groups;
    }
  }

  /** For shapes of the same size, the fuser finds a target if and only if rs splits
      the dimensions of op and the leaf broadcasts to op. */
  lemma TargetIff(op: Shape, rs: Shape, leaf: Shape)
    requires |leaf| == |op| && Numel(rs) == Numel(op) > 0
    ensures TargetFor(op, rs, leaf).Target? <==>
      Broadcasts(leaf, op) && exists groups, m :: Refines(op, rs, groups, m)
  {
    if TargetFor(op, rs, leaf).Target? {
      var groups, m := FoundRefined(op, rs, leaf);
      assert Refines(op, rs, groups, m);
    }
    if Broadcasts(leaf, op) && exists groups, m :: Refines(op, rs, groups, m) {
      var groups, m :| Refines(op, rs, groups, m);
      RefinedFound(op, 0, groups, m, leaf);
      assert Ones(0) + rs == rs;
    }
  }

  // ------------------------------------------------------- leaves of full size

  lemma {:induction false} NoLargerLeaf(leaf: Shape, op: Shape)
    requires Broadcasts(leaf, op) && Numel(op) > 0
    ensures 0 < Numel(leaf) <= Numel(op) && (Numel(leaf) == Numel(op) ==> leaf == op)
  {
    if op != [] {
      NumelParts(op);
      NoLargerLeaf(leaf[1..], op[1..]);
      NoLargerProduct(leaf[0], op[0], Numel(leaf[1..]), Numel(op[1..]));
      assert leaf == [leaf[0]] + leaf[1..] && op == [op[0]] + op[1..];
    }
  }

  lemma NoLargerProduct(a: nat, b: nat, x: nat, y: nat)
    requires (a == 1 || a == b) && 0 < x <= y && b > 0
    ensures 0 < a * x <= b * y && (a * x == b * y ==> a == b && x == y)
  {
    MulLess(x, y, a);
    if a != b {
      MulLess(2, b, y);
    } else if x < y {
      MulLess(x + 1, y, a);
    }
  }

  /** The shape a leaf is given: all of rs when it has as many elements as the
      operation, and otherwise the target that is found, if any. */
  function LeafTarget(op: Shape, rs: Shape, leaf: Shape): Found {
    if Numel(leaf) == Numel(op) then Target(rs) else TargetFor(op, rs, leaf)
  }

  /** Every leaf that broadcasts to the operation and is given a shape is read through it
      as it is read by broadcasting. */
  lemma LeafCommutes(op: Shape, rs: Shape, leaf: Shape, c: seq<nat>)
    requires Broadcasts(leaf, op) && Coord(rs, c) && Numel(rs) == Numel(op) && LeafTarget(op, rs, leaf).Target?
    ensures Numel(op) > 0 && |LeafTarget(op, rs, leaf).shape| == |rs|
    ensures var target := LeafTarget(op, rs, leaf).shape;
      Numel(target) == Numel(leaf) &&
      Flat(target, Clamp(target, c)) == LeafAt(op, leaf, Unflat(op, Flat(rs, c)))
  {
    FlatBound(rs, c);
    if Numel(leaf) == Numel(op) {
      NoLargerLeaf(leaf, op);
      FlatUnflat(op, Flat(rs, c));
      ClampInside(rs, c);
      ClampInside(op, Unflat(op, Flat(rs, c)));
    } else {
      ReshapeCommutes(op, rs, leaf, c);
    }
  }

  /** A leaf that broadcasts to the operation is given a shape if and only if it has the
      operation's shape or rs splits the dimensions of the operation. */
  lemma LeafTargetIff(op: Shape, rs: Shape, leaf: Shape)
    requires Broadcasts(leaf, op) && Numel(rs) == Numel(op) > 0
    ensures LeafTarget(op, rs, leaf).Target? <==> leaf == op || exists groups, m :: Refines(op, rs, groups, m)
  {
    NoLargerLeaf(leaf, op);
    TargetIff(op, rs, leaf);
  }
}
