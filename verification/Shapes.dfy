/** Row-major shapes: sizes, flat positions, coordinates and broadcasting, and
    the arithmetic of flattening and unflattening a coordinate, which every
    reshape in this project rests on. */
module Shapes {
  type Shape = seq<nat>

  /** Number of elements. */
  function Numel(s: Shape): nat { if s == [] then 1 else s[0] * Numel(s[1..]) }

  /** c is a coordinate of s. */
  predicate Coord(s: Shape, c: seq<nat>) {
    |c| == |s| && forall i :: 0 <= i < |s| ==> c[i] < s[i]
  }

  /** Row-major position of coordinate c. */
  function Flat(s: Shape, c: seq<nat>): nat
    requires |c| == |s|
  {
    if s == [] then 0 else c[0] * Numel(s[1..]) + Flat(s[1..], c[1..])
  }

  /** The coordinate at a position. */
  function Unflat(s: Shape, f: nat): (c: seq<nat>)
    requires Numel(s) > 0
    ensures |c| == |s|
  {
    if s == [] then []
    else
      NumelParts(s);
      [f / Numel(s[1..])] + Unflat(s[1..], f % Numel(s[1..]))
  }

  lemma NumelParts(s: Shape)
    requires s != [] && Numel(s) > 0
    ensures s[0] > 0 && Numel(s[1..]) > 0
  {
    MulPositive(s[0], Numel(s[1..]));
  }

  lemma MulPositive(x: nat, y: nat)
    requires x * y > 0
    ensures x > 0 && y > 0
  {
  }

  /** Broadcasting: where a dimension of s is 1 the coordinate is ignored. */
  function Clamp(s: Shape, c: seq<nat>): (r: seq<nat>)
    requires |c| == |s|
    ensures |r| == |s|
  {
    seq(|s|, i requires 0 <= i < |s| => if s[i] == 1 then 0 else c[i])
  }

  lemma {:induction false} NumelConcat(a: Shape, b: Shape)
    ensures Numel(a + b) == Numel(a) * Numel(b)
  {
    if a == [] {
      assert a + b == b;
    } else {
      NumelConcat(a[1..], b);
      assert (a + b)[1..] == a[1..] + b;
      MulAssociates(a[0], Numel(a[1..]), Numel(b));
    }
  }

  lemma MulAssociates(x: nat, y: nat, z: nat)
    ensures (x * y) * z == x * (y * z)
  {
  }

  lemma MulSums(x: nat, y: nat, z: nat, w: nat)
    ensures x * (y * z) + (w * z) == (x * y + w) * z
  {
  }

  /** The position in a joined shape. */
  lemma {:induction false} FlatConcat(a: Shape, b: Shape, x: seq<nat>, y: seq<nat>)
    requires |x| == |a| && |y| == |b|
    ensures Flat(a + b, x + y) == Flat(a, x) * Numel(b) + Flat(b, y)
  {
    if a == [] {
      assert a + b == b && x + y == y;
    } else {
      FlatConcat(a[1..], b, x[1..], y);
      assert (a + b)[1..] == a[1..] + b && (x + y)[1..] == x[1..] + y;
      NumelConcat(a[1..], b);
      MulSums(x[0], Numel(a[1..]), Numel(b), Flat(a[1..], x[1..]));
    }
  }

  /** Positions stay below the size. */
  lemma {:induction false} FlatBound(s: Shape, c: seq<nat>)
    requires Coord(s, c)
    ensures Flat(s, c) < Numel(s)
  {
    if s != [] {
      FlatBound(s[1..], c[1..]);
      BlockBound(c[0], s[0], Flat(s[1..], c[1..]), Numel(s[1..]));
    }
  }

  lemma BlockBound(q: nat, d: nat, r: nat, n: nat)
    requires q < d && r < n
    ensures q * n + r < d * n
  {
    assert (q + 1) * n <= d * n by { MulLess(q + 1, d, n); }
    assert (q + 1) * n == q * n + n;
  }

  lemma MulLess(x: nat, y: nat, n: nat)
    requires x <= y
    ensures x * n <= y * n
  {
  }

  lemma OneQuotient(q: nat, r: nat, k: nat, s: nat, n: nat)
    requires r < n && s < n && q * n + r == k * n + s
    ensures q == k && r == s
  {
    assert (q + 1) * n == q * n + n && (k + 1) * n == k * n + n;
    if q < k {
      MulLess(q + 1, k, n);
    } else if k < q {
      MulLess(k + 1, q, n);
    }
  }

  lemma DivMod(x: nat, n: nat)
    requires n > 0
    ensures x == (x / n) * n + x % n && x % n < n
  {
  }

  lemma DivBlock(q: nat, r: nat, n: nat)
    requires r < n
    ensures (q * n + r) / n == q && (q * n + r) % n == r
  {
    var x := q * n + r;
    DivMod(x, n);
    OneQuotient(q, r, x / n, x % n, n);
  }

  /** The first coordinate at a position, and the position in the rest. */
  lemma UnflatParts(s: Shape, q: nat, r: nat, n: nat, f: nat)
    requires s != [] && Numel(s) > 0 && n == Numel(s[1..]) && r < n && f == q * n + r
    ensures Unflat(s, f) == [q] + Unflat(s[1..], r)
  {
    DivBlock(q, r, n);
  }

  /** Coordinates and positions are inverse to each other. */
  lemma {:induction false} UnflatFlat(s: Shape, c: seq<nat>)
    requires Coord(s, c)
    ensures Numel(s) > 0 && Unflat(s, Flat(s, c)) == c
  {
    FlatBound(s, c);
    if s != [] {
      FlatBound(s[1..], c[1..]);
      UnflatFlat(s[1..], c[1..]);
      DivBlock(c[0], Flat(s[1..], c[1..]), Numel(s[1..]));
      assert c == [c[0]] + c[1..];
    }
  }

  lemma QuotientBound(x: nat, r: nat, n: nat)
    requires n > 0 && x < r * n
    ensures x / n < r && x % n < n
  {
    DivMod(x, n);
    if x / n >= r { MulLess(r, x / n, n); }
  }

  lemma FirstCoordinate(s: Shape, f: nat, n: nat) returns (q: nat, r: nat)
    requires s != [] && n == Numel(s[1..]) && f < Numel(s)
    ensures n > 0 && q < s[0] && r < n && f == q * n + r
  {
    NumelParts(s);
    DivMod(f, n);
    QuotientBound(f, s[0], n);
    q, r := f / n, f % n;
  }

  /** A position and the position of its coordinate. */
  lemma {:induction false} FlatUnflat(s: Shape, f: nat)
    requires f < Numel(s)
    ensures Coord(s, Unflat(s, f)) && Flat(s, Unflat(s, f)) == f
  {
    if s != [] {
      var n := Numel(s[1..]);
      var q, r := FirstCoordinate(s, f, n);
      FlatUnflat(s[1..], r);
      UnflatParts(s, q, r, n, f);
      FrontFlat(s, q, Unflat(s[1..], r), n);
    }
  }

  lemma FrontFlat(s: Shape, q: nat, c: seq<nat>, n: nat)
    requires s != [] && q < s[0] && Coord(s[1..], c) && n == Numel(s[1..])
    ensures Coord(s, [q] + c) && Flat(s, [q] + c) == q * n + Flat(s[1..], c)
  {
    assert ([q] + c)[1..] == c;
  }
}
