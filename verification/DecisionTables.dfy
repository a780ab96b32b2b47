/** The grouped collapse as a decision table over label choices. */
module DecisionTables {
  import opened Streams

  /** One entry of a recorded path: the SUP's label and the branch taken. */
  datatype Choice = Choice(lab: Label, branch: bool)

  /** A leaf: the path that leads to it and the slot that holds its word. */
  datatype Leaf = Leaf(path: seq<Choice>, slot: nat)

  /** The SUPs that a collapse went through and the slots of its leaves. */
  datatype Tree = Tip(slot: nat) | Split(lab: Label, left: Tree, right: Tree)

  /** The leaves with their paths, in the order the grouped collapse stores them. */
  function Grouped(tree: Tree, path: seq<Choice>): seq<Leaf> {
    match tree
    case Tip(slot) => [Leaf(path, slot)]
    case Split(lab, l, r) =>
      Grouped(l, path + [Choice(lab, false)]) + Grouped(r, path + [Choice(lab, true)])
  }

  /** The leaves in the order the plain collapse stores them. */
  function Plain(tree: Tree): seq<nat> {
    match tree
    case Tip(slot) => [slot]
    case Split(_, l, r) => Plain(l) + Plain(r)
  }

  /** The environment agrees with every recorded choice. */
  ghost predicate Follows(env: Env, path: seq<Choice>)
    decreases |path|
  {
    path == [] || (Top(env, path[0].lab) == path[0].branch && Follows(Pop(env, path[0].lab), path[1..]))
  }

  /** The environment after the choices of a path have been read. */
  ghost function After(env: Env, path: seq<Choice>): Env
    decreases |path|
  {
    if path == [] then env else After(Pop(env, path[0].lab), path[1..])
  }

  // ----------------------------------------------- the leaf an environment picks

  ghost function PickSlot(tree: Tree, env: Env): nat {
    match tree
    case Tip(slot) => slot
    case Split(lab, l, r) => PickSlot(if Top(env, lab) then r else l, Pop(env, lab))
  }

  ghost function PickEnv(tree: Tree, env: Env): Env {
    match tree
    case Tip(_) => env
    case Split(lab, l, r) => PickEnv(if Top(env, lab) then r else l, Pop(env, lab))
  }

  ghost function PickIndex(tree: Tree, env: Env): nat {
    match tree
    case Tip(_) => 0
    case Split(lab, l, r) =>
      if Top(env, lab) then |Plain(l)| + PickIndex(r, Pop(env, lab)) else PickIndex(l, Pop(env, lab))
  }

  /** Row k below the starting path `path` is the one that env follows iff k is
      the picked index, and then it leads to the picked slot and environment. */
  ghost predicate RowOk(tree: Tree, path: seq<Choice>, env: Env, k: int) {
    var rows := Grouped(tree, path);
    0 <= k < |rows| &&
    |path| <= |rows[k].path| && rows[k].path[..|path|] == path &&
    (Follows(env, rows[k].path[|path|..]) <==> k == PickIndex(tree, env)) &&
    (k == PickIndex(tree, env) ==>
       rows[k].slot == PickSlot(tree, env) && After(env, rows[k].path[|path|..]) == PickEnv(tree, env))
  }

  /** Dropping the paths of the grouped collapse gives the plain collapse. */
  lemma {:induction false} GroupedIsPlain(tree: Tree, path: seq<Choice>)
    ensures |Plain(tree)| == |Grouped(tree, path)|
    ensures forall k :: 0 <= k < |Plain(tree)| ==> Plain(tree)[k] == Grouped(tree, path)[k].slot
  {
    match tree
    case Tip(_) =>
    case Split(lab, l, r) =>
      GroupedIsPlain(l, path + [Choice(lab, false)]);
      GroupedIsPlain(r, path + [Choice(lab, true)]);
  }

  lemma DropOne(q: seq<Choice>, path: seq<Choice>, c: Choice, env: Env)
    requires |path| < |q| && q[..|path| + 1] == path + [c]
    ensures q[..|path|] == path
    ensures Follows(env, q[|path|..]) <==>
      Top(env, c.lab) == c.branch && Follows(Pop(env, c.lab), q[|path| + 1..])
    ensures After(env, q[|path|..]) == After(Pop(env, c.lab), q[|path| + 1..])
  {
    assert q[..|path|] == q[..|path| + 1][..|path|];
    assert q[|path|] == q[..|path| + 1][|path|];
    assert q[|path|..][1..] == q[|path| + 1..];
  }

  lemma {:induction false} OnePath(tree: Tree, path: seq<Choice>, env: Env)
    ensures PickIndex(tree, env) < |Plain(tree)| == |Grouped(tree, path)|
    ensures forall k {:trigger RowOk(tree, path, env, k)} :: 0 <= k < |Plain(tree)| ==> RowOk(tree, path, env, k)
  {
    GroupedIsPlain(tree, path);
    match tree
    case Tip(_) =>
    case Split(lab, l, r) =>
      var inner := Pop(env, lab);
      var (c0, c1) := (Choice(lab, false), Choice(lab, true));
      OnePath(l, path + [c0], inner);
      OnePath(r, path + [c1], inner);
      forall k | 0 <= k < |Plain(tree)| ensures RowOk(tree, path, env, k) {
        var q := Grouped(tree, path)[k].path;
        if k < |Plain(l)| {
          assert RowOk(l, path + [c0], inner, k);
          assert Grouped(tree, path)[k] == Grouped(l, path + [c0])[k];
          DropOne(q, path, c0, env);
        } else {
          assert RowOk(r, path + [c1], inner, k - |Plain(l)|);
          assert Grouped(tree, path)[k] == Grouped(r, path + [c1])[k - |Plain(l)|];
          DropOne(q, path, c1, env);
        }
      }
  }

  /** Every environment follows exactly one recorded path of a grouped collapse. */
  lemma ExactlyOnePath(tree: Tree, env: Env)
    ensures var (rows, j) := (Grouped(tree, []), PickIndex(tree, env));
      j < |rows| && rows[j].slot == PickSlot(tree, env) && After(env, rows[j].path) == PickEnv(tree, env) &&
      forall k :: 0 <= k < |rows| ==> (Follows(env, rows[k].path) <==> k == j)
  {
    var (rows, j) := (Grouped(tree, []), PickIndex(tree, env));
    OnePath(tree, [], env);
    assert RowOk(tree, [], env, j) && rows[j].path[0..] == rows[j].path;
    forall k | 0 <= k < |rows| ensures Follows(env, rows[k].path) <==> k == j {
      assert RowOk(tree, [], env, k);
      assert rows[k].path[0..] == rows[k].path;
    }
  }

  // ---------------------------------------------------------------------- order

  /** Where two paths part, the first takes branch 0 and the second branch 1 of one SUP. */
  predicate Precedes(p: seq<Choice>, q: seq<Choice>) {
    p != [] && q != [] &&
    if p[0] == q[0] then Precedes(p[1..], q[1..]) else p[0].lab == q[0].lab && !p[0].branch && q[0].branch
  }

  lemma {:induction false} ParentPrecedes(path: seq<Choice>, lab: Label, p: seq<Choice>, q: seq<Choice>)
    requires path + [Choice(lab, false)] <= p && path + [Choice(lab, true)] <= q
    ensures Precedes(p, q)
  {
    if path != [] { ParentPrecedes(path[1..], lab, p[1..], q[1..]); }
  }

  lemma {:induction false} PathBelow(tree: Tree, path: seq<Choice>, row: Leaf)
    requires row in Grouped(tree, path)
    ensures path <= row.path
  {
    if tree.Split? {
      var (l, r) := (path + [Choice(tree.lab, false)], path + [Choice(tree.lab, true)]);
      if row in Grouped(tree.left, l) { PathBelow(tree.left, l, row); } else { PathBelow(tree.right, r, row); }
    }
  }

  predicate RowsInOrder(rows: seq<Leaf>) { forall i, j :: 0 <= i < j < |rows| ==> Precedes(rows[i].path, rows[j].path) }

  lemma RowsTogether(ls: seq<Leaf>, rs: seq<Leaf>)
    requires RowsInOrder(ls) && RowsInOrder(rs)
    requires forall p, q :: p in ls && q in rs ==> Precedes(p.path, q.path)
    ensures RowsInOrder(ls + rs)
  {
  }

  /** The grouped collapse lists its leaves from left to right. */
  lemma {:induction false} GroupedInOrder(tree: Tree, path: seq<Choice>)
    ensures RowsInOrder(Grouped(tree, path))
  {
    if tree.Split? {
      var (l, r) := (path + [Choice(tree.lab, false)], path + [Choice(tree.lab, true)]);
      GroupedInOrder(tree.left, l);
      GroupedInOrder(tree.right, r);
      forall p, q | p in Grouped(tree.left, l) && q in Grouped(tree.right, r) ensures Precedes(p.path, q.path) {
        PathBelow(tree.left, l, p);
        PathBelow(tree.right, r, q);
        ParentPrecedes(path, tree.lab, p.path, q.path);
      }
      RowsTogether(Grouped(tree.left, l), Grouped(tree.right, r));
    }
  }
}
