/** What a collapse sees of a term: words that reduce to superpositions,
    erasures or values, as a finite tree of head forms. Reduction is the step from
    a word to its head form, which is all that a collapse asks of the reducer. */
module BranchTrees {

  /** `Lazy(t)` is a word whose reduction goes on as t; INC is a wrapper that the
      reducer strips like any other redex. */
  datatype Branch =
    | Value(id: nat)
    | Erased
    | Sup(left: Branch, right: Branch)
    | Usp(left: Branch, right: Branch)
    | Inc(inner: Branch)
    | Lazy(inner: Branch)

  /** The head form that the reducer brings a word to. */
  function Head(t: Branch): (h: Branch)
    ensures !h.Inc? && !h.Lazy?
    ensures Size(h) <= Size(t)
  {
    if t.Inc? || t.Lazy? then Head(t.inner) else t
  }

  function Size(t: Branch): (n: nat)
    ensures n > 0
  {
    match t
    case Sup(l, r) => 1 + Size(l) + Size(r)
    case Usp(l, r) => 1 + Size(l) + Size(r)
    case Inc(x) => 1 + Size(x)
    case Lazy(x) => 1 + Size(x)
    case _ => 1
  }

  /** The plain collapse: head forms of the leaves, left to right, erasures included. */
  function Leaves(t: Branch): (ls: seq<Branch>)
    ensures |ls| > 0 && forall x :: x in ls ==> x.Value? || x.Erased?
    decreases Size(t)
  {
    var h := Head(t);
    if h.Sup? || h.Usp? then Leaves(h.left) + Leaves(h.right) else [h]
  }

  /** The leaves that are not erasures. */
  function Values(t: Branch): (ls: seq<Branch>)
    ensures forall x :: x in ls ==> x.Value?
    decreases Size(t)
  {
    var h := Head(t);
    if h.Sup? || h.Usp? then Values(h.left) + Values(h.right)
    else if h.Erased? then [] else [h]
  }

  function NonErased(ls: seq<Branch>): seq<Branch> {
    if ls == [] then [] else (if ls[0].Erased? then [] else [ls[0]]) + NonErased(ls[1..])
  }

  lemma ConcatAssociates<T>(a: seq<T>, b: seq<T>, c: seq<T>)
    ensures (a + b) + c == a + (b + c)
  {
  }

  lemma Around<T>(q: seq<T>, i: nat)
    requires i < |q|
    ensures q == q[..i] + ([q[i]] + q[i + 1..])
  {
  }

  lemma NonErasedStep(ls: seq<Branch>)
    requires ls != []
    ensures NonErased(ls) == (if ls[0].Erased? then [] else [ls[0]]) + NonErased(ls[1..])
  {
  }

  lemma {:induction false} NonErasedConcat(a: seq<Branch>, b: seq<Branch>)
    ensures NonErased(a + b) == NonErased(a) + NonErased(b)
  {
    if a == [] {
      assert a + b == b;
    } else {
      var front := if a[0].Erased? then [] else [a[0]];
      NonErasedConcat(a[1..], b);
      NonErasedStep(a + b);
      assert (a + b)[1..] == a[1..] + b;
      ConcatAssociates(front, NonErased(a[1..]), NonErased(b));
    }
  }

  /** Superpositions of either kind in a term. */
  function Forks(t: Branch): nat {
    match t
    case Sup(l, r) => 1 + Forks(l) + Forks(r)
    case Usp(l, r) => 1 + Forks(l) + Forks(r)
    case Inc(x) => Forks(x)
    case Lazy(x) => Forks(x)
    case _ => 0
  }

  lemma {:induction false} HeadForks(t: Branch)
    ensures Forks(Head(t)) == Forks(t)
  {
    if t.Inc? || t.Lazy? { HeadForks(t.inner); }
  }

  /** There is one leaf more than there are superpositions. */
  lemma {:induction false} LeafCount(t: Branch)
    ensures |Leaves(t)| == Forks(t) + 1
    decreases Size(t)
  {
    HeadForks(t);
    var h := Head(t);
    if h.Sup? || h.Usp? {
      LeafCount(h.left);
      LeafCount(h.right);
    }
  }

  /** Values are the leaves of the plain collapse that are not erasures, in order. */
  lemma {:induction false} ValuesOfLeaves(t: Branch)
    ensures Values(t) == NonErased(Leaves(t))
    decreases Size(t)
  {
    var h := Head(t);
    if h.Sup? || h.Usp? {
      ValuesOfLeaves(h.left);
      ValuesOfLeaves(h.right);
      NonErasedConcat(Leaves(h.left), Leaves(h.right));
    }
  }
}
