/** Uses of terms while the heap is rewritten. */
module UseRewrites {
  import opened Probing
  import opened UseChains

  /** The heap grows by blank slots, a term is used, or a slot is overwritten by any word
      that is not a DUP port. */
  datatype Change = Grow(n: nat) | UseOf(id: Id, dest: nat) | Overwrite(c: nat, w: Word)

  ghost predicate Allowed(s: State, e: Change) {
    match e
    case Grow(_) => true
    case UseOf(_, dest) => Blank(s, dest)
    case Overwrite(c, w) => c < |s.heap| && !w.Port?
  }

  function Do(s: State, e: Change): (s': State)
    requires Shaped(s)
    ensures Shaped(s')
  {
    match e
    case Grow(n) => s.(heap := s.heap + seq(n, _ => Atom(0)))
    case UseOf(id, dest) => if dest < |s.heap| then UseAt(s, Shared(id), dest) else s
    case Overwrite(c, w) => if c < |s.heap| then s.(heap := s.heap[c := w]) else s
  }

  function After(es: seq<Change>): (s: State)
    ensures Shaped(s)
  {
    if es == [] then Start() else Do(After(es[..|es| - 1]), es[|es| - 1])
  }

  ghost predicate Fine(es: seq<Change>) {
    es == [] || (Fine(es[..|es| - 1]) && Allowed(After(es[..|es| - 1]), es[|es| - 1]))
  }

  // ------------------------------------------------- what a run says of a term

  /** What the newest use of a term left in its slot. */
  function Left(es: seq<Change>, id: Id): Word {
    if es == [] then Atom(0)
    else
      var e := es[|es| - 1];
      if e.UseOf? && e.id == id then WordAt(After(es).heap, e.dest) else Left(es[..|es| - 1], id)
  }

  function WordAt(heap: seq<Word>, c: nat): Word { if c < |heap| then heap[c] else Atom(0) }

  /** The slot of the use at step m. */
  function DestAt(es: seq<Change>, m: nat): nat { if m < |es| && es[m].UseOf? then es[m].dest else 0 }

  /** The uses of a term since its tracking last started afresh, as steps of the run: a use
      goes on with the chain if the newest use before it is still in place. */
  function Segment(es: seq<Change>, id: Id): seq<nat> {
    if es == [] then []
    else
      var (earlier, m) := (es[..|es| - 1], |es| - 1);
      var ms := Segment(earlier, id);
      if !(es[m].UseOf? && es[m].id == id) then ms
      else if ms != [] && WordAt(After(earlier).heap, DestAt(earlier, ms[|ms| - 1])) == Left(earlier, id) then ms + [m]
      else [m]
  }

  lemma {:induction false} SegmentUses(es: seq<Change>, id: Id, k: nat)
    requires k < |Segment(es, id)|
    ensures var m := Segment(es, id)[k]; m < |es| && es[m] == Change.UseOf(id, DestAt(es, m))
  {
    var earlier := es[..|es| - 1];
    if k < |Segment(earlier, id)| && Segment(es, id)[k] == Segment(earlier, id)[k] { SegmentUses(earlier, id, k); }
  }

  /** The slot that step m of a run allocates if it makes a DUP cell. */
  function CellMade(es: seq<Change>, m: nat): nat { if m <= |es| then |After(es[..m]).heap| else 0 }

  /** Nothing has overwritten slot c since step m. */
  predicate Untouched(es: seq<Change>, m: nat, c: nat) {
    forall j :: m < j < |es| && es[j].Overwrite? ==> es[j].c != c
  }

  // ------------------------------------------------------------- the invariant

  /** A slot that still has its role holds what the role says. */
  ghost predicate Live(s: State, g: Log, c: nat) {
    c in g.role && 0 < c < |s.heap| && Indexed(g, g.role[c]) && SlotFor(g, g.role[c]) == c &&
    s.heap[c] == Held(g, g.role[c])
  }

  /** The table knows the ends of the chain; its slots exist, and newer cells are higher up. */
  ghost predicate Chained(s: State, g: Log, id: Id) {
    Shaped(s) && Sized(g, id) && EntryOk(s, g, id) &&
    (forall k :: 0 <= k < |g.uses[id]| ==> 0 < g.uses[id][k] < |s.heap|) &&
    (forall k :: 0 <= k < |g.cells[id]| ==> 0 < g.cells[id][k] < |s.heap|) &&
    (forall j, k :: 0 <= j < k < |g.cells[id]| ==> g.cells[id][j] < g.cells[id][k])
  }

  /** Two chains share no cell. */
  ghost predicate CellsApart(g: Log, i: Id, j: Id) {
    i in g.cells && j in g.cells && i != j ==>
      forall a, b :: 0 <= a < |g.cells[i]| && 0 <= b < |g.cells[j]| ==> g.cells[i][a] != g.cells[j][b]
  }

  /** No port is stored twice. */
  ghost predicate PortsOnce(heap: seq<Word>) {
    (forall a :: 0 <= a < |heap| && heap[a].Port? ==> heap[a].loc < |heap|) &&
    forall a, b :: 0 <= a < |heap| && 0 <= b < |heap| && heap[a].Port? && heap[a] == heap[b] ==> a == b
  }

  ghost predicate Inv(s: State, g: Log) {
    Shaped(s) && g.uses.Keys == g.cells.Keys && PortsOnce(s.heap) && |s.heap| > 0 &&
    (forall id {:trigger Chained(s, g, id)} :: id in g.uses ==> Chained(s, g, id)) &&
    (forall i, j {:trigger CellsApart(g, i, j)} :: CellsApart(g, i, j)) &&
    (forall c: nat {:trigger Live(s, g, c)} :: c in g.role ==> Live(s, g, c)) &&
    (forall i: nat {:trigger TermOk(s, g, i)} :: i < USES ==> TermOk(s, g, i))
  }

  lemma ChainFact(s: State, g: Log, id: Id)
    requires Inv(s, g) && id in g.uses
    ensures Chained(s, g, id)
  {
  }

  lemma LiveFact(s: State, g: Log, c: nat)
    requires Inv(s, g) && c in g.role
    ensures Live(s, g, c)
  {
  }

  lemma ApartFact(s: State, g: Log, i: Id, j: Id)
    requires Inv(s, g)
    ensures CellsApart(g, i, j)
  {
  }

  /** The newest use is in place. */
  ghost predicate InPlace(s: State, g: Log, id: Id) {
    Sized(g, id) && Shaped(s) && Tracked(s.terms, id) &&
    WordAt(s.heap, g.uses[id][|g.uses[id]| - 1]) == TailWord(g, id)
  }

  /** A word that is live at the newest use is live as that use. */
  lemma TailRole(s: State, g: Log, id: Id)
    requires Inv(s, g) && id in g.uses && InPlace(s, g, id)
    ensures var (us, tail) := (g.uses[id], g.uses[id][|g.uses[id]| - 1]);
      tail in g.role ==> g.role[tail] == AsUse(id, |us| - 1)
  {
    ChainFact(s, g, id);
    var (us, ds) := (g.uses[id], g.cells[id]);
    var tail := us[|us| - 1];
    if tail in g.role {
      LiveFact(s, g, tail);
      var r := g.role[tail];
      assert r.id in g.uses;
      ChainFact(s, g, r.id);
      ApartFact(s, g, id, r.id);
    }
  }

  // ------------------------------------------------------------- effects of a use

  lemma NewUntracked(s: State, g: Log, id: Id)
    requires Inv(s, g)
    ensures id !in g.uses ==> !Tracked(s.terms, id)
    ensures id in g.uses ==> Chained(s, g, id)
  {
    var p := Probe(s.terms, id);
    if p < WINDOW { assert TermOk(s, g, Place(id, p)); }
    if id in g.uses { ChainFact(s, g, id); }
  }

  lemma UseGoesOn(s: State, g: Log, id: Id, dest: nat)
    requires Inv(s, g) && Blank(s, dest) && id in g.uses && InPlace(s, g, id)
    ensures Chained(s, g, id)
    ensures var (s', us, ds, n) := (UseAt(s, Shared(id), dest), g.uses[id], g.cells[id], |s.heap|);
      |us| == |ds| + 1 && us[|ds|] < n && us[|ds|] != dest &&
      s'.heap == (s.heap + [TailWord(g, id)])[us[|ds|] := Port(false, n)][dest := Port(true, n)] &&
      OnlyEntry(s, s', id) && s'.terms == s.terms &&
      s'.entries[Place(id, Probe(s.terms, id))] == Entry(us[0], if ds == [] then n else ds[0], dest, n)
  {
    NewUntracked(s, g, id);
  }

  /** A new term, one without an entry, or one whose newest use is no longer in place. */
  lemma UseStarts(s: State, g: Log, id: Id, dest: nat)
    requires Inv(s, g) && Blank(s, dest) && !(id in g.uses && InPlace(s, g, id))
    ensures var s' := UseAt(s, Shared(id), dest);
      s'.heap == s.heap[dest := Shared(id)] && OnlyEntry(s, s', id) &&
      if Probe(s.terms, id) < WINDOW then
        Tracked(s'.terms, id) && s'.entries[Place(id, Probe(s'.terms, id))] == Entry(dest, 0, 0, 0)
      else s'.terms == s.terms && s'.entries == s.entries
  {
    NewUntracked(s, g, id);
    if Probe(s.terms, id) < WINDOW { OwnEntry(s, id); }
  }

  // ---------------------------------------------------------------- the log of a use

  ghost function NextLog(s: State, g: Log, id: Id, dest: nat): Log
    requires Shaped(s)
  {
    if id in g.uses && InPlace(s, g, id) then
      var (us, ds, n) := (g.uses[id], g.cells[id], |s.heap|);
      Log(g.uses[id := us + [dest]], g.cells[id := ds + [n]],
          g.role[us[|us| - 1] := AsUse(id, |us| - 1)][dest := AsUse(id, |us|)][n := AsCell(id, |ds|)])
    else
      Log(g.uses[id := [dest]], g.cells[id := []],
          (map c | c in g.role && g.role[c].id != id :: g.role[c])[dest := AsUse(id, 0)])
  }

  lemma GoesOnLive(s: State, g: Log, id: Id, dest: nat, c: nat)
    requires Inv(s, g) && Blank(s, dest) && id in g.uses && InPlace(s, g, id)
    requires c in NextLog(s, g, id, dest).role
    ensures Live(UseAt(s, Shared(id), dest), NextLog(s, g, id, dest), c)
  {
    UseGoesOn(s, g, id, dest);
    TailRole(s, g, id);
    if c in g.role { LiveFact(s, g, c); }
  }

  /** A live slot of a chain that stays as it is. */
  lemma LiveKept(s: State, g: Log, s': State, g': Log, c: nat)
    requires Live(s, g, c) && c in g'.role && g'.role[c] == g.role[c] && c < |s'.heap| && s'.heap[c] == s.heap[c]
    requires var i := g.role[c].id;
      i in g'.uses && i in g'.cells && g'.uses[i] == g.uses[i] && g'.cells[i] == g.cells[i]
    ensures Live(s', g', c)
  {
  }

  lemma StartsLive(s: State, g: Log, id: Id, dest: nat, c: nat)
    requires Inv(s, g) && Blank(s, dest) && !(id in g.uses && InPlace(s, g, id))
    requires c in NextLog(s, g, id, dest).role
    ensures Live(UseAt(s, Shared(id), dest), NextLog(s, g, id, dest), c)
  {
    UseStarts(s, g, id, dest);
    if c != dest {
      LiveFact(s, g, c);
      LiveKept(s, g, UseAt(s, Shared(id), dest), NextLog(s, g, id, dest), c);
    }
  }

  lemma OwnChained(s: State, g: Log, id: Id, dest: nat)
    requires Inv(s, g) && Blank(s, dest)
    ensures Chained(UseAt(s, Shared(id), dest), NextLog(s, g, id, dest), id)
  {
    if id in g.uses && InPlace(s, g, id) { UseGoesOn(s, g, id, dest); } else { UseStarts(s, g, id, dest); }
  }

  lemma NextOnlyEntry(s: State, g: Log, id: Id, dest: nat)
    requires Inv(s, g) && Blank(s, dest)
    ensures var s' := UseAt(s, Shared(id), dest); OnlyEntry(s, s', id) && |s.heap| <= |s'.heap|
  {
    if id in g.uses && InPlace(s, g, id) { UseGoesOn(s, g, id, dest); } else { UseStarts(s, g, id, dest); }
  }

  lemma OtherChained(s: State, g: Log, id: Id, s': State, g': Log, j: Id)
    requires Chained(s, g, j) && j != id && OnlyEntry(s, s', id) && |s.heap| <= |s'.heap|
    requires j in g'.uses && j in g'.cells && g'.uses[j] == g.uses[j] && g'.cells[j] == g.cells[j]
    ensures Chained(s', g', j)
  {
    OtherEntry(s, g, s', g', id, j);
  }

  lemma NextChained(s: State, g: Log, id: Id, dest: nat, j: Id)
    requires Inv(s, g) && Blank(s, dest) && (j == id || j in g.uses)
    ensures Chained(UseAt(s, Shared(id), dest), NextLog(s, g, id, dest), j)
  {
    if j == id {
      OwnChained(s, g, id, dest);
    } else {
      ChainFact(s, g, j);
      NextOnlyEntry(s, g, id, dest);
      OtherChained(s, g, id, UseAt(s, Shared(id), dest), NextLog(s, g, id, dest), j);
    }
  }

  /** The cells of i after a use of id: those before, and perhaps a new one, or none. */
  lemma NextCells(s: State, g: Log, id: Id, dest: nat, i: Id)
    requires Inv(s, g) && Blank(s, dest)
    ensures var g' := NextLog(s, g, id, dest);
      CellsOf(g', i) == CellsOf(g, i) || CellsOf(g', i) == [] ||
      (i == id && CellsOf(g', i) == CellsOf(g, i) + [|s.heap|])
    ensures forall k :: 0 <= k < |CellsOf(g, i)| ==> CellsOf(g, i)[k] < |s.heap|
  {
    if i in g.uses { ChainFact(s, g, i); }
  }

  lemma NextApart(s: State, g: Log, id: Id, dest: nat, i: Id, j: Id)
    requires Inv(s, g) && Blank(s, dest)
    ensures CellsApart(NextLog(s, g, id, dest), i, j)
  {
    ApartFact(s, g, i, j);
    NextCells(s, g, id, dest, i);
    NextCells(s, g, id, dest, j);
  }

  lemma GoesOnPorts(heap: seq<Word>, heap': seq<Word>, tail: nat, dest: nat, w: Word)
    requires PortsOnce(heap) && tail < |heap| && dest < |heap| && tail != dest && heap[tail] == w && heap[dest].Atom?
    requires heap' == (heap + [w])[tail := Port(false, |heap|)][dest := Port(true, |heap|)]
    ensures PortsOnce(heap')
  {
  }

  lemma NextPorts(s: State, g: Log, id: Id, dest: nat)
    requires Inv(s, g) && Blank(s, dest)
    ensures PortsOnce(UseAt(s, Shared(id), dest).heap)
  {
    if id in g.uses && InPlace(s, g, id) {
      UseGoesOn(s, g, id, dest);
      GoesOnPorts(s.heap, UseAt(s, Shared(id), dest).heap, g.uses[id][|g.cells[id]|], dest, TailWord(g, id));
    } else {
      UseStarts(s, g, id, dest);
    }
  }

  lemma NextTerm(s: State, g: Log, id: Id, dest: nat, i: nat)
    requires Inv(s, g) && Blank(s, dest) && i < USES
    ensures TermOk(UseAt(s, Shared(id), dest), NextLog(s, g, id, dest), i)
  {
    assert TermOk(s, g, i);
    if id in g.uses && InPlace(s, g, id) { UseGoesOn(s, g, id, dest); } else { UseStarts(s, g, id, dest); }
  }

  lemma UseKeeps(s: State, g: Log, id: Id, dest: nat)
    requires Inv(s, g) && Blank(s, dest)
    ensures Inv(UseAt(s, Shared(id), dest), NextLog(s, g, id, dest))
  {
    var (s', g') := (UseAt(s, Shared(id), dest), NextLog(s, g, id, dest));
    NextPorts(s, g, id, dest);
    forall j | j in g'.uses ensures Chained(s', g', j) { NextChained(s, g, id, dest, j); }
    forall i, j ensures CellsApart(g', i, j) { NextApart(s, g, id, dest, i, j); }
    forall c: nat | c in g'.role ensures Live(s', g', c) {
      if id in g.uses && InPlace(s, g, id) { GoesOnLive(s, g, id, dest, c); } else { StartsLive(s, g, id, dest, c); }
    }
    forall i: nat | i < USES ensures TermOk(s', g', i) { NextTerm(s, g, id, dest, i); }
  }

  // ------------------------------------------------------------------- other steps

  function Forget(g: Log, c: nat): Log { g.(role := map d | d in g.role && d != c :: g.role[d]) }

  lemma OverwriteKeeps(s: State, g: Log, c: nat, w: Word)
    requires Inv(s, g) && c < |s.heap| && !w.Port?
    ensures Inv(s.(heap := s.heap[c := w]), Forget(g, c))
  {
    var (s', g') := (s.(heap := s.heap[c := w]), Forget(g, c));
    forall j | j in g'.uses ensures Chained(s', g', j) { ChainFact(s, g, j); }
    forall i, j ensures CellsApart(g', i, j) { ApartFact(s, g, i, j); }
    forall d: nat | d in g'.role ensures Live(s', g', d) { LiveFact(s, g, d); }
    forall i: nat | i < USES ensures TermOk(s', g', i) { assert TermOk(s, g, i); }
  }

  lemma GrowKeeps(s: State, g: Log, n: nat)
    requires Inv(s, g)
    ensures Inv(Do(s, Change.Grow(n)), g)
  {
    var s' := Do(s, Change.Grow(n));
    forall j | j in g.uses ensures Chained(s', g, j) { ChainFact(s, g, j); }
    forall d: nat | d in g.role ensures Live(s', g, d) { LiveFact(s, g, d); }
    forall i: nat | i < USES ensures TermOk(s', g, i) { assert TermOk(s, g, i); }
  }

  // -------------------------------------------------------------------------- runs

  ghost function LogAfter(es: seq<Change>): Log {
    if es == [] then Log(map[], map[], map[])
    else
      var (s, g, e) := (After(es[..|es| - 1]), LogAfter(es[..|es| - 1]), es[|es| - 1]);
      match e
      case Grow(_) => g
      case UseOf(id, dest) => NextLog(s, g, id, dest)
      case Overwrite(c, _) => Forget(g, c)
  }

  /** Use k of the chain is where the run says, and live while nothing has overwritten it. */
  ghost predicate UseMatches(es: seq<Change>, g: Log, id: Id, k: nat)
    requires Sized(g, id)
  {
    var ms := Segment(es, id);
    k < |ms| == |g.uses[id]| && ms[k] < |es| && DestAt(es, ms[k]) == g.uses[id][k] &&
    (Untouched(es, ms[k], g.uses[id][k]) ==> g.uses[id][k] in g.role && g.role[g.uses[id][k]] == AsUse(id, k))
  }

  /** Cell k was made by the use after use k, and is live while nothing has overwritten it. */
  ghost predicate CellMatches(es: seq<Change>, g: Log, id: Id, k: nat)
    requires Sized(g, id)
  {
    var ms := Segment(es, id);
    k + 1 < |ms| && ms[k + 1] < |es| && k < |g.cells[id]| && g.cells[id][k] == CellMade(es, ms[k + 1]) &&
    (Untouched(es, ms[k + 1], g.cells[id][k]) ==>
       g.cells[id][k] in g.role && g.role[g.cells[id][k]] == AsCell(id, k))
  }

  /** What the log of a tracked term has to do with the run. */
  ghost predicate Matches(es: seq<Change>, g: Log, id: Id) {
    Sized(g, id) && Left(es, id) == TailWord(g, id) && |Segment(es, id)| == |g.uses[id]| &&
    (forall k: nat {:trigger UseMatches(es, g, id, k)} :: k < |g.uses[id]| ==> UseMatches(es, g, id, k)) &&
    (forall k: nat {:trigger CellMatches(es, g, id, k)} :: k < |g.cells[id]| ==> CellMatches(es, g, id, k))
  }

  /** The run before its last step. */
  ghost predicate Extends(es: seq<Change>, es': seq<Change>, e: Change) { es' == es + [e] && Fine(es') }

  lemma ExtendsFact(es: seq<Change>, es': seq<Change>, e: Change)
    requires Extends(es, es', e)
    ensures es'[..|es'| - 1] == es && es'[|es|] == e && |es'| == |es| + 1 && Fine(es) && Allowed(After(es), e)
    ensures After(es') == Do(After(es), e)
  {
  }

  lemma StillUntouched(es: seq<Change>, es': seq<Change>, e: Change, m: nat, c: nat)
    requires Extends(es, es', e) && m < |es| && Untouched(es', m, c)
    ensures Untouched(es, m, c) && (e.Overwrite? ==> e.c != c)
  {
    ExtendsFact(es, es', e);
    forall j | m < j < |es| && es[j].Overwrite? ensures es[j].c != c { assert es'[j] == es[j]; }
    assert es'[|es|] == e;
  }

  lemma SameCellMade(es: seq<Change>, es': seq<Change>, e: Change, m: nat)
    requires Extends(es, es', e) && m <= |es|
    ensures CellMade(es', m) == CellMade(es, m)
  {
    assert es'[..m] == es[..m];
  }

  /** A step that is no use of id keeps what its segment is and what its newest use left. */
  lemma SameSegment(es: seq<Change>, es': seq<Change>, e: Change, id: Id)
    requires Extends(es, es', e) && !(e.UseOf? && e.id == id)
    ensures Segment(es', id) == Segment(es, id) && Left(es', id) == Left(es, id)
  {
    ExtendsFact(es, es', e);
  }

  /** Such a step keeps a term's log matched if it keeps its chain and its roles. */
  lemma OtherMatches(es: seq<Change>, es': seq<Change>, e: Change, g: Log, g': Log, id: Id)
    requires Extends(es, es', e) && !(e.UseOf? && e.id == id) && Matches(es, g, id)
    requires Sized(g', id) && g'.uses[id] == g.uses[id] && g'.cells[id] == g.cells[id]
    requires forall c :: c in g.role && g.role[c].id == id && !(e.Overwrite? && e.c == c) ==>
      c in g'.role && g'.role[c] == g.role[c]
    ensures Matches(es', g', id)
  {
    SameSegment(es, es', e, id);
    var ms := Segment(es, id);
    forall k: nat | k < |g.uses[id]| ensures UseMatches(es', g', id, k) {
      assert UseMatches(es, g, id, k);
      if Untouched(es', ms[k], g.uses[id][k]) { StillUntouched(es, es', e, ms[k], g.uses[id][k]); }
    }
    forall k: nat | k < |g.cells[id]| ensures CellMatches(es', g', id, k) {
      assert CellMatches(es, g, id, k);
      SameCellMade(es, es', e, ms[k + 1]);
      if Untouched(es', ms[k + 1], g.cells[id][k]) { StillUntouched(es, es', e, ms[k + 1], g.cells[id][k]); }
    }
  }

  /** Whether another term has an entry does not change. */
  lemma OtherTracked(s: State, s': State, id: Id, j: Id)
    requires OnlyEntry(s, s', id) && j != id && (Tracked(s.terms, j) || Probe(s.terms, j) == WINDOW)
    ensures Tracked(s'.terms, j) <==> Tracked(s.terms, j)
  {
    if s'.terms != s.terms { SameProbe(s.terms, WINDOW, Place(id, Probe(s.terms, id)), id, Home(j), j, 0); }
  }

  lemma SegmentStep(es: seq<Change>, es': seq<Change>, id: Id, dest: nat)
    requires Extends(es, es', Change.UseOf(id, dest))
    ensures Left(es', id) == WordAt(After(es').heap, dest)
    ensures var ms := Segment(es, id);
      Segment(es', id) ==
        if ms != [] && WordAt(After(es).heap, DestAt(es, ms[|ms| - 1])) == Left(es, id) then ms + [|es|] else [|es|]
  {
    ExtendsFact(es, es', Change.UseOf(id, dest));
  }

  lemma LastMatches(es: seq<Change>, g: Log, id: Id)
    requires Matches(es, g, id)
    ensures var (ms, us) := (Segment(es, id), g.uses[id]);
      |ms| == |us| > 0 && DestAt(es, ms[|ms| - 1]) == us[|us| - 1] && Left(es, id) == TailWord(g, id)
  {
    assert UseMatches(es, g, id, |g.uses[id]| - 1);
  }

  lemma InPlaceWord(s: State, g: Log, id: Id, c: nat, w: Word)
    requires Sized(g, id) && Shaped(s) && Tracked(s.terms, id) && c == g.uses[id][|g.uses[id]| - 1] &&
      w == TailWord(g, id)
    ensures InPlace(s, g, id) <==> WordAt(s.heap, c) == w
  {
  }

  lemma InPlaceIff(es: seq<Change>, g: Log, id: Id, s: State)
    requires Matches(es, g, id) && Shaped(s) && Tracked(s.terms, id)
    ensures Segment(es, id) != []
    ensures InPlace(s, g, id) <==> WordAt(s.heap, DestAt(es, Segment(es, id)[|Segment(es, id)| - 1])) == Left(es, id)
  {
    LastMatches(es, g, id);
    InPlaceWord(s, g, id, DestAt(es, Segment(es, id)[|Segment(es, id)| - 1]), Left(es, id));
  }

  lemma UseSegment(es: seq<Change>, es': seq<Change>, id: Id, dest: nat, g: Log, s: State)
    requires Extends(es, es', Change.UseOf(id, dest)) && s == After(es) && LogOk(es, g, id)
    ensures id in g.uses && InPlace(s, g, id) ==> Segment(es', id) == Segment(es, id) + [|es|]
    ensures !(id in g.uses && InPlace(s, g, id)) && (id !in g.uses || Tracked(s.terms, id)) ==>
      Segment(es', id) == [|es|]
    ensures Segment(es', id) != [] && Left(es', id) == WordAt(After(es').heap, dest)
  {
    SegmentStep(es, es', id, dest);
    if id in g.uses && Tracked(s.terms, id) { InPlaceIff(es, g, id, s); }
  }

  /** The log after a fresh start. */
  lemma StartsLog(s: State, g: Log, id: Id, dest: nat, g': Log)
    requires Inv(s, g) && Blank(s, dest) && !(id in g.uses && InPlace(s, g, id)) && g' == NextLog(s, g, id, dest)
    ensures Sized(g', id) && g'.uses[id] == [dest] && g'.cells[id] == [] && TailWord(g', id) == Shared(id)
    ensures dest in g'.role && g'.role[dest] == AsUse(id, 0)
    ensures WordAt(UseAt(s, Shared(id), dest).heap, dest) == Shared(id)
  {
    UseStarts(s, g, id, dest);
  }

  lemma StartsMatch(es: seq<Change>, es': seq<Change>, id: Id, dest: nat, g: Log, g': Log)
    requires Extends(es, es', Change.UseOf(id, dest)) && Inv(After(es), g) && Blank(After(es), dest)
    requires !(id in g.uses && InPlace(After(es), g, id)) && Segment(es', id) == [|es|]
    requires Left(es', id) == WordAt(After(es').heap, dest) && g' == NextLog(After(es), g, id, dest)
    ensures Matches(es', g', id)
  {
    ExtendsFact(es, es', Change.UseOf(id, dest));
    StartsLog(After(es), g, id, dest, g');
    assert UseMatches(es', g', id, 0);
  }

  /** The chain's roles after a use that goes on with it. */
  lemma GoesOnRoles(s: State, g: Log, id: Id, dest: nat, g': Log, c: nat, r: Role)
    requires Inv(s, g) && Blank(s, dest) && id in g.uses && InPlace(s, g, id) && g' == NextLog(s, g, id, dest)
    requires c in g.role && g.role[c] == r
    ensures c in g'.role && g'.role[c] == r
  {
    LiveFact(s, g, c);
    TailRole(s, g, id);
  }

  lemma GoesOnLog(s: State, g: Log, id: Id, dest: nat, g': Log)
    requires Inv(s, g) && Blank(s, dest) && id in g.uses && InPlace(s, g, id) && g' == NextLog(s, g, id, dest)
    ensures var (us, ds, n) := (g.uses[id], g.cells[id], |s.heap|);
      Sized(g', id) && |us| == |ds| + 1 && g'.uses[id] == us + [dest] && g'.cells[id] == ds + [n] &&
      dest in g'.role && g'.role[dest] == AsUse(id, |us|) && n in g'.role && g'.role[n] == AsCell(id, |ds|)
  {
    UseGoesOn(s, g, id, dest);
  }

  lemma GoesOnUse(es: seq<Change>, es': seq<Change>, id: Id, dest: nat, g: Log, g': Log, k: nat)
    requires Extends(es, es', Change.UseOf(id, dest)) && Inv(After(es), g) && Blank(After(es), dest)
    requires id in g.uses && InPlace(After(es), g, id) && Matches(es, g, id) && Sized(g', id)
    requires g' == NextLog(After(es), g, id, dest) && Segment(es', id) == Segment(es, id) + [|es|]
    requires k < |g'.uses[id]|
    ensures UseMatches(es', g', id, k)
  {
    var (us, ms) := (g.uses[id], Segment(es, id));
    ExtendsFact(es, es', Change.UseOf(id, dest));
    GoesOnLog(After(es), g, id, dest, g');
    if k < |us| {
      assert UseMatches(es, g, id, k);
      assert DestAt(es', ms[k]) == DestAt(es, ms[k]);
      if Untouched(es', ms[k], us[k]) {
        StillUntouched(es, es', Change.UseOf(id, dest), ms[k], us[k]);
        GoesOnRoles(After(es), g, id, dest, g', us[k], AsUse(id, k));
      }
    }
  }

  lemma GoesOnCell(es: seq<Change>, es': seq<Change>, id: Id, dest: nat, g: Log, g': Log, k: nat)
    requires Extends(es, es', Change.UseOf(id, dest)) && Inv(After(es), g) && Blank(After(es), dest)
    requires id in g.uses && InPlace(After(es), g, id) && Matches(es, g, id) && Sized(g', id)
    requires g' == NextLog(After(es), g, id, dest) && Segment(es', id) == Segment(es, id) + [|es|]
    requires k < |g'.cells[id]|
    ensures CellMatches(es', g', id, k)
  {
    var (ds, ms) := (g.cells[id], Segment(es, id));
    ExtendsFact(es, es', Change.UseOf(id, dest));
    GoesOnLog(After(es), g, id, dest, g');
    if k < |ds| {
      assert CellMatches(es, g, id, k);
      SameCellMade(es, es', Change.UseOf(id, dest), ms[k + 1]);
      if Untouched(es', ms[k + 1], ds[k]) {
        StillUntouched(es, es', Change.UseOf(id, dest), ms[k + 1], ds[k]);
        GoesOnRoles(After(es), g, id, dest, g', ds[k], AsCell(id, k));
      }
    } else {
      assert es'[..|es|] == es;
    }
  }

  lemma GoesOnMatch(es: seq<Change>, es': seq<Change>, id: Id, dest: nat, g: Log, g': Log)
    requires Extends(es, es', Change.UseOf(id, dest)) && Inv(After(es), g) && Blank(After(es), dest)
    requires id in g.uses && InPlace(After(es), g, id) && Matches(es, g, id)
    requires g' == NextLog(After(es), g, id, dest) && Segment(es', id) == Segment(es, id) + [|es|]
    requires Left(es', id) == WordAt(After(es').heap, dest)
    ensures Matches(es', g', id)
  {
    ExtendsFact(es, es', Change.UseOf(id, dest));
    UseGoesOn(After(es), g, id, dest);
    forall k: nat | k < |g'.uses[id]| ensures UseMatches(es', g', id, k) { GoesOnUse(es, es', id, dest, g, g', k); }
    forall k: nat | k < |g'.cells[id]| ensures CellMatches(es', g', id, k) { GoesOnCell(es, es', id, dest, g, g', k); }
  }

  /** The log of a run is an invariant state, and matches the run for every tracked term. */
  ghost predicate LogOk(es: seq<Change>, g: Log, id: Id) {
    (id in g.uses <==> Segment(es, id) != []) &&
    (id in g.uses && Tracked(After(es).terms, id) ==> Matches(es, g, id))
  }

  lemma UseLogOk(es: seq<Change>, es': seq<Change>, id: Id, dest: nat, g: Log, j: Id)
    requires Extends(es, es', Change.UseOf(id, dest)) && Inv(After(es), g) && LogOk(es, g, id) && LogOk(es, g, j)
    ensures LogOk(es', NextLog(After(es), g, id, dest), j)
  {
    var (s, e, g') := (After(es), Change.UseOf(id, dest), NextLog(After(es), g, id, dest));
    ExtendsFact(es, es', e);
    NewUntracked(s, g, j);
    if j != id {
      SameSegment(es, es', e, j);
      NextOnlyEntry(s, g, id, dest);
      if j in g.uses {
        OtherTracked(s, After(es'), id, j);
        UseRoles(s, g, id, dest, j);
        if Tracked(s.terms, j) { OtherMatches(es, es', e, g, g', j); }
      }
    } else {
      UseSegment(es, es', id, dest, g, s);
      if id in g.uses && InPlace(s, g, id) {
        GoesOnMatch(es, es', id, dest, g, g');
      } else if id !in g.uses || Tracked(s.terms, id) {
        StartsMatch(es, es', id, dest, g, g');
      } else {
        UseStarts(s, g, id, dest);
      }
    }
  }

  /** A use of id takes no role from another term. */
  lemma UseRoles(s: State, g: Log, id: Id, dest: nat, j: Id)
    requires Inv(s, g) && Blank(s, dest) && j != id
    ensures forall c :: c in g.role && g.role[c].id == j ==>
      c in NextLog(s, g, id, dest).role && NextLog(s, g, id, dest).role[c] == g.role[c]
  {
    forall c | c in g.role && g.role[c].id == j
      ensures c in NextLog(s, g, id, dest).role && NextLog(s, g, id, dest).role[c] == g.role[c]
    {
      LiveFact(s, g, c);
      if id in g.uses && InPlace(s, g, id) { TailRole(s, g, id); }
    }
  }

  lemma OtherLogOk(es: seq<Change>, es': seq<Change>, e: Change, g: Log, j: Id)
    requires Extends(es, es', e) && !e.UseOf? && Inv(After(es), g) && LogOk(es, g, j)
    ensures LogOk(es', if e.Grow? then g else Forget(g, e.c), j)
  {
    ExtendsFact(es, es', e);
    SameSegment(es, es', e, j);
    if j in g.uses && Tracked(After(es).terms, j) {
      OtherMatches(es, es', e, g, if e.Grow? then g else Forget(g, e.c), j);
    }
  }

  lemma StartInv()
    ensures Inv(Start(), Log(map[], map[], map[]))
  {
  }

  lemma {:induction false} RunInv(es: seq<Change>)
    requires Fine(es)
    ensures Inv(After(es), LogAfter(es)) && forall id: Id :: LogOk(es, LogAfter(es), id)
  {
    if es == [] {
      StartInv();
    } else {
      var (earlier, e) := (es[..|es| - 1], es[|es| - 1]);
      var (s, g) := (After(earlier), LogAfter(earlier));
      RunInv(earlier);
      assert es == earlier + [e] && Extends(earlier, es, e);
      match e
      case Grow(n) =>
        GrowKeeps(s, g, n);
        forall id: Id ensures LogOk(es, LogAfter(es), id) { OtherLogOk(earlier, es, e, g, id); }
      case Overwrite(c, w) =>
        OverwriteKeeps(s, g, c, w);
        forall id: Id ensures LogOk(es, LogAfter(es), id) { OtherLogOk(earlier, es, e, g, id); }
      case UseOf(i, dest) =>
        UseKeeps(s, g, i, dest);
        forall id: Id ensures LogOk(es, LogAfter(es), id) { UseLogOk(earlier, es, i, dest, g, id); }
    }
  }

  // --------------------------------------------------------- what every run keeps

  /** No port is ever stored twice, whatever has been overwritten. */
  lemma PortsStayOnce(es: seq<Change>, a: nat, b: nat)
    requires Fine(es)
    requires a < |After(es).heap| && b < |After(es).heap| && After(es).heap[a].Port?
    ensures After(es).heap[a] == After(es).heap[b] ==> a == b
  {
    RunInv(es);
  }

  lemma CellFact(es: seq<Change>, g: Log, id: Id, k: nat)
    requires Matches(es, g, id) && 0 < k < |Segment(es, id)| && |g.cells[id]| == |g.uses[id]| - 1
    ensures k <= |g.cells[id]| && g.cells[id][k - 1] == CellMade(es, Segment(es, id)[k])
    ensures Untouched(es, Segment(es, id)[k], CellMade(es, Segment(es, id)[k])) ==>
      g.cells[id][k - 1] in g.role && g.role[g.cells[id][k - 1]] == AsCell(id, k - 1)
  {
    assert CellMatches(es, g, id, k - 1);
  }

  lemma UseFact(es: seq<Change>, g: Log, id: Id, k: nat)
    requires Matches(es, g, id) && k < |Segment(es, id)|
    ensures k < |g.uses[id]| && g.uses[id][k] == DestAt(es, Segment(es, id)[k])
    ensures Untouched(es, Segment(es, id)[k], DestAt(es, Segment(es, id)[k])) ==>
      g.uses[id][k] in g.role && g.role[g.uses[id][k]] == AsUse(id, k)
  {
    assert UseMatches(es, g, id, k);
  }

  lemma UseHeld(es: seq<Change>, g: Log, id: Id, k: nat, s: State)
    requires s == After(es) && Inv(s, g) && Matches(es, g, id) && k < |Segment(es, id)|
    requires Untouched(es, Segment(es, id)[k], DestAt(es, Segment(es, id)[k]))
    ensures var c := DestAt(es, Segment(es, id)[k]);
      k < |g.uses[id]| && c < |s.heap| && s.heap[c] == Held(g, AsUse(id, k))
  {
    UseFact(es, g, id, k);
    LiveFact(s, g, g.uses[id][k]);
  }

  /** The log of a run, for a tracked term. */
  lemma RunFacts(es: seq<Change>, id: Id) returns (s: State, g: Log)
    requires Fine(es) && Tracked(After(es).terms, id) && Segment(es, id) != []
    ensures s == After(es) && Inv(s, g) && id in g.uses && Matches(es, g, id)
    ensures |g.cells[id]| == |g.uses[id]| - 1
  {
    s, g := After(es), LogAfter(es);
    RunInv(es);
    assert LogOk(es, g, id);
    ChainFact(s, g, id);
  }

  /** What use k of a segment holds: the term itself if it is the only use, DP0 of the cell
      that the next use made, or DP1 of its own cell for the newest. */
  function SegmentWord(es: seq<Change>, ms: seq<nat>, id: Id, k: nat): Word
    requires k < |ms|
  {
    if |ms| == 1 then Shared(id)
    else if k < |ms| - 1 then Port(false, CellMade(es, ms[k + 1])) else Port(true, CellMade(es, ms[k]))
  }

  lemma HeldWord(es: seq<Change>, g: Log, id: Id, k: nat)
    requires Matches(es, g, id) && |g.cells[id]| == |g.uses[id]| - 1 && k < |Segment(es, id)|
    ensures k < |g.uses[id]| && Held(g, AsUse(id, k)) == SegmentWord(es, Segment(es, id), id, k)
  {
    var n := |Segment(es, id)|;
    if n > 1 { CellFact(es, g, id, if k < n - 1 then k + 1 else k); }
  }

  /** Use k of the segment of a tracked term holds its word as long as nothing has
      overwritten its slot. */
  lemma SegmentUse(es: seq<Change>, id: Id, k: nat, c: nat)
    requires Fine(es) && Tracked(After(es).terms, id) && k < |Segment(es, id)|
    requires c == DestAt(es, Segment(es, id)[k]) && Untouched(es, Segment(es, id)[k], c)
    ensures c < |After(es).heap| && After(es).heap[c] == SegmentWord(es, Segment(es, id), id, k)
  {
    var s, g := RunFacts(es, id);
    UseHeld(es, g, id, k, s);
    HeldWord(es, g, id, k);
  }

  /** The cell made by use k of the segment, unless overwritten, holds the term itself if it
      is the first cell, and otherwise DP1 of the cell before. */
  lemma SegmentCell(es: seq<Change>, id: Id, k: nat, c: nat)
    requires Fine(es) && Tracked(After(es).terms, id) && 0 < k < |Segment(es, id)|
    requires c == CellMade(es, Segment(es, id)[k])
    ensures k > 1 ==> CellMade(es, Segment(es, id)[k - 1]) < c
    ensures Untouched(es, Segment(es, id)[k], c) ==>
      c < |After(es).heap| &&
      After(es).heap[c] == if k == 1 then Shared(id) else Port(true, CellMade(es, Segment(es, id)[k - 1]))
  {
    var s, g := RunFacts(es, id);
    ChainFact(s, g, id);
    CellFact(es, g, id, k);
    if k > 1 { CellFact(es, g, id, k - 1); }
    if Untouched(es, Segment(es, id)[k], c) { LiveFact(s, g, c); }
  }

  /** No cell of the segment has been overwritten. */
  predicate CellsUntouched(es: seq<Change>, id: Id) {
    var ms := Segment(es, id);
    forall k :: 0 < k < |ms| ==> Untouched(es, ms[k], CellMade(es, ms[k]))
  }

  lemma {:induction false} SegmentCellResolves(es: seq<Change>, id: Id, k: nat, side: bool)
    requires Fine(es) && Tracked(After(es).terms, id) && 0 < k < |Segment(es, id)| && CellsUntouched(es, id)
    ensures Resolve(After(es).heap, Port(side, CellMade(es, Segment(es, id)[k]))) == Shared(id)
  {
    SegmentCell(es, id, k, CellMade(es, Segment(es, id)[k]));
    if k > 1 { SegmentCellResolves(es, id, k - 1, true); }
  }

  /** While the cells are in place every use since the last fresh start that is in place
      leads to the term, and from the second such use on each of them is a DUP port. */
  lemma SegmentResolves(es: seq<Change>, id: Id, k: nat)
    requires Fine(es) && Tracked(After(es).terms, id) && k < |Segment(es, id)|
    requires var ms := Segment(es, id); Untouched(es, ms[k], DestAt(es, ms[k]))
    ensures var (heap, c) := (After(es).heap, DestAt(es, Segment(es, id)[k]));
      c < |heap| && (CellsUntouched(es, id) ==> Resolve(heap, heap[c]) == Shared(id)) &&
      (heap[c].Port? <==> |Segment(es, id)| > 1)
    ensures var m := Segment(es, id)[k]; m < |es| && es[m] == Change.UseOf(id, DestAt(es, m))
  {
    SegmentUses(es, id, k);
    SegmentUse(es, id, k, DestAt(es, Segment(es, id)[k]));
    var ms := Segment(es, id);
    if |ms| > 1 && CellsUntouched(es, id) {
      if k < |ms| - 1 { SegmentCellResolves(es, id, k + 1, false); } else { SegmentCellResolves(es, id, k, true); }
    }
  }
}
