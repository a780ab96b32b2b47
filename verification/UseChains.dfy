/** Tracking uses of a term: every use after the first goes through a DUP. */
module UseChains {
  import opened Probing

  const USES: nat := 4096
  const WINDOW: nat := 8

  type Id = n: nat | n > 0 witness 1

  /** A word that needs no tracking, a DUP port, or a term that must be shared. */
  datatype Word = Atom(n: nat) | Port(side: bool, loc: nat) | Shared(id: Id)

  /** Where the first use is; with more than one, the first DUP cell, the newest
      use and the newest DUP cell. */
  datatype Entry = Entry(first: nat, dup: nat, tail: nat, tailDup: nat)

  /** The heap, and the table: terms[i] is the term of entry i, or zero. */
  datatype State = State(heap: seq<Word>, terms: seq<nat>, entries: seq<Entry>)

  function Home(id: Id): (h: nat) ensures h < USES { id % USES }

  function Probe(terms: seq<nat>, id: Id): (p: nat)
    requires |terms| == USES
    ensures p <= WINDOW && (p < WINDOW ==> terms[Place(id, p)] == 0 || terms[Place(id, p)] == id)
  {
    ProbeFrom(terms, WINDOW, Home(id), id, 0)
  }

  function Place(id: Id, p: nat): (i: nat)
    requires p <= WINDOW
    ensures i < USES
  {
    At(USES, Home(id), p)
  }

  ghost predicate Shaped(s: State) { |s.terms| == USES && |s.entries| == USES }

  /** The table has an entry for the term. */
  predicate Tracked(terms: seq<nat>, id: Id)
    requires |terms| == USES
  {
    Probe(terms, id) < WINDOW && terms[Place(id, Probe(terms, id))] == id
  }

  /** The heap no longer holds at loc what the entry says. */
  predicate Stale(heap: seq<Word>, loc: nat, w: Word) { loc == 0 || loc >= |heap| || heap[loc] != w }

  /** The use of t at dest: the state after it, and the word to store at dest. */
  function Use(s: State, t: Word, dest: nat): (r: (State, Word))
    requires Shaped(s)
    ensures Shaped(r.0) && |r.0.heap| >= |s.heap|
  {
    if !t.Shared? || Probe(s.terms, t.id) == WINDOW then (s, t)
    else
      var k := Place(t.id, Probe(s.terms, t.id));
      var e := s.entries[k];
      if s.terms[k] == 0 then
        (s.(terms := s.terms[k := t.id], entries := s.entries[k := Entry(dest, 0, 0, 0)]), t)
      else if e.dup == 0 then
        if Stale(s.heap, e.first, t) then (s.(entries := s.entries[k := Entry(dest, 0, 0, 0)]), t)
        else
          var dl := |s.heap|;
          (s.(heap := (s.heap + [t])[e.first := Port(false, dl)],
              entries := s.entries[k := Entry(e.first, dl, dest, dl)]),
           Port(true, dl))
      else
        var td := if e.tailDup != 0 then e.tailDup else e.dup;
        if Stale(s.heap, e.tail, Port(true, td)) then (s.(entries := s.entries[k := Entry(dest, 0, 0, 0)]), t)
        else
          var nd := |s.heap|;
          (s.(heap := (s.heap + [Port(true, td)])[e.tail := Port(false, nd)],
              entries := s.entries[k := Entry(e.first, e.dup, dest, nd)]),
           Port(true, nd))
  }

  /** The caller stores what it was handed. */
  function UseAt(s: State, t: Word, dest: nat): (s': State)
    requires Shaped(s) && dest < |s.heap|
    ensures Shaped(s')
  {
    var (s1, w) := Use(s, t, dest);
    s1.(heap := s1.heap[dest := w])
  }

  // ------------------------------------------------------------------- chains

  datatype Role = AsUse(id: Id, k: nat) | AsCell(id: Id, k: nat)

  /** The uses of every term in order, the DUP cells of its chain, and what every
      slot is for. */
  datatype Log = Log(uses: map<Id, seq<nat>>, cells: map<Id, seq<nat>>, role: map<nat, Role>)

  /** One cell fewer than uses, or, for a term that is not tracked, no cells. */
  ghost predicate Sized(g: Log, id: Id) {
    id in g.uses && id in g.cells && |g.uses[id]| > 0 && (|g.cells[id]| == 0 || |g.cells[id]| == |g.uses[id]| - 1)
  }

  ghost predicate Indexed(g: Log, r: Role) {
    Sized(g, r.id) && r.k < if r.AsUse? then |g.uses[r.id]| else |g.cells[r.id]|
  }

  /** The slot with a role. */
  ghost function SlotFor(g: Log, r: Role): nat
    requires Indexed(g, r)
  {
    if r.AsUse? then g.uses[r.id][r.k] else g.cells[r.id][r.k]
  }

  /** What the slot with a role holds: use k reads DP0 of cell k, the last one DP1 of
      the last cell, and every cell but the first DP1 of the one before. */
  ghost function Held(g: Log, r: Role): Word
    requires Indexed(g, r)
  {
    var ds := g.cells[r.id];
    match r
    case AsUse(id, k) =>
      if ds == [] then Shared(id) else if k < |ds| then Port(false, ds[k]) else Port(true, ds[|ds| - 1])
    case AsCell(id, k) => if k == 0 then Shared(id) else Port(true, ds[k - 1])
  }

  ghost predicate EntryOk(s: State, g: Log, id: Id)
    requires Shaped(s) && Sized(g, id)
  {
    var (us, ds) := (g.uses[id], g.cells[id]);
    if !Tracked(s.terms, id) then Probe(s.terms, id) == WINDOW && ds == []
    else
      |ds| == |us| - 1 &&
      s.entries[Place(id, Probe(s.terms, id))] ==
        if ds == [] then Entry(us[0], 0, 0, 0) else Entry(us[0], ds[0], us[|ds|], ds[|ds| - 1])
  }

  /** Every use and cell has its role, and newer cells are higher up. */
  ghost predicate ChainOk(g: Log, id: Id)
    requires Sized(g, id)
  {
    (forall k {:trigger g.uses[id][k]} :: 0 <= k < |g.uses[id]| ==>
       g.uses[id][k] in g.role && g.role[g.uses[id][k]] == AsUse(id, k)) &&
    (forall k {:trigger g.cells[id][k]} :: 0 <= k < |g.cells[id]| ==>
       g.cells[id][k] in g.role && g.role[g.cells[id][k]] == AsCell(id, k)) &&
    (forall j, k :: 0 <= j < k < |g.cells[id]| ==> g.cells[id][j] < g.cells[id][k])
  }

  ghost predicate IdOk(s: State, g: Log, id: Id) {
    Shaped(s) && Sized(g, id) && EntryOk(s, g, id) && ChainOk(g, id)
  }

  /** Slots that are no use and no cell hold words that need no tracking. */
  ghost predicate SlotOk(s: State, g: Log, c: nat) {
    c < |s.heap| &&
    if c in g.role then c > 0 && Indexed(g, g.role[c]) && SlotFor(g, g.role[c]) == c && s.heap[c] == Held(g, g.role[c])
    else s.heap[c].Atom?
  }

  ghost predicate TermOk(s: State, g: Log, i: nat) {
    Shaped(s) && i < USES &&
    (s.terms[i] > 0 ==> s.terms[i] in g.uses)
  }

  ghost predicate Inv(s: State, g: Log) {
    Shaped(s) && g.uses.Keys == g.cells.Keys &&
    (forall id {:trigger IdOk(s, g, id)} :: id in g.uses ==> IdOk(s, g, id)) &&
    (forall c: nat {:trigger SlotOk(s, g, c)} :: c < |s.heap| ==> SlotOk(s, g, c)) &&
    (forall c {:trigger c in g.role} :: c in g.role ==> c < |s.heap|) &&
    (forall i: nat {:trigger TermOk(s, g, i)} :: i < USES ==> TermOk(s, g, i))
  }

  lemma SlotFact(s: State, g: Log, c: nat)
    requires Inv(s, g) && c < |s.heap|
    ensures SlotOk(s, g, c)
  {
  }

  lemma IdFact(s: State, g: Log, id: Id)
    requires Inv(s, g) && id in g.uses
    ensures IdOk(s, g, id)
  {
  }

  ghost function UsesOf(g: Log, id: Id): seq<nat> { if id in g.uses then g.uses[id] else [] }

  ghost function CellsOf(g: Log, id: Id): seq<nat> { if id in g.cells then g.cells[id] else [] }

  /** Another use, with a new cell unless it is the first or goes untracked. */
  ghost function NextLog(s: State, g: Log, t: Word, dest: nat): Log
    requires Shaped(s)
  {
    if !t.Shared? then g
    else
      var (us, ds) := (UsesOf(g, t.id), CellsOf(g, t.id));
      var role' := g.role[dest := AsUse(t.id, |us|)];
      if us == [] || !Tracked(s.terms, t.id) then
        Log(g.uses[t.id := us + [dest]], g.cells[t.id := ds], role')
      else
        Log(g.uses[t.id := us + [dest]], g.cells[t.id := ds + [|s.heap|]], role'[|s.heap| := AsCell(t.id, |ds|)])
  }

  /** A slot that may take a use: it has been allocated and holds nothing yet. */
  ghost predicate Blank(s: State, dest: nat) { 0 < dest < |s.heap| && s.heap[dest].Atom? }

  /** Before a use: whether the term is new, and what its entry says. */
  lemma Before(s: State, g: Log, id: Id)
    requires Inv(s, g)
    ensures id !in g.uses ==> !Tracked(s.terms, id)
    ensures id in g.uses ==> IdOk(s, g, id)
  {
    var p := Probe(s.terms, id);
    if p < WINDOW { assert TermOk(s, g, Place(id, p)); }
  }

  /** The table after a use of id: only its own entry changes. */
  ghost predicate OnlyEntry(s: State, s': State, id: Id) {
    Shaped(s) && Shaped(s') &&
    ((s'.terms == s.terms && s'.entries == s.entries) ||
     (Probe(s.terms, id) < WINDOW &&
      var k := Place(id, Probe(s.terms, id));
      s'.terms == s.terms[k := id] && s'.entries == s.entries[k := s'.entries[k]]))
  }

  lemma OtherEntry(s: State, g: Log, s': State, g': Log, id: Id, j: Id)
    requires OnlyEntry(s, s', id) && j != id && Sized(g, j) && EntryOk(s, g, j)
    requires Sized(g', j) && g'.uses[j] == g.uses[j] && g'.cells[j] == g.cells[j]
    ensures EntryOk(s', g', j)
  {
    if s'.terms != s.terms || s'.entries != s.entries {
      var k := Place(id, Probe(s.terms, id));
      SameProbe(s.terms, WINDOW, k, id, Home(j), j, 0);
    }
  }

  lemma OwnEntry(s: State, id: Id)
    requires Shaped(s) && Probe(s.terms, id) < WINDOW
    ensures var (k, terms') := (Place(id, Probe(s.terms, id)), s.terms[Place(id, Probe(s.terms, id)) := id]);
      Tracked(terms', id) && Place(id, Probe(terms', id)) == k
  {
    OwnProbe(s.terms, WINDOW, Place(id, Probe(s.terms, id)), Home(id), id, 0);
  }

  // ------------------------------------------------------------ a use keeps it

  /** The use is stored as it is: the term is new, or it cannot be tracked. */
  ghost predicate Raw(s: State, g: Log, id: Id)
    requires Shaped(s)
  {
    id !in g.uses || !Tracked(s.terms, id)
  }

  /** What the newest use of a tracked term holds. */
  ghost function TailWord(g: Log, id: Id): Word
    requires Sized(g, id)
  {
    var ds := g.cells[id];
    if ds == [] then Shared(id) else Port(true, ds[|ds| - 1])
  }

  lemma RawUse(s: State, g: Log, id: Id, dest: nat)
    requires Inv(s, g) && Blank(s, dest) && Raw(s, g, id)
    ensures var s' := UseAt(s, Shared(id), dest);
      s'.heap == s.heap[dest := Shared(id)] && OnlyEntry(s, s', id) &&
      (id in g.uses ==> s'.terms == s.terms) &&
      (id !in g.uses && Probe(s.terms, id) < WINDOW ==>
         Tracked(s'.terms, id) && s'.entries[Place(id, Probe(s'.terms, id))] == Entry(dest, 0, 0, 0)) &&
      (Probe(s.terms, id) == WINDOW ==> s'.terms == s.terms)
  {
    Before(s, g, id);
    if Probe(s.terms, id) < WINDOW { OwnEntry(s, id); }
  }

  lemma ChainedUse(s: State, g: Log, id: Id, dest: nat)
    requires Inv(s, g) && Blank(s, dest) && !Raw(s, g, id)
    ensures IdOk(s, g, id)
    ensures var (s', us, ds, d) := (UseAt(s, Shared(id), dest), g.uses[id], g.cells[id], |s.heap|);
      us[|ds|] < |s.heap| && us[|ds|] != dest &&
      s'.heap == (s.heap + [TailWord(g, id)])[us[|ds|] := Port(false, d)][dest := Port(true, d)] &&
      OnlyEntry(s, s', id) && s'.terms == s.terms &&
      s'.entries[Place(id, Probe(s.terms, id))] == Entry(us[0], if ds == [] then d else ds[0], dest, d)
  {
    Before(s, g, id);
    var (us, ds) := (g.uses[id], g.cells[id]);
    var tail := us[|ds|];
    assert g.role[tail] == AsUse(id, |ds|);
    SlotFact(s, g, tail);
    if ds != [] {
      assert g.role[ds[|ds| - 1]] == AsCell(id, |ds| - 1);
      SlotFact(s, g, ds[|ds| - 1]);
      assert g.role[ds[0]] == AsCell(id, 0);
      SlotFact(s, g, ds[0]);
    }
    SlotFact(s, g, dest);
  }

  /** g' adds to g a use of id, and perhaps a cell. */
  ghost predicate Adds(g: Log, g': Log, id: Id, n: nat, dest: nat) {
    (id in g.uses <==> id in g.cells) && dest !in g.role && n !in g.role && n != dest &&
    Sized(g', id) && g'.uses[id] == UsesOf(g, id) + [dest] &&
    g'.uses == g.uses[id := g'.uses[id]] && g'.cells == g.cells[id := g'.cells[id]] &&
    ((g'.cells[id] == CellsOf(g, id) && g'.role == g.role[dest := AsUse(id, |UsesOf(g, id)|)]) ||
     (g'.cells[id] == CellsOf(g, id) + [n] &&
      g'.role == g.role[dest := AsUse(id, |UsesOf(g, id)|)][n := AsCell(id, |CellsOf(g, id)|)]))
  }

  lemma NextAdds(s: State, g: Log, id: Id, dest: nat)
    requires Inv(s, g) && Blank(s, dest)
    ensures Adds(g, NextLog(s, g, Shared(id), dest), id, |s.heap|, dest)
  {
    Before(s, g, id);
    SlotFact(s, g, dest);
  }

  lemma AddedChain(g: Log, g': Log, id: Id, n: nat, dest: nat)
    requires Adds(g, g', id, n, dest) && (id in g.uses ==> Sized(g, id) && ChainOk(g, id))
    requires forall c :: c in g.role ==> c < n
    ensures ChainOk(g', id)
  {
    var (us, ds) := (g'.uses[id], g'.cells[id]);
    forall k | 0 <= k < |us| ensures us[k] in g'.role && g'.role[us[k]] == AsUse(id, k) {
      if k < |us| - 1 { assert us[k] == g.uses[id][k]; }
    }
    forall k | 0 <= k < |ds| ensures ds[k] in g'.role && g'.role[ds[k]] == AsCell(id, k) {
      if k < |CellsOf(g, id)| { assert ds[k] == g.cells[id][k]; }
    }
  }

  lemma OtherChain(g: Log, g': Log, id: Id, n: nat, dest: nat, j: Id)
    requires Adds(g, g', id, n, dest) && j != id && Sized(g, j) && ChainOk(g, j)
    ensures Sized(g', j) && ChainOk(g', j)
  {
    forall k | 0 <= k < |g'.uses[j]| ensures g'.uses[j][k] in g'.role && g'.role[g'.uses[j][k]] == AsUse(j, k) {
      assert g.uses[j][k] in g.role;
    }
    forall k | 0 <= k < |g'.cells[j]| ensures g'.cells[j][k] in g'.role && g'.role[g'.cells[j][k]] == AsCell(j, k) {
      assert g.cells[j][k] in g.role;
    }
  }

  /** A slot that belongs to another term holds the same and has the same role. */
  lemma OtherSlot(s: State, g: Log, s': State, g': Log, id: Id, n: nat, dest: nat, c: nat)
    requires Adds(g, g', id, n, dest) && SlotOk(s, g, c) && c in g.role && g.role[c].id != id
    requires c < |s'.heap| && s'.heap[c] == s.heap[c]
    ensures SlotOk(s', g', c)
  {
  }

  lemma RawSlots(s: State, g: Log, id: Id, dest: nat, c: nat)
    requires Inv(s, g) && Blank(s, dest) && Raw(s, g, id) && c < |s.heap|
    ensures SlotOk(UseAt(s, Shared(id), dest), NextLog(s, g, Shared(id), dest), c)
  {
    var (s', g') := (UseAt(s, Shared(id), dest), NextLog(s, g, Shared(id), dest));
    Before(s, g, id);
    RawUse(s, g, id, dest);
    NextAdds(s, g, id, dest);
    SlotFact(s, g, c);
    if c in g.role && g.role[c].id != id { OtherSlot(s, g, s', g', id, |s.heap|, dest, c); }
  }

  lemma ChainedSlots(s: State, g: Log, id: Id, dest: nat, c: nat)
    requires Inv(s, g) && Blank(s, dest) && !Raw(s, g, id) && c <= |s.heap|
    ensures SlotOk(UseAt(s, Shared(id), dest), NextLog(s, g, Shared(id), dest), c)
  {
    var (s', g') := (UseAt(s, Shared(id), dest), NextLog(s, g, Shared(id), dest));
    var (us, ds, n) := (g.uses[id], g.cells[id], |s.heap|);
    ChainedUse(s, g, id, dest);
    NextAdds(s, g, id, dest);
    assert g.role[us[|ds|]] == AsUse(id, |ds|);
    if c < n {
      SlotFact(s, g, c);
      if c in g.role && g.role[c].id != id { OtherSlot(s, g, s', g', id, n, dest, c); }
    }
  }

  lemma NextEntry(s: State, g: Log, id: Id, dest: nat)
    requires Inv(s, g) && Blank(s, dest)
    ensures var (s', g') := (UseAt(s, Shared(id), dest), NextLog(s, g, Shared(id), dest));
      Sized(g', id) && EntryOk(s', g', id) && OnlyEntry(s, s', id)
  {
    Before(s, g, id);
    NextAdds(s, g, id, dest);
    if Raw(s, g, id) { RawUse(s, g, id, dest); } else { ChainedUse(s, g, id, dest); }
  }

  lemma NextIds(s: State, g: Log, id: Id, dest: nat, j: Id)
    requires Inv(s, g) && Blank(s, dest) && (j == id || j in g.uses)
    ensures IdOk(UseAt(s, Shared(id), dest), NextLog(s, g, Shared(id), dest), j)
  {
    var (s', g') := (UseAt(s, Shared(id), dest), NextLog(s, g, Shared(id), dest));
    NextAdds(s, g, id, dest);
    NextEntry(s, g, id, dest);
    if j == id {
      if id in g.uses { IdFact(s, g, id); }
      AddedChain(g, g', id, |s.heap|, dest);
    } else {
      IdFact(s, g, j);
      OtherChain(g, g', id, |s.heap|, dest, j);
      OtherEntry(s, g, s', g', id, j);
    }
  }

  lemma NextSlots(s: State, g: Log, id: Id, dest: nat, c: nat)
    requires Inv(s, g) && Blank(s, dest) && c < |UseAt(s, Shared(id), dest).heap|
    ensures SlotOk(UseAt(s, Shared(id), dest), NextLog(s, g, Shared(id), dest), c)
  {
    if Raw(s, g, id) {
      RawUse(s, g, id, dest);
      RawSlots(s, g, id, dest, c);
    } else {
      ChainedUse(s, g, id, dest);
      ChainedSlots(s, g, id, dest, c);
    }
  }

  lemma NextRoles(s: State, g: Log, id: Id, dest: nat, c: nat)
    requires Inv(s, g) && Blank(s, dest) && c in NextLog(s, g, Shared(id), dest).role
    ensures c < |UseAt(s, Shared(id), dest).heap|
  {
    Before(s, g, id);
    if Raw(s, g, id) { RawUse(s, g, id, dest); } else { ChainedUse(s, g, id, dest); }
  }

  lemma SharedUse(s: State, g: Log, id: Id, dest: nat)
    requires Inv(s, g) && Blank(s, dest)
    ensures Inv(UseAt(s, Shared(id), dest), NextLog(s, g, Shared(id), dest))
  {
    var (s', g') := (UseAt(s, Shared(id), dest), NextLog(s, g, Shared(id), dest));
    NextAdds(s, g, id, dest);
    NextEntry(s, g, id, dest);
    forall j | j in g'.uses ensures IdOk(s', g', j) { NextIds(s, g, id, dest, j); }
    forall c: nat | c < |s'.heap| ensures SlotOk(s', g', c) { NextSlots(s, g, id, dest, c); }
    forall c | c in g'.role ensures c < |s'.heap| { NextRoles(s, g, id, dest, c); }
    forall i: nat | i < USES ensures TermOk(s', g', i) { assert TermOk(s, g, i); }
  }

  /** A use keeps the invariant. Ports are not passed to it again. */
  lemma UseKeeps(s: State, g: Log, t: Word, dest: nat)
    requires Inv(s, g) && Blank(s, dest) && !t.Port?
    ensures Inv(UseAt(s, t, dest), NextLog(s, g, t, dest))
  {
    if t.Atom? { AtomUse(s, g, t, dest); } else { SharedUse(s, g, t.id, dest); }
  }

  lemma AtomUse(s: State, g: Log, t: Word, dest: nat)
    requires Inv(s, g) && Blank(s, dest) && t.Atom?
    ensures Inv(UseAt(s, t, dest), g)
  {
    var s' := UseAt(s, t, dest);
    SlotFact(s, g, dest);
    forall c: nat | c < |s'.heap| ensures SlotOk(s', g, c) { SlotFact(s, g, c); }
    forall j | j in g.uses ensures IdOk(s', g, j) { IdFact(s, g, j); }
    forall i: nat | i < USES ensures TermOk(s', g, i) { assert TermOk(s, g, i); }
  }

  // -------------------------------------------------- what the invariant gives

  /** Follow DUP ports to what they project. */
  function Resolve(heap: seq<Word>, w: Word): Word
    decreases if w.Port? then w.loc + 1 else 0
  {
    if w.Port? && w.loc < |heap| && (heap[w.loc].Port? ==> heap[w.loc].loc < w.loc) then Resolve(heap, heap[w.loc])
    else w
  }

  lemma CellHolds(s: State, g: Log, id: Id, k: nat)
    requires Inv(s, g) && id in g.uses && id in g.cells && k < |g.cells[id]|
    ensures Sized(g, id) && g.cells[id][k] < |s.heap| && s.heap[g.cells[id][k]] == Held(g, AsCell(id, k))
    ensures k > 0 ==> g.cells[id][k - 1] < g.cells[id][k]
  {
    IdFact(s, g, id);
    assert g.role[g.cells[id][k]] == AsCell(id, k);
    SlotFact(s, g, g.cells[id][k]);
  }

  lemma UseHolds(s: State, g: Log, id: Id, k: nat)
    requires Inv(s, g) && id in g.uses && k < |g.uses[id]|
    ensures Sized(g, id) && g.uses[id][k] < |s.heap| && s.heap[g.uses[id][k]] == Held(g, AsUse(id, k))
  {
    IdFact(s, g, id);
    assert g.role[g.uses[id][k]] == AsUse(id, k);
    SlotFact(s, g, g.uses[id][k]);
  }

  lemma {:induction false} CellResolves(s: State, g: Log, id: Id, k: nat, side: bool)
    requires Inv(s, g) && id in g.uses && id in g.cells && k < |g.cells[id]|
    ensures Resolve(s.heap, Port(side, g.cells[id][k])) == Shared(id)
  {
    CellHolds(s, g, id, k);
    if k > 0 { CellResolves(s, g, id, k - 1, true); }
  }

  lemma UseResolves(s: State, g: Log, id: Id, k: nat)
    requires Inv(s, g) && id in g.uses && k < |g.uses[id]|
    ensures g.uses[id][k] < |s.heap| && Resolve(s.heap, s.heap[g.uses[id][k]]) == Shared(id)
  {
    UseHolds(s, g, id, k);
    var ds := g.cells[id];
    if ds != [] {
      if k < |ds| { CellResolves(s, g, id, k, false); } else { CellResolves(s, g, id, |ds| - 1, true); }
    }
  }

  /** The place of a port: use k for DP0 of cell k, and for DP1 the next cell or,
      after the last cell, the last use. */
  ghost function PortRole(g: Log, id: Id, k: nat, side: bool): Role
    requires Sized(g, id)
  {
    if !side then AsUse(id, k) else if k + 1 < |g.cells[id]| then AsCell(id, k + 1) else AsUse(id, k + 1)
  }

  /** A port in slot c belongs to a cell of a chain, and c is the place of that port. */
  lemma PortPlace(s: State, g: Log, c: nat) returns (id: Id, k: nat)
    requires Inv(s, g) && c < |s.heap| && s.heap[c].Port?
    ensures id in g.uses && Sized(g, id) && ChainOk(g, id) && k < |g.cells[id]| && s.heap[c].loc == g.cells[id][k]
    ensures c in g.role && g.role[c] == PortRole(g, id, k, s.heap[c].side) && SlotFor(g, g.role[c]) == c
  {
    SlotFact(s, g, c);
    id := g.role[c].id;
    IdFact(s, g, id);
    var (r, ds) := (g.role[c], g.cells[id]);
    k := if r.AsCell? then r.k - 1 else if r.k < |ds| then r.k else |ds| - 1;
  }

  /** No port is stored twice. */
  lemma PortOnce(s: State, g: Log, c: nat, c': nat)
    requires Inv(s, g) && c < |s.heap| && c' < |s.heap| && s.heap[c].Port? && s.heap[c'] == s.heap[c]
    ensures c' == c
  {
    var id, k := PortPlace(s, g, c);
    var id', k' := PortPlace(s, g, c');
    assert g.role[g.cells[id][k]] == AsCell(id, k) && g.role[g.cells[id'][k']] == AsCell(id', k');
  }

  /** The other port of the same cell is stored as well. */
  lemma SiblingStored(s: State, g: Log, c: nat) returns (c': nat)
    requires Inv(s, g) && c < |s.heap| && s.heap[c].Port?
    ensures c' < |s.heap| && s.heap[c'] == Port(!s.heap[c].side, s.heap[c].loc)
  {
    var id, k := PortPlace(s, g, c);
    var r := PortRole(g, id, k, !s.heap[c].side);
    c' := SlotFor(g, r);
    if r.AsUse? { UseHolds(s, g, id, r.k); } else { CellHolds(s, g, id, r.k); }
  }

  /** Where a term itself is stored. */
  lemma SharedPlace(s: State, g: Log, c: nat, id: Id)
    requires Inv(s, g) && c < |s.heap| && s.heap[c] == Shared(id)
    ensures id in g.uses && Sized(g, id) && c in g.role
    ensures if g.cells[id] == [] then g.role[c].AsUse? && g.role[c].id == id && g.role[c].k < |g.uses[id]| &&
      c == g.uses[id][g.role[c].k]
      else c == g.cells[id][0]
  {
    SlotFact(s, g, c);
  }

  ghost predicate StoredOnce(heap: seq<Word>, w: Word) {
    forall c, c' :: 0 <= c < |heap| && 0 <= c' < |heap| && heap[c] == w && heap[c'] == w ==> c == c'
  }

  /** A term is stored in one slot only exactly when it is tracked or used once. */
  lemma SharedOnceIff(s: State, g: Log, id: Id)
    requires Inv(s, g) && id in g.uses
    ensures StoredOnce(s.heap, Shared(id)) <==> Tracked(s.terms, id) || |g.uses[id]| == 1
  {
    IdFact(s, g, id);
    if Tracked(s.terms, id) || |g.uses[id]| == 1 {
      forall c, c' | 0 <= c < |s.heap| && 0 <= c' < |s.heap| && s.heap[c] == Shared(id) && s.heap[c'] == Shared(id)
        ensures c == c'
      {
        SharedPlace(s, g, c, id);
        SharedPlace(s, g, c', id);
      }
    } else {
      UseHolds(s, g, id, 0);
      UseHolds(s, g, id, 1);
      assert g.role[g.uses[id][0]] != g.role[g.uses[id][1]];
    }
  }

  // -------------------------------------------------------------------- runs

  /** The heap grows by blank slots, or a term is used. */
  datatype Event = Grow(n: nat) | UseOf(term: Word, dest: nat)

  function Start(): (s: State)
    ensures Shaped(s)
  {
    State([Atom(0)], seq(USES, _ => 0), seq(USES, _ => Entry(0, 0, 0, 0)))
  }

  ghost predicate Allowed(s: State, e: Event) {
    e.Grow? || (!e.term.Port? && Blank(s, e.dest))
  }

  function Do(s: State, e: Event): (s': State)
    requires Shaped(s)
    ensures Shaped(s')
  {
    match e
    case Grow(n) => s.(heap := s.heap + seq(n, _ => Atom(0)))
    case UseOf(t, dest) => if dest < |s.heap| then UseAt(s, t, dest) else s
  }

  function After(events: seq<Event>): (s: State)
    ensures Shaped(s)
  {
    if events == [] then Start() else Do(After(events[..|events| - 1]), events[|events| - 1])
  }

  ghost predicate Fine(events: seq<Event>) {
    events == [] || (Fine(events[..|events| - 1]) && Allowed(After(events[..|events| - 1]), events[|events| - 1]))
  }

  /** The slots where id has been used, in order. */
  function Dests(events: seq<Event>, id: Id): seq<nat> {
    if events == [] then []
    else
      var (before, e) := (Dests(events[..|events| - 1], id), events[|events| - 1]);
      if e.UseOf? && e.term == Shared(id) then before + [e.dest] else before
  }

  ghost function LogAfter(events: seq<Event>): Log {
    if events == [] then Log(map[], map[], map[])
    else
      var (s, g, e) := (After(events[..|events| - 1]), LogAfter(events[..|events| - 1]), events[|events| - 1]);
      if e.Grow? then g else NextLog(s, g, e.term, e.dest)
  }

  lemma GrowKeeps(s: State, g: Log, n: nat)
    requires Inv(s, g)
    ensures Inv(Do(s, Grow(n)), g)
  {
    var s' := Do(s, Grow(n));
    forall c: nat | c < |s'.heap| ensures SlotOk(s', g, c) {
      if c < |s.heap| { SlotFact(s, g, c); }
    }
    forall j | j in g.uses ensures IdOk(s', g, j) { IdFact(s, g, j); }
    forall i: nat | i < USES ensures TermOk(s', g, i) { assert TermOk(s, g, i); }
  }

  lemma {:induction false} RunInv(events: seq<Event>)
    requires Fine(events)
    ensures Inv(After(events), LogAfter(events))
    ensures forall id: Id :: UsesOf(LogAfter(events), id) == Dests(events, id)
  {
    if events != [] {
      var (earlier, e) := (events[..|events| - 1], events[|events| - 1]);
      RunInv(earlier);
      var (s, g) := (After(earlier), LogAfter(earlier));
      match e
      case Grow(n) => GrowKeeps(s, g, n);
      case UseOf(t, dest) => UseKeeps(s, g, t, dest);
    }
  }

  /** In every run every use of a term leads to that term. */
  lemma EveryUseResolves(events: seq<Event>, id: Id, k: nat)
    requires Fine(events) && k < |Dests(events, id)|
    ensures var (heap, c) := (After(events).heap, Dests(events, id)[k]);
      c < |heap| && Resolve(heap, heap[c]) == Shared(id)
  {
    RunInv(events);
    assert UsesOf(LogAfter(events), id) == Dests(events, id);
    UseResolves(After(events), LogAfter(events), id, k);
  }

  /** In every run both ports of every DUP cell are stored, each in one slot. */
  lemma EveryPortOnce(events: seq<Event>, c: nat) returns (c': nat)
    requires Fine(events) && c < |After(events).heap| && After(events).heap[c].Port?
    ensures var heap := After(events).heap;
      StoredOnce(heap, heap[c]) && c' < |heap| && heap[c'] == Port(!heap[c].side, heap[c].loc) &&
      StoredOnce(heap, heap[c'])
  {
    RunInv(events);
    var (s, g) := (After(events), LogAfter(events));
    c' := SiblingStored(s, g, c);
    forall w: Word, a, b | w.Port? && 0 <= a < |s.heap| && 0 <= b < |s.heap| && s.heap[a] == w && s.heap[b] == w
      ensures a == b
    {
      PortOnce(s, g, a, b);
    }
  }

  lemma {:induction false} UsedBefore(events: seq<Event>, m: nat, id: Id)
    requires m < |events| && events[m].UseOf? && events[m].term == Shared(id)
    ensures Dests(events, id) != []
  {
    if m < |events| - 1 { UsedBefore(events[..|events| - 1], m, id); }
  }

  /** Once used, a term keeps its entry, or stays without one. */
  lemma TrackedStays(s: State, g: Log, t: Word, dest: nat, id: Id)
    requires Inv(s, g) && Blank(s, dest) && id in g.uses
    ensures Tracked(UseAt(s, t, dest).terms, id) <==> Tracked(s.terms, id)
  {
    if t.Shared? {
      IdFact(s, g, id);
      NextEntry(s, g, t.id, dest);
      if t.id != id {
        var (k, s') := (Place(t.id, Probe(s.terms, t.id)), UseAt(s, t, dest));
        if s'.terms != s.terms { SameProbe(s.terms, WINDOW, k, t.id, Home(id), id, 0); }
      } else if Raw(s, g, id) {
        RawUse(s, g, id, dest);
      } else {
        ChainedUse(s, g, id, dest);
      }
    }
  }

  /** A term has an entry exactly when its first use found room in the window. */
  lemma {:induction false} TrackedIff(events: seq<Event>, m: nat, id: Id)
    requires Fine(events) && m < |events| && events[m].UseOf? && events[m].term == Shared(id)
    requires Dests(events[..m], id) == []
    ensures Tracked(After(events).terms, id) <==> Probe(After(events[..m]).terms, id) < WINDOW
  {
    var (earlier, e) := (events[..|events| - 1], events[|events| - 1]);
    RunInv(earlier);
    var (s, g) := (After(earlier), LogAfter(earlier));
    if m == |events| - 1 {
      Before(s, g, id);
      if Probe(s.terms, id) < WINDOW { OwnEntry(s, id); }
    } else {
      assert earlier[..m] == events[..m];
      TrackedIff(earlier, m, id);
      UsedBefore(earlier, m, id);
      if e.UseOf? { TrackedStays(s, g, e.term, e.dest, id); }
    }
  }

  /** In every run: a used term is stored in one slot only exactly when its first
      use found room in the window, or it is used once. */
  lemma TermOnceIff(events: seq<Event>, m: nat, id: Id)
    requires Fine(events) && m < |events| && events[m].UseOf? && events[m].term == Shared(id)
    requires Dests(events[..m], id) == []
    ensures StoredOnce(After(events).heap, Shared(id)) <==>
      Probe(After(events[..m]).terms, id) < WINDOW || |Dests(events, id)| == 1
  {
    RunInv(events);
    UsedBefore(events, m, id);
    TrackedIff(events, m, id);
    assert UsesOf(LogAfter(events), id) == Dests(events, id);
    SharedOnceIff(After(events), LogAfter(events), id);
  }

  // ------------------------------------------------------------- the counterexample

  /** Terms with the same home slot. */
  function CrowdId(j: nat): Id { 1 + USES * j }

  /** The first n of them are used once each, after room for the uses has been made. */
  function Crowd(n: nat): seq<Event> {
    if n == 0 then [Grow(10)] else Crowd(n - 1) + [UseOf(Shared(CrowdId(n - 1)), n)]
  }

  function CrowdTerms(n: nat): (terms: seq<nat>)
    ensures |terms| == USES
  {
    seq(USES, i requires 0 <= i < USES => if 1 <= i <= n then CrowdId(i - 1) else 0)
  }

  function CrowdHeap(n: nat): (heap: seq<Word>)
    ensures |heap| == 11
  {
    seq(11, c requires 0 <= c < 11 => if 1 <= c <= n then Shared(CrowdId(c - 1)) else Atom(0))
  }

  lemma CrowdHome(j: nat)
    ensures Home(CrowdId(j)) == 1
  {
  }

  lemma {:induction false} CrowdProbe(n: nat, p: nat)
    requires p <= n <= WINDOW
    ensures ProbeFrom(CrowdTerms(n), WINDOW, 1, CrowdId(n), p) == n
    decreases n - p
  {
    if p < n {
      assert CrowdTerms(n)[1 + p] == CrowdId(p) && CrowdId(p) != CrowdId(n);
      CrowdProbe(n, p + 1);
    }
  }

  /** One more of them: it goes to the next slot of the window, or to none. */
  lemma CrowdUse(s: State, n: nat)
    requires n <= WINDOW && Shaped(s) && s.terms == CrowdTerms(n) && s.heap == CrowdHeap(n)
    ensures Blank(s, n + 1)
    ensures var s' := UseAt(s, Shared(CrowdId(n)), n + 1);
      s'.heap == CrowdHeap(n + 1) && s'.terms == if n < WINDOW then CrowdTerms(n + 1) else CrowdTerms(n)
  {
    CrowdHome(n);
    CrowdProbe(n, 0);
    var s' := UseAt(s, Shared(CrowdId(n)), n + 1);
    assert s'.heap == CrowdHeap(n)[n + 1 := Shared(CrowdId(n))];
    if n < WINDOW { assert s'.terms == CrowdTerms(n)[n + 1 := CrowdId(n)]; }
  }

  lemma DoneOne(events: seq<Event>, e: Event)
    requires Fine(events) && Allowed(After(events), e)
    ensures Fine(events + [e]) && After(events + [e]) == Do(After(events), e)
  {
    assert (events + [e])[..|events|] == events;
  }

  ghost predicate Crowded(events: seq<Event>, n: nat) {
    Fine(events) && After(events).heap == CrowdHeap(n) &&
    After(events).terms == CrowdTerms(if n <= WINDOW then n else WINDOW)
  }

  lemma CrowdStart()
    ensures Crowded([Grow(10)], 0)
  {
    assert [] + [Grow(10)] == [Grow(10)];
    DoneOne([], Grow(10));
  }

  lemma CrowdNext(events: seq<Event>, n: nat, m: nat, events': seq<Event>)
    requires n <= WINDOW && m == n + 1 && Crowded(events, n) && events' == events + [UseOf(Shared(CrowdId(n)), m)]
    ensures Crowded(events', m)
  {
    CrowdUse(After(events), n);
    DoneOne(events, UseOf(Shared(CrowdId(n)), m));
  }

  lemma CrowdStep(n: nat, m: nat)
    requires n <= WINDOW && m == n + 1 && Crowded(Crowd(n), n)
    ensures Crowded(Crowd(m), m)
  {
    CrowdNext(Crowd(n), n, m, Crowd(m));
  }

  lemma {:induction false} CrowdRun(n: nat)
    requires n <= WINDOW + 1
    ensures Crowded(Crowd(n), n)
  {
    if n == 0 {
      CrowdStart();
    } else {
      CrowdRun(n - 1);
      CrowdStep(n - 1, n);
    }
  }

  lemma {:induction false} CrowdFound(n: nat, j: nat, p: nat)
    requires p <= j < n <= WINDOW
    ensures ProbeFrom(CrowdTerms(n), WINDOW, 1, CrowdId(j), p) == j
    decreases j - p
  {
    assert CrowdTerms(n)[1 + p] == CrowdId(p);
    if p < j { CrowdFound(n, j, p + 1); }
  }

  /** Eight terms with one home slot all get an entry. */
  lemma EightAreTracked(j: nat)
    requires j < 8
    ensures Fine(Crowd(8)) && Tracked(After(Crowd(8)).terms, CrowdId(j))
  {
    CrowdRun(8);
    CrowdHome(j);
    CrowdFound(8, j, 0);
    assert Place(CrowdId(j), j) == 1 + j;
  }

  lemma LateUse(s: State)
    requires Shaped(s) && s.terms == CrowdTerms(8) && s.heap == CrowdHeap(9)
    ensures Blank(s, 10) && UseAt(s, Shared(CrowdId(8)), 10).heap == CrowdHeap(9)[10 := Shared(CrowdId(8))]
  {
    CrowdHome(8);
    CrowdProbe(8, 0);
  }

  /** The window holds eight terms. The ninth with that home slot, used twice, is
      stored twice as it is. */
  lemma NinthIsShared()
    ensures var events := Crowd(9) + [UseOf(Shared(CrowdId(8)), 10)];
      Fine(events) && !StoredOnce(After(events).heap, Shared(CrowdId(8)))
  {
    CrowdRun(9);
    LateUse(After(Crowd(9)));
    DoneOne(Crowd(9), UseOf(Shared(CrowdId(8)), 10));
    var heap := CrowdHeap(9)[10 := Shared(CrowdId(8))];
    assert heap[9] == Shared(CrowdId(8)) && heap[10] == Shared(CrowdId(8));
  }

  // ------------------------------------------------------------------ the table

  class UseTable {
    var heap: seq<Word>
    const terms: array<nat>
    const entries: array<Entry>

    ghost predicate Valid() { terms.Length == USES && entries.Length == USES }

    ghost function Now(): (s: State)
      reads this, terms, entries
      requires Valid()
      ensures Shaped(s)
    {
      State(heap, terms[..], entries[..])
    }

    constructor ()
      ensures Valid() && fresh(terms) && fresh(entries) && Now() == Start()
    {
      heap := [Atom(0)];
      terms := new nat[USES](_ => 0);
      entries := new Entry[USES](_ => Entry(0, 0, 0, 0));
    }

    /** The entry for id or an unused one, or -1 when the window is full. */
    method FindEntry(id: Id) returns (k: int)
      requires Valid()
      ensures var p := Probe(terms[..], id);
        if p == WINDOW then k == -1 else k == Place(id, p)
    {
      ghost var was := terms[..];
      var h, p := id % USES, 0;
      while p < WINDOW
        invariant p <= WINDOW && terms[..] == was && Probe(was, id) == ProbeFrom(was, WINDOW, h, id, p)
      {
        AtWraps(USES, h, p);
        k := (h + p) % USES;
        assert terms[k] == was[k];
        if terms[k] == 0 || terms[k] == id { return; }
        p := p + 1;
      }
      k := -1;
    }

    /** A new cell with the given word, whose DP0 goes to slot `at`. */
    method NewCell(w: Word, at: nat) returns (d: nat)
      requires Valid() && at < |heap|
      modifies this`heap
      ensures d == |old(heap)| && heap == (old(heap) + [w])[at := Port(false, d)]
    {
      d := |heap|;
      heap := heap + [w];
      heap := heap[at := Port(false, d)];
    }

    /** The use of t at dest; the caller stores the result there. */
    method LinearUse(t: Word, dest: nat) returns (w: Word)
      requires Valid()
      modifies this`heap, terms, entries
      ensures (Now(), w) == Use(old(Now()), t, dest)
    {
      if !t.Shared? { return t; }
      var k := FindEntry(t.id);
      if k == -1 { return t; }
      if terms[k] == 0 {
        terms[k] := t.id;
        entries[k] := Entry(dest, 0, 0, 0);
        return t;
      }
      var e := entries[k];
      if e.dup == 0 {
        if Stale(heap, e.first, t) {
          entries[k] := Entry(dest, 0, 0, 0);
          return t;
        }
        var dl := NewCell(t, e.first);
        entries[k] := Entry(e.first, dl, dest, dl);
        return Port(true, dl);
      }
      var expected := Port(true, if e.tailDup != 0 then e.tailDup else e.dup);
      if Stale(heap, e.tail, expected) {
        entries[k] := Entry(dest, 0, 0, 0);
        return t;
      }
      var nd := NewCell(expected, e.tail);
      entries[k] := Entry(e.first, e.dup, dest, nd);
      return Port(true, nd);
    }
  }
}
