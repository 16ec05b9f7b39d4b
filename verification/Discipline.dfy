/** Every operation on values keeps single ownership and the rules for references, and accounts for
    each cell it makes or uses up. */
module Discipline {
  import opened Heap
  import opened Store
  import opened Ownership
  import opened OwnershipSlots
  import opened Scopes

  ghost predicate Fine(s: Store) { Owned(s) && ScopeOk(s) }

  predicate SameScope(s: Store, r: Store) { r.tables == s.tables && r.ext == s.ext }

  /** The locals of s are in r, unchanged. */
  predicate KeepsTemps(s: Store, r: Store, but: set<Loc>) {
    forall l | l in Temps(s) && l !in but :: l in r.cells && r.cells[l] == s.cells[l]
  }

  /** r is s with one more local, which is no reference. */
  predicate Adds(s: Store, r: Store, l: Loc) {
    && SameScope(s, r) && KeepsTemps(s, r, {})
    && l !in s.cells && r.cells.Keys == s.cells.Keys + {l} && !r.cells[l].VRef?
  }

  /** r is s with local t used up. */
  predicate Uses(s: Store, r: Store, t: Loc) {
    && SameScope(s, r) && KeepsTemps(s, r, {t})
    && r.cells.Keys == s.cells.Keys - {t}
  }

  /** r is s with, perhaps, forgotten locals. */
  predicate Leaks(s: Store, r: Store) {
    && SameScope(s, r) && KeepsTemps(s, r, {})
    && s.cells.Keys <= r.cells.Keys
  }

  lemma AddsTemps(s: Store, r: Store, l: Loc)
    requires ScopeOk(s) && Adds(s, r, l)
    ensures Temps(r) == Temps(s) + {l} && l !in Temps(s) && Leaks(s, r)
  {
    LocsLive(s.tables, s.cells, s.ext);
  }

  lemma UsesTemps(s: Store, r: Store, t: Loc)
    requires Uses(s, r, t)
    ensures Temps(r) == Temps(s) - {t}
  {
  }

  lemma LeaksTemps(s: Store, r: Store)
    requires Leaks(s, r)
    ensures Temps(s) <= Temps(r)
  {
  }

  /** The slot is in what l holds; if it is l itself, a table or the C caller knows l. */
  ghost predicate SlotOf(s: Store, at: Slot, l: Loc)
    requires Fine(s)
  {
    && SlotIn(s, ForestOf(s), at, l) && !Get(s, at).VRef?
    && (at.SCell? ==> l in Locs(s.tables) + s.ext)
  }

  lemma LiveCells(s: Store)
    requires Fine(s)
    ensures Locs(s.tables) <= s.cells.Keys && s.ext <= s.cells.Keys && s.next !in s.cells
    ensures ForestOf(s).Keys == s.cells.Keys
  {
    LocsLive(s.tables, s.cells, s.ext);
  }

  // ---------------------------------------------------------------- making

  lemma FreshFine(s: Store, v: Value)
    requires Fine(s) && !Holds(v) && !v.VRef?
    ensures Fine(Fresh(s, v).0) && Adds(s, Fresh(s, v).0, s.next)
  {
    hide ForestBy, Scoped, Locs;
    LiveCells(s);
    FreshKeeps(s, ForestOf(s), v);
    ForestIs(Fresh(s, v).0, ForestOf(s)[s.next := Leaf(v)]);
    ScopeFrame(s, Fresh(s, v).0);
  }

  lemma NewBoxFine(s: Store, isMap: bool)
    requires Fine(s)
    ensures var (r, c) := NewBox(s, isMap);
            Fine(r) && Adds(s, r, c) && r.cells[c] == if isMap then VMap(c + 1) else VSeq(c + 1)
  {
    hide ForestBy, Scoped, Locs;
    LiveCells(s);
    var r := NewBox(s, isMap).0;
    NewBoxKeeps(s, ForestOf(s), isMap);
    ForestIs(r, ForestOf(s)[s.next := Node(s.next + 1, isMap, [], [])]);
    ScopeFrame(s, r);
  }

  lemma TakeFine(s: Store, at: Slot, l: Loc)
    requires Fine(s) && SlotOf(s, at, l)
    ensures Fine(Take(s, at).0) && Adds(s, Take(s, at).0, Take(s, at).1)
  {
    hide ForestBy, Scoped, Locs, Get, TreeAt, Wrote, HeapPatched, PutTree, Take, SlotOf;
    LiveCells(s);
    var r, F := Take(s, at).0, ForestOf(s);
    SlotParts(s, at, l);
    TakeWrites(s, F, at, l);
    TakeKeeps(s, F, at, l);
    ForestIs(r, TakeForest(s, F, at, l));
    CellOf(s, at, l);
    TakeScope(s, at);
    ScopeFrame(s, r);
  }

  lemma SlotParts(s: Store, at: Slot, l: Loc)
    requires Fine(s) && SlotOf(s, at, l)
    ensures SlotIn(s, ForestOf(s), at, l) && !Get(s, at).VRef?
    ensures at.SCell? ==> l in Locs(s.tables) + s.ext
  {
  }

  lemma TakeScope(s: Store, at: Slot)
    ensures SameScope(s, Take(s, at).0) && Take(s, at).1 == s.next
  {
  }

  lemma CellOf(s: Store, at: Slot, l: Loc)
    requires Fine(s) && SlotOf(s, at, l)
    ensures at.SCell? ==> at.loc == l && Get(s, at) == s.cells[l]
  {
  }

  lemma DupFine(s: Store, at: Slot, l: Loc)
    requires Fine(s) && SlotOf(s, at, l)
    ensures Fine(Dup(s, at).0) && Adds(s, Dup(s, at).0, Dup(s, at).1)
  {
    hide ForestBy, Scoped, Locs, Get, TreeAt, Copy;
    LiveCells(s);
    var (r, m) := Dup(s, at);
    var u := DupKeeps(s, ForestOf(s), at, l);
    ForestIs(r, ForestOf(s)[m := u]);
    CopyKind(s.heap, s.heap, s.next, Get(s, at));
    ScopeFrame(s, r);
  }

  lemma CopyKind(src: Heap, h: Heap, next: nat, v: Value)
    ensures !v.VRef? ==> !Copy(src, h, next, v).1.VRef?
  {
  }

  // ---------------------------------------------------------------- filling

  lemma ClearFine(s: Store, at: Slot, l: Loc)
    requires Fine(s) && SlotOf(s, at, l)
    ensures var r := Clear(s, at);
            && Fine(r) && SlotOf(r, at, l) && Get(r, at) == VNone && ForestOf(r) == ClearForest(s, ForestOf(s), at, l)
            && SameScope(s, r) && r.cells == s.cells[l := if at.SCell? then VNone else s.cells[l]]
  {
    hide ForestBy, Scoped, Locs, Get, TreeAt, PutTree, Wrote, HeapPatched, Clear, Logged;
    LiveCells(s);
    var r, F := Clear(s, at), ForestOf(s);
    ClearWrites(s, F, at, l);
    ClearKeeps(s, F, at, l);
    ForestIs(r, ClearForest(s, F, at, l));
    CellOf(s, at, l);
    ClearSame(s, at);
    ClearSlot(s, F, at, l);
    ScopeFrame(s, r);
  }

  lemma ClearSame(s: Store, at: Slot)
    ensures SameScope(s, Clear(s, at))
  {
  }

  /** The slot is still there once it is cleared. */
  lemma ClearSlot(s: Store, F: Forest, at: Slot, l: Loc)
    requires ForestBy(s, F) && SlotIn(s, F, at, l)
    ensures SlotIn(Clear(s, at), ClearForest(s, F, at, l), at, l)
  {
    hide ForestBy, Get, TreeAt, PutTree, HeapPatched, Clear, Logged, Ids;
    ClearWrites(s, F, at, l);
    SlotFacts(s, F, at, l);
    AtomTree(s.heap, VNone);
    PutTreeFits(s, F, at, l, Leaf(VNone));
  }

  lemma PutFine(s: Store, at: Slot, l: Loc, tmp: Loc)
    requires Fine(s) && SlotOf(s, at, l) && tmp in Temps(s) && tmp != l && !s.cells[tmp].VRef?
    ensures Fine(Put(s, at, tmp)) && Uses(s, Put(s, at, tmp), tmp)
  {
    hide ForestBy, Scoped, Locs, Get, TreeAt, PutTree, Wrote, HeapPatched, Clear, Fill, Fits;
    LiveCells(s);
    ClearFine(s, at, l);
    var s1, r := Clear(s, at), Put(s, at, tmp);
    var F := ForestOf(s1);
    FillWrites(s1, F, at, l, tmp);
    FillKeeps(s1, F, at, l, tmp);
    ForestIs(r, FillForest(s1, F, at, l, tmp));
    FillSame(s1, at, tmp);
    OneTree(s1, F, tmp);
    CellOf(s1, at, l);
    ScopeFrame(s1, r);
  }

  lemma FillSame(s: Store, at: Slot, tmp: Loc)
    ensures SameScope(s, Fill(s, at, tmp))
  {
  }

  lemma AddKidFine(s: Store, id: Id, l: Loc, key: Sym, tmp: Loc)
    requires Fine(s) && l in s.cells && id in Ids(ForestOf(s)[l])
    requires tmp in Temps(s) && tmp != l && !s.cells[tmp].VRef?
    ensures Fine(AddKid(s, id, key, tmp)) && Uses(s, AddKid(s, id, key, tmp), tmp)
    ensures AddKid(s, id, key, tmp).cells == s.cells - {tmp}
  {
    hide ForestBy, Scoped, Locs, AddKid, Ids;
    LiveCells(s);
    var r, F := AddKid(s, id, key, tmp), ForestOf(s);
    OneTree(s, F, l);
    AddKidFacts(s, id, key, tmp);
    AddKidKeeps(s, F, id, l, key, tmp);
    ForestIs(r, AddForest(F, id, l, key, tmp));
    ScopeFrame(s, r);
  }

  // ---------------------------------------------------------------- finding

  lemma VariableFine(s: Store, k: nat, x: Sym)
    requires Fine(s) && k <= |s.tables| && Resolve(s, k, x).Some?
    ensures var l := Resolve(s, k, x).value;
            SlotOf(s, SCell(l), l) && l in Locs(s.tables) + s.ext
  {
    hide ForestBy, Scoped, Locs;
    LiveCells(s);
    ResolveFacts(s, k, x);
  }

  /** A container found in a slot belongs to the slot's variable. */
  lemma ContainerIn(s: Store, at: Slot, l: Loc)
    requires Fine(s) && SlotIn(s, ForestOf(s), at, l) && Holds(Get(s, at))
    ensures var id := Get(s, at).id;
            && id in Ids(ForestOf(s)[l]) && id in s.heap && s.heap[id].isMap == Get(s, at).VMap?
            && |s.heap[id].keys| == (if s.heap[id].isMap then |s.heap[id].vals| else 0)
  {
    hide ForestBy, Scoped, Get, TreeAt;
    SlotFacts(s, ForestOf(s), at, l);
    ContainerTree(s.heap, Get(s, at), TreeAt(s, ForestOf(s), at, l));
  }

  lemma ContainerTree(h: Heap, v: Value, t: Tree)
    requires Rep(h, v, t) && Holds(v)
    ensures v.id in Ids(t) && v.id in h && h[v.id].isMap == v.VMap?
    ensures |h[v.id].keys| == (if v.VMap? then |h[v.id].vals| else 0)
  {
  }

  /** An entry of a container in l is a slot of l. */
  lemma KidSlot(s: Store, id: Id, i: nat, l: Loc)
    requires Fine(s) && l in s.cells && id in Ids(ForestOf(s)[l]) && id in s.heap && i < |s.heap[id].vals|
    ensures SlotOf(s, SKid(id, i), l) && Deref(s, SKid(id, i)) == SKid(id, i)
  {
    hide ForestBy, Scoped, TreeAt, Ids;
    LiveCells(s);
    SlotFacts(s, ForestOf(s), SKid(id, i), l);
  }

  lemma EntryFine(s: Store, at: Slot, l: Loc, sym: Sym)
    requires Fine(s) && SlotIn(s, ForestOf(s), at, l) && Entry(s, at, sym).Some?
    ensures Entry(s, at, sym).value.SKid? && SlotOf(s, Entry(s, at, sym).value, l)
  {
    hide ForestBy, Scoped, SlotOf, SlotIn, Ids, Get, Deref;
    LiveCells(s);
    assert l in s.cells by { SlotHas(s, at, l); }
    ContainerIn(s, at, l);
    var id := Get(s, at).id;
    KidSlot(s, id, FindKey(s.heap[id].keys, sym), l);
  }

  lemma SlotHas(s: Store, at: Slot, l: Loc)
    requires Fine(s) && SlotIn(s, ForestOf(s), at, l)
    ensures l in s.cells
  {
  }

  lemma {:induction false} WalkFine(s: Store, at: Slot, l: Loc, path: seq<Sym>)
    requires Fine(s) && SlotOf(s, at, l) && Walk(s, at, path).Some?
    ensures SlotOf(s, Walk(s, at, path).value, l)
    decreases |path|
  {
    if path == [] {
    } else {
      EntryFine(s, at, l, path[0]);
      WalkFine(s, Entry(s, at, path[0]).value, l, path[1..]);
    }
  }

  // ---------------------------------------------------------------- new entries

  lemma SetKeyFine(s: Store, id: Id, l: Loc, sym: Sym, tmp: Loc)
    requires Fine(s) && l in s.cells && id in Ids(ForestOf(s)[l]) && id in s.heap
    requires s.heap[id].isMap && |s.heap[id].keys| == |s.heap[id].vals|
    requires tmp in Temps(s) && tmp != l && !s.cells[tmp].VRef?
    ensures Fine(SetKey(s, id, sym, tmp)) && Uses(s, SetKey(s, id, sym, tmp), tmp)
  {
    hide ForestBy, Scoped, SlotOf, SlotIn, Ids, Put, AddKid, Uses, Deref;
    var i := FindKey(s.heap[id].keys, sym);
    if i < |s.heap[id].keys| {
      KidSlot(s, id, i, l);
      PutFine(s, SKid(id, i), l, tmp);
    } else {
      AddKidFine(s, id, l, sym, tmp);
    }
  }
}
