/** What the moving operations do to the forest. */
module OwnershipSlots {
  import opened Heap
  import opened Store
  import opened Ownership

  /** The slot is the variable l itself, or an entry somewhere inside what it holds. */
  ghost predicate SlotIn(s: Store, F: Forest, at: Slot, l: Loc) {
    l in F &&
    match at
    case SCell(m) => m == l
    case SKid(id, i) => id in Ids(F[l]) && id in s.heap && i < |s.heap[id].vals|
  }

  ghost function TreeAt(s: Store, F: Forest, at: Slot, l: Loc): (t: Tree)
    requires ForestBy(s, F) && SlotIn(s, F, at, l)
  {
    match at
    case SCell(_) => F[l]
    case SKid(id, i) =>
      SubFacts(s.heap, s.cells[l], F[l], id);
      Sub(F[l], id).kids[i]
  }

  /** The tree of l once the slot holds u. */
  ghost function PutTree(s: Store, F: Forest, at: Slot, l: Loc, u: Tree): (t: Tree)
    requires ForestBy(s, F) && SlotIn(s, F, at, l)
  {
    match at
    case SCell(_) => u
    case SKid(id, i) =>
      SubFacts(s.heap, s.cells[l], F[l], id);
      var n := Sub(F[l], id);
      Graft(F[l], id, n.(kids := n.kids[i := u]))
  }

  lemma SlotFacts(s: Store, F: Forest, at: Slot, l: Loc)
    requires ForestBy(s, F) && SlotIn(s, F, at, l)
    ensures var t := TreeAt(s, F, at, l);
            && Rep(s.heap, Get(s, at), t) && Sound(t) && Ids(t) <= Ids(F[l]) <= s.heap.Keys
            && Root(t) == Get(s, at)
            && (at.SKid? ==> at.id !in Ids(t) && !Get(s, at).VRef?)
  {
    HeldAll(s, F, l);
    var t := TreeAt(s, F, at, l);
    if at.SKid? {
      SubFacts(s.heap, s.cells[l], F[l], at.id);
      var n := Sub(F[l], at.id);
      SoundKids(n);
      KidIds(n, at.idx);
    }
    RepIds(s.heap, Get(s, at), t);
  }

  /** u can go in the slot. */
  ghost predicate Fits(s: Store, F: Forest, at: Slot, l: Loc, u: Tree)
    requires ForestBy(s, F) && SlotIn(s, F, at, l)
  {
    && Sound(u)
    && Ids(u) !! Ids(F[l]) - Ids(TreeAt(s, F, at, l))
    && (at.SKid? ==> !Root(u).VRef?)
  }

  lemma PutTreeFits(s: Store, F: Forest, at: Slot, l: Loc, u: Tree)
    requires ForestBy(s, F) && SlotIn(s, F, at, l) && Fits(s, F, at, l, u)
    ensures var t := PutTree(s, F, at, l, u);
            Sound(t) && Ids(t) == (Ids(F[l]) - Ids(TreeAt(s, F, at, l))) + Ids(u)
  {
    SlotFacts(s, F, at, l);
    if at.SKid? {
      SubFacts(s.heap, s.cells[l], F[l], at.id);
      PutKidFits(F[l], at.id, at.idx, u);
    }
  }

  lemma PutKidFits(t: Tree, id: Id, i: nat, u: Tree)
    requires Sound(t) && id in Ids(t)
    requires var n := Sub(t, id);
             Sound(n) && id in Ids(n) && Ids(n) <= Ids(t) && i < |n.kids|
             && Sound(u) && !Root(u).VRef? && Ids(u) !! Ids(t) - Ids(n.kids[i])
    ensures var n := Sub(t, id); var g := Graft(t, id, n.(kids := n.kids[i := u]));
            Sound(g) && Ids(g) == (Ids(t) - Ids(n.kids[i])) + Ids(u)
  {
    var n := Sub(t, id);
    KidIds(n, i);
    SoundKids(n);
    SoundStep(n, i, u);
    var m := n.(kids := n.kids[i := u]);
    UpdateIds(n.kids, i, u);
    assert Ids(m) == {id} + IdsOf(n.kids[i := u]);
    PutKidSets(id, Ids(t), Ids(n), IdsOf(n.kids), Ids(n.kids[i]), Ids(u), Ids(m));
    GraftIds(t, id, m);
    GraftSound(t, id, m);
  }

  lemma PutKidSets(id: Id, all: set<Id>, sub: set<Id>, kids: set<Id>, kid: set<Id>, u: set<Id>, m: set<Id>)
    requires sub <= all && sub == {id} + kids && id !in kids && kid <= kids
    requires u !! all - kid && m == {id} + ((kids - kid) + u)
    ensures m !! all - sub
    ensures (all - sub) + m == (all - kid) + u
  {
  }

  /** g is the heap after writing u in the slot. */
  ghost predicate Wrote(s: Store, F: Forest, at: Slot, l: Loc, u: Tree, g: Heap)
    requires ForestBy(s, F) && SlotIn(s, F, at, l)
  {
    && Rep(g, Root(u), u)
    && (forall x | x in Ids(F[l]) && x !in Ids(TreeAt(s, F, at, l)) && (at.SCell? || x != at.id) ::
          x in g && x in s.heap && g[x] == s.heap[x])
    && (at.SKid? ==> at.id in g && g[at.id] == s.heap[at.id].(vals := s.heap[at.id].vals[at.idx := Root(u)]))
  }

  lemma PutTreeRep(s: Store, F: Forest, at: Slot, l: Loc, u: Tree, g: Heap)
    requires ForestBy(s, F) && SlotIn(s, F, at, l) && Wrote(s, F, at, l, u, g)
    ensures Rep(g, if at.SCell? then Root(u) else s.cells[l], PutTree(s, F, at, l, u))
  {
    if at.SKid? {
      var id, i := at.id, at.idx;
      SubFacts(s.heap, s.cells[l], F[l], id);
      var n := Sub(F[l], id);
      var m := n.(kids := n.kids[i := u]);
      SlotFacts(s, F, at, l);
      KidRep(s.heap, g, n, i, u);
      KidIds(n, i);
      hide Rep, Ids, Sound, Graft;
      GraftRep(s.heap, g, s.cells[l], F[l], id, m);
    }
  }

  /** A container with one entry replaced. */
  lemma KidRep(h: Heap, g: Heap, n: Tree, i: nat, u: Tree)
    requires n.Node? && Rep(h, Root(n), n) && Sound(n) && i < |n.kids| && Rep(g, Root(u), u)
    requires n.id in h && n.id in g && i < |h[n.id].vals| && g[n.id] == h[n.id].(vals := h[n.id].vals[i := Root(u)])
    requires forall x | x in Ids(n) && x !in Ids(n.kids[i]) && x != n.id :: x in g && x in h && g[x] == h[x]
    ensures var m := n.(kids := n.kids[i := u]); Rep(g, Root(m), m) && Root(m) == Root(n)
  {
    SoundKids(n);
    forall j | 0 <= j < |n.kids| && j != i ensures Rep(g, g[n.id].vals[j], n.kids[j]) {
      KidIds(n, j);
      assert Ids(n.kids[j]) !! Ids(n.kids[i]);
      RepFrame(h, g, h[n.id].vals[j], n.kids[j]);
    }
  }

  // ---------------------------------------------------------------- the operations

  ghost function ClearForest(s: Store, F: Forest, at: Slot, l: Loc): (G: Forest)
    requires ForestBy(s, F) && SlotIn(s, F, at, l)
  {
    F[l := PutTree(s, F, at, l, Leaf(VNone))]
  }

  /** The variable's own value changes only when the slot is the variable. */
  ghost predicate CellWritten(s: Store, r: Store, at: Slot, l: Loc, u: Tree) {
    && l in s.cells && s.next <= r.next
    && r.cells == s.cells[l := if at.SCell? then Root(u) else s.cells[l]]
  }

  /** The store around a slot that is written. */
  ghost predicate RawWritten(s: Store, r: Store, at: Slot, v: Value) {
    && r == s.(cells := r.cells, heap := r.heap)
    && r.cells == (if at.SCell? then s.cells[at.loc := v] else s.cells)
    && r.heap.Keys == s.heap.Keys
    && (forall x | x in s.heap && (at.SCell? || x != at.id) :: r.heap[x] == s.heap[x])
    && (at.SKid? ==>
          && at.id in s.heap && at.idx < |s.heap[at.id].vals|
          && r.heap[at.id] == s.heap[at.id].(vals := s.heap[at.id].vals[at.idx := v]))
  }

  lemma RawWrites(s: Store, at: Slot, v: Value)
    requires match at
             case SCell(l) => l in s.cells
             case SKid(id, i) => id in s.heap && i < |s.heap[id].vals|
    ensures RawWritten(s, SetRaw(s, at, v), at, v)
    ensures Get(SetRaw(s, at, v), at) == v
  {
  }

  lemma AtomTree(h: Heap, v: Value)
    requires !Holds(v)
    ensures Rep(h, v, Leaf(v)) && Sound(Leaf(v)) && Ids(Leaf(v)) == {}
  {
  }

  lemma ClearWrites(s: Store, F: Forest, at: Slot, l: Loc)
    requires ForestBy(s, F) && SlotIn(s, F, at, l)
    ensures var r, t, u := Clear(s, at), TreeAt(s, F, at, l), Leaf(VNone);
            && CellWritten(s, r, at, l, u) && Wrote(s, F, at, l, u, r.heap) && Get(r, at) == VNone
            && HeapPatched(s, r, Ids(F[l]), Ids(F[l]) - Ids(t))
            && Logged(s, r, Ids(F[l]), Ids(F[l]) - Ids(t), Fin(s.heap, Get(s, at)).1)
  {
    hide Rep, Sound, Ids, ForestBy, TreeAt, PutTree, Fin, HeapPatched, SetRaw, Get, Named;
    SlotFacts(s, F, at, l);
    Basics(s, F);
    var t, s1, r := TreeAt(s, F, at, l), Finalise(s, Get(s, at)), Clear(s, at);
    AtomTree(r.heap, VNone);
    FinTree(s.heap, Get(s, at), t);
    RawWrites(s1, at, VNone);
    LessPatched(s, r, Ids(F[l]), Ids(t));
  }

  lemma ClearKeeps(s: Store, F: Forest, at: Slot, l: Loc)
    requires ForestBy(s, F) && SlotIn(s, F, at, l)
    ensures ForestBy(Clear(s, at), ClearForest(s, F, at, l))
    ensures Get(Clear(s, at), at) == VNone
  {
    hide Rep, Sound, Ids, ForestBy, TreeAt, PutTree, HeapPatched, Clear, SlotIn, Wrote, Logged, Get;
    SlotFacts(s, F, at, l);
    Basics(s, F);
    var t, u, r := TreeAt(s, F, at, l), Leaf(VNone), Clear(s, at);
    AtomTree(r.heap, VNone);
    ClearWrites(s, F, at, l);
    PartSets(Ids(F[l]), Ids(t));
    PutTreeFits(s, F, at, l, u);
    PutTreeRep(s, F, at, l, u, r.heap);
    PatchOne(s, F, r, l, PutTree(s, F, at, l, u), Fin(s.heap, Get(s, at)).1);
  }

  ghost function FillForest(s: Store, F: Forest, at: Slot, l: Loc, tmp: Loc): (G: Forest)
    requires ForestBy(s, F) && SlotIn(s, F, at, l) && tmp in F
  {
    F[l := PutTree(s, F, at, l, F[tmp])] - {tmp}
  }

  lemma FillWrites(s: Store, F: Forest, at: Slot, l: Loc, tmp: Loc)
    requires ForestBy(s, F) && SlotIn(s, F, at, l) && tmp in F && tmp != l
    requires Get(s, at) == VNone && !s.cells[tmp].VRef?
    ensures var r, t, u := Fill(s, at, tmp), TreeAt(s, F, at, l), F[tmp];
            && r.cells == s.cells[l := if at.SCell? then Root(u) else s.cells[l]] - {tmp}
            && r.next == s.next && r.freed == s.freed
            && Ids(t) == {} && Fits(s, F, at, l, u) && Wrote(s, F, at, l, u, r.heap)
            && HeapPatched(s, r, Ids(F[l]) + Ids(u), (Ids(F[l]) - Ids(t)) + Ids(u))
  {
    hide Rep, Sound, Ids, ForestBy, TreeAt, PutTree, HeapPatched, SetRaw, Get;
    SlotFacts(s, F, at, l);
    Basics(s, F);
    var r, t, u := Fill(s, at, tmp), TreeAt(s, F, at, l), F[tmp];
    RepIsLeaf(s.heap, VNone, t);
    OneTree(s, F, tmp);
    TwoTrees(s, F, tmp, l);
    RawWrites(s, at, s.cells[tmp]);
    SamePatched(s, r, Ids(F[l]) + Ids(u), (Ids(F[l]) - Ids(t)) + Ids(u));
    RepFrame(s.heap, r.heap, s.cells[tmp], u);
  }

  lemma RepIsLeaf(h: Heap, v: Value, t: Tree)
    requires Rep(h, v, t) && !Holds(v)
    ensures Ids(t) == {}
  {
  }

  lemma OneTree(s: Store, F: Forest, l: Loc)
    requires ForestBy(s, F) && l in F
    ensures Rep(s.heap, s.cells[l], F[l]) && Sound(F[l]) && Root(F[l]) == s.cells[l]
    ensures Ids(F[l]) <= s.heap.Keys
  {
    RepIds(s.heap, s.cells[l], F[l]);
  }

  lemma TwoTrees(s: Store, F: Forest, l: Loc, m: Loc)
    requires ForestBy(s, F) && l in F && m in F && l != m
    ensures Ids(F[l]) !! Ids(F[m])
  {
  }

  lemma FillKeeps(s: Store, F: Forest, at: Slot, l: Loc, tmp: Loc)
    requires ForestBy(s, F) && SlotIn(s, F, at, l) && tmp in F && tmp != l
    requires Get(s, at) == VNone && !s.cells[tmp].VRef?
    ensures ForestBy(Fill(s, at, tmp), FillForest(s, F, at, l, tmp))
  {
    hide Rep, Sound, Ids, ForestBy, TreeAt, PutTree, HeapPatched, Fill, Get, Fits, Wrote;
    Basics(s, F);
    var r, u := Fill(s, at, tmp), F[tmp];
    FillWrites(s, F, at, l, tmp);
    PutTreeFits(s, F, at, l, u);
    PutTreeRep(s, F, at, l, u, r.heap);
    PatchMerge(s, F, r, l, PutTree(s, F, at, l, u), tmp);
  }

  ghost function TakeForest(s: Store, F: Forest, at: Slot, l: Loc): (G: Forest)
    requires ForestBy(s, F) && SlotIn(s, F, at, l)
  {
    ClearForest(s, F, at, l)[s.next := TreeAt(s, F, at, l)]
  }

  lemma TakeWrites(s: Store, F: Forest, at: Slot, l: Loc)
    requires ForestBy(s, F) && SlotIn(s, F, at, l)
    ensures var r, t, u := Take(s, at).0, TreeAt(s, F, at, l), Leaf(VNone);
            && r.cells == s.cells[l := if at.SCell? then VNone else s.cells[l]][s.next := Get(s, at)]
            && r.next == s.next + 1 && r.freed == s.freed
            && Rep(r.heap, Get(s, at), t) && Wrote(s, F, at, l, u, r.heap)
            && HeapPatched(s, r, Ids(F[l]), (Ids(F[l]) - Ids(t)) + Ids(t))
  {
    hide Rep, Sound, Ids, ForestBy, TreeAt, PutTree, HeapPatched, SetRaw, Get;
    SlotFacts(s, F, at, l);
    Basics(s, F);
    var r, t := Take(s, at).0, TreeAt(s, F, at, l);
    RawWrites(s, at, VNone);
    AtomTree(r.heap, VNone);
    SamePatched(s, r, Ids(F[l]), (Ids(F[l]) - Ids(t)) + Ids(t));
    RepFrame(s.heap, r.heap, Get(s, at), t);
  }

  lemma TakeKeeps(s: Store, F: Forest, at: Slot, l: Loc)
    requires ForestBy(s, F) && SlotIn(s, F, at, l)
    ensures ForestBy(Take(s, at).0, TakeForest(s, F, at, l))
  {
    hide Rep, Sound, Ids, ForestBy, TreeAt, PutTree, HeapPatched, Take, Get, Wrote;
    SlotFacts(s, F, at, l);
    Basics(s, F);
    var t, u := TreeAt(s, F, at, l), Leaf(VNone);
    var r := Take(s, at).0;
    AtomTree(r.heap, VNone);
    TakeWrites(s, F, at, l);
    PartSets(Ids(F[l]), Ids(t));
    PutTreeFits(s, F, at, l, u);
    PutTreeRep(s, F, at, l, u, r.heap);
    PatchSplit(s, F, r, l, PutTree(s, F, at, l, u), s.next, t);
  }

  lemma FreshKeeps(s: Store, F: Forest, v: Value)
    requires ForestBy(s, F) && !Holds(v)
    ensures ForestBy(Fresh(s, v).0, F[s.next := Leaf(v)])
  {
    Basics(s, F);
    assert Rep(s.heap, v, Leaf(v)) && Sound(Leaf(v)) && Ids(Leaf(v)) == {};
    hide Rep, Sound, Ids, ForestBy;
    PatchOne(s, F, Fresh(s, v).0, s.next, Leaf(v), []);
  }

  lemma NewBoxKeeps(s: Store, F: Forest, isMap: bool)
    requires ForestBy(s, F)
    ensures ForestBy(NewBox(s, isMap).0, F[s.next := Node(s.next + 1, isMap, [], [])])
  {
    hide Rep, Sound, Ids, ForestBy;
    Basics(s, F);
    var t, r := Node(s.next + 1, isMap, [], []), NewBox(s, isMap).0;
    EmptyTree(r.heap, t);
    PatchOne(s, F, r, s.next, t, []);
  }

  lemma EmptyTree(h: Heap, t: Tree)
    requires t.Node? && t.keys == [] && t.kids == [] && t.id in h && h[t.id] == Obj(t.isMap, [], [])
    ensures Rep(h, Root(t), t) && Sound(t) && Ids(t) == {t.id}
  {
    assert IdsOf([]) == {};
  }

  /** Copying leaves the forest as it was and adds a tree of the same shape and values. */
  lemma DupKeeps(s: Store, F: Forest, at: Slot, l: Loc) returns (u: Tree)
    requires ForestBy(s, F) && SlotIn(s, F, at, l)
    ensures ForestBy(Dup(s, at).0, F[Dup(s, at).1 := u]) && Dup(s, at).1 !in F
    ensures Strip(u) == Strip(TreeAt(s, F, at, l))
  {
    hide Rep, Sound, Ids, ForestBy, TreeAt, Copy, Strip, HeapPatched, Get, SlotIn;
    SlotFacts(s, F, at, l);
    Basics(s, F);
    u := CopyTree(s.heap, s.heap, s.next, Get(s, at), TreeAt(s, F, at, l));
    var (r, m) := Dup(s, at);
    MorePatched(s, r, Ids(u));
    PatchOne(s, F, r, m, u, []);
  }

  lemma DropKeeps(s: Store, F: Forest, l: Loc)
    requires ForestBy(s, F)
    ensures ForestBy(Drop(s, l), F - {l})
  {
    hide Rep, Sound, Ids, ForestBy, Fin, HeapPatched;
    Basics(s, F);
    if l in s.cells {
      OneTree(s, F, l);
      FinTree(s.heap, s.cells[l], F[l]);
      assert Ids(F[l]) - Ids(F[l]) == {};
      LessPatched(s, Drop(s, l), Ids(F[l]), Ids(F[l]));
      PatchGone(s, F, Drop(s, l), l, Fin(s.heap, s.cells[l]).1);
    } else {
      assert F - {l} == F;
    }
  }

  // ---------------------------------------------------------------- a new entry

  ghost function GrownNode(n: Tree, key: Sym, u: Tree): (m: Tree)
    requires n.Node?
  {
    if n.isMap then n.(keys := [key] + n.keys, kids := [u] + n.kids) else n.(kids := n.kids + [u])
  }

  ghost function AddForest(F: Forest, id: Id, l: Loc, key: Sym, tmp: Loc): (G: Forest)
    requires l in F && tmp in F && id in Ids(F[l])
  {
    F[l := Graft(F[l], id, GrownNode(Sub(F[l], id), key, F[tmp]))] - {tmp}
  }

  lemma AddKidKeeps(s: Store, F: Forest, id: Id, l: Loc, key: Sym, tmp: Loc)
    requires ForestBy(s, F) && l in F && id in Ids(F[l])
    requires tmp in F && tmp != l && !s.cells[tmp].VRef?
    ensures ForestBy(AddKid(s, id, key, tmp), AddForest(F, id, l, key, tmp))
  {
    hide Rep, Sound, Ids, ForestBy, Sub, Graft, HeapPatched, GrownNode, AddKid;
    Basics(s, F);
    OneTree(s, F, l);
    OneTree(s, F, tmp);
    TwoTrees(s, F, l, tmp);
    var r, t, u := AddKid(s, id, key, tmp), F[l], F[tmp];
    SubFacts(s.heap, s.cells[l], t, id);
    var n := Sub(t, id);
    var m := GrownNode(n, key, u);
    AddKidFacts(s, id, key, tmp);
    GrownSound(n, key, u);
    GrownRoot(n, key, u);
    GrownRep(s, r, id, n, key, u, tmp);
    SamePatched(s, r, Ids(t) + Ids(u), (Ids(t) - Ids(n)) + (Ids(n) + Ids(u)));
    GraftIds(t, id, m);
    GraftSound(t, id, m);
    GraftRep(s.heap, r.heap, s.cells[l], t, id, m);
    PatchMerge(s, F, r, l, Graft(t, id, m), tmp);
  }

  lemma AddKidFacts(s: Store, id: Id, key: Sym, tmp: Loc)
    requires tmp in s.cells && id in s.heap
    ensures var r := AddKid(s, id, key, tmp);
            && r == s.(cells := s.cells - {tmp}, heap := r.heap) && r.heap.Keys == s.heap.Keys
            && forall x | x in s.heap && x != id :: r.heap[x] == s.heap[x]
  {
  }

  lemma GrownRoot(n: Tree, key: Sym, u: Tree)
    requires n.Node?
    ensures Root(GrownNode(n, key, u)) == Root(n) && GrownNode(n, key, u).Node?
  {
  }

  lemma GrownSound(n: Tree, key: Sym, u: Tree)
    requires n.Node? && Sound(n) && Sound(u) && !Root(u).VRef? && Ids(u) !! Ids(n)
    ensures Sound(GrownNode(n, key, u)) && Ids(GrownNode(n, key, u)) == Ids(n) + Ids(u)
  {
    SoundKids(n);
    var kids := GrownNode(n, key, u).kids;
    hide Sound, Ids;
    assert IdsOf(kids) == IdsOf(n.kids) + Ids(u) && Disjoint(kids) by {
      GrownKids(n.kids, u, kids, n.isMap);
    }
    GrownIsSound(n, GrownNode(n, key, u));
  }

  lemma GrownIsSound(n: Tree, m: Tree)
    requires n.Node? && m.Node? && m.id == n.id && n.id !in IdsOf(m.kids) && Disjoint(m.kids)
    requires forall i | 0 <= i < |m.kids| :: Sound(m.kids[i]) && !Root(m.kids[i]).VRef?
    ensures Sound(m) && Ids(m) == {n.id} + IdsOf(m.kids)
  {
  }

  lemma GrownKids(ts: seq<Tree>, u: Tree, kids: seq<Tree>, front: bool)
    requires Disjoint(ts) && Ids(u) !! IdsOf(ts)
    requires kids == if front then [u] + ts else ts + [u]
    ensures IdsOf(kids) == IdsOf(ts) + Ids(u) && Disjoint(kids)
  {
    hide Ids;
    GrownIds(ts, u, kids, front);
    forall i | 0 <= i < |ts| ensures Ids(ts[i]) !! Ids(u) {
      assert Ids(ts[i]) <= IdsOf(ts);
    }
  }

  lemma GrownIds(ts: seq<Tree>, u: Tree, kids: seq<Tree>, front: bool)
    requires kids == if front then [u] + ts else ts + [u]
    ensures IdsOf(kids) == IdsOf(ts) + Ids(u)
  {
    hide Ids;
    forall x | x in IdsOf(ts) + Ids(u) ensures x in IdsOf(kids) {
      if x in Ids(u) {
        assert x in Ids(kids[if front then 0 else |ts|]);
      } else {
        var i :| 0 <= i < |ts| && x in Ids(ts[i]);
        assert x in Ids(kids[if front then i + 1 else i]);
      }
    }
    forall x | x in IdsOf(kids) ensures x in IdsOf(ts) + Ids(u) {
      var i :| 0 <= i < |kids| && x in Ids(kids[i]);
      var k := if front then i - 1 else i;
      if 0 <= k < |ts| { assert kids[i] == ts[k]; }
    }
  }

  lemma GrownRep(s: Store, r: Store, id: Id, n: Tree, key: Sym, u: Tree, tmp: Loc)
    requires n.Node? && n.id == id && Rep(s.heap, Root(n), n) && Sound(n)
    requires tmp in s.cells && Rep(s.heap, s.cells[tmp], u) && Root(u) == s.cells[tmp] && Ids(u) !! Ids(n)
    requires r == AddKid(s, id, key, tmp)
    ensures Rep(r.heap, Root(GrownNode(n, key, u)), GrownNode(n, key, u))
  {
    SoundKids(n);
    RepIds(s.heap, s.cells[tmp], u);
    RepFrame(s.heap, r.heap, s.cells[tmp], u);
    forall i | 0 <= i < |n.kids| ensures Rep(r.heap, s.heap[id].vals[i], n.kids[i]) {
      KidIds(n, i);
      RepIds(s.heap, s.heap[id].vals[i], n.kids[i]);
      RepFrame(s.heap, r.heap, s.heap[id].vals[i], n.kids[i]);
    }
  }
}
