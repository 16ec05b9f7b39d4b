/** The interpreter's pointers implement plain values: what each operation does to cells, heap and
    addresses is, seen through the forest, what it means for values. */
module ValueRefinement {
  import opened Wrappers
  import opened Heap
  import opened Store
  import opened Language
  import opened Ownership
  import opened OwnershipSlots
  import opened Scopes
  import opened Discipline
  import opened Statements
  import opened Paths
  import opened PathTheorems
  import opened PathLaws
  import V = ValueSemantics

  /** What a cell holds, as a value. */
  ghost function PlainOf(s: Store, l: Loc): (p: Plain)
    requires Fine(s) && l in s.cells
  {
    Strip(TreeOf(s, l))
  }

  /** The store as a world: the cells a table or the C caller knows, and what they hold. */
  ghost function Known(s: Store): (w: V.World)
    requires Fine(s)
  {
    V.World(s.tables, map l | l in s.cells && l in Locs(s.tables) + s.ext :: PlainOf(s, l))
  }

  lemma KnownCell(s: Store, l: Loc)
    requires Fine(s) && l in Locs(s.tables) + s.ext
    ensures l in s.cells && V.Content(Known(s), l) == PlainOf(s, l)
  {
    LiveCells(s);
  }

  /** Cells other than `but` hold the very trees they held. */
  ghost predicate TreesKept(s: Store, r: Store, but: set<Loc>) {
    && Fine(s) && Fine(r)
    && forall l | l in s.cells && l !in but :: l in r.cells && TreeOf(r, l) == TreeOf(s, l)
  }

  lemma KnownIs(s: Store)
    requires Fine(s)
    ensures Known(s).tables == s.tables && Known(s).cells.Keys == Locs(s.tables) + s.ext
    ensures Locs(s.tables) + s.ext <= s.cells.Keys
    ensures forall l | l in Locs(s.tables) + s.ext :: l in s.cells && Known(s).cells[l] == PlainOf(s, l)
  {
    LiveCells(s);
  }

  lemma KeptPlain(s: Store, r: Store, but: set<Loc>, l: Loc)
    requires TreesKept(s, r, but) && l in s.cells && l !in but
    ensures l in r.cells && PlainOf(r, l) == PlainOf(s, l)
  {
  }

  lemma KnownKept(s: Store, r: Store, but: set<Loc>, l: Loc)
    requires SameScope(s, r) && TreesKept(s, r, but) && l in Locs(s.tables) + s.ext && l !in but
    ensures l in Known(s).cells && l in Known(r).cells && Known(r).cells[l] == Known(s).cells[l]
  {
    KnownIs(s);
    KnownIs(r);
    hide Known, PlainOf, Locs, TreesKept, Fine;
    KeptPlain(s, r, but, l);
  }

  lemma KnownSame(s: Store, r: Store)
    requires SameScope(s, r) && TreesKept(s, r, Temps(s))
    ensures Known(r) == Known(s)
  {
    hide Known, Locs, TreesKept, Fine, Temps;
    KnownFits(s, r, Temps(s));
    forall l | l in Known(s).cells ensures Known(r).cells[l] == Known(s).cells[l] {
      KnownNotTemp(s, l);
      KnownKept(s, r, Temps(s), l);
    }
  }

  lemma KnownFits(s: Store, r: Store, but: set<Loc>)
    requires SameScope(s, r) && TreesKept(s, r, but)
    ensures Fine(s) && Fine(r)
    ensures forall l | l in Locs(s.tables) + s.ext ::
              l in r.cells ==> l in Known(r).cells && Known(r).cells[l] == PlainOf(r, l)
    ensures Known(s).tables == Known(r).tables && Known(s).cells.Keys == Known(r).cells.Keys == Locs(s.tables) + s.ext
  {
    KnownIs(s);
    KnownIs(r);
  }

  lemma KnownHolds(s: Store, r: Store, l: Loc)
    requires SameScope(s, r) && TreesKept(s, r, Temps(s) + {l})
    requires l in Locs(s.tables) + s.ext && l in r.cells
    ensures Known(r) == V.Hold(Known(s), l, PlainOf(r, l))
  {
    hide Known, PlainOf, Locs, TreesKept, Fine, Temps;
    KnownFits(s, r, Temps(s) + {l});
    forall m | m in Known(s).cells && m != l ensures Known(r).cells[m] == Known(s).cells[m] {
      KnownNotTemp(s, m);
      KnownKept(s, r, Temps(s) + {l}, m);
    }
    assert Known(r).cells == Known(s).cells[l := PlainOf(r, l)];
  }

  // ---------------------------------------------------------------- trees and plain values

  function Syms(path: seq<Sym>): (keys: seq<Value>)
    ensures |keys| == |path| && forall i | 0 <= i < |path| :: keys[i] == VSym(path[i])
  {
    seq(|path|, i requires 0 <= i < |path| => VSym(path[i]))
  }

  lemma SymsParts(path: seq<Sym>, last: Sym)
    ensures path != [] ==> Syms(path)[0] == VSym(path[0]) && Syms(path)[1..] == Syms(path[1..])
    ensures Syms(path + [last]) == Syms(path) + [VSym(last)]
  {
  }

  lemma {:induction false} WalkReach(s: Store, at: Slot, path: seq<Sym>)
    ensures Walk(s, at, path) == Reach(s, at, Syms(path))
    decreases |path|
  {
    SymsParts(path, 0);
    if path != [] && Entry(s, at, path[0]).Some? {
      WalkReach(s, Entry(s, at, path[0]).value, path[1..]);
    }
  }

  lemma StripNode(t: Tree)
    requires t.Node?
    ensures Strip(t).PNode? && Strip(t).isMap == t.isMap && Strip(t).keys == t.keys && |Strip(t).kids| == |t.kids|
    ensures forall i | 0 <= i < |t.kids| :: Strip(t).kids[i] == Strip(t.kids[i])
  {
  }

  lemma StripKid(t: Tree, i: nat, u: Tree)
    requires t.Node? && i < |t.kids|
    ensures Strip(t).PNode? && |Strip(t).kids| == |t.kids|
    ensures Strip(t.(kids := t.kids[i := u])) == Strip(t).(kids := Strip(t).kids[i := Strip(u)])
  {
  }

  lemma EntryStrip(t: Tree, sym: Sym)
    ensures Index(t, VSym(sym)) == V.EntryOf(Strip(t), sym)
  {
  }

  lemma {:induction false} ReadStrip(t: Tree, path: seq<Sym>)
    ensures TreeGet(t, Syms(path)).Some? <==> V.Read(Strip(t), path).Some?
    ensures TreeGet(t, Syms(path)).Some? ==> V.Read(Strip(t), path).value == Strip(TreeGet(t, Syms(path)).value)
    decreases |path|
  {
    SymsParts(path, 0);
    if path == [] {
    } else {
      EntryStrip(t, path[0]);
      if Index(t, VSym(path[0])).Some? {
        ReadStrip(t.kids[Index(t, VSym(path[0])).value], path[1..]);
      }
    }
  }

  lemma {:induction false} WriteStrip(t: Tree, path: seq<Sym>, u: Tree)
    requires TreeGet(t, Syms(path)).Some?
    ensures V.Read(Strip(t), path).Some?
    ensures Strip(TreePut(t, Syms(path), u)) == V.Write(Strip(t), path, Strip(u))
    decreases |path|
  {
    SymsParts(path, 0);
    ReadStrip(t, path);
    if path == [] {
    } else {
      EntryStrip(t, path[0]);
      var i := Index(t, VSym(path[0])).value;
      WriteStrip(t.kids[i], path[1..], u);
      StripKid(t, i, TreePut(t.kids[i], Syms(path[1..]), u));
    }
  }

  // ---------------------------------------------------------------- names

  lemma {:induction false} NamedMeans(s: Store, k: nat, x: Sym)
    requires Fine(s) && k <= |s.tables|
    ensures Resolve(s, k, x) == V.Denoted(Known(s), k, x)
    decreases k
  {
    hide Fine, Known, Lookup, ForestBy;
    if k == 0 {
    } else {
      KnownTables(s);
      match Lookup(s.tables[k - 1], x) {
        case None => NamedMeans(s, k - 1, x);
        case Some(l) =>
          BoundKnown(s, k - 1, x);
          KnownCell(s, l);
          PlainRef(s, l);
      }
    }
  }

  lemma KnownTables(s: Store)
    requires Fine(s)
    ensures Known(s).tables == s.tables
  {
  }

  lemma BoundKnown(s: Store, d: nat, x: Sym)
    requires Fine(s) && d < |s.tables| && Lookup(s.tables[d], x).Some?
    ensures Lookup(s.tables[d], x).value in Locs(s.tables) + s.ext
  {
    LookupBound(s.tables[d], x);
    LocsPrefix(s.tables, d + 1);
    assert s.tables[..d + 1][..d] == s.tables[..d];
    assert Lookup(s.tables[d], x).value in LocsOf(s.tables[..d + 1][d]);
  }

  lemma PlainRef(s: Store, l: Loc)
    requires Fine(s) && l in s.cells
    ensures !Holds(s.cells[l]) ==> PlainOf(s, l) == PLeaf(s.cells[l])
    ensures Holds(s.cells[l]) ==> PlainOf(s, l).PNode? && PlainOf(s, l).isMap == s.cells[l].VMap?
  {
    RootOfTree(s, l);
    OneTree(s, ForestOf(s), l);
  }

  // ---------------------------------------------------------------- expressions

  /** A path from a variable, in the store and in the value. */
  lemma PathMeans(s: Store, l: Loc, path: seq<Sym>)
    requires Fine(s) && l in s.cells
    ensures Walk(s, SCell(l), path).Some? <==> V.Read(PlainOf(s, l), path).Some?
    ensures Walk(s, SCell(l), path).Some? ==>
              var b := Walk(s, SCell(l), path).value;
              && SlotIn(s, ForestOf(s), b, l)
              && TreeGet(TreeOf(s, l), Syms(path)) == Some(TreeAt(s, ForestOf(s), b, l))
              && V.Read(PlainOf(s, l), path).value == Strip(TreeAt(s, ForestOf(s), b, l))
              && Reach(s, SCell(l), Syms(path)) == Some(b)
  {
    hide Fine, ForestBy, Walk, Reach, TreeGet, Strip;
    FineForest(s, l);
    WalkReach(s, SCell(l), path);
    ReachTree(s, ForestOf(s), SCell(l), l, Syms(path));
    ReadStrip(TreeOf(s, l), path);
  }

  lemma FineForest(s: Store, l: Loc)
    requires Fine(s) && l in s.cells
    ensures ForestBy(s, ForestOf(s)) && SlotIn(s, ForestOf(s), SCell(l), l)
    ensures TreeAt(s, ForestOf(s), SCell(l), l) == TreeOf(s, l)
  {
    LiveCells(s);
  }

  lemma SlotShown(s: Store, b: Slot, l: Loc)
    requires Fine(s) && SlotIn(s, ForestOf(s), b, l)
    ensures var p := Strip(TreeAt(s, ForestOf(s), b, l));
            && Expressible(Get(s, b)) == V.Shown(p)
            && (Get(s, b).VMap? <==> p.PNode? && p.isMap)
  {
    SlotFacts(s, ForestOf(s), b, l);
    var t := TreeAt(s, ForestOf(s), b, l);
    if Holds(Get(s, b)) { MapKeys(s.heap, Get(s, b), t); } else { LeafAt(s.heap, Get(s, b), t); }
  }

  /** The pointer to a map and the map as a value. */
  ghost predicate MapAgrees(s: Store, a: Access, f: Found, m: V.MapFound)
    requires Fine(s)
  {
    match f
    case Err(e) => m == V.NoMap(e)
    case Ok(at) =>
      && m.MapIn? && ResolveAny(s, a.root) == Some(m.l) && m.l in Locs(s.tables) + s.ext && m.l in s.cells
      && SlotIn(s, ForestOf(s), at, m.l) && Walk(s, SCell(m.l), a.mids) == Some(at)
      && m.m == Strip(TreeAt(s, ForestOf(s), at, m.l))
  }

  lemma MapMeans(s: Store, a: Access)
    requires Fine(s)
    ensures MapAgrees(s, a, MapAt(s, a), V.FindMap(Known(s), a))
  {
    hide Fine, ForestBy, Walk, Strip, Resolve, Locs;
    NamedMeans(s, |s.tables|, a.root);
    KnownTables(s);
    if ResolveAny(s, a.root).Some? {
      var l := ResolveAny(s, a.root).value;
      VariableFine(s, |s.tables|, a.root);
      KnownCell(s, l);
      PathMeans(s, l, a.mids);
      if Walk(s, SCell(l), a.mids).Some? { SlotShown(s, Walk(s, SCell(l), a.mids).value, l); }
    }
  }

  // ---------------------------------------------------------------- operations on trees

  lemma TreesFrom(s: Store, r: Store, G: Forest, but: set<Loc>)
    requires Fine(s) && Fine(r) && ForestBy(r, G)
    requires forall l | l in s.cells && l !in but :: l in G && G[l] == TreeOf(s, l)
    ensures TreesKept(s, r, but) && forall l | l in G :: l in r.cells && TreeOf(r, l) == G[l]
  {
    hide ForestBy, Fine;
    ForestIs(r, G);
    Basics(r, G);
  }

  lemma FreshTrees(s: Store, v: Value)
    requires Fine(s) && !Holds(v) && !v.VRef?
    ensures var r := Fresh(s, v).0;
            TreesKept(s, r, {}) && s.next in r.cells && TreeOf(r, s.next) == Leaf(v)
  {
    hide ForestBy, ScopeOk;
    FreshFine(s, v);
    LiveCells(s);
    FreshKeeps(s, ForestOf(s), v);
    TreesFrom(s, Fresh(s, v).0, ForestOf(s)[s.next := Leaf(v)], {});
  }

  lemma NewBoxTrees(s: Store, isMap: bool)
    requires Fine(s)
    ensures var (r, c) := NewBox(s, isMap);
            TreesKept(s, r, {}) && c in r.cells && TreeOf(r, c) == Node(c + 1, isMap, [], [])
  {
    hide ForestBy, ScopeOk;
    NewBoxFine(s, isMap);
    LiveCells(s);
    NewBoxKeeps(s, ForestOf(s), isMap);
    TreesFrom(s, NewBox(s, isMap).0, ForestOf(s)[s.next := Node(s.next + 1, isMap, [], [])], {});
  }

  /** Slot b is where path leads from variable l. */
  ghost predicate LedTo(s: Store, l: Loc, keys: seq<Value>, b: Slot) {
    && Fine(s) && l in s.cells && Reach(s, SCell(l), keys) == Some(b)
    && TreeGet(TreeOf(s, l), keys).Some?
  }

  lemma TakeTrees(s: Store, l: Loc, keys: seq<Value>, b: Slot)
    requires LedTo(s, l, keys, b) && SlotOf(s, b, l)
    ensures var (r, t) := Take(s, b);
            && TreesKept(s, r, {l}) && t in r.cells && l in r.cells && t != l
            && TreeOf(r, t) == TreeGet(TreeOf(s, l), keys).value
            && TreeOf(r, l) == TreePut(TreeOf(s, l), keys, Leaf(VNone))
  {
    hide ForestBy, ScopeOk, Take, Reach, TreeGet, TreePut;
    var F := ForestOf(s);
    TakeFine(s, b, l);
    LiveCells(s);
    TakeNames(s, b);
    PutTreeIs(s, F, l, keys, b, Leaf(VNone));
    TakeKeeps(s, F, b, l);
    TreesFrom(s, Take(s, b).0, TakeForest(s, F, b, l), {l});
  }

  lemma TakeNames(s: Store, b: Slot)
    ensures Take(s, b).1 == s.next
  {
  }

  lemma DupTrees(s: Store, l: Loc, keys: seq<Value>, b: Slot)
    requires LedTo(s, l, keys, b) && SlotOf(s, b, l)
    ensures var (r, t) := Dup(s, b);
            && TreesKept(s, r, {}) && t in r.cells
            && Strip(TreeOf(r, t)) == Strip(TreeGet(TreeOf(s, l), keys).value)
  {
    hide ForestBy, ScopeOk, Dup, Reach, TreeGet, Strip;
    var F := ForestOf(s);
    DupFine(s, b, l);
    LiveCells(s);
    PutTreeIs(s, F, l, keys, b, Leaf(VNone));
    var u := DupKeeps(s, F, b, l);
    TreesFrom(s, Dup(s, b).0, F[Dup(s, b).1 := u], {});
  }

  /** Filling the slot a path leads to from a local. */
  lemma PutTrees(s: Store, l: Loc, keys: seq<Value>, b: Slot, tmp: Loc)
    requires LedTo(s, l, keys, b) && SlotOf(s, b, l)
    requires tmp in Temps(s) && tmp != l && tmp in s.cells && !s.cells[tmp].VRef?
    ensures var r := Put(s, b, tmp);
            && TreesKept(s, r, {l, tmp}) && l in r.cells
            && TreeOf(r, l) == TreePut(TreeOf(s, l), keys, TreeOf(s, tmp))
  {
    hide ForestBy, ScopeOk, Put, Clear, Fill, Reach, TreePut, Temps;
    PutFine(s, b, l, tmp);
    LiveCells(s);
    var F := ForestOf(s);
    var s1, F1 := Clear(s, b), ClearForest(s, F, b, l);
    ClearFine(s, b, l);
    LiveCells(s1);
    ReachAfterClear(s, F, l, keys, b);
    PutTreeIs(s1, F1, l, keys, b, F1[tmp]);
    FillKeeps(s1, F1, b, l, tmp);
    PutPut(F[l], keys, Leaf(VNone), F1[tmp]);
    assert Put(s, b, tmp) == Fill(s1, b, tmp) by { PutIs(s, b, tmp); }
    TreesFrom(s, Put(s, b, tmp), FillForest(s1, F1, b, l, tmp), {l, tmp});
  }

  lemma PutIs(s: Store, b: Slot, tmp: Loc)
    ensures Put(s, b, tmp) == Fill(Clear(s, b), b, tmp)
  {
  }

  lemma ReachAfterClear(s: Store, F: Forest, c: Loc, keys: seq<Value>, b: Slot)
    requires ForestBy(s, F) && c in F && Reach(s, SCell(c), keys) == Some(b) && TreeGet(F[c], keys).Some?
    ensures SlotIn(s, F, b, c)
    ensures var s1, F1 := Clear(s, b), ClearForest(s, F, b, c);
            F1[c] == TreePut(F[c], keys, Leaf(VNone)) && Reach(s1, SCell(c), keys) == Some(b)
  {
    hide ForestBy, Clear;
    PutTreeIs(s, F, c, keys, b, Leaf(VNone));
    if keys != [] { ReachCleared(s, F, c, keys, b); }
  }

  /** Changing a container is writing it at the path that leads to it. */
  lemma {:induction false} GraftAt(t: Tree, keys: seq<Value>, n: Tree)
    requires Sound(t) && TreeGet(t, keys).Some? && TreeGet(t, keys).value.Node?
    ensures var u := TreeGet(t, keys).value;
            u.id in Ids(t) && Sub(t, u.id) == u && Graft(t, u.id, n) == TreePut(t, keys, n)
    decreases |keys|
  {
    if keys == [] {
    } else {
      var i := Index(t, keys[0]).value;
      SoundKids(t);
      GraftAt(t.kids[i], keys[1..], n);
      OnlyKid(t, TreeGet(t, keys).value.id, i);
    }
  }

  lemma AddKidTrees(s: Store, l: Loc, keys: seq<Value>, n: Tree, key: Sym, tmp: Loc)
    requires Fine(s) && l in s.cells && TreeGet(TreeOf(s, l), keys) == Some(n) && n.Node?
    requires tmp in Temps(s) && tmp != l && tmp in s.cells && !s.cells[tmp].VRef?
    ensures var r := AddKid(s, n.id, key, tmp);
            && TreesKept(s, r, {l, tmp}) && l in r.cells
            && TreeOf(r, l) == TreePut(TreeOf(s, l), keys, GrownNode(n, key, TreeOf(s, tmp)))
  {
    hide ForestBy, ScopeOk, AddKid, TreePut, Temps, GrownNode;
    LiveCells(s);
    var F := ForestOf(s);
    OneTree(s, F, l);
    GraftAt(F[l], keys, GrownNode(n, key, F[tmp]));
    AddKidFine(s, n.id, l, key, tmp);
    AddKidKeeps(s, F, n.id, l, key, tmp);
    TreesFrom(s, AddKid(s, n.id, key, tmp), AddForest(F, n.id, l, key, tmp), {l, tmp});
  }
}
