/** Statements on pointers mean what they mean on values: expressions, right sides, assignments,
    declarations and arguments, errors included. */
module StatementMeaning {
  import opened Wrappers
  import opened Heap
  import opened Store
  import opened Language
  import opened Ownership
  import opened OwnershipSlots
  import opened Scopes
  import opened Discipline
  import opened Statements
  import opened Paths
  import opened PathTheorems
  import opened PathLaws
  import opened ValueRefinement
  import V = ValueSemantics

  // ---------------------------------------------------------------- expressions

  lemma {:induction false} EvalMeans(fl: Floats, s: Store, e: Expr)
    requires Fine(s)
    ensures Eval(fl, s, e) == V.ValueOf(fl, Known(s), e)
    decreases e
  {
    hide Fine, Known, Resolve, V.Denoted, MapAt, V.FindMap, BiOp;
    match e
    case EId(x) => NameMeans(s, x);
    case EAccess(a) => AccessMeans(s, a);
    case ENeg(f) => EvalMeans(fl, s, f);
    case ENot(f) => EvalMeans(fl, s, f);
    case EBin(op, l, r) =>
      EvalMeans(fl, s, l);
      EvalMeans(fl, s, r);
    case _ =>
  }

  lemma NameMeans(s: Store, x: Sym)
    requires Fine(s)
    ensures ResolveAny(s, x) == V.DenotedAny(Known(s), x)
    ensures ResolveAny(s, x).Some? ==>
              Expressible(Get(s, SCell(ResolveAny(s, x).value))) == V.Shown(V.Content(Known(s), ResolveAny(s, x).value))
  {
    hide Fine, Known, Resolve, V.Denoted, V.Content, Locs;
    NamedMeans(s, |s.tables|, x);
    KnownTables(s);
    if ResolveAny(s, x).Some? {
      var l := ResolveAny(s, x).value;
      VariableFine(s, |s.tables|, x);
      KnownCell(s, l);
      FineForest(s, l);
      SlotShown(s, SCell(l), l);
    }
  }

  /** What the pointers and the values say of a.b.c read in an expression. */
  ghost predicate AccessAgrees(s: Store, last: Sym, at: Found, m: V.MapFound) {
    match at
    case Err(e) => m == V.NoMap(e)
    case Ok(b) => m.MapIn? && ShownAlike(s, Entry(s, b, last), m.m, last)
  }

  ghost predicate ShownAlike(s: Store, b: Option<Slot>, m: Plain, last: Sym) {
    var i := V.EntryOf(m, last);
    if b.None? then i.None? else i.Some? && Expressible(Get(s, b.value)) == V.Shown(m.kids[i.value])
  }

  lemma AccessMeans(s: Store, a: Access)
    requires Fine(s)
    ensures AccessAgrees(s, a.last, MapAt(s, a), V.FindMap(Known(s), a))
  {
    hide Fine, Known, Resolve, V.FindMap, MapAt, ForestBy, Strip;
    MapMeans(s, a);
    if MapAt(s, a).Ok? {
      var l, at := ResolveAny(s, a.root).value, MapAt(s, a).at;
      EntryMeans(s, at, l, a.last);
    }
  }

  ghost predicate EntryAgrees(s: Store, F: Forest, l: Loc, m: Plain, sym: Sym, b: Option<Slot>)
    requires ForestBy(s, F)
  {
    var i := V.EntryOf(m, sym);
    if b.None? then i.None?
    else
      && i.Some? && b.value.SKid? && b.value.idx == i.value && SlotIn(s, F, b.value, l)
      && Strip(TreeAt(s, F, b.value, l)) == m.kids[i.value]
      && Expressible(Get(s, b.value)) == V.Shown(m.kids[i.value])
  }

  lemma EntryMeans(s: Store, at: Slot, l: Loc, sym: Sym)
    requires Fine(s) && l in s.cells && SlotIn(s, ForestOf(s), at, l)
    ensures EntryAgrees(s, ForestOf(s), l, Strip(TreeAt(s, ForestOf(s), at, l)), sym, Entry(s, at, sym))
  {
    hide Fine, ForestBy, SlotIn, TreeAt;
    LiveForest(s);
    var t := TreeAt(s, ForestOf(s), at, l);
    StepTree(s, ForestOf(s), at, l, VSym(sym));
    EntryStrip(t, sym);
    if Entry(s, at, sym).Some? {
      SlotShown(s, Entry(s, at, sym).value, l);
      StripNode(t);
    }
  }

  lemma LiveForest(s: Store)
    requires Fine(s)
    ensures ForestBy(s, ForestOf(s)) && ForestOf(s).Keys == s.cells.Keys
  {
    LiveCells(s);
  }

  // ---------------------------------------------------------------- right sides

  /** What was built means m; no other local was touched, except those in `but`. */
  ghost predicate MeansBut(s: Store, b: Built, m: V.Made, but: set<Loc>) {
    && Fine(s)
    && match b
       case Got(r, t) =>
         && Fine(r) && t in r.cells && m == V.Made(Known(r), PlainOf(r, t))
         && TreesKept(s, r, Locs(s.tables) + s.ext + but)
       case Bad(r, e) => Fine(r) && m == V.Unmade(Known(r), e)
  }

  ghost predicate Means(s: Store, b: Built, m: V.Made) { MeansBut(s, b, m, {}) }

  lemma FreshMeans(s: Store, v: Value)
    requires Fine(s) && !Holds(v) && !v.VRef?
    ensures Means(s, Pack(Fresh(s, v)), V.Made(Known(s), PLeaf(v)))
  {
    hide Fine, Known, Locs;
    FreshTrees(s, v);
    KnownSame(s, Fresh(s, v).0);
    assert Strip(Leaf(v)) == PLeaf(v);
  }

  /** Moving or copying from the end of a path. */
  lemma FoundMeans(s: Store, l: Loc, path: seq<Sym>, b: Slot, e: Error, move: bool)
    requires LedTo(s, l, Syms(path), b) && SlotOf(s, b, l) && l in Locs(s.tables) + s.ext
    ensures V.Read(V.Content(Known(s), l), path).Some?
    ensures var p := V.Content(Known(s), l);
            Means(s, OnFound(Some(b), e, s, move),
              V.Made(if move then V.Hold(Known(s), l, V.Write(p, path, PLeaf(VNone))) else Known(s),
                     V.Read(p, path).value))
  {
    if move { MoveMeans(s, l, path, b); } else { CopyMeans(s, l, path, b); }
  }

  lemma MoveMeans(s: Store, l: Loc, path: seq<Sym>, b: Slot)
    requires LedTo(s, l, Syms(path), b) && SlotOf(s, b, l) && l in Locs(s.tables) + s.ext
    ensures V.Read(V.Content(Known(s), l), path).Some?
    ensures var p := V.Content(Known(s), l);
            Means(s, Pack(Take(s, b)),
              V.Made(V.Hold(Known(s), l, V.Write(p, path, PLeaf(VNone))), V.Read(p, path).value))
  {
    hide Fine, Known, Locs, Take, SlotOf, TreeGet, TreePut, Strip;
    hide V.Write, V.Read, V.Hold, Reach, TreesKept, Adds, Temps;
    KnownCell(s, l);
    var t := TreeOf(s, l);
    ReadStrip(t, path);
    var r, tmp := Take(s, b).0, Take(s, b).1;
    TakeTrees(s, l, Syms(path), b);
    WriteStrip(t, path, Leaf(VNone));
    StripLeaf(VNone);
    TakeFine(s, b, l);
    AddsScope(s, r, tmp);
    KeptMore(s, r, {l}, Temps(s) + {l});
    KnownHolds(s, r, l);
    KeptOutside(s, r, {l});
  }

  lemma CopyMeans(s: Store, l: Loc, path: seq<Sym>, b: Slot)
    requires LedTo(s, l, Syms(path), b) && SlotOf(s, b, l) && l in Locs(s.tables) + s.ext
    ensures V.Read(V.Content(Known(s), l), path).Some?
    ensures Means(s, Pack(Dup(s, b)), V.Made(Known(s), V.Read(V.Content(Known(s), l), path).value))
  {
    hide Fine, Known, Locs, Dup, SlotOf, TreeGet, TreePut, Strip, V.Read, Reach, TreesKept, Adds, Temps;
    KnownCell(s, l);
    ReadStrip(TreeOf(s, l), path);
    var r, tmp := Dup(s, b).0, Dup(s, b).1;
    DupTrees(s, l, Syms(path), b);
    DupFine(s, b, l);
    AddsScope(s, r, tmp);
    KeptMore(s, r, {}, Temps(s));
    KnownSame(s, r);
    KeptOutside(s, r, {});
  }

  lemma AddsScope(s: Store, r: Store, l: Loc)
    requires Adds(s, r, l)
    ensures SameScope(s, r)
  {
  }

  lemma KeptMore(s: Store, r: Store, but: set<Loc>, more: set<Loc>)
    requires TreesKept(s, r, but) && but <= more
    ensures TreesKept(s, r, more)
  {
  }

  lemma StripLeaf(v: Value)
    ensures Strip(Leaf(v)) == PLeaf(v)
  {
  }

  lemma KeptOutside(s: Store, r: Store, but: set<Loc>)
    requires TreesKept(s, r, but) && but <= Locs(s.tables) + s.ext
    ensures TreesKept(s, r, Locs(s.tables) + s.ext + {})
  {
  }

  lemma BadMeans(s: Store, e: Error)
    requires Fine(s)
    ensures Means(s, Bad(s, e), V.Unmade(Known(s), e))
  {
  }

  lemma NamedRhsMeans(s: Store, k: nat, x: Sym, move: bool)
    requires Fine(s) && k <= |s.tables|
    ensures k <= |Known(s).tables|
    ensures Means(s, OnFound(Variable(s, k, x), UndeclaredVar, s, move), V.MakeNamed(Known(s), k, x, move))
  {
    hide Fine, Known, Locs, MeansBut, SlotOf, Resolve, V.Denoted, OnFound;
    NamedMeans(s, k, x);
    KnownTables(s);
    if Resolve(s, k, x).None? {
      BadMeans(s, UndeclaredVar);
      NotFound(s, UndeclaredVar, move);
    } else {
      var l := Resolve(s, k, x).value;
      VariableFine(s, k, x);
      KnownCell(s, l);
      HereLedTo(s, l);
      FoundMeans(s, l, [], SCell(l), UndeclaredVar, move);
    }
  }

  lemma NotFound(s: Store, e: Error, move: bool)
    ensures OnFound(None, e, s, move) == Bad(s, e)
  {
  }

  lemma HereLedTo(s: Store, l: Loc)
    requires Fine(s) && l in s.cells
    ensures Syms([]) == [] && LedTo(s, l, [], SCell(l))
  {
  }

  lemma EntryRhsMeans(s: Store, a: Access, e: Error, move: bool)
    requires Fine(s)
    ensures Means(s, OnFound(EntryAt(s, a), e, s, move), V.MakeEntry(Known(s), a, e, move))
  {
    hide Fine, Known, Locs, MeansBut, SlotOf, Resolve, V.Denoted, OnFound, Walk, TreeGet, V.Read, V.Write;
    NamedMeans(s, |s.tables|, a.root);
    KnownTables(s);
    NotFound(s, e, move);
    BadMeans(s, e);
    if ResolveAny(s, a.root).Some? {
      var l, path := ResolveAny(s, a.root).value, a.mids + [a.last];
      VariableFine(s, |s.tables|, a.root);
      KnownCell(s, l);
      PathMeans(s, l, path);
      if Walk(s, SCell(l), path).Some? {
        WalkFine(s, SCell(l), l, path);
        FoundMeans(s, l, path, Walk(s, SCell(l), path).value, e, move);
      }
    }
  }

  lemma {:induction false} BuildMeans(fl: Floats, s: Store, rhs: Rhs)
    requires Fine(s)
    ensures Means(s, Build(fl, s, rhs), V.Make(fl, Known(s), rhs))
    decreases rhs
  {
    hide Fine, Known, MeansBut, OnFound, Variable, EntryAt, Fresh, NewBox, Eval, V.MakeNamed, V.MakeEntry, V.ValueOf;
    KnownTables(s);
    match rhs
    case RExpr(e) =>
      EvalMeans(fl, s, e);
      BadMeans(s, InvalidExpression);
      if Eval(fl, s, e).Some? {
        EvalExpressible(fl, s, e);
        FreshMeans(s, Eval(fl, s, e).value);
      }
    case RInit(isMap, items) =>
      BoxMeans(s, isMap);
      var (s1, c) := NewBox(s, isMap);
      NewBoxFine(s, isMap);
      AddsHere(s, s1, c);
      ItemsMean(fl, s1, c, items);
      BoxThen(s, s1, c, BuildItems(fl, s1, c, items), V.MakeItems(fl, Known(s1), PlainOf(s1, c), items));
    case RMoveId(x) => NamedRhsMeans(s, |s.tables|, x, true);
    case RCopyId(x) => NamedRhsMeans(s, |s.tables|, x, false);
    case RMoveAccess(a) => EntryRhsMeans(s, a, InvalidMapAccess, true);
    case RCopyAccess(a) => EntryRhsMeans(s, a, InvalidMapAccess, false);
  }

  lemma BoxMeans(s: Store, isMap: bool)
    requires Fine(s)
    ensures var (r, c) := NewBox(s, isMap);
            && TreesKept(s, r, {}) && c in r.cells && Known(r) == Known(s) && PlainOf(r, c) == PNode(isMap, [], [])
  {
    hide Fine, Known, Locs, Temps, TreesKept;
    NewBoxTrees(s, isMap);
    var (r, c) := NewBox(s, isMap);
    KeptMore(s, r, {}, Temps(s));
    NewBoxFine(s, isMap);
    AddsScope(s, r, c);
    KnownSame(s, r);
    assert Strip(Node(c + 1, isMap, [], [])) == PNode(isMap, [], []);
    KeptFine(s, r, {});
  }

  lemma KeptFine(s: Store, r: Store, but: set<Loc>)
    requires TreesKept(s, r, but)
    ensures Fine(s) && Fine(r)
  {
  }

  lemma BoxThen(s: Store, s1: Store, c: Loc, b: Built, m: V.Made)
    requires Fine(s) && Adds(s, s1, c) && TreesKept(s, s1, {}) && MeansBut(s1, b, m, {c})
    ensures Means(s, b, m)
  {
    hide Fine, Known, Locs, PlainOf, TreesKept;
    if b.Got? {
      KeptChain(s, s1, b.s, {}, Locs(s.tables) + s.ext + {c}, Locs(s.tables) + s.ext + {});
    }
  }

  lemma KeptChain(s: Store, s1: Store, r: Store, a: set<Loc>, b: set<Loc>, but: set<Loc>)
    requires TreesKept(s, s1, a) && TreesKept(s1, r, b)
    requires forall l | l in s.cells && l !in but :: l !in a && l !in b
    ensures TreesKept(s, r, but)
  {
    hide Fine;
  }

  /** Putting a built value into the container of a local. */
  lemma AddItemMeans(s: Store, c: Loc, key: Sym, t: Loc)
    requires Fine(s) && c in Temps(s) && t in Temps(s) && c != t && c in s.cells && t in s.cells
    requires Holds(s.cells[c]) && !s.cells[t].VRef?
    ensures var r := AddItem(s, c, key, t);
            && TreesKept(s, r, {c, t}) && c in r.cells && Uses(s, r, t)
            && Known(r) == Known(s) && PlainOf(r, c) == V.With(PlainOf(s, c), key, PlainOf(s, t))
  {
    hide Fine, Known, Locs, Temps, TreesKept, PlainOf, V.With, Uses, AddItem;
    var r := AddItem(s, c, key, t);
    if s.cells[c].VMap? { AddEntryMeans(s, c, key, t); } else { AddElementMeans(s, c, key, t); }
    UsesScope(s, r, t);
    KeptMore(s, r, {c, t}, Temps(s));
    KnownSame(s, r);
  }

  lemma AddEntryMeans(s: Store, c: Loc, key: Sym, t: Loc)
    requires Fine(s) && c in Temps(s) && t in Temps(s) && c != t && c in s.cells && t in s.cells
    requires s.cells[c].VMap? && !s.cells[t].VRef?
    ensures var r := AddItem(s, c, key, t);
            && TreesKept(s, r, {c, t}) && c in r.cells && Uses(s, r, t)
            && PlainOf(r, c) == V.With(PlainOf(s, c), key, PlainOf(s, t))
  {
    hide Fine, Known, Locs, Temps, TreesKept, PlainOf, V.With, SetKey, Uses, Walk, V.Read, V.Write;
    BoxIn(s, c);
    EmptyWalk(s, c);
    EmptyRead(PlainOf(s, c));
    SetKeyFine(s, s.cells[c].id, c, key, t);
    SetKeyMeans(s, c, [], SCell(c), key, t);
  }

  lemma EmptyRead(p: Plain)
    ensures V.Read(p, []) == Some(p) && forall q :: V.Write(p, [], q) == q
  {
  }

  lemma AddElementMeans(s: Store, c: Loc, key: Sym, t: Loc)
    requires Fine(s) && c in Temps(s) && t in Temps(s) && c != t && c in s.cells && t in s.cells
    requires s.cells[c].VSeq? && !s.cells[t].VRef?
    ensures var r := AddItem(s, c, key, t);
            && TreesKept(s, r, {c, t}) && c in r.cells && Uses(s, r, t)
            && PlainOf(r, c) == V.With(PlainOf(s, c), key, PlainOf(s, t))
  {
    hide *;
    BoxIn(s, c);
    RootHere(s, c);
    AddItemSeq(s, c, key, t);
    PlainIs(s, c); PlainIs(s, t);
    var n, u := TreeOf(s, c), TreeOf(s, t);
    EmptyPut(n, GrownNode(n, key, u));
    AddKidFine(s, s.cells[c].id, c, key, t);
    AddKidTrees(s, c, [], n, key, t);
    GrownStrip(n, key, u);
    KeptFine(s, AddItem(s, c, key, t), {c, t});
    PlainIs(AddItem(s, c, key, t), c);
  }

  lemma PlainIs(s: Store, l: Loc)
    requires Fine(s) && l in s.cells
    ensures Owned(s) && PlainOf(s, l) == Strip(TreeOf(s, l))
  {
  }

  lemma AddItemSeq(s: Store, c: Loc, key: Sym, t: Loc)
    requires c in s.cells && s.cells[c].VSeq?
    ensures AddItem(s, c, key, t) == AddKid(s, s.cells[c].id, key, t) && Holds(s.cells[c])
  {
  }

  lemma EmptyPut(t: Tree, u: Tree)
    ensures TreeGet(t, []) == Some(t) && TreePut(t, [], u) == u
  {
  }

  lemma UsesScope(s: Store, r: Store, t: Loc)
    requires Uses(s, r, t)
    ensures SameScope(s, r)
  {
  }

  lemma RootHere(s: Store, c: Loc)
    requires Fine(s) && c in s.cells && Holds(s.cells[c])
    ensures TreeOf(s, c).Node? && TreeOf(s, c).id == s.cells[c].id && TreeOf(s, c).isMap == s.cells[c].VMap?
  {
    RootOfTree(s, c);
  }

  lemma EmptyWalk(s: Store, l: Loc)
    requires Fine(s) && l in s.cells
    ensures Walk(s, SCell(l), []) == Some(SCell(l)) && Get(s, SCell(l)) == s.cells[l]
    ensures SlotIn(s, ForestOf(s), SCell(l), l)
  {
    LiveCells(s);
  }

  /** A new entry, as a value. */
  lemma GrownStrip(n: Tree, key: Sym, u: Tree)
    requires n.Node? && (n.isMap ==> Index(n, VSym(key)).None?)
    ensures Strip(GrownNode(n, key, u)) == V.With(Strip(n), key, Strip(u))
  {
    var m := GrownNode(n, key, u);
    StripNode(n);
    StripNode(m);
    EntryStrip(n, key);
    assert Strip(m).kids == if n.isMap then [Strip(u)] + Strip(n).kids else Strip(n).kids + [Strip(u)];
  }

  /** Setting an entry of the map a path leads to writes the changed map at the path. */
  lemma SetKeyMeans(s: Store, l: Loc, path: seq<Sym>, at: Slot, key: Sym, t: Loc)
    requires Fine(s) && l in s.cells && Walk(s, SCell(l), path) == Some(at) && Get(s, at).VMap?
    requires t in Temps(s) && t != l && t in s.cells && !s.cells[t].VRef?
    ensures V.Read(PlainOf(s, l), path).Some?
    ensures var r := SetKey(s, Get(s, at).id, key, t);
            && TreesKept(s, r, {l, t}) && l in r.cells
            && PlainOf(r, l) == V.Write(PlainOf(s, l), path,
                                        V.With(V.Read(PlainOf(s, l), path).value, key, PlainOf(s, t)))
  {
    hide Fine, Known, Locs, Temps, TreesKept, AddKid, Put, Walk;
    hide V.Read, V.Write, Strip, TreeGet, TreePut, ForestBy, Reach, SlotIn;
    PathMeans(s, l, path);
    LiveForest(s);
    var F := ForestOf(s);
    var n := TreeAt(s, F, at, l);
    SubIs(s, F, at, l);
    EntryMeans(s, at, l, key);
    EntryStrip(n, key);
    MapHere(s, at, l);
    if Entry(s, at, key).Some? {
      var b := Entry(s, at, key).value;
      WalkOne(s, SCell(l), path, key);
      PathMeans(s, l, path + [key]);
      EntryFine(s, at, l, key);
      PutTrees(s, l, Syms(path + [key]), b, t);
      WriteStrip(TreeOf(s, l), path + [key], TreeOf(s, t));
      WriteLast(PlainOf(s, l), path, key, PlainOf(s, t));
      SetKeyOld(s, at, key, t);
    } else {
      AddKidTrees(s, l, Syms(path), n, key, t);
      GrownStrip(n, key, TreeOf(s, t));
      WriteStrip(TreeOf(s, l), path, GrownNode(n, key, TreeOf(s, t)));
      SetKeyNew(s, at, key, t);
    }
  }

  lemma MapHere(s: Store, at: Slot, l: Loc)
    requires Fine(s) && SlotIn(s, ForestOf(s), at, l) && Get(s, at).VMap?
    ensures Get(s, at).id in s.heap && |s.heap[Get(s, at).id].keys| == |s.heap[Get(s, at).id].vals|
  {
    ContainerIn(s, at, l);
  }

  lemma SetKeyOld(s: Store, at: Slot, key: Sym, t: Loc)
    requires Get(s, at).VMap? && Entry(s, at, key).Some?
    ensures SetKey(s, Get(s, at).id, key, t) == Put(s, Entry(s, at, key).value, t)
  {
  }

  lemma SetKeyNew(s: Store, at: Slot, key: Sym, t: Loc)
    requires Get(s, at).VMap? && Get(s, at).id in s.heap && Entry(s, at, key).None?
    ensures SetKey(s, Get(s, at).id, key, t) == AddKid(s, Get(s, at).id, key, t)
  {
  }

  lemma {:induction false} WalkOne(s: Store, at: Slot, path: seq<Sym>, key: Sym)
    requires Walk(s, at, path).Some?
    ensures Walk(s, at, path + [key]) == Entry(s, Walk(s, at, path).value, key)
    decreases |path|
  {
    if path == [] {
      assert (path + [key])[1..] == [];
      if Entry(s, at, key).Some? { assert Walk(s, Entry(s, at, key).value, []) == Entry(s, at, key); }
    } else {
      assert (path + [key])[1..] == path[1..] + [key];
      WalkOne(s, Entry(s, at, path[0]).value, path[1..], key);
    }
  }

  /** Writing one step further is writing the map with that entry replaced. */
  lemma {:induction false} WriteLast(p: Plain, path: seq<Sym>, key: Sym, q: Plain)
    requires V.Read(p, path).Some? && V.EntryOf(V.Read(p, path).value, key).Some?
    ensures V.Read(p, path + [key]).Some?
    ensures V.Write(p, path + [key], q) == V.Write(p, path, V.With(V.Read(p, path).value, key, q))
    decreases |path|
  {
    assert (path + [key])[0] == if path == [] then key else path[0];
    if path == [] {
      assert (path + [key])[1..] == [];
    } else {
      assert (path + [key])[1..] == path[1..] + [key];
      WriteLast(p.kids[V.EntryOf(p, path[0]).value], path[1..], key, q);
    }
  }

  lemma {:induction false} ItemsMean(fl: Floats, s: Store, c: Loc, items: seq<Item>)
    requires Fine(s) && c in Temps(s) && c in s.cells && Holds(s.cells[c])
    ensures MeansBut(s, BuildItems(fl, s, c, items), V.MakeItems(fl, Known(s), PlainOf(s, c), items), {c})
    decreases items
  {
    hide Fine, Known, MeansBut, AddItem, Temps, PlainOf, V.With, TreesKept, Uses;
    if items == [] {
      SelfMeans(s, c);
    } else {
      ItemMeans(fl, s, items[0]);
      ItemWell(fl, s, items[0]);
      var b, m := BuildItem(fl, s, items[0]), V.MakeItem(fl, Known(s), items[0]);
      MeansKind(s, b, m);
      match b {
        case Bad(s1, e) =>
        case Got(s1, t) =>
          ItemBuilt(s, s1, t, c, m);
          var s2 := AddItem(s1, c, items[0].key, t);
          AddItemMeans(s1, c, items[0].key, t);
          AddItemWell(s, s1, c, items[0].key, t);
          ItemsMean(fl, s2, c, items[1..]);
          ItemsThen(s, s1, s2, c, t, BuildItems(fl, s2, c, items[1..]),
                    V.MakeItems(fl, Known(s2), PlainOf(s2, c), items[1..]));
      }
    }
  }

  lemma SelfMeans(s: Store, c: Loc)
    requires Fine(s) && c in s.cells
    ensures MeansBut(s, Got(s, c), V.Made(Known(s), PlainOf(s, c)), {c})
  {
  }

  lemma MeansKind(s: Store, b: Built, m: V.Made)
    requires Means(s, b, m)
    ensures b.Got? <==> m.Made?
    ensures b.Bad? ==> Fine(b.s) && m == V.Unmade(Known(b.s), b.e) && forall c :: MeansBut(s, b, m, {c})
    ensures b.Got? ==> Fine(b.s) && b.l in b.s.cells && m == V.Made(Known(b.s), PlainOf(b.s, b.l))
    ensures b.Got? ==> TreesKept(s, b.s, Locs(s.tables) + s.ext + {})
  {
  }

  /** The container being filled is untouched by what is built for it. */
  lemma ItemBuilt(s: Store, s1: Store, t: Loc, c: Loc, m: V.Made)
    requires BuiltWell(s, Got(s1, t)) && Means(s, Got(s1, t), m) && c in Temps(s) && c in s.cells && Holds(s.cells[c])
    requires Fine(s)
    ensures c in Temps(s1) && t in Temps(s1) && c != t && c in s1.cells && t in s1.cells
    ensures Holds(s1.cells[c]) && !s1.cells[t].VRef?
    ensures PlainOf(s1, c) == PlainOf(s, c) && Adds(s, s1, t)
  {
    hide Fine, Known, PlainOf;
    LocalKept(s, s1, t, c);
    AddsTemps(s, s1, t) by { FineScope(s); }
    KeptPlain(s, s1, Locs(s.tables) + s.ext + {}, c);
  }

  lemma FineScope(s: Store)
    requires Fine(s)
    ensures ScopeOk(s)
  {
  }

  lemma ItemsThen(s: Store, s1: Store, s2: Store, c: Loc, t: Loc, b: Built, m: V.Made)
    requires Fine(s) && Adds(s, s1, t) && TreesKept(s, s1, Locs(s.tables) + s.ext + {}) && Uses(s1, s2, t)
    requires TreesKept(s1, s2, {c, t}) && MeansBut(s2, b, m, {c})
    ensures MeansBut(s, b, m, {c})
  {
    hide Fine, Known, Locs, PlainOf, TreesKept, Temps;
    var known := Locs(s.tables) + s.ext;
    KeptChain(s, s1, s2, known + {}, {c, t}, known + {c});
    if b.Got? {
      KeptChain(s, s2, b.s, known + {c}, known + {c}, known + {c});
    }
  }

  lemma {:induction false} ItemMeans(fl: Floats, s: Store, item: Item)
    requires Fine(s)
    ensures Means(s, BuildItem(fl, s, item), V.MakeItem(fl, Known(s), item))
    decreases item
  {
    BuildMeans(fl, s, item.rhs);
  }
}
