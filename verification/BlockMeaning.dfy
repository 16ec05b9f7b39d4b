/** Whole statements, and opening and closing a block, as operations on values. */
module BlockMeaning {
  import opened Wrappers
  import opened Heap
  import opened Store
  import opened Language
  import opened Ownership
  import opened OwnershipSlots
  import opened Scopes
  import opened Discipline
  import opened Blocks
  import opened Statements
  import opened PathLaws
  import opened ValueRefinement
  import opened StatementMeaning
  import V = ValueSemantics

  ghost predicate OutcomeMeans(o: Outcome, a: V.After) {
    match o
    case Good(r) => Fine(r) && a == V.Then(Known(r))
    case Failed(r, e) => Fine(r) && a == V.Not(Known(r), e)
  }

  // ---------------------------------------------------------------- assignments

  /** x = rhs. */
  lemma AssignVarMeans(fl: Floats, s: Store, x: Sym, rhs: Rhs)
    requires Fine(s)
    ensures OutcomeMeans(DoAssignVar(fl, s, x, rhs), V.SetVariable(fl, Known(s), x, rhs))
  {
    hide Fine, Known, V.Make, Build, Resolve, V.Denoted, Temps, Put, Adds, MeansBut;
    BuildMeans(fl, s, rhs);
    BuildWell(fl, s, rhs);
    MeansKind(s, Build(fl, s, rhs), V.Make(fl, Known(s), rhs));
    match Build(fl, s, rhs) {
      case Bad(s1, e) =>
      case Got(s1, t) =>
        AddedLeaks(s, s1, t);
        NameMeans(s1, x);
        if ResolveAny(s1, x).Some? { PutVariableMeans(s1, ResolveAny(s1, x).value, x, t); }
    }
  }

  lemma PutVariableMeans(s: Store, l: Loc, x: Sym, t: Loc)
    requires Fine(s) && ResolveAny(s, x) == Some(l) && t in Temps(s) && t in s.cells && !s.cells[t].VRef?
    ensures var r := Put(s, SCell(l), t); Fine(r) && Known(r) == V.Hold(Known(s), l, PlainOf(s, t))
  {
    hide *;
    VariableOf(s, l, x);
    var r := Put(s, SCell(l), t);
    KnownNotTemp(s, l);
    HereLedTo(s, l);
    PutFine(s, SCell(l), l, t);
    PutTrees(s, l, [], SCell(l), t);
    PlainIs(s, l); PlainIs(s, t); PlainIs(r, l);
    EmptyPut(TreeOf(s, l), TreeOf(s, t));
    UsesScope(s, r, t);
    KeptMore(s, r, {l, t}, Temps(s) + {l});
    KnownHolds(s, r, l);
  }

  lemma VariableOf(s: Store, l: Loc, x: Sym)
    requires Fine(s) && ResolveAny(s, x) == Some(l)
    ensures SlotOf(s, SCell(l), l) && l in Locs(s.tables) + s.ext && l in s.cells
  {
    VariableFine(s, |s.tables|, x);
    LiveCells(s);
  }

  /** a.b.c = rhs. */
  lemma AssignEntryMeans(fl: Floats, s: Store, a: Access, rhs: Rhs)
    requires Fine(s)
    ensures OutcomeMeans(DoAssignEntry(fl, s, a, rhs), V.SetEntry(fl, Known(s), a, rhs))
  {
    hide Fine, Known, V.Make, Build, Temps, SetKey, Adds, MeansBut;
    hide MapAt, V.FindMap, Get, V.Write, V.With, V.Content, Locs;
    BuildMeans(fl, s, rhs);
    BuildWell(fl, s, rhs);
    MeansKind(s, Build(fl, s, rhs), V.Make(fl, Known(s), rhs));
    match Build(fl, s, rhs) {
      case Bad(s1, e) =>
      case Got(s1, t) =>
        AddedLeaks(s, s1, t);
        MapMeans(s1, a);
        FoundRead(Known(s1), a);
        MapAtKind(s1, a);
        if MapAt(s1, a).Ok? { PutEntryMeans(s1, a, t); }
    }
  }

  lemma FoundRead(w: V.World, a: Access)
    ensures V.FindMap(w, a).MapIn? ==>
              V.Read(V.Content(w, V.FindMap(w, a).l), a.mids) == Some(V.FindMap(w, a).m)
  {
  }

  lemma MapAtKind(s: Store, a: Access)
    ensures MapAt(s, a).Ok? ==> Get(s, MapAt(s, a).at).VMap?
  {
  }

  lemma PutEntryMeans(s: Store, a: Access, t: Loc)
    requires Fine(s) && MapAt(s, a).Ok? && t in Temps(s) && t in s.cells && !s.cells[t].VRef?
    ensures V.FindMap(Known(s), a).MapIn? && Get(s, MapAt(s, a).at).VMap?
    ensures V.Read(V.Content(Known(s), V.FindMap(Known(s), a).l), a.mids).Some?
    ensures var r, l := SetKey(s, Get(s, MapAt(s, a).at).id, a.last, t), V.FindMap(Known(s), a).l;
            var m := V.With(V.FindMap(Known(s), a).m, a.last, PlainOf(s, t));
            && Fine(r)
            && Known(r) == V.Hold(Known(s), l, V.Write(V.Content(Known(s), l), a.mids, m))
  {
    hide Fine, Known, Locs, Temps, SetKey, Uses, MapAt, V.FindMap, Get, V.Write;
    hide V.With, V.Content, V.Read, Strip, TreeOf, TreesKept, SlotOf, SlotIn, ForestBy;
    MapMeans(s, a);
    MapAtKind(s, a);
    FoundRead(Known(s), a);
    MapAtFine(s, a);
    var at, l := MapAt(s, a).at, V.FindMap(Known(s), a).l;
    var r := SetKey(s, Get(s, at).id, a.last, t);
    KnownNotTemp(s, l);
    KnownCell(s, l);
    SlotInOf(s, at, l);
    ContainerIn(s, at, l);
    SetKeyFine(s, Get(s, at).id, l, a.last, t);
    SetKeyMeans(s, l, a.mids, at, a.last, t);
    UsesScope(s, r, t);
    KeptMore(s, r, {l, t}, Temps(s) + {l});
    KnownHolds(s, r, l);
  }

  // ---------------------------------------------------------------- new variables

  lemma BindMeans(s: Store, sym: Sym, t: Loc)
    requires Fine(s) && s.tables != [] && t in Temps(s) && t in s.cells && !s.cells[t].VRef?
    ensures Known(s).tables != []
    ensures var r := BindTop(s, sym, t);
            Fine(r) && Known(r) == V.NewVariable(Known(s), sym, t, PlainOf(s, t))
  {
    hide ForestBy, Scoped, Locs, ScopeOk, Strip;
    var r := BindTop(s, sym, t);
    BindFine(s, sym, t);
    BindLocs(s, sym, t);
    TablesAside(s, ForestOf(s), r);
    KnownIs(s);
    KnownIs(r);
    var w := V.NewVariable(Known(s), sym, t, PlainOf(s, t));
    hide Known, Fine;
    assert Known(r).tables == w.tables;
    assert Known(r).cells == w.cells;
  }

  lemma BindLocs(s: Store, sym: Sym, t: Loc)
    requires Fine(s) && s.tables != []
    ensures Locs(BindTop(s, sym, t).tables) == Locs(s.tables) + {t}
  {
    LocsTop(s);
    LocsPush(Under(s), [Bind(sym, t)] + Top(s));
    LocsOfCons(Bind(sym, t), Top(s));
  }

  /** Names nothing has yet, all different. */
  predicate NewNames(s: Store, names: seq<Loc>, n: nat) { |names| == n && V.Unused(s.cells.Keys, names) }

  function From(l: Loc, n: nat): (names: seq<Loc>)
    ensures |names| == n && forall i | 0 <= i < n :: names[i] == l + i
  {
    seq(n, i => l + i)
  }

  /** var a = ..., b = ..., ... */
  lemma {:induction false} DeclareMeans(fl: Floats, s: Store, items: seq<DeclItem>) returns (names: seq<Loc>)
    requires Fine(s) && s.tables != []
    ensures NewNames(s, names, |items|) && Known(s).tables != []
    ensures OutcomeMeans(Declare(fl, s, items), V.Introduce(fl, Known(s), items, names))
    decreases |items|
  {
    hide Fine, Known, Lookup, BindTop, Build, V.Make, MeansBut, V.NewVariable, Adds, Temps;
    KnownTables(s);
    NextNew(s, |items|);
    names := From(s.next, |items|);
    if items != [] && Lookup(Top(s), items[0].sym).None? {
      var b := match items[0].rhs case None => Pack(Fresh(s, VNone)) case Some(rhs) => Build(fl, s, rhs);
      var m := match items[0].rhs
               case None => V.Made(Known(s), PLeaf(VNone))
               case Some(rhs) => V.Make(fl, Known(s), rhs);
      ItemOfDecl(fl, s, items[0], b, m);
      MeansKind(s, b, m);
      match b {
        case Bad(s1, e) =>
        case Got(s1, t) =>
          var r := SetTop(s1, items[0].sym, t);
          AddsBound(s, s1, items[0].sym, t);
          AddedLeaks(s, s1, t);
          TopHere(s, s1, t);
          BindCells(s1, items[0].sym, t);
          BindMeans(s1, items[0].sym, t);
          var rest := DeclareMeans(fl, r, items[1..]);
          names := [t] + rest;
          NamesGrow(s, s1, t, r, rest, |items| - 1);
      }
    }
  }

  lemma NextNew(s: Store, n: nat)
    requires Fine(s)
    ensures NewNames(s, From(s.next, n), n)
  {
    LiveCells(s);
  }

  lemma ItemOfDecl(fl: Floats, s: Store, item: DeclItem, b: Built, m: V.Made)
    requires Fine(s)
    requires b == match item.rhs case None => Pack(Fresh(s, VNone)) case Some(rhs) => Build(fl, s, rhs)
    requires m == match item.rhs case None => V.Made(Known(s), PLeaf(VNone)) case Some(rhs) => V.Make(fl, Known(s), rhs)
    ensures Means(s, b, m) && BuiltWell(s, b)
  {
    hide Fine, Known, Build, V.Make, MeansBut, Adds, Leaks;
    match item.rhs {
      case None =>
        FreshMeans(s, VNone);
        FreshFine(s, VNone);
        FreshNames(s, VNone);
      case Some(rhs) =>
        BuildMeans(fl, s, rhs);
        BuildWell(fl, s, rhs);
    }
  }

  lemma TopHere(s: Store, s1: Store, t: Loc)
    requires Adds(s, s1, t) && s.tables != []
    ensures s1.tables == s.tables
  {
  }

  lemma NamesGrow(s: Store, s1: Store, t: Loc, r: Store, rest: seq<Loc>, n: nat)
    requires Adds(s, s1, t) && r.cells == s1.cells && NewNames(r, rest, n)
    ensures NewNames(s, [t] + rest, n + 1)
  {
  }

  // ---------------------------------------------------------------- arguments

  lemma ArgMeans(fl: Floats, s: Store, arg: Arg)
    requires Fine(s) && s.tables != [] && arg.ByRhs?
    ensures Known(s).tables != []
    ensures Means(s, BuildArg(fl, s, arg), V.MakeArg(fl, Known(s), arg))
  {
    hide Fine, Known, OnFound, Variable, EntryAt, Build, V.Make, V.MakeNamed, V.MakeEntry, MeansBut;
    KnownTables(s);
    var k := |Under(s)|;
    match arg.rhs
    case RMoveId(x) => NamedRhsMeans(s, k, x, true);
    case RCopyId(x) => NamedRhsMeans(s, k, x, false);
    case RMoveAccess(a) => EntryRhsMeans(s, a, UndeclaredVar, true);
    case RCopyAccess(a) => EntryRhsMeans(s, a, UndeclaredVar, false);
    case _ => BuildMeans(fl, s, arg.rhs);
  }

  /** A reference to one of the caller's variables becomes a new variable. */
  lemma RefMeans(s: Store, sym: Sym, l: Loc)
    requires Fine(s) && s.tables != [] && l in Locs(Under(s)) + s.ext && l in s.cells && !s.cells[l].VRef?
    ensures Known(s).tables != [] && s.next !in s.cells
    ensures var r := BindTop(Fresh(s, VRef(l)).0, sym, s.next);
            Fine(r) && Known(r) == V.NewVariable(Known(s), sym, s.next, PLeaf(VRef(l)))
  {
    hide ForestBy, Scoped, Locs, ScopeOk, Strip;
    var s1 := Fresh(s, VRef(l)).0;
    var r := BindTop(s1, sym, s.next);
    BindRefFine(s, sym, l);
    LiveCells(s);
    FreshKeeps(s, ForestOf(s), VRef(l));
    TablesAside(s1, ForestOf(s)[s.next := Leaf(VRef(l))], r);
    TreesAre(r, ForestOf(s)[s.next := Leaf(VRef(l))]);
    StripLeaf(VRef(l));
    FreshLocs(s, sym, VRef(l));
    KnownIs(s);
    KnownIs(r);
    var w := V.NewVariable(Known(s), sym, s.next, PLeaf(VRef(l)));
    hide Known, Fine;
    assert Known(r).tables == w.tables;
    assert Known(r).cells == w.cells;
  }

  lemma FreshLocs(s: Store, sym: Sym, v: Value)
    requires s.tables != []
    ensures Locs(BindTop(Fresh(s, v).0, sym, s.next).tables) == Locs(s.tables) + {s.next}
  {
    LocsTop(s);
    LocsPush(Under(s), [Bind(sym, s.next)] + Top(s));
    LocsOfCons(Bind(sym, s.next), Top(s));
  }

  /** What was built for a formal, bound to it, is a new variable with what was made. */
  ghost predicate ArgMade(s: Store, sym: Sym, b: Built, m: V.Made) {
    match b
    case Bad(s1, e) => Fine(s1) && m == V.Unmade(Known(s1), e)
    case Got(s1, t) => m.Made? && m.w.tables != [] && ArgSet(s, s1, sym, t, SetTop(s1, sym, t), m)
  }

  ghost predicate ArgSet(s: Store, s1: Store, sym: Sym, t: Loc, r: Store, m: V.Made)
    requires m.Made? && m.w.tables != []
  {
    && ArgBound(s, sym, r, t) && r.cells == s1.cells && s.cells.Keys <= r.cells.Keys && t !in s.cells && t in r.cells
    && Known(r) == V.NewVariable(m.w, sym, t, m.p)
  }

  /** One argument, or none, bound to one formal. */
  lemma BindOneMeans(fl: Floats, s: Store, sym: Sym, args: seq<Arg>)
    requires Fine(s) && s.tables != [] && Lookup(Top(s), sym).None?
    ensures Known(s).tables != []
    ensures ArgMade(s, sym, if args == [] then Pack(Fresh(s, VNone)) else BuildArg(fl, s, args[0]),
                    if args == [] then V.Made(Known(s), PLeaf(VNone)) else V.MakeArg(fl, Known(s), args[0]))
  {
    hide Fine, Known, Lookup, BuildArg, V.MakeArg, MeansBut, V.NewVariable, Adds, Temps, ArgBound, BindTop;
    KnownTables(s);
    if args != [] && args[0].ById? {
      RefArgMeans(fl, s, sym, args[0].sym);
    } else {
      var b := if args == [] then Pack(Fresh(s, VNone)) else BuildArg(fl, s, args[0]);
      var m := if args == [] then V.Made(Known(s), PLeaf(VNone)) else V.MakeArg(fl, Known(s), args[0]);
      ValueArgMeans(fl, s, args, b, m);
      MeansKind(s, b, m);
      if b.Got? {
        ValueArgWell(s, sym, b.s, b.l);
        AddedLeaks(s, b.s, b.l);
        TopHere(s, b.s, b.l);
        AddsBound(s, b.s, sym, b.l);
        BindMeans(b.s, sym, b.l);
        KnownTables(b.s);
        AddsCells(s, b.s, b.l);
        BindCells(b.s, sym, b.l);
      }
    }
  }

  lemma ValueArgMeans(fl: Floats, s: Store, args: seq<Arg>, b: Built, m: V.Made)
    requires Fine(s) && s.tables != [] && Known(s).tables != [] && (args != [] ==> args[0].ByRhs?)
    requires b == if args == [] then Pack(Fresh(s, VNone)) else BuildArg(fl, s, args[0])
    requires m == if args == [] then V.Made(Known(s), PLeaf(VNone)) else V.MakeArg(fl, Known(s), args[0])
    ensures Means(s, b, m) && BuiltWell(s, b)
  {
    hide Fine, Known, BuildArg, V.MakeArg, MeansBut, Adds, Leaks;
    if args == [] {
      FreshMeans(s, VNone);
      FreshFine(s, VNone);
      FreshNames(s, VNone);
    } else {
      ArgMeans(fl, s, args[0]);
      BuildArgWell(fl, s, args[0]);
    }
  }

  lemma AddsCells(s: Store, s1: Store, t: Loc)
    requires Adds(s, s1, t)
    ensures s.cells.Keys <= s1.cells.Keys && t !in s.cells && t in s1.cells
  {
  }

  lemma BindCells(s: Store, sym: Sym, t: Loc)
    ensures BindTop(s, sym, t).cells == s.cells
  {
  }

  lemma RefArgMeans(fl: Floats, s: Store, sym: Sym, x: Sym)
    requires Fine(s) && s.tables != [] && Lookup(Top(s), sym).None?
    ensures Known(s).tables != []
    ensures ArgMade(s, sym, BuildArg(fl, s, ById(x)), V.MakeArg(fl, Known(s), ById(x)))
  {
    hide Fine, Known, Lookup, Resolve, V.Denoted, V.NewVariable, ArgBound, Locs;
    KnownTables(s);
    var k := |Under(s)|;
    NamedMeans(s, k, x);
    if Resolve(s, k, x).Some? {
      var l := Resolve(s, k, x).value;
      RefArgWell(s, sym, x);
      LowerVariable(s, x);
      RefMeans(s, sym, l);
    }
  }

  lemma LowerVariable(s: Store, x: Sym)
    requires Fine(s) && Resolve(s, |Under(s)|, x).Some?
    ensures var l := Resolve(s, |Under(s)|, x).value;
            l in Locs(Under(s)) + s.ext && l in s.cells && !s.cells[l].VRef?
  {
    ResolveFacts(s, |Under(s)|, x);
    UnderPrefix(s);
  }

  lemma {:induction false} BindArgsMeans(fl: Floats, s: Store, formals: seq<Sym>, args: seq<Arg>)
    returns (names: seq<Loc>)
    requires Fine(s) && s.tables != [] && Distinct(formals) && Unbound(Top(s), formals)
    ensures NewNames(s, names, |formals|) && Known(s).tables != []
    ensures OutcomeMeans(BindArgs(fl, s, formals, args), V.PassArgs(fl, Known(s), formals, args, names))
    decreases |formals|
  {
    hide Fine, Known, Lookup, BuildArg, SetTop, V.MakeArg, V.NewVariable, Distinct, Temps;
    KnownTables(s);
    NextNew(s, |formals|);
    names := From(s.next, |formals|);
    if formals == [] {
    } else {
      var sym := formals[0];
      HeadUnbound(Top(s), formals);
      BindOneMeans(fl, s, sym, args);
      FreshNames(s, VNone);
      var b := if args == [] then Pack(Fresh(s, VNone)) else BuildArg(fl, s, args[0]);
      if b.Got? {
        var r := SetTop(b.s, sym, b.l);
        StillUnbound(Top(s), formals, b.l);
        var rest := BindArgsMeans(fl, r, formals[1..], if args == [] then [] else args[1..]);
        names := [b.l] + rest;
      }
    }
  }

  // ---------------------------------------------------------------- opening and closing

  ghost predicate OpenedAs(o: Outcome, a: V.After) {
    match a
    case Then(w) => o.Good? && Fine(o.s) && Known(o.s) == w
    case Not(w, e) =>
      o.Failed? && o.e == e && Fine(o.s) && w.tables != [] && Known(o.s) == V.Closed(w)
  }

  /** Opening a block for a call; if an argument fails, the block is closed again. */
  lemma OpenMeans(fl: Floats, s: Store, p: Proc, args: Option<seq<Arg>>) returns (names: seq<Loc>)
    requires Fine(s) && Distinct(p.formals)
    ensures NewNames(s, names, |p.formals|)
    ensures var w, o := V.Opened(Known(s)), Open(fl, s, p, args);
            OpenedAs(o, if args.None? then V.Then(w) else V.PassArgs(fl, w, p.formals, args.value, names))
  {
    hide Fine, Known, BindArgs, V.PassArgs, Pop, Distinct;
    PushFine(s);
    PushMeans(s);
    NextNew(s, |p.formals|);
    names := From(s.next, |p.formals|);
    if args.Some? {
      names := BindArgsMeans(fl, Push(s), p.formals, args.value);
      BindArgsWell(fl, Push(s), p.formals, args.value);
      var o := BindArgs(fl, Push(s), p.formals, args.value);
      if o.Failed? {
        KnownTables(o.s);
        PopMeans(o.s);
        TopSplit(o.s);
      }
    }
  }

  lemma PushMeans(s: Store)
    requires Fine(s)
    ensures Fine(Push(s)) && Known(Push(s)) == V.Opened(Known(s))
  {
    hide ForestBy, Scoped, Locs, Strip, ScopeOk;
    PushFine(s);
    LocsPush(s.tables, []);
    assert LocsOf([]) == {};
    TablesAside(s, ForestOf(s), Push(s));
    KnownIs(s);
    KnownIs(Push(s));
    assert Known(Push(s)).cells == Known(s).cells;
  }

  lemma {:induction false} DropAllTrees(s: Store, t: Table)
    requires Owned(s)
    ensures Owned(DropAll(s, t)) && ForestOf(DropAll(s, t)) == ForestOf(s) - LocsOf(t)
    decreases |t|
  {
    hide ForestBy, Drop;
    if t == [] {
      assert LocsOf(t) == {};
      assert ForestOf(s) - {} == ForestOf(s);
    } else {
      var l := t[0].loc;
      DropKeeps(s, ForestOf(s), l);
      ForestIs(Drop(s, l), ForestOf(s) - {l});
      DropAllTrees(Drop(s, l), t[1..]);
      LocsOfCons(t[0], t[1..]);
      assert [t[0]] + t[1..] == t;
    }
  }

  /** Closing a block forgets its variables and changes no other. */
  lemma PopMeans(s: Store)
    requires Fine(s) && s.tables != []
    ensures Known(s).tables != []
    ensures Fine(Pop(s)) && Known(Pop(s)) == V.Closed(Known(s))
  {
    hide ForestBy, Scoped, Locs, LocsOf, Strip, ScopeOk, DropAll;
    var r, s1 := Pop(s), s.(tables := Under(s));
    PopFine(s);
    LocsTop(s);
    TopApart(s);
    TablesAside(s, ForestOf(s), s1);
    DropAllTrees(s1, Top(s));
    TreesAre(r, ForestOf(r)) by { OwnedForest(r); }
    KnownIs(s);
    KnownIs(r);
    assert Known(r).cells == Known(s).cells - LocsOf(Top(s));
  }

  lemma OwnedForest(s: Store)
    requires Fine(s)
    ensures ForestBy(s, ForestOf(s))
  {
  }

  lemma TopApart(s: Store)
    requires Fine(s) && s.tables != []
    ensures LocsOf(Top(s)) !! Locs(Under(s)) + s.ext
  {
    TopSplit(s);
    ScopedPush(Under(s), Top(s), s.cells, s.ext);
    TableLeaves(s, Top(s), Locs(Under(s)) + s.ext);
  }
}
