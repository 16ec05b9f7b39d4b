/** The value semantics looks at the names of variables only to tell them apart: rename every variable
    of a world and whatever it does comes out renamed. */
module Renaming {
  import opened Wrappers
  import opened Heap
  import opened Store
  import opened Language
  import opened ValueSemantics

  type Renames = Loc -> Loc

  ghost predicate Injective(f: Renames) { forall a, b | f(a) == f(b) :: a == b }

  function RenValue(f: Renames, v: Value): (r: Value) { if v.VRef? then VRef(f(v.loc)) else v }

  function RenPlain(f: Renames, p: Plain): (r: Plain) {
    match p
    case PLeaf(v) => PLeaf(RenValue(f, v))
    case PNode(isMap, keys, kids) =>
      PNode(isMap, keys, seq(|kids|, i requires 0 <= i < |kids| => RenPlain(f, kids[i])))
  }

  function RenTable(f: Renames, t: Table): (r: Table)
    ensures |r| == |t| && forall i | 0 <= i < |t| :: r[i] == Bind(t[i].sym, f(t[i].loc))
  {
    seq(|t|, i requires 0 <= i < |t| => Bind(t[i].sym, f(t[i].loc)))
  }

  function RenOption(f: Renames, l: Option<Loc>): (r: Option<Loc>) {
    match l case None => None case Some(m) => Some(f(m))
  }

  /** x is w with its variables renamed. */
  ghost predicate Alike(f: Renames, w: World, x: World) {
    && |x.tables| == |w.tables| && (forall k | 0 <= k < |w.tables| :: x.tables[k] == RenTable(f, w.tables[k]))
    && CellsAlike(f, w.cells, x.cells)
  }

  /** m is the new name of a variable. */
  ghost predicate IsNew(f: Renames, c: map<Loc, Plain>, m: Loc) { exists l :: l in c && f(l) == m }

  ghost predicate CellsAlike(f: Renames, c: map<Loc, Plain>, d: map<Loc, Plain>) {
    && (forall l :: l in c <==> f(l) in d)
    && (forall m | m in d :: IsNew(f, c, m))
    && forall l | l in c && f(l) in d :: d[f(l)] == RenPlain(f, c[l])
  }

  function Same(): (f: Renames) { l => l }

  // ---------------------------------------------------------------- plain values

  lemma RenNode(f: Renames, p: Plain)
    requires p.PNode?
    ensures var r := RenPlain(f, p);
            && r.PNode? && r.isMap == p.isMap && r.keys == p.keys && |r.kids| == |p.kids|
            && forall i | 0 <= i < |p.kids| :: r.kids[i] == RenPlain(f, p.kids[i])
  {
  }

  lemma RenEntry(f: Renames, p: Plain, sym: Sym)
    ensures EntryOf(RenPlain(f, p), sym) == EntryOf(p, sym)
    ensures Shown(RenPlain(f, p)) == Shown(p)
  {
  }

  lemma {:induction false} RenRead(f: Renames, p: Plain, path: seq<Sym>)
    ensures Read(RenPlain(f, p), path).Some? == Read(p, path).Some?
    ensures Read(p, path).Some? ==> Read(RenPlain(f, p), path).value == RenPlain(f, Read(p, path).value)
    decreases |path|
  {
    if path == [] {
    } else {
      RenEntry(f, p, path[0]);
      if EntryOf(p, path[0]).Some? {
        RenNode(f, p);
        RenRead(f, p.kids[EntryOf(p, path[0]).value], path[1..]);
      }
    }
  }

  lemma {:induction false} RenWrite(f: Renames, p: Plain, path: seq<Sym>, q: Plain)
    requires Read(p, path).Some?
    ensures Read(RenPlain(f, p), path).Some?
    ensures Write(RenPlain(f, p), path, RenPlain(f, q)) == RenPlain(f, Write(p, path, q))
    decreases |path|
  {
    RenRead(f, p, path);
    if path == [] {
    } else {
      RenEntry(f, p, path[0]);
      RenNode(f, p);
      var i := EntryOf(p, path[0]).value;
      RenWrite(f, p.kids[i], path[1..], q);
      RenKid(f, p, i, Write(p.kids[i], path[1..], q));
    }
  }

  lemma RenKid(f: Renames, p: Plain, i: nat, k: Plain)
    requires p.PNode? && i < |p.kids|
    ensures RenPlain(f, p).PNode? && |RenPlain(f, p).kids| == |p.kids|
    ensures RenPlain(f, p.(kids := p.kids[i := k])) == RenPlain(f, p).(kids := RenPlain(f, p).kids[i := RenPlain(f, k)])
  {
    var q := p.(kids := p.kids[i := k]);
    RenNode(f, p);
    RenNode(f, q);
    hide RenPlain;
    assert RenPlain(f, q).kids == RenPlain(f, p).kids[i := RenPlain(f, k)];
  }

  lemma RenWith(f: Renames, p: Plain, key: Sym, q: Plain)
    ensures With(RenPlain(f, p), key, RenPlain(f, q)) == RenPlain(f, With(p, key, q))
  {
    RenEntry(f, p, key);
    if p.PNode? {
      RenNode(f, p);
      if p.isMap && EntryOf(p, key).Some? {
        RenKid(f, p, EntryOf(p, key).value, q);
      } else {
        var r := With(p, key, q);
        RenNode(f, r);
        hide RenPlain;
        assert With(RenPlain(f, p), key, RenPlain(f, q)).kids == RenPlain(f, r).kids;
      }
    }
  }

  // ---------------------------------------------------------------- variables

  lemma RenContent(f: Renames, w: World, x: World, l: Loc)
    requires Alike(f, w, x)
    ensures Content(x, f(l)) == RenPlain(f, Content(w, l))
  {
    RenEntry(f, PLeaf(VNone), 0);
  }

  lemma {:induction false} RenLookup(f: Renames, t: Table, sym: Sym)
    ensures Lookup(RenTable(f, t), sym) == RenOption(f, Lookup(t, sym))
    decreases |t|
  {
    if t != [] && t[0].sym != sym {
      RenLookup(f, t[1..], sym);
      assert RenTable(f, t)[1..] == RenTable(f, t[1..]);
    }
  }

  lemma {:induction false} RenDenoted(f: Renames, w: World, x: World, k: nat, sym: Sym)
    requires Alike(f, w, x) && k <= |w.tables|
    ensures Denoted(x, k, sym) == RenOption(f, Denoted(w, k, sym))
    decreases k
  {
    hide RenPlain;
    if k == 0 {
    } else {
      RenLookup(f, w.tables[k - 1], sym);
      match Lookup(w.tables[k - 1], sym) {
        case Some(l) => RenContent(f, w, x, l); RenLeaf(f, Content(w, l));
        case None => RenDenoted(f, w, x, k - 1, sym);
      }
    }
  }

  lemma RenLeaf(f: Renames, p: Plain)
    ensures RenPlain(f, p).PLeaf? == p.PLeaf?
    ensures p.PLeaf? ==> RenPlain(f, p).v == RenValue(f, p.v)
  {
  }

  lemma RenHold(f: Renames, w: World, x: World, l: Loc, p: Plain)
    requires Injective(f) && Alike(f, w, x)
    ensures Alike(f, Hold(w, l, p), Hold(x, f(l), RenPlain(f, p)))
  {
    hide RenPlain, RenTable;
    CellsHold(f, w.cells, x.cells, l, p);
  }

  lemma CellsHold(f: Renames, c: map<Loc, Plain>, d: map<Loc, Plain>, l: Loc, p: Plain)
    requires Injective(f) && CellsAlike(f, c, d)
    ensures CellsAlike(f, c[l := p], d[f(l) := RenPlain(f, p)])
  {
    hide RenPlain, IsNew;
    var c', d' := c[l := p], d[f(l) := RenPlain(f, p)];
    forall m | m in d' ensures IsNew(f, c', m) { NewStays(f, c, l, p, m); }
  }

  lemma NewStays(f: Renames, c: map<Loc, Plain>, l: Loc, p: Plain, m: Loc)
    requires m == f(l) || IsNew(f, c, m)
    ensures IsNew(f, c[l := p], m)
  {
    if m != f(l) {
      var n :| n in c && f(n) == m;
      assert n in c[l := p];
    } else {
      assert l in c[l := p];
    }
  }

  // ---------------------------------------------------------------- expressions

  ghost predicate FoundAlike(f: Renames, a: MapFound, b: MapFound) {
    match a
    case NoMap(e) => b == NoMap(e)
    case MapIn(l, m) => b == MapIn(f(l), RenPlain(f, m))
  }

  lemma RenFindMap(f: Renames, w: World, x: World, a: Access)
    requires Alike(f, w, x)
    ensures FoundAlike(f, FindMap(w, a), FindMap(x, a))
  {
    hide Alike, Denoted, Read, Content, RenPlain;
    TablesAlike(f, w, x);
    RenDenoted(f, w, x, |w.tables|, a.root);
    if DenotedAny(w, a.root).Some? {
      var l := DenotedAny(w, a.root).value;
      RenContent(f, w, x, l);
      RenRead(f, Content(w, l), a.mids);
      if Read(Content(w, l), a.mids).Some? { RenKind(f, Read(Content(w, l), a.mids).value); }
    }
  }

  lemma TablesAlike(f: Renames, w: World, x: World)
    requires Alike(f, w, x)
    ensures |x.tables| == |w.tables|
  {
  }

  lemma RenKind(f: Renames, p: Plain)
    ensures RenPlain(f, p).PNode? == p.PNode?
    ensures p.PNode? ==> RenPlain(f, p).isMap == p.isMap
  {
  }

  lemma {:induction false} RenValueOf(fl: Floats, f: Renames, w: World, x: World, e: Expr)
    requires Alike(f, w, x)
    ensures ValueOf(fl, x, e) == ValueOf(fl, w, e)
    decreases e
  {
    hide Alike, Denoted, Content, RenPlain, FindMap, BiOp, Shown, EntryOf;
    match e {
      case EId(sym) =>
        TablesAlike(f, w, x);
        RenDenoted(f, w, x, |w.tables|, sym);
        if DenotedAny(w, sym).Some? {
          RenContent(f, w, x, DenotedAny(w, sym).value);
          RenEntry(f, Content(w, DenotedAny(w, sym).value), sym);
        }
      case EAccess(a) =>
        RenFindMap(f, w, x, a);
        if FindMap(w, a).MapIn? {
          var m := FindMap(w, a).m;
          RenEntry(f, m, a.last);
          if EntryOf(m, a.last).Some? {
            RenNode(f, m);
            RenEntry(f, m.kids[EntryOf(m, a.last).value], 0);
          }
        }
      case ENeg(g) => RenValueOf(fl, f, w, x, g);
      case ENot(g) => RenValueOf(fl, f, w, x, g);
      case EBin(op, l, r) =>
        RenValueOf(fl, f, w, x, l);
        RenValueOf(fl, f, w, x, r);
      case _ =>
    }
  }

  // ---------------------------------------------------------------- right sides

  ghost predicate MadeAlike(f: Renames, m: Made, n: Made) {
    match m
    case Made(w, p) => n.Made? && Alike(f, w, n.w) && n.p == RenPlain(f, p)
    case Unmade(w, e) => n.Unmade? && Alike(f, w, n.w) && n.e == e
  }

  lemma RenMakeNamed(f: Renames, w: World, x: World, k: nat, sym: Sym, move: bool)
    requires Injective(f) && Alike(f, w, x) && k <= |w.tables| == |x.tables|
    ensures MadeAlike(f, MakeNamed(w, k, sym, move), MakeNamed(x, k, sym, move))
  {
    hide Alike, Denoted, Content, RenPlain, Hold;
    RenDenoted(f, w, x, k, sym);
    if Denoted(w, k, sym).Some? {
      var l := Denoted(w, k, sym).value;
      RenContent(f, w, x, l);
      RenNone(f);
      RenHold(f, w, x, l, PLeaf(VNone));
    }
  }

  lemma RenNone(f: Renames)
    ensures RenPlain(f, PLeaf(VNone)) == PLeaf(VNone)
    ensures forall v: Value | !v.VRef? :: RenPlain(f, PLeaf(v)) == PLeaf(v)
    ensures forall isMap :: RenPlain(f, PNode(isMap, [], [])) == PNode(isMap, [], [])
  {
  }

  lemma RenMakeEntry(f: Renames, w: World, x: World, a: Access, e: Error, move: bool)
    requires Injective(f) && Alike(f, w, x)
    ensures MadeAlike(f, MakeEntry(w, a, e, move), MakeEntry(x, a, e, move))
  {
    hide Alike, Denoted, Content, RenPlain, Hold, Read, Write;
    TablesAlike(f, w, x);
    RenDenoted(f, w, x, |w.tables|, a.root);
    if DenotedAny(w, a.root).Some? {
      var l, path := DenotedAny(w, a.root).value, a.mids + [a.last];
      RenContent(f, w, x, l);
      RenRead(f, Content(w, l), path);
      RenNone(f);
      if Read(Content(w, l), path).Some? {
        RenWrite(f, Content(w, l), path, PLeaf(VNone));
        RenHold(f, w, x, l, Write(Content(w, l), path, PLeaf(VNone)));
      }
    }
  }

  lemma {:induction false} RenMake(fl: Floats, f: Renames, w: World, x: World, rhs: Rhs)
    requires Injective(f) && Alike(f, w, x)
    ensures MadeAlike(f, Make(fl, w, rhs), Make(fl, x, rhs))
    decreases rhs
  {
    hide Alike, RenPlain, MakeNamed, MakeEntry, ValueOf, Injective;
    TablesAlike(f, w, x);
    RenNone(f);
    match rhs {
      case RExpr(e) =>
        RenValueOf(fl, f, w, x, e);
        ValueNoRef(fl, w, e);
      case RInit(isMap, items) => RenMakeItems(fl, f, w, x, PNode(isMap, [], []), items);
      case RMoveId(sym) => RenMakeNamed(f, w, x, |w.tables|, sym, true);
      case RCopyId(sym) => RenMakeNamed(f, w, x, |w.tables|, sym, false);
      case RMoveAccess(a) => RenMakeEntry(f, w, x, a, InvalidMapAccess, true);
      case RCopyAccess(a) => RenMakeEntry(f, w, x, a, InvalidMapAccess, false);
    }
  }

  lemma {:induction false} ValueNoRef(fl: Floats, w: World, e: Expr)
    ensures ValueOf(fl, w, e).Some? ==> !ValueOf(fl, w, e).value.VRef?
  {
  }

  lemma {:induction false} RenMakeItems(fl: Floats, f: Renames, w: World, x: World, box: Plain, items: seq<Item>)
    requires Injective(f) && Alike(f, w, x)
    ensures MadeAlike(f, MakeItems(fl, w, box, items), MakeItems(fl, x, RenPlain(f, box), items))
    decreases items
  {
    hide Alike, RenPlain, With, Injective;
    if items == [] {
    } else {
      RenMakeItem(fl, f, w, x, items[0]);
      var m, n := MakeItem(fl, w, items[0]), MakeItem(fl, x, items[0]);
      if m.Made? {
        RenWith(f, box, items[0].key, m.p);
        RenMakeItems(fl, f, m.w, n.w, With(box, items[0].key, m.p), items[1..]);
      }
    }
  }

  lemma {:induction false} RenMakeItem(fl: Floats, f: Renames, w: World, x: World, item: Item)
    requires Injective(f) && Alike(f, w, x)
    ensures MadeAlike(f, MakeItem(fl, w, item), MakeItem(fl, x, item))
    decreases item
  {
    RenMake(fl, f, w, x, item.rhs);
  }

  // ---------------------------------------------------------------- statements

  ghost predicate AfterAlike(f: Renames, a: After, b: After) {
    match a
    case Then(w) => b.Then? && Alike(f, w, b.w)
    case Not(w, e) => b.Not? && Alike(f, w, b.w) && b.e == e
  }

  lemma RenSetVariable(fl: Floats, f: Renames, w: World, x: World, sym: Sym, rhs: Rhs)
    requires Injective(f) && Alike(f, w, x)
    ensures AfterAlike(f, SetVariable(fl, w, sym, rhs), SetVariable(fl, x, sym, rhs))
  {
    hide Alike, RenPlain, Make, Denoted, Injective, Hold;
    RenMake(fl, f, w, x, rhs);
    var m, n := Make(fl, w, rhs), Make(fl, x, rhs);
    if m.Made? {
      TablesAlike(f, m.w, n.w);
      RenDenoted(f, m.w, n.w, |m.w.tables|, sym);
      if DenotedAny(m.w, sym).Some? { RenHold(f, m.w, n.w, DenotedAny(m.w, sym).value, m.p); }
    }
  }

  lemma RenSetEntry(fl: Floats, f: Renames, w: World, x: World, a: Access, rhs: Rhs)
    requires Injective(f) && Alike(f, w, x)
    ensures AfterAlike(f, SetEntry(fl, w, a, rhs), SetEntry(fl, x, a, rhs))
  {
    hide Alike, RenPlain, Make, FindMap, Injective, Hold, Write, Read, With, Content;
    RenMake(fl, f, w, x, rhs);
    var m, n := Make(fl, w, rhs), Make(fl, x, rhs);
    if m.Made? {
      RenFindMap(f, m.w, n.w, a);
      FoundReads(m.w, a);
      FoundReads(n.w, a);
      if FindMap(m.w, a).MapIn? {
        var l, p := FindMap(m.w, a).l, FindMap(m.w, a).m;
        RenContent(f, m.w, n.w, l);
        RenWith(f, p, a.last, m.p);
        RenWrite(f, Content(m.w, l), a.mids, With(p, a.last, m.p));
        RenHold(f, m.w, n.w, l, Write(Content(m.w, l), a.mids, With(p, a.last, m.p)));
      }
    }
  }

  lemma FoundReads(w: World, a: Access)
    ensures FindMap(w, a).MapIn? ==> Read(Content(w, FindMap(w, a).l), a.mids).Some?
  {
  }

  lemma RenNewVariable(f: Renames, w: World, x: World, sym: Sym, l: Loc, p: Plain)
    requires Injective(f) && Alike(f, w, x) && w.tables != []
    ensures x.tables != []
    ensures Alike(f, NewVariable(w, sym, l, p), NewVariable(x, sym, f(l), RenPlain(f, p)))
  {
    hide RenPlain, CellsAlike, Injective;
    var n := |w.tables| - 1;
    CellsHold(f, w.cells, x.cells, l, p);
    assert RenTable(f, [Bind(sym, l)] + w.tables[n]) == [Bind(sym, f(l))] + RenTable(f, w.tables[n]);
  }

  function RenNames(f: Renames, names: seq<Loc>): (r: seq<Loc>)
    ensures |r| == |names| && forall i | 0 <= i < |names| :: r[i] == f(names[i])
  {
    seq(|names|, i requires 0 <= i < |names| => f(names[i]))
  }

  lemma {:induction false} RenIntroduce(fl: Floats, f: Renames, w: World, x: World, items: seq<DeclItem>,
                                        names: seq<Loc>)
    requires Injective(f) && Alike(f, w, x) && w.tables != [] && |names| >= |items|
    ensures x.tables != []
    ensures AfterAlike(f, Introduce(fl, w, items, names), Introduce(fl, x, items, RenNames(f, names)))
    decreases |items|
  {
    hide Alike, RenPlain, Make, Injective, NewVariable, Lookup;
    TablesAlike(f, w, x);
    if items == [] {
    } else {
      var n := |w.tables| - 1;
      TopAlike(f, w, x);
      RenLookup(f, w.tables[n], items[0].sym);
      if Lookup(w.tables[n], items[0].sym).None? {
        RenNone(f);
        if items[0].rhs.Some? { RenMake(fl, f, w, x, items[0].rhs.value); }
        var a := match items[0].rhs case None => Made(w, PLeaf(VNone)) case Some(rhs) => Make(fl, w, rhs);
        var b := match items[0].rhs case None => Made(x, PLeaf(VNone)) case Some(rhs) => Make(fl, x, rhs);
        assert MadeAlike(f, a, b);
        if a.Made? {
          RenNewVariable(f, a.w, b.w, items[0].sym, names[0], a.p);
          var w1 := NewVariable(a.w, items[0].sym, names[0], a.p);
          var x1 := NewVariable(b.w, items[0].sym, f(names[0]), b.p);
          MoreTables(a.w, items[0].sym, names[0], a.p);
          RenIntroduce(fl, f, w1, x1, items[1..], names[1..]);
          assert RenNames(f, names)[1..] == RenNames(f, names[1..]);
        }
      }
    }
  }

  lemma MoreTables(w: World, sym: Sym, l: Loc, p: Plain)
    requires w.tables != []
    ensures |NewVariable(w, sym, l, p).tables| == |w.tables|
  {
  }

  lemma TopAlike(f: Renames, w: World, x: World)
    requires Alike(f, w, x) && w.tables != []
    ensures x.tables != [] && x.tables[|x.tables| - 1] == RenTable(f, w.tables[|w.tables| - 1])
  {
  }

  lemma RenMakeArg(fl: Floats, f: Renames, w: World, x: World, arg: Arg)
    requires Injective(f) && Alike(f, w, x) && w.tables != []
    ensures x.tables != []
    ensures MadeAlike(f, MakeArg(fl, w, arg), MakeArg(fl, x, arg))
  {
    hide Alike, Make, MakeNamed, MakeEntry, Denoted, Injective;
    TablesAlike(f, w, x);
    var k := |w.tables| - 1;
    match arg {
      case ById(sym) => RenDenoted(f, w, x, k, sym);
      case ByRhs(rhs) =>
        match rhs {
          case RMoveId(sym) => RenMakeNamed(f, w, x, k, sym, true);
          case RCopyId(sym) => RenMakeNamed(f, w, x, k, sym, false);
          case RMoveAccess(a) => RenMakeEntry(f, w, x, a, UndeclaredVar, true);
          case RCopyAccess(a) => RenMakeEntry(f, w, x, a, UndeclaredVar, false);
          case _ => RenMake(fl, f, w, x, rhs);
        }
    }
  }

  lemma {:induction false} RenPassArgs(fl: Floats, f: Renames, w: World, x: World, formals: seq<Sym>, args: seq<Arg>,
                                       names: seq<Loc>)
    requires Injective(f) && Alike(f, w, x) && w.tables != [] && |names| >= |formals|
    ensures x.tables != []
    ensures AfterAlike(f, PassArgs(fl, w, formals, args, names), PassArgs(fl, x, formals, args, RenNames(f, names)))
    decreases |formals|
  {
    hide Alike, RenPlain, MakeArg, Injective, NewVariable;
    TablesAlike(f, w, x);
    if formals == [] {
    } else {
      RenNone(f);
      if args != [] { RenMakeArg(fl, f, w, x, args[0]); }
      var a := if args == [] then Made(w, PLeaf(VNone)) else MakeArg(fl, w, args[0]);
      var b := if args == [] then Made(x, PLeaf(VNone)) else MakeArg(fl, x, args[0]);
      assert MadeAlike(f, a, b);
      if a.Made? {
        RenNewVariable(f, a.w, b.w, formals[0], names[0], a.p);
        MoreTables(a.w, formals[0], names[0], a.p);
        var w1 := NewVariable(a.w, formals[0], names[0], a.p);
        var x1 := NewVariable(b.w, formals[0], f(names[0]), b.p);
        RenPassArgs(fl, f, w1, x1, formals[1..], if args == [] then [] else args[1..], names[1..]);
        assert RenNames(f, names)[1..] == RenNames(f, names[1..]);
      }
    }
  }

  // ---------------------------------------------------------------- blocks

  lemma RenOpened(f: Renames, w: World, x: World)
    requires Alike(f, w, x)
    ensures Alike(f, Opened(w), Opened(x))
  {
    assert RenTable(f, []) == [];
  }

  lemma RenClosed(f: Renames, w: World, x: World)
    requires Injective(f) && Alike(f, w, x) && w.tables != []
    ensures x.tables != [] && Alike(f, Closed(w), Closed(x))
  {
    hide RenPlain, CellsAlike, Injective;
    var n := |w.tables| - 1;
    RenLocs(f, w.tables[n]);
    CellsLess(f, w.cells, x.cells, LocsOf(w.tables[n]), LocsOf(x.tables[n]));
  }

  lemma CellsLess(f: Renames, c: map<Loc, Plain>, d: map<Loc, Plain>, a: set<Loc>, b: set<Loc>)
    requires CellsAlike(f, c, d) && forall l :: l in a <==> f(l) in b
    ensures CellsAlike(f, c - a, d - b)
  {
    hide RenPlain;
    forall m | m in d - b ensures IsNew(f, c - a, m) {
      assert IsNew(f, c, m);
      var l :| l in c && f(l) == m;
      assert l in c - a;
    }
  }

  lemma RenLocs(f: Renames, t: Table)
    requires Injective(f)
    ensures forall l :: l in LocsOf(t) <==> f(l) in LocsOf(RenTable(f, t))
  {
    forall l ensures l in LocsOf(t) <==> f(l) in LocsOf(RenTable(f, t)) {
      if l in LocsOf(t) {
        var i :| 0 <= i < |t| && t[i].loc == l;
        assert RenTable(f, t)[i].loc == f(l);
      }
    }
  }

  // ---------------------------------------------------------------- nothing renamed

  lemma {:induction false} RenSame(p: Plain)
    ensures RenPlain(Same(), p) == p
    decreases p
  {
    match p
    case PLeaf(_) =>
    case PNode(_, _, kids) =>
      RenNode(Same(), p);
      forall i | 0 <= i < |kids| ensures RenPlain(Same(), kids[i]) == kids[i] { RenSame(kids[i]); }
      assert RenPlain(Same(), p).kids == kids;
  }

  lemma AlikeSame(w: World)
    ensures Injective(Same()) && Alike(Same(), w, w)
  {
    hide RenPlain;
    forall l | l in w.cells ensures RenPlain(Same(), w.cells[l]) == w.cells[l] { RenSame(w.cells[l]); }
    forall m | m in w.cells ensures IsNew(Same(), w.cells, m) { assert Same()(m) == m; }
    forall k | 0 <= k < |w.tables| ensures RenTable(Same(), w.tables[k]) == w.tables[k] {
    }
  }

  // ---------------------------------------------------------------- choosing a renaming

  /** f, but a and b change places. */
  function Swapped(f: Renames, a: Loc, b: Loc): (g: Renames) {
    l => if f(l) == a then b else if f(l) == b then a else f(l)
  }

  /** g does what f does on `keep`. */
  ghost predicate AgreesOn(f: Renames, g: Renames, keep: set<Loc>) { forall l | l in keep :: g(l) == f(l) }

  lemma CellsAgain(f: Renames, g: Renames, c: map<Loc, Plain>, d: map<Loc, Plain>)
    requires CellsAlike(f, c, d) && Injective(g) && AgreesOn(f, g, c.Keys)
    requires forall l | l in c :: RenPlain(g, c[l]) == RenPlain(f, c[l])
    ensures CellsAlike(g, c, d)
  {
    hide RenPlain;
    forall m | m in d ensures IsNew(g, c, m) {
      assert IsNew(f, c, m);
      var l :| l in c && f(l) == m;
      assert g(l) == m;
    }
    forall l ensures l in c <==> g(l) in d {
      if g(l) in d {
        assert IsNew(g, c, g(l));
      }
    }
  }

  /** Whatever two lists of unused names there are, a renaming takes one to the other and leaves what is
      in use alone. */
  lemma {:induction false} Matching(f: Renames, olds: seq<Loc>, news: seq<Loc>, keep: set<Loc>, taken: set<Loc>)
    returns (g: Renames)
    requires Injective(f) && |olds| == |news| && Unused(keep, olds) && Unused(taken, news)
    requires forall l | l in keep :: f(l) in taken
    ensures Injective(g) && AgreesOn(f, g, keep) && RenNames(g, olds) == news
    decreases |olds|
  {
    g := f;
    if olds == [] {
    } else {
      var n := |olds| - 1;
      var h := Matching(f, olds[..n], news[..n], keep, taken);
      g := Swapped(h, h(olds[n]), news[n]);
      forall i | 0 <= i < n ensures g(olds[i]) == news[i] {
        assert RenNames(h, olds[..n])[i] == news[..n][i];
        assert olds[i] != olds[n] && news[i] != news[n];
      }
      forall l | l in keep ensures g(l) == f(l) {
        assert olds[n] in olds && news[n] in news;
      }
      assert RenNames(g, olds) == news;
    }
  }
}
