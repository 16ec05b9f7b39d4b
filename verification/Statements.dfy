/** Right sides, declarations, assignments and calls: each keeps single ownership and the rules for
    references, succeeds with no local left over, and on failure leaves only forgotten locals. */
module Statements {
  import opened Wrappers
  import opened Heap
  import opened Store
  import opened Language
  import opened Ownership
  import opened OwnershipSlots
  import opened Scopes
  import opened Discipline
  import opened Blocks

  ghost predicate BuiltWell(s: Store, b: Built) {
    match b
    case Got(r, t) => Fine(r) && Adds(s, r, t)
    case Bad(r, _) => Fine(r) && Leaks(s, r)
  }

  /** Cells come and go with nothing left over. */
  predicate Steady(s: Store, r: Store) {
    SameScope(s, r) && KeepsTemps(s, r, {}) && r.cells.Keys == s.cells.Keys
  }

  lemma FoundWell(s: Store, at: Slot, l: Loc, e: Error, move: bool)
    requires Fine(s) && SlotOf(s, at, l)
    ensures BuiltWell(s, OnFound(Some(at), e, s, move))
  {
    hide Fine, Adds, Take, Dup, SlotOf;
    if move { TakeFine(s, at, l); } else { DupFine(s, at, l); }
  }

  lemma LeaksSelf(s: Store)
    requires Fine(s)
    ensures Leaks(s, s)
  {
    LiveCells(s);
  }

  lemma VariableWell(s: Store, k: nat, x: Sym, e: Error, move: bool)
    requires Fine(s) && k <= |s.tables|
    ensures BuiltWell(s, OnFound(Variable(s, k, x), e, s, move))
  {
    hide Fine, Adds, Take, Dup, SlotOf, Leaks, Resolve;
    LeaksSelf(s);
    if Resolve(s, k, x).Some? {
      VariableFine(s, k, x);
      FoundWell(s, SCell(Resolve(s, k, x).value), Resolve(s, k, x).value, e, move);
    }
  }

  lemma EntryWell(s: Store, a: Access, e: Error, move: bool)
    requires Fine(s)
    ensures BuiltWell(s, OnFound(EntryAt(s, a), e, s, move))
  {
    hide Fine, Adds, Take, Dup, SlotOf, Leaks, Resolve, Walk;
    LeaksSelf(s);
    if EntryAt(s, a).Some? {
      var l := ResolveAny(s, a.root).value;
      VariableFine(s, |s.tables|, a.root);
      WalkFine(s, SCell(l), l, a.mids + [a.last]);
      FoundWell(s, EntryAt(s, a).value, l, e, move);
    }
  }

  lemma {:induction false} BuildWell(fl: Floats, s: Store, rhs: Rhs)
    requires Fine(s)
    ensures BuiltWell(s, Build(fl, s, rhs))
    decreases rhs
  {
    hide Fine, Adds, OnFound, Leaks, Variable, EntryAt, Fresh, NewBox, Eval;
    match rhs
    case RExpr(e) =>
      LeaksSelf(s);
      if Eval(fl, s, e).Some? {
        var v := Eval(fl, s, e).value;
        EvalExpressible(fl, s, e);
        FreshFine(s, v);
        FreshNames(s, v);
      }
    case RInit(isMap, items) =>
      var (s1, c) := NewBox(s, isMap);
      NewBoxFine(s, isMap);
      AddsHere(s, s1, c);
      ItemsWell(fl, s1, c, items);
      ThenSteady(s, s1, c, BuildItems(fl, s1, c, items));
    case RMoveId(x) => VariableWell(s, |s.tables|, x, UndeclaredVar, true);
    case RCopyId(x) => VariableWell(s, |s.tables|, x, UndeclaredVar, false);
    case RMoveAccess(a) => EntryWell(s, a, InvalidMapAccess, true);
    case RCopyAccess(a) => EntryWell(s, a, InvalidMapAccess, false);
  }

  lemma FreshNames(s: Store, v: Value)
    ensures Fresh(s, v).1 == s.next
  {
  }

  lemma {:induction false} EvalExpressible(fl: Floats, s: Store, e: Expr)
    ensures Eval(fl, s, e).Some? ==> !Holds(Eval(fl, s, e).value) && !Eval(fl, s, e).value.VRef?
  {
  }

  lemma AddsHere(s: Store, r: Store, l: Loc)
    requires Fine(s) && Adds(s, r, l)
    ensures l in Temps(r) && l in r.cells
  {
    AddsTemps(s, r, l);
  }

  lemma ThenSteady(s: Store, s1: Store, c: Loc, b: Built)
    requires Fine(s) && Adds(s, s1, c) && ItemsBuilt(s1, c, b)
    ensures BuiltWell(s, b)
  {
    hide Fine;
    assert Temps(s1) == Temps(s) + {c} by { AddsScoped(s, s1, c); }
  }

  lemma AddsScoped(s: Store, r: Store, l: Loc)
    requires Fine(s) && Adds(s, r, l)
    ensures Temps(r) == Temps(s) + {l}
  {
    AddsTemps(s, r, l);
  }

  ghost predicate ItemsBuilt(s: Store, c: Loc, b: Built) {
    match b
    case Got(r, t) =>
      && Fine(r) && Steady(s, r) && t == c
      && c in s.cells && c in r.cells && r.cells[c] == s.cells[c] && !r.cells[c].VRef?
    case Bad(r, _) => Fine(r) && Leaks(s, r)
  }

  lemma {:induction false} ItemsWell(fl: Floats, s: Store, c: Loc, items: seq<Item>)
    requires Fine(s) && c in Temps(s) && Holds(s.cells[c])
    ensures ItemsBuilt(s, c, BuildItems(fl, s, c, items))
    decreases items
  {
    hide Fine, Adds, Leaks, AddItem, Steady, Temps;
    if items == [] {
      SteadySelf(s, c);
    } else {
      ItemWell(fl, s, items[0]);
      match BuildItem(fl, s, items[0]) {
        case Bad(s1, e) =>
        case Got(s1, t) =>
          var s2 := AddItem(s1, c, items[0].key, t);
          AddItemWell(s, s1, c, items[0].key, t);
          ItemsWell(fl, s2, c, items[1..]);
          SteadyThen(s, s2, c, BuildItems(fl, s2, c, items[1..]));
      }
    }
  }

  lemma {:induction false} ItemWell(fl: Floats, s: Store, item: Item)
    requires Fine(s)
    ensures BuiltWell(s, BuildItem(fl, s, item))
    decreases item
  {
    BuildWell(fl, s, item.rhs);
  }

  lemma SteadySelf(s: Store, c: Loc)
    requires Fine(s) && c in Temps(s) && !s.cells[c].VRef?
    ensures Steady(s, s) && c in s.cells
  {
  }

  lemma SteadyThen(s: Store, s1: Store, c: Loc, b: Built)
    requires Steady(s, s1) && c in s.cells && c in Temps(s) && ItemsBuilt(s1, c, b)
    ensures ItemsBuilt(s, c, b)
  {
    hide Fine;
    assert Temps(s1) == Temps(s);
  }

  /** Adding an item uses up the local it was built in. */
  lemma AddItemWell(s: Store, s1: Store, c: Loc, key: Sym, t: Loc)
    requires Fine(s) && Fine(s1) && Adds(s, s1, t) && c in Temps(s) && Holds(s.cells[c])
    ensures var r := AddItem(s1, c, key, t);
            Fine(r) && Steady(s, r) && c in s.cells && c in Temps(r) && r.cells[c] == s.cells[c]
  {
    hide Fine, SetKey, AddKid, Adds, Uses, Temps, Steady;
    LocalKept(s, s1, t, c);
    BoxIn(s1, c);
    var id := s.cells[c].id;
    if s.cells[c].VMap? {
      SetKeyFine(s1, id, c, key, t);
    } else {
      AddKidFine(s1, id, c, key, t);
    }
    UsedSteady(s, s1, t, AddItem(s1, c, key, t), c);
  }

  lemma LocalKept(s: Store, s1: Store, t: Loc, c: Loc)
    requires Fine(s) && Adds(s, s1, t) && c in Temps(s)
    ensures c in s.cells && c in s1.cells && s1.cells[c] == s.cells[c] && c != t
    ensures t in Temps(s1) && !s1.cells[t].VRef?
  {
    AddsTemps(s, s1, t);
  }

  lemma UsedSteady(s: Store, s1: Store, t: Loc, r: Store, c: Loc)
    requires Fine(s) && Adds(s, s1, t) && Uses(s1, r, t) && c in Temps(s)
    ensures Steady(s, r) && c in Temps(r) && r.cells[c] == s.cells[c]
  {
    AddsTemps(s, s1, t);
  }

  lemma AddsParts(s: Store, r: Store, l: Loc)
    requires Fine(s) && Adds(s, r, l)
    ensures SameScope(s, r) && KeepsTemps(s, r, {}) && l !in s.cells && !r.cells[l].VRef?
    ensures r.cells.Keys == s.cells.Keys + {l}
  {
  }

  /** A container in a local. */
  lemma BoxIn(s: Store, c: Loc)
    requires Fine(s) && c in s.cells && Holds(s.cells[c])
    ensures var id := s.cells[c].id;
            && id in Ids(ForestOf(s)[c]) && id in s.heap && s.heap[id].isMap == s.cells[c].VMap?
            && |s.heap[id].keys| == (if s.heap[id].isMap then |s.heap[id].vals| else 0)
  {
    LiveCells(s);
    ContainerIn(s, SCell(c), c);
  }

  // ---------------------------------------------------------------- statements

  /** What a statement that stays in its block does. */
  ghost predicate DoneWell(s: Store, o: Outcome) {
    match o
    case Good(r) => Fine(r) && Within(s, r) && Temps(r) == Temps(s)
    case Failed(r, _) => Fine(r) && Within(s, r) && Temps(s) <= Temps(r)
  }

  lemma {:induction false} DeclareWell(fl: Floats, s: Store, items: seq<DeclItem>)
    requires Fine(s) && s.tables != []
    ensures DoneWell(s, Declare(fl, s, items))
    decreases |items|
  {
    hide Fine, Adds, Leaks, Temps, Lookup, BindTop, Build;
    if items != [] && Lookup(Top(s), items[0].sym).None? {
      var b := match items[0].rhs case None => Pack(Fresh(s, VNone)) case Some(rhs) => Build(fl, s, rhs);
      assert BuiltWell(s, b) by {
        match items[0].rhs {
          case None => FreshFine(s, VNone);
          case Some(rhs) => BuildWell(fl, s, rhs);
        }
      }
      match b {
        case Bad(s1, e) => LeakWithin(s, s1);
        case Got(s1, t) =>
          AddsBound(s, s1, items[0].sym, t);
          DeclareWell(fl, SetTop(s1, items[0].sym, t), items[1..]);
      }
    }
  }

  lemma LeakWithin(s: Store, r: Store)
    requires Leaks(s, r)
    ensures Within(s, r) && Temps(s) <= Temps(r)
  {
    LeaksTemps(s, r);
  }

  /** Binding a new name takes the local out of the locals. */
  lemma AddsBound(s: Store, s1: Store, sym: Sym, t: Loc)
    requires Fine(s) && Fine(s1) && Adds(s, s1, t) && s.tables != [] && Lookup(Top(s), sym).None?
    ensures var r := SetTop(s1, sym, t);
            && r == BindTop(s1, sym, t)
            && Fine(r) && Within(s, r) && Temps(r) == Temps(s) && r.tables != []
  {
    hide Fine, Adds, Temps, Lookup;
    AddsHere(s, s1, t);
    AddsScoped(s, s1, t);
    AddsParts(s, s1, t);
    BindFine(s1, sym, t);
    assert Temps(s) + {t} - {t} == Temps(s) by { NotTemp(s, t); }
  }

  lemma NotTemp(s: Store, t: Loc)
    requires t !in s.cells
    ensures t !in Temps(s)
  {
  }

  lemma UseWithin(s: Store, s1: Store, t: Loc, r: Store)
    requires Fine(s) && Adds(s, s1, t) && Uses(s1, r, t)
    ensures Within(s, r) && Temps(r) == Temps(s)
  {
    AddsTemps(s, s1, t);
    UsesTemps(s1, r, t);
  }

  lemma AssignVarWell(fl: Floats, s: Store, x: Sym, rhs: Rhs)
    requires Fine(s)
    ensures DoneWell(s, DoAssignVar(fl, s, x, rhs))
  {
    hide Fine, Adds, Leaks, Temps, Build, Put, Uses, Resolve, SlotOf, Locs;
    BuildWell(fl, s, rhs);
    match Build(fl, s, rhs) {
      case Bad(s1, e) => LeakWithin(s, s1);
      case Got(s1, t) =>
        AddedLeaks(s, s1, t);
        if ResolveAny(s1, x).Some? {
          var l := ResolveAny(s1, x).value;
          VariableFine(s1, |s1.tables|, x);
          KnownNotTemp(s1, l);
          PutFine(s1, SCell(l), l, t);
          UseWithin(s, s1, t, Put(s1, SCell(l), t));
        }
    }
  }

  lemma AddedLeaks(s: Store, s1: Store, t: Loc)
    requires Fine(s) && Adds(s, s1, t)
    ensures Within(s, s1) && Temps(s) <= Temps(s1) && t in Temps(s1) && t in s1.cells && !s1.cells[t].VRef?
  {
    AddsTemps(s, s1, t);
  }

  lemma KnownNotTemp(s: Store, l: Loc)
    requires l in Locs(s.tables) + s.ext
    ensures l !in Temps(s)
  {
  }

  lemma MapAtFine(s: Store, a: Access)
    requires Fine(s) && MapAt(s, a).Ok?
    ensures var l, at := ResolveAny(s, a.root).value, MapAt(s, a).at;
            && ResolveAny(s, a.root).Some? && SlotOf(s, at, l) && l in Locs(s.tables) + s.ext && Get(s, at).VMap?
  {
    hide Fine, SlotOf, Walk, Resolve, Locs;
    var l := ResolveAny(s, a.root).value;
    VariableFine(s, |s.tables|, a.root);
    WalkFine(s, SCell(l), l, a.mids);
  }

  lemma AssignEntryWell(fl: Floats, s: Store, a: Access, rhs: Rhs)
    requires Fine(s)
    ensures DoneWell(s, DoAssignEntry(fl, s, a, rhs))
  {
    hide Fine, Adds, Leaks, Temps, Build, SetKey, Uses, SlotOf, Locs, MapAt, Get;
    BuildWell(fl, s, rhs);
    match Build(fl, s, rhs) {
      case Bad(s1, e) => LeakWithin(s, s1);
      case Got(s1, t) =>
        AddedLeaks(s, s1, t);
        if MapAt(s1, a).Ok? {
          MapAtFine(s1, a);
          var l, at := ResolveAny(s1, a.root).value, MapAt(s1, a).at;
          KnownNotTemp(s1, l);
          SlotInOf(s1, at, l);
          ContainerIn(s1, at, l);
          SetKeyFine(s1, Get(s1, at).id, l, a.last, t);
          UseWithin(s, s1, t, SetKey(s1, Get(s1, at).id, a.last, t));
        }
    }
  }

  lemma SlotInOf(s: Store, at: Slot, l: Loc)
    requires Fine(s) && SlotOf(s, at, l)
    ensures SlotIn(s, ForestOf(s), at, l) && l in s.cells
  {
  }

  // ---------------------------------------------------------------- calls

  predicate Distinct(syms: seq<Sym>) { forall i, j | 0 <= i < j < |syms| :: syms[i] != syms[j] }

  /** None of the names is in the table yet. */
  predicate Unbound(t: Table, syms: seq<Sym>) { forall i | 0 <= i < |syms| :: Lookup(t, syms[i]).None? }

  /** One argument bound. */
  ghost predicate ArgBound(s: Store, sym: Sym, r: Store, l: Loc) {
    && Fine(r) && Within(s, r) && Temps(r) == Temps(s) && r.tables != []
    && Top(r) == [Bind(sym, l)] + Top(s)
  }

  ghost predicate ArgDone(s: Store, sym: Sym, b: Built) {
    match b
    case Got(s1, t) => ArgBound(s, sym, SetTop(s1, sym, t), t)
    case Bad(s1, _) => Fine(s1) && Leaks(s, s1)
  }

  lemma UnderPrefix(s: Store)
    ensures Under(s) == s.tables[..|Under(s)|]
  {
  }

  lemma RefArgWell(s: Store, sym: Sym, x: Sym)
    requires Fine(s) && s.tables != [] && Lookup(Top(s), sym).None?
    requires Resolve(s, |Under(s)|, x).Some?
    ensures var l := Resolve(s, |Under(s)|, x).value;
            ArgBound(s, sym, SetTop(Fresh(s, VRef(l)).0, sym, s.next), s.next)
  {
    hide ForestBy, Scoped, Locs, Lookup, Resolve;
    var l := Resolve(s, |Under(s)|, x).value;
    ResolveFacts(s, |Under(s)|, x);
    UnderPrefix(s);
    BindRefFine(s, sym, l);
  }

  lemma ValueArgWell(s: Store, sym: Sym, s1: Store, t: Loc)
    requires Fine(s) && s.tables != [] && Lookup(Top(s), sym).None? && Fine(s1) && Adds(s, s1, t)
    ensures ArgBound(s, sym, SetTop(s1, sym, t), t)
  {
    AddsBound(s, s1, sym, t);
  }

  lemma BuildArgWell(fl: Floats, s: Store, arg: Arg)
    requires Fine(s) && arg.ByRhs?
    ensures BuiltWell(s, BuildArg(fl, s, arg))
  {
    hide Fine, Adds, OnFound, Leaks, Variable, EntryAt, Build;
    match arg.rhs
    case RMoveId(x) => VariableWell(s, |Under(s)|, x, UndeclaredVar, true);
    case RCopyId(x) => VariableWell(s, |Under(s)|, x, UndeclaredVar, false);
    case RMoveAccess(a) => EntryWell(s, a, UndeclaredVar, true);
    case RCopyAccess(a) => EntryWell(s, a, UndeclaredVar, false);
    case _ => BuildWell(fl, s, arg.rhs);
  }

  lemma StillUnbound(t: Table, syms: seq<Sym>, l: Loc)
    requires Distinct(syms) && syms != [] && Unbound(t, syms)
    ensures Distinct(syms[1..]) && Unbound([Bind(syms[0], l)] + t, syms[1..])
  {
    var u := [Bind(syms[0], l)] + t;
    assert u[1..] == t;
    forall i | 0 <= i < |syms[1..]| ensures Lookup(u, syms[1..][i]).None? {
      assert syms[1..][i] == syms[i + 1];
    }
  }

  lemma {:induction false} BindArgsWell(fl: Floats, s: Store, formals: seq<Sym>, args: seq<Arg>)
    requires Fine(s) && s.tables != [] && Distinct(formals) && Unbound(Top(s), formals)
    ensures DoneWell(s, BindArgs(fl, s, formals, args))
    decreases |formals|
  {
    hide Fine, Adds, Leaks, Temps, Lookup, Build, SetTop, Resolve, Fresh, Distinct, BuildArg;
    if formals == [] {
    } else {
      var sym := formals[0];
      HeadUnbound(Top(s), formals);
      if args == [] {
        FreshFine(s, VNone);
        var r := SetTop(Fresh(s, VNone).0, sym, s.next);
        ValueArgWell(s, sym, Fresh(s, VNone).0, s.next);
        StillUnbound(Top(s), formals, s.next);
        BindArgsWell(fl, r, formals[1..], []);
      } else {
        ArgWell(fl, s, sym, args[0]);
        match BuildArg(fl, s, args[0]) {
          case Bad(s1, e) => LeakWithin(s, s1);
          case Got(s1, t) =>
            StillUnbound(Top(s), formals, t);
            BindArgsWell(fl, SetTop(s1, sym, t), formals[1..], args[1..]);
        }
      }
    }
  }

  lemma HeadUnbound(t: Table, syms: seq<Sym>)
    requires syms != [] && Unbound(t, syms)
    ensures Lookup(t, syms[0]).None?
  {
  }

  lemma ArgWell(fl: Floats, s: Store, sym: Sym, arg: Arg)
    requires Fine(s) && s.tables != [] && Lookup(Top(s), sym).None?
    ensures ArgDone(s, sym, BuildArg(fl, s, arg))
  {
    hide Fine, Adds, Leaks, Lookup, Build, SetTop, Resolve, ArgBound;
    LeaksSelf(s);
    match arg {
      case ById(x) =>
        if Resolve(s, |Under(s)|, x).Some? { RefArgWell(s, sym, x); }
      case ByRhs(rhs) =>
        BuildArgWell(fl, s, arg);
        if BuildArg(fl, s, arg).Got? {
          ValueArgWell(s, sym, BuildArg(fl, s, arg).s, BuildArg(fl, s, arg).l);
        }
    }
  }

  /** What opening a block does: one more table, everything under it as it was. */
  ghost predicate OpenedWell(s: Store, o: Outcome) {
    match o
    case Good(r) =>
      && Fine(r) && r.ext == s.ext && Temps(r) == Temps(s)
      && |r.tables| == |s.tables| + 1 && Under(r) == s.tables
    case Failed(r, _) => Fine(r) && SameScope(s, r) && Temps(s) <= Temps(r)
  }

  lemma OpenWell(fl: Floats, s: Store, proc: Proc, args: Option<seq<Arg>>)
    requires Fine(s) && Distinct(proc.formals)
    ensures OpenedWell(s, Open(fl, s, proc, args))
  {
    hide Fine, Temps, BindArgs, Pop, Distinct;
    PushFine(s);
    if args.Some? {
      BindArgsWell(fl, Push(s), proc.formals, args.value);
      match BindArgs(fl, Push(s), proc.formals, args.value) {
        case Good(_) =>
        case Failed(s1, e) => PopFine(s1);
      }
    }
  }
}
