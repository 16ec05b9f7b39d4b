/** What an error makes the interpreter forget.  A statement that fails leaves behind the locals it had
    made; these lemmas say, statement by statement, exactly when one of them holds a container. */
module Forgetting {
  import opened Wrappers
  import opened Heap
  import opened Store
  import opened Language
  import opened Machine
  import opened Ownership
  import opened Scopes
  import opened Discipline
  import opened Blocks
  import opened Statements
  import opened Runs
  import opened RunTheorems
  import opened InterpreterTheorems
  import opened ValueRefinement
  import opened TargetsStay
  import PathLaws
  import V = ValueSemantics

  /** r has a local that s has not, and it holds a container. */
  ghost predicate Forgets(s: Store, r: Store) { exists l :: NewBoxed(s, r, l) }

  predicate NewBoxed(s: Store, r: Store, l: Loc) {
    l in r.cells && l in Temps(r) && l !in Temps(s) && Holds(r.cells[l])
  }

  /** The right side makes a container of its own, or finds one to move or copy. */
  predicate Carries(s: Store, rhs: Rhs) {
    match rhs
    case RExpr(_) => false
    case RInit(_, _) => true
    case RMoveId(x) => FindsBox(s, Variable(s, |s.tables|, x))
    case RCopyId(x) => FindsBox(s, Variable(s, |s.tables|, x))
    case RMoveAccess(a) => FindsBox(s, EntryAt(s, a))
    case RCopyAccess(a) => FindsBox(s, EntryAt(s, a))
  }

  predicate FindsBox(s: Store, at: Option<Slot>) { at.Some? && Holds(Get(s, at.value)) }

  // ---------------------------------------------------------------- right sides

  lemma MovedHolds(s: Store, at: Slot, l: Loc, e: Error, move: bool)
    requires Fine(s) && SlotOf(s, at, l)
    ensures var b := OnFound(Some(at), e, s, move);
            b.Got? && b.l in b.s.cells && (Holds(b.s.cells[b.l]) <==> Holds(Get(s, at)))
  {
    hide ForestBy, ScopeOk, Ids;
    SlotInOf(s, at, l);
    if Holds(Get(s, at)) { ContainerIn(s, at, l); }
  }

  lemma VariableHolds(s: Store, x: Sym, move: bool)
    requires Fine(s)
    ensures var at, b := Variable(s, |s.tables|, x), OnFound(Variable(s, |s.tables|, x), UndeclaredVar, s, move);
            if b.Bad? then b.s == s && at.None? else b.l in b.s.cells && (Holds(b.s.cells[b.l]) <==> FindsBox(s, at))
  {
    hide Fine, Resolve, SlotOf, Take, Dup;
    if Resolve(s, |s.tables|, x).Some? {
      var l := Resolve(s, |s.tables|, x).value;
      VariableFine(s, |s.tables|, x);
      MovedHolds(s, SCell(l), l, UndeclaredVar, move);
    }
  }

  lemma EntryHolds(s: Store, a: Access, move: bool)
    requires Fine(s)
    ensures var at, b := EntryAt(s, a), OnFound(EntryAt(s, a), InvalidMapAccess, s, move);
            if b.Bad? then b.s == s && at.None? else b.l in b.s.cells && (Holds(b.s.cells[b.l]) <==> FindsBox(s, at))
  {
    hide Fine, Resolve, SlotOf, Take, Dup, Walk;
    if EntryAt(s, a).Some? {
      var l := ResolveAny(s, a.root).value;
      VariableFine(s, |s.tables|, a.root);
      WalkFine(s, SCell(l), l, a.mids + [a.last]);
      MovedHolds(s, EntryAt(s, a).value, l, InvalidMapAccess, move);
    }
  }

  /** An initialiser's own container is made before anything can fail. */
  lemma InitForgets(fl: Floats, s: Store, isMap: bool, items: seq<Item>)
    requires Fine(s)
    ensures var b := Build(fl, s, RInit(isMap, items));
            && (b.Bad? ==> Forgets(s, b.s))
            && (b.Got? ==> b.l in b.s.cells && Holds(b.s.cells[b.l]))
  {
    hide Fine, BuildItems, Adds;
    var (s1, c) := NewBox(s, isMap);
    NewBoxFine(s, isMap);
    AddsHere(s, s1, c);
    ItemsWell(fl, s1, c, items);
    var b := BuildItems(fl, s1, c, items);
    if b.Bad? {
      LeaksTemps(s1, b.s);
      assert NewBoxed(s, b.s, c) by { AddsCell(s, s1, c); }
    }
  }

  lemma AddsCell(s: Store, r: Store, l: Loc)
    requires Adds(s, r, l)
    ensures l !in s.cells
  {
  }

  /** What a right side leaves when it fails, and what it makes when it does not. */
  lemma BuildForgets(fl: Floats, s: Store, rhs: Rhs)
    requires Fine(s)
    ensures var b := Build(fl, s, rhs);
            && (b.Bad? ==> (Forgets(s, b.s) <==> rhs.RInit?) && (Carries(s, rhs) <==> rhs.RInit?))
            && (b.Got? ==> b.l in b.s.cells && (Holds(b.s.cells[b.l]) <==> Carries(s, rhs)))
  {
    hide Fine, BuildItems, Variable, EntryAt, OnFound, Temps, FindsBox, Eval;
    match rhs
    case RExpr(e) => if Eval(fl, s, e).Some? { EvalExpressible(fl, s, e); }
    case RInit(isMap, items) => InitForgets(fl, s, isMap, items);
    case RMoveId(x) => VariableHolds(s, x, true); NotFoundBox(s);
    case RCopyId(x) => VariableHolds(s, x, false); NotFoundBox(s);
    case RMoveAccess(a) => EntryHolds(s, a, true); NotFoundBox(s);
    case RCopyAccess(a) => EntryHolds(s, a, false); NotFoundBox(s);
  }

  lemma NotFoundBox(s: Store)
    ensures !FindsBox(s, None) && !Forgets(s, s)
  {
  }

  // ---------------------------------------------------------------- assignments

  /** A value built for an assignment whose target is not there. */
  lemma BuiltForgets(s: Store, s1: Store, t: Loc)
    requires Fine(s) && Adds(s, s1, t)
    ensures t in s1.cells && (Forgets(s, s1) <==> Holds(s1.cells[t]))
  {
    AddsTemps(s, s1, t);
    if Holds(s1.cells[t]) { assert NewBoxed(s, s1, t); }
  }

  lemma NothingNew(s: Store, r: Store)
    requires Temps(r) == Temps(s)
    ensures !Forgets(s, r)
  {
  }

  /** x = rhs fails if and only if its right side does or x is not there beforehand; and it forgets a
      container if and only if it fails and the right side is an initialiser, or moves or copies a
      container that is there. */
  lemma AssignVarForgetsIff(fl: Floats, s: Store, x: Sym, rhs: Rhs)
    requires Fine(s)
    ensures var o := DoAssignVar(fl, s, x, rhs);
            && (o.Failed? <==> Build(fl, s, rhs).Bad? || ResolveAny(s, x).None?)
            && (Forgets(s, o.s) <==> o.Failed? && Carries(s, rhs))
  {
    hide Fine, Build, Adds, Leaks, Forgets, Carries, Resolve, Temps, Put;
    BuildForgets(fl, s, rhs);
    BuildWell(fl, s, rhs);
    NameStays(fl, s, rhs, x);
    var o, b := DoAssignVar(fl, s, x, rhs), Build(fl, s, rhs);
    if o.Good? {
      AssignVarWell(fl, s, x, rhs);
      NothingNew(s, o.s);
    } else if b.Got? {
      BuiltForgets(s, b.s, b.l);
    }
  }

  /** a.b.c = rhs fails if and only if its right side does or a.b leads to no map once the moves of the
      right side are done, which is beforehand if it has none; and it forgets a container if and only if
      it fails and the right side is an initialiser, or moves or copies a container that is there. */
  lemma AssignEntryForgetsIff(fl: Floats, s: Store, a: Access, rhs: Rhs)
    requires Fine(s)
    ensures var o := DoAssignEntry(fl, s, a, rhs);
            && (o.Failed? <==> Build(fl, s, rhs).Bad? || V.FindMap(V.Make(fl, Known(s), rhs).w, a).NoMap?)
            && (!Moves(rhs) ==> (o.Failed? <==> Build(fl, s, rhs).Bad? || MapAt(s, a).Err?))
            && (Forgets(s, o.s) <==> o.Failed? && Carries(s, rhs))
  {
    hide Fine, Build, Adds, Leaks, Forgets, Carries, MapAt, Temps, SetKey, Known, V.Make, V.FindMap;
    BuildForgets(fl, s, rhs);
    BuildWell(fl, s, rhs);
    PathStays(fl, s, rhs, a);
    var o, b := DoAssignEntry(fl, s, a, rhs), Build(fl, s, rhs);
    if o.Good? {
      AssignEntryWell(fl, s, a, rhs);
      NothingNew(s, o.s);
    } else if b.Got? {
      BuiltForgets(s, b.s, b.l);
    }
  }

  // ---------------------------------------------------------------- declarations

  /** The declarations before the k-th succeed, and the k-th, of a name that is free, has an initialiser
      that fails. */
  predicate DeclStops(fl: Floats, s: Store, items: seq<DeclItem>, k: nat) {
    && k < |items| && Declare(fl, s, items[..k]).Good?
    && var s1 := Declare(fl, s, items[..k]).s;
    && Lookup(Top(s1), items[k].sym).None?
    && items[k].rhs.Some? && items[k].rhs.value.RInit? && Build(fl, s1, items[k].rhs.value).Bad?
  }

  /** A failed declaration forgets a container if and only if what fails is an initialiser. */
  lemma {:induction false} DeclareForgetsIff(fl: Floats, s: Store, items: seq<DeclItem>)
    requires Fine(s) && s.tables != [] && Declare(fl, s, items).Failed?
    ensures Forgets(s, Declare(fl, s, items).s) <==> exists k: nat :: DeclStops(fl, s, items, k)
    decreases |items|
  {
    hide Fine, Adds, Leaks, Temps, Lookup, Build, Forgets, BindTop;
    NotFoundBox(s);
    DeclNothing(fl, s, items);
    var b := match items[0].rhs case None => Pack(Fresh(s, VNone)) case Some(rhs) => Build(fl, s, rhs);
    if Lookup(Top(s), items[0].sym).Some? {
      DeclLater(fl, s, items);
    } else if b.Bad? {
      BuildForgets(fl, s, items[0].rhs.value);
      DeclLater(fl, s, items);
      if items[0].rhs.value.RInit? { assert DeclStops(fl, s, items, 0); }
    } else {
      DeclFirst(fl, s, items[0], b);
      var s2 := SetTop(b.s, items[0].sym, b.l);
      AddsBound(s, b.s, items[0].sym, b.l);
      DeclareForgetsIff(fl, s2, items[1..]);
      SameForgets(s, s2, Declare(fl, s, items).s);
      DeclShift(fl, s, items, s2);
    }
  }

  lemma SameForgets(s: Store, s2: Store, r: Store)
    requires Temps(s) == Temps(s2)
    ensures Forgets(s, r) == Forgets(s2, r)
  {
    if l :| NewBoxed(s, r, l) { assert NewBoxed(s2, r, l); }
    if l :| NewBoxed(s2, r, l) { assert NewBoxed(s, r, l); }
  }

  lemma DeclNothing(fl: Floats, s: Store, items: seq<DeclItem>)
    ensures Declare(fl, s, items[..0]) == Good(s) && (Declare(fl, s, items).Failed? ==> items != [])
  {
  }

  /** If the first declaration fails, no later one is come to. */
  lemma DeclLater(fl: Floats, s: Store, items: seq<DeclItem>)
    requires items != []
    requires Lookup(Top(s), items[0].sym).Some?
             || (items[0].rhs.Some? && Build(fl, s, items[0].rhs.value).Bad?)
    ensures forall k: nat | 0 < k <= |items| :: Declare(fl, s, items[..k]).Failed?
  {
    forall k: nat | 0 < k <= |items| ensures Declare(fl, s, items[..k]).Failed? {
      assert items[..k][0] == items[0];
    }
  }

  lemma DeclFirst(fl: Floats, s: Store, item: DeclItem, b: Built)
    requires Fine(s) && b.Got?
    requires b == match item.rhs case None => Pack(Fresh(s, VNone)) case Some(rhs) => Build(fl, s, rhs)
    ensures Fine(b.s) && Adds(s, b.s, b.l)
  {
    hide Fine, Adds, Build;
    match item.rhs {
      case None => FreshFine(s, VNone); FreshNames(s, VNone);
      case Some(rhs) => BuildWell(fl, s, rhs);
    }
  }

  /** Past a declaration that succeeds, the count is one less. */
  lemma DeclShift(fl: Floats, s: Store, items: seq<DeclItem>, s2: Store)
    requires items != [] && Lookup(Top(s), items[0].sym).None?
    requires var b := (match items[0].rhs case None => Pack(Fresh(s, VNone)) case Some(rhs) => Build(fl, s, rhs));
             b.Got? && s2 == SetTop(b.s, items[0].sym, b.l)
    ensures (exists k: nat :: DeclStops(fl, s2, items[1..], k)) <==> (exists k: nat :: DeclStops(fl, s, items, k))
  {
    forall k: nat | k < |items[1..]| ensures Declare(fl, s, items[..k + 1]) == Declare(fl, s2, items[1..][..k]) {
      assert items[..k + 1][0] == items[0] && items[..k + 1][1..] == items[1..][..k];
    }
    hide Declare, Build, SetTop, Lookup;
    if k: nat :| DeclStops(fl, s2, items[1..], k) {
      assert items[1..][k] == items[k + 1];
      assert DeclStops(fl, s, items, k + 1);
    }
    if k: nat :| DeclStops(fl, s, items, k) {
      if k == 0 {
        DeclNothing(fl, s, items);
      } else {
        assert items[1..][k - 1] == items[k];
        assert items[..k - 1 + 1] == items[..k];
        assert DeclStops(fl, s2, items[1..], k - 1);
      }
    }
  }

  // ---------------------------------------------------------------- calls

  /** The arguments before the k-th are bound, and the k-th is an initialiser that fails. */
  predicate ArgStops(fl: Floats, s: Store, formals: seq<Sym>, args: seq<Arg>, k: nat) {
    && k < |formals| && k < |args| && BindArgs(fl, s, formals[..k], args[..k]).Good?
    && args[k].ByRhs? && args[k].rhs.RInit?
    && BuildArg(fl, BindArgs(fl, s, formals[..k], args[..k]).s, args[k]).Bad?
  }

  lemma ArgForgets(fl: Floats, s: Store, arg: Arg)
    requires Fine(s) && BuildArg(fl, s, arg).Bad?
    ensures Forgets(s, BuildArg(fl, s, arg).s) <==> arg.ByRhs? && arg.rhs.RInit?
  {
    hide Fine, Build, Variable, EntryAt, Forgets, Resolve;
    NotFoundBox(s);
    if arg.ByRhs? { BuildForgets(fl, s, arg.rhs); }
  }

  /** Binding arguments forgets a container if and only if the argument that fails is an initialiser. */
  lemma {:induction false} BindArgsForgetsIff(fl: Floats, s: Store, formals: seq<Sym>, args: seq<Arg>)
    requires Fine(s) && s.tables != [] && Distinct(formals) && Unbound(Top(s), formals)
    requires BindArgs(fl, s, formals, args).Failed?
    ensures Forgets(s, BindArgs(fl, s, formals, args).s) <==> exists k: nat :: ArgStops(fl, s, formals, args, k)
    decreases |formals|
  {
    hide Fine, Adds, Leaks, Temps, Lookup, BuildArg, SetTop, Fresh, Distinct, Unbound, Forgets, ArgStops;
    assert formals != [] && args != [] by { ArgsNeeded(fl, s, formals, args); }
    HeadUnbound(Top(s), formals);
    ArgWell(fl, s, formals[0], args[0]);
    var b := BuildArg(fl, s, args[0]);
    if b.Bad? {
      ArgForgets(fl, s, args[0]);
      ArgHere(fl, s, formals, args);
    } else {
      var s2 := SetTop(b.s, formals[0], b.l);
      StillUnbound(Top(s), formals, b.l);
      BindArgsForgetsIff(fl, s2, formals[1..], args[1..]);
      SameForgets(s, s2, BindArgs(fl, s, formals, args).s);
      ArgShift(fl, s, formals, args, s2);
    }
  }

  /** Only an argument can fail. */
  lemma {:induction false} ArgsNeeded(fl: Floats, s: Store, formals: seq<Sym>, args: seq<Arg>)
    requires BindArgs(fl, s, formals, args).Failed?
    ensures formals != [] && args != []
    decreases |formals|
  {
    hide SetTop, Fresh, BuildArg;
    if formals != [] && args == [] {
      ArgsNeeded(fl, SetTop(Fresh(s, VNone).0, formals[0], s.next), formals[1..], []);
    }
  }

  lemma ArgHere(fl: Floats, s: Store, formals: seq<Sym>, args: seq<Arg>)
    requires formals != [] && args != [] && BuildArg(fl, s, args[0]).Bad?
    ensures (exists k: nat :: ArgStops(fl, s, formals, args, k)) <==> args[0].ByRhs? && args[0].rhs.RInit?
  {
    hide BuildArg;
    assert BindArgs(fl, s, formals[..0], args[..0]) == Good(s);
    forall k: nat | 0 < k <= |formals| && k <= |args| ensures BindArgs(fl, s, formals[..k], args[..k]).Failed? {
      assert formals[..k][0] == formals[0] && args[..k][0] == args[0];
    }
    if args[0].ByRhs? && args[0].rhs.RInit? { assert ArgStops(fl, s, formals, args, 0); }
  }

  lemma ArgShift(fl: Floats, s: Store, formals: seq<Sym>, args: seq<Arg>, s2: Store)
    requires formals != [] && args != [] && BuildArg(fl, s, args[0]).Got?
    requires s2 == SetTop(BuildArg(fl, s, args[0]).s, formals[0], BuildArg(fl, s, args[0]).l)
    ensures (exists k: nat :: ArgStops(fl, s2, formals[1..], args[1..], k))
            <==> (exists k: nat :: ArgStops(fl, s, formals, args, k))
  {
    hide BuildArg, SetTop;
    forall k: nat | k < |formals[1..]| && k < |args[1..]|
      ensures BindArgs(fl, s, formals[..k + 1], args[..k + 1]) == BindArgs(fl, s2, formals[1..][..k], args[1..][..k])
    {
      assert formals[..k + 1][0] == formals[0] && formals[..k + 1][1..] == formals[1..][..k];
      assert args[..k + 1][0] == args[0] && args[..k + 1][1..] == args[1..][..k];
    }
    assert BuildArg(fl, BindArgs(fl, s, formals[..0], args[..0]).s, args[0]).Got?;
    hide BindArgs;
    if k: nat :| ArgStops(fl, s2, formals[1..], args[1..], k) {
      assert args[1..][k] == args[k + 1];
      assert ArgStops(fl, s, formals, args, k + 1);
    }
    if k: nat :| ArgStops(fl, s, formals, args, k) {
      if k > 0 {
        assert args[1..][k - 1] == args[k];
        assert formals[..k - 1 + 1] == formals[..k] && args[..k - 1 + 1] == args[..k];
        assert ArgStops(fl, s2, formals[1..], args[1..], k - 1);
      }
    }
  }

  /** A call whose arguments cannot all be bound closes its block again: the arguments it had bound are
      destroyed, and a container is forgotten if and only if the one that fails is an initialiser. */
  lemma OpenForgetsIff(fl: Floats, s: Store, proc: Proc, args: seq<Arg>)
    requires Fine(s) && Distinct(proc.formals) && Open(fl, s, proc, Some(args)).Failed?
    ensures Forgets(s, Open(fl, s, proc, Some(args)).s)
            <==> exists k: nat :: ArgStops(fl, Push(s), proc.formals, args, k)
  {
    hide Fine, Temps, BindArgs, Pop, Distinct, Forgets, ArgStops;
    PushFine(s);
    BindArgsWell(fl, Push(s), proc.formals, args);
    BindArgsForgetsIff(fl, Push(s), proc.formals, args);
    var s1 := BindArgs(fl, Push(s), proc.formals, args).s;
    PopFine(s1);
    SameForgets(s, Push(s), s1);
    PopForgets(s, s1);
  }

  /** A local is in no table, so closing a block does not touch it. */
  lemma PopForgets(s: Store, s1: Store)
    requires Fine(s1) && s1.tables != []
    ensures Forgets(s, Pop(s1)) <==> Forgets(s, s1)
  {
    hide Fine, Pop;
    PopFine(s1);
    assert LocsOf(Top(s1)) <= Locs(s1.tables) by { LocsTop(s1); }
    if l :| NewBoxed(s, s1, l) { assert NewBoxed(s, Pop(s1), l); }
    if l :| NewBoxed(s, Pop(s1), l) { assert NewBoxed(s, s1, l); }
  }

  // ---------------------------------------------------------------- statements

  ghost predicate CallForgets(P: Program, s: Store, to: LibId, x: Sym, args: Option<seq<Arg>>) {
    && FindProc(P, to, x).Some? && args.Some?
    && exists k: nat :: ArgStops(P.fl, Push(s), FindProc(P, to, x).value.formals, args.value, k)
  }

  /** Should st fail, does it forget a container? */
  ghost predicate StatementForgets(P: Program, s: Store, lib: LibId, st: Stmt) {
    match st
    case Decl(items) => exists k: nat :: DeclStops(P.fl, s, items, k)
    case AssignVar(_, rhs) => Carries(s, rhs)
    case AssignEntry(_, rhs) => Carries(s, rhs)
    case CallA(x, args) => CallForgets(P, s, lib, x, args)
    case CallB(y, x, args) => FindLib(P, lib, y).Lib? && CallForgets(P, s, FindLib(P, lib, y).lib, x, args)
    case _ => false
  }

  lemma {:induction false} DrainEnds(fs: seq<Frame>, s: Store, lib: LibId)
    ensures !Drain(fs, s, lib).Fail?
    decreases |fs|
  {
    hide Pop;
    if fs == [] {
    } else {
      DrainEnds(Advance(Front(fs)), Pop(s), LibUnder(Last(fs), lib));
    }
  }

  lemma {:induction false} LeaveEnds(l: Sym, fs: seq<Frame>, s: Store, lib: LibId)
    ensures !LeaveTo(l, fs, s, lib).Fail?
    decreases |fs|
  {
    hide Pop, Drain;
    if fs == [] {
    } else {
      DrainEnds(Advance(Front(fs)), Pop(s), LibUnder(Last(fs), lib));
      LeaveEnds(l, Front(fs), Pop(s), LibUnder(Last(fs), lib));
    }
  }

  lemma {:induction false} RedoEnds(l: Sym, fs: seq<Frame>, s: Store, lib: LibId)
    ensures !RedoTo(l, fs, s, lib).Fail?
    decreases |fs|
  {
    hide Pop, Drain, ClearTop;
    if fs == [] {
    } else {
      DrainEnds(Front(fs) + [Last(fs).(rest := Last(fs).body)], ClearTop(s), lib);
      RedoEnds(l, Front(fs), Pop(s), LibUnder(Last(fs), lib));
    }
  }

  lemma CallForgetsIff(P: Program, s: Store, to: LibId, x: Sym, args: Option<seq<Arg>>)
    requires ProgramOk(P) && Fine(s) && FindProc(P, to, x).Some?
    requires Open(P.fl, s, FindProc(P, to, x).value, args).Failed?
    ensures Forgets(s, Open(P.fl, s, FindProc(P, to, x).value, args).s) <==> CallForgets(P, s, to, x, args)
  {
    hide ProgramOk, Fine, Distinct, FindProc, BindArgs, Forgets, ArgStops;
    FoundDistinct(P, to, x);
    OpenForgetsIff(P.fl, s, FindProc(P, to, x).value, args.value);
  }

  /** Any statement that fails forgets a container if and only if StatementForgets says so. */
  lemma PerformForgetsIff(P: Program, fs: seq<Frame>, s: Store, lib: LibId, st: Stmt)
    requires ProgramOk(P) && fs != [] && Fine(s) && s.tables != []
    requires Perform(P, fs, s, lib, st).Fail?
    ensures Forgets(s, Perform(P, fs, s, lib, st).s) <==> StatementForgets(P, s, lib, st)
  {
    hide Fine, ProgramOk, Declare, DoAssignVar, DoAssignEntry, Eval, IsTrue, Open, Next, LeaveTo, RedoTo;
    hide FindLib, FindProc, Forgets, Carries, DeclStops, CallForgets, Ended, Entered;
    NotFoundBox(s);
    match st {
      case Decl(items) =>
        FailedIs(fs, lib, BlockFrame(Body(0, []), lib), Declare(P.fl, s, items));
        DeclareForgetsIff(P.fl, s, items);
      case AssignVar(x, rhs) =>
        FailedIs(fs, lib, BlockFrame(Body(0, []), lib), DoAssignVar(P.fl, s, x, rhs));
        AssignVarForgetsIff(P.fl, s, x, rhs);
      case AssignEntry(a, rhs) =>
        FailedIs(fs, lib, BlockFrame(Body(0, []), lib), DoAssignEntry(P.fl, s, a, rhs));
        AssignEntryForgetsIff(P.fl, s, a, rhs);
      case If(c, b) =>
        FailedIs(fs, lib, BlockFrame(b, lib), Good(Push(s)));
        NextEnds(fs, s, lib);
      case Block(b) => FailedIs(fs, lib, BlockFrame(b, lib), Good(Push(s)));
      case CallA(x, args) => CallFails(P, fs, s, lib, None, lib, x, args);
      case CallB(y, x, args) =>
        if FindLib(P, lib, y).Lib? { CallFails(P, fs, s, lib, Some(lib), FindLib(P, lib, y).lib, x, args); }
      case Leave(l) => LeaveEnds(l, fs, s, lib);
      case Redo(l) => RedoEnds(l, fs, s, lib);
    }
  }

  lemma NextEnds(fs: seq<Frame>, s: Store, lib: LibId)
    ensures !Next(fs, s, lib).Fail?
  {
    DrainEnds(Advance(fs), s, lib);
  }

  lemma FailedIs(fs: seq<Frame>, lib: LibId, f: Frame, o: Outcome)
    ensures Ended(fs, lib, o).Fail? <==> o.Failed?
    ensures Entered(fs, lib, f, o).Fail? <==> o.Failed?
    ensures o.Failed? ==> Ended(fs, lib, o).s == o.s && Entered(fs, lib, f, o).s == o.s
  {
    if o.Good? {
      DrainEnds(Advance(fs), o.s, lib);
      DrainEnds(fs + [f], o.s, f.home);
    }
  }

  lemma CallFails(P: Program, fs: seq<Frame>, s: Store, lib: LibId, back: Option<LibId>, to: LibId, x: Sym,
                  args: Option<seq<Arg>>)
    requires ProgramOk(P) && Fine(s)
    ensures FindProc(P, to, x).None? ==> !CallForgets(P, s, to, x, args)
    ensures FindProc(P, to, x).Some? ==>
              var p := FindProc(P, to, x).value;
              var m := Entered(fs, lib, CallFrame(p, back, to), Open(P.fl, s, p, args));
              m.Fail? ==> (Forgets(s, m.s) <==> CallForgets(P, s, to, x, args))
  {
    hide ProgramOk, Fine, FindProc, Open, Entered, Forgets, ArgStops;
    if FindProc(P, to, x).Some? {
      var p := FindProc(P, to, x).value;
      FailedIs(fs, lib, CallFrame(p, back, to), Open(P.fl, s, p, args));
      if Open(P.fl, s, p, args).Failed? { CallForgetsIff(P, s, to, x, args); }
    }
  }

  // ---------------------------------------------------------------- runs

  /** The statement m is at fails and forgets a container. */
  ghost predicate FailsForgetting(P: Program, m: State) {
    && m.Run? && m.frames != [] && Last(m.frames).rest != [] && Step(P, m).Fail?
    && StatementForgets(P, m.s, m.lib, Last(m.frames).rest[0])
  }

  ghost predicate ForgetsAt(P: Program, m: State, k: nat) { FailsForgetting(P, Steps(P, m, k)) }

  /** Once the stack is unwound, some container is left that no argument of the C caller holds. */
  ghost predicate LeftOver(s: Store) {
    exists id :: id in Unwind(s).heap && forall l | l in s.ext :: !Inside(Unwind(s), id, l)
  }

  /** The containers left over are those in locals. */
  lemma LeftOverIff(s: Store)
    requires Fine(s)
    ensures LeftOver(s) <==> exists l :: l in s.cells && l in Temps(s) && Holds(s.cells[l])
  {
    hide ForestBy, Unwind, Holds, Ids;
    UnwindFine(s);
    var r := Unwind(s);
    if l :| l in s.cells && l in Temps(s) && Holds(s.cells[l]) {
      BoxAlone(r, l);
    }
    if id :| id in r.heap && forall l | l in s.ext :: !Inside(r, id, l) {
      var l := InsideSome(r, id);
      InsideHolds(r, id, l);
      assert l in Temps(s);
    }
  }

  lemma BoxAlone(r: Store, l: Loc)
    requires Fine(r) && l in r.cells && Holds(r.cells[l])
    ensures r.cells[l].id in r.heap && forall m | m != l :: !Inside(r, r.cells[l].id, m)
  {
    BoxIn(r, l);
    var id := r.cells[l].id;
    forall m | m != l ensures !Inside(r, id, m) {
      if Inside(r, id, m) {
        var F :| ForestBy(r, F) && m in F && id in Ids(F[m]);
        ForestIs(r, F);
        LiveCells(r);
      }
    }
  }

  lemma InsideHolds(r: Store, id: Id, l: Loc)
    requires Inside(r, id, l)
    ensures l in r.cells && Holds(r.cells[l])
  {
  }

  /** No statement has failed yet and no local is about, so what a failing one leaves is what it forgets. */
  lemma StepForgetsIff(P: Program, m: State, ext: set<Loc>)
    requires ProgramOk(P) && StateOk(m, ext) && m.Run?
    ensures LeftOver(Step(P, m).s) <==> FailsForgetting(P, m)
  {
    hide StateOk, ProgramOk, Fine, Perform, LeftOver, Temps, StatementForgets, StackOk;
    Between(m, ext);
    var q, st := Step(P, m), Last(m.frames).rest[0];
    StepOk(P, m, ext);
    Between(q, ext);
    LeftOverIff(q.s);
    if q.Fail? {
      PerformForgetsIff(P, m.frames, m.s, m.lib, st);
      NewLocals(m.s, q.s);
    }
  }

  lemma NewLocals(s: Store, r: Store)
    requires Temps(s) == {}
    ensures Forgets(s, r) <==> exists l :: l in r.cells && l in Temps(r) && Holds(r.cells[l])
  {
    if l :| l in r.cells && l in Temps(r) && Holds(r.cells[l]) { assert NewBoxed(s, r, l); }
    if l :| NewBoxed(s, r, l) { assert l in r.cells; }
  }

  lemma Between(m: State, ext: set<Loc>)
    requires StateOk(m, ext)
    ensures Fine(m.s) && m.s.ext == ext && (!m.Fail? ==> Temps(m.s) == {})
    ensures m.Run? ==> m.frames != [] && m.s.tables != [] && Last(m.frames).rest != []
  {
  }

  /** A run leaves a container behind if and only if some statement in it fails while it holds one that
      no variable has yet: an initialiser, or a value moved or copied for an assignment. */
  lemma LeakIff(P: Program, s: Store, p: Proc, exts: seq<Loc>, lib: LibId, n: nat, m: State)
    requires Reached(P, s, p, exts, lib, n, m)
    ensures LeftOver(m.s) <==> exists k: nat :: k < n && ForgetsAt(P, Start(s, p, exts, lib), k)
  {
    hide Steps, StateOk, LeftOver, ForgetsAt, Distinct, ProgramOk, BindExternal;
    StartOk(s, p, exts, lib);
    RunLeaves(P, Start(s, p, exts, lib), n, s.ext);
  }

  lemma {:induction false} RunLeaves(P: Program, m: State, n: nat, ext: set<Loc>)
    requires ProgramOk(P) && StateOk(m, ext) && !m.Fail?
    ensures LeftOver(Steps(P, m, n).s) <==> exists k: nat :: k < n && ForgetsAt(P, m, k)
    decreases n
  {
    hide StateOk, ProgramOk, LeftOver, Perform;
    if n == 0 {
      Between(m, ext);
      LeftOverIff(m.s);
    } else if m.Done? {
      Stays(P, m, n);
      Between(m, ext);
      LeftOverIff(m.s);
      forall k: nat | k < n ensures !ForgetsAt(P, m, k) { Stays(P, m, k); }
    } else {
      var q := Step(P, m);
      StepForgetsIff(P, m, ext);
      StepOk(P, m, ext);
      if q.Fail? {
        RunEnds(P, m, n);
      } else {
        RunLeaves(P, q, n - 1, ext);
        RunShift(P, m, n);
      }
    }
  }

  lemma RunShift(P: Program, m: State, n: nat)
    requires n > 0 && !FailsForgetting(P, m)
    ensures (exists k: nat :: k < n && ForgetsAt(P, m, k))
            <==> (exists k: nat :: k < n - 1 && ForgetsAt(P, Step(P, m), k))
  {
    hide FailsForgetting, Step;
    if k: nat :| k < n && ForgetsAt(P, m, k) {
      assert ForgetsAt(P, Step(P, m), k - 1);
    }
    if k: nat :| k < n - 1 && ForgetsAt(P, Step(P, m), k) {
      assert ForgetsAt(P, m, k + 1);
    }
  }

  lemma RunEnds(P: Program, m: State, n: nat)
    requires n > 0 && Step(P, m).Fail?
    ensures Steps(P, m, n) == Step(P, m)
    ensures (exists k: nat :: k < n && ForgetsAt(P, m, k)) <==> FailsForgetting(P, m)
  {
    hide Step, StatementForgets;
    Stays(P, Step(P, m), n - 1);
    forall k: nat | 0 < k < n ensures Steps(P, m, k) == Step(P, m) { Stays(P, Step(P, m), k - 1); }
    if FailsForgetting(P, m) { assert ForgetsAt(P, m, 0); }
  }

  /** x = {} with no x declared. */
  function Orphan(): (p: Proc) { Proc(1, [], [AssignVar(7, RInit(true, []))]) }

  /** It fails in its first iteration, and the map is left with nothing to hold it. */
  lemma OrphanLeft(P: Program)
    requires ProgramOk(P)
    ensures Reached(P, PathLaws.Bare(), Orphan(), [], 0, 1, Steps(P, Start(PathLaws.Bare(), Orphan(), [], 0), 1))
    ensures var m := Steps(P, Start(PathLaws.Bare(), Orphan(), [], 0), 1);
            && m.Fail? && m.e == UndeclaredVar && LeftOver(m.s)
            && Unwind(m.s).heap == map[1 := Obj(true, [], [])] && Unwind(m.s).freed == []
  {
    var s, m := PathLaws.Bare(), Start(PathLaws.Bare(), Orphan(), [], 0);
    BareFine();
    assert m == Run([CallFrame(Orphan(), None, 0)], Push(s), 0);
    StartOk(s, Orphan(), [], 0);
    var q := Step(P, m);
    OrphanFails(P);
    assert Steps(P, m, 1) == Steps(P, q, 0) == q;
    StepForgetsIff(P, m, {});
    assert Flat([[]]) == [] by { assert Flat([[]][..0]) == []; }
  }

  lemma BareFine()
    ensures Ready(PathLaws.Bare(), [])
  {
    PathLaws.BareOwned();
  }

  lemma OrphanFails(P: Program)
    ensures var m := Run([CallFrame(Orphan(), None, 0)], Push(PathLaws.Bare()), 0);
            && Step(P, m) == Fail(m.frames, NewBox(Push(PathLaws.Bare()), true).0, 0, UndeclaredVar)
            && StatementForgets(P, m.s, 0, Last(m.frames).rest[0])
  {
    var s := NewBox(Push(PathLaws.Bare()), true).0;
    assert Build(P.fl, Push(PathLaws.Bare()), RInit(true, [])) == Got(s, 0);
    assert Resolve(s, 0, 7).None? && Lookup(s.tables[0], 7).None?;
  }
}
