/** The names the value semantics is given do not matter: under any that suit, a program ends as the
    interpreter does, up to what its variables are called. */
module AnyNames {
  import opened Wrappers
  import opened Heap
  import opened Store
  import opened Language
  import opened Machine
  import opened Ownership
  import opened OwnershipSlots
  import opened Scopes
  import opened Discipline
  import opened Blocks
  import opened Statements
  import opened PathLaws
  import opened ValueRefinement
  import opened StatementMeaning
  import opened BlockMeaning
  import opened ProgramMeaning
  import opened Runs
  import opened RunTheorems
  import opened InterpreterTheorems
  import opened Renaming
  import E = Evaluator
  import V = ValueSemantics
  import W = ValueEvaluator

  /** Unless the names do not suit, the signal and the ending say the same once variables are renamed. */
  ghost predicate AgreeBy(f: Renames, sig: E.Signal, end: W.Ending, ext: set<Loc>) {
    end.Misnamed? ||
    match sig
    case Normal(s) => end.Normal? && StoreBy(f, s, end.w, ext)
    case Leaving(l, s) => end.Leaving? && end.l == l && StoreBy(f, s, end.w, ext)
    case Redoing(l, s) => end.Redoing? && end.l == l && StoreBy(f, s, end.w, ext)
    case Wrong(s, e) => end.Wrong? && end.e == e && StoreBy(f, s, end.w, ext)
    case Timeout => end.Timeout?
  }

  ghost predicate StoreBy(f: Renames, s: Store, x: V.World, ext: set<Loc>) {
    Injective(f) && Fine(s) && s.ext == ext && Alike(f, Known(s), x)
  }

  /** g is a renaming that leaves the variables `ext` where f puts them. */
  ghost predicate Follows(f: Renames, g: Renames, ext: set<Loc>) { Injective(g) && AgreesOn(f, g, ext) }

  lemma {:induction false} RenStrip(f: Renames, t: Tree)
    requires Sound(t) && !Root(t).VRef?
    ensures RenPlain(f, Strip(t)) == Strip(t)
    decreases t
  {
    if t.Node? {
      SoundKids(t);
      StripNode(t);
      RenNode(f, Strip(t));
      forall i | 0 <= i < |t.kids| ensures RenPlain(f, Strip(t.kids[i])) == Strip(t.kids[i]) {
        RenStrip(f, t.kids[i]);
      }
      assert RenPlain(f, Strip(t)).kids == Strip(t).kids;
    } else {
      RenNone(f);
    }
  }

  /** All the variables that a store's world mentions are in it. */
  lemma KnownAgain(f: Renames, g: Renames, s: Store, l: Loc)
    requires Fine(s) && AgreesOn(f, g, Known(s).cells.Keys) && l in Known(s).cells
    ensures RenPlain(g, Known(s).cells[l]) == RenPlain(f, Known(s).cells[l])
  {
    hide ForestBy, Scoped, Locs, RenPlain, Strip;
    KnownIs(s);
    LiveForest(s);
    var t := TreeOf(s, l);
    OneTree(s, ForestOf(s), l);
    RootOfTree(s, l);
    if s.cells[l].VRef? {
      ReferenceKnown(s, l);
      StripLeaf(s.cells[l]);
      RenLeaf(f, PLeaf(s.cells[l]));
      RenLeaf(g, PLeaf(s.cells[l]));
    } else {
      RenStrip(f, t);
      RenStrip(g, t);
    }
  }

  /** A renaming that agrees on the variables there are does as well. */
  lemma Refit(f: Renames, g: Renames, s: Store, x: V.World)
    requires Fine(s) && Alike(f, Known(s), x) && Injective(g) && AgreesOn(f, g, Known(s).cells.Keys)
    ensures Alike(g, Known(s), x)
  {
    hide Known, RenPlain, Fine, Locs;
    var w := Known(s);
    KnownTables(s);
    forall k | 0 <= k < |w.tables| ensures x.tables[k] == RenTable(g, w.tables[k]) {
      BoundLive(s, k);
      assert RenTable(f, w.tables[k]) == RenTable(g, w.tables[k]);
    }
    forall l | l in w.cells ensures RenPlain(g, w.cells[l]) == RenPlain(f, w.cells[l]) { KnownAgain(f, g, s, l); }
    CellsAgain(f, g, w.cells, x.cells);
  }

  lemma BoundLive(s: Store, k: nat)
    requires Fine(s) && k < |s.tables|
    ensures forall i | 0 <= i < |s.tables[k]| :: s.tables[k][i].loc in Known(s).cells
  {
    hide Fine, Scoped;
    KnownIs(s);
    LocsPrefix(s.tables, k + 1);
    assert s.tables[..k + 1][..k] == s.tables[..k];
    assert LocsOf(s.tables[k]) <= Locs(s.tables[..k + 1]);
  }

  lemma ReferenceKnown(s: Store, l: Loc)
    requires Fine(s) && l in s.cells && s.cells[l].VRef?
    ensures s.cells[l].loc in Known(s).cells
  {
    hide ForestBy, Scoped, Locs;
    KnownIs(s);
    RefsLand(s.tables, s.cells, s.ext, l);
  }

  // ---------------------------------------------------------------- statements

  lemma TablesBy(f: Renames, s: Store, x: V.World)
    requires Fine(s) && Alike(f, Known(s), x) && s.tables != []
    ensures Known(s).tables == s.tables && |x.tables| == |s.tables| && Known(s).tables != [] && x.tables != []
  {
    KnownTables(s);
  }

  /** The names there are and any others that suit. */
  lemma Rename(f: Renames, s: Store, x: V.World, olds: seq<Loc>, names: W.Names, n: nat) returns (g: Renames)
    requires Fine(s) && Injective(f) && Alike(f, Known(s), x) && NewNames(s, olds, n) && W.Suit(names, x, n)
    ensures names.These? && |olds| == |names.list| == n
    ensures Follows(f, g, s.ext) && Alike(g, Known(s), x) && RenNames(g, olds) == names.list
  {
    hide Injective, RenPlain, Locs;
    KnownIs(s);
    var keep := Known(s).cells.Keys;
    assert forall l | l in keep :: f(l) in x.cells.Keys;
    hide Known, Fine;
    g := Matching(f, olds, names.list, keep, x.cells.Keys);
    Refit(f, g, s, x);
  }

  /** An outcome over values, renamed. */
  lemma OutcomeBy(f: Renames, o: Outcome, a: V.After, b: V.After, ext: set<Loc>)
    requires OutcomeMeans(o, a) && AfterAlike(f, a, b) && Injective(f) && o.s.ext == ext
    ensures AgreeBy(f, E.OfOutcome(o), W.OfAfter(b), ext)
  {
    hide Fine, Known, Alike, Injective;
  }

  lemma DeclareBy(fl: Floats, s: Store, items: seq<DeclItem>, f: Renames, x: V.World, names: W.Names)
    returns (g: Renames)
    requires Fine(s) && s.tables != [] && Injective(f) && Alike(f, Known(s), x)
    ensures Follows(f, g, s.ext) && x.tables != []
    ensures AgreeBy(g, E.OfOutcome(Declare(fl, s, items)),
                    if W.Suit(names, x, |items|) then W.OfAfter(V.Introduce(fl, x, items, names.list)) else W.Misnamed,
                    s.ext)
  {
    hide Fine, Known, Alike, Injective, Declare, V.Introduce, W.Suit, OutcomeMeans, AfterAlike, NewNames;
    g := f;
    TablesBy(f, s, x);
    if W.Suit(names, x, |items|) {
      var olds := DeclareMeans(fl, s, items);
      g := Rename(f, s, x, olds, names, |items|);
      RenIntroduce(fl, g, Known(s), x, items, olds);
      DeclareWell(fl, s, items);
      DoneExt(s, Declare(fl, s, items));
      OutcomeBy(g, Declare(fl, s, items), V.Introduce(fl, Known(s), items, olds),
        V.Introduce(fl, x, items, names.list), s.ext);
    }
  }

  lemma DoneExt(s: Store, o: Outcome)
    requires DoneWell(s, o)
    ensures o.s.ext == s.ext
  {
  }

  lemma AssignBy(fl: Floats, s: Store, f: Renames, x: V.World)
    requires Fine(s) && Injective(f) && Alike(f, Known(s), x)
    ensures forall y, rhs ::
              AgreeBy(f, E.OfOutcome(DoAssignVar(fl, s, y, rhs)), W.OfAfter(V.SetVariable(fl, x, y, rhs)), s.ext)
    ensures forall a, rhs ::
              AgreeBy(f, E.OfOutcome(DoAssignEntry(fl, s, a, rhs)), W.OfAfter(V.SetEntry(fl, x, a, rhs)), s.ext)
  {
    hide Fine, Known, Alike, Injective, DoAssignVar, DoAssignEntry;
    hide V.SetVariable, V.SetEntry, OutcomeMeans, AfterAlike, AgreeBy;
    hide DoneWell;
    forall y, rhs
      ensures AgreeBy(f, E.OfOutcome(DoAssignVar(fl, s, y, rhs)), W.OfAfter(V.SetVariable(fl, x, y, rhs)), s.ext)
    {
      AssignVarMeans(fl, s, y, rhs);
      AssignVarWell(fl, s, y, rhs);
      DoneExt(s, DoAssignVar(fl, s, y, rhs));
      RenSetVariable(fl, f, Known(s), x, y, rhs);
      OutcomeBy(f, DoAssignVar(fl, s, y, rhs), V.SetVariable(fl, Known(s), y, rhs), V.SetVariable(fl, x, y, rhs),
        s.ext);
    }
    forall a, rhs
      ensures AgreeBy(f, E.OfOutcome(DoAssignEntry(fl, s, a, rhs)), W.OfAfter(V.SetEntry(fl, x, a, rhs)), s.ext)
    {
      AssignEntryMeans(fl, s, a, rhs);
      AssignEntryWell(fl, s, a, rhs);
      DoneExt(s, DoAssignEntry(fl, s, a, rhs));
      RenSetEntry(fl, f, Known(s), x, a, rhs);
      OutcomeBy(f, DoAssignEntry(fl, s, a, rhs), V.SetEntry(fl, Known(s), a, rhs), V.SetEntry(fl, x, a, rhs), s.ext);
    }
  }

  lemma SimpleBy(f: Renames, s: Store, x: V.World)
    requires Fine(s) && Injective(f) && Alike(f, Known(s), x)
    ensures AgreeBy(f, E.Normal(s), W.Normal(x), s.ext)
    ensures forall l :: AgreeBy(f, E.Leaving(l, s), W.Leaving(l, x), s.ext)
    ensures forall l :: AgreeBy(f, E.Redoing(l, s), W.Redoing(l, x), s.ext)
    ensures forall e :: AgreeBy(f, E.Wrong(s, e), W.Wrong(x, e), s.ext)
    ensures Follows(f, f, s.ext)
  {
  }

  /** One agreement after another. */
  lemma FollowsOn(f: Renames, g: Renames, h: Renames, ext: set<Loc>)
    requires Follows(f, g, ext) && Follows(g, h, ext)
    ensures Follows(f, h, ext)
  {
  }

  lemma {:induction false} StmtsBy(P: Program, fuel: nat, stmts: seq<Stmt>, s: Store, lib: LibId, f: Renames,
                                   x: V.World, names: W.Names)
    returns (g: Renames)
    requires ProgramOk(P) && Fine(s) && s.tables != [] && Injective(f) && Alike(f, Known(s), x)
    ensures x.tables != [] && Follows(f, g, s.ext)
    ensures AgreeBy(g, E.ExecStmts(P, fuel, stmts, s, lib), W.ExecStmts(P, fuel, stmts, x, lib, names), s.ext)
    decreases fuel, 0
  {
    hide Fine, Known, Alike, Injective, E.ExecStmt, W.ExecStmt, ProgramOk, Follows;
    TablesBy(f, s, x);
    SimpleBy(f, s, x);
    g := f;
    if stmts != [] && fuel > 0 && names.Both? {
      g := StmtBy(P, fuel - 1, stmts[0], s, lib, f, x, names.now);
      var sig, end := E.ExecStmt(P, fuel - 1, stmts[0], s, lib), W.ExecStmt(P, fuel - 1, stmts[0], x, lib, names.now);
      if sig.Normal? && !end.Misnamed? {
        TablesLeft(g, sig.s, end.w);
        var h := StmtsBy(P, fuel - 1, stmts[1..], sig.s, lib, g, end.w, names.later);
        FollowsOn(f, g, h, s.ext);
        g := h;
      }
    }
  }

  /** Blocks(end, n) for the one is the same for the other. */
  lemma TablesLeft(f: Renames, s: Store, x: V.World)
    requires Fine(s) && Alike(f, Known(s), x) && x.tables != []
    ensures s.tables != []
  {
    KnownTables(s);
  }

  lemma {:induction false} StmtBy(P: Program, fuel: nat, st: Stmt, s: Store, lib: LibId, f: Renames, x: V.World,
                                  names: W.Names)
    returns (g: Renames)
    requires ProgramOk(P) && Fine(s) && s.tables != [] && Injective(f) && Alike(f, Known(s), x)
    ensures x.tables != [] && Follows(f, g, s.ext)
    ensures AgreeBy(g, E.ExecStmt(P, fuel, st, s, lib), W.ExecStmt(P, fuel, st, x, lib, names), s.ext)
    decreases fuel, 2
  {
    hide Fine, Known, Alike, Injective, ProgramOk, Declare, DoAssignVar, DoAssignEntry, Eval, Open, FindProc, FindLib;
    hide V.Introduce, V.SetVariable, V.SetEntry, V.ValueOf, E.RunBlock, W.RunBlock, W.RunCall, E.RunCall;
    hide W.Suit, AgreeBy, Follows, IsTrue;
    TablesBy(f, s, x);
    SimpleBy(f, s, x);
    g := f;
    match st {
      case Decl(items) => g := DeclareBy(P.fl, s, items, f, x, names);
      case AssignVar(_, _) => AssignBy(P.fl, s, f, x);
      case AssignEntry(_, _) => AssignBy(P.fl, s, f, x);
      case If(c, b) =>
        EvalMeans(P.fl, s, c);
        RenValueOf(P.fl, f, Known(s), x, c);
        g := OpenedBy(P, fuel, b, s, lib, f, x, names);
        if Eval(P.fl, s, c).None? || !IsTrue(P.fl, Eval(P.fl, s, c).value) { g := f; }
      case Block(b) => g := OpenedBy(P, fuel, b, s, lib, f, x, names);
      case CallA(y, args) =>
        if FindProc(P, lib, y).Some? {
          FoundDistinct(P, lib, y);
          g := CallBy(P, fuel, FindProc(P, lib, y).value, args, s, lib, f, x, names);
        }
      case CallB(z, y, args) =>
        if FindLib(P, lib, z).Lib? {
          var to := FindLib(P, lib, z).lib;
          if FindProc(P, to, y).Some? {
            FoundDistinct(P, to, y);
            g := CallBy(P, fuel, FindProc(P, to, y).value, args, s, to, f, x, names);
          }
        }
      case Leave(_) =>
      case Redo(_) =>
    }
  }

  lemma OpenedBy(P: Program, fuel: nat, b: Body, s: Store, lib: LibId, f: Renames, x: V.World, names: W.Names)
    returns (g: Renames)
    requires ProgramOk(P) && Fine(s) && Injective(f) && Alike(f, Known(s), x)
    ensures Follows(f, g, s.ext)
    ensures AgreeBy(g, E.RunBlock(P, fuel, b.mark, b.stmts, b.stmts, Push(s), lib),
                    W.RunBlock(P, fuel, b.mark, b.stmts, b.stmts, V.Opened(x), lib, names), s.ext)
    decreases fuel, 1, 1
  {
    hide Fine, Known, Alike, Injective, ProgramOk, AgreeBy, Follows, E.RunBlock, W.RunBlock;
    PushMeans(s);
    RenOpened(f, Known(s), x);
    g := BlockBy(P, fuel, b.mark, b.stmts, b.stmts, Push(s), lib, f, V.Opened(x), names);
  }

  lemma CallBy(P: Program, fuel: nat, p: Proc, args: Option<seq<Arg>>, s: Store, lib: LibId, f: Renames, x: V.World,
               names: W.Names) returns (g: Renames)
    requires ProgramOk(P) && Distinct(p.formals) && Fine(s) && s.tables != [] && Injective(f) && Alike(f, Known(s), x)
    ensures x.tables != [] && Follows(f, g, s.ext)
    ensures AgreeBy(g, E.RunCall(P, fuel, p, Open(P.fl, s, p, args), lib),
                    W.RunCall(P, fuel, p, args, x, lib, names), s.ext)
    decreases fuel, 1, 1
  {
    hide Fine, Known, Alike, Injective, ProgramOk, E.RunBlock;
    hide W.RunBlock, Open, V.PassArgs, V.Closed, V.Opened, Distinct;
    hide NewNames, W.Suit, AgreesOn;
    TablesBy(f, s, x);
    g := f;
    SimpleBy(f, s, x);
    if names.Both? && W.Suit(names.now, x, |p.formals|) {
      var olds := OpenMeans(P.fl, s, p, args);
      g := Rename(f, s, x, olds, names.now, |p.formals|);
      var w1, x1 := V.Opened(Known(s)), V.Opened(x);
      OpenedHas(Known(s));
      RenOpened(g, Known(s), x);
      if args.Some? { RenPassArgs(P.fl, g, w1, x1, p.formals, args.value, olds); }
      var a := if args.None? then V.Then(w1) else V.PassArgs(P.fl, w1, p.formals, args.value, olds);
      var b := if args.None? then V.Then(x1) else V.PassArgs(P.fl, x1, p.formals, args.value, names.now.list);
      var o := Open(P.fl, s, p, args);
      OpenWell(P.fl, s, p, args);
      OpenedExt(s, o);
      if o.Good? {
        var h := BlockBy(P, fuel, p.name, p.stmts, p.stmts, o.s, lib, g, b.w, names.later);
        FollowsOn(f, g, h, s.ext);
        g := h;
      } else {
        RenClosed(g, a.w, b.w);
      }
    }
  }

  lemma OpenedHas(w: V.World)
    ensures V.Opened(w).tables != []
  {
  }

  lemma OpenedExt(s: Store, o: Outcome)
    requires OpenedWell(s, o)
    ensures o.s.ext == s.ext && (o.Good? ==> o.s.tables != [])
  {
  }

  lemma {:induction false} BlockBy(P: Program, fuel: nat, mark: Sym, body: seq<Stmt>, rest: seq<Stmt>, s: Store,
                                   lib: LibId, f: Renames, x: V.World, names: W.Names)
    returns (g: Renames)
    requires ProgramOk(P) && Fine(s) && s.tables != [] && Injective(f) && Alike(f, Known(s), x)
    ensures x.tables != [] && Follows(f, g, s.ext)
    ensures AgreeBy(g, E.RunBlock(P, fuel, mark, body, rest, s, lib),
                    W.RunBlock(P, fuel, mark, body, rest, x, lib, names), s.ext)
    decreases fuel, 1, 0
  {
    hide Fine, Known, Alike, Injective, ProgramOk, E.ExecStmts, W.ExecStmts, Pop, V.Closed, V.Opened, Follows;
    TablesBy(f, s, x);
    SimpleBy(f, s, x);
    g := f;
    if names.Both? {
      g := StmtsBy(P, fuel, rest, s, lib, f, x, names.now);
      var sig, end := E.ExecStmts(P, fuel, rest, s, lib), W.ExecStmts(P, fuel, rest, x, lib, names.now);
      if !end.Misnamed? && (sig.Normal? || sig.Leaving? || sig.Redoing?) {
        ClosedBy(g, sig.s, end.w);
        if sig.Redoing? && (sig.l == 0 || mark == sig.l) && fuel > 0 {
          PushMeans(Pop(sig.s));
          RenOpened(g, Known(Pop(sig.s)), V.Closed(end.w));
          var x1 := V.Opened(V.Closed(end.w));
          var h := BlockBy(P, fuel - 1, mark, body, body, ClearTop(sig.s), lib, g, x1, names.later);
          FollowsOn(f, g, h, s.ext);
          g := h;
        }
      }
    }
  }

  lemma ClosedBy(f: Renames, s: Store, x: V.World)
    requires Fine(s) && Injective(f) && Alike(f, Known(s), x) && x.tables != []
    ensures s.tables != [] && Fine(Pop(s)) && Pop(s).ext == s.ext && Alike(f, Known(Pop(s)), V.Closed(x))
  {
    hide Fine, Known, Alike, Injective, Pop, V.Closed;
    TablesLeft(f, s, x);
    PopFine(s);
    PopMeans(s);
    RenClosed(f, Known(s), x);
  }

  // ---------------------------------------------------------------- whole programs

  ghost predicate Begins(P: Program, s: Store, p: Proc, exts: seq<Loc>) {
    ProgramOk(P) && Distinct(p.formals) && p.stmts != [] && Ready(s, exts)
  }

  /** The program over values, from the world in which the interpreter starts. */
  ghost function ValueRun(P: Program, s: Store, p: Proc, exts: seq<Loc>, lib: LibId, fuel: nat, names: W.Names):
    (r: W.Ending)
    requires Begins(P, s, p, exts)
  {
    StartParts(P, s, p, exts, lib);
    W.RunBlock(P, fuel, p.name, p.stmts, p.stmts, Known(Start(s, p, exts, lib).s), lib, names)
  }

  lemma StartParts(P: Program, s: Store, p: Proc, exts: seq<Loc>, lib: LibId)
    requires Begins(P, s, p, exts)
    ensures var m := Start(s, p, exts, lib);
            && m.Run? && m == Run([CallFrame(p, None, lib)], m.s, lib)
            && Fine(m.s) && m.s.tables != [] && m.s.ext == s.ext && Known(m.s).tables != []
  {
    hide BindExternal, Fine, Temps;
    StartOk(s, p, exts, lib);
    KnownTables(Start(s, p, exts, lib).s);
  }

  predicate Ends(end: W.Ending) { !end.Timeout? && !end.Misnamed? }

  /** The outcome is the ending, with the variables renamed. */
  ghost predicate EndsBy(f: Renames, o: Outcome, end: W.Ending, ext: set<Loc>) {
    match o
    case Good(s) => (end.Normal? || end.Leaving? || end.Redoing?) && StoreBy(f, s, end.w, ext)
    case Failed(s, e) => end.Wrong? && end.e == e && StoreBy(f, s, end.w, ext)
  }

  /** A renaming that leaves the arguments of the C caller alone. */
  ghost predicate Fixes(f: Renames, ext: set<Loc>) { forall l | l in ext :: f(l) == l }

  /** A stack of one block. */
  lemma OneBlock(P: Program, fuel: nat, f: Frame, s: Store, lib: LibId)
    ensures E.Exec(P, fuel, [f], s, lib) == E.RunBlock(P, fuel, f.mark, f.body, f.rest, s, lib)
  {
    hide E.RunBlock;
    assert Front([f]) == [];
  }

  /** The loop and the value semantics, run with the same program. */
  lemma RunsAlike(P: Program, s: Store, p: Proc, exts: seq<Loc>, lib: LibId, fuel: nat, names: W.Names)
    returns (n: nat, f: Renames)
    requires Begins(P, s, p, exts)
    ensures var o, end := StopOf(Steps(P, Start(s, p, exts, lib), n)), ValueRun(P, s, p, exts, lib, fuel, names);
            && (Ends(end) ==> o.Some? && Fixes(f, s.ext) && EndsBy(f, o.value, end, s.ext))
            && (end.Timeout? ==> n + 1 >= fuel)
  {
    hide Steps, E.RunBlock, W.RunBlock, Fine, Known, Start, Distinct, ProgramOk, StoreBy, Ready;
    StartParts(P, s, p, exts, lib);
    var m, fr := Start(s, p, exts, lib), CallFrame(p, None, lib);
    n := Simulation(P, fuel, [fr], m.s, lib);
    OneBlock(P, fuel, fr, m.s, lib);
    AlikeSame(Known(m.s));
    f := BlockBy(P, fuel, p.name, p.stmts, p.stmts, m.s, lib, Same(), Known(m.s), names);
  }

  /** The main result: however the value semantics names variables, when it and the interpreter's loop
      both come to an end they end alike, with the same error if any, and every variable holds the same
      value, up to what variables other than the C caller's arguments are called. */
  lemma ProgramMeans(P: Program, s: Store, p: Proc, exts: seq<Loc>, lib: LibId, n: nat, fuel: nat, names: W.Names)
    requires Begins(P, s, p, exts)
    requires !Steps(P, Start(s, p, exts, lib), n).Run? && Ends(ValueRun(P, s, p, exts, lib, fuel, names))
    ensures var o, end := StopOf(Steps(P, Start(s, p, exts, lib), n)).value, ValueRun(P, s, p, exts, lib, fuel, names);
            exists f :: Fixes(f, s.ext) && EndsBy(f, o, end, s.ext)
  {
    hide Steps, EndsBy, ValueRun, Begins;
    var m := Start(s, p, exts, lib);
    var k, f := RunsAlike(P, s, p, exts, lib, fuel, names);
    if k <= n { StaysFrom(P, m, k, n); } else { StaysFrom(P, m, n, k); }
  }

  /** And they come to an end for the same programs. */
  lemma StopsIff(P: Program, s: Store, p: Proc, exts: seq<Loc>, lib: LibId)
    requires Begins(P, s, p, exts)
    ensures (exists n: nat :: !Steps(P, Start(s, p, exts, lib), n).Run?)
       <==> (exists fuel: nat, names :: Ends(ValueRun(P, s, p, exts, lib, fuel, names)))
  {
    hide Steps, EndsBy, ValueRun, Begins, Start;
    var m := Start(s, p, exts, lib);
    if n: nat :| !Steps(P, m, n).Run? {
      var names := SomeNames(P, s, p, exts, lib, n + 2);
      if ValueRun(P, s, p, exts, lib, n + 2, names).Timeout? {
        StillRunning(P, s, p, exts, lib, n, names);
      }
      assert Ends(ValueRun(P, s, p, exts, lib, n + 2, names));
    }
    if fuel: nat, names :| Ends(ValueRun(P, s, p, exts, lib, fuel, names)) {
      var n, f := RunsAlike(P, s, p, exts, lib, fuel, names);
      assert !Steps(P, m, n).Run?;
    }
  }

  /** There are always names that suit. */
  lemma SomeNames(P: Program, s: Store, p: Proc, exts: seq<Loc>, lib: LibId, fuel: nat) returns (names: W.Names)
    requires Begins(P, s, p, exts)
    ensures !ValueRun(P, s, p, exts, lib, fuel, names).Misnamed?
  {
    hide W.RunBlock, E.RunBlock, Start, Fine, Known, Distinct, ProgramOk, Ready;
    StartParts(P, s, p, exts, lib);
    names := BlockMeans(P, fuel, p.name, p.stmts, p.stmts, Start(s, p, exts, lib).s, lib);
  }

  lemma StillRunning(P: Program, s: Store, p: Proc, exts: seq<Loc>, lib: LibId, n: nat, names: W.Names)
    requires Begins(P, s, p, exts) && ValueRun(P, s, p, exts, lib, n + 2, names).Timeout?
    ensures Steps(P, Start(s, p, exts, lib), n).Run?
  {
    hide Steps, E.RunBlock, W.RunBlock, Fine, Known, Start, Distinct, ProgramOk, Ready;
    StartParts(P, s, p, exts, lib);
    var m, fr := Start(s, p, exts, lib), CallFrame(p, None, lib);
    OneBlock(P, n + 2, fr, m.s, lib);
    AlikeSame(Known(m.s));
    var f := BlockBy(P, n + 2, p.name, p.stmts, p.stmts, m.s, lib, Same(), Known(m.s), names);
    if !Steps(P, m, n).Run? { EnoughFuel(P, [fr], m.s, lib, n); }
  }
}
