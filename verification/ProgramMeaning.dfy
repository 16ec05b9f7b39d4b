/** Whole programs: a run of the interpreter, with its heap, references and stack, ends in the values
    that the value semantics gives the program. */
module ProgramMeaning {
  import opened Wrappers
  import opened Heap
  import opened Store
  import opened Language
  import opened Discipline
  import opened Statements
  import opened ValueRefinement
  import opened StatementMeaning
  import opened BlockMeaning
  import opened Runs
  import E = Evaluator
  import W = ValueEvaluator
  import V = ValueSemantics

  /** The signal and the ending say the same. */
  ghost predicate Agree(sig: E.Signal, end: W.Ending) {
    match sig
    case Normal(s) => Fine(s) && end == W.Normal(Known(s))
    case Leaving(l, s) => Fine(s) && end == W.Leaving(l, Known(s))
    case Redoing(l, s) => Fine(s) && end == W.Redoing(l, Known(s))
    case Wrong(s, e) => Fine(s) && end == W.Wrong(Known(s), e)
    case Timeout => end == W.Timeout
  }

  lemma {:induction false} StmtsMean(P: Program, fuel: nat, stmts: seq<Stmt>, s: Store, lib: LibId)
    returns (names: W.Names)
    requires ProgramOk(P) && Fine(s) && s.tables != []
    ensures Known(s).tables != []
    ensures Agree(E.ExecStmts(P, fuel, stmts, s, lib), W.ExecStmts(P, fuel, stmts, Known(s), lib, names))
    decreases fuel, 0
  {
    hide Fine, Known, E.ExecStmt, W.ExecStmt, ProgramOk;
    KnownTables(s);
    names := W.These([]);
    if stmts != [] && fuel > 0 {
      var now := StmtMeans(P, fuel - 1, stmts[0], s, lib);
      var sig := E.ExecStmt(P, fuel - 1, stmts[0], s, lib);
      names := W.Both(now, names);
      if sig.Normal? {
        KnownTables(sig.s);
        var later := StmtsMean(P, fuel - 1, stmts[1..], sig.s, lib);
        names := W.Both(now, later);
      }
    }
  }

  lemma OutcomeAgrees(o: Outcome, a: V.After)
    requires OutcomeMeans(o, a)
    ensures Agree(E.OfOutcome(o), W.OfAfter(a))
  {
  }

  lemma NamesSuit(s: Store, names: seq<Loc>, n: nat)
    requires Fine(s) && NewNames(s, names, n)
    ensures W.Suit(W.These(names), Known(s), n)
  {
    KnownIs(s);
  }

  lemma {:induction false} StmtMeans(P: Program, fuel: nat, st: Stmt, s: Store, lib: LibId) returns (names: W.Names)
    requires ProgramOk(P) && Fine(s) && s.tables != []
    ensures Known(s).tables != []
    ensures Agree(E.ExecStmt(P, fuel, st, s, lib), W.ExecStmt(P, fuel, st, Known(s), lib, names))
    decreases fuel, 2
  {
    hide Fine, Known, ProgramOk, Declare, DoAssignVar, DoAssignEntry, Eval, Open, FindProc, FindLib;
    hide V.Introduce, V.SetVariable, V.SetEntry, V.ValueOf, E.RunBlock, W.RunBlock, W.RunCall, E.RunCall, OutcomeMeans;
    hide W.Suit, Agree, NewNames, IsTrue;
    KnownTables(s);
    names := W.These([]);
    match st {
      case Decl(items) =>
        var list := DeclareMeans(P.fl, s, items);
        NamesSuit(s, list, |items|);
        names := W.These(list);
        SuitSize(names, Known(s), |items|);
        OutcomeAgrees(Declare(P.fl, s, items), V.Introduce(P.fl, Known(s), items, list));
      case AssignVar(x, rhs) =>
        AssignVarMeans(P.fl, s, x, rhs);
        OutcomeAgrees(DoAssignVar(P.fl, s, x, rhs), V.SetVariable(P.fl, Known(s), x, rhs));
      case AssignEntry(a, rhs) =>
        AssignEntryMeans(P.fl, s, a, rhs);
        OutcomeAgrees(DoAssignEntry(P.fl, s, a, rhs), V.SetEntry(P.fl, Known(s), a, rhs));
      case If(c, b) =>
        EvalMeans(P.fl, s, c);
        AgreeParts(s);
        names := OpenedMeans(P, fuel, b, s, lib);
      case Block(b) => names := OpenedMeans(P, fuel, b, s, lib);
      case CallA(x, args) =>
        AgreeParts(s);
        if FindProc(P, lib, x).Some? {
          FoundDistinct(P, lib, x);
          names := CallMeans(P, fuel, FindProc(P, lib, x).value, args, s, lib);
        }
      case CallB(y, x, args) =>
        AgreeParts(s);
        if FindLib(P, lib, y).Lib? {
          var to := FindLib(P, lib, y).lib;
          if FindProc(P, to, x).Some? {
            FoundDistinct(P, to, x);
            names := CallMeans(P, fuel, FindProc(P, to, x).value, args, s, to);
          }
        }
      case Leave(_) => AgreeParts(s);
      case Redo(_) => AgreeParts(s);
    }
  }

  lemma SuitSize(names: W.Names, w: V.World, n: nat)
    requires W.Suit(names, w, n)
    ensures names.These? && |names.list| == n
  {
  }

  lemma AgreeParts(s: Store)
    requires Fine(s)
    ensures Agree(E.Normal(s), W.Normal(Known(s)))
    ensures forall l :: Agree(E.Leaving(l, s), W.Leaving(l, Known(s)))
    ensures forall l :: Agree(E.Redoing(l, s), W.Redoing(l, Known(s)))
    ensures forall e :: Agree(E.Wrong(s, e), W.Wrong(Known(s), e))
  {
  }

  lemma OpenedMeans(P: Program, fuel: nat, b: Body, s: Store, lib: LibId) returns (names: W.Names)
    requires ProgramOk(P) && Fine(s)
    ensures Agree(E.RunBlock(P, fuel, b.mark, b.stmts, b.stmts, Push(s), lib),
                  W.RunBlock(P, fuel, b.mark, b.stmts, b.stmts, V.Opened(Known(s)), lib, names))
    decreases fuel, 1, 1
  {
    hide Fine, Known, ProgramOk, Agree, E.RunBlock, W.RunBlock;
    PushMeans(s);
    names := BlockMeans(P, fuel, b.mark, b.stmts, b.stmts, Push(s), lib);
  }

  lemma CallMeans(P: Program, fuel: nat, p: Proc, args: Option<seq<Arg>>, s: Store, lib: LibId) returns (names: W.Names)
    requires ProgramOk(P) && Distinct(p.formals) && Fine(s) && s.tables != []
    ensures Known(s).tables != []
    ensures Agree(E.RunCall(P, fuel, p, Open(P.fl, s, p, args), lib), W.RunCall(P, fuel, p, args, Known(s), lib, names))
    decreases fuel, 1, 1
  {
    hide Fine, Known, ProgramOk, E.RunBlock, W.RunBlock, Open;
    hide V.PassArgs, V.Closed, V.Opened, Distinct, NewNames, W.Suit;
    KnownTables(s);
    var list := OpenMeans(P.fl, s, p, args);
    NamesSuit(s, list, |p.formals|);
    SuitSize(W.These(list), Known(s), |p.formals|);
    names := W.Both(W.These(list), W.These([]));
    var o := Open(P.fl, s, p, args);
    OpenWell(P.fl, s, p, args);
    if o.Good? {
      KnownTables(o.s);
      OpenedTables(s, o);
      var later := BlockMeans(P, fuel, p.name, p.stmts, p.stmts, o.s, lib);
      names := W.Both(W.These(list), later);
    }
  }

  lemma OpenedTables(s: Store, o: Outcome)
    requires OpenedWell(s, o) && o.Good?
    ensures o.s.tables != []
  {
  }

  lemma {:induction false} BlockMeans(P: Program, fuel: nat, mark: Sym, body: seq<Stmt>, rest: seq<Stmt>, s: Store,
                                      lib: LibId)
    returns (names: W.Names)
    requires ProgramOk(P) && Fine(s) && s.tables != []
    ensures Known(s).tables != []
    ensures Agree(E.RunBlock(P, fuel, mark, body, rest, s, lib),
      W.RunBlock(P, fuel, mark, body, rest, Known(s), lib, names))
    decreases fuel, 1, 0
  {
    hide Fine, Known, ProgramOk, E.ExecStmts, W.ExecStmts, Pop, V.Closed;
    KnownTables(s);
    var now := StmtsMean(P, fuel, rest, s, lib);
    var sig := E.ExecStmts(P, fuel, rest, s, lib);
    names := W.Both(now, W.These([]));
    if sig.Normal? || sig.Leaving? || sig.Redoing? {
      KnownTables(sig.s);
      PopMeans(sig.s);
      if sig.Redoing? && (sig.l == 0 || mark == sig.l) && fuel > 0 {
        PushMeans(Pop(sig.s));
        var later := BlockMeans(P, fuel - 1, mark, body, body, ClearTop(sig.s), lib);
        names := W.Both(now, later);
      }
    }
  }
}
