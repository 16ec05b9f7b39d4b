/** What programs mean, by their structure: a block runs its statements and hands back how it ended.
    There is no stack of blocks here, and the library is the one in whose text a statement stands. */
module Evaluator {
  import opened Heap
  import opened Store
  import opened Language
  import opened Machine

  /** Timeout: the bound on how deep and how long to run was met. */
  datatype Signal =
    | Normal(s: Store) | Leaving(l: Sym, s: Store) | Redoing(l: Sym, s: Store)
    | Wrong(s: Store, e: Error) | Timeout

  function OfOutcome(o: Outcome): (r: Signal) {
    match o
    case Good(s) => Normal(s)
    case Failed(s, e) => Wrong(s, e)
  }

  function ExecStmts(P: Program, fuel: nat, stmts: seq<Stmt>, s: Store, lib: LibId): (r: Signal)
    decreases fuel, 0
  {
    if stmts == [] then Normal(s)
    else if fuel == 0 then Timeout
    else
      match ExecStmt(P, fuel - 1, stmts[0], s, lib)
      case Normal(s1) => ExecStmts(P, fuel - 1, stmts[1..], s1, lib)
      case sig => sig
  }

  function ExecStmt(P: Program, fuel: nat, st: Stmt, s: Store, lib: LibId): (r: Signal)
    decreases fuel, 2
  {
    match st
    case Decl(items) => OfOutcome(Declare(P.fl, s, items))
    case AssignVar(x, rhs) => OfOutcome(DoAssignVar(P.fl, s, x, rhs))
    case AssignEntry(a, rhs) => OfOutcome(DoAssignEntry(P.fl, s, a, rhs))
    case If(c, b) =>
      (match Eval(P.fl, s, c)
       case None => Wrong(s, InvalidExpression)
       case Some(v) =>
         if IsTrue(P.fl, v) then RunBlock(P, fuel, b.mark, b.stmts, b.stmts, Push(s), lib) else Normal(s))
    case Block(b) => RunBlock(P, fuel, b.mark, b.stmts, b.stmts, Push(s), lib)
    case CallA(x, args) =>
      (match FindProc(P, lib, x)
       case None => Wrong(s, UnknownProc)
       case Some(p) => RunCall(P, fuel, p, Open(P.fl, s, p, args), lib))
    case CallB(y, x, args) =>
      (match FindLib(P, lib, y)
       case NoLib(e) => Wrong(s, e)
       case Lib(to) =>
         match FindProc(P, to, x)
         case None => Wrong(s, UnknownProc)
         case Some(p) => RunCall(P, fuel, p, Open(P.fl, s, p, args), to))
    case Leave(l) => Leaving(l, s)
    case Redo(l) => Redoing(l, s)
  }

  function RunCall(P: Program, fuel: nat, p: Proc, o: Outcome, lib: LibId): (r: Signal)
    decreases fuel, 1, 1
  {
    match o
    case Failed(s, e) => Wrong(s, e)
    case Good(s) => RunBlock(P, fuel, p.name, p.stmts, p.stmts, s, lib)
  }

  /** Run `rest` as the remainder of a block. */
  function RunBlock(P: Program, fuel: nat, mark: Sym, body: seq<Stmt>, rest: seq<Stmt>, s: Store, lib: LibId):
    (r: Signal)
    decreases fuel, 1, 0
  {
    Close(P, fuel, mark, body, ExecStmts(P, fuel, rest, s, lib), lib)
  }

  /** The end of a block: a leave meant for it ends it normally, a redo meant for it starts it over
      with no variables, and either one meant for another block passes through. */
  function Close(P: Program, fuel: nat, mark: Sym, body: seq<Stmt>, sig: Signal, lib: LibId): (r: Signal)
    decreases fuel, 0
  {
    match sig
    case Normal(s) => Normal(Pop(s))
    case Leaving(l, s) => if l == 0 || mark == l then Normal(Pop(s)) else Leaving(l, Pop(s))
    case Redoing(l, s) =>
      if l == 0 || mark == l
      then if fuel == 0 then Timeout else RunBlock(P, fuel - 1, mark, body, body, ClearTop(s), lib)
      else Redoing(l, Pop(s))
    case Wrong(_, _) => sig
    case Timeout => sig
  }

  /** Finish the blocks of a stack, the statement at which the top one stands having ended in sig. */
  function Resume(P: Program, fuel: nat, fs: seq<Frame>, sig: Signal, lib: LibId): (r: Signal)
    decreases |fs|
  {
    if fs == [] then sig
    else
      var f := Last(fs);
      var sig1 := if sig.Normal? then ExecStmts(P, fuel, Tail(f.rest), sig.s, lib) else sig;
      Resume(P, fuel, Front(fs), Close(P, fuel, f.mark, f.body, sig1, lib), LibUnder(f, lib))
  }

  /** Run a whole stack of blocks, the top one from where it stands. */
  function Exec(P: Program, fuel: nat, fs: seq<Frame>, s: Store, lib: LibId): (r: Signal)
    requires fs != []
  {
    var f := Last(fs);
    Resume(P, fuel, Front(fs), RunBlock(P, fuel, f.mark, f.body, f.rest, s, lib), LibUnder(f, lib))
  }
}
