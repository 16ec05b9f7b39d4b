/** What whole programs mean over plain values: Evaluator again, with no heap, no addresses to follow
    and nothing to destroy.  All it needs from outside is names for the variables it makes. */
module ValueEvaluator {
  import opened Wrappers
  import opened Heap
  import opened Language
  import opened ValueSemantics

  /** The names a run gives its new variables, in the shape of the run. */
  datatype Names = These(list: seq<Loc>) | Both(now: Names, later: Names)

  /** Timeout: the bound on how deep and how long to run was met.  Misnamed: the names do not suit. */
  datatype Ending =
    | Normal(w: World) | Leaving(l: Sym, w: World) | Redoing(l: Sym, w: World)
    | Wrong(w: World, e: Error) | Timeout | Misnamed

  /** There are n blocks, unless the run is over. */
  predicate Blocks(r: Ending, n: int) { r.Normal? || r.Leaving? || r.Redoing? ==> |r.w.tables| == n }

  predicate Suit(names: Names, w: World, n: nat) {
    names.These? && |names.list| == n && Unused(w.cells.Keys, names.list)
  }

  function OfAfter(a: After): (r: Ending) {
    match a
    case Then(w) => Normal(w)
    case Not(w, e) => Wrong(w, e)
  }

  function ExecStmts(P: Program, fuel: nat, stmts: seq<Stmt>, w: World, lib: LibId, names: Names): (r: Ending)
    requires w.tables != []
    ensures Blocks(r, |w.tables|)
    decreases fuel, 0
  {
    if stmts == [] then Normal(w)
    else if fuel == 0 then Timeout
    else if names.These? then Misnamed
    else
      match ExecStmt(P, fuel - 1, stmts[0], w, lib, names.now)
      case Normal(w1) => ExecStmts(P, fuel - 1, stmts[1..], w1, lib, names.later)
      case end => end
  }

  function ExecStmt(P: Program, fuel: nat, st: Stmt, w: World, lib: LibId, names: Names): (r: Ending)
    requires w.tables != []
    ensures Blocks(r, |w.tables|)
    decreases fuel, 2
  {
    match st
    case Decl(items) =>
      if Suit(names, w, |items|) then OfAfter(Introduce(P.fl, w, items, names.list)) else Misnamed
    case AssignVar(x, rhs) => OfAfter(SetVariable(P.fl, w, x, rhs))
    case AssignEntry(a, rhs) => OfAfter(SetEntry(P.fl, w, a, rhs))
    case If(c, b) =>
      (match ValueOf(P.fl, w, c)
       case None => Wrong(w, InvalidExpression)
       case Some(v) =>
         if IsTrue(P.fl, v) then RunBlock(P, fuel, b.mark, b.stmts, b.stmts, Opened(w), lib, names) else Normal(w))
    case Block(b) => RunBlock(P, fuel, b.mark, b.stmts, b.stmts, Opened(w), lib, names)
    case CallA(x, args) =>
      (match FindProc(P, lib, x)
       case None => Wrong(w, UnknownProc)
       case Some(p) => RunCall(P, fuel, p, args, w, lib, names))
    case CallB(y, x, args) =>
      (match FindLib(P, lib, y)
       case NoLib(e) => Wrong(w, e)
       case Lib(to) =>
         match FindProc(P, to, x)
         case None => Wrong(w, UnknownProc)
         case Some(p) => RunCall(P, fuel, p, args, w, to, names))
    case Leave(l) => Leaving(l, w)
    case Redo(l) => Redoing(l, w)
  }

  /** A call opens a block with its arguments, and closes it again when one of them fails. */
  function RunCall(P: Program, fuel: nat, p: Proc, args: Option<seq<Arg>>, w: World, lib: LibId, names: Names):
    (r: Ending)
    requires w.tables != []
    ensures Blocks(r, |w.tables|)
    decreases fuel, 1, 1
  {
    if names.These? || !Suit(names.now, w, |p.formals|) then Misnamed
    else
      match (if args.None? then Then(Opened(w))
             else PassArgs(P.fl, Opened(w), p.formals, args.value, names.now.list))
      case Not(w1, e) => Wrong(Closed(w1), e)
      case Then(w1) => RunBlock(P, fuel, p.name, p.stmts, p.stmts, w1, lib, names.later)
  }

  /** Run `rest` as the remainder of a block. */
  function RunBlock(P: Program, fuel: nat, mark: Sym, body: seq<Stmt>, rest: seq<Stmt>, w: World, lib: LibId,
                    names: Names): (r: Ending)
    requires w.tables != []
    ensures Blocks(r, |w.tables| - 1)
    decreases fuel, 1, 0
  {
    if names.These? then Misnamed
    else Close(P, fuel, mark, body, ExecStmts(P, fuel, rest, w, lib, names.now), |w.tables|, lib, names.later)
  }

  /** The end of the n-th block. */
  function Close(P: Program, fuel: nat, mark: Sym, body: seq<Stmt>, end: Ending, n: nat, lib: LibId, names: Names):
    (r: Ending)
    requires Blocks(end, n) && n > 0
    ensures Blocks(r, n - 1)
    decreases fuel, 0
  {
    match end
    case Normal(w) => Normal(Closed(w))
    case Leaving(l, w) => if l == 0 || mark == l then Normal(Closed(w)) else Leaving(l, Closed(w))
    case Redoing(l, w) =>
      if l == 0 || mark == l
      then if fuel == 0 then Timeout
           else RunBlock(P, fuel - 1, mark, body, body, Opened(Closed(w)), lib, names)
      else Redoing(l, Closed(w))
    case _ => end
  }
}
