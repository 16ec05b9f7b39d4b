/** The interpreter's loop: a stack of blocks and one iteration of FIAL_interpret as a step. */
module Machine {
  import opened Wrappers
  import opened Heap
  import opened Store
  import opened Language

  /** A block.  rest: the statement it is at and those after it.  back: the library to return to, on
      a call into another library.  home is history: the library active when the block was pushed. */
  datatype Frame = Frame(mark: Sym, body: seq<Stmt>, rest: seq<Stmt>, back: Option<LibId>, home: LibId)

  /** frames: bottom block first, one table of the store to each. */
  datatype State =
    | Run(frames: seq<Frame>, s: Store, lib: LibId)
    | Done(s: Store, lib: LibId)
    | Fail(frames: seq<Frame>, s: Store, lib: LibId, e: Error)

  function Last(fs: seq<Frame>): (f: Frame)
    requires fs != []
  {
    fs[|fs| - 1]
  }

  function Front(fs: seq<Frame>): (r: seq<Frame>)
    requires fs != []
  {
    fs[..|fs| - 1]
  }

  function Tail(stmts: seq<Stmt>): (r: seq<Stmt>) { if stmts == [] then [] else stmts[1..] }

  function Advance(fs: seq<Frame>): (r: seq<Frame>)
    ensures |r| == |fs|
  {
    if fs == [] then [] else Front(fs) + [Last(fs).(rest := Tail(Last(fs).rest))]
  }

  /** The library in force once f is popped. */
  function LibUnder(f: Frame, lib: LibId): (r: LibId) { if f.back.Some? then f.back.value else lib }

  /** Pop every block that has nothing left to run, moving the one below past the statement that
      pushed it. */
  function Drain(fs: seq<Frame>, s: Store, lib: LibId): (m: State)
    decreases |fs|
  {
    if fs == [] then Done(s, lib)
    else if Last(fs).rest != [] then Run(fs, s, lib)
    else Drain(Advance(Front(fs)), Pop(s), LibUnder(Last(fs), lib))
  }

  function Next(fs: seq<Frame>, s: Store, lib: LibId): (m: State) { Drain(Advance(fs), s, lib) }

  /** leave: pop blocks until the one just popped was marked l, then go on after it. */
  function LeaveTo(l: Sym, fs: seq<Frame>, s: Store, lib: LibId): (m: State)
    decreases |fs|
  {
    if fs == [] then Done(s, lib)
    else
      var s1, lib1 := Pop(s), LibUnder(Last(fs), lib);
      if l == 0 || Last(fs).mark == l then Next(Front(fs), s1, lib1) else LeaveTo(l, Front(fs), s1, lib1)
  }

  /** redo: pop blocks until one is marked l, forget its variables and start it again. */
  function RedoTo(l: Sym, fs: seq<Frame>, s: Store, lib: LibId): (m: State)
    decreases |fs|
  {
    if fs == [] then Done(s, lib)
    else if l == 0 || Last(fs).mark == l
    then Drain(Front(fs) + [Last(fs).(rest := Last(fs).body)], ClearTop(s), lib)
    else RedoTo(l, Front(fs), Pop(s), LibUnder(Last(fs), lib))
  }

  function Ended(fs: seq<Frame>, lib: LibId, o: Outcome): (m: State) {
    match o
    case Good(s) => Next(fs, s, lib)
    case Failed(s, e) => Fail(fs, s, lib, e)
  }

  function Entered(fs: seq<Frame>, lib: LibId, f: Frame, o: Outcome): (m: State) {
    match o
    case Good(s) => Drain(fs + [f], s, f.home)
    case Failed(s, e) => Fail(fs, s, lib, e)
  }

  function BlockFrame(b: Body, lib: LibId): (f: Frame) { Frame(b.mark, b.stmts, b.stmts, None, lib) }

  function CallFrame(p: Proc, back: Option<LibId>, lib: LibId): (f: Frame) {
    Frame(p.name, p.stmts, p.stmts, back, lib)
  }

  /** Run statement st of the top block. */
  function Perform(P: Program, fs: seq<Frame>, s: Store, lib: LibId, st: Stmt): (m: State)
    requires fs != []
  {
    match st
    case Decl(items) => Ended(fs, lib, Declare(P.fl, s, items))
    case AssignVar(x, rhs) => Ended(fs, lib, DoAssignVar(P.fl, s, x, rhs))
    case AssignEntry(a, rhs) => Ended(fs, lib, DoAssignEntry(P.fl, s, a, rhs))
    case If(c, b) =>
      (match Eval(P.fl, s, c)
       case None => Fail(fs, s, lib, InvalidExpression)
       case Some(v) =>
         if IsTrue(P.fl, v) then Entered(fs, lib, BlockFrame(b, lib), Good(Push(s))) else Next(fs, s, lib))
    case Block(b) => Entered(fs, lib, BlockFrame(b, lib), Good(Push(s)))
    case CallA(x, args) =>
      (match FindProc(P, lib, x)
       case None => Fail(fs, s, lib, UnknownProc)
       case Some(p) => Entered(fs, lib, CallFrame(p, None, lib), Open(P.fl, s, p, args)))
    case CallB(y, x, args) =>
      (match FindLib(P, lib, y)
       case NoLib(e) => Fail(fs, s, lib, e)
       case Lib(to) =>
         match FindProc(P, to, x)
         case None => Fail(fs, s, lib, UnknownProc)
         case Some(p) => Entered(fs, lib, CallFrame(p, Some(lib), to), Open(P.fl, s, p, args)))
    case Leave(l) => LeaveTo(l, fs, s, lib)
    case Redo(l) => RedoTo(l, fs, s, lib)
  }

  /** One iteration of the loop; what has ended stays as it is. */
  function Step(P: Program, m: State): (r: State) {
    if m.Run? && m.frames != [] && Last(m.frames).rest != []
    then Perform(P, m.frames, m.s, m.lib, Last(m.frames).rest[0])
    else m
  }

  function Steps(P: Program, m: State, n: nat): (r: State)
    decreases n
  {
    if n == 0 then m else Steps(P, Step(P, m), n - 1)
  }
}
