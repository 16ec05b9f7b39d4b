/** What holds throughout a run of the interpreter. */
module Runs {
  import opened Wrappers
  import opened Heap
  import opened Store
  import opened Language
  import opened Machine
  import opened Scopes
  import opened Discipline
  import opened Blocks
  import opened Statements

  /** Nothing in the language checks this: no procedure names two formals alike. */
  predicate ProgramOk(P: Program) {
    forall l, x | l in P.libs && x in P.libs[l].procs :: Distinct(P.libs[l].procs[x].formals)
  }

  /** The active library is the one each block was pushed under, all the way down. */
  predicate Homes(fs: seq<Frame>, lib: LibId)
    decreases |fs|
  {
    fs == [] || (Last(fs).home == lib && Homes(Front(fs), LibUnder(Last(fs), lib)))
  }

  /** Every block but the top one stands at the statement that pushed the next. */
  predicate Waiting(fs: seq<Frame>) { forall i | 0 <= i < |fs| :: fs[i].rest != [] }

  /** A stack between statements: one table to a block, and no local forgotten. */
  ghost predicate StackOk(fs: seq<Frame>, s: Store, lib: LibId, ext: set<Loc>) {
    && Fine(s) && s.ext == ext && |s.tables| == |fs| && Temps(s) == {}
    && Homes(fs, lib) && (fs != [] ==> Waiting(Front(fs)))
  }

  ghost predicate StateOk(m: State, ext: set<Loc>) {
    match m
    case Run(fs, s, lib) => fs != [] && StackOk(fs, s, lib, ext) && Waiting(fs)
    case Done(s, _) => Fine(s) && s.ext == ext && s.tables == [] && Temps(s) == {}
    case Fail(fs, s, _, _) => Fine(s) && s.ext == ext && |s.tables| == |fs|
  }

  // ---------------------------------------------------------------- the stack

  lemma HomesTop(under: seq<Frame>, f: Frame, lib: LibId)
    ensures Homes(under + [f], lib) <==> f.home == lib && Homes(under, LibUnder(f, lib))
  {
    assert Front(under + [f]) == under;
  }

  lemma HomesAdvance(fs: seq<Frame>, lib: LibId)
    ensures Homes(Advance(fs), lib) == Homes(fs, lib)
  {
    if fs != [] {
      assert fs == Front(fs) + [Last(fs)];
      HomesTop(Front(fs), Last(fs), lib);
      HomesTop(Front(fs), Last(fs).(rest := Tail(Last(fs).rest)), lib);
    }
  }

  /** Popping the top block of a stack. */
  lemma PopStack(fs: seq<Frame>, s: Store, lib: LibId, ext: set<Loc>)
    requires fs != [] && StackOk(fs, s, lib, ext)
    ensures StackOk(Front(fs), Pop(s), LibUnder(Last(fs), lib), ext) && Waiting(Front(fs))
  {
    hide Fine, Pop, Temps;
    PopFine(s);
  }

  lemma AdvanceStack(fs: seq<Frame>, s: Store, lib: LibId, ext: set<Loc>)
    requires StackOk(fs, s, lib, ext)
    ensures StackOk(Advance(fs), s, lib, ext)
  {
    hide Fine, Temps;
    HomesAdvance(fs, lib);
    if fs != [] {
      assert Front(Advance(fs)) == Front(fs);
    }
  }

  lemma {:induction false} DrainOk(fs: seq<Frame>, s: Store, lib: LibId, ext: set<Loc>)
    requires StackOk(fs, s, lib, ext)
    ensures StateOk(Drain(fs, s, lib), ext)
    decreases |fs|
  {
    hide Fine, Pop, Temps, Homes;
    if fs != [] && Last(fs).rest == [] {
      PopStack(fs, s, lib, ext);
      AdvanceStack(Front(fs), Pop(s), LibUnder(Last(fs), lib), ext);
      DrainOk(Advance(Front(fs)), Pop(s), LibUnder(Last(fs), lib), ext);
    } else if fs != [] {
      forall i | 0 <= i < |fs| ensures fs[i].rest != [] {
        if i < |fs| - 1 { assert Front(fs)[i] == fs[i]; }
      }
    }
  }

  lemma NextOk(fs: seq<Frame>, s: Store, lib: LibId, ext: set<Loc>)
    requires StackOk(fs, s, lib, ext)
    ensures StateOk(Next(fs, s, lib), ext)
  {
    AdvanceStack(fs, s, lib, ext);
    DrainOk(Advance(fs), s, lib, ext);
  }

  lemma {:induction false} LeaveOk(l: Sym, fs: seq<Frame>, s: Store, lib: LibId, ext: set<Loc>)
    requires StackOk(fs, s, lib, ext)
    ensures StateOk(LeaveTo(l, fs, s, lib), ext)
    decreases |fs|
  {
    hide StackOk, Pop;
    if fs != [] {
      PopStack(fs, s, lib, ext);
      NextOk(Front(fs), Pop(s), LibUnder(Last(fs), lib), ext);
      LeaveOk(l, Front(fs), Pop(s), LibUnder(Last(fs), lib), ext);
    } else {
      DrainOk(fs, s, lib, ext);
    }
  }

  lemma {:induction false} RedoOk(l: Sym, fs: seq<Frame>, s: Store, lib: LibId, ext: set<Loc>)
    requires StackOk(fs, s, lib, ext)
    ensures StateOk(RedoTo(l, fs, s, lib), ext)
    decreases |fs|
  {
    hide StackOk, Pop, ClearTop;
    if fs != [] {
      PopStack(fs, s, lib, ext);
      RedoOk(l, Front(fs), Pop(s), LibUnder(Last(fs), lib), ext);
      RestartStack(fs, s, lib, ext);
      DrainOk(Front(fs) + [Last(fs).(rest := Last(fs).body)], ClearTop(s), lib, ext);
    } else {
      DrainOk(fs, s, lib, ext);
    }
  }

  lemma RestartStack(fs: seq<Frame>, s: Store, lib: LibId, ext: set<Loc>)
    requires fs != [] && StackOk(fs, s, lib, ext)
    ensures StackOk(Front(fs) + [Last(fs).(rest := Last(fs).body)], ClearTop(s), lib, ext)
  {
    hide Fine, ClearTop, Temps, Homes;
    ClearTopFine(s);
    assert fs == Front(fs) + [Last(fs)];
    HomesTop(Front(fs), Last(fs), lib);
    HomesTop(Front(fs), Last(fs).(rest := Last(fs).body), lib);
    assert Front(Front(fs) + [Last(fs).(rest := Last(fs).body)]) == Front(fs);
  }

  // ---------------------------------------------------------------- statements

  lemma EndedOk(fs: seq<Frame>, s: Store, lib: LibId, ext: set<Loc>, o: Outcome)
    requires StackOk(fs, s, lib, ext) && fs != [] && DoneWell(s, o)
    ensures StateOk(Ended(fs, lib, o), ext)
  {
    hide Fine, Temps, Homes;
    if o.Good? { NextOk(fs, o.s, lib, ext); }
  }

  lemma EnteredOk(fs: seq<Frame>, s: Store, lib: LibId, ext: set<Loc>, f: Frame, o: Outcome)
    requires StackOk(fs, s, lib, ext) && Waiting(fs) && OpenedWell(s, o)
    requires LibUnder(f, f.home) == lib
    ensures StateOk(Entered(fs, lib, f, o), ext)
  {
    hide Fine, Temps, Homes;
    if o.Good? {
      HomesTop(fs, f, f.home);
      assert Front(fs + [f]) == fs;
      DrainOk(fs + [f], o.s, f.home, ext);
    }
  }

  lemma PushWell(s: Store)
    requires Fine(s)
    ensures OpenedWell(s, Good(Push(s)))
  {
    PushFine(s);
  }

  lemma FoundDistinct(P: Program, lib: LibId, x: Sym)
    requires ProgramOk(P) && FindProc(P, lib, x).Some?
    ensures Distinct(FindProc(P, lib, x).value.formals)
  {
  }

  lemma StoreOf(fs: seq<Frame>, s: Store, lib: LibId, ext: set<Loc>)
    requires fs != [] && StackOk(fs, s, lib, ext)
    ensures Fine(s) && s.tables != []
    ensures forall e :: StateOk(Fail(fs, s, lib, e), ext)
  {
  }

  lemma PerformOk(P: Program, fs: seq<Frame>, s: Store, lib: LibId, st: Stmt, ext: set<Loc>)
    requires ProgramOk(P) && fs != [] && StackOk(fs, s, lib, ext) && Waiting(fs)
    ensures StateOk(Perform(P, fs, s, lib, st), ext)
  {
    hide Fine, StackOk, StateOk, DoneWell, OpenedWell, ProgramOk, Waiting, Distinct;
    hide Declare, DoAssignVar, DoAssignEntry, Eval, IsTrue, Open, Next;
    hide LeaveTo, RedoTo, FindLib, FindProc, Ended, Entered;
    StoreOf(fs, s, lib, ext);
    match st {
      case Decl(items) =>
        DeclareWell(P.fl, s, items);
        EndedOk(fs, s, lib, ext, Declare(P.fl, s, items));
      case AssignVar(x, rhs) =>
        AssignVarWell(P.fl, s, x, rhs);
        EndedOk(fs, s, lib, ext, DoAssignVar(P.fl, s, x, rhs));
      case AssignEntry(a, rhs) =>
        AssignEntryWell(P.fl, s, a, rhs);
        EndedOk(fs, s, lib, ext, DoAssignEntry(P.fl, s, a, rhs));
      case If(c, b) =>
        PushWell(s);
        EnteredOk(fs, s, lib, ext, BlockFrame(b, lib), Good(Push(s)));
        NextOk(fs, s, lib, ext);
      case Block(b) =>
        PushWell(s);
        EnteredOk(fs, s, lib, ext, BlockFrame(b, lib), Good(Push(s)));
      case CallA(x, args) =>
        if FindProc(P, lib, x).Some? { CallOk(P, fs, s, lib, ext, None, lib, x, args); }
      case CallB(y, x, args) =>
        if FindLib(P, lib, y).Lib? {
          var to := FindLib(P, lib, y).lib;
          if FindProc(P, to, x).Some? { CallOk(P, fs, s, lib, ext, Some(lib), to, x, args); }
        }
      case Leave(l) => LeaveOk(l, fs, s, lib, ext);
      case Redo(l) => RedoOk(l, fs, s, lib, ext);
    }
  }

  lemma CallOk(P: Program, fs: seq<Frame>, s: Store, lib: LibId, ext: set<Loc>, back: Option<LibId>, to: LibId,
               x: Sym, args: Option<seq<Arg>>)
    requires ProgramOk(P) && fs != [] && StackOk(fs, s, lib, ext) && Waiting(fs)
    requires FindProc(P, to, x).Some? && (if back.Some? then back.value else to) == lib
    ensures var p := FindProc(P, to, x).value;
            StateOk(Entered(fs, lib, CallFrame(p, back, to), Open(P.fl, s, p, args)), ext)
  {
    hide Fine, StackOk, StateOk, OpenedWell, ProgramOk, Waiting, Distinct, Open, FindProc, Entered;
    StoreOf(fs, s, lib, ext);
    var p := FindProc(P, to, x).value;
    FoundDistinct(P, to, x);
    OpenWell(P.fl, s, p, args);
    EnteredOk(fs, s, lib, ext, CallFrame(p, back, to), Open(P.fl, s, p, args));
  }

  lemma StepOk(P: Program, m: State, ext: set<Loc>)
    requires ProgramOk(P) && StateOk(m, ext)
    ensures StateOk(Step(P, m), ext)
  {
    hide Perform;
    if m.Run? { PerformOk(P, m.frames, m.s, m.lib, Last(m.frames).rest[0], ext); }
  }

  /** The invariant of a run. */
  lemma {:induction false} RunOk(P: Program, m: State, n: nat, ext: set<Loc>)
    requires ProgramOk(P) && StateOk(m, ext)
    ensures StateOk(Steps(P, m, n), ext)
    decreases n
  {
    hide StateOk, ProgramOk;
    if n == 0 {
    } else {
      StepOk(P, m, ext);
      RunOk(P, Step(P, m), n - 1, ext);
    }
  }
}
