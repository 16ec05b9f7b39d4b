/** The loop refines the evaluator: same stores, same outcome, whatever the program and the stack. */
module Refinement {
  import opened Wrappers
  import opened Heap
  import opened Store
  import opened Language
  import opened Machine
  import opened Evaluator

  /** m is where the loop gets to when the statements of the top block f of under + [f] end in sig. */
  ghost predicate InBlock(m: State, sig: Signal, under: seq<Frame>, f: Frame, lib: LibId) {
    match sig
    case Normal(s) => m == Drain(under + [f.(rest := [])], s, lib)
    case Leaving(l, s) => m == LeaveTo(l, under + [f], s, lib)
    case Redoing(l, s) => m == RedoTo(l, under + [f], s, lib)
    case Wrong(s, e) => m.Fail? && m.s == s && m.e == e
    case Timeout => m.Run?
  }

  /** m is where the loop gets to when a statement of the top block of fs, its current one, ends in
      sig. */
  ghost predicate AfterStmt(m: State, sig: Signal, fs: seq<Frame>, lib: LibId) {
    match sig
    case Normal(s) => m == Next(fs, s, lib)
    case Leaving(l, s) => m == LeaveTo(l, fs, s, lib)
    case Redoing(l, s) => m == RedoTo(l, fs, s, lib)
    case Wrong(s, e) => m.Fail? && m.s == s && m.e == e
    case Timeout => m.Run?
  }

  lemma {:induction false} StepsAdd(P: Program, m: State, a: nat, b: nat)
    ensures Steps(P, m, a + b) == Steps(P, Steps(P, m, a), b)
    decreases a
  {
    if a == 0 {
    } else {
      StepsAdd(P, Step(P, m), a - 1, b);
    }
  }

  lemma TopOf(under: seq<Frame>, f: Frame)
    ensures Last(under + [f]) == f && Front(under + [f]) == under
    ensures Advance(under + [f]) == under + [f.(rest := Tail(f.rest))]
  {
  }

  /** Where a leave or a redo goes does not depend on how far the top block had got. */
  lemma RestAside(l: Sym, under: seq<Frame>, f: Frame, rest: seq<Stmt>, s: Store, lib: LibId)
    ensures LeaveTo(l, under + [f.(rest := rest)], s, lib) == LeaveTo(l, under + [f], s, lib)
    ensures RedoTo(l, under + [f.(rest := rest)], s, lib) == RedoTo(l, under + [f], s, lib)
  {
    TopOf(under, f);
    TopOf(under, f.(rest := rest));
  }

  // ---------------------------------------------------------------- the simulation

  lemma {:induction false} SimStmts(P: Program, fuel: nat, under: seq<Frame>, f: Frame, stmts: seq<Stmt>, s: Store,
                                    lib: LibId)
    returns (n: nat)
    ensures InBlock(Steps(P, Drain(under + [f.(rest := stmts)], s, lib), n), ExecStmts(P, fuel, stmts, s, lib),
                    under, f, lib)
    ensures ExecStmts(P, fuel, stmts, s, lib).Timeout? ==> n >= fuel
    ensures ExecStmts(P, fuel, stmts, s, lib).Redoing? ==> n >= 1
    decreases fuel, 0
  {
    hide LeaveTo, RedoTo, ExecStmt;
    n := 0;
    var g := f.(rest := stmts);
    TopOf(under, g);
    if stmts != [] && fuel > 0 {
      var fs := under + [g];
      n := SimStmt(P, fuel - 1, fs, s, lib);
      var sig := ExecStmt(P, fuel - 1, stmts[0], s, lib);
      if sig.Normal? {
        assert Steps(P, Run(fs, s, lib), n) == Drain(under + [f.(rest := stmts[1..])], sig.s, lib);
        hide Steps, InBlock;
        var k := SimStmts(P, fuel - 1, under, f, stmts[1..], sig.s, lib);
        StepsAdd(P, Run(fs, s, lib), n, k);
        n := n + k;
      } else {
        hide Steps;
        PassesThrough(Steps(P, Run(fs, s, lib), n), sig, under, f, stmts, lib);
      }
    }
  }

  lemma PassesThrough(m: State, sig: Signal, under: seq<Frame>, f: Frame, rest: seq<Stmt>, lib: LibId)
    requires AfterStmt(m, sig, under + [f.(rest := rest)], lib) && !sig.Normal?
    ensures InBlock(m, sig, under, f, lib)
  {
    if sig.Leaving? || sig.Redoing? {
      RestAside(sig.l, under, f, rest, sig.s, lib);
    }
  }

  /** The current statement of the top block. */
  lemma {:induction false} SimStmt(P: Program, fuel: nat, fs: seq<Frame>, s: Store, lib: LibId)
    returns (n: nat)
    requires fs != [] && Last(fs).rest != []
    ensures AfterStmt(Steps(P, Run(fs, s, lib), n), ExecStmt(P, fuel, Last(fs).rest[0], s, lib), fs, lib)
    ensures n >= 1
    ensures ExecStmt(P, fuel, Last(fs).rest[0], s, lib).Timeout? ==> n >= fuel + 1
    decreases fuel, 2
  {
    hide Steps, Drain, Next, LeaveTo, RedoTo, RunBlock, Declare;
    hide DoAssignVar, DoAssignEntry, Eval, Open, FindLib, FindProc;
    var st := Last(fs).rest[0];
    n := 1;
    OneStep(P, Run(fs, s, lib));
    match st {
      case If(c, b) =>
        if Eval(P.fl, s, c).Some? && IsTrue(P.fl, Eval(P.fl, s, c).value) {
          n := SimEntered(P, fuel, fs, BlockFrame(b, lib), s, Push(s), lib);
        }
      case Block(b) => n := SimEntered(P, fuel, fs, BlockFrame(b, lib), s, Push(s), lib);
      case CallA(x, args) =>
        if FindProc(P, lib, x).Some? {
          var p := FindProc(P, lib, x).value;
          var o := Open(P.fl, s, p, args);
          if o.Good? { n := SimEntered(P, fuel, fs, CallFrame(p, None, lib), s, o.s, lib); }
        }
      case CallB(y, x, args) =>
        if FindLib(P, lib, y).Lib? && FindProc(P, FindLib(P, lib, y).lib, x).Some? {
          var to := FindLib(P, lib, y).lib;
          var p := FindProc(P, to, x).value;
          var o := Open(P.fl, s, p, args);
          if o.Good? { n := SimEntered(P, fuel, fs, CallFrame(p, Some(lib), to), s, o.s, lib); }
        }
      case _ =>
    }
  }

  lemma OneStep(P: Program, m: State)
    ensures Steps(P, m, 1) == Step(P, m)
  {
    assert Steps(P, Step(P, m), 0) == Step(P, m);
  }

  /** A statement whose first step is to push block g. */
  lemma {:induction false} SimEntered(P: Program, fuel: nat, fs: seq<Frame>, g: Frame, s: Store, s1: Store, lib: LibId)
    returns (n: nat)
    requires fs != [] && g.rest == g.body && LibUnder(g, g.home) == lib
    requires Step(P, Run(fs, s, lib)) == Drain(fs + [g], s1, g.home)
    ensures AfterStmt(Steps(P, Run(fs, s, lib), n), RunBlock(P, fuel, g.mark, g.body, g.body, s1, g.home), fs, lib)
    ensures n >= 1
    ensures RunBlock(P, fuel, g.mark, g.body, g.body, s1, g.home).Timeout? ==> n >= fuel + 1
    decreases fuel, 1, 1
  {
    hide Steps, Drain, RunBlock, AfterStmt, Step;
    var k := SimBlock(P, fuel, fs, g, g.body, s1, g.home);
    assert g.(rest := g.body) == g;
    OneStep(P, Run(fs, s, lib));
    StepsAdd(P, Run(fs, s, lib), 1, k);
    n := 1 + k;
  }

  /** A block on top of `under`, from `rest` on. */
  lemma {:induction false} SimBlock(P: Program, fuel: nat, under: seq<Frame>, g: Frame, rest: seq<Stmt>, s: Store,
                                    lib: LibId)
    returns (n: nat)
    ensures AfterStmt(Steps(P, Drain(under + [g.(rest := rest)], s, lib), n),
                      RunBlock(P, fuel, g.mark, g.body, rest, s, lib), under, LibUnder(g, lib))
    ensures RunBlock(P, fuel, g.mark, g.body, rest, s, lib).Timeout? ==> n >= fuel
    decreases fuel, 1, 0
  {
    hide Steps, Drain, AfterStmt, InBlock, Close;
    var m := Drain(under + [g.(rest := rest)], s, lib);
    n := SimStmts(P, fuel, under, g, rest, s, lib);
    var sig := ExecStmts(P, fuel, rest, s, lib);
    NoRedo(P, rest, s, lib);
    var k := SimClose(P, fuel, under, g, Steps(P, m, n), sig, lib);
    StepsAdd(P, m, n, k);
    n := n + k;
  }

  lemma {:induction false} SimClose(P: Program, fuel: nat, under: seq<Frame>, g: Frame, m: State, sig: Signal,
                                    lib: LibId)
    returns (n: nat)
    requires InBlock(m, sig, under, g, lib)
    requires fuel == 0 ==> !sig.Redoing?
    ensures AfterStmt(Steps(P, m, n), Close(P, fuel, g.mark, g.body, sig, lib), under, LibUnder(g, lib))
    ensures Close(P, fuel, g.mark, g.body, sig, lib).Timeout? ==> sig.Timeout? || (sig.Redoing? && n >= fuel - 1)
    decreases fuel, 0
  {
    hide Pop, ClearTop, Step, ExecStmts;
    n := 0;
    TopOf(under, g);
    TopOf(under, g.(rest := []));
    if sig.Redoing? && (sig.l == 0 || g.mark == sig.l) && fuel > 0 {
      n := SimBlock(P, fuel - 1, under, g, g.body, ClearTop(sig.s), lib);
    }
  }

  // ---------------------------------------------------------------- whole stacks

  /** The loop has stopped, as sig says. */
  ghost predicate StoppedAs(m: State, sig: Signal) {
    match sig
    case Wrong(s, e) => m.Fail? && m.s == s && m.e == e
    case Timeout => m.Run?
    case _ => m.Done? && m.s == sig.s
  }

  /** One block of the stack finished. */
  lemma SimNext(P: Program, fuel: nat, under: seq<Frame>, f: Frame, m: State, sig: Signal, lib: LibId)
    returns (n: nat, next: Signal)
    requires AfterStmt(m, sig, under + [f], lib) && (fuel == 0 ==> !sig.Redoing?)
    ensures AfterStmt(Steps(P, m, n), next, under, LibUnder(f, lib))
    ensures Resume(P, fuel, under + [f], sig, lib) == Resume(P, fuel, under, next, LibUnder(f, lib))
    ensures fuel == 0 ==> !next.Redoing?
    ensures next.Timeout? ==> sig.Timeout? || n + 1 >= fuel
  {
    hide *;
    StepsNone(P, m);
    AfterIsIn(m, sig, under, f, lib);
    var k, sig1 := 0, sig;
    if sig.Normal? {
      k := SimStmts(P, fuel, under, f, Tail(f.rest), sig.s, lib);
      sig1 := ExecStmts(P, fuel, Tail(f.rest), sig.s, lib);
      NoRedo(P, Tail(f.rest), sig.s, lib);
    }
    var j := SimClose(P, fuel, under, f, Steps(P, m, k), sig1, lib);
    StepsAdd(P, m, k, j);
    n, next := k + j, Close(P, fuel, f.mark, f.body, sig1, lib);
    CloseNoRedo(P, f.mark, f.body, sig1, lib);
    ResumeIs(P, fuel, under, f, sig, lib);
  }

  lemma AfterIsIn(m: State, sig: Signal, under: seq<Frame>, f: Frame, lib: LibId)
    requires AfterStmt(m, sig, under + [f], lib)
    ensures sig.Normal? ==> m == Drain(under + [f.(rest := Tail(f.rest))], sig.s, lib)
    ensures !sig.Normal? ==> InBlock(m, sig, under, f, lib)
  {
    TopOf(under, f);
    assert f.(rest := f.rest) == f;
  }

  lemma CloseNoRedo(P: Program, mark: Sym, body: seq<Stmt>, sig: Signal, lib: LibId)
    ensures !sig.Redoing? ==> !Close(P, 0, mark, body, sig, lib).Redoing?
  {
  }

  lemma ResumeIs(P: Program, fuel: nat, under: seq<Frame>, f: Frame, sig: Signal, lib: LibId)
    ensures var sig1 := if sig.Normal? then ExecStmts(P, fuel, Tail(f.rest), sig.s, lib) else sig;
            Resume(P, fuel, under + [f], sig, lib)
            == Resume(P, fuel, under, Close(P, fuel, f.mark, f.body, sig1, lib), LibUnder(f, lib))
  {
    TopOf(under, f);
  }

  lemma StepsNone(P: Program, m: State)
    ensures Steps(P, m, 0) == m
  {
  }

  lemma NoRedo(P: Program, stmts: seq<Stmt>, s: Store, lib: LibId)
    ensures !ExecStmts(P, 0, stmts, s, lib).Redoing?
  {
  }

  lemma {:induction false} SimResume(P: Program, fuel: nat, fs: seq<Frame>, m: State, sig: Signal, lib: LibId)
    returns (n: nat)
    requires AfterStmt(m, sig, fs, lib) && (fuel == 0 ==> !sig.Redoing?)
    ensures StoppedAs(Steps(P, m, n), Resume(P, fuel, fs, sig, lib))
    ensures Resume(P, fuel, fs, sig, lib).Timeout? ==> sig.Timeout? || n + 1 >= fuel
    decreases |fs|
  {
    hide Steps, StoppedAs, AfterStmt, Resume, ExecStmts, Close, LibUnder;
    if fs == [] {
      n := 0;
      NothingLeft(P, fuel, m, sig, lib);
    } else {
      var f, under := Last(fs), Front(fs);
      assert fs == under + [f];
      var k, next := SimNext(P, fuel, under, f, m, sig, lib);
      var i := SimResume(P, fuel, under, Steps(P, m, k), next, LibUnder(f, lib));
      StepsAdd(P, m, k, i);
      n := k + i;
    }
  }

  lemma NothingLeft(P: Program, fuel: nat, m: State, sig: Signal, lib: LibId)
    requires AfterStmt(m, sig, [], lib)
    ensures StoppedAs(Steps(P, m, 0), Resume(P, fuel, [], sig, lib)) && Resume(P, fuel, [], sig, lib) == sig
  {
  }
}
