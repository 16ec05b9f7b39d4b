/** What the loop computes, and where leave and redo land. */
module InterpreterTheorems {
  import opened Wrappers
  import opened Heap
  import opened Store
  import opened Language
  import opened Machine
  import opened Evaluator
  import opened Refinement

  /** How a run of the loop ended, if it did. */
  function StopOf(m: State): (r: Option<Outcome>) {
    match m
    case Run(_, _, _) => None
    case Done(s, _) => Some(Good(s))
    case Fail(_, s, _, e) => Some(Failed(s, e))
  }

  /** The same for the evaluator.  A label nothing answers to ends the program normally. */
  function ResultOf(sig: Signal): (r: Option<Outcome>) {
    match sig
    case Timeout => None
    case Wrong(s, e) => Some(Failed(s, e))
    case _ => Some(Good(sig.s))
  }

  lemma {:induction false} Stays(P: Program, m: State, n: nat)
    requires !m.Run?
    ensures Steps(P, m, n) == m
    decreases n
  {
    if n == 0 {
    } else {
      Stays(P, m, n - 1);
    }
  }

  /** Once stopped, stopped for good. */
  lemma StaysFrom(P: Program, m: State, a: nat, b: nat)
    requires a <= b && !Steps(P, m, a).Run?
    ensures Steps(P, m, b) == Steps(P, m, a)
  {
    StepsAdd(P, m, a, b - a);
    Stays(P, Steps(P, m, a), b - a);
  }

  lemma Simulation(P: Program, fuel: nat, fs: seq<Frame>, s: Store, lib: LibId) returns (n: nat)
    requires fs != [] && Last(fs).rest != []
    ensures StopOf(Steps(P, Run(fs, s, lib), n)) == ResultOf(Exec(P, fuel, fs, s, lib))
    ensures Exec(P, fuel, fs, s, lib).Timeout? ==> n + 1 >= fuel
  {
    hide Steps, AfterStmt, Drain, ExecStmts;
    var f, under, m := Last(fs), Front(fs), Run(fs, s, lib);
    assert fs == under + [f.(rest := f.rest)];
    assert Drain(fs, s, lib) == m by { Settled(fs, s, lib); }
    var a := SimBlock(P, fuel, under, f, f.rest, s, lib);
    var sig := RunBlock(P, fuel, f.mark, f.body, f.rest, s, lib);
    if fuel == 0 { NoRedo(P, f.rest, s, lib); }
    var b := SimResume(P, fuel, under, Steps(P, m, a), sig, LibUnder(f, lib));
    StepsAdd(P, m, a, b);
    n := a + b;
  }

  lemma Settled(fs: seq<Frame>, s: Store, lib: LibId)
    requires fs != [] && Last(fs).rest != []
    ensures Drain(fs, s, lib) == Run(fs, s, lib)
  {
  }

  /** The main result: from any stack of blocks, the loop stops with a given store and outcome
      exactly when the evaluator gives them. */
  lemma LoopIsEvaluator(P: Program, fs: seq<Frame>, s: Store, lib: LibId, o: Outcome)
    requires fs != [] && Last(fs).rest != []
    ensures (exists n: nat :: StopOf(Steps(P, Run(fs, s, lib), n)) == Some(o))
       <==> (exists fuel: nat :: ResultOf(Exec(P, fuel, fs, s, lib)) == Some(o))
  {
    hide Steps, Exec;
    var m := Run(fs, s, lib);
    if fuel: nat :| ResultOf(Exec(P, fuel, fs, s, lib)) == Some(o) {
      var n := Simulation(P, fuel, fs, s, lib);
      assert StopOf(Steps(P, m, n)) == Some(o);
    }
    if n: nat :| StopOf(Steps(P, m, n)) == Some(o) {
      EnoughFuel(P, fs, s, lib, n);
      assert ResultOf(Exec(P, n + 2, fs, s, lib)) == Some(o);
    }
  }

  /** A run of n iterations needs no more fuel than that, and two for the ends. */
  lemma EnoughFuel(P: Program, fs: seq<Frame>, s: Store, lib: LibId, n: nat)
    requires fs != [] && Last(fs).rest != [] && !Steps(P, Run(fs, s, lib), n).Run?
    ensures ResultOf(Exec(P, n + 2, fs, s, lib)) == StopOf(Steps(P, Run(fs, s, lib), n))
  {
    hide Steps, Exec;
    var m := Run(fs, s, lib);
    var k := Simulation(P, n + 2, fs, s, lib);
    if k <= n {
      if !Steps(P, m, k).Run? { StaysFrom(P, m, k, n); }
    } else {
      StaysFrom(P, m, n, k);
    }
  }

  /** The bound plays no part in the answer: any two that suffice agree. */
  lemma FuelDoesNotMatter(P: Program, fs: seq<Frame>, s: Store, lib: LibId, a: nat, b: nat)
    requires fs != [] && Last(fs).rest != []
    requires !Exec(P, a, fs, s, lib).Timeout? && !Exec(P, b, fs, s, lib).Timeout?
    ensures ResultOf(Exec(P, a, fs, s, lib)) == ResultOf(Exec(P, b, fs, s, lib))
  {
    hide Steps, Exec;
    var n := Simulation(P, a, fs, s, lib);
    var k := Simulation(P, b, fs, s, lib);
    StaysFrom(P, Run(fs, s, lib), n, if n < k then k else n);
    StaysFrom(P, Run(fs, s, lib), k, if n < k then k else n);
  }

  // ---------------------------------------------------------------- labels

  function PopMany(s: Store, n: nat): (r: Store)
    decreases n
  {
    if n == 0 then s else PopMany(Pop(s), n - 1)
  }

  /** The library once every block from k up is popped. */
  function LibBelow(fs: seq<Frame>, k: nat, lib: LibId): (r: LibId)
    requires k <= |fs|
    decreases |fs|
  {
    if k == |fs| then lib else LibBelow(Front(fs), k, LibUnder(Last(fs), lib))
  }

  /** k is the innermost block marked l, or the innermost block when there is no label. */
  predicate Innermost(l: Sym, fs: seq<Frame>, k: nat) {
    && k < |fs| && (l == 0 ==> k == |fs| - 1) && (l != 0 ==> fs[k].mark == l)
    && forall i | k < i < |fs| :: fs[i].mark != l || l == 0
  }

  /** A leave closes its block and every block above, and goes on after the statement that opened
      it. */
  lemma {:induction false} LeaveLands(l: Sym, fs: seq<Frame>, k: nat, s: Store, lib: LibId)
    requires Innermost(l, fs, k)
    ensures LeaveTo(l, fs, s, lib) == Next(fs[..k], PopMany(s, |fs| - k), LibBelow(fs, k, lib))
    decreases |fs|
  {
    if k < |fs| - 1 {
      LeaveLands(l, Front(fs), k, Pop(s), LibUnder(Last(fs), lib));
      assert Front(fs)[..k] == fs[..k];
    } else {
      assert PopMany(s, 1) == Pop(s) by { assert PopMany(Pop(s), 0) == Pop(s); }
      assert Front(fs) == fs[..k];
    }
  }

  /** A redo closes every block above its own, which it starts over with no variables. */
  lemma {:induction false} RedoLands(l: Sym, fs: seq<Frame>, k: nat, s: Store, lib: LibId)
    requires Innermost(l, fs, k)
    ensures RedoTo(l, fs, s, lib)
         == Drain(fs[..k] + [fs[k].(rest := fs[k].body)], ClearTop(PopMany(s, |fs| - 1 - k)), LibBelow(fs, k + 1, lib))
    decreases |fs|
  {
    hide Pop, ClearTop, Drain;
    if k < |fs| - 1 {
      RedoLands(l, Front(fs), k, Pop(s), LibUnder(Last(fs), lib));
      assert Front(fs)[..k] == fs[..k];
    } else {
      assert Front(fs) == fs[..k];
    }
  }

  /** A label no block on the stack has empties the stack and ends the run, normally. */
  lemma {:induction false} UnmatchedEnds(l: Sym, fs: seq<Frame>, s: Store, lib: LibId)
    requires l != 0 && forall i | 0 <= i < |fs| :: fs[i].mark != l
    ensures LeaveTo(l, fs, s, lib) == Done(PopMany(s, |fs|), LibBelow(fs, 0, lib))
    ensures RedoTo(l, fs, s, lib) == Done(PopMany(s, |fs|), LibBelow(fs, 0, lib))
    decreases |fs|
  {
    if fs == [] {
    } else {
      UnmatchedEnds(l, Front(fs), Pop(s), LibUnder(Last(fs), lib));
    }
  }
}
