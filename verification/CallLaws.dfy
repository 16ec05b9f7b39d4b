/** Which procedure a call runs, in which library, and how a call fails. */
module CallLaws {
  import opened Wrappers
  import opened Heap
  import opened Store
  import opened Language
  import opened Machine

  /** m is where the loop is after a call, from library lib, of procedure x of library `to`; back is the
      library the call is to come back to, when it goes to another one. */
  predicate Called(P: Program, fs: seq<Frame>, s: Store, lib: LibId, to: LibId, x: Sym, args: Option<seq<Arg>>,
                   back: Option<LibId>, m: State)
  {
    if to !in P.libs || x !in P.libs[to].procs then m == Fail(fs, s, lib, UnknownProc)
    else
      var p := P.libs[to].procs[x];
      match Open(P.fl, s, p, args)
      case Failed(r, e) => m == Fail(fs, r, lib, e)
      case Good(r) =>
        if p.stmts != [] then m == Run(fs + [Frame(p.name, p.stmts, p.stmts, back, to)], r, to)
        else m == Next(fs, Pop(r), if back.Some? then back.value else to)
  }

  /** x(args) runs the active library's own procedure. */
  lemma OwnCallLaw(P: Program, fs: seq<Frame>, s: Store, lib: LibId, x: Sym, args: Option<seq<Arg>>)
    requires fs != []
    ensures Called(P, fs, s, lib, lib, x, args, None, Perform(P, fs, s, lib, CallA(x, args)))
  {
    hide Open, Pop;
    if FindProc(P, lib, x).Some? { Pushed(fs, CallFrame(FindProc(P, lib, x).value, None, lib)); }
  }

  /** y.x(args) runs the procedure of the library that y names everywhere, or else of the one that the
      active library has loaded as y; to an active library that has loaded none y is an unknown library,
      and to one that has loaded others it is an unknown procedure. */
  lemma LibraryCallLaw(P: Program, fs: seq<Frame>, s: Store, lib: LibId, y: Sym, x: Sym, args: Option<seq<Arg>>)
    requires fs != []
    ensures var m := Perform(P, fs, s, lib, CallB(y, x, args));
            if y in P.omnis then Called(P, fs, s, lib, P.omnis[y], x, args, Some(lib), m)
            else if lib !in P.libs || P.libs[lib].libs.None? then m == Fail(fs, s, lib, UnknownLib)
            else if y !in P.libs[lib].libs.value then m == Fail(fs, s, lib, UnknownProc)
            else Called(P, fs, s, lib, P.libs[lib].libs.value[y], x, args, Some(lib), m)
  {
    hide Open, Pop;
    if FindLib(P, lib, y).Lib? {
      var to := FindLib(P, lib, y).lib;
      if FindProc(P, to, x).Some? { Pushed(fs, CallFrame(FindProc(P, to, x).value, Some(lib), to)); }
    }
  }

  lemma Pushed(fs: seq<Frame>, f: Frame)
    ensures Last(fs + [f]) == f && Front(fs + [f]) == fs
  {
  }
}
