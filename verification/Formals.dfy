/** Nothing checks that a procedure's formals differ.  Whether calls keep the rules for references
    turns on exactly that: binding a repeated formal writes through the reference bound first. */
module Formals {
  import opened Wrappers
  import opened Heap
  import opened Store
  import opened Language
  import opened Ownership
  import opened Scopes
  import opened Discipline
  import opened Blocks
  import opened Statements

  /** Every call, from every well-formed store, leaves a well-formed store. */
  ghost predicate CallsKeepRules(fl: Floats, formals: seq<Sym>) {
    forall s, args | Fine(s) :: Fine(BindArgs(fl, Push(s), formals, args).s)
  }

  /** One variable, and above it a block whose names are all references to that variable. */
  predicate AllRefer(s: Store) {
    && |s.tables| == 2 && s.tables[0] == [Bind(1, 0)]
    && 0 in s.cells && (s.cells[0] == VInt(0) || s.cells[0] == VRef(0))
    && (forall l | l in s.cells :: l < s.next)
    && forall i | 0 <= i < |s.tables[1]| ::
         s.tables[1][i].loc in s.cells && s.tables[1][i].loc != 0 && s.cells[s.tables[1][i].loc] == VRef(0)
  }

  function Same(n: nat): (args: seq<Arg>)
    ensures |args| == n && forall i | 0 <= i < n :: args[i] == ById(1)
  {
    seq(n, _ => ById(1))
  }

  lemma ResolvesBottom(s: Store)
    requires AllRefer(s)
    ensures Resolve(s, 1, 1) == Some(0)
  {
    assert Lookup([Bind(1, 0)], 1) == Some(0);
  }

  /** Passing that variable once more: a new name becomes one more reference; a name already taken
      turns the variable into a reference to itself. */
  lemma BindOne(fl: Floats, s: Store, sym: Sym)
    requires AllRefer(s)
    ensures var r := SetTop(Fresh(s, VRef(0)).0, sym, s.next);
            && BuildArg(fl, s, ById(1)) == Got(Fresh(s, VRef(0)).0, s.next)
            && AllRefer(r)
            && (Lookup(s.tables[1], sym).Some? || s.cells[0] == VRef(0) ==> r.cells[0] == VRef(0))
            && (Lookup(s.tables[1], sym).None? ==> r.tables[1] == [Bind(sym, s.next)] + s.tables[1])
            && (Lookup(s.tables[1], sym).Some? ==> r.tables[1] == s.tables[1])
  {
    hide Put, Lookup, Resolve, Fin;
    ResolvesBottom(s);
    assert Under(s) == [s.tables[0]];
    LookupBound(s.tables[1], sym);
    if Lookup(s.tables[1], sym).Some? {
      OverwriteThrough(Fresh(s, VRef(0)).0, s.next);
    }
  }

  /** Writing a reference to the variable into the variable. */
  lemma OverwriteThrough(s: Store, tmp: Loc)
    requires 0 in s.cells && tmp in s.cells && tmp != 0
    requires s.cells[0] == VInt(0) || s.cells[0] == VRef(0)
    ensures Put(s, SCell(0), tmp) == s.(cells := s.cells[0 := s.cells[tmp]] - {tmp}, freed := s.freed + [])
  {
  }

  /** A repeat among the names still to come, or of one already bound. */
  predicate Repeats(t: Table, syms: seq<Sym>) {
    !Distinct(syms) || exists i :: 0 <= i < |syms| && Lookup(t, syms[i]).Some?
  }

  lemma {:induction false} Poison(fl: Floats, s: Store, formals: seq<Sym>)
    requires AllRefer(s) && (s.cells[0] == VRef(0) || Repeats(s.tables[1], formals))
    ensures var o := BindArgs(fl, s, formals, Same(|formals|));
            o.Good? && AllRefer(o.s) && o.s.cells[0] == VRef(0)
    decreases |formals|
  {
    hide AllRefer, SetTop, BuildArg, Repeats, Fresh, Lookup;
    if formals != [] {
      var sym := formals[0];
      var r := SetTop(Fresh(s, VRef(0)).0, sym, s.next);
      BindOne(fl, s, sym);
      TwoTables(s);
      TwoTables(r);
      assert Same(|formals|)[1..] == Same(|formals| - 1);
      if r.cells[0] != VRef(0) {
        RepeatLater(s.tables[1], formals, s.next);
      }
      Poison(fl, r, formals[1..]);
    } else {
      TwoTables(s);
      NoRepeats(s.tables[1]);
    }
  }

  lemma NoRepeats(t: Table)
    ensures !Repeats(t, [])
  {
  }

  lemma TwoTables(s: Store)
    requires AllRefer(s)
    ensures |s.tables| == 2 && 0 in s.cells
  {
  }

  lemma RepeatLater(t: Table, syms: seq<Sym>, l: Loc)
    requires syms != [] && Repeats(t, syms) && Lookup(t, syms[0]).None?
    ensures Repeats([Bind(syms[0], l)] + t, syms[1..])
  {
    var u := [Bind(syms[0], l)] + t;
    assert u[1..] == t;
    if !Distinct(syms) {
      var i, j :| 0 <= i < j < |syms| && syms[i] == syms[j];
      if i == 0 {
        assert Lookup(u, syms[1..][j - 1]).Some?;
      } else {
        assert syms[1..][i - 1] == syms[1..][j - 1];
      }
    } else {
      var i :| 0 <= i < |syms| && Lookup(t, syms[i]).Some?;
      assert Lookup(u, syms[1..][i - 1]).Some?;
    }
  }

  function OneVariable(): (s: Store) { Store([[Bind(1, 0)]], map[0 := VInt(0)], map[], 1, [], {}) }

  lemma OneVariableFine()
    ensures Fine(OneVariable())
  {
    var s, F := OneVariable(), map[0 := Leaf(VInt(0))];
    assert Ids(F[0]) == {};
    assert ForestBy(s, F);
    assert s.tables[..0] == [];
    assert Scoped(s.tables, s.cells, s.ext) by {
      assert Scoped([], s.cells, s.ext);
      assert TableOk(s.tables[0], Locs([]) + s.ext, s.cells);
    }
  }

  lemma BottomRef(s: Store)
    requires ScopeOk(s) && s.tables != [] && s.tables[0] != []
    ensures RefOk(s.tables[0][0].loc, s.ext, s.cells)
  {
    ScopedPrefix(s.tables, 1, s.cells, s.ext);
    var t: seq<Table> := s.tables[..1];
    assert t[..0] == [];
    assert RefOk(t[0][0].loc, Locs([]) + s.ext, s.cells);
  }

  lemma SelfReferenceBad(s: Store)
    requires AllRefer(s) && s.cells[0] == VRef(0)
    ensures !ScopeOk(s)
  {
    if ScopeOk(s) { BottomRef(s); }
  }

  /** The rules hold for all calls of a procedure if and only if its formals differ. */
  lemma CallsKeepRulesIff(fl: Floats, formals: seq<Sym>)
    ensures CallsKeepRules(fl, formals) <==> Distinct(formals)
  {
    if Distinct(formals) {
      forall s, args | Fine(s) ensures Fine(BindArgs(fl, Push(s), formals, args).s) {
        PushFine(s);
        BindArgsWell(fl, Push(s), formals, args);
      }
    } else {
      var s := OneVariable();
      OneVariableFine();
      Poison(fl, Push(s), formals);
      SelfReferenceBad(BindArgs(fl, Push(s), formals, Same(|formals|)).s);
      assert !Fine(BindArgs(fl, Push(s), formals, Same(|formals|)).s);
    }
  }
}
