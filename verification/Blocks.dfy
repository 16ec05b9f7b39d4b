/** Binding variables and closing blocks keep ownership and the rules for references. */
module Blocks {
  import opened Heap
  import opened Store
  import opened Ownership
  import opened OwnershipSlots
  import opened Scopes
  import opened Discipline

  /** Only the top table and what is under it may differ between s and r; no local is new. */
  predicate Within(s: Store, r: Store) {
    && r.ext == s.ext && |r.tables| == |s.tables| && Under(r) == Under(s)
  }

  /** Ownership has nothing to do with tables. */
  lemma TablesAside(s: Store, F: Forest, r: Store)
    requires ForestBy(s, F) && r == s.(tables := r.tables)
    ensures Owned(r) && ForestOf(r) == F
  {
    assert ForestBy(r, F);
    ForestIs(r, F);
  }

  lemma LocsTop(s: Store)
    requires s.tables != []
    ensures Locs(s.tables) == Locs(Under(s)) + LocsOf(Top(s))
  {
  }

  lemma LocsPush(ts: seq<Table>, t: Table)
    ensures Locs(ts + [t]) == Locs(ts) + LocsOf(t)
  {
    assert (ts + [t])[..|ts|] == ts;
  }

  lemma ScopedPush(ts: seq<Table>, t: Table, cells: map<Loc, Value>, ext: set<Loc>)
    ensures Scoped(ts + [t], cells, ext) <==> Scoped(ts, cells, ext) && TableOk(t, Locs(ts) + ext, cells)
  {
    assert (ts + [t])[..|ts|] == ts;
  }

  lemma TopSplit(s: Store)
    requires s.tables != []
    ensures s.tables == Under(s) + [Top(s)]
  {
  }

  lemma PushFine(s: Store)
    requires Fine(s)
    ensures Fine(Push(s)) && Temps(Push(s)) == Temps(s) && Under(Push(s)) == s.tables && Top(Push(s)) == []
  {
    hide ForestBy, Scoped, Locs;
    var r := Push(s);
    ScopedPush(s.tables, [], s.cells, s.ext);
    LocsPush(s.tables, []);
    TablesAside(s, ForestOf(s), r);
  }

  // ---------------------------------------------------------------- binding

  /** ScopeOk but for the one cell t, which may be a reference on its way into the top table. */
  predicate AlmostScoped(s: Store, t: Loc) {
    && (forall l | l in s.ext :: l in s.cells && !s.cells[l].VRef?)
    && Scoped(s.tables, s.cells, s.ext)
    && (forall l | l in s.cells && s.cells[l].VRef? :: l == t || l in Locs(s.tables))
    && t in Temps(s) && RefOk(t, Locs(Under(s)) + s.ext, s.cells)
  }

  lemma LocsOfCons(b: Bind, t: Table)
    ensures LocsOf([b] + t) == {b.loc} + LocsOf(t)
  {
    forall l | l in LocsOf(t) ensures l in LocsOf([b] + t) {
      var i :| 0 <= i < |t| && t[i].loc == l;
      assert ([b] + t)[i + 1].loc == l;
    }
    assert ([b] + t)[0].loc == b.loc;
  }

  lemma TableCons(b: Bind, t: Table, lower: set<Loc>, cells: map<Loc, Value>)
    requires TableOk(t, lower, cells) && RefOk(b.loc, lower, cells)
    requires b.loc !in lower && b.loc !in LocsOf(t)
    ensures TableOk([b] + t, lower, cells)
  {
    var u := [b] + t;
    forall i | 0 < i < |u| ensures u[i].loc in cells && u[i].loc !in lower && RefOk(u[i].loc, lower, cells) {
      assert u[i] == t[i - 1];
    }
    forall i | 0 < i < |u| ensures u[i].loc in LocsOf(t) {
      assert u[i] == t[i - 1];
    }
  }

  lemma BindScoped(s: Store, sym: Sym, t: Loc)
    requires s.tables != [] && AlmostScoped(s, t)
    ensures ScopeOk(BindTop(s, sym, t)) && Locs(BindTop(s, sym, t).tables) == Locs(s.tables) + {t}
  {
    hide Scoped, TableOk, RefOk;
    var ts, top, b := Under(s), Top(s), Bind(sym, t);
    TopSplit(s);
    LocsTop(s);
    ScopedPush(ts, top, s.cells, s.ext);
    TableCons(b, top, Locs(ts) + s.ext, s.cells);
    LocsOfCons(b, top);
    ScopedPush(ts, [b] + top, s.cells, s.ext);
    LocsPush(ts, [b] + top);
  }

  ghost predicate BoundTop(s: Store, r: Store, t: Loc) {
    && Fine(r) && Within(s, r) && Temps(r) == Temps(s) - {t} && r.cells == s.cells && r.tables != []
  }

  lemma BindFine(s: Store, sym: Sym, t: Loc)
    requires Fine(s) && s.tables != [] && t in Temps(s) && !s.cells[t].VRef?
    ensures BoundTop(s, BindTop(s, sym, t), t)
  {
    hide Scoped, ForestBy, Locs;
    BindScoped(s, sym, t);
    TablesAside(s, ForestOf(s), BindTop(s, sym, t));
    assert Under(BindTop(s, sym, t)) == Under(s);
  }

  /** A new reference in the top table, to a variable below it. */
  lemma BindRefFine(s: Store, sym: Sym, l: Loc)
    requires Fine(s) && s.tables != []
    requires l in Locs(Under(s)) + s.ext && l in s.cells && !s.cells[l].VRef?
    ensures var r := BindTop(Fresh(s, VRef(l)).0, sym, s.next);
            Fine(r) && Within(s, r) && Temps(r) == Temps(s) && r.tables != []
  {
    hide Scoped, ForestBy, Locs;
    LiveCells(s);
    var s1 := Fresh(s, VRef(l)).0;
    var r := BindTop(s1, sym, s.next);
    FreshKeeps(s, ForestOf(s), VRef(l));
    TablesAside(s1, ForestOf(s)[s.next := Leaf(VRef(l))], r);
    ScopedFrame(s.tables, s.cells, s1.cells, s.ext);
    BindScoped(s1, sym, s.next);
    assert Under(r) == Under(s);
  }

  // ---------------------------------------------------------------- closing

  /** A table that has left the stack and is yet to be destroyed. */
  ghost predicate Leaving(s: Store, t: Table) {
    && Owned(s)
    && (forall l | l in s.ext :: l in s.cells && !s.cells[l].VRef?)
    && Scoped(s.tables, s.cells, s.ext)
    && (forall l | l in s.cells && s.cells[l].VRef? :: l in LocsOf(t) || l in Locs(s.tables))
    && (forall i, j | 0 <= i < j < |t| :: t[i].loc != t[j].loc)
    && (forall i | 0 <= i < |t| :: t[i].loc in s.cells && t[i].loc !in Locs(s.tables) + s.ext)
  }

  lemma DropLeaving(s: Store, t: Table)
    requires t != [] && Leaving(s, t)
    ensures Leaving(Drop(s, t[0].loc), t[1..])
    ensures var r := Drop(s, t[0].loc); SameScope(s, r) && r.cells == s.cells - {t[0].loc}
  {
    hide Scoped, ForestBy, Locs;
    var l, r := t[0].loc, Drop(s, t[0].loc);
    DropKeeps(s, ForestOf(s), l);
    ForestIs(r, ForestOf(s) - {l});
    LocsOfCons(t[0], t[1..]);
    assert [t[0]] + t[1..] == t;
    ScopedFrame(s.tables, s.cells, r.cells, s.ext);
    forall i | 0 <= i < |t[1..]| ensures t[1..][i].loc in r.cells {
      assert t[1..][i] == t[i + 1];
    }
  }

  lemma {:induction false} DropAllFine(s: Store, t: Table)
    requires Leaving(s, t)
    ensures var r := DropAll(s, t);
            Fine(r) && SameScope(s, r) && r.cells == s.cells - LocsOf(t)
    decreases |t|
  {
    hide Scoped, ForestBy, Locs, Drop;
    if t == [] {
      assert LocsOf(t) == {};
    } else {
      DropLeaving(s, t);
      DropAllFine(Drop(s, t[0].loc), t[1..]);
      LocsOfCons(t[0], t[1..]);
      assert [t[0]] + t[1..] == t;
    }
  }

  lemma PopFine(s: Store)
    requires Fine(s) && s.tables != []
    ensures var r := Pop(s);
            && Fine(r) && r.tables == Under(s) && r.ext == s.ext
            && r.cells == s.cells - LocsOf(Top(s)) && Temps(r) == Temps(s)
  {
    hide Scoped, ForestBy, Locs, LocsOf;
    var s1, t := s.(tables := Under(s)), Top(s);
    TopSplit(s);
    LocsTop(s);
    ScopedPush(Under(s), t, s.cells, s.ext);
    TablesAside(s, ForestOf(s), s1);
    LiveCells(s);
    TableLeaves(s, t, Locs(Under(s)) + s.ext);
    DropAllFine(s1, t);
  }

  lemma TableLeaves(s: Store, t: Table, lower: set<Loc>)
    requires TableOk(t, lower, s.cells)
    ensures forall i, j | 0 <= i < j < |t| :: t[i].loc != t[j].loc
    ensures forall i | 0 <= i < |t| :: t[i].loc in s.cells && t[i].loc !in lower
    ensures LocsOf(t) !! lower
  {
  }

  lemma ClearTopFine(s: Store)
    requires Fine(s) && s.tables != []
    ensures var r := ClearTop(s);
            Fine(r) && Within(s, r) && Temps(r) == Temps(s) && Top(r) == []
  {
    hide Scoped, ForestBy, Locs, LocsOf;
    PopFine(s);
    PushFine(Pop(s));
  }
}
