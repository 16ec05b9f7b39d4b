/** Which cells tables bind, what references may point at, and which cells are nobody's. */
module Scopes {
  import opened Heap
  import opened Store

  function Locs(ts: seq<Table>): (r: set<Loc>) {
    if ts == [] then {} else Locs(ts[..|ts| - 1]) + LocsOf(ts[|ts| - 1])
  }

  /** A reference in a table is to a variable of a lower table, or to an argument of the C caller,
      and never to another reference. */
  predicate TableOk(t: Table, lower: set<Loc>, cells: map<Loc, Value>) {
    && (forall i, j | 0 <= i < j < |t| :: t[i].loc != t[j].loc)
    && (forall i | 0 <= i < |t| :: t[i].loc in cells && t[i].loc !in lower)
    && forall i | 0 <= i < |t| :: RefOk(t[i].loc, lower, cells)
  }

  predicate RefOk(l: Loc, lower: set<Loc>, cells: map<Loc, Value>) {
    l in cells && (cells[l].VRef? ==>
      cells[l].loc in lower && cells[l].loc in cells && !cells[cells[l].loc].VRef?)
  }

  predicate Scoped(ts: seq<Table>, cells: map<Loc, Value>, ext: set<Loc>) {
    ts == [] ||
    var n := |ts| - 1;
    Scoped(ts[..n], cells, ext) && TableOk(ts[n], Locs(ts[..n]) + ext, cells)
  }

  predicate ScopeOk(s: Store) {
    && (forall l | l in s.ext :: l in s.cells && !s.cells[l].VRef?)
    && Scoped(s.tables, s.cells, s.ext)
    && forall l | l in s.cells && s.cells[l].VRef? :: l in Locs(s.tables)
  }

  /** Cells that neither a table nor the C caller knows: the C code's locals. */
  function Temps(s: Store): (r: set<Loc>) { s.cells.Keys - Locs(s.tables) - s.ext }

  // ---------------------------------------------------------------- reading

  lemma {:induction false} LocsLive(ts: seq<Table>, cells: map<Loc, Value>, ext: set<Loc>)
    requires Scoped(ts, cells, ext)
    ensures Locs(ts) <= cells.Keys && Locs(ts) !! ext
  {
    if ts == [] {
    } else {
      LocsLive(ts[..|ts| - 1], cells, ext);
    }
  }

  lemma {:induction false} LocsPrefix(ts: seq<Table>, k: nat)
    requires k <= |ts|
    ensures Locs(ts[..k]) <= Locs(ts)
  {
    if k < |ts| {
      var n := |ts| - 1;
      assert ts[..n][..k] == ts[..k];
      LocsPrefix(ts[..n], k);
    } else {
      assert ts[..k] == ts;
    }
  }

  lemma {:induction false} ScopedPrefix(ts: seq<Table>, k: nat, cells: map<Loc, Value>, ext: set<Loc>)
    requires k <= |ts| && Scoped(ts, cells, ext)
    ensures Scoped(ts[..k], cells, ext)
  {
    if k < |ts| {
      var n := |ts| - 1;
      assert ts[..n][..k] == ts[..k];
      ScopedPrefix(ts[..n], k, cells, ext);
    } else {
      assert ts[..k] == ts;
    }
  }

  lemma {:induction false} LookupBound(t: Table, sym: Sym)
    ensures Lookup(t, sym).Some? ==> exists i :: 0 <= i < |t| && t[i].loc == Lookup(t, sym).value && t[i].sym == sym
    ensures Lookup(t, sym).None? ==> forall i | 0 <= i < |t| :: t[i].sym != sym
  {
    if t == [] {
    } else {
      LookupBound(t[1..], sym);
      if t[0].sym == sym {
        assert t[0].loc == Lookup(t, sym).value;
      } else if Lookup(t, sym).Some? {
        var i :| 0 <= i < |t[1..]| && t[1..][i].loc == Lookup(t[1..], sym).value && t[1..][i].sym == sym;
        assert t[i + 1].loc == Lookup(t, sym).value;
      } else {
        forall i | 0 <= i < |t| ensures t[i].sym != sym {
          if i > 0 { assert t[i] == t[1..][i - 1]; }
        }
      }
    }
  }

  /** A reference in a stack leads to a variable of the stack or an external argument, which is none. */
  lemma {:induction false} RefsLand(ts: seq<Table>, cells: map<Loc, Value>, ext: set<Loc>, l: Loc)
    requires Scoped(ts, cells, ext) && l in Locs(ts) && l in cells && cells[l].VRef?
    ensures cells[l].loc in Locs(ts) + ext && cells[l].loc in cells && !cells[cells[l].loc].VRef?
  {
    var n := |ts| - 1;
    if l in LocsOf(ts[n]) {
      var i :| 0 <= i < |ts[n]| && ts[n][i].loc == l;
      assert RefOk(ts[n][i].loc, Locs(ts[..n]) + ext, cells);
    } else {
      RefsLand(ts[..n], cells, ext, l);
    }
  }

  /** What a name resolves to among the lowest k tables is a variable there or an external
      argument, and never itself a reference. */
  lemma {:induction false} ResolveFacts(s: Store, k: nat, sym: Sym)
    requires ScopeOk(s) && k <= |s.tables| && Resolve(s, k, sym).Some?
    ensures var l := Resolve(s, k, sym).value;
            l in s.cells && !s.cells[l].VRef? && l in Locs(s.tables[..k]) + s.ext
            && l in Locs(s.tables) + s.ext
    decreases k
  {
    LookupBound(s.tables[k - 1], sym);
    assert s.tables[..k][..k - 1] == s.tables[..k - 1];
    ScopedPrefix(s.tables, k, s.cells, s.ext);
    LocsPrefix(s.tables, k);
    if Lookup(s.tables[k - 1], sym).None? {
      ResolveFacts(s, k - 1, sym);
    } else {
      var l := Lookup(s.tables[k - 1], sym).value;
      assert l in LocsOf(s.tables[k - 1]);
      var t := s.tables[..k][k - 1];
      var i :| 0 <= i < |t| && t[i].loc == l;
      assert RefOk(t[i].loc, Locs(s.tables[..k - 1]) + s.ext, s.cells);
    }
  }

  // ---------------------------------------------------------------- changing cells

  /** Cells that tables and the caller know may change, but not from or to a reference. */
  predicate SameKinds(known: set<Loc>, cells: map<Loc, Value>, cells': map<Loc, Value>) {
    forall l | l in known && l in cells ::
      l in cells' && (cells'[l] == cells[l] || (!cells[l].VRef? && !cells'[l].VRef?))
  }

  lemma {:induction false} ScopedFrame(ts: seq<Table>, cells: map<Loc, Value>, cells': map<Loc, Value>, ext: set<Loc>)
    requires Scoped(ts, cells, ext) && SameKinds(Locs(ts) + ext, cells, cells')
    ensures Scoped(ts, cells', ext)
  {
    if ts == [] {
    } else {
      var n := |ts| - 1;
      ScopedFrame(ts[..n], cells, cells', ext);
      LocsLive(ts, cells, ext);
      var t := ts[n];
      forall i | 0 <= i < |t| ensures t[i].loc in cells' && RefOk(t[i].loc, Locs(ts[..n]) + ext, cells') {
        assert t[i].loc in LocsOf(t);
        assert RefOk(t[i].loc, Locs(ts[..n]) + ext, cells);
      }
    }
  }

  lemma ScopeFrame(s: Store, r: Store)
    requires ScopeOk(s) && r.tables == s.tables && r.ext == s.ext
    requires SameKinds(Locs(s.tables) + s.ext, s.cells, r.cells)
    requires forall l | l in r.cells && r.cells[l].VRef? :: l in s.cells && s.cells[l].VRef?
    ensures ScopeOk(r)
  {
    ScopedFrame(s.tables, s.cells, r.cells, s.ext);
  }
}
