/** Single ownership, reference safety and library restoration in every state a program reaches. */
module RunTheorems {
  import opened Wrappers
  import opened Heap
  import opened Store
  import opened Language
  import opened Machine
  import opened Ownership
  import opened OwnershipSlots
  import opened Scopes
  import opened Discipline
  import opened Blocks
  import opened Statements
  import opened Runs

  // ---------------------------------------------------------------- starting

  /** The C caller's arguments are bound by reference; formals beyond them get none. */
  function BindExternal(s: Store, formals: seq<Sym>, exts: seq<Loc>): (r: Store)
    decreases |formals|
  {
    if formals == [] then s
    else if exts == [] then BindExternal(SetTop(Fresh(s, VNone).0, formals[0], s.next), formals[1..], [])
    else BindExternal(SetTop(Fresh(s, VRef(exts[0])).0, formals[0], s.next), formals[1..], exts[1..])
  }

  function Start(s: Store, p: Proc, exts: seq<Loc>, lib: LibId): (m: State) {
    Run([CallFrame(p, None, lib)], BindExternal(Push(s), p.formals, exts), lib)
  }

  /** A store with nothing in it but the caller's arguments. */
  ghost predicate Ready(s: Store, exts: seq<Loc>) {
    Fine(s) && s.tables == [] && Temps(s) == {} && forall e | e in exts :: e in s.ext
  }

  ghost predicate Reached(P: Program, s: Store, p: Proc, exts: seq<Loc>, lib: LibId, n: nat, m: State) {
    && ProgramOk(P) && Distinct(p.formals) && p.stmts != [] && Ready(s, exts)
    && m == Steps(P, Start(s, p, exts, lib), n)
  }

  lemma {:induction false} BindExternalOk(s: Store, formals: seq<Sym>, exts: seq<Loc>)
    requires Fine(s) && s.tables != [] && Temps(s) == {} && (forall e | e in exts :: e in s.ext)
    requires Distinct(formals) && Unbound(Top(s), formals)
    ensures var r := BindExternal(s, formals, exts);
            Fine(r) && Within(s, r) && Temps(r) == {}
    decreases |formals|
  {
    hide Fine, Lookup, SetTop, Distinct, Temps;
    if formals == [] {
    } else {
      var sym := formals[0];
      HeadUnbound(Top(s), formals);
      StillUnbound(Top(s), formals, s.next);
      if exts == [] {
        FreshFine(s, VNone);
        ValueArgWell(s, sym, Fresh(s, VNone).0, s.next);
        BindExternalOk(SetTop(Fresh(s, VNone).0, sym, s.next), formals[1..], []);
      } else {
        assert exts[0] in exts;
        ExternalArg(s, sym, exts[0]);
        BindExternalOk(SetTop(Fresh(s, VRef(exts[0])).0, sym, s.next), formals[1..], exts[1..]);
      }
    }
  }

  /** A run can be started with any number of arguments, of any values that are no containers and no
      references. */
  lemma AnyArguments(vals: seq<Value>) returns (s: Store, exts: seq<Loc>)
    requires forall i | 0 <= i < |vals| :: !Holds(vals[i]) && !vals[i].VRef?
    ensures Ready(s, exts) && |exts| == |vals|
    ensures forall i | 0 <= i < |vals| :: exts[i] in s.cells && s.cells[exts[i]] == vals[i]
  {
    var n := |vals|;
    var cells := map l: Loc | 0 <= l < n :: vals[l];
    s := Store([], cells, map[], n, [], cells.Keys);
    exts := seq(n, i => i);
    var F: Forest := map l: Loc | 0 <= l < n :: Leaf(vals[l]);
    assert Held(F, F.Keys) == {};
    assert ForestBy(s, F);
  }

  /** The i-th formal is a reference to the caller's i-th argument, or none beyond them. */
  predicate BoundTo(r: Store, formals: seq<Sym>, exts: seq<Loc>) {
    forall i | 0 <= i < |formals| ::
      match Lookup(Top(r), formals[i])
      case None => false
      case Some(l) => l in r.cells && r.cells[l] == if i < |exts| then VRef(exts[i]) else VNone
  }

  lemma {:induction false} BindExternalBinds(s: Store, formals: seq<Sym>, exts: seq<Loc>)
    requires Fine(s) && s.tables != [] && Temps(s) == {} && (forall e | e in exts :: e in s.ext)
    requires Distinct(formals) && Unbound(Top(s), formals)
    ensures var r := BindExternal(s, formals, exts);
            BoundTo(r, formals, exts)
            && (forall y | y !in formals :: Lookup(Top(r), y) == Lookup(Top(s), y))
            && forall l | l in s.cells :: l in r.cells && r.cells[l] == s.cells[l]
    decreases |formals|
  {
    hide Fine, SetTop, Distinct, Temps, Unbound, Lookup, BoundTo;
    if formals == [] {
      NoFormals(s, exts);
    } else {
      var sym := formals[0];
      HeadUnbound(Top(s), formals);
      StillUnbound(Top(s), formals, s.next);
      var v := if exts == [] then VNone else VRef(exts[0]);
      var later := if exts == [] then [] else exts[1..];
      var s1 := SetTop(Fresh(s, v).0, sym, s.next);
      if exts == [] {
        FreshFine(s, VNone);
        ValueArgWell(s, sym, Fresh(s, VNone).0, s.next);
      } else {
        assert exts[0] in exts;
        ExternalArg(s, sym, exts[0]);
      }
      LiveCells(s);
      NewInFront(s, sym, v);
      BindExternalBinds(s1, formals[1..], later);
      BoundFirst(s, s1, BindExternal(s1, formals[1..], later), formals, exts, later);
    }
  }

  /** The first formal beside the later ones. */
  lemma BoundFirst(s: Store, s1: Store, r: Store, formals: seq<Sym>, exts: seq<Loc>, later: seq<Loc>)
    requires formals != [] && Distinct(formals) && later == if exts == [] then [] else exts[1..]
    requires s.next !in s.cells && s1.cells == s.cells[s.next := if exts == [] then VNone else VRef(exts[0])]
    requires Lookup(Top(s1), formals[0]) == Some(s.next)
    requires forall y | y != formals[0] :: Lookup(Top(s1), y) == Lookup(Top(s), y)
    requires BoundTo(r, formals[1..], later)
    requires forall y | y !in formals[1..] :: Lookup(Top(r), y) == Lookup(Top(s1), y)
    requires forall l | l in s1.cells :: l in r.cells && r.cells[l] == s1.cells[l]
    ensures BoundTo(r, formals, exts)
    ensures forall y | y !in formals :: Lookup(Top(r), y) == Lookup(Top(s), y)
    ensures forall l | l in s.cells :: l in r.cells && r.cells[l] == s.cells[l]
  {
    hide Lookup, Top;
    FirstNotLater(formals);
    hide Distinct;
    forall i | 0 <= i < |formals|
      ensures Lookup(Top(r), formals[i]).Some? && Lookup(Top(r), formals[i]).value in r.cells
      ensures r.cells[Lookup(Top(r), formals[i]).value] == if i < |exts| then VRef(exts[i]) else VNone
    {
      if i > 0 { assert formals[i] == formals[1..][i - 1]; }
    }
    forall y | y !in formals ensures Lookup(Top(r), y) == Lookup(Top(s), y) {
      assert y !in formals[1..] && y != formals[0];
    }
  }

  lemma NoFormals(s: Store, exts: seq<Loc>)
    ensures BoundTo(s, [], exts)
  {
  }

  lemma FirstNotLater(formals: seq<Sym>)
    requires formals != [] && Distinct(formals)
    ensures formals[0] !in formals[1..]
  {
  }

  /** What binding a new name does to the top table and the cells. */
  lemma NewInFront(s: Store, sym: Sym, v: Value)
    requires s.tables != [] && Lookup(Top(s), sym).None? && s.next !in s.cells
    ensures var r := SetTop(Fresh(s, v).0, sym, s.next);
            && r.cells == s.cells[s.next := v] && Top(r) == [Bind(sym, s.next)] + Top(s)
            && Lookup(Top(r), sym) == Some(s.next) && forall y | y != sym :: Lookup(Top(r), y) == Lookup(Top(s), y)
  {
    assert ([Bind(sym, s.next)] + Top(s))[1..] == Top(s);
  }

  /** A run starts with each formal of the procedure bound to the argument in its place. */
  lemma StartBinds(s: Store, p: Proc, exts: seq<Loc>, lib: LibId)
    requires Distinct(p.formals) && Ready(s, exts)
    ensures |Start(s, p, exts, lib).s.tables| == 1 && BoundTo(Start(s, p, exts, lib).s, p.formals, exts)
  {
    hide Fine, Temps, Distinct, BindExternal, Lookup, BoundTo, Unbound;
    PushFine(s);
    NothingYet(p.formals);
    BindExternalOk(Push(s), p.formals, exts);
    BindExternalBinds(Push(s), p.formals, exts);
  }

  lemma NothingYet(formals: seq<Sym>)
    ensures Unbound([], formals)
  {
  }

  lemma ExternalArg(s: Store, sym: Sym, e: Loc)
    requires Fine(s) && s.tables != [] && Lookup(Top(s), sym).None? && e in s.ext
    ensures ArgBound(s, sym, SetTop(Fresh(s, VRef(e)).0, sym, s.next), s.next)
  {
    hide ForestBy, Scoped, Locs, Lookup;
    BindRefFine(s, sym, e);
  }

  lemma StartOk(s: Store, p: Proc, exts: seq<Loc>, lib: LibId)
    requires Distinct(p.formals) && p.stmts != [] && Ready(s, exts)
    ensures StateOk(Start(s, p, exts, lib), s.ext)
  {
    hide Fine, Temps, Distinct, BindExternal;
    PushFine(s);
    BindExternalOk(Push(s), p.formals, exts);
    var f := CallFrame(p, None, lib);
    assert [f] == [] + [f];
    HomesTop([], f, lib);
  }

  lemma ReachedOk(P: Program, s: Store, p: Proc, exts: seq<Loc>, lib: LibId, n: nat, m: State)
    requires Reached(P, s, p, exts, lib, n, m)
    ensures StateOk(m, s.ext)
  {
    hide StateOk, Steps, Start;
    StartOk(s, p, exts, lib);
    RunOk(P, Start(s, p, exts, lib), n, s.ext);
  }

  // ---------------------------------------------------------------- single ownership

  /** A slot that is there. */
  predicate Live(s: Store, at: Slot) {
    match at
    case SCell(l) => l in s.cells
    case SKid(id, i) => id in s.heap && i < |s.heap[id].vals|
  }

  /** What a container deep in a tree holds is deeper still. */
  lemma {:induction false} BelowRoot(h: Heap, v: Value, t: Tree, x: Id, i: nat)
    requires Rep(h, v, t) && x in Ids(t) && x in h && i < |h[x].vals| && Holds(h[x].vals[i])
    ensures t.Node? && h[x].vals[i].id in IdsOf(t.kids)
    decreases t
  {
    if x == t.id {
      assert Rep(h, h[x].vals[i], t.kids[i]);
      assert h[x].vals[i].id in Ids(t.kids[i]);
    } else {
      var k := KidWith(t, x);
      BelowRoot(h, h[t.id].vals[k], t.kids[k], x, i);
      KidIds(t.kids[k], 0) by { assert t.kids[k].kids != []; }
      assert h[x].vals[i].id in Ids(t.kids[k]);
    }
  }

  /** Inside one tree no two entries hold the same container. */
  lemma {:induction false} OneParent(h: Heap, v: Value, t: Tree, x: Id, i: nat, y: Id, j: nat)
    requires Rep(h, v, t) && Sound(t) && x in Ids(t) && y in Ids(t) && x in h && y in h
    requires i < |h[x].vals| && j < |h[y].vals|
    requires Holds(h[x].vals[i]) && Holds(h[y].vals[j]) && h[x].vals[i].id == h[y].vals[j].id
    ensures x == y && i == j
    decreases t
  {
    if x == t.id && y == t.id {
      SameParent(h, v, t, i, j);
    } else if x == t.id {
      OneParentTop(h, v, t, i, y, j);
    } else if y == t.id {
      OneParentTop(h, v, t, j, x, i);
    } else {
      var p, q := KidWith(t, x), KidWith(t, y);
      InKid(h, v, t, x, i);
      InKid(h, v, t, y, j);
      hide Rep, Ids, Sound;
      OneParent(h, h[t.id].vals[p], t.kids[p], x, i, y, j);
    }
  }

  lemma SameParent(h: Heap, v: Value, t: Tree, i: nat, j: nat)
    requires Rep(h, v, t) && Sound(t) && t.Node? && i < |h[t.id].vals| && j < |h[t.id].vals|
    requires Holds(h[t.id].vals[i]) && Holds(h[t.id].vals[j]) && h[t.id].vals[i].id == h[t.id].vals[j].id
    ensures i == j
  {
    KidRoot(h, v, t, i);
    KidRoot(h, v, t, j);
  }

  /** A container below the root, and what it holds, are in one and the same kid. */
  lemma InKid(h: Heap, v: Value, t: Tree, x: Id, i: nat)
    requires Rep(h, v, t) && Sound(t) && x in Ids(t) && t.id != x && x in h && i < |h[x].vals| && Holds(h[x].vals[i])
    ensures t.Node? && KidWith(t, x) < |h[t.id].vals| && t.id in h
    ensures var p := KidWith(t, x);
            && Rep(h, h[t.id].vals[p], t.kids[p]) && Sound(t.kids[p]) && x in Ids(t.kids[p])
            && h[x].vals[i].id in Ids(t.kids[p])
            && forall q | 0 <= q < |t.kids| && h[x].vals[i].id in Ids(t.kids[q]) :: q == p
  {
    var p := KidWith(t, x);
    BelowRoot(h, h[t.id].vals[p], t.kids[p], x, i);
    SoundKids(t);
    assert h[x].vals[i].id in Ids(t.kids[p]);
  }

  lemma KidRoot(h: Heap, v: Value, t: Tree, i: nat)
    requires Rep(h, v, t) && t.Node? && i < |t.kids| && Holds(h[t.id].vals[i])
    ensures t.kids[i].Node? && t.kids[i].id == h[t.id].vals[i].id && h[t.id].vals[i].id in Ids(t.kids[i])
  {
    RepIds(h, h[t.id].vals[i], t.kids[i]);
  }

  lemma OneParentTop(h: Heap, v: Value, t: Tree, i: nat, y: Id, j: nat)
    requires Rep(h, v, t) && Sound(t) && t.Node? && y in Ids(t) && y in h && y != t.id
    requires i < |h[t.id].vals| && j < |h[y].vals|
    requires Holds(h[t.id].vals[i]) && Holds(h[y].vals[j])
    ensures h[t.id].vals[i].id != h[y].vals[j].id
  {
    KidRoot(h, v, t, i);
    var q := KidWith(t, y);
    BelowRoot(h, h[t.id].vals[q], t.kids[q], y, j);
    KidIds(t.kids[q], 0) by { assert t.kids[q].kids != []; }
    SoundKids(t.kids[q]);
    assert h[y].vals[j].id in Ids(t.kids[q]);
  }

  /** The cell in whose tree a slot is. */
  ghost predicate OwnerOf(s: Store, F: Forest, at: Slot, l: Loc) {
    l in F && match at case SCell(m) => m == l case SKid(id, _) => id in Ids(F[l])
  }

  lemma HasOwner(s: Store, F: Forest, at: Slot) returns (l: Loc)
    requires ForestBy(s, F) && Live(s, at)
    ensures OwnerOf(s, F, at, l)
  {
    match at
    case SCell(m) => l := m;
    case SKid(id, _) => l :| l in F && id in Ids(F[l]);
  }

  /** The container in a slot is in the tree of the slot's owner, and below its root when the slot
      is an entry. */
  lemma HeldBelow(s: Store, F: Forest, at: Slot, l: Loc)
    requires ForestBy(s, F) && Live(s, at) && OwnerOf(s, F, at, l) && Holds(Get(s, at))
    ensures Get(s, at).id in Ids(F[l])
    ensures at.SKid? ==> Holds(s.cells[l]) && Get(s, at).id != s.cells[l].id
  {
    RepIds(s.heap, s.cells[l], F[l]);
    if at.SKid? {
      BelowRoot(s.heap, s.cells[l], F[l], at.id, at.idx);
      SoundKids(F[l]);
    }
  }

  /** No two slots hold the same container. */
  lemma SlotsDiffer(s: Store, a: Slot, b: Slot)
    requires Fine(s) && Live(s, a) && Live(s, b)
    requires Holds(Get(s, a)) && Holds(Get(s, b)) && Get(s, a).id == Get(s, b).id
    ensures a == b
  {
    var F := ForestOf(s);
    var l := HasOwner(s, F, a);
    var m := HasOwner(s, F, b);
    HeldBelow(s, F, a, l);
    HeldBelow(s, F, b, m);
    assert l == m;
    if a.SKid? && b.SKid? {
      OneParent(s.heap, s.cells[l], F[l], a.id, a.idx, b.id, b.idx);
    }
  }

  /** In every state a program reaches, no two slots hold the same map or sequence. */
  lemma SingleOwner(P: Program, s: Store, p: Proc, exts: seq<Loc>, lib: LibId, n: nat, m: State, a: Slot, b: Slot)
    requires Reached(P, s, p, exts, lib, n, m) && Live(m.s, a) && Live(m.s, b)
    requires Holds(Get(m.s, a)) && Holds(Get(m.s, b)) && Get(m.s, a).id == Get(m.s, b).id
    ensures a == b
  {
    ReachedOk(P, s, p, exts, lib, n, m);
    SlotsDiffer(m.s, a, b);
  }

  // ---------------------------------------------------------------- acyclicity

  /** How many containers there are in container id and below. */
  ghost function Weight(s: Store, id: Id): (n: nat)
    requires Fine(s) && id in s.heap
  {
    var l := HasOwnerLoc(s, id);
    |Ids(Sub(ForestOf(s)[l], id))|
  }

  ghost function HasOwnerLoc(s: Store, id: Id): (l: Loc)
    requires Fine(s) && id in s.heap
    ensures l in ForestOf(s) && id in Ids(ForestOf(s)[l])
  {
    var F := ForestOf(s);
    var l :| l in F && id in Ids(F[l]);
    l
  }

  lemma Heavier(s: Store, id: Id, i: nat)
    requires Fine(s) && id in s.heap && i < |s.heap[id].vals| && Holds(s.heap[id].vals[i])
    ensures var kid := s.heap[id].vals[i].id;
            kid in s.heap && Weight(s, kid) < Weight(s, id)
  {
    hide ForestBy, ScopeOk, Ids, Rep, Sound;
    var kid := s.heap[id].vals[i].id;
    KidOwner(s, id, i);
    var l := HasOwnerLoc(s, id);
    LiveCells(s);
    OneTree(s, ForestOf(s), l);
    KidIsSub(s.heap, s.cells[l], ForestOf(s)[l], id, i);
    KidLighter(Sub(ForestOf(s)[l], id), i);
  }

  /** What a container holds belongs to the same variable. */
  lemma KidOwner(s: Store, id: Id, i: nat)
    requires Fine(s) && id in s.heap && i < |s.heap[id].vals| && Holds(s.heap[id].vals[i])
    ensures var kid := s.heap[id].vals[i].id;
            kid in s.heap && HasOwnerLoc(s, kid) == HasOwnerLoc(s, id)
  {
    hide ScopeOk, Rep, Sound, Ids;
    var F, l, kid := ForestOf(s), HasOwnerLoc(s, id), s.heap[id].vals[i].id;
    HeldBelow(s, F, SKid(id, i), l);
    HeldAll(s, F, l);
    if HasOwnerLoc(s, kid) != l { TwoTrees(s, F, l, HasOwnerLoc(s, kid)); }
  }

  /** The tree of what a container holds is the kid of the container's tree. */
  lemma KidIsSub(h: Heap, v: Value, t: Tree, id: Id, i: nat)
    requires Rep(h, v, t) && Sound(t) && id in Ids(t) && id in h && i < |h[id].vals| && Holds(h[id].vals[i])
    requires h[id].vals[i].id in Ids(t)
    ensures var n := Sub(t, id); n.Node? && i < |n.kids| && Sound(n) && Sub(t, h[id].vals[i].id) == n.kids[i]
  {
    var kid := h[id].vals[i].id;
    SubFacts(h, v, t, id);
    SubFacts(h, v, t, kid);
    var n, u := Sub(t, id), Sub(t, kid);
    KidRoot(h, Root(n), n, i);
    hide Ids, Sound, Sub;
    assert Rep(h, h[id].vals[i], n.kids[i]);
    SameKind(h, n.kids[i], u);
    RepUnique(h, h[id].vals[i], n.kids[i], u);
  }

  lemma KidLighter(n: Tree, i: nat)
    requires n.Node? && Sound(n) && i < |n.kids|
    ensures |Ids(n.kids[i])| < |Ids(n)|
  {
    KidIds(n, i);
    SoundKids(n);
    Fewer(Ids(n.kids[i]), Ids(n), n.id);
  }

  lemma SameKind(h: Heap, t: Tree, u: Tree)
    requires t.Node? && u.Node? && t.id == u.id && Rep(h, Root(t), t) && Rep(h, Root(u), u)
    ensures Root(t) == Root(u)
  {
  }

  lemma Fewer(a: set<Id>, b: set<Id>, x: Id)
    requires a <= b && x in b && x !in a
    ensures |a| < |b|
  {
    SubsetSize(a, b - {x});
  }

  /** What contains what is well founded: there is a measure that every container's contents are
      below, so no container is inside itself, however indirectly. */
  lemma Acyclic(P: Program, s: Store, p: Proc, exts: seq<Loc>, lib: LibId, n: nat, m: State)
    requires Reached(P, s, p, exts, lib, n, m)
    ensures exists weight: map<Id, nat> :: weight.Keys == m.s.heap.Keys && Measures(m.s.heap, weight)
  {
    hide Steps, Fine, Measures;
    ReachedOk(P, s, p, exts, lib, n, m);
    var weight := HasMeasure(m.s);
  }

  lemma HasMeasure(s: Store) returns (weight: map<Id, nat>)
    requires Fine(s)
    ensures weight.Keys == s.heap.Keys && Measures(s.heap, weight)
  {
    hide Fine, Weight;
    weight := map id | id in s.heap :: Weight(s, id);
    forall id, i: nat | id in s.heap && i < |s.heap[id].vals| && Holds(s.heap[id].vals[i])
      ensures s.heap[id].vals[i].id in s.heap && weight[s.heap[id].vals[i].id] < weight[id]
    {
      Heavier(s, id, i);
    }
  }

  ghost predicate Measures(h: Heap, weight: map<Id, nat>) {
    forall id, i: nat | id in h && i < |h[id].vals| && Holds(h[id].vals[i]) ::
      && h[id].vals[i].id in h && h[id].vals[i].id in weight && id in weight
      && weight[h[id].vals[i].id] < weight[id]
  }

  // ---------------------------------------------------------------- finalising and leaking

  /** No container is ever destroyed twice, and none that was destroyed is still held anywhere. */
  lemma FinalisedOnce(P: Program, s: Store, p: Proc, exts: seq<Loc>, lib: LibId, n: nat, m: State, at: Slot)
    requires Reached(P, s, p, exts, lib, n, m)
    ensures NoDup(m.s.freed)
    ensures Live(m.s, at) && Holds(Get(m.s, at)) ==> Get(m.s, at).id in m.s.heap && Get(m.s, at).id !in m.s.freed
  {
    ReachedOk(P, s, p, exts, lib, n, m);
    if Live(m.s, at) && Holds(Get(m.s, at)) {
      var F := ForestOf(m.s);
      var l := HasOwner(m.s, F, at);
      HeldBelow(m.s, F, at, l);
      HeldAll(m.s, F, l);
    }
  }

  /** Two variables of one block that hold the same map. */
  function Shared(): (s: Store) {
    Store([[Bind(1, 0), Bind(2, 1)]], map[0 := VMap(5), 1 := VMap(5)], map[5 := Obj(true, [], [])], 6, [], {})
  }

  /** Without single ownership a block's end would destroy a map twice, and the log would show it. */
  lemma SharedFreedTwice()
    ensures Pop(Shared()).freed == [5, 5] && !NoDup(Pop(Shared()).freed) && !Owned(Shared())
  {
    var s := Shared().(tables := []);
    var t := Shared().tables[0];
    assert t[1..] == [Bind(2, 1)] && t[1..][1..] == [];
    var r := Drop(s, 0);
    assert r.freed == [5] && r.heap == map[] && r.cells == map[1 := VMap(5)];
    var q := Drop(r, 1);
    assert q.freed == [5, 5];
    assert Pop(Shared()) == DropAll(s, t) == DropAll(r, t[1..]) == DropAll(q, []) == q;
    assert q.freed[0] == q.freed[1];
    SharedNotOwned();
  }

  lemma SharedNotOwned()
    ensures !Owned(Shared())
  {
    hide FreedOnce, Named, Held;
    forall F ensures !ForestBy(Shared(), F) {
      if Represents(Shared(), F) {
        assert Rep(Shared().heap, VMap(5), F[0]) && Rep(Shared().heap, VMap(5), F[1]);
        assert 5 in Ids(F[0]) && 5 in Ids(F[1]);
      }
    }
  }

  /** Container id is somewhere inside what cell l holds. */
  ghost predicate Inside(s: Store, id: Id, l: Loc) {
    exists F :: ForestBy(s, F) && l in F && id in Ids(F[l])
  }

  lemma InsideSome(s: Store, id: Id) returns (l: Loc)
    requires Fine(s) && id in s.heap
    ensures Inside(s, id, l) && l in s.cells
  {
    l := HasOwnerLoc(s, id);
    var F := ForestOf(s);
    assert ForestBy(s, F) && l in F && id in Ids(F[l]);
  }

  /** Until an error, every container is inside a variable of the stack or an argument of the C
      caller; once the program ends, inside an argument. */
  lemma NothingLeaks(P: Program, s: Store, p: Proc, exts: seq<Loc>, lib: LibId, n: nat, m: State, id: Id)
    requires Reached(P, s, p, exts, lib, n, m) && !m.Fail? && id in m.s.heap
    ensures exists l :: Inside(m.s, id, l) && l in Locs(m.s.tables) + s.ext
    ensures m.Done? ==> exists l :: Inside(m.s, id, l) && l in s.ext
  {
    hide Steps, ForestBy;
    ReachedOk(P, s, p, exts, lib, n, m);
    var l := InsideSome(m.s, id);
    assert l !in Temps(m.s);
  }

  /** Every binding of a stack, bottom block first. */
  function Flat(ts: seq<Table>): (t: Table) {
    if ts == [] then [] else Flat(ts[..|ts| - 1]) + ts[|ts| - 1]
  }

  /** Destroy the whole stack after a run, from the bottom up. */
  function Unwind(s: Store): (r: Store) { DropAll(s.(tables := []), Flat(s.tables)) }

  lemma LocsOfConcat(a: Table, b: Table)
    ensures LocsOf(a + b) == LocsOf(a) + LocsOf(b)
  {
    forall l | l in LocsOf(a) + LocsOf(b) ensures l in LocsOf(a + b) {
      if l in LocsOf(a) {
        var i :| 0 <= i < |a| && a[i].loc == l;
        assert (a + b)[i].loc == l;
      } else {
        var i :| 0 <= i < |b| && b[i].loc == l;
        assert (a + b)[|a| + i].loc == l;
      }
    }
  }

  /** Every binding is of a cell of its own. */
  predicate OneEach(t: Table, cells: map<Loc, Value>, ext: set<Loc>) {
    && (forall i, j | 0 <= i < j < |t| :: t[i].loc != t[j].loc)
    && forall i | 0 <= i < |t| :: t[i].loc in cells && t[i].loc !in ext
  }

  lemma {:induction false} FlatFacts(ts: seq<Table>, cells: map<Loc, Value>, ext: set<Loc>)
    requires Scoped(ts, cells, ext)
    ensures LocsOf(Flat(ts)) == Locs(ts) && OneEach(Flat(ts), cells, ext)
  {
    if ts != [] {
      var n := |ts| - 1;
      var a, b := Flat(ts[..n]), ts[n];
      FlatFacts(ts[..n], cells, ext);
      LocsOfConcat(a, b);
      forall i, j | 0 <= i < |a| && 0 <= j < |b| ensures a[i].loc != b[j].loc {
        assert a[i].loc in LocsOf(a);
      }
      assert OneEach(a + b, cells, ext);
    } else {
      assert LocsOf(Flat(ts)) == {};
    }
  }

  lemma UnwindFine(s: Store)
    requires Fine(s)
    ensures var r := Unwind(s);
            && Fine(r) && r.cells.Keys == s.ext + Temps(s)
            && forall l | l in r.cells :: l in s.cells && r.cells[l] == s.cells[l]
  {
    hide ForestBy, Scoped, Locs, LocsOf, Flat;
    var s0, t := s.(tables := []), Flat(s.tables);
    FlatFacts(s.tables, s.cells, s.ext);
    TablesAside(s, ForestOf(s), s0);
    NoTables(s0);
    LiveCells(s);
    DropAllFine(s0, t);
  }

  /** However a run went, unwinding leaves the arguments and the locals an error made the interpreter
      forget, and of the containers only those inside them; the rest is destroyed, each once. */
  lemma UnwindCleans(P: Program, s: Store, p: Proc, exts: seq<Loc>, lib: LibId, n: nat, m: State)
    requires Reached(P, s, p, exts, lib, n, m)
    ensures var r := Unwind(m.s);
            && r.cells.Keys == s.ext + Temps(m.s) && NoDup(r.freed)
            && (forall id | id in r.heap :: exists l :: Inside(r, id, l) && l in s.ext + Temps(m.s))
            && (!m.Fail? ==> Temps(m.s) == {})
  {
    hide Steps, ForestBy;
    ReachedOk(P, s, p, exts, lib, n, m);
    UnwindFine(m.s);
    var r := Unwind(m.s);
    assert NoDup(r.freed) by { FreedNoDup(r); }
    forall id | id in r.heap ensures exists l :: Inside(r, id, l) && l in s.ext + Temps(m.s) {
      var l := InsideSome(r, id);
    }
  }

  lemma FreedNoDup(s: Store)
    requires Fine(s)
    ensures NoDup(s.freed)
  {
  }

  lemma NoTables(s: Store)
    requires s.tables == []
    ensures Scoped(s.tables, s.cells, s.ext) && Locs(s.tables) == {}
  {
  }

  // ---------------------------------------------------------------- references

  /** Table e, below table d, binds cell l. */
  predicate BoundBelow(ts: seq<Table>, d: nat, l: Loc) {
    exists e, j :: 0 <= e < d && e < |ts| && 0 <= j < |ts[e]| && ts[e][j].loc == l
  }

  lemma {:induction false} LocsBound(ts: seq<Table>, l: Loc)
    requires l in Locs(ts)
    ensures BoundBelow(ts, |ts|, l)
  {
    var n := |ts| - 1;
    if l in LocsOf(ts[n]) {
      var j :| 0 <= j < |ts[n]| && ts[n][j].loc == l;
    } else {
      LocsBound(ts[..n], l);
      var e, j :| 0 <= e < n && 0 <= j < |ts[..n][e]| && ts[..n][e][j].loc == l;
      assert ts[e][j].loc == l;
    }
  }

  /** Every reference in a block's table is to a variable that is there, is no reference itself, and
      belongs to a strictly deeper block or to the C caller. */
  lemma ReferencesPointDown(P: Program, s: Store, p: Proc, exts: seq<Loc>, lib: LibId, n: nat, m: State, d: nat, i: nat)
    requires Reached(P, s, p, exts, lib, n, m)
    requires d < |m.s.tables| && i < |m.s.tables[d]|
    ensures m.s.tables[d][i].loc in m.s.cells
    ensures var v := m.s.cells[m.s.tables[d][i].loc];
            v.VRef? ==> v.loc in m.s.cells && !m.s.cells[v.loc].VRef?
                        && (v.loc in s.ext || BoundBelow(m.s.tables, d, v.loc))
  {
    ReachedOk(P, s, p, exts, lib, n, m);
    var ts := m.s.tables;
    ScopedPrefix(ts, d + 1, m.s.cells, s.ext);
    assert ts[..d + 1][..d] == ts[..d];
    var b := ts[d][i].loc;
    assert RefOk(ts[..d + 1][d][i].loc, Locs(ts[..d]) + s.ext, m.s.cells);
    if m.s.cells[b].VRef? && m.s.cells[b].loc !in s.ext {
      LocsBound(ts[..d], m.s.cells[b].loc);
      var e, j :| 0 <= e < d && 0 <= j < |ts[..d][e]| && ts[..d][e][j].loc == m.s.cells[b].loc;
      assert ts[e][j].loc == m.s.cells[b].loc;
    }
  }

  // ---------------------------------------------------------------- libraries

  /** Whenever a statement is about to run, the active library is the one that was active when its
      block was pushed, whatever calls, leaves and redos came between. */
  lemma LibraryRestored(P: Program, s: Store, p: Proc, exts: seq<Loc>, lib: LibId, n: nat, m: State)
    requires Reached(P, s, p, exts, lib, n, m) && m.Run?
    ensures m.frames != [] && m.lib == Last(m.frames).home
    ensures |m.s.tables| == |m.frames|
  {
    ReachedOk(P, s, p, exts, lib, n, m);
  }

  /** The loop never meets a block without a current statement. */
  lemma AlwaysAStatement(P: Program, s: Store, p: Proc, exts: seq<Loc>, lib: LibId, n: nat, m: State, i: nat)
    requires Reached(P, s, p, exts, lib, n, m) && m.Run? && i < |m.frames|
    ensures m.frames[i].rest != []
  {
    ReachedOk(P, s, p, exts, lib, n, m);
  }
}
