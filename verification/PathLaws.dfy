/** put, take and dupe on variables: c holds the container, a the accessor. */
module PathLaws {
  import opened Wrappers
  import opened Heap
  import opened Store
  import opened Ownership
  import opened OwnershipSlots
  import opened Scopes
  import opened Discipline
  import opened Paths
  import opened PathTheorems

  // ---------------------------------------------------------------- reading the accessor

  function RootsOf(ts: seq<Tree>): (r: seq<Value>)
    ensures |r| == |ts| && forall i | 0 <= i < |ts| :: r[i] == Root(ts[i])
  {
    seq(|ts|, i requires 0 <= i < |ts| => Root(ts[i]))
  }

  /** The path an accessor's tree stands for. */
  function KeysIn(t: Tree): (r: Option<seq<Value>>)
    ensures r.Some? ==> r.value != []
  {
    match t
    case Leaf(v) => if v.VInt? || v.VSym? then Some([v]) else None
    case Node(_, isMap, _, kids) => if !isMap && kids != [] then Some(RootsOf(kids)) else None
  }

  lemma KeysInVariable(s: Store, F: Forest, a: Loc)
    requires ForestBy(s, F) && a in F
    ensures KeysOf(s, SCell(a)) == KeysIn(F[a])
  {
    OneTree(s, F, a);
    var t := F[a];
    if t.Node? {
      forall i | 0 <= i < |t.kids| ensures s.heap[t.id].vals[i] == Root(t.kids[i]) {
        RepIds(s.heap, s.heap[t.id].vals[i], t.kids[i]);
      }
      assert s.heap[t.id].vals == RootsOf(t.kids);
    }
  }

  /** The tree a variable holds. */
  ghost function TreeOf(s: Store, l: Loc): (t: Tree)
    requires Owned(s) && l in s.cells
  {
    ForestOf(s)[l]
  }

  lemma TreesAre(s: Store, F: Forest)
    requires ForestBy(s, F)
    ensures Owned(s) && F.Keys == s.cells.Keys && forall l | l in F :: TreeOf(s, l) == F[l]
  {
    ForestIs(s, F);
  }

  /** Variables of a well-formed store. */
  ghost predicate Given(s: Store, a: Loc, c: Loc, v: Loc) {
    && Owned(s) && a in s.cells && c in s.cells && v in s.cells
    && c != v && !s.cells[v].VRef?
  }

  ghost predicate Resolves(s: Store, a: Loc, c: Loc)
    requires Owned(s) && a in s.cells && c in s.cells
  {
    KeysIn(TreeOf(s, a)).Some? && TreeGet(TreeOf(s, c), KeysIn(TreeOf(s, a)).value).Some?
  }

  lemma FindIff(s: Store, a: Loc, c: Loc)
    requires Owned(s) && a in s.cells && c in s.cells
    ensures Find(s, SCell(c), SCell(a)).Some? <==> Resolves(s, a, c)
    ensures Resolves(s, a, c) ==> Reach(s, SCell(c), KeysIn(TreeOf(s, a)).value) == Find(s, SCell(c), SCell(a))
  {
    var F := ForestOf(s);
    TreesAre(s, F);
    KeysInVariable(s, F, a);
    if KeysIn(F[a]).Some? { ReachTree(s, F, SCell(c), c, KeysIn(F[a]).value); }
  }

  // ---------------------------------------------------------------- put

  /** put succeeds exactly when the path already resolves.  Then the path holds the value's own
      containers, the value's variable holds none, and every other variable is as it was. */
  lemma PutLaw(s: Store, a: Loc, c: Loc, v: Loc)
    requires Given(s, a, c, v)
    ensures OmniPut(s, SCell(c), SCell(a), SCell(v)).Some? <==> Resolves(s, a, c)
    ensures Resolves(s, a, c) ==>
              var r := OmniPut(s, SCell(c), SCell(a), SCell(v)).value;
              && Owned(r) && r.cells.Keys == s.cells.Keys
              && TreeOf(r, c) == TreePut(TreeOf(s, c), KeysIn(TreeOf(s, a)).value, TreeOf(s, v))
              && TreeOf(r, v) == Leaf(VNone)
              && forall l | l in s.cells && l != c && l != v :: TreeOf(r, l) == TreeOf(s, l)
  {
    hide ForestBy, MoveValue;
    var F := ForestOf(s);
    TreesAre(s, F);
    FindIff(s, a, c);
    if Resolves(s, a, c) {
      var keys := KeysIn(F[a]).value;
      var b := Reach(s, SCell(c), keys).value;
      PutForest(s, F, c, keys, b, v);
      TreesAre(MoveValue(s, b, SCell(v)), MoveForest(F, c, TreePut(F[c], keys, F[v]), v, Leaf(VNone)));
    }
  }

  /** Beside the path put at, nothing changes, not even which containers hold the values. */
  lemma PutElsewhere(s: Store, a: Loc, c: Loc, v: Loc, other: seq<Value>)
    requires Given(s, a, c, v) && Resolves(s, a, c) && Diverge(KeysIn(TreeOf(s, a)).value, other)
    ensures OmniPut(s, SCell(c), SCell(a), SCell(v)).Some?
    ensures var r := OmniPut(s, SCell(c), SCell(a), SCell(v)).value;
            Owned(r) && c in r.cells && TreeGet(TreeOf(r, c), other) == TreeGet(TreeOf(s, c), other)
  {
    PutLaw(s, a, c, v);
    GetBeside(TreeOf(s, c), KeysIn(TreeOf(s, a)).value, TreeOf(s, v), other);
  }

  // ---------------------------------------------------------------- take

  /** take succeeds exactly when the path resolves, and moves what is there into x. */
  lemma TakeLaw(s: Store, a: Loc, c: Loc, x: Loc)
    requires Owned(s) && a in s.cells && c in s.cells && x in s.cells && c != x
    ensures OmniTake(s, SCell(x), SCell(c), SCell(a)).Some? <==> Resolves(s, a, c)
    ensures Resolves(s, a, c) ==>
              var r, keys := OmniTake(s, SCell(x), SCell(c), SCell(a)).value, KeysIn(TreeOf(s, a)).value;
              && Owned(r) && r.cells.Keys == s.cells.Keys
              && TreeOf(r, x) == TreeGet(TreeOf(s, c), keys).value
              && TreeOf(r, c) == TreePut(TreeOf(s, c), keys, Leaf(VNone))
              && forall l | l in s.cells && l != c && l != x :: TreeOf(r, l) == TreeOf(s, l)
  {
    hide ForestBy, MoveValue;
    var F := ForestOf(s);
    TreesAre(s, F);
    FindIff(s, a, c);
    if Resolves(s, a, c) {
      var keys := KeysIn(F[a]).value;
      var b := Reach(s, SCell(c), keys).value;
      TakeForestAt(s, F, c, keys, b, x);
      TreesAre(MoveValue(s, SCell(x), b),
               MoveForest(F, x, TreeGet(F[c], keys).value, c, TreePut(F[c], keys, Leaf(VNone))));
    }
  }

  /** What was put can be taken back, containers and all. */
  lemma PutThenTake(s: Store, a: Loc, c: Loc, v: Loc, x: Loc)
    requires Given(s, a, c, v) && a != c && a != v && x in s.cells && x != c && Resolves(s, a, c)
    ensures OmniPut(s, SCell(c), SCell(a), SCell(v)).Some?
    ensures var s1 := OmniPut(s, SCell(c), SCell(a), SCell(v)).value;
            var s2 := OmniTake(s1, SCell(x), SCell(c), SCell(a));
            s2.Some? && Owned(s2.value) && x in s2.value.cells && TreeOf(s2.value, x) == TreeOf(s, v)
  {
    PutLaw(s, a, c, v);
    GetPut(TreeOf(s, c), KeysIn(TreeOf(s, a)).value, TreeOf(s, v));
    TakeLaw(OmniPut(s, SCell(c), SCell(a), SCell(v)).value, a, c, x);
  }

  lemma GetPut(t: Tree, keys: seq<Value>, u: Tree)
    requires TreeGet(t, keys).Some?
    ensures TreeGet(TreePut(t, keys, u), keys) == Some(u)
  {
    GetBelow(t, keys, u, []);
    assert keys + [] == keys;
  }

  lemma {:induction false} PutGet(t: Tree, keys: seq<Value>)
    requires TreeGet(t, keys).Some?
    ensures TreePut(t, keys, TreeGet(t, keys).value) == t
    decreases |keys|
  {
    if keys == [] {
    } else {
      var i := Index(t, keys[0]).value;
      PutGet(t.kids[i], keys[1..]);
      assert t.kids[i := t.kids[i]] == t.kids;
    }
  }

  /** What is inside a container is no reference. */
  lemma {:induction false} InsideNoReference(t: Tree, keys: seq<Value>)
    requires Sound(t) && keys != [] && TreeGet(t, keys).Some?
    ensures !Root(TreeGet(t, keys).value).VRef?
    decreases |keys|
  {
    var i := Index(t, keys[0]).value;
    if |keys| > 1 { InsideNoReference(t.kids[i], keys[1..]); }
  }

  /** Taking a value out and putting it back restores the container. */
  lemma TakeThenPut(s: Store, a: Loc, c: Loc, x: Loc)
    requires Owned(s) && a in s.cells && c in s.cells && x in s.cells && a != c && c != x && a != x
    requires Resolves(s, a, c)
    ensures OmniTake(s, SCell(x), SCell(c), SCell(a)).Some?
    ensures var s1 := OmniTake(s, SCell(x), SCell(c), SCell(a)).value;
            var s2 := OmniPut(s1, SCell(c), SCell(a), SCell(x));
            s2.Some? && Owned(s2.value) && c in s2.value.cells && TreeOf(s2.value, c) == TreeOf(s, c)
  {
    hide OmniTake, OmniPut, ForestBy, Sound, Root;
    TakeLaw(s, a, c, x);
    var s1 := OmniTake(s, SCell(x), SCell(c), SCell(a)).value;
    var t, keys := TreeOf(s, c), KeysIn(TreeOf(s, a)).value;
    TreesAre(s, ForestOf(s));
    OneTree(s, ForestOf(s), c);
    InsideNoReference(t, keys);
    RootOfTree(s1, x);
    PutPut(t, keys, Leaf(VNone), TreeGet(t, keys).value);
    PutGet(t, keys);
    PutLaw(s1, a, c, x);
  }

  // ---------------------------------------------------------------- dupe

  /** Copying what slot b of c holds into x. */
  lemma DupeForest(s: Store, F: Forest, c: Loc, b: Slot, x: Loc) returns (u: Tree)
    requires ForestBy(s, F) && SlotIn(s, F, b, c) && x in F && x != c && !Get(s, b).VRef?
    requires Holds(s.cells[x]) ==> Holds(Get(s, b))
    ensures ForestBy(CopyValue(s, SCell(x), b), F[x := u])
    ensures Strip(u) == Strip(TreeAt(s, F, b, c))
  {
    if Holds(Get(s, b)) {
      u := DupeContainer(s, F, c, b, x);
    } else {
      u := DupeAtom(s, F, c, b, x);
    }
  }

  lemma DupeContainer(s: Store, F: Forest, c: Loc, b: Slot, x: Loc) returns (u: Tree)
    requires ForestBy(s, F) && SlotIn(s, F, b, c) && x in F && x != c && Holds(Get(s, b))
    ensures ForestBy(CopyValue(s, SCell(x), b), F[x := u])
    ensures Strip(u) == Strip(TreeAt(s, F, b, c))
  {
    hide ForestBy, Rep, Sound, Ids, PutTree, TreeAt, HeapPatched, Get, Clear, Copy, Strip;
    ClearApart(s, F, SCell(x), x, b, c);
    var s1, F1 := Clear(s, SCell(x)), ClearForest(s, F, SCell(x), x);
    PutVariable(s, F, x, Leaf(VNone));
    AtomTree(s1.heap, VNone);
    Basics(s1, F1);
    SlotFacts(s1, F1, b, c);
    u := CopyTree(s1.heap, s1.heap, s1.next, Get(s1, b), TreeAt(s1, F1, b, c));
    var r := CopyValue(s, SCell(x), b);
    assert SCell(x) != b by { SlotsApart(s, F, SCell(x), x, b, c); }
    MorePatched(s1, r, Ids(u));
    PatchOne(s1, F1, r, x, u, []);
    assert F1[x := u] == F[x := u];
  }

  lemma DupeAtom(s: Store, F: Forest, c: Loc, b: Slot, x: Loc) returns (u: Tree)
    requires ForestBy(s, F) && SlotIn(s, F, b, c) && x in F && x != c
    requires !Get(s, b).VRef? && !Holds(Get(s, b)) && !Holds(s.cells[x])
    ensures ForestBy(CopyValue(s, SCell(x), b), F[x := u])
    ensures Strip(u) == Strip(TreeAt(s, F, b, c))
  {
    hide ForestBy, Rep, Sound, Ids, TreeAt, HeapPatched, Get;
    u := Leaf(Get(s, b));
    var r := CopyValue(s, SCell(x), b);
    Basics(s, F);
    OneTree(s, F, x);
    AtomTree(r.heap, Get(s, b));
    SlotFacts(s, F, b, c);
    LeafAt(s.heap, Get(s, b), TreeAt(s, F, b, c));
    RepIsLeaf(s.heap, s.cells[x], F[x]);
    SlotsApart(s, F, SCell(x), x, b, c);
    SamePatched(s, r, {}, {});
    PatchOne(s, F, r, x, u, []);
  }

  /** dupe succeeds exactly when the path resolves.  It leaves a copy equal to what is there, with
      containers of its own, and changes no other variable; provided that x holds no container or
      that what is copied is one. */
  lemma DupeLaw(s: Store, a: Loc, c: Loc, x: Loc)
    requires Owned(s) && a in s.cells && c in s.cells && x in s.cells && x != c && !s.cells[c].VRef?
    requires Resolves(s, a, c) && Holds(s.cells[x]) ==> At(s, a, c).Node?
    ensures OmniDupe(s, SCell(x), SCell(c), SCell(a)).Some? <==> Resolves(s, a, c)
    ensures Resolves(s, a, c) ==>
              var r := OmniDupe(s, SCell(x), SCell(c), SCell(a)).value;
              && Owned(r) && r.cells.Keys == s.cells.Keys
              && Strip(TreeOf(r, x)) == Strip(At(s, a, c))
              && Ids(TreeOf(r, x)) !! Ids(TreeOf(s, c))
              && forall l | l in s.cells && l != x :: TreeOf(r, l) == TreeOf(s, l)
  {
    hide ForestBy, CopyValue, Strip, Ids;
    var F := ForestOf(s);
    TreesAre(s, F);
    FindIff(s, a, c);
    if Resolves(s, a, c) {
      var keys := KeysIn(F[a]).value;
      var b := Reach(s, SCell(c), keys).value;
      ReachTree(s, F, SCell(c), c, keys);
      SlotFacts(s, F, b, c);
      HoldsIff(s.heap, Get(s, b), TreeAt(s, F, b, c));
      VariableSlot(s, b, c);
      var u := DupeForest(s, F, c, b, x);
      var r := CopyValue(s, SCell(x), b);
      TreesAre(r, F[x := u]);
      TwoTrees(r, F[x := u], x, c);
    }
  }

  /** What the path leads to. */
  ghost function At(s: Store, a: Loc, c: Loc): (t: Tree)
    requires Owned(s) && a in s.cells && c in s.cells && Resolves(s, a, c)
  {
    TreeGet(TreeOf(s, c), KeysIn(TreeOf(s, a)).value).value
  }

  lemma HoldsIff(h: Heap, v: Value, t: Tree)
    requires Rep(h, v, t)
    ensures Holds(v) <==> t.Node?
  {
  }

  lemma VariableSlot(s: Store, b: Slot, c: Loc)
    requires b.SCell? ==> b.loc == c
    requires c in s.cells && !s.cells[c].VRef?
    ensures b.SCell? ==> !Get(s, b).VRef?
  {
  }

  /** dupe after put gives back an equal value, and leaves the container alone. */
  lemma PutThenDupe(s: Store, a: Loc, c: Loc, v: Loc, x: Loc)
    requires Given(s, a, c, v) && a != c && a != v && x in s.cells && x != c && Resolves(s, a, c) && !s.cells[c].VRef?
    requires Holds(s.cells[x]) && x != v ==> TreeOf(s, v).Node?
    ensures OmniPut(s, SCell(c), SCell(a), SCell(v)).Some?
    ensures var s1 := OmniPut(s, SCell(c), SCell(a), SCell(v)).value;
            var s2 := OmniDupe(s1, SCell(x), SCell(c), SCell(a));
            && s2.Some? && Owned(s1) && Owned(s2.value)
            && s1.cells.Keys == s.cells.Keys && s2.value.cells.Keys == s.cells.Keys
            && Strip(TreeOf(s2.value, x)) == Strip(TreeOf(s, v))
            && (a != x ==> TreeOf(s2.value, c) == TreeOf(s1, c))
  {
    hide ForestBy, OmniPut, OmniDupe;
    PutLaw(s, a, c, v);
    var s1 := OmniPut(s, SCell(c), SCell(a), SCell(v)).value;
    GetPut(TreeOf(s, c), KeysIn(TreeOf(s, a)).value, TreeOf(s, v));
    RootOfTree(s1, x);
    RootOfTree(s1, c);
    RootOfTree(s, c);
    RootOfTree(s, x);
    DupeLaw(s1, a, c, x);
  }

  lemma RootOfTree(s: Store, l: Loc)
    requires Owned(s) && l in s.cells
    ensures Root(TreeOf(s, l)) == s.cells[l] && (TreeOf(s, l).Node? <==> Holds(s.cells[l]))
  {
    TreesAre(s, ForestOf(s));
    OneTree(s, ForestOf(s), l);
  }

  /** Duplicating a plain value over a variable that holds a container forgets the container: nothing
      owns it afterwards, and it is not destroyed.  In every other case ownership is kept. */
  lemma DupeKeepsOwnershipIff(s: Store, a: Loc, c: Loc, x: Loc)
    requires Owned(s) && a in s.cells && c in s.cells && x in s.cells && x != c && !s.cells[c].VRef?
    requires Resolves(s, a, c)
    ensures OmniDupe(s, SCell(x), SCell(c), SCell(a)).Some?
    ensures Owned(OmniDupe(s, SCell(x), SCell(c), SCell(a)).value)
       <==> !(Holds(s.cells[x]) && At(s, a, c).Leaf?)
  {
    hide ForestBy, CopyValue, Rep, Ids;
    FindIff(s, a, c);
    if Holds(s.cells[x]) && At(s, a, c).Leaf? {
      var F := ForestOf(s);
      TreesAre(s, F);
      var keys := KeysIn(F[a]).value;
      var b := Reach(s, SCell(c), keys).value;
      ReachTree(s, F, SCell(c), c, keys);
      SlotFacts(s, F, b, c);
      HoldsIff(s.heap, Get(s, b), TreeAt(s, F, b, c));
      SlotsApart(s, F, SCell(x), x, b, c) by { VariableSlot(s, b, c); }
      AtomCopied(s, x, b);
      Forgotten(s, F, CopyValue(s, SCell(x), b), x, Get(s, b));
    } else {
      DupeLaw(s, a, c, x);
    }
  }

  lemma AtomCopied(s: Store, x: Loc, b: Slot)
    requires x in s.cells && SCell(x) != b && !Holds(Get(s, b))
    ensures CopyValue(s, SCell(x), b) == s.(cells := s.cells[x := Get(s, b)])
  {
  }

  /** A container whose only cell is overwritten has no owner. */
  lemma Forgotten(s: Store, F: Forest, r: Store, x: Loc, v: Value)
    requires ForestBy(s, F) && x in F && Holds(s.cells[x]) && !Holds(v)
    requires r == s.(cells := s.cells[x := v])
    ensures !Owned(r)
  {
    hide ForestBy, Rep, Ids;
    Basics(s, F);
    if Owned(r) {
      var G, id := ForestOf(r), s.cells[x].id;
      OneTree(s, F, x);
      ContainerTree(s.heap, s.cells[x], F[x]);
      var l := OwnerIn(r, G, id);
      OneTree(r, G, l);
      if l == x {
        RepIsLeaf(r.heap, v, G[x]);
      } else {
        assert l in s.cells && l in F by { Basics(s, F); Basics(r, G); }
        OneTree(s, F, l);
        RepUnique(s.heap, s.cells[l], F[l], G[l]);
        TwoTrees(s, F, l, x);
      }
    }
  }

  lemma OwnerIn(s: Store, F: Forest, id: Id) returns (l: Loc)
    requires ForestBy(s, F) && id in s.heap
    ensures l in F && id in Ids(F[l])
  {
    assert id in Held(F, F.Keys);
    l :| l in F && id in Ids(F[l]);
  }

  // ---------------------------------------------------------------- as steps of a run

  /** A variable that a table or the C caller knows, which is no reference. */
  predicate Proper(s: Store, l: Loc) { l in s.cells && l in Locs(s.tables) + s.ext && !s.cells[l].VRef? }

  lemma ScopesAside(s: Store, to: Slot, from: Slot)
    ensures SameScope(s, MoveValue(s, to, from)) && SameScope(s, CopyValue(s, to, from))
  {
    hide Fin, Copy, Get, Holds;
  }

  /** A store that differs from s in the trees of variables that are no references, before or after. */
  lemma StillFine(s: Store, r: Store, changed: set<Loc>)
    requires Fine(s) && Owned(r) && SameScope(s, r) && r.cells.Keys == s.cells.Keys
    requires forall l | l in changed && l in s.cells :: !s.cells[l].VRef? && !r.cells[l].VRef?
    requires forall l | l in s.cells && l !in changed :: TreeOf(r, l) == TreeOf(s, l)
    ensures Fine(r)
  {
    hide ForestBy, Scoped, Locs, Owned;
    forall l | l in s.cells && l !in changed ensures r.cells[l] == s.cells[l] {
      RootOfTree(s, l);
      RootOfTree(r, l);
    }
    ScopeFrame(s, r);
  }

  /** Writing inside a container leaves the container itself where it is. */
  lemma PutRoot(t: Tree, keys: seq<Value>, u: Tree)
    requires TreeGet(t, keys).Some? && keys != []
    ensures Root(TreePut(t, keys, u)) == Root(t)
  {
  }

  /** put on variables of a run leaves a store in good order. */
  lemma PutFinely(s: Store, a: Loc, c: Loc, v: Loc)
    requires Fine(s) && Given(s, a, c, v) && Proper(s, c) && Proper(s, v) && Resolves(s, a, c)
    ensures OmniPut(s, SCell(c), SCell(a), SCell(v)).Some?
    ensures Fine(OmniPut(s, SCell(c), SCell(a), SCell(v)).value)
  {
    hide ForestBy, MoveValue, TreePut, TreeGet, ScopeOk, Owned;
    PutLaw(s, a, c, v);
    FindIff(s, a, c);
    var r := OmniPut(s, SCell(c), SCell(a), SCell(v)).value;
    ScopesAside(s, Find(s, SCell(c), SCell(a)).value, SCell(v));
    PutRoot(TreeOf(s, c), KeysIn(TreeOf(s, a)).value, TreeOf(s, v));
    RootOfTree(s, c);
    RootOfTree(r, c);
    RootOfTree(r, v);
    StillFine(s, r, {c, v});
  }

  /** So does take. */
  lemma TakeFinely(s: Store, a: Loc, c: Loc, x: Loc)
    requires Fine(s) && a in s.cells && c != x && Proper(s, c) && Proper(s, x) && Resolves(s, a, c)
    ensures OmniTake(s, SCell(x), SCell(c), SCell(a)).Some?
    ensures Fine(OmniTake(s, SCell(x), SCell(c), SCell(a)).value)
  {
    hide ForestBy, MoveValue, TreePut, TreeGet, ScopeOk, Owned, Sound;
    TakeLaw(s, a, c, x);
    FindIff(s, a, c);
    var r, keys := OmniTake(s, SCell(x), SCell(c), SCell(a)).value, KeysIn(TreeOf(s, a)).value;
    ScopesAside(s, SCell(x), Find(s, SCell(c), SCell(a)).value);
    PutRoot(TreeOf(s, c), keys, Leaf(VNone));
    TreesAre(s, ForestOf(s)) by { OwnedForest(s); }
    OneTree(s, ForestOf(s), c) by { OwnedForest(s); }
    InsideNoReference(TreeOf(s, c), keys);
    RootOfTree(s, c);
    RootOfTree(r, c);
    RootOfTree(r, x);
    StillFine(s, r, {c, x});
  }

  lemma OwnedForest(s: Store)
    requires Owned(s)
    ensures ForestBy(s, ForestOf(s))
  {
  }

  lemma StripKind(t: Tree, u: Tree)
    requires Strip(t) == Strip(u)
    ensures Root(t).VRef? == Root(u).VRef?
  {
  }

  /** And so does dupe, when it forgets nothing. */
  lemma DupeFinely(s: Store, a: Loc, c: Loc, x: Loc)
    requires Fine(s) && a in s.cells && x != c && Proper(s, c) && Proper(s, x) && Resolves(s, a, c)
    requires Holds(s.cells[x]) ==> At(s, a, c).Node?
    ensures OmniDupe(s, SCell(x), SCell(c), SCell(a)).Some?
    ensures Fine(OmniDupe(s, SCell(x), SCell(c), SCell(a)).value)
  {
    hide ForestBy, CopyValue, TreePut, TreeGet, ScopeOk, Owned, Sound, Strip;
    DupeLaw(s, a, c, x);
    FindIff(s, a, c);
    var r, keys := OmniDupe(s, SCell(x), SCell(c), SCell(a)).value, KeysIn(TreeOf(s, a)).value;
    ScopesAside(s, SCell(x), Find(s, SCell(c), SCell(a)).value);
    TreesAre(s, ForestOf(s)) by { OwnedForest(s); }
    OneTree(s, ForestOf(s), c) by { OwnedForest(s); }
    InsideNoReference(TreeOf(s, c), keys);
    StripKind(TreeOf(r, x), At(s, a, c));
    RootOfTree(r, x);
    StillFine(s, r, {x});
  }

  // ---------------------------------------------------------------- a container forgotten

  /** Nothing yet. */
  function Bare(): (s: Store) { Store([], map[], map[], 0, [], {}) }

  lemma BareOwned()
    ensures ForestBy(Bare(), map[])
  {
  }

  /** A store in which c holds a map with the number 3 under symbol 1, a the symbol, and x another map,
      which is empty. */
  lemma TwoMaps() returns (s: Store, F: Forest, c: Loc, a: Loc, x: Loc)
    ensures ForestBy(s, F) && a in F && c in F && x in F && a != c && x != c
    ensures F[c].Node? && F[c].isMap && F[c].keys == [1] && F[c].kids == [Leaf(VInt(3))]
    ensures F[a] == Leaf(VSym(1)) && F[x].Node? && F[x].isMap && F[x].kids == []
  {
    hide ForestBy, Graft, Sub, Ids;
    BareOwned();
    var F0: Forest := map[];
    c := Bare().next;
    var id := c + 1;
    var s1, F1 := NewBox(Bare(), true).0, F0[c := Node(id, true, [], [])];
    NewBoxKeeps(Bare(), F0, true);
    Basics(s1, F1);
    var s2, t, F2 := Fresh(s1, VInt(3)).0, s1.next, F1[s1.next := Leaf(VInt(3))];
    FreshKeeps(s1, F1, VInt(3));
    OneEntry(id, Leaf(VInt(3)));
    var s3, F3 := AddKid(s2, id, 1, t), AddForest(F2, id, c, 1, t);
    AddKidFacts(s2, id, 1, t) by { HeldAll(s2, F2, c) by { ForestParts(s2, F2); } }
    AddKidKeeps(s2, F2, id, c, 1, t);
    a := s3.next;
    var s4, F4 := Fresh(s3, VSym(1)).0, F3[a := Leaf(VSym(1))];
    FreshKeeps(s3, F3, VSym(1));
    x := s4.next;
    NewBoxKeeps(s4, F4, true);
    s, F := NewBox(s4, true).0, F4[x := Node(x + 1, true, [], [])];
  }

  lemma ForestParts(s: Store, F: Forest)
    requires ForestBy(s, F)
    ensures Represents(s, F)
  {
  }

  /** An empty map gains its first entry. */
  lemma OneEntry(id: Id, u: Tree)
    ensures var t := Node(id, true, [], []);
            && id in Ids(t) && Sub(t, id) == t
            && Graft(t, id, GrownNode(Sub(t, id), 1, u)) == Node(id, true, [1], [u])
  {
    assert GrownNode(Node(id, true, [], []), 1, u) == Node(id, true, [1], [u]);
  }

  /** The path 1 into such a map leads to the number. */
  lemma PathToNumber(t: Tree, a: Tree)
    requires t.Node? && t.isMap && t.keys == [1] && t.kids == [Leaf(VInt(3))] && a == Leaf(VSym(1))
    ensures KeysIn(a) == Some([VSym(1)]) && TreeGet(t, [VSym(1)]) == Some(Leaf(VInt(3)))
  {
    assert Index(t, VSym(1)) == Some(0);
    assert [VSym(1)][1..] == [];
    assert TreeGet(t.kids[0], []) == Some(t.kids[0]);
  }

  /** Duplicating the number over the empty map forgets the map: it is still there, nothing owns it,
      and it was not destroyed. */
  lemma DupeForgets() returns (s: Store, c: Loc, a: Loc, x: Loc)
    ensures Owned(s) && a in s.cells && c in s.cells && x in s.cells && s.cells[x].VMap?
    ensures var r := OmniDupe(s, SCell(x), SCell(c), SCell(a));
            && r.Some? && r.value.cells == s.cells[x := VInt(3)] && !Owned(r.value)
            && s.cells[x].id in r.value.heap && r.value.freed == s.freed
  {
    hide ForestBy, TreeGet, CopyValue, Rep, Reach, Strip;
    var F: Forest;
    s, F, c, a, x := TwoMaps();
    TreesAre(s, F);
    RootOfTree(s, x);
    RootOfTree(s, c);
    PathToNumber(F[c], F[a]);
    DupeKeepsOwnershipIff(s, a, c, x);
    FindIff(s, a, c);
    var b := Find(s, SCell(c), SCell(a)).value;
    ReachTree(s, F, SCell(c), c, [VSym(1)]);
    SlotFacts(s, F, b, c);
    SlotsApart(s, F, SCell(x), x, b, c);
    AtomCopied(s, x, b);
    ContainerTree(s.heap, s.cells[x], F[x]) by { OneTree(s, F, x); }
  }
}
