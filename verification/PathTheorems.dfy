/** The laws of access paths: what put, take and dupe do to the values at every path. */
module PathTheorems {
  import opened Wrappers
  import opened Heap
  import opened Store
  import opened Ownership
  import opened OwnershipSlots
  import opened Discipline
  import opened RunTheorems
  import opened Paths

  // ---------------------------------------------------------------- slots and trees

  /** The tree of a container inside F[l] is found by its id. */
  lemma SubIs(s: Store, F: Forest, at: Slot, l: Loc)
    requires ForestBy(s, F) && SlotIn(s, F, at, l) && Holds(Get(s, at))
    ensures var t := TreeAt(s, F, at, l);
            t.Node? && t.id == Get(s, at).id && t.id in Ids(F[l]) && Sub(F[l], t.id) == t
            && t.id in s.heap && |s.heap[t.id].vals| == |t.kids| && s.heap[t.id].keys == t.keys
  {
    var t := TreeAt(s, F, at, l);
    SlotFacts(s, F, at, l);
    OneTree(s, F, l);
    NodeIn(t);
    SubFacts(s.heap, s.cells[l], F[l], t.id);
    SameKind(s.heap, t, Sub(F[l], t.id));
    RepUnique(s.heap, Root(t), t, Sub(F[l], t.id));
  }

  lemma NodeIn(t: Tree)
    ensures t.Node? ==> t.id in Ids(t)
  {
  }

  /** One step in the store is one step in the tree. */
  ghost predicate StepsTo(s: Store, F: Forest, l: Loc, t: Tree, i: Option<nat>, b: Option<Slot>)
    requires ForestBy(s, F)
  {
    if i.None? then b.None?
    else
      && t.Node? && i.value < |t.kids| && b == Some(SKid(t.id, i.value))
      && SlotIn(s, F, b.value, l) && TreeAt(s, F, b.value, l) == t.kids[i.value]
  }

  lemma StepTree(s: Store, F: Forest, at: Slot, l: Loc, key: Value)
    requires ForestBy(s, F) && SlotIn(s, F, at, l)
    ensures StepsTo(s, F, l, TreeAt(s, F, at, l), Index(TreeAt(s, F, at, l), key), Paths.Step(s, at, key))
  {
    hide ForestBy, Sound, Ids;
    var t := TreeAt(s, F, at, l);
    SlotFacts(s, F, at, l);
    if Holds(Get(s, at)) {
      SubIs(s, F, at, l);
      MapKeys(s.heap, Get(s, at), t);
      if Index(t, key).Some? {
        SlotFacts(s, F, SKid(t.id, Index(t, key).value), l);
      }
    } else {
      LeafAt(s.heap, Get(s, at), t);
    }
  }

  lemma MapKeys(h: Heap, v: Value, t: Tree)
    requires Rep(h, v, t) && Holds(v)
    ensures t.Node? && t.isMap == v.VMap? && |t.keys| == (if t.isMap then |t.kids| else 0)
  {
  }

  lemma LeafAt(h: Heap, v: Value, t: Tree)
    requires Rep(h, v, t) && !Holds(v)
    ensures t == Leaf(v)
  {
  }

  /** A path reaches a slot exactly when it does in the tree, and the slot holds the tree found. */
  ghost predicate ReachesTree(s: Store, F: Forest, at: Slot, l: Loc, keys: seq<Value>)
    requires ForestBy(s, F) && SlotIn(s, F, at, l)
  {
    match Reach(s, at, keys)
    case None => TreeGet(TreeAt(s, F, at, l), keys).None?
    case Some(b) =>
      && SlotIn(s, F, b, l)
      && TreeGet(TreeAt(s, F, at, l), keys) == Some(TreeAt(s, F, b, l))
      && (keys == [] ==> b == at)
      && (keys != [] ==> EndsAt(TreeAt(s, F, at, l), keys, b))
  }

  /** The last step of the path goes from the container of slot b to its entry b. */
  ghost predicate EndsAt(t: Tree, keys: seq<Value>, b: Slot)
    requires keys != []
  {
    var n := |keys| - 1;
    && b.SKid? && TreeGet(t, keys[..n]).Some?
    && var u := TreeGet(t, keys[..n]).value;
       u.Node? && b.id == u.id && Index(u, keys[n]) == Some(b.idx)
  }

  lemma {:induction false} ReachTree(s: Store, F: Forest, at: Slot, l: Loc, keys: seq<Value>)
    requires ForestBy(s, F) && SlotIn(s, F, at, l)
    ensures ReachesTree(s, F, at, l, keys)
    decreases |keys|
  {
    if keys == [] {
    } else {
      var t := TreeAt(s, F, at, l);
      StepTree(s, F, at, l, keys[0]);
      if Paths.Step(s, at, keys[0]).Some? {
        var b := Paths.Step(s, at, keys[0]).value;
        ReachTree(s, F, b, l, keys[1..]);
        if Reach(s, b, keys[1..]).Some? { EndsLater(t, keys, b.idx, Reach(s, b, keys[1..]).value); }
      }
    }
  }

  lemma EndsLater(t: Tree, keys: seq<Value>, i: nat, b: Slot)
    requires keys != [] && Index(t, keys[0]) == Some(i)
    requires keys[1..] == [] ==> b == SKid(t.id, i)
    requires keys[1..] != [] ==> EndsAt(t.kids[i], keys[1..], b)
    ensures EndsAt(t, keys, b)
  {
    var n := |keys| - 1;
    if n > 0 {
      assert keys[..n][1..] == keys[1..][..n - 1];
    }
  }

  // ---------------------------------------------------------------- writing at a path

  /** Replacing an entry of the container a path goes through is writing at the path. */
  lemma {:induction false} GraftPath(t: Tree, keys: seq<Value>, b: Slot, u: Tree)
    requires Sound(t) && keys != [] && EndsAt(t, keys, b) && TreeGet(t, keys).Some?
    ensures b.id in Ids(t) && b.idx < |Sub(t, b.id).kids|
    ensures var n := Sub(t, b.id);
            Graft(t, b.id, n.(kids := n.kids[b.idx := u])) == TreePut(t, keys, u)
    decreases |keys|
  {
    var n := |keys| - 1;
    var i := Index(t, keys[0]).value;
    if n == 0 {
      assert TreeGet(t, keys[..0]) == Some(t);
      assert TreePut(t.kids[i], keys[1..], u) == u;
    } else {
      assert keys[..n][0] == keys[0] && keys[..n][1..] == keys[1..][..n - 1];
      GraftPath(t.kids[i], keys[1..], b, u);
      KidIds(t, i);
      SoundKids(t);
      assert KidWith(t, b.id) == i by { OnlyKid(t, b.id, i); }
    }
  }

  lemma OnlyKid(t: Tree, id: Id, i: nat)
    requires t.Node? && Sound(t) && i < |t.kids| && id in Ids(t.kids[i])
    ensures id in Ids(t) && t.id != id && KidWith(t, id) == i
  {
    KidIds(t, i);
  }

  lemma PutTreeIs(s: Store, F: Forest, c: Loc, keys: seq<Value>, b: Slot, u: Tree)
    requires ForestBy(s, F) && c in F && Reach(s, SCell(c), keys) == Some(b)
    ensures SlotIn(s, F, b, c) && TreeGet(F[c], keys) == Some(TreeAt(s, F, b, c))
    ensures PutTree(s, F, b, c, u) == TreePut(F[c], keys, u)
  {
    ReachTree(s, F, SCell(c), c, keys);
    OneTree(s, F, c);
    if keys != [] { GraftPath(F[c], keys, b, u); }
  }

  // ---------------------------------------------------------------- moving and copying

  /** The slots belong to different variables, and what is to be moved or copied is no reference. */
  ghost predicate Separate(s: Store, F: Forest, to: Slot, lt: Loc, from: Slot, lf: Loc) {
    && ForestBy(s, F) && SlotIn(s, F, to, lt) && SlotIn(s, F, from, lf) && lt != lf
    && !Get(s, from).VRef?
  }

  /** Destroying what is at one slot does nothing to the other. */
  lemma ClearApart(s: Store, F: Forest, to: Slot, lt: Loc, from: Slot, lf: Loc)
    requires Separate(s, F, to, lt, from, lf)
    ensures var s1, F1 := Clear(s, to), ClearForest(s, F, to, lt);
            && Separate(s1, F1, to, lt, from, lf) && F1[lf] == F[lf]
            && Get(s1, from) == Get(s, from) && TreeAt(s1, F1, from, lf) == TreeAt(s, F, from, lf)
            && Get(s1, to) == VNone && Ids(TreeAt(s1, F1, to, lt)) == {}
  {
    hide ForestBy, Rep, Sound, Ids, PutTree, Clear, HeapPatched, Logged;
    var s1, F1 := Clear(s, to), ClearForest(s, F, to, lt);
    ClearWrites(s, F, to, lt);
    ClearKeeps(s, F, to, lt);
    ClearSlot(s, F, to, lt);
    TwoTrees(s, F, lt, lf);
    OneTree(s, F, lf);
    SlotFacts(s, F, from, lf);
    SlotFacts(s1, F1, to, lt);
    RepIsLeaf(s1.heap, VNone, TreeAt(s1, F1, to, lt));
    assert HeapSame(s, s1, F[lt], F[lf]) by {
      PatchedSame(s, s1, Ids(F[lt]), Ids(F[lt]) - Ids(TreeAt(s, F, to, lt)), F[lt], F[lf]);
    }
  }

  ghost predicate HeapSame(s: Store, r: Store, t: Tree, u: Tree) {
    forall x | x in Ids(u) && x in s.heap :: x in r.heap && r.heap[x] == s.heap[x]
  }

  lemma PatchedSame(s: Store, r: Store, was: set<Id>, now: set<Id>, t: Tree, u: Tree)
    requires HeapPatched(s, r, was, now) && Ids(t) !! Ids(u) && was == Ids(t)
    ensures HeapSame(s, r, t, u)
  {
  }

  ghost function MoveForest(F: Forest, lt: Loc, t: Tree, lf: Loc, u: Tree): (G: Forest) { F[lt := t][lf := u] }

  lemma SwapWrites(s: Store, F: Forest, to: Slot, lt: Loc, from: Slot, lf: Loc)
    requires Separate(s, F, to, lt, from, lf) && Get(s, to) == VNone && Ids(TreeAt(s, F, to, lt)) == {}
    ensures var r, u := SetRaw(SetRaw(s, to, Get(s, from)), from, VNone), TreeAt(s, F, from, lf);
            && Wrote(s, F, to, lt, u, r.heap) && Wrote(s, F, from, lf, Leaf(VNone), r.heap)
            && r.next == s.next && r.freed == s.freed
            && r.cells == s.cells[lt := if to.SCell? then Get(s, from) else s.cells[lt]]
                                 [lf := if from.SCell? then VNone else s.cells[lf]]
            && HeapPatched(s, r, Ids(F[lt]) + Ids(F[lf]), Ids(F[lt]) + Ids(F[lf]))
  {
    hide ForestBy, Rep, Sound, Ids, PutTree, TreeAt, HeapPatched, SetRaw, Get;
    var v := Get(s, from);
    var s1 := SetRaw(s, to, v);
    var r := SetRaw(s1, from, VNone);
    Basics(s, F);
    TwoTrees(s, F, lt, lf);
    OneTree(s, F, lt);
    OneTree(s, F, lf);
    SlotFacts(s, F, to, lt);
    SlotFacts(s, F, from, lf);
    RawWrites(s, to, v);
    RawWrites(s1, from, VNone);
    AtomTree(r.heap, VNone);
    RepFrame(s.heap, r.heap, v, TreeAt(s, F, from, lf));
    SamePatched(s, r, Ids(F[lt]) + Ids(F[lf]), Ids(F[lt]) + Ids(F[lf]));
  }

  lemma SwapKeeps(s: Store, F: Forest, to: Slot, lt: Loc, from: Slot, lf: Loc)
    requires Separate(s, F, to, lt, from, lf) && Get(s, to) == VNone && Ids(TreeAt(s, F, to, lt)) == {}
    ensures var r, u := SetRaw(SetRaw(s, to, Get(s, from)), from, VNone), TreeAt(s, F, from, lf);
            ForestBy(r, MoveForest(F, lt, PutTree(s, F, to, lt, u), lf, PutTree(s, F, from, lf, Leaf(VNone))))
  {
    hide ForestBy, Rep, Sound, Ids, PutTree, TreeAt, HeapPatched, SetRaw, Get, Wrote;
    var r, u := SetRaw(SetRaw(s, to, Get(s, from)), from, VNone), TreeAt(s, F, from, lf);
    Basics(s, F);
    SwapWrites(s, F, to, lt, from, lf);
    SlotFacts(s, F, to, lt);
    SlotFacts(s, F, from, lf);
    TwoTrees(s, F, lt, lf);
    AtomTree(r.heap, VNone);
    SwapFits(s, F, to, lt, from, lf);
    PutTreeFits(s, F, to, lt, u);
    PutTreeFits(s, F, from, lf, Leaf(VNone));
    PutTreeRep(s, F, to, lt, u, r.heap);
    PutTreeRep(s, F, from, lf, Leaf(VNone), r.heap);
    SwapSets(Ids(F[lt]), Ids(F[lf]), Ids(u));
    PatchPair(s, F, r, lt, PutTree(s, F, to, lt, u), lf, PutTree(s, F, from, lf, Leaf(VNone)));
  }

  lemma SwapFits(s: Store, F: Forest, to: Slot, lt: Loc, from: Slot, lf: Loc)
    requires Separate(s, F, to, lt, from, lf)
    ensures Fits(s, F, to, lt, TreeAt(s, F, from, lf)) && Fits(s, F, from, lf, Leaf(VNone))
  {
    hide ForestBy, Sound, Ids, PutTree, TreeAt, Get;
    SlotFacts(s, F, from, lf);
    TwoTrees(s, F, lt, lf);
    AtomTree(s.heap, VNone);
  }

  lemma SwapSets(a: set<Id>, b: set<Id>, u: set<Id>)
    requires u <= b && a !! b
    ensures ((a - {}) + u) + ((b - u) + {}) == a + b && (a - {}) + u !! (b - u) + {}
  {
  }

  /** Moving a value between variables, or their entries: the tree is cut from one and set into the
      other, and what was there is destroyed. */
  lemma MoveKeeps(s: Store, F: Forest, to: Slot, lt: Loc, from: Slot, lf: Loc)
    requires Separate(s, F, to, lt, from, lf)
    ensures var s1, F1 := Clear(s, to), ClearForest(s, F, to, lt);
            && ForestBy(s1, F1) && SlotIn(s1, F1, to, lt) && SlotIn(s1, F1, from, lf)
            && ForestBy(MoveValue(s, to, from),
                 MoveForest(F1, lt, PutTree(s1, F1, to, lt, TreeAt(s, F, from, lf)),
                            lf, PutTree(s1, F1, from, lf, Leaf(VNone))))
  {
    hide ForestBy, PutTree, TreeAt, SetRaw, Get;
    ClearApart(s, F, to, lt, from, lf);
    SwapKeeps(Clear(s, to), ClearForest(s, F, to, lt), to, lt, from, lf);
    SlotsApart(s, F, to, lt, from, lf);
  }

  lemma SlotsApart(s: Store, F: Forest, to: Slot, lt: Loc, from: Slot, lf: Loc)
    requires Separate(s, F, to, lt, from, lf)
    ensures to != from
  {
    TwoTrees(s, F, lt, lf);
  }

  /** Writing at the end of a path leaves the path where it was. */
  lemma {:induction false} EndsSame(t: Tree, keys: seq<Value>, b: Slot, u: Tree)
    requires keys != [] && TreeGet(t, keys).Some? && EndsAt(t, keys, b)
    ensures EndsAt(TreePut(t, keys, u), keys, b)
    decreases |keys|
  {
    var n := |keys| - 1;
    var i := Index(t, keys[0]).value;
    var p := TreePut(t, keys, u);
    if n == 0 {
      assert TreeGet(t, keys[..0]) == Some(t) && TreeGet(p, keys[..0]) == Some(p);
    } else {
      assert keys[..n][0] == keys[0] && keys[..n][1..] == keys[1..][..n - 1];
      EndsSame(t.kids[i], keys[1..], b, u);
      assert p.kids[i] == TreePut(t.kids[i], keys[1..], u);
      assert Index(p, keys[0]) == Some(i);
      EndsLater(p, keys, i, b);
    }
  }

  lemma EndsUnique(t: Tree, keys: seq<Value>, a: Slot, b: Slot)
    requires keys != [] && EndsAt(t, keys, a) && EndsAt(t, keys, b)
    ensures a == b
  {
  }

  /** The cleared path still leads to the same slot. */
  lemma ReachCleared(s: Store, F: Forest, c: Loc, keys: seq<Value>, b: Slot)
    requires ForestBy(s, F) && c in F && keys != [] && Reach(s, SCell(c), keys) == Some(b)
    ensures SlotIn(s, F, b, c) && TreeGet(F[c], keys).Some?
    ensures var s1, F1 := Clear(s, b), ClearForest(s, F, b, c);
            && ForestBy(s1, F1) && F1[c] == TreePut(F[c], keys, Leaf(VNone))
            && Reach(s1, SCell(c), keys) == Some(b)
  {
    hide ForestBy, PutTree, Clear;
    var u := Leaf(VNone);
    PutTreeIs(s, F, c, keys, b, u);
    ReachTree(s, F, SCell(c), c, keys);
    ClearKeeps(s, F, b, c);
    var s1, F1 := Clear(s, b), ClearForest(s, F, b, c);
    PutPut(F[c], keys, u, u);
    ReachTree(s1, F1, SCell(c), c, keys);
    EndsSame(F[c], keys, b, u);
    EndsUnique(F1[c], keys, b, Reach(s1, SCell(c), keys).value);
  }

  /** Put: the tree of the value is set at the path, and its variable is left with none. */
  lemma PutForest(s: Store, F: Forest, c: Loc, keys: seq<Value>, b: Slot, v: Loc)
    requires ForestBy(s, F) && c in F && v in F && c != v && !s.cells[v].VRef?
    requires keys != [] && Reach(s, SCell(c), keys) == Some(b)
    ensures TreeGet(F[c], keys).Some?
    ensures ForestBy(MoveValue(s, b, SCell(v)), MoveForest(F, c, TreePut(F[c], keys, F[v]), v, Leaf(VNone)))
  {
    hide ForestBy, MoveValue, Clear, Reach;
    PutTreeIs(s, F, c, keys, b, F[v]);
    ReachCleared(s, F, c, keys, b);
    MoveKeeps(s, F, b, c, SCell(v), v);
    var s1, F1 := Clear(s, b), ClearForest(s, F, b, c);
    PutTreeIs(s1, F1, c, keys, b, F[v]);
    PutPut(F[c], keys, Leaf(VNone), F[v]);
    var G := MoveForest(F, c, TreePut(F[c], keys, F[v]), v, Leaf(VNone));
    assert MoveForest(F1, c, PutTree(s1, F1, b, c, F[v]), v, Leaf(VNone)) == G;
  }

  lemma PutVariable(s: Store, F: Forest, x: Loc, u: Tree)
    requires ForestBy(s, F) && x in F
    ensures PutTree(s, F, SCell(x), x, u) == u
  {
  }

  /** Take: the tree at the path is cut out and becomes the variable's. */
  lemma TakeForestAt(s: Store, F: Forest, c: Loc, keys: seq<Value>, b: Slot, x: Loc)
    requires ForestBy(s, F) && c in F && x in F && c != x
    requires keys != [] && Reach(s, SCell(c), keys) == Some(b)
    ensures TreeGet(F[c], keys).Some?
    ensures ForestBy(MoveValue(s, SCell(x), b),
                     MoveForest(F, x, TreeGet(F[c], keys).value, c, TreePut(F[c], keys, Leaf(VNone))))
  {
    hide ForestBy, MoveValue, Clear, Reach;
    PutTreeIs(s, F, c, keys, b, Leaf(VNone));
    ReachTree(s, F, SCell(c), c, keys);
    SlotFacts(s, F, b, c);
    MoveKeeps(s, F, SCell(x), x, b, c);
    var s1, F1 := Clear(s, SCell(x)), ClearForest(s, F, SCell(x), x);
    ClearApart(s, F, SCell(x), x, b, c);
    ReachTree(s1, F1, SCell(c), c, keys);
    EndsUnique(F[c], keys, b, Reach(s1, SCell(c), keys).value);
    PutTreeIs(s1, F1, c, keys, b, Leaf(VNone));
    var u, cut := TreeGet(F[c], keys).value, TreePut(F[c], keys, Leaf(VNone));
    assert F1[x := u][c := cut] == F[x := u][c := cut];
    assert PutTree(s1, F1, SCell(x), x, u) == u by { PutVariable(s1, F1, x, u); }
  }

  // ---------------------------------------------------------------- what a move does to slots

  /** The target has the source's value, the source has none, and every other slot that was there is
      as it was, unless it was in what the target held. */
  ghost predicate Moved(s: Store, r: Store, to: Slot, from: Slot, gone: set<Id>) {
    && Get(r, to) == Get(s, from) && Get(r, from) == VNone
    && r.cells.Keys == s.cells.Keys && r.heap.Keys == s.heap.Keys - gone
    && forall b | Live(s, b) && b != to && b != from && (b.SKid? ==> b.id !in gone) :: Get(r, b) == Get(s, b)
  }

  /** Clearing changes nothing but the slot and what it held. */
  lemma ClearEffect(s: Store, F: Forest, to: Slot, lt: Loc)
    requires ForestBy(s, F) && SlotIn(s, F, to, lt)
    ensures var r, gone := Clear(s, to), Ids(TreeAt(s, F, to, lt));
            && Get(r, to) == VNone && r.cells.Keys == s.cells.Keys && r.heap.Keys == s.heap.Keys - gone
            && (forall b | Live(s, b) && b != to && (b.SKid? ==> b.id !in gone) :: Get(r, b) == Get(s, b) && Live(r, b))
            && (to.SKid? ==> to.id !in gone) && Live(r, to)
  {
    hide ForestBy, Rep, Sound, Ids, Fin, SetRaw, TreeAt;
    SlotFacts(s, F, to, lt);
    Basics(s, F);
    FinTree(s.heap, Get(s, to), TreeAt(s, F, to, lt));
    RawWrites(Finalise(s, Get(s, to)), to, VNone);
  }

  lemma RawEffect(s: Store, to: Slot, v: Value)
    requires Live(s, to)
    ensures var r := SetRaw(s, to, v);
            && Get(r, to) == v && Live(r, to) && r.cells.Keys == s.cells.Keys && r.heap.Keys == s.heap.Keys
            && forall b | Live(s, b) && b != to :: Get(r, b) == Get(s, b) && Live(r, b)
  {
  }

  /** Moving between slots of different variables. */
  lemma MoveEffect(s: Store, F: Forest, to: Slot, lt: Loc, from: Slot, lf: Loc)
    requires Separate(s, F, to, lt, from, lf)
    ensures Moved(s, MoveValue(s, to, from), to, from, Ids(TreeAt(s, F, to, lt)))
  {
    hide ForestBy, Ids, Clear, SetRaw, TreeAt, Get, Live;
    SlotsApart(s, F, to, lt, from, lf);
    ClearEffect(s, F, to, lt);
    SourceStays(s, F, to, lt, from, lf);
    var s1 := Clear(s, to);
    RawEffect(s1, to, Get(s1, from));
    var s2 := SetRaw(s1, to, Get(s1, from));
    RawEffect(s2, from, VNone);
  }

  lemma SourceStays(s: Store, F: Forest, to: Slot, lt: Loc, from: Slot, lf: Loc)
    requires Separate(s, F, to, lt, from, lf)
    ensures Live(s, from) && (from.SKid? ==> from.id !in Ids(TreeAt(s, F, to, lt)))
  {
    hide ForestBy, Ids, TreeAt;
    Basics(s, F);
    SlotFacts(s, F, to, lt);
    TwoTrees(s, F, lt, lf);
  }
}
