/** Who owns what.  A forest gives every cell the tree it holds; the trees are finite, share no
    container, and between them hold every container there is. */
module Ownership {
  import opened Heap
  import opened Store

  type Forest = map<Loc, Tree>

  /** The containers in the trees of the cells `at`. */
  ghost function Held(F: Forest, at: set<Loc>): (r: set<Id>) {
    set l, x | l in at && l in F && x in Ids(F[l]) :: x
  }

  ghost predicate Apart(F: Forest) {
    forall l, m | l in F && m in F && l != m :: Ids(F[l]) !! Ids(F[m])
  }

  ghost predicate Represents(s: Store, F: Forest) {
    && F.Keys == s.cells.Keys
    && forall l | l in F :: Rep(s.heap, s.cells[l], F[l]) && Sound(F[l])
  }

  ghost predicate Named(s: Store) {
    && (forall l | l in s.cells :: l < s.next)
    && (forall x | x in s.heap :: x < s.next)
  }

  /** No container was destroyed twice, and none that was is still there. */
  ghost predicate FreedOnce(s: Store) {
    && NoDup(s.freed)
    && forall x | x in s.freed :: x < s.next && x !in s.heap
  }

  ghost predicate ForestBy(s: Store, F: Forest) {
    && Represents(s, F) && Apart(F)
    && s.heap.Keys == Held(F, F.Keys)
    && Named(s) && FreedOnce(s)
  }

  ghost predicate Owned(s: Store) { exists F :: ForestBy(s, F) }

  ghost function ForestOf(s: Store): (F: Forest)
    requires Owned(s)
    ensures ForestBy(s, F)
  {
    var F :| ForestBy(s, F);
    F
  }

  lemma ForestUnique(s: Store, F: Forest, G: Forest)
    requires Represents(s, F) && Represents(s, G)
    ensures F == G
  {
    forall l | l in F ensures F[l] == G[l] {
      RepUnique(s.heap, s.cells[l], F[l], G[l]);
    }
  }

  lemma ForestIs(s: Store, F: Forest)
    requires ForestBy(s, F)
    ensures Owned(s) && ForestOf(s) == F
  {
    ForestUnique(s, F, ForestOf(s));
  }

  // ---------------------------------------------------------------- changing some cells

  /** r is s with the cells `at` and their containers replaced by what G says, and log destroyed. */
  ghost predicate Patched(s: Store, F: Forest, r: Store, at: set<Loc>, G: Forest, log: seq<Id>) {
    && G.Keys <= at
    && r.cells.Keys == (s.cells.Keys - at) + G.Keys
    && (forall l | l in s.cells && l !in at :: r.cells[l] == s.cells[l])
    && (forall l | l in G :: l < r.next && Rep(r.heap, r.cells[l], G[l]) && Sound(G[l]))
    && Apart(G)
    && HeapPatched(s, r, Held(F, at), Held(G, at))
    && r.freed == s.freed + log && NoDup(log)
    && forall x | x in log :: x in Held(F, at) && x !in Held(G, at)
  }

  ghost predicate HeapPatched(s: Store, r: Store, was: set<Id>, now: set<Id>) {
    && s.next <= r.next
    && (forall x | x in now :: x in was || s.next <= x < r.next)
    && r.heap.Keys == (s.heap.Keys - was) + now
    && forall x | x in s.heap && x !in was :: r.heap[x] == s.heap[x]
  }

  lemma HeldAll(s: Store, F: Forest, l: Loc)
    requires Represents(s, F) && l in F
    ensures Ids(F[l]) <= s.heap.Keys
  {
    RepIds(s.heap, s.cells[l], F[l]);
  }

  lemma HeldOutside(s: Store, F: Forest, at: set<Loc>, l: Loc)
    requires ForestBy(s, F) && l in F && l !in at
    ensures Ids(F[l]) !! Held(F, at)
    ensures Ids(F[l]) <= s.heap.Keys
  {
    HeldAll(s, F, l);
  }

  lemma Patch(s: Store, F: Forest, r: Store, at: set<Loc>, G: Forest, log: seq<Id>)
    requires ForestBy(s, F) && Patched(s, F, r, at, G, log)
    ensures ForestBy(r, (F - at) + G)
  {
    var F' := (F - at) + G;
    PatchRepresents(s, F, r, at, G, log);
    PatchApart(s, F, r, at, G, log);
    PatchHeld(s, F, at, G);
    PatchFreed(s, F, r, at, G, log);
  }

  lemma PatchRepresents(s: Store, F: Forest, r: Store, at: set<Loc>, G: Forest, log: seq<Id>)
    requires ForestBy(s, F) && Patched(s, F, r, at, G, log)
    ensures Represents(r, (F - at) + G)
  {
    var F' := (F - at) + G;
    forall l | l in F' ensures Rep(r.heap, r.cells[l], F'[l]) && Sound(F'[l]) {
      if l !in G {
        HeldOutside(s, F, at, l);
        RepFrame(s.heap, r.heap, s.cells[l], F[l]);
      }
    }
  }

  lemma PatchApart(s: Store, F: Forest, r: Store, at: set<Loc>, G: Forest, log: seq<Id>)
    requires ForestBy(s, F) && Patched(s, F, r, at, G, log)
    ensures Apart((F - at) + G)
  {
    var F' := (F - at) + G;
    forall l, m | l in F' && m in G && l !in G ensures Ids(F'[l]) !! Ids(F'[m]) {
      HeldOutside(s, F, at, l);
      assert Ids(G[m]) <= Held(G, at);
    }
  }

  lemma PatchHeld(s: Store, F: Forest, at: set<Loc>, G: Forest)
    requires ForestBy(s, F) && G.Keys <= at
    ensures Held((F - at) + G, (F - at).Keys + G.Keys) == (s.heap.Keys - Held(F, at)) + Held(G, at)
  {
    var F' := (F - at) + G;
    forall x | x in (s.heap.Keys - Held(F, at)) + Held(G, at) ensures x in Held(F', F'.Keys) {
      if x in Held(G, at) {
        var l :| l in G && x in Ids(G[l]);
        assert F'[l] == G[l];
      } else {
        var l :| l in F && x in Ids(F[l]);
        assert F'[l] == F[l];
      }
    }
    forall x | x in Held(F', F'.Keys) ensures x in (s.heap.Keys - Held(F, at)) + Held(G, at) {
      var l :| l in F' && x in Ids(F'[l]);
      if l !in G { HeldOutside(s, F, at, l); }
    }
  }

  lemma PatchFreed(s: Store, F: Forest, r: Store, at: set<Loc>, G: Forest, log: seq<Id>)
    requires ForestBy(s, F) && Patched(s, F, r, at, G, log)
    ensures Named(r) && FreedOnce(r)
  {
    hide Rep, Sound, Ids, Apart, NoDup;
    assert Held(F, at) <= s.heap.Keys;
    hide Held;
    forall x | x in log ensures x in s.heap && x !in r.heap {
    }
    NoDupConcat(s.freed, log);
    forall x | x in r.freed ensures x < r.next && x !in r.heap {
      if x in s.freed {
        assert x !in Held(F, at);
      }
    }
  }

  lemma HeldOne(F: Forest, l: Loc)
    ensures Held(F, {l}) == Was(F, l)
  {
  }

  lemma HeldTwo(F: Forest, l: Loc, m: Loc)
    ensures Held(F, {l, m}) == Was(F, l) + Was(F, m)
  {
  }

  /** What a cell holds, if it exists. */
  ghost function Was(F: Forest, l: Loc): (r: set<Id>) { if l in F then Ids(F[l]) else {} }

  ghost predicate Logged(s: Store, r: Store, was: set<Id>, now: set<Id>, log: seq<Id>) {
    && r.freed == s.freed + log && NoDup(log)
    && forall x | x in log :: x in was && x !in now
  }

  lemma Basics(s: Store, F: Forest)
    requires ForestBy(s, F)
    ensures F.Keys == s.cells.Keys && Named(s)
  {
  }

  lemma OneMap<V>(F: map<Loc, V>, l: Loc, t: V)
    ensures (F - {l}) + map[l := t] == F[l := t]
    ensures F[l := t].Keys == (F.Keys - {l}) + {l}
    ensures forall k | k in F && k !in {l} :: F[l := t][k] == F[k]
  {
  }

  lemma MergeMap<V>(F: map<Loc, V>, l: Loc, t: V, m: Loc)
    requires l != m
    ensures (F - {l, m}) + map[l := t] == F[l := t] - {m}
    ensures (F[l := t] - {m}).Keys == (F.Keys - {l, m}) + {l}
    ensures forall k | k in F && k !in {l, m} :: (F[l := t] - {m})[k] == F[k]
  {
  }

  lemma SplitMap<V>(F: map<Loc, V>, l: Loc, t: V, m: Loc, u: V)
    requires l != m
    ensures (F - {l, m}) + map[l := t, m := u] == F[l := t][m := u]
    ensures F[l := t][m := u].Keys == (F.Keys - {l, m}) + {l, m}
    ensures forall k | k in F && k !in {l, m} :: F[l := t][m := u][k] == F[k]
  {
  }

  lemma HeldSingle(l: Loc, t: Tree)
    ensures Held(map[l := t], {l}) == Ids(t)
  {
    HeldOne(map[l := t], l);
  }

  lemma LoggedParts(s: Store, r: Store, was: set<Id>, now: set<Id>, log: seq<Id>)
    requires Logged(s, r, was, now, log)
    ensures r.freed == s.freed + log && NoDup(log) && forall x | x in log :: x in was && x !in now
  {
  }

  /** Cell l now holds t. */
  lemma PatchOne(s: Store, F: Forest, r: Store, l: Loc, t: Tree, log: seq<Id>)
    requires ForestBy(s, F)
    requires l in r.cells && l < r.next && r.cells == s.cells[l := r.cells[l]]
    requires Rep(r.heap, r.cells[l], t) && Sound(t)
    requires HeapPatched(s, r, Was(F, l), Ids(t)) && Logged(s, r, Was(F, l), Ids(t), log)
    ensures ForestBy(r, F[l := t])
  {
    hide HeapPatched, Rep, Sound, Ids, Was, Held, ForestBy, Logged;
    var G := map[l := t];
    HeldOne(F, l);
    HeldSingle(l, t);
    LoggedParts(s, r, Was(F, l), Ids(t), log);
    OneMap(F, l, t);
    OneMap(s.cells, l, r.cells[l]);
    Patch(s, F, r, {l}, G, log);
  }

  /** Cell l is gone. */
  lemma PatchGone(s: Store, F: Forest, r: Store, l: Loc, log: seq<Id>)
    requires ForestBy(s, F) && r.cells == s.cells - {l}
    requires HeapPatched(s, r, Was(F, l), {}) && Logged(s, r, Was(F, l), {}, log)
    ensures ForestBy(r, F - {l})
  {
    var G: Forest := map[];
    assert (F - {l}) + G == F - {l};
    HeldOne(F, l); HeldOne(G, l);
    hide HeapPatched, Rep, Sound, Ids, Was, Held, ForestBy;
    Patch(s, F, r, {l}, G, log);
  }

  /** Cell l now holds t, and m, which is another, is gone. */
  lemma PatchMerge(s: Store, F: Forest, r: Store, l: Loc, t: Tree, m: Loc)
    requires ForestBy(s, F) && l != m
    requires l in r.cells && l < r.next && r.cells == s.cells[l := r.cells[l]] - {m}
    requires Rep(r.heap, r.cells[l], t) && Sound(t)
    requires HeapPatched(s, r, Was(F, l) + Was(F, m), Ids(t)) && r.freed == s.freed
    ensures ForestBy(r, F[l := t] - {m})
  {
    var G := map[l := t];
    HeldTwo(F, l, m); HeldTwo(G, l, m);
    assert Was(G, l) + Was(G, m) == Ids(t);
    hide HeapPatched, Rep, Sound, Ids, Was, Held, ForestBy;
    assert r.freed == s.freed + [];
    MergeMap(F, l, t, m);
    MergeMap(s.cells, l, r.cells[l], m);
    Patch(s, F, r, {l, m}, G, []);
  }

  lemma HeldNew(F: Forest, l: Loc, m: Loc)
    requires m !in F
    ensures Held(F, {l, m}) == Was(F, l)
  {
  }

  lemma HeldPair(l: Loc, t: Tree, m: Loc, u: Tree)
    requires l != m
    ensures Held(map[l := t, m := u], {l, m}) == Ids(t) + Ids(u)
    ensures Ids(t) !! Ids(u) ==> Apart(map[l := t, m := u])
  {
    HeldTwo(map[l := t, m := u], l, m);
  }

  /** Cell l now holds t, and m, which is new, holds u. */
  lemma PatchSplit(s: Store, F: Forest, r: Store, l: Loc, t: Tree, m: Loc, u: Tree)
    requires ForestBy(s, F) && l != m && m !in s.cells
    requires l in r.cells && m in r.cells && l < r.next && m < r.next
    requires r.cells == s.cells[l := r.cells[l]][m := r.cells[m]]
    requires Rep(r.heap, r.cells[l], t) && Sound(t)
    requires Rep(r.heap, r.cells[m], u) && Sound(u) && Ids(t) !! Ids(u)
    requires HeapPatched(s, r, Was(F, l), Ids(t) + Ids(u)) && r.freed == s.freed
    ensures ForestBy(r, F[l := t][m := u])
  {
    hide HeapPatched, Rep, Sound, Ids, Was, Held, ForestBy, Apart;
    var G := map[l := t, m := u];
    Basics(s, F);
    HeldNew(F, l, m);
    HeldPair(l, t, m, u);
    assert r.freed == s.freed + [];
    SplitMap(F, l, t, m, u);
    SplitMap(s.cells, l, r.cells[l], m, r.cells[m]);
    Patch(s, F, r, {l, m}, G, []);
  }

  /** Cells l and m now hold t and u; no container came or went. */
  lemma PatchPair(s: Store, F: Forest, r: Store, l: Loc, t: Tree, m: Loc, u: Tree)
    requires ForestBy(s, F) && l != m && l in F && m in F
    requires l in r.cells && m in r.cells && r.next == s.next
    requires r.cells == s.cells[l := r.cells[l]][m := r.cells[m]]
    requires Rep(r.heap, r.cells[l], t) && Sound(t)
    requires Rep(r.heap, r.cells[m], u) && Sound(u) && Ids(t) !! Ids(u)
    requires HeapPatched(s, r, Ids(F[l]) + Ids(F[m]), Ids(t) + Ids(u)) && r.freed == s.freed
    ensures ForestBy(r, F[l := t][m := u])
  {
    hide HeapPatched, Rep, Sound, Ids, Held, ForestBy, Apart;
    var G := map[l := t, m := u];
    Basics(s, F);
    HeldTwo(F, l, m);
    HeldPair(l, t, m, u);
    assert r.freed == s.freed + [];
    SplitMap(F, l, t, m, u);
    SplitMap(s.cells, l, r.cells[l], m, r.cells[m]);
    Patch(s, F, r, {l, m}, G, []);
  }

  /** Containers changed hands, none came or went. */
  lemma SamePatched(s: Store, r: Store, was: set<Id>, now: set<Id>)
    requires was == now && was <= s.heap.Keys && s.heap.Keys == r.heap.Keys && s.next <= r.next
    requires forall x | x in s.heap && x !in was :: r.heap[x] == s.heap[x]
    ensures HeapPatched(s, r, was, now)
  {
  }

  /** Containers `gone` went. */
  lemma LessPatched(s: Store, r: Store, was: set<Id>, gone: set<Id>)
    requires gone <= was <= s.heap.Keys && r.heap.Keys == s.heap.Keys - gone && s.next <= r.next
    requires forall x | x in s.heap && x !in was :: r.heap[x] == s.heap[x]
    ensures HeapPatched(s, r, was, was - gone)
  {
  }

  /** Containers `more` are new. */
  lemma MorePatched(s: Store, r: Store, more: set<Id>)
    requires s.next <= r.next && (forall x | x in more :: s.next <= x < r.next)
    requires r.heap.Keys == s.heap.Keys + more && forall x | x in s.heap :: r.heap[x] == s.heap[x]
    ensures HeapPatched(s, r, {}, more)
  {
  }

  lemma PartSets(all: set<Id>, part: set<Id>)
    requires part <= all
    ensures (all - part) + part == all && (all - part) + {} == all - part && all - part !! part
  {
  }
}
