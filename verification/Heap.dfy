/** Values and containers.  Maps and sequences live in a heap and are held by id, so that two
    slots could name the same container; the trees below say when none do. */
module Heap {

  type Sym = nat
  type Id = nat
  type Loc = nat

  /** The bits of a float; what arithmetic does to them is a parameter of the program. */
  type Float = nat

  /** A value; a reference names the cell of a variable. */
  datatype Value =
    | VNone | VErr | VInt(n: int) | VFloat(x: Float) | VSym(s: Sym) | VStr(str: nat) | VType(ty: nat)
    | VRef(loc: Loc)
    | VMap(id: Id) | VSeq(id: Id)

  /** A container.  A map's entries are listed newest first; `keys` is empty for a sequence. */
  datatype Obj = Obj(isMap: bool, keys: seq<Sym>, vals: seq<Value>)

  type Heap = map<Id, Obj>

  predicate Holds(v: Value) { v.VMap? || v.VSeq? }

  /** What a value unfolds to.  Node keeps the id, so equal trees are the same containers. */
  datatype Tree = Leaf(v: Value) | Node(id: Id, isMap: bool, keys: seq<Sym>, kids: seq<Tree>)

  function Root(t: Tree): (v: Value) {
    match t
    case Leaf(v) => v
    case Node(id, isMap, _, _) => if isMap then VMap(id) else VSeq(id)
  }

  function Ids(t: Tree): (r: set<Id>) {
    match t
    case Leaf(_) => {}
    case Node(id, _, _, kids) => {id} + IdsOf(kids)
  }

  function IdsOf(ts: seq<Tree>): (r: set<Id>) {
    set i, x | 0 <= i < |ts| && x in Ids(ts[i]) :: x
  }

  /** The heap below v is exactly t. */
  ghost predicate Rep(h: Heap, v: Value, t: Tree)
    decreases t
  {
    match t
    case Leaf(x) => x == v && !Holds(v)
    case Node(id, isMap, keys, kids) =>
      && v == Root(t)
      && id in h
      && h[id].isMap == isMap && h[id].keys == keys
      && |keys| == (if isMap then |kids| else 0)
      && |h[id].vals| == |kids|
      && forall i | 0 <= i < |kids| :: Rep(h, h[id].vals[i], kids[i])
  }

  ghost predicate Disjoint(ts: seq<Tree>) {
    forall i, j | 0 <= i < j < |ts| :: Ids(ts[i]) !! Ids(ts[j])
  }

  /** No container occurs twice in t, and references stay out of containers. */
  ghost predicate Sound(t: Tree) {
    match t
    case Leaf(_) => true
    case Node(id, _, _, kids) =>
      && id !in IdsOf(kids)
      && Disjoint(kids)
      && forall i | 0 <= i < |kids| :: Sound(kids[i]) && !Root(kids[i]).VRef?
  }

  // ---------------------------------------------------------------- reading trees

  /** Rep looks only at the containers of the tree. */
  lemma {:induction false} RepFrame(h: Heap, g: Heap, v: Value, t: Tree)
    requires Rep(h, v, t)
    requires forall i | i in Ids(t) :: i in g && i in h && g[i] == h[i]
    ensures Rep(g, v, t)
    decreases t
  {
    if t.Node? {
      assert t.id in Ids(t);
      forall i | 0 <= i < |t.kids| ensures Rep(g, g[t.id].vals[i], t.kids[i]) {
        KidIds(t, i);
        RepFrame(h, g, h[t.id].vals[i], t.kids[i]);
      }
    }
  }

  lemma KidIds(t: Tree, i: nat)
    requires t.Node? && i < |t.kids|
    ensures Ids(t.kids[i]) <= IdsOf(t.kids) <= Ids(t)
  {
  }

  lemma {:induction false} RepIds(h: Heap, v: Value, t: Tree)
    requires Rep(h, v, t)
    ensures Ids(t) <= h.Keys && Root(t) == v
    decreases t
  {
    if t.Node? {
      forall x | x in IdsOf(t.kids) ensures x in h {
        var i :| 0 <= i < |t.kids| && x in Ids(t.kids[i]);
        RepIds(h, h[t.id].vals[i], t.kids[i]);
      }
    }
  }

  /** A heap and a value determine the tree. */
  lemma {:induction false} RepUnique(h: Heap, v: Value, t: Tree, u: Tree)
    requires Rep(h, v, t) && Rep(h, v, u)
    ensures t == u
    decreases t
  {
    if t.Node? {
      forall i | 0 <= i < |t.kids| ensures t.kids[i] == u.kids[i] {
        RepUnique(h, h[t.id].vals[i], t.kids[i], u.kids[i]);
      }
      assert t.kids == u.kids;
    }
  }

  // ---------------------------------------------------------------- finalising

  /** Finalise a value: what it holds goes first, then the container itself.  The second result
      lists the containers destroyed, in order; one that is already gone is listed again. */
  function Fin(h: Heap, v: Value): (r: (Heap, seq<Id>))
    ensures r.0.Keys <= h.Keys
    decreases |h.Keys|, 0
  {
    if Holds(v) && v.id in h then
      assert (h - {v.id}).Keys == h.Keys - {v.id};
      var (g, log) := FinAll(h - {v.id}, h[v.id].vals);
      (g, log + [v.id])
    else if Holds(v) then (h, [v.id])
    else (h, [])
  }

  function FinAll(h: Heap, vs: seq<Value>): (r: (Heap, seq<Id>))
    ensures r.0.Keys <= h.Keys
    decreases |h.Keys|, |vs| + 1
  {
    if vs == [] then (h, [])
    else
      var (g, log) := Fin(h, vs[0]);
      SubsetSize(g.Keys, h.Keys);
      var (g', log') := FinAll(g, vs[1..]);
      (g', log + log')
  }

  lemma SubsetSize(a: set<Id>, b: set<Id>)
    requires a <= b
    ensures |a| <= |b|
  {
    assert b == a + (b - a);
  }

  predicate NoDup(s: seq<Id>) { forall i, j | 0 <= i < j < |s| :: s[i] != s[j] }

  /** Finalising a sound tree removes its containers and nothing else, each once. */
  ghost predicate Finalised(h: Heap, r: (Heap, seq<Id>), ids: set<Id>) {
    && r.0 == h - ids
    && NoDup(r.1)
    && forall x :: x in r.1 <==> x in ids
  }

  lemma NoDupConcat(a: seq<Id>, b: seq<Id>)
    requires NoDup(a) && NoDup(b) && forall x | x in a :: x !in b
    ensures NoDup(a + b)
  {
    forall i, j | 0 <= i < j < |a + b| ensures (a + b)[i] != (a + b)[j] {
      if i < |a| <= j { assert b[j - |a|] in b && a[i] in a; }
    }
  }

  lemma {:induction false} FinTree(h: Heap, v: Value, t: Tree)
    requires Rep(h, v, t) && Sound(t)
    ensures Finalised(h, Fin(h, v), Ids(t))
    decreases t, 1, 0
  {
    if t.Leaf? {
      assert h - {} == h;
    } else {
      var g := h - {t.id};
      forall i | 0 <= i < |t.kids| ensures Rep(g, h[t.id].vals[i], t.kids[i]) {
        KidIds(t, i);
        RepIds(h, h[t.id].vals[i], t.kids[i]);
        RepFrame(h, g, h[t.id].vals[i], t.kids[i]);
      }
      FinTrees(g, h[t.id].vals, t.kids, t);
      var r := FinAll(g, h[t.id].vals);
      assert (h - {t.id}) - IdsOf(t.kids) == h - Ids(t);
      assert forall x :: x in r.1 + [t.id] <==> x in r.1 || x == t.id;
      NoDupConcat(r.1, [t.id]);
    }
  }

  lemma {:induction false} FinTrees(h: Heap, vs: seq<Value>, ts: seq<Tree>, bound: Tree)
    requires |vs| == |ts| && Disjoint(ts)
    requires forall i | 0 <= i < |ts| :: Rep(h, vs[i], ts[i]) && Sound(ts[i])
    requires forall i | 0 <= i < |ts| :: ts[i] < bound
    ensures Finalised(h, FinAll(h, vs), IdsOf(ts))
    decreases bound, 0, |ts|
  {
    if ts == [] {
      assert h - {} == h && IdsOf(ts) == {};
    } else {
      FinTree(h, vs[0], ts[0]);
      var (g, log) := Fin(h, vs[0]);
      forall i | 0 <= i < |ts[1..]| ensures Rep(g, vs[1..][i], ts[1..][i]) {
        RepIds(h, vs[i + 1], ts[i + 1]);
        RepFrame(h, g, vs[i + 1], ts[i + 1]);
      }
      FinTrees(g, vs[1..], ts[1..], bound);
      var (g', log') := FinAll(g, vs[1..]);
      FirstIds(ts);
      assert (h - Ids(ts[0])) - IdsOf(ts[1..]) == h - IdsOf(ts);
      assert forall x :: x in log + log' <==> x in log || x in log';
      NoDupConcat(log, log');
    }
  }

  lemma FirstIds(ts: seq<Tree>)
    requires ts != [] && Disjoint(ts)
    ensures IdsOf(ts) == Ids(ts[0]) + IdsOf(ts[1..])
    ensures Ids(ts[0]) !! IdsOf(ts[1..])
  {
    forall x | x in IdsOf(ts) ensures x in Ids(ts[0]) + IdsOf(ts[1..]) {
      var i :| 0 <= i < |ts| && x in Ids(ts[i]);
      if i > 0 { assert x in Ids(ts[1..][i - 1]); }
    }
    forall x | x in IdsOf(ts[1..]) ensures x in IdsOf(ts) && x !in Ids(ts[0]) {
      var i :| 0 <= i < |ts[1..]| && x in Ids(ts[1..][i]);
      assert x in Ids(ts[i + 1]);
    }
  }

  // ---------------------------------------------------------------- copying

  /** Copy v, found in src, into h, naming new containers from `next` on.  A container is made
      before its contents are copied. */
  function Copy(src: Heap, h: Heap, next: nat, v: Value): (r: (Heap, Value, nat))
    decreases |src.Keys|, 0
  {
    if !Holds(v) then (h, v, next)
    else if v.id !in src then (h, VErr, next)
    else
      var o := src[v.id];
      assert (src - {v.id}).Keys == src.Keys - {v.id};
      var (g, vals, n) := CopyAll(src - {v.id}, h, next + 1, o.vals);
      (g[next := o.(vals := vals)], if v.VMap? then VMap(next) else VSeq(next), n)
  }

  function CopyAll(src: Heap, h: Heap, next: nat, vs: seq<Value>): (r: (Heap, seq<Value>, nat))
    ensures |r.1| == |vs|
    decreases |src.Keys|, |vs| + 1
  {
    if vs == [] then (h, [], next)
    else
      var (g, v, n) := Copy(src, h, next, vs[0]);
      var (g', rest, n') := CopyAll(src, g, n, vs[1..]);
      (g', [v] + rest, n')
  }

  /** The same tree with its containers' names forgotten. */
  datatype Plain = PLeaf(v: Value) | PNode(isMap: bool, keys: seq<Sym>, kids: seq<Plain>)

  function Strip(t: Tree): (p: Plain) {
    match t
    case Leaf(v) => PLeaf(v)
    case Node(_, isMap, keys, kids) =>
      PNode(isMap, keys, seq(|kids|, i requires 0 <= i < |kids| => Strip(kids[i])))
  }

  /** What a copy of t into h looks like: the same shape and values in the same order, made of new
      containers only, with everything that was there before left alone. */
  ghost predicate Copied(h: Heap, next: nat, g: Heap, n: nat, ids: set<Id>) {
    && next <= n
    && (forall x | x in ids :: next <= x < n)
    && g.Keys == h.Keys + ids
    && forall x | x in h :: x in g && g[x] == h[x]
  }

  ghost predicate Below(h: Heap, next: nat) { forall x | x in h :: x < next }

  lemma {:induction false} CopyTree(src: Heap, h: Heap, next: nat, v: Value, t: Tree) returns (u: Tree)
    requires Rep(src, v, t) && Sound(t) && Below(h, next)
    ensures var (g, w, n) := Copy(src, h, next, v);
            Rep(g, w, u) && Sound(u) && Strip(u) == Strip(t) && Copied(h, next, g, n, Ids(u))
    ensures Root(t).VRef? == Root(u).VRef?
    decreases t, 1, 0
  {
    if t.Leaf? {
      u := t;
    } else {
      var src' := src - {t.id};
      var o := src[t.id];
      KidsApart(src, v, t);
      hide Rep, Ids, Sound;
      var us := CopyTrees(src', h, next + 1, o.vals, t.kids, t);
      var (g, vals, n) := CopyAll(src', h, next + 1, o.vals);
      u := Node(next, t.isMap, t.keys, us);
      CopyNode(h, next, g, n, o, vals, t, us);
      StripKids(t.kids, us);
    }
  }

  /** What a container holds is there without the container. */
  lemma KidsApart(src: Heap, v: Value, t: Tree)
    requires Rep(src, v, t) && Sound(t) && t.Node?
    ensures t.id in src && v == Root(t) && src[t.id].isMap == t.isMap && src[t.id].keys == t.keys
    ensures |src[t.id].vals| == |t.kids| && |t.keys| == (if t.isMap then |t.kids| else 0)
    ensures forall i | 0 <= i < |t.kids| ::
              Rep(src - {t.id}, src[t.id].vals[i], t.kids[i]) && Sound(t.kids[i]) && !Root(t.kids[i]).VRef?
                && t.kids[i] < t
  {
    forall i | 0 <= i < |t.kids| ensures Rep(src - {t.id}, src[t.id].vals[i], t.kids[i]) {
      KidIds(t, i);
      RepIds(src, src[t.id].vals[i], t.kids[i]);
      RepFrame(src, src - {t.id}, src[t.id].vals[i], t.kids[i]);
    }
  }

  /** Putting the copied contents into the new container. */
  lemma CopyNode(h: Heap, next: nat, g: Heap, n: nat, o: Obj, vals: seq<Value>, t: Tree, us: seq<Tree>)
    requires t.Node? && |us| == |t.kids| == |vals|
    requires o.isMap == t.isMap && o.keys == t.keys && |o.keys| == if o.isMap then |us| else 0
    requires Below(h, next) && Copied(h, next + 1, g, n, IdsOf(us)) && Disjoint(us)
    requires forall i | 0 <= i < |us| :: Rep(g, vals[i], us[i]) && Sound(us[i]) && !Root(us[i]).VRef?
    ensures var u, g' := Node(next, t.isMap, t.keys, us), g[next := o.(vals := vals)];
            Rep(g', Root(u), u) && Sound(u) && Copied(h, next, g', n, Ids(u))
  {
    var g' := g[next := o.(vals := vals)];
    forall i | 0 <= i < |us| ensures Rep(g', vals[i], us[i]) {
      RepIds(g, vals[i], us[i]);
      assert Ids(us[i]) <= IdsOf(us);
      RepFrame(g, g', vals[i], us[i]);
    }
  }

  lemma StripKids(ts: seq<Tree>, us: seq<Tree>)
    requires |ts| == |us| && forall i | 0 <= i < |ts| :: Strip(us[i]) == Strip(ts[i])
    ensures seq(|ts|, i requires 0 <= i < |ts| => Strip(ts[i]))
         == seq(|us|, i requires 0 <= i < |us| => Strip(us[i]))
  {
  }

  lemma {:induction false} CopyTrees(src: Heap, h: Heap, next: nat, vs: seq<Value>, ts: seq<Tree>, bound: Tree)
    returns (us: seq<Tree>)
    requires |vs| == |ts| && Below(h, next)
    requires forall i | 0 <= i < |ts| :: Rep(src, vs[i], ts[i]) && Sound(ts[i]) && !Root(ts[i]).VRef?
    requires forall i | 0 <= i < |ts| :: ts[i] < bound
    ensures var (g, ws, n) := CopyAll(src, h, next, vs);
            && |us| == |ts|
            && (forall i | 0 <= i < |us| ::
                  Rep(g, ws[i], us[i]) && Sound(us[i]) && Strip(us[i]) == Strip(ts[i]) && !Root(us[i]).VRef?)
            && Disjoint(us) && Copied(h, next, g, n, IdsOf(us))
    decreases bound, 0, |ts|
  {
    if ts == [] {
      us := [];
      assert IdsOf(us) == {};
    } else {
      var u := CopyTree(src, h, next, vs[0], ts[0]);
      var (g, v, n) := Copy(src, h, next, vs[0]);
      var rest := CopyTrees(src, g, n, vs[1..], ts[1..], bound);
      var (g', ws, n') := CopyAll(src, g, n, vs[1..]);
      us := [u] + rest;
      ConsTrees(h, next, g, n, g', n', v, ws, u, rest);
      forall i | 0 <= i < |us|
        ensures Rep(g', ([v] + ws)[i], us[i]) && Sound(us[i]) && Strip(us[i]) == Strip(ts[i]) && !Root(us[i]).VRef?
      {
        if i > 0 {
          assert us[i] == rest[i - 1] && ts[i] == ts[1..][i - 1];
        }
      }
    }
  }

  /** A copy of a value nested to any depth is equal to it, entry for entry in the same order, shares
      no container with it, and leaves it as it was. */
  lemma DeepCopy(h: Heap, next: nat, v: Value, t: Tree) returns (u: Tree)
    requires Rep(h, v, t) && Sound(t) && Below(h, next)
    ensures var (g, w, n) := Copy(h, h, next, v);
            Rep(g, w, u) && Strip(u) == Strip(t) && Ids(u) !! Ids(t) && Rep(g, v, t)
  {
    u := CopyTree(h, h, next, v, t);
    RepIds(h, v, t);
    RepFrame(h, Copy(h, h, next, v).0, v, t);
  }

  lemma ConsTrees(h: Heap, next: nat, g: Heap, n: nat, g': Heap, n': nat, v: Value, ws: seq<Value>,
                  u: Tree, rest: seq<Tree>)
    requires Rep(g, v, u) && Copied(h, next, g, n, Ids(u)) && Copied(g, n, g', n', IdsOf(rest))
    requires Disjoint(rest)
    ensures Rep(g', v, u)
    ensures Disjoint([u] + rest) && Copied(h, next, g', n', IdsOf([u] + rest))
  {
    hide Rep, Ids, IdsOf, Disjoint;
    RepIds(g, v, u);
    RepFrame(g, g', v, u);
    CopiedThen(h, next, g, n, g', n', Ids(u), IdsOf(rest));
    DisjointCons(u, rest);
    FirstIds([u] + rest);
    assert ([u] + rest)[1..] == rest;
  }

  lemma CopiedThen(h: Heap, next: nat, g: Heap, n: nat, g': Heap, n': nat, a: set<Id>, b: set<Id>)
    requires Copied(h, next, g, n, a) && Copied(g, n, g', n', b)
    ensures a !! b && Copied(h, next, g', n', a + b)
  {
  }

  lemma DisjointCons(u: Tree, rest: seq<Tree>)
    requires Disjoint(rest) && Ids(u) !! IdsOf(rest)
    ensures Disjoint([u] + rest)
  {
    var us := [u] + rest;
    forall i, j | 0 <= i < j < |us| ensures Ids(us[i]) !! Ids(us[j]) {
      assert us[j] == rest[j - 1];
      assert Ids(rest[j - 1]) <= IdsOf(rest);
    }
  }

  // ---------------------------------------------------------------- replacing a container's contents

  /** The kid of t that has container id somewhere inside. */
  ghost function KidWith(t: Tree, id: Id): (i: nat)
    requires t.Node? && id in Ids(t) && t.id != id
    ensures i < |t.kids| && id in Ids(t.kids[i])
  {
    assert id in IdsOf(t.kids);
    var i :| 0 <= i < |t.kids| && id in Ids(t.kids[i]);
    i
  }

  /** The part of t that is container id. */
  ghost function Sub(t: Tree, id: Id): (u: Tree)
    requires id in Ids(t)
    ensures u.Node? && u.id == id
    decreases t
  {
    if t.id == id then t else Sub(t.kids[KidWith(t, id)], id)
  }

  /** t with that part replaced by n. */
  ghost function Graft(t: Tree, id: Id, n: Tree): (u: Tree)
    requires id in Ids(t)
    decreases t
  {
    if t.id == id then n
    else
      var i := KidWith(t, id);
      t.(kids := t.kids[i := Graft(t.kids[i], id, n)])
  }

  lemma UpdateIds(ts: seq<Tree>, i: nat, u: Tree)
    requires i < |ts| && Disjoint(ts)
    ensures IdsOf(ts[i := u]) == (IdsOf(ts) - Ids(ts[i])) + Ids(u)
  {
    var us := ts[i := u];
    forall x | x in IdsOf(us) ensures x in (IdsOf(ts) - Ids(ts[i])) + Ids(u) {
      var j :| 0 <= j < |us| && x in Ids(us[j]);
      if j != i { assert x in Ids(ts[j]); }
    }
    forall x | x in (IdsOf(ts) - Ids(ts[i])) + Ids(u) ensures x in IdsOf(us) {
      if x in Ids(u) {
        assert x in Ids(us[i]);
      } else {
        var j :| 0 <= j < |ts| && x in Ids(ts[j]);
        assert x in Ids(us[j]);
      }
    }
  }

  lemma UpdateDisjoint(ts: seq<Tree>, i: nat, u: Tree)
    requires i < |ts| && Disjoint(ts)
    requires Ids(u) !! IdsOf(ts) - Ids(ts[i])
    ensures Disjoint(ts[i := u])
  {
    var us := ts[i := u];
    forall j | 0 <= j < |ts| && j != i ensures Ids(us[j]) !! Ids(u) {
      assert Ids(ts[j]) <= IdsOf(ts);
      assert Ids(ts[j]) !! Ids(ts[i]);
    }
  }

  lemma {:induction false} SubFacts(h: Heap, v: Value, t: Tree, id: Id)
    requires Rep(h, v, t) && Sound(t) && id in Ids(t)
    ensures Rep(h, Root(Sub(t, id)), Sub(t, id)) && Sound(Sub(t, id))
    ensures id in Ids(Sub(t, id)) && Ids(Sub(t, id)) <= Ids(t)
    decreases t
  {
    if t.id != id {
      var i := KidWith(t, id);
      KidIds(t, i);
      SubFacts(h, h[t.id].vals[i], t.kids[i], id);
    }
  }

  lemma SoundKids(t: Tree)
    requires t.Node? && Sound(t)
    ensures t.id !in IdsOf(t.kids) && Disjoint(t.kids)
    ensures forall i | 0 <= i < |t.kids| :: Sound(t.kids[i]) && !Root(t.kids[i]).VRef?
    ensures Ids(t) == {t.id} + IdsOf(t.kids)
  {
  }

  lemma {:induction false} GraftIds(t: Tree, id: Id, n: Tree)
    requires Sound(t) && id in Ids(t)
    ensures Ids(Sub(t, id)) <= Ids(t)
    ensures Ids(Graft(t, id, n)) == (Ids(t) - Ids(Sub(t, id))) + Ids(n)
    decreases t
  {
    if t.id != id {
      SoundKids(t);
      var i := KidWith(t, id);
      KidIds(t, i);
      var kid := t.kids[i];
      var k := Graft(kid, id, n);
      assert Sub(t, id) == Sub(kid, id);
      var u := t.(kids := t.kids[i := k]);
      assert Graft(t, id, n) == u;
      assert Ids(u) == {t.id} + IdsOf(t.kids[i := k]);
      hide *;
      GraftIds(kid, id, n);
      UpdateIds(t.kids, i, k);
      GraftSets(t.id, IdsOf(t.kids), Ids(kid), Ids(Sub(kid, id)), Ids(n));
    }
  }

  /** Replacing sub by more inside kid, inside all, inside the whole. */
  lemma GraftSets(root: Id, all: set<Id>, kid: set<Id>, sub: set<Id>, more: set<Id>)
    requires root !in all && sub <= kid <= all
    ensures {root} + ((all - kid) + ((kid - sub) + more)) == ({root} + all - sub) + more
  {
  }

  lemma GraftFits(root: Id, all: set<Id>, kid: set<Id>, sub: set<Id>, more: set<Id>)
    requires root !in all && sub <= kid <= all
    requires more !! {root} + all - sub
    ensures more !! kid - sub
    ensures (kid - sub) + more !! {root} + (all - kid)
  {
  }

  lemma HasContainer(t: Tree, id: Id)
    requires id in Ids(t)
    ensures t.Node?
  {
  }

  /** Grafting below the root changes one kid. */
  lemma GraftBelow(t: Tree, id: Id, n: Tree)
    requires Sound(t) && id in Ids(t) && t.id != id
    ensures t.Node? && var i := KidWith(t, id);
            && i < |t.kids| && id in Ids(t.kids[i]) && Sound(t.kids[i]) && Ids(t.kids[i]) <= IdsOf(t.kids)
            && Sub(t, id) == Sub(t.kids[i], id)
            && Graft(t, id, n) == t.(kids := t.kids[i := Graft(t.kids[i], id, n)])
            && t.id !in IdsOf(t.kids) && Ids(t) == {t.id} + IdsOf(t.kids)
  {
    SoundKids(t);
    KidIds(t, KidWith(t, id));
  }

  lemma {:induction false} GraftSound(t: Tree, id: Id, n: Tree)
    requires Sound(t) && id in Ids(t) && Sound(n) && n.Node?
    requires Ids(n) !! Ids(t) - Ids(Sub(t, id))
    ensures Sound(Graft(t, id, n)) && Graft(t, id, n).Node?
    decreases t
  {
    hide Sound, Ids, IdsOf;
    HasContainer(t, id);
    if t.id != id {
      GraftBelow(t, id, n);
      var i := KidWith(t, id);
      hide Sub, Graft;
      GraftIds(t.kids[i], id, n);
      GraftFits(t.id, IdsOf(t.kids), Ids(t.kids[i]), Ids(Sub(t, id)), Ids(n));
      GraftSound(t.kids[i], id, n);
      SoundStep(t, i, Graft(t.kids[i], id, n));
    }
  }

  /** Replacing one kid. */
  lemma SoundStep(t: Tree, i: nat, k: Tree)
    requires t.Node? && Sound(t) && i < |t.kids|
    requires Sound(k) && !Root(k).VRef? && Ids(k) !! {t.id} + (IdsOf(t.kids) - Ids(t.kids[i]))
    ensures Sound(t.(kids := t.kids[i := k]))
  {
    SoundKids(t);
    UpdateIds(t.kids, i, k);
    UpdateDisjoint(t.kids, i, k);
  }

  /** Heap and tree change together: rewrite container id, and whatever hung below it, in g. */
  lemma {:induction false} GraftRep(h: Heap, g: Heap, v: Value, t: Tree, id: Id, n: Tree)
    requires Rep(h, v, t) && Sound(t) && id in Ids(t)
    requires Root(n) == Root(Sub(t, id)) && Rep(g, Root(n), n)
    requires forall x | x in Ids(t) - Ids(Sub(t, id)) :: x in g && x in h && g[x] == h[x]
    ensures Rep(g, v, Graft(t, id, n))
    decreases t
  {
    if t.id != id {
      var i := KidWith(t, id);
      KidIds(t, i);
      SubFacts(h, h[t.id].vals[i], t.kids[i], id);
      assert t.id in Ids(t) - Ids(Sub(t, id));
      GraftRep(h, g, h[t.id].vals[i], t.kids[i], id, n);
      forall j | 0 <= j < |t.kids| && j != i ensures Rep(g, g[t.id].vals[j], t.kids[j]) {
        KidIds(t, j);
        assert Ids(t.kids[j]) !! Ids(t.kids[i]);
        RepFrame(h, g, h[t.id].vals[j], t.kids[j]);
      }
    }
  }
}
