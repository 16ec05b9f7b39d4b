/** Finalisers and copiers as the code runs them: loops over a container's contents, read where they
    are, that call back for each value.  Nothing in the code stops the recursion; it ends because the
    value is a finite tree, which each method is given as a ghost. */
module ValueObject {
  import opened Heap

  /** Making room for container k first changes nothing about the copies made. */
  lemma {:induction false} CopyFrame(src: Heap, h: Heap, next: nat, v: Value, k: Id, o: Obj)
    requires k < next
    ensures var (g, w, n) := Copy(src, h, next, v);
            Copy(src, h[k := o], next, v) == (g[k := o], w, n) && next <= n
    decreases |src.Keys|, 0
  {
    if Holds(v) && v.id in src {
      assert (src - {v.id}).Keys == src.Keys - {v.id};
      CopyAllFrame(src - {v.id}, h, next + 1, src[v.id].vals, k, o);
      var (g, vals, n) := CopyAll(src - {v.id}, h, next + 1, src[v.id].vals);
      var p := src[v.id].(vals := vals);
      assert g[k := o][next := p] == g[next := p][k := o];
    }
  }

  lemma {:induction false} CopyAllFrame(src: Heap, h: Heap, next: nat, vs: seq<Value>, k: Id, o: Obj)
    requires k < next
    ensures var (g, ws, n) := CopyAll(src, h, next, vs);
            CopyAll(src, h[k := o], next, vs) == (g[k := o], ws, n) && next <= n
    decreases |src.Keys|, |vs| + 1
  {
    if vs == [] {
    } else {
      CopyFrame(src, h, next, vs[0], k, o);
      var (g, v, n) := Copy(src, h, next, vs[0]);
      CopyAllFrame(src, g, n, vs[1..], k, o);
    }
  }

  lemma CopyAtom(h: Heap, next: nat, v: Value)
    requires !Holds(v)
    ensures Copy(h, h, next, v) == (h, v, next)
  {
  }

  /** Copying a container: make room for it, copy what it holds from where it is, and put that in. */
  lemma CopyContainer(h: Heap, next: nat, v: Value, t: Tree)
    requires Rep(h, v, t) && Sound(t) && Below(h, next) && Holds(v)
    ensures v.id in h && t.Node? && |h[v.id].vals| == |t.kids| && h[v.id].isMap == v.VMap?
    ensures h[v.id].isMap ==> |h[v.id].keys| == |h[v.id].vals|
    ensures forall i | 0 <= i < |t.kids| :: t.kids[i] < t
    ensures var o := h[v.id];
            var h1 := h[next := Obj(o.isMap, [], [])];
            var (g, vals, n) := CopyAll(h1, h1, next + 1, o.vals);
            && Legible(h1, next + 1, o.vals, t.kids)
            && Copy(h, h, next, v)
                 == (g[next := Obj(o.isMap, o.keys, vals)], if v.VMap? then VMap(next) else VSeq(next), n)
  {
    hide Copy, CopyAll, Sound, Rep, Below;
    var room := Obj(v.VMap?, [], []);
    RoomMade(h, next, v, t, room);
    var o := h[v.id];
    CopyAllFrame(h - {v.id}, h, next + 1, o.vals, next, room);
    CopyAllReads(h - {v.id}, h[next := room], h[next := room], next + 1, o.vals, t.kids, t);
    CopyNested(h, next, v, room);
  }

  /** The contents can be read with and without the container, once there is room for its copy. */
  lemma RoomMade(h: Heap, next: nat, v: Value, t: Tree, room: Obj)
    requires Rep(h, v, t) && Sound(t) && Below(h, next) && Holds(v)
    ensures v.id in h && t.Node? && |h[v.id].vals| == |t.kids| && h[v.id].isMap == v.VMap?
    ensures h[v.id].isMap ==> |h[v.id].keys| == |h[v.id].vals|
    ensures forall i | 0 <= i < |t.kids| :: t.kids[i] < t && Sound(t.kids[i])
    ensures forall i | 0 <= i < |t.kids| :: Rep(h - {v.id}, h[v.id].vals[i], t.kids[i])
    ensures Legible(h[next := room], next + 1, h[v.id].vals, t.kids)
  {
    KidsApart(h, v, t);
    var g, vals := h - {v.id}, h[v.id].vals;
    forall i | 0 <= i < |t.kids| ensures Rep(h[next := room], vals[i], t.kids[i]) {
      RepIds(g, vals[i], t.kids[i]);
      RepFrame(g, h[next := room], vals[i], t.kids[i]);
    }
  }

  /** The contents' copies go where room was made. */
  lemma CopyNested(h: Heap, next: nat, v: Value, room: Obj)
    requires Holds(v) && v.id in h
    ensures var (g, vals, n) := CopyAll(h - {v.id}, h, next + 1, h[v.id].vals);
            Copy(h, h, next, v)
            == (g[next := room][next := h[v.id].(vals := vals)], if v.VMap? then VMap(next) else VSeq(next), n)
  {
    var (g, vals, _) := CopyAll(h - {v.id}, h, next + 1, h[v.id].vals);
    var o := h[v.id].(vals := vals);
    assert g[next := room][next := o] == g[next := o];
  }

  lemma CopyFirst(src: Heap, h: Heap, next: nat, vs: seq<Value>, i: nat)
    requires i < |vs|
    ensures var (g, w, n) := Copy(src, h, next, vs[i]);
            var (g', ws, n') := CopyAll(src, g, n, vs[i + 1..]);
            CopyAll(src, h, next, vs[i..]) == (g', [w] + ws, n')
  {
    assert vs[i..][0] == vs[i] && vs[i..][1..] == vs[i + 1..];
  }

  lemma CopyNothing(src: Heap, h: Heap, next: nat, vs: seq<Value>)
    ensures CopyAll(src, h, next, vs[|vs|..]) == (h, [], next)
  {
  }

  // ---------------------------------------------------------------- where values are read

  /** Copying reads only the value's own tree. */
  lemma {:induction false} CopyReads(src: Heap, other: Heap, h: Heap, next: nat, v: Value, t: Tree)
    requires Rep(src, v, t) && Rep(other, v, t) && Sound(t)
    ensures Copy(src, h, next, v) == Copy(other, h, next, v)
    decreases t, 1, 0
  {
    if t.Leaf? {
    } else {
      KidsApart(src, v, t);
      KidsApart(other, v, t);
      SameVals(src, other, v, t);
      CopyAllReads(src - {t.id}, other - {t.id}, h, next + 1, src[t.id].vals, t.kids, t);
    }
  }

  lemma {:induction false} CopyAllReads(src: Heap, other: Heap, h: Heap, next: nat, vs: seq<Value>,
                                        ts: seq<Tree>, bound: Tree)
    requires |vs| == |ts| && forall i | 0 <= i < |ts| :: ts[i] < bound
    requires forall i | 0 <= i < |ts| :: Rep(src, vs[i], ts[i]) && Rep(other, vs[i], ts[i]) && Sound(ts[i])
    ensures CopyAll(src, h, next, vs) == CopyAll(other, h, next, vs)
    decreases bound, 0, |ts|
  {
    if ts == [] {
    } else {
      CopyReads(src, other, h, next, vs[0], ts[0]);
      var (g, _, n) := Copy(src, h, next, vs[0]);
      CopyAllReads(src, other, g, n, vs[1..], ts[1..], bound);
    }
  }

  /** Two heaps that hold the same tree have the same contents at its root. */
  lemma SameVals(src: Heap, other: Heap, v: Value, t: Tree)
    requires Rep(src, v, t) && Rep(other, v, t) && t.Node?
    ensures t.id in src && t.id in other && src[t.id] == other[t.id]
  {
    forall i | 0 <= i < |t.kids| ensures src[t.id].vals[i] == other[t.id].vals[i] {
      RepIds(src, src[t.id].vals[i], t.kids[i]);
      RepIds(other, other[t.id].vals[i], t.kids[i]);
    }
    assert src[t.id].vals == other[t.id].vals;
  }

  /** The order of destruction is fixed by the value's own tree. */
  lemma {:induction false} FinReads(h: Heap, g: Heap, v: Value, t: Tree)
    requires Rep(h, v, t) && Rep(g, v, t) && Sound(t)
    ensures Fin(h, v).1 == Fin(g, v).1
    decreases t, 1, 0
  {
    if t.Leaf? {
    } else {
      KidsApart(h, v, t);
      KidsApart(g, v, t);
      SameVals(h, g, v, t);
      SoundKids(t);
      FinAllReads(h - {t.id}, g - {t.id}, h[t.id].vals, t.kids, t);
    }
  }

  lemma {:induction false} FinAllReads(h: Heap, g: Heap, vs: seq<Value>, ts: seq<Tree>, bound: Tree)
    requires Stand(h, vs, ts) && Stand(g, vs, ts) && forall i | 0 <= i < |ts| :: ts[i] < bound
    ensures FinAll(h, vs).1 == FinAll(g, vs).1
    decreases bound, 0, |ts|
  {
    if ts == [] {
    } else {
      FinReads(h, g, vs[0], ts[0]);
      StandAfter(h, vs, ts);
      StandAfter(g, vs, ts);
      FinAllReads(Fin(h, vs[0]).0, Fin(g, vs[0]).0, vs[1..], ts[1..], bound);
    }
  }

  /** The values are there, sound and apart. */
  ghost predicate Stand(h: Heap, vs: seq<Value>, ts: seq<Tree>) {
    && |vs| == |ts| && Disjoint(ts)
    && forall i | 0 <= i < |ts| :: Rep(h, vs[i], ts[i]) && Sound(ts[i])
  }

  /** Destroying the first leaves the others standing. */
  lemma StandAfter(h: Heap, vs: seq<Value>, ts: seq<Tree>)
    requires Stand(h, vs, ts) && ts != []
    ensures Stand(Fin(h, vs[0]).0, vs[1..], ts[1..])
  {
    hide Fin;
    FinTree(h, vs[0], ts[0]);
    var g := Fin(h, vs[0]).0;
    forall i | 0 <= i < |ts[1..]| ensures Rep(g, vs[1..][i], ts[1..][i]) {
      RepIds(h, vs[i + 1], ts[i + 1]);
      RepFrame(h, g, vs[i + 1], ts[i + 1]);
    }
  }

  /** A copy only adds to the heap, so what was to be read is still there. */
  lemma ReadAfterCopy(h: Heap, next: nat, v: Value, t: Tree, g: Heap, n: nat, vs: seq<Value>, ts: seq<Tree>)
    requires Rep(h, v, t) && Sound(t) && Below(h, next) && Copy(h, h, next, v).0 == g && Copy(h, h, next, v).2 == n
    requires |vs| == |ts| && forall i | 0 <= i < |ts| :: Rep(h, vs[i], ts[i])
    ensures Below(g, n) && forall i | 0 <= i < |ts| :: Rep(g, vs[i], ts[i])
  {
    hide Copy;
    var u := CopyTree(h, h, next, v, t);
    forall i | 0 <= i < |ts| ensures Rep(g, vs[i], ts[i]) {
      RepIds(h, vs[i], ts[i]);
      RepFrame(h, g, vs[i], ts[i]);
    }
  }

  lemma FinNothing(h: Heap, vs: seq<Value>)
    ensures FinAll(h, vs[|vs|..]) == (h, [])
  {
  }

  lemma FinContainer(h: Heap, v: Value, t: Tree)
    requires Rep(h, v, t) && Sound(t) && Holds(v)
    ensures t.Node? && v.id in h && t.id == v.id && |h[v.id].vals| == |t.kids| && Stand(h, h[v.id].vals, t.kids)
    ensures Fin(h, v) == (h - Ids(t), FinAll(h, h[v.id].vals).1 + [v.id])
    ensures FinAll(h, h[v.id].vals).0 - {v.id} == h - Ids(t)
    ensures forall i | 0 <= i < |t.kids| :: t.kids[i] < t
  {
    FinTree(h, v, t);
    KidsApart(h, v, t);
    SoundKids(t);
    var vals := h[v.id].vals;
    FinAllReads(h, h - {t.id}, vals, t.kids, t);
    FinTrees(h, vals, t.kids, t);
    assert h - IdsOf(t.kids) - {t.id} == h - Ids(t);
  }

  lemma FinAtom(h: Heap, v: Value)
    requires !Holds(v)
    ensures Fin(h, v) == (h, [])
  {
  }

  lemma FinFirst(h: Heap, vs: seq<Value>, i: nat)
    requires i < |vs|
    ensures var (g, log) := Fin(h, vs[i]);
            var (g', log') := FinAll(g, vs[i + 1..]);
            FinAll(h, vs[i..]) == (g', log + log')
  {
    assert vs[i..][0] == vs[i] && vs[i..][1..] == vs[i + 1..];
  }

  lemma ReversedNothing<T>()
    ensures Reversed<T>([]) == []
  {
  }

  lemma ReversedFront<T>(s: seq<T>, x: T)
    ensures Reversed([x] + s) == Reversed(s) + [x]
  {
    assert ([x] + s)[1..] == s;
  }

  function Reversed<T>(s: seq<T>): (r: seq<T>) { if s == [] then [] else Reversed(s[1..]) + [s[0]] }

  class Values {
    var heap: Heap
    var next: nat
    var freed: seq<Id>

    constructor (h: Heap, n: nat)
      ensures heap == h && next == n && freed == []
    {
      heap, next, freed := h, n, [];
    }

    /** Destroy a value and everything in it. */
    method Destroy(v: Value, ghost t: Tree)
      requires Rep(heap, v, t) && Sound(t)
      modifies this
      ensures heap == old(heap) - Ids(t) && next == old(next)
      ensures heap == Fin(old(heap), v).0 && freed == old(freed) + Fin(old(heap), v).1
      decreases t, 1, 0
    {
      hide Fin, FinAll, Rep, Sound, Ids;
      FinTree(heap, v, t);
      if Holds(v) {
        FinContainer(heap, v, t);
        DestroyAll(heap[v.id].vals, t.kids, t);
        heap := heap - {v.id};
        freed := freed + [v.id];
      } else {
        FinAtom(heap, v);
      }
    }

    /** The loop of a container's finaliser, first entry first. */
    method DestroyAll(vs: seq<Value>, ghost ts: seq<Tree>, ghost bound: Tree)
      requires Stand(heap, vs, ts) && forall i | 0 <= i < |ts| :: ts[i] < bound
      modifies this
      ensures heap == FinAll(old(heap), vs).0 && freed == old(freed) + FinAll(old(heap), vs).1
      ensures next == old(next)
      decreases bound, 0, |ts|
    {
      hide Fin, FinAll, Rep, Sound, Ids, Stand;
      var i := 0;
      ghost var h0, log0 := heap, freed;
      assert vs[0..] == vs && ts[0..] == ts;
      StandLength(heap, vs, ts);
      while i < |vs|
        invariant i <= |vs| && next == old(next) && Stand(heap, vs[i..], ts[i..])
        invariant FinAll(heap, vs[i..]).0 == FinAll(h0, vs).0
        invariant freed + FinAll(heap, vs[i..]).1 == log0 + FinAll(h0, vs).1
      {
        FinFirst(heap, vs, i);
        assert vs[i..][0] == vs[i] && vs[i..][1..] == vs[i + 1..];
        assert ts[i..][0] == ts[i] && ts[i..][1..] == ts[i + 1..];
        StandFirst(heap, vs[i..], ts[i..]);
        StandAfter(heap, vs[i..], ts[i..]);
        Destroy(vs[i], ts[i]);
        i := i + 1;
      }
      FinNothing(heap, vs);
    }

    /** Copy a value; every container in it is made anew, and the value stays where it is. */
    method CopyValue(v: Value, ghost t: Tree) returns (w: Value)
      requires Rep(heap, v, t) && Sound(t) && Below(heap, next)
      modifies this
      ensures (heap, w, next) == Copy(old(heap), old(heap), old(next), v) && freed == old(freed)
      decreases t, 1, 0
    {
      hide Copy, CopyAll, Rep, Sound, Below;
      if !Holds(v) {
        CopyAtom(heap, next, v);
        w := v;
      } else {
        CopyContainer(heap, next, v, t);
        var o, id := heap[v.id], next;
        heap, next := heap[id := Obj(o.isMap, [], [])], next + 1;
        var keys, vals := o.keys, [];
        if o.isMap {
          keys, vals := CopyEntries(o.keys, o.vals, t.kids, t);
        } else {
          vals := CopyElements(o.vals, t.kids, t);
        }
        heap := heap[id := Obj(o.isMap, keys, vals)];
        w := if v.VMap? then VMap(id) else VSeq(id);
      }
    }

    /** A map's entries: gathered back to front, then turned round. */
    method CopyEntries(keys: seq<Sym>, vals: seq<Value>, ghost ts: seq<Tree>, ghost bound: Tree)
      returns (ks: seq<Sym>, ws: seq<Value>)
      requires |keys| == |vals| && Legible(heap, next, vals, ts) && forall i | 0 <= i < |ts| :: ts[i] < bound
      modifies this
      ensures (heap, ws, next) == CopyAll(old(heap), old(heap), old(next), vals)
      ensures ks == keys && freed == old(freed)
      decreases bound, 0, 1
    {
      var rk, rw := GatherEntries(keys, vals, ts, bound);
      ks, ws := TurnRound(rk, rw);
    }

    /** Each copy is put in front of those before it. */
    method GatherEntries(keys: seq<Sym>, vals: seq<Value>, ghost ts: seq<Tree>, ghost bound: Tree)
      returns (rk: seq<Sym>, rw: seq<Value>)
      requires |keys| == |vals| && Legible(heap, next, vals, ts) && forall i | 0 <= i < |ts| :: ts[i] < bound
      modifies this
      ensures (heap, Reversed(rw), next) == CopyAll(old(heap), old(heap), old(next), vals)
      ensures Reversed(rk) == keys && |rk| == |rw| && freed == old(freed)
      decreases bound, 0, 0
    {
      hide Copy, CopyAll, Reversed, Legible;
      var i := 0;
      rk, rw := [], [];
      ReversedNothing<Sym>();
      ReversedNothing<Value>();
      ghost var h0 := heap;
      ghost var r := CopyAll(h0, heap, next, vals);
      assert vals[0..] == vals;
      while i < |vals|
        invariant i <= |vals| && freed == old(freed) && |rk| == |rw| == i
        invariant Reversed(rk) == keys[..i]
        invariant Legible(h0, old(next), vals, ts) && Legible(heap, next, vals, ts)
        invariant var t := CopyAll(h0, heap, next, vals[i..]);
                  t.0 == r.0 && t.2 == r.2 && Reversed(rw) + t.1 == r.1
      {
        CopyFirst(h0, heap, next, vals, i);
        ReadNext(h0, old(next), heap, next, vals, ts, i);
        var w := CopyValue(vals[i], ts[i]);
        ReversedFront(rk, keys[i]);
        ReversedFront(rw, w);
        rk, rw := [keys[i]] + rk, [w] + rw;
        i := i + 1;
      }
      CopyNothing(h0, heap, next, vals);
      assert Reversed(rw) + [] == Reversed(rw);
      assert r == (heap, Reversed(rw), next);
    }

    method TurnRound(rk: seq<Sym>, rw: seq<Value>) returns (ks: seq<Sym>, ws: seq<Value>)
      requires |rk| == |rw|
      ensures ks == Reversed(rk) && ws == Reversed(rw)
    {
      var ik, iw := rk, rw;
      ks, ws := [], [];
      while ik != []
        invariant |ik| == |iw|
        invariant Reversed(ik) + ks == Reversed(rk) && Reversed(iw) + ws == Reversed(rw)
        decreases |ik|
      {
        ks, ik := [ik[0]] + ks, ik[1..];
        ws, iw := [iw[0]] + ws, iw[1..];
      }
    }

    /** A sequence's elements, each put at the end. */
    method CopyElements(vals: seq<Value>, ghost ts: seq<Tree>, ghost bound: Tree) returns (ws: seq<Value>)
      requires Legible(heap, next, vals, ts) && forall i | 0 <= i < |ts| :: ts[i] < bound
      modifies this
      ensures (heap, ws, next) == CopyAll(old(heap), old(heap), old(next), vals) && freed == old(freed)
      decreases bound, 0, 0
    {
      hide Copy, CopyAll, Legible;
      ws := [];
      var i := 0;
      ghost var h0 := heap;
      ghost var r := CopyAll(h0, heap, next, vals);
      assert vals[0..] == vals;
      while i < |vals|
        invariant i <= |vals| && freed == old(freed)
        invariant Legible(h0, old(next), vals, ts) && Legible(heap, next, vals, ts)
        invariant var t := CopyAll(h0, heap, next, vals[i..]); t.0 == r.0 && t.2 == r.2 && ws + t.1 == r.1
      {
        CopyFirst(h0, heap, next, vals, i);
        ReadNext(h0, old(next), heap, next, vals, ts, i);
        var w := CopyValue(vals[i], ts[i]);
        ws := ws + [w];
        i := i + 1;
      }
      CopyNothing(h0, heap, next, vals);
      assert ws + [] == ws;
      assert r == (heap, ws, next);
    }
  }

  lemma StandLength(h: Heap, vs: seq<Value>, ts: seq<Tree>)
    requires Stand(h, vs, ts)
    ensures |vs| == |ts|
  {
  }

  lemma StandFirst(h: Heap, vs: seq<Value>, ts: seq<Tree>)
    requires Stand(h, vs, ts) && ts != []
    ensures Rep(h, vs[0], ts[0]) && Sound(ts[0])
  {
  }

  /** The values can be read, and new names are free. */
  ghost predicate Legible(h: Heap, next: nat, vs: seq<Value>, ts: seq<Tree>) {
    && |vs| == |ts| && Below(h, next)
    && forall i | 0 <= i < |ts| :: Rep(h, vs[i], ts[i]) && Sound(ts[i])
  }

  /** The next value to copy can be read, reads the same as at the start, and copying it leaves the
      rest to be read. */
  lemma ReadNext(h0: Heap, n0: nat, h: Heap, next: nat, vs: seq<Value>, ts: seq<Tree>, i: nat)
    requires Legible(h0, n0, vs, ts) && Legible(h, next, vs, ts) && i < |vs|
    ensures |ts| == |vs| && Rep(h, vs[i], ts[i]) && Sound(ts[i]) && Below(h, next)
    ensures Copy(h, h, next, vs[i]) == Copy(h0, h, next, vs[i])
    ensures var (g, _, n) := Copy(h, h, next, vs[i]); Legible(g, n, vs, ts)
  {
    CopyReads(h, h0, h, next, vs[i], ts[i]);
    ReadAfterCopy(h, next, vs[i], ts[i], Copy(h, h, next, vs[i]).0, Copy(h, h, next, vs[i]).2, vs, ts);
  }
}
