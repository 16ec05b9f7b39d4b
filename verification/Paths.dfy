/** Access paths into nested maps and sequences, and the values put, taken and duplicated there. */
module Paths {
  import opened Wrappers
  import opened Heap
  import opened Store

  /** One step of an access path: a symbol into a map, a number from 1 into a sequence. */
  function Step(s: Store, at: Slot, key: Value): (r: Option<Slot>) {
    match key
    case VSym(sym) => Entry(s, at, sym)
    case VInt(n) =>
      (match Get(s, at)
       case VSeq(id) => if id in s.heap && 1 <= n <= |s.heap[id].vals| then Some(SKid(id, n - 1)) else None
       case _ => None)
    case _ => None
  }

  function Reach(s: Store, at: Slot, keys: seq<Value>): (r: Option<Slot>)
    decreases |keys|
  {
    if keys == [] then Some(at)
    else
      match Step(s, at, keys[0])
      case None => None
      case Some(next) => Reach(s, next, keys[1..])
  }

  /** The path an accessor stands for: itself, or the values in a sequence that is not empty. */
  function KeysOf(s: Store, acc: Slot): (r: Option<seq<Value>>) {
    var v := Get(s, acc);
    match v
    case VInt(_) => Some([v])
    case VSym(_) => Some([v])
    case VSeq(id) => if id in s.heap && s.heap[id].vals != [] then Some(s.heap[id].vals) else None
    case _ => None
  }

  function Find(s: Store, cont: Slot, acc: Slot): (r: Option<Slot>) {
    match KeysOf(s, acc)
    case None => None
    case Some(keys) => Reach(s, cont, keys)
  }

  /** Move a value between slots: what was there is destroyed first. */
  function MoveValue(s: Store, to: Slot, from: Slot): (r: Store) {
    if to == from then s
    else
      var s1 := Clear(s, to);
      SetRaw(SetRaw(s1, to, Get(s1, from)), from, VNone)
  }

  /** Copy a value between slots.  Only containers have a copier, and only a copier destroys what was
      there. */
  function CopyValue(s: Store, to: Slot, from: Slot): (r: Store) {
    if to == from then s
    else if Holds(Get(s, from)) then
      var s1 := Clear(s, to);
      var (h, w, n) := Copy(s1.heap, s1.heap, s1.next, Get(s1, from));
      SetRaw(s1.(heap := h, next := n), to, w)
    else SetRaw(s, to, Get(s, from))
  }

  // ---------------------------------------------------------------- the library calls

  function OmniPut(s: Store, cont: Slot, acc: Slot, val: Slot): (r: Option<Store>) {
    match Find(s, cont, acc)
    case None => None
    case Some(at) => Some(MoveValue(s, at, val))
  }

  function OmniTake(s: Store, dst: Slot, cont: Slot, acc: Slot): (r: Option<Store>) {
    match Find(s, cont, acc)
    case None => None
    case Some(at) => Some(MoveValue(s, dst, at))
  }

  function OmniDupe(s: Store, dst: Slot, cont: Slot, acc: Slot): (r: Option<Store>) {
    match Find(s, cont, acc)
    case None => None
    case Some(at) => Some(CopyValue(s, dst, at))
  }

  // ---------------------------------------------------------------- the same on trees

  function Index(t: Tree, key: Value): (r: Option<nat>)
    ensures r.Some? ==> t.Node? && r.value < |t.kids|
  {
    if t.Leaf? then None
    else
      match key
      case VSym(sym) =>
        if t.isMap && FindKey(t.keys, sym) < |t.keys| && FindKey(t.keys, sym) < |t.kids|
          then Some(FindKey(t.keys, sym)) else None
      case VInt(n) => if !t.isMap && 1 <= n <= |t.kids| then Some(n - 1) else None
      case _ => None
  }

  function TreeGet(t: Tree, keys: seq<Value>): (r: Option<Tree>)
    decreases |keys|
  {
    if keys == [] then Some(t)
    else
      match Index(t, keys[0])
      case None => None
      case Some(i) => TreeGet(t.kids[i], keys[1..])
  }

  function TreePut(t: Tree, keys: seq<Value>, u: Tree): (r: Tree)
    requires TreeGet(t, keys).Some?
    decreases |keys|
  {
    if keys == [] then u
    else
      var i := Index(t, keys[0]).value;
      t.(kids := t.kids[i := TreePut(t.kids[i], keys[1..], u)])
  }

  /** The paths part ways: at some point they name different entries. */
  predicate Diverge(a: seq<Value>, b: seq<Value>) {
    exists i :: 0 <= i < |a| && i < |b| && a[i] != b[i] && a[..i] == b[..i]
  }

  /** Reading at, below, beside and above the place written. */
  lemma {:induction false} GetBelow(t: Tree, keys: seq<Value>, u: Tree, more: seq<Value>)
    requires TreeGet(t, keys).Some?
    ensures TreeGet(TreePut(t, keys, u), keys + more) == TreeGet(u, more)
    decreases |keys|
  {
    if keys == [] {
      assert keys + more == more;
    } else {
      var i := Index(t, keys[0]).value;
      GetBelow(t.kids[i], keys[1..], u, more);
      assert (keys + more)[1..] == keys[1..] + more;
    }
  }

  lemma {:induction false} GetBeside(t: Tree, keys: seq<Value>, u: Tree, other: seq<Value>)
    requires TreeGet(t, keys).Some? && Diverge(keys, other)
    ensures TreeGet(TreePut(t, keys, u), other) == TreeGet(t, other)
    decreases |keys|
  {
    var k :| 0 <= k < |keys| && k < |other| && keys[k] != other[k] && keys[..k] == other[..k];
    if k == 0 {
      if Index(t, other[0]).Some? { IndexDiffers(t, keys[0], other[0]); }
    } else {
      assert keys[..k][0] == other[..k][0];
      var i := Index(t, keys[0]).value;
      assert keys[1..][..k - 1] == keys[..k][1..] == other[..k][1..] == other[1..][..k - 1];
      assert Diverge(keys[1..], other[1..]);
      GetBeside(t.kids[i], keys[1..], u, other[1..]);
    }
  }

  lemma IndexDiffers(t: Tree, a: Value, b: Value)
    requires a != b && Index(t, a).Some? && Index(t, b).Some?
    ensures Index(t, a) != Index(t, b)
  {
  }

  lemma {:induction false} PutPut(t: Tree, keys: seq<Value>, u: Tree, w: Tree)
    requires TreeGet(t, keys).Some?
    ensures TreeGet(TreePut(t, keys, u), keys).Some?
    ensures TreePut(TreePut(t, keys, u), keys, w) == TreePut(t, keys, w)
    decreases |keys|
  {
    if keys == [] {
    } else {
      var i := Index(t, keys[0]).value;
      PutPut(t.kids[i], keys[1..], u, w);
      var p := TreePut(t, keys, u);
      assert Index(p, keys[0]) == Some(i);
      assert p.kids[i] == TreePut(t.kids[i], keys[1..], u);
      assert p.kids[i := TreePut(p.kids[i], keys[1..], w)] == t.kids[i := TreePut(t.kids[i], keys[1..], w)];
    }
  }
}
