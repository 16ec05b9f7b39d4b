/** Variables and values as the interpreter sees them: a stack of symbol tables over cells, and the
    cells over a heap of containers.  Every operation is total and does what the code does, so that
    what the invariants say is proved and never assumed.  A local `value` of the C code is a cell no
    table binds; one that is forgotten stays behind and can be seen to leak. */
module Store {
  import opened Wrappers
  import opened Heap

  datatype Bind = Bind(sym: Sym, loc: Loc)

  /** A block's variables, newest first. */
  type Table = seq<Bind>

  /** tables: bottom block first.  next: names not yet used, for cells and containers alike.
      freed: every container destroyed so far, in order.  ext: cells of the C caller's arguments. */
  datatype Store = Store(tables: seq<Table>, cells: map<Loc, Value>, heap: Heap, next: nat,
                         freed: seq<Id>, ext: set<Loc>)

  /** The address of a value: a variable, or an entry of a container. */
  datatype Slot = SCell(loc: Loc) | SKid(id: Id, idx: nat)

  function Get(s: Store, at: Slot): (v: Value) {
    match at
    case SCell(l) => if l in s.cells then s.cells[l] else VNone
    case SKid(id, i) => if id in s.heap && i < |s.heap[id].vals| then s.heap[id].vals[i] else VNone
  }

  function SetRaw(s: Store, at: Slot, v: Value): (r: Store) {
    match at
    case SCell(l) => if l in s.cells then s.(cells := s.cells[l := v]) else s
    case SKid(id, i) =>
      if id in s.heap && i < |s.heap[id].vals| then
        var o := s.heap[id];
        s.(heap := s.heap[id := o.(vals := o.vals[i := v])])
      else s
  }

  function Deref(s: Store, at: Slot): (r: Slot) {
    var v := Get(s, at);
    if v.VRef? then SCell(v.loc) else at
  }

  // ---------------------------------------------------------------- finding

  function Lookup(t: Table, sym: Sym): (r: Option<Loc>) {
    if t == [] then None
    else if t[0].sym == sym then Some(t[0].loc)
    else Lookup(t[1..], sym)
  }

  /** The variable a cell stands for: itself, or what it refers to. */
  function Target(s: Store, l: Loc): (r: Loc) {
    if l in s.cells && s.cells[l].VRef? then s.cells[l].loc else l
  }

  /** The variable called sym among the lowest k tables, seen through a reference. */
  function Resolve(s: Store, k: nat, sym: Sym): (r: Option<Loc>)
    requires k <= |s.tables|
  {
    if k == 0 then None
    else
      match Lookup(s.tables[k - 1], sym)
      case Some(l) => Some(Target(s, l))
      case None => Resolve(s, k - 1, sym)
  }

  function ResolveAny(s: Store, sym: Sym): (r: Option<Loc>) { Resolve(s, |s.tables|, sym) }

  /** Where sym stands in keys; |keys| when it does not. */
  function FindKey(keys: seq<Sym>, sym: Sym): (i: nat)
    ensures i <= |keys|
    ensures i < |keys| ==> keys[i] == sym
    ensures forall j | 0 <= j < i :: keys[j] != sym
  {
    if keys == [] || keys[0] == sym then 0 else 1 + FindKey(keys[1..], sym)
  }

  /** The entry called sym of the map at a slot. */
  function Entry(s: Store, at: Slot, sym: Sym): (r: Option<Slot>) {
    var v := Get(s, at);
    if v.VMap? && v.id in s.heap then
      var i := FindKey(s.heap[v.id].keys, sym);
      if i < |s.heap[v.id].keys| then Some(Deref(s, SKid(v.id, i))) else None
    else None
  }

  function Walk(s: Store, at: Slot, path: seq<Sym>): (r: Option<Slot>)
    decreases |path|
  {
    if path == [] then Some(at)
    else
      match Entry(s, at, path[0])
      case None => None
      case Some(next) => Walk(s, next, path[1..])
  }

  // ---------------------------------------------------------------- making, moving, destroying

  function Finalise(s: Store, v: Value): (r: Store) {
    var (h, log) := Fin(s.heap, v);
    s.(heap := h, freed := s.freed + log)
  }

  function Fresh(s: Store, v: Value): (r: (Store, Loc)) {
    (s.(cells := s.cells[s.next := v], next := s.next + 1), s.next)
  }

  /** A new empty container in a new cell. */
  function NewBox(s: Store, isMap: bool): (r: (Store, Loc)) {
    var id := s.next + 1;
    (s.(cells := s.cells[s.next := if isMap then VMap(id) else VSeq(id)],
        heap := s.heap[id := Obj(isMap, [], [])], next := s.next + 2), s.next)
  }

  /** Move what is at a slot into a new cell, leaving none behind. */
  function Take(s: Store, at: Slot): (r: (Store, Loc)) {
    Fresh(SetRaw(s, at, VNone), Get(s, at))
  }

  function Dup(s: Store, at: Slot): (r: (Store, Loc)) {
    var (h, w, n) := Copy(s.heap, s.heap, s.next, Get(s, at));
    Fresh(s.(heap := h, next := n), w)
  }

  /** Destroy a cell and what it holds. */
  function Drop(s: Store, l: Loc): (r: Store) {
    if l in s.cells then Finalise(s.(cells := s.cells - {l}), s.cells[l]) else s
  }

  /** Destroy what is at a slot. */
  function Clear(s: Store, at: Slot): (r: Store) {
    SetRaw(Finalise(s, Get(s, at)), at, VNone)
  }

  /** Fill a slot from cell tmp, which goes. */
  function Fill(s: Store, at: Slot, tmp: Loc): (r: Store) {
    if tmp in s.cells then
      var t := SetRaw(s, at, s.cells[tmp]);
      t.(cells := t.cells - {tmp})
    else s
  }

  function Put(s: Store, at: Slot, tmp: Loc): (r: Store) {
    Fill(Clear(s, at), at, tmp)
  }

  /** A new entry for container id: in front of a map, at the end of a sequence. */
  function AddKid(s: Store, id: Id, key: Sym, tmp: Loc): (r: Store) {
    if tmp in s.cells && id in s.heap then
      var o := s.heap[id];
      var n := if o.isMap then o.(keys := [key] + o.keys, vals := [s.cells[tmp]] + o.vals)
               else o.(vals := o.vals + [s.cells[tmp]]);
      s.(heap := s.heap[id := n], cells := s.cells - {tmp})
    else s
  }

  /** Overwrite the entry called sym, or add it. */
  function SetKey(s: Store, id: Id, sym: Sym, tmp: Loc): (r: Store) {
    if id in s.heap then
      var i := FindKey(s.heap[id].keys, sym);
      if i < |s.heap[id].keys| then Put(s, Deref(s, SKid(id, i)), tmp) else AddKid(s, id, sym, tmp)
    else s
  }

  // ---------------------------------------------------------------- tables

  /** The cells a table binds. */
  function LocsOf(t: Table): (r: set<Loc>) { set i | 0 <= i < |t| :: t[i].loc }

  function Top(s: Store): (t: Table) { if s.tables == [] then [] else s.tables[|s.tables| - 1] }

  function Under(s: Store): (ts: seq<Table>) { if s.tables == [] then [] else s.tables[..|s.tables| - 1] }

  function Push(s: Store): (r: Store) { s.(tables := s.tables + [[]]) }

  function BindTop(s: Store, sym: Sym, l: Loc): (r: Store)
  {
    s.(tables := Under(s) + [[Bind(sym, l)] + Top(s)])
  }

  /** Give sym a value in the top table: overwrite what it names there, or bind the cell itself. */
  function SetTop(s: Store, sym: Sym, tmp: Loc): (r: Store)
  {
    match Lookup(Top(s), sym)
    case Some(l) => Put(s, SCell(Target(s, l)), tmp)
    case None => BindTop(s, sym, tmp)
  }

  function DropAll(s: Store, t: Table): (r: Store)
    decreases |t|
  {
    if t == [] then s else DropAll(Drop(s, t[0].loc), t[1..])
  }

  function Pop(s: Store): (r: Store)
  {
    DropAll(s.(tables := Under(s)), Top(s))
  }

  /** Forget the top block's variables but keep the block. */
  function ClearTop(s: Store): (r: Store)
  {
    Push(Pop(s))
  }
}
