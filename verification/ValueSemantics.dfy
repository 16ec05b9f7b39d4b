/** What right sides, assignments, declarations and arguments mean when containers are plain values:
    no heap, no addresses, nothing to destroy and nothing to leak. */
module ValueSemantics {
  import opened Wrappers
  import opened Heap
  import opened Store
  import opened Language

  /** The variables and what they hold; a reference is a leaf naming another variable. */
  datatype World = World(tables: seq<Table>, cells: map<Loc, Plain>)

  function Content(w: World, l: Loc): (p: Plain) { if l in w.cells then w.cells[l] else PLeaf(VNone) }

  function Hold(w: World, l: Loc, p: Plain): (r: World) { w.(cells := w.cells[l := p]) }

  function Denoted(w: World, k: nat, sym: Sym): (r: Option<Loc>)
    requires k <= |w.tables|
  {
    if k == 0 then None
    else
      match Lookup(w.tables[k - 1], sym)
      case Some(l) =>
        var p := Content(w, l);
        Some(if p.PLeaf? && p.v.VRef? then p.v.loc else l)
      case None => Denoted(w, k - 1, sym)
  }

  function DenotedAny(w: World, sym: Sym): (r: Option<Loc>) { Denoted(w, |w.tables|, sym) }

  // ---------------------------------------------------------------- plain values

  function EntryOf(p: Plain, sym: Sym): (r: Option<nat>)
    ensures r.Some? ==> p.PNode? && r.value < |p.kids|
  {
    if p.PNode? && p.isMap && FindKey(p.keys, sym) < |p.keys| && FindKey(p.keys, sym) < |p.kids|
    then Some(FindKey(p.keys, sym)) else None
  }

  function Read(p: Plain, path: seq<Sym>): (r: Option<Plain>)
    decreases |path|
  {
    if path == [] then Some(p)
    else
      match EntryOf(p, path[0])
      case None => None
      case Some(i) => Read(p.kids[i], path[1..])
  }

  function Write(p: Plain, path: seq<Sym>, q: Plain): (r: Plain)
    requires Read(p, path).Some?
    decreases |path|
  {
    if path == [] then q
    else
      var i := EntryOf(p, path[0]).value;
      p.(kids := p.kids[i := Write(p.kids[i], path[1..], q)])
  }

  /** A map's entry is replaced, or comes first; a sequence's comes last. */
  function With(p: Plain, key: Sym, q: Plain): (r: Plain) {
    if p.PLeaf? then p
    else if !p.isMap then p.(kids := p.kids + [q])
    else if EntryOf(p, key).Some? then p.(kids := p.kids[EntryOf(p, key).value := q])
    else p.(keys := [key] + p.keys, kids := [q] + p.kids)
  }

  /** A value as an expression sees it. */
  function Shown(p: Plain): (v: Value) { if p.PLeaf? then Expressible(p.v) else VErr }

  datatype MapFound = MapIn(l: Loc, m: Plain) | NoMap(e: Error)

  function FindMap(w: World, a: Access): (r: MapFound) {
    match DenotedAny(w, a.root)
    case None => NoMap(UndeclaredVar)
    case Some(l) =>
      match Read(Content(w, l), a.mids)
      case None => NoMap(InvalidMapAccess)
      case Some(m) => if m.PNode? && m.isMap then MapIn(l, m) else NoMap(InvalidMapAccess)
  }

  function ValueOf(fl: Floats, w: World, e: Expr): (r: Option<Value>) {
    match e
    case EInt(n) => Some(VInt(n))
    case EFloat(x) => Some(VFloat(x))
    case ESym(y) => Some(VSym(y))
    case EStr(t) => Some(VStr(t))
    case EId(x) =>
      (match DenotedAny(w, x)
       case None => None
       case Some(l) => Some(Shown(Content(w, l))))
    case EAccess(a) =>
      (match FindMap(w, a)
       case NoMap(_) => None
       case MapIn(_, m) =>
         match EntryOf(m, a.last)
         case None => Some(VNone)
         case Some(i) => Some(Shown(m.kids[i])))
    case ENeg(f) =>
      (match ValueOf(fl, w, f)
       case None => None
       case Some(v) =>
         match v
         case VErr => Some(VErr)
         case VInt(n) => Some(VInt(-n))
         case VFloat(x) => Some(VFloat(fl.neg(x)))
         case _ => None)
    case ENot(f) =>
      (match ValueOf(fl, w, f)
       case None => None
       case Some(v) => Some(if v.VErr? then VErr else if IsTrue(fl, v) then VInt(0) else VInt(1)))
    case EBin(op, l, r) =>
      (match ValueOf(fl, w, l)
       case None => None
       case Some(VErr) => Some(VErr)
       case Some(a) =>
         match ValueOf(fl, w, r)
         case None => None
         case Some(VErr) => Some(VErr)
         case Some(b) => BiOp(fl, op, a, b))
  }

  // ---------------------------------------------------------------- right sides

  datatype Made = Made(w: World, p: Plain) | Unmade(w: World, e: Error)

  /** What a right side makes, and the world once its moves are done. */
  function Make(fl: Floats, w: World, rhs: Rhs): (r: Made)
    ensures r.w.tables == w.tables
    decreases rhs
  {
    match rhs
    case RExpr(e) =>
      (match ValueOf(fl, w, e)
       case None => Unmade(w, InvalidExpression)
       case Some(v) => Made(w, PLeaf(v)))
    case RInit(isMap, items) => MakeItems(fl, w, PNode(isMap, [], []), items)
    case RMoveId(x) => MakeNamed(w, |w.tables|, x, true)
    case RCopyId(x) => MakeNamed(w, |w.tables|, x, false)
    case RMoveAccess(a) => MakeEntry(w, a, InvalidMapAccess, true)
    case RCopyAccess(a) => MakeEntry(w, a, InvalidMapAccess, false)
  }

  function MakeNamed(w: World, k: nat, x: Sym, move: bool): (r: Made)
    requires k <= |w.tables|
  {
    match Denoted(w, k, x)
    case None => Unmade(w, UndeclaredVar)
    case Some(l) => Made(if move then Hold(w, l, PLeaf(VNone)) else w, Content(w, l))
  }

  function MakeEntry(w: World, a: Access, e: Error, move: bool): (r: Made) {
    match DenotedAny(w, a.root)
    case None => Unmade(w, e)
    case Some(l) =>
      var path := a.mids + [a.last];
      match Read(Content(w, l), path)
      case None => Unmade(w, e)
      case Some(q) => Made(if move then Hold(w, l, Write(Content(w, l), path, PLeaf(VNone))) else w, q)
  }

  function MakeItems(fl: Floats, w: World, box: Plain, items: seq<Item>): (r: Made)
    ensures r.w.tables == w.tables
    decreases items
  {
    if items == [] then Made(w, box)
    else
      match MakeItem(fl, w, items[0])
      case Unmade(w1, e) => Unmade(w1, e)
      case Made(w1, p) => MakeItems(fl, w1, With(box, items[0].key, p), items[1..])
  }

  function MakeItem(fl: Floats, w: World, item: Item): (r: Made)
    ensures r.w.tables == w.tables
    decreases item
  {
    Make(fl, w, item.rhs)
  }

  // ---------------------------------------------------------------- blocks

  /** A block without variables on top. */
  function Opened(w: World): (r: World) { w.(tables := w.tables + [[]]) }

  /** The top block gone, and its variables with it. */
  function Closed(w: World): (r: World)
    requires w.tables != []
  {
    var n := |w.tables| - 1;
    World(w.tables[..n], w.cells - LocsOf(w.tables[n]))
  }

  // ---------------------------------------------------------------- statements

  datatype After = Then(w: World) | Not(w: World, e: Error)

  function SetVariable(fl: Floats, w: World, x: Sym, rhs: Rhs): (r: After) {
    match Make(fl, w, rhs)
    case Unmade(w1, e) => Not(w1, e)
    case Made(w1, p) =>
      match DenotedAny(w1, x)
      case None => Not(w1, UndeclaredVar)
      case Some(l) => Then(Hold(w1, l, p))
  }

  function SetEntry(fl: Floats, w: World, a: Access, rhs: Rhs): (r: After) {
    match Make(fl, w, rhs)
    case Unmade(w1, e) => Not(w1, e)
    case Made(w1, p) =>
      match FindMap(w1, a)
      case NoMap(e) => Not(w1, e)
      case MapIn(l, m) => Then(Hold(w1, l, Write(Content(w1, l), a.mids, With(m, a.last, p))))
  }

  /** Names for new variables: all different, and none of them taken. */
  predicate Unused(taken: set<Loc>, names: seq<Loc>) {
    && (forall l | l in names :: l !in taken)
    && forall i, j | 0 <= i < j < |names| :: names[i] != names[j]
  }

  /** A new variable l in the top block. */
  function NewVariable(w: World, sym: Sym, l: Loc, p: Plain): (r: World)
    requires w.tables != []
  {
    var n := |w.tables| - 1;
    World(w.tables[..n] + [[Bind(sym, l)] + w.tables[n]], w.cells[l := p])
  }

  /** Declarations from left to right; `names` are the cells the new variables get. */
  function Introduce(fl: Floats, w: World, items: seq<DeclItem>, names: seq<Loc>): (r: After)
    requires w.tables != [] && |names| >= |items|
    ensures |r.w.tables| == |w.tables|
    decreases |items|
  {
    if items == [] then Then(w)
    else if Lookup(w.tables[|w.tables| - 1], items[0].sym).Some? then Not(w, Redeclared)
    else
      match (match items[0].rhs case None => Made(w, PLeaf(VNone)) case Some(rhs) => Make(fl, w, rhs))
      case Unmade(w1, e) => Not(w1, e)
      case Made(w1, p) =>
        Introduce(fl, NewVariable(w1, items[0].sym, names[0], p), items[1..], names[1..])
  }

  /** What an argument passes: bare, moved and copied identifiers belong to the caller's blocks. */
  function MakeArg(fl: Floats, w: World, arg: Arg): (r: Made)
    requires w.tables != []
    ensures r.w.tables == w.tables
  {
    var k := |w.tables| - 1;
    match arg
    case ById(x) =>
      (match Denoted(w, k, x)
       case None => Unmade(w, UndeclaredVar)
       case Some(l) => Made(w, PLeaf(VRef(l))))
    case ByRhs(rhs) =>
      match rhs
      case RMoveId(x) => MakeNamed(w, k, x, true)
      case RCopyId(x) => MakeNamed(w, k, x, false)
      case RMoveAccess(a) => MakeEntry(w, a, UndeclaredVar, true)
      case RCopyAccess(a) => MakeEntry(w, a, UndeclaredVar, false)
      case _ => Make(fl, w, rhs)
  }

  /** Formals, all different, take their arguments from left to right, and none once there are no
      more; arguments beyond the formals are not looked at. */
  function PassArgs(fl: Floats, w: World, formals: seq<Sym>, args: seq<Arg>, names: seq<Loc>): (r: After)
    requires w.tables != [] && |names| >= |formals|
    ensures |r.w.tables| == |w.tables|
    decreases |formals|
  {
    if formals == [] then Then(w)
    else
      match (if args == [] then Made(w, PLeaf(VNone)) else MakeArg(fl, w, args[0]))
      case Unmade(w1, e) => Not(w1, e)
      case Made(w1, p) =>
        PassArgs(fl, NewVariable(w1, formals[0], names[0], p), formals[1..],
                 if args == [] then [] else args[1..], names[1..])
  }
}
