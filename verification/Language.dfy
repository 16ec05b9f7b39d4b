/** Programs and what their statements do to the store, up to control flow. */
module Language {
  import opened Wrappers
  import opened Heap
  import opened Store

  datatype BinOp = Plus | Minus | Times | Divide | Less | Greater | Equal | And | Or

  /** root.mids.last */
  datatype Access = Access(root: Sym, mids: seq<Sym>, last: Sym)

  datatype Expr =
    | EInt(n: int) | EFloat(x: Float) | ESym(s: Sym) | EStr(str: nat)
    | EId(sym: Sym) | EAccess(a: Access)
    | ENeg(e: Expr) | ENot(e: Expr) | EBin(op: BinOp, l: Expr, r: Expr)

  /** The right side of an assignment, a declaration, an entry of an initialiser or an argument.
      A move empties its source; a copy leaves it. */
  datatype Rhs =
    | RExpr(e: Expr) | RInit(isMap: bool, items: seq<Item>)
    | RMoveId(sym: Sym) | RCopyId(sym: Sym) | RMoveAccess(a: Access) | RCopyAccess(a: Access)

  /** An entry of an initialiser; a sequence's have no use for the key. */
  datatype Item = Item(key: Sym, rhs: Rhs)

  datatype Arg = ById(sym: Sym) | ByRhs(rhs: Rhs)

  datatype DeclItem = DeclItem(sym: Sym, rhs: Option<Rhs>)

  /** A mark is a label; 0 is none. */
  datatype Body = Body(mark: Sym, stmts: seq<Stmt>)

  datatype Stmt =
    | Decl(items: seq<DeclItem>)
    | AssignVar(sym: Sym, rhs: Rhs)
    | AssignEntry(a: Access, rhs: Rhs)
    | If(cond: Expr, body: Body)
    | Block(body: Body)
    | CallA(proc: Sym, args: Option<seq<Arg>>)
    | CallB(lib: Sym, proc: Sym, args: Option<seq<Arg>>)
    | Leave(mark: Sym)
    | Redo(mark: Sym)

  datatype Proc = Proc(name: Sym, formals: seq<Sym>, stmts: seq<Stmt>)

  type LibId = nat

  /** A library's own procedures and the libraries it loaded, if it loaded any. */
  datatype Library = Library(procs: map<Sym, Proc>, libs: Option<map<Sym, LibId>>)

  /** What the machine's float arithmetic does. */
  datatype Floats = Floats(ofInt: int -> Float, neg: Float -> Float, isZero: Float -> bool,
                           arith: (BinOp, Float, Float) -> Float, less: (Float, Float) -> bool)

  datatype Program = Program(libs: map<LibId, Library>, omnis: map<Sym, LibId>, fl: Floats)

  datatype Error = UndeclaredVar | InvalidExpression | InvalidMapAccess | Redeclared | UnknownProc | UnknownLib

  // ---------------------------------------------------------------- expressions

  /** C's division, which truncates. */
  function Quotient(a: int, b: int): (q: int)
    requires b != 0
  {
    if a >= 0 then a / b else -((-a) / b)
  }

  function Truth(b: bool): (v: Value) { VInt(if b then 1 else 0) }

  predicate IsTrue(fl: Floats, v: Value) {
    (v.VInt? && v.n != 0) || (v.VFloat? && !fl.isZero(v.x))
  }

  function IntOp(op: BinOp, a: int, b: int): (v: Value)
    requires op !in {Equal, And, Or}
  {
    match op
    case Plus => VInt(a + b)
    case Minus => VInt(a - b)
    case Times => VInt(a * b)
    case Divide => if b == 0 then VErr else VInt(Quotient(a, b))
    case Less => Truth(a < b)
    case Greater => Truth(a > b)
  }

  function FloatOp(fl: Floats, op: BinOp, a: Float, b: Float): (v: Value)
    requires op !in {Equal, And, Or}
  {
    match op
    case Less => Truth(fl.less(a, b))
    case Greater => Truth(fl.less(b, a))
    case _ => VFloat(fl.arith(op, a, b))
  }

  /** None is an error; VErr is a value. */
  function BiOp(fl: Floats, op: BinOp, a: Value, b: Value): (r: Option<Value>) {
    match op
    case Equal => Some(Truth(a == b))
    case And => Some(Truth(IsTrue(fl, a) && IsTrue(fl, b)))
    case Or => Some(Truth(IsTrue(fl, a) || IsTrue(fl, b)))
    case _ =>
      if a.VInt? && b.VInt? then Some(IntOp(op, a.n, b.n))
      else if a.VInt? && b.VFloat? then Some(FloatOp(fl, op, fl.ofInt(a.n), b.x))
      else if a.VFloat? && b.VInt? then Some(FloatOp(fl, op, a.x, fl.ofInt(b.n)))
      else if a.VFloat? && b.VFloat? then Some(FloatOp(fl, op, a.x, b.x))
      else None
  }

  /** Expressions see containers and references as errors. */
  function Expressible(v: Value): (r: Value) { if Holds(v) || v.VRef? then VErr else v }

  function Eval(fl: Floats, s: Store, e: Expr): (r: Option<Value>) {
    match e
    case EInt(n) => Some(VInt(n))
    case EFloat(x) => Some(VFloat(x))
    case ESym(y) => Some(VSym(y))
    case EStr(t) => Some(VStr(t))
    case EId(x) =>
      (match ResolveAny(s, x)
       case None => None
       case Some(l) => Some(Expressible(Get(s, SCell(l)))))
    case EAccess(a) =>
      (match MapAt(s, a)
       case Err(_) => None
       case Ok(at) =>
         match Entry(s, at, a.last)
         case None => Some(VNone)
         case Some(k) => Some(Expressible(Get(s, k))))
    case ENeg(f) =>
      (match Eval(fl, s, f)
       case None => None
       case Some(v) =>
         if v.VErr? || v.VInt? || v.VFloat?
         then Some(if v.VInt? then VInt(-v.n) else if v.VFloat? then VFloat(fl.neg(v.x)) else VErr)
         else None)
    case ENot(f) =>
      (match Eval(fl, s, f)
       case None => None
       case Some(v) => Some(if v.VErr? then VErr else Truth(!IsTrue(fl, v))))
    case EBin(op, l, r) =>
      (match Eval(fl, s, l)
       case None => None
       case Some(a) =>
         if a.VErr? then Some(VErr)
         else
           match Eval(fl, s, r)
           case None => None
           case Some(b) => if b.VErr? then Some(VErr) else BiOp(fl, op, a, b))
  }

  datatype Found = Ok(at: Slot) | Err(e: Error)

  /** The map that has, or is to have, the last symbol of an access as an entry. */
  function MapAt(s: Store, a: Access): (r: Found) {
    match ResolveAny(s, a.root)
    case None => Err(UndeclaredVar)
    case Some(l) =>
      match Walk(s, SCell(l), a.mids)
      case None => Err(InvalidMapAccess)
      case Some(at) => if Get(s, at).VMap? then Ok(at) else Err(InvalidMapAccess)
  }

  /** The entry an access names. */
  function EntryAt(s: Store, a: Access): (r: Option<Slot>) {
    match ResolveAny(s, a.root)
    case None => None
    case Some(l) => Walk(s, SCell(l), a.mids + [a.last])
  }

  // ---------------------------------------------------------------- values on the right

  /** A new cell with the value, or an error; either way what was done to the store stays. */
  datatype Built = Got(s: Store, l: Loc) | Bad(s: Store, e: Error)

  function Build(fl: Floats, s: Store, rhs: Rhs): (r: Built)
    decreases rhs
  {
    match rhs
    case RExpr(e) =>
      (match Eval(fl, s, e)
       case None => Bad(s, InvalidExpression)
       case Some(v) => Pack(Fresh(s, v)))
    case RInit(isMap, items) =>
      var (s1, c) := NewBox(s, isMap);
      BuildItems(fl, s1, c, items)
    case RMoveId(x) => OnFound(Variable(s, |s.tables|, x), UndeclaredVar, s, true)
    case RCopyId(x) => OnFound(Variable(s, |s.tables|, x), UndeclaredVar, s, false)
    case RMoveAccess(a) => OnFound(EntryAt(s, a), InvalidMapAccess, s, true)
    case RCopyAccess(a) => OnFound(EntryAt(s, a), InvalidMapAccess, s, false)
  }

  function Variable(s: Store, k: nat, x: Sym): (r: Option<Slot>)
    requires k <= |s.tables|
  {
    match Resolve(s, k, x)
    case None => None
    case Some(l) => Some(SCell(l))
  }

  function Pack(p: (Store, Loc)): (r: Built) { Got(p.0, p.1) }

  function OnFound(at: Option<Slot>, e: Error, s: Store, move: bool): (r: Built) {
    match at
    case None => Bad(s, e)
    case Some(slot) => Pack(if move then Take(s, slot) else Dup(s, slot))
  }

  /** Fill the container in cell c. */
  function BuildItems(fl: Floats, s: Store, c: Loc, items: seq<Item>): (r: Built)
    decreases items
  {
    if items == [] then Got(s, c)
    else
      match BuildItem(fl, s, items[0])
      case Bad(s1, e) => Bad(s1, e)
      case Got(s1, t) => BuildItems(fl, AddItem(s1, c, items[0].key, t), c, items[1..])
  }

  function BuildItem(fl: Floats, s: Store, item: Item): (r: Built)
    decreases item
  {
    Build(fl, s, item.rhs)
  }

  function AddItem(s: Store, c: Loc, key: Sym, t: Loc): (r: Store) {
    match Get(s, SCell(c))
    case VMap(id) => SetKey(s, id, key, t)
    case VSeq(id) => AddKid(s, id, key, t)
    case _ => s
  }

  // ---------------------------------------------------------------- statements that stay in the block

  datatype Outcome = Good(s: Store) | Failed(s: Store, e: Error)

  function Declare(fl: Floats, s: Store, items: seq<DeclItem>): (r: Outcome)
    decreases |items|
  {
    if items == [] then Good(s)
    else if Lookup(Top(s), items[0].sym).Some? then Failed(s, Redeclared)
    else
      match (match items[0].rhs
             case None => Pack(Fresh(s, VNone))
             case Some(rhs) => Build(fl, s, rhs))
      case Bad(s1, e) => Failed(s1, e)
      case Got(s1, t) => Declare(fl, SetTop(s1, items[0].sym, t), items[1..])
  }

  /** The right side is built before the left is looked for. */
  function DoAssignVar(fl: Floats, s: Store, x: Sym, rhs: Rhs): (r: Outcome) {
    match Build(fl, s, rhs)
    case Bad(s1, e) => Failed(s1, e)
    case Got(s1, t) =>
      match ResolveAny(s1, x)
      case None => Failed(s1, UndeclaredVar)
      case Some(l) => Good(Put(s1, SCell(l), t))
  }

  function DoAssignEntry(fl: Floats, s: Store, a: Access, rhs: Rhs): (r: Outcome) {
    match Build(fl, s, rhs)
    case Bad(s1, e) => Failed(s1, e)
    case Got(s1, t) =>
      match MapAt(s1, a)
      case Err(e) => Failed(s1, e)
      case Ok(at) => Good(SetKey(s1, Get(s1, at).id, a.last, t))
  }

  // ---------------------------------------------------------------- calls

  /** Arguments go into the new block's table, which is already on top.  Bare, moved and copied
      identifiers are looked up in the caller's blocks only; the rest sees the arguments so far. */
  function BindArgs(fl: Floats, s: Store, formals: seq<Sym>, args: seq<Arg>): (r: Outcome)
    decreases |formals|
  {
    if formals == [] then Good(s)
    else if args == [] then BindArgs(fl, SetTop(Fresh(s, VNone).0, formals[0], s.next), formals[1..], [])
    else
      match BuildArg(fl, s, args[0])
      case Bad(s1, e) => Failed(s1, e)
      case Got(s1, t) => BindArgs(fl, SetTop(s1, formals[0], t), formals[1..], args[1..])
  }

  function BuildArg(fl: Floats, s: Store, arg: Arg): (r: Built) {
    var k := |Under(s)|;
    match arg
    case ById(x) =>
      (match Resolve(s, k, x)
       case None => Bad(s, UndeclaredVar)
       case Some(l) => Pack(Fresh(s, VRef(l))))
    case ByRhs(rhs) =>
      match rhs
      case RMoveId(x) => OnFound(Variable(s, k, x), UndeclaredVar, s, true)
      case RCopyId(x) => OnFound(Variable(s, k, x), UndeclaredVar, s, false)
      case RMoveAccess(a) => OnFound(EntryAt(s, a), UndeclaredVar, s, true)
      case RCopyAccess(a) => OnFound(EntryAt(s, a), UndeclaredVar, s, false)
      case _ => Build(fl, s, rhs)
  }

  /** Open a block for proc; without an argument list its formals stay unbound. */
  function Open(fl: Floats, s: Store, proc: Proc, args: Option<seq<Arg>>): (r: Outcome) {
    match args
    case None => Good(Push(s))
    case Some(list) =>
      match BindArgs(fl, Push(s), proc.formals, list)
      case Failed(s1, e) => Failed(Pop(s1), e)
      case Good(s1) => Good(s1)
  }

  function FindProc(P: Program, lib: LibId, proc: Sym): (r: Option<Proc>) {
    if lib in P.libs && proc in P.libs[lib].procs then Some(P.libs[lib].procs[proc]) else None
  }

  datatype LibFound = Lib(lib: LibId) | NoLib(e: Error)

  /** A library by the name a call gives it: global names first. */
  function FindLib(P: Program, lib: LibId, name: Sym): (r: LibFound) {
    if name in P.omnis then Lib(P.omnis[name])
    else if lib !in P.libs || P.libs[lib].libs.None? then NoLib(UnknownLib)
    else
      var libs := P.libs[lib].libs.value;
      if name in libs then Lib(libs[name]) else NoLib(UnknownProc)
  }
}
