/** The interpreter's environment as the code has it: one object that every statement updates in
    place.  Each method is tied to the function that says what it does. */
module ExecEnv {
  import opened Wrappers
  import opened Heap
  import opened Store
  import opened Language
  import opened Machine
  import Paths
  import PathTheorems
  import opened OwnershipSlots

  datatype Flow = Going | Stop(e: Error)

  class Env {
    var blocks: seq<Frame>
    var values: Store
    var lib: LibId
    var skip: bool

    constructor (fs: seq<Frame>, s: Store, l: LibId)
      ensures blocks == fs && values == s && lib == l && !skip
    {
      blocks, values, lib, skip := fs, s, l, false;
    }

    // -------------------------------------------------------------- variables

    /** Overwrite a map's entry, found by going down the list, or put a new one in front. */
    method SetSymbol(id: Id, sym: Sym, tmp: Loc)
      modifies this`values
      ensures values == SetKey(old(values), id, sym, tmp)
    {
      if id !in values.heap { return; }
      var keys := values.heap[id].keys;
      var i := 0;
      while i < |keys|
        invariant i <= |keys| && FindKey(keys, sym) == i + FindKey(keys[i..], sym)
        invariant values == old(values)
      {
        if keys[i] == sym {
          values := Put(values, Deref(values, SKid(id, i)), tmp);
          return;
        }
        i := i + 1;
      }
      values := AddKid(values, id, sym, tmp);
    }

    /** The variable called sym in the lowest k tables: tables from the top one down, each from its
        newest variable on. */
    method FindVariable(k: nat, sym: Sym) returns (r: Option<Loc>)
      requires k <= |values.tables|
      ensures r == Resolve(values, k, sym)
    {
      var d := k;
      while d > 0
        invariant 0 <= d <= k && Resolve(values, k, sym) == Resolve(values, d, sym)
      {
        var t, i := values.tables[d - 1], 0;
        while i < |t|
          invariant i <= |t| && Lookup(t, sym) == Lookup(t[i..], sym)
        {
          if t[i].sym == sym {
            return Some(Target(values, t[i].loc));
          }
          i := i + 1;
        }
        d := d - 1;
      }
      return None;
    }

    /** Go down an access path, one container at a time. */
    method AccessCompound(cont: Slot, acc: Slot) returns (r: Option<Slot>)
      ensures r == Paths.Find(values, cont, acc)
    {
      var keys := Paths.KeysOf(values, acc);
      if keys.None? { return None; }
      var path, at, i := keys.value, cont, 0;
      while i < |path|
        invariant i <= |path| && Paths.Reach(values, cont, path) == Paths.Reach(values, at, path[i..])
      {
        assert path[i..][0] == path[i] && path[i..][1..] == path[i + 1..];
        var next := Paths.Step(values, at, path[i]);
        if next.None? { return None; }
        at := next.value;
        i := i + 1;
      }
      return Some(at);
    }

    /** Move a value, destroying what was there. */
    method MoveInto(to: Slot, from: Slot)
      modifies this`values
      ensures values == Paths.MoveValue(old(values), to, from)
      ensures to == from ==> values == old(values)
      ensures forall F, lt, lf | old(PathTheorems.Separate(values, F, to, lt, from, lf)) ::
                PathTheorems.Moved(old(values), values, to, from, Ids(TreeAt(old(values), F, to, lt)))
    {
      forall F, lt, lf | PathTheorems.Separate(values, F, to, lt, from, lf)
        ensures PathTheorems.Moved(values, Paths.MoveValue(values, to, from), to, from, Ids(TreeAt(values, F, to, lt)))
      {
        PathTheorems.MoveEffect(values, F, to, lt, from, lf);
      }
      if to == from { return; }
      values := Clear(values, to);
      values := SetRaw(values, to, Get(values, from));
      values := SetRaw(values, from, VNone);
    }

    method OmniPut(cont: Slot, acc: Slot, val: Slot) returns (ok: bool)
      modifies this`values
      ensures ok == Paths.OmniPut(old(values), cont, acc, val).Some?
      ensures values == if ok then Paths.OmniPut(old(values), cont, acc, val).value else old(values)
    {
      var at := AccessCompound(cont, acc);
      ok := at.Some?;
      if ok { MoveInto(at.value, val); }
    }

    method OmniTake(dst: Slot, cont: Slot, acc: Slot) returns (ok: bool)
      modifies this`values
      ensures ok == Paths.OmniTake(old(values), dst, cont, acc).Some?
      ensures values == if ok then Paths.OmniTake(old(values), dst, cont, acc).value else old(values)
    {
      var at := AccessCompound(cont, acc);
      ok := at.Some?;
      if ok { MoveInto(dst, at.value); }
    }

    method OmniDupe(dst: Slot, cont: Slot, acc: Slot) returns (ok: bool)
      modifies this`values
      ensures ok == Paths.OmniDupe(old(values), dst, cont, acc).Some?
      ensures values == if ok then Paths.OmniDupe(old(values), dst, cont, acc).value else old(values)
    {
      var at := AccessCompound(cont, acc);
      ok := at.Some?;
      if ok { values := Paths.CopyValue(values, dst, at.value); }
    }

    // -------------------------------------------------------------- declarations and arguments

    method DeclareVariable(fl: Floats, items: seq<DeclItem>) returns (r: Flow)
      modifies this`values
      ensures Declare(fl, old(values), items) == (if r.Going? then Good(values) else Failed(values, r.e))
    {
      var i := 0;
      while i < |items|
        invariant i <= |items| && Declare(fl, old(values), items) == Declare(fl, values, items[i..])
      {
        var item := items[i];
        assert items[i..][0] == item && items[i..][1..] == items[i + 1..];
        if Lookup(Top(values), item.sym).Some? { return Stop(Redeclared); }
        var b := match item.rhs case None => Pack(Fresh(values, VNone)) case Some(rhs) => Build(fl, values, rhs);
        values := b.s;
        if b.Bad? { return Stop(b.e); }
        values := SetTop(values, item.sym, b.l);
        i := i + 1;
      }
      return Going;
    }

    /** Fill a container from an initialiser, item by item. */
    method FillInitialiser(fl: Floats, c: Loc, items: seq<Item>) returns (r: Flow)
      modifies this`values
      ensures BuildItems(fl, old(values), c, items) == (if r.Going? then Got(values, c) else Bad(values, r.e))
    {
      var i := 0;
      while i < |items|
        invariant i <= |items| && BuildItems(fl, old(values), c, items) == BuildItems(fl, values, c, items[i..])
      {
        assert items[i..][0] == items[i] && items[i..][1..] == items[i + 1..];
        var b := BuildItem(fl, values, items[i]);
        values := b.s;
        if b.Bad? { return Stop(b.e); }
        values := AddItem(values, c, items[i].key, b.l);
        i := i + 1;
      }
      return Going;
    }

    /** Each formal in turn takes the next argument, or none when there are no more. */
    method InsertArgs(fl: Floats, formals: seq<Sym>, args: seq<Arg>) returns (r: Flow)
      modifies this`values
      ensures BindArgs(fl, old(values), formals, args) == (if r.Going? then Good(values) else Failed(values, r.e))
    {
      var i, left := 0, args;
      while i < |formals|
        invariant i <= |formals|
        invariant BindArgs(fl, old(values), formals, args) == BindArgs(fl, values, formals[i..], left)
      {
        assert formals[i..][0] == formals[i] && formals[i..][1..] == formals[i + 1..];
        if left == [] {
          var t := values.next;
          values := SetTop(Fresh(values, VNone).0, formals[i], t);
        } else {
          var b := BuildArg(fl, values, left[0]);
          values := b.s;
          if b.Bad? { return Stop(b.e); }
          values := SetTop(values, formals[i], b.l);
          left := left[1..];
        }
        i := i + 1;
      }
      return Going;
    }

    // -------------------------------------------------------------- blocks

    method PushBlock(b: Body)
      modifies this
      ensures blocks == old(blocks) + [BlockFrame(b, lib)] && values == Push(old(values))
      ensures lib == old(lib) && skip == old(skip)
    {
      blocks := blocks + [BlockFrame(b, lib)];
      values := Push(values);
    }

    /** Destroy the top block's variables one by one, newest first. */
    method PopBlock()
      requires blocks != []
      modifies this
      ensures blocks == Front(old(blocks)) && values == Pop(old(values))
      ensures lib == LibUnder(Last(old(blocks)), old(lib)) && skip == old(skip)
    {
      var b := Last(blocks);
      blocks := Front(blocks);
      if b.back.Some? { lib := b.back.value; }
      var t := Top(values);
      values := values.(tables := Under(values));
      var i := 0;
      while i < |t|
        invariant i <= |t| && DropAll(values, t[i..]) == Pop(old(values))
        invariant blocks == Front(old(blocks)) && lib == LibUnder(Last(old(blocks)), old(lib)) && skip == old(skip)
      {
        assert t[i..][0] == t[i] && t[i..][1..] == t[i + 1..];
        values := Drop(values, t[i].loc);
        i := i + 1;
      }
    }

    method ExecuteBreak(l: Sym)
      requires blocks != []
      modifies this
      ensures skip == old(skip)
      ensures LeaveTo(l, old(blocks), old(values), old(lib)) == Next(blocks, values, lib)
    {
      if l == 0 {
        PopBlock();
        return;
      }
      var mark := Last(blocks).mark;
      PopBlock();
      while mark != l && blocks != []
        invariant skip == old(skip)
        invariant LeaveTo(l, old(blocks), old(values), old(lib))
               == if mark == l then Next(blocks, values, lib) else LeaveTo(l, blocks, values, lib)
        decreases |blocks|
      {
        mark := Last(blocks).mark;
        PopBlock();
      }
    }

    /** Start the top block over. */
    method Restart()
      requires blocks != []
      modifies this
      ensures blocks == Front(old(blocks)) + [Last(old(blocks)).(rest := Last(old(blocks)).body)]
      ensures values == ClearTop(old(values)) && lib == old(lib) && skip
    {
      values := ClearTop(values);
      blocks := Front(blocks) + [Last(blocks).(rest := Last(blocks).body)];
      skip := true;
    }

    method ExecuteContinue(l: Sym)
      requires blocks != [] && !skip
      modifies this
      ensures RedoTo(l, old(blocks), old(values), old(lib)) == Drain(blocks, values, lib)
      ensures blocks != [] ==> skip
    {
      if l == 0 {
        Restart();
        return;
      }
      while blocks != []
        invariant RedoTo(l, old(blocks), old(values), old(lib)) == RedoTo(l, blocks, values, lib)
        invariant !skip
        decreases |blocks|
      {
        if Last(blocks).mark == l {
          Restart();
          return;
        }
        PopBlock();
      }
    }

    // -------------------------------------------------------------- calls

    method PerformCall(fl: Floats, p: Proc, args: Option<seq<Arg>>, back: Option<LibId>, to: LibId) returns (r: Flow)
      requires back.Some? ==> back.value == lib
      requires back.None? ==> to == lib
      modifies this
      ensures Entered(old(blocks), old(lib), CallFrame(p, back, to), Open(fl, old(values), p, args))
           == if r.Going? then Drain(blocks, values, lib) else Fail(blocks, values, lib, r.e)
      ensures skip
    {
      skip := true;
      values := Push(values);
      blocks := blocks + [CallFrame(p, None, to)];
      if args.Some? {
        r := InsertArgs(fl, p.formals, args.value);
        if r.Stop? {
          PopBlock();
          return;
        }
      }
      if back.Some? {
        blocks := Front(blocks) + [CallFrame(p, back, to)];
        lib := to;
      }
      r := Going;
    }

    // -------------------------------------------------------------- the loop

    /** Run the current statement. */
    method Execute(P: Program) returns (r: Flow)
      requires blocks != [] && Last(blocks).rest != [] && !skip
      modifies this
      ensures Perform(P, old(blocks), old(values), old(lib), Last(old(blocks)).rest[0])
           == if r.Stop? then Fail(blocks, values, lib, r.e)
              else if skip then Drain(blocks, values, lib) else Next(blocks, values, lib)
    {
      hide Declare, DoAssignVar, DoAssignEntry, Eval, Open, FindLib, FindProc, LeaveTo, RedoTo;
      r := Going;
      match Last(blocks).rest[0] {
        case Decl(items) => r := DeclareVariable(P.fl, items);
        case AssignVar(x, rhs) =>
          var o := DoAssignVar(P.fl, values, x, rhs);
          values := o.s;
          if o.Failed? { r := Stop(o.e); }
        case AssignEntry(a, rhs) =>
          var o := DoAssignEntry(P.fl, values, a, rhs);
          values := o.s;
          if o.Failed? { r := Stop(o.e); }
        case If(c, b) =>
          var v := Eval(P.fl, values, c);
          if v.None? {
            r := Stop(InvalidExpression);
          } else if IsTrue(P.fl, v.value) {
            PushBlock(b);
            skip := true;
          }
        case Block(b) =>
          PushBlock(b);
          skip := true;
        case CallA(x, args) =>
          var p := FindProc(P, lib, x);
          if p.None? { r := Stop(UnknownProc); } else { r := PerformCall(P.fl, p.value, args, None, lib); }
        case CallB(y, x, args) =>
          var f := FindLib(P, lib, y);
          if f.NoLib? { return Stop(f.e); }
          var p := FindProc(P, f.lib, x);
          if p.None? { r := Stop(UnknownProc); } else { r := PerformCall(P.fl, p.value, args, Some(lib), f.lib); }
        case Leave(l) => ExecuteBreak(l);
        case Redo(l) => ExecuteContinue(l);
      }
    }

    /** Move on, popping blocks that are done. */
    method Settle()
      requires blocks != []
      modifies this
      ensures !skip
      ensures (if old(skip) then Drain(old(blocks), old(values), old(lib))
               else Next(old(blocks), old(values), old(lib)))
           == if blocks == [] then Done(values, lib) else Run(blocks, values, lib)
      ensures blocks != [] ==> Last(blocks).rest != []
    {
      ghost var goal := if skip then Drain(blocks, values, lib) else Next(blocks, values, lib);
      if skip { skip := false; } else { blocks := Advance(blocks); }
      while Last(blocks).rest == []
        invariant blocks != [] && !skip && goal == Drain(blocks, values, lib)
        decreases |blocks|
      {
        PopBlock();
        if blocks == [] { return; }
        blocks := Advance(blocks);
      }
    }

    /** The interpreter's loop, for at most `limit` statements: 0 when the program ended, -1 on an
        error or when there is nothing to run, 1 when the top block is empty, and 2 when the limit
        was met. */
    method Interpret(P: Program, limit: nat) returns (code: int, r: Flow, n: nat)
      requires !skip
      modifies this
      ensures old(blocks) == [] ==> code == -1 && r == Going && blocks == [] && values == old(values)
      ensures old(blocks) != [] && Last(old(blocks)).rest == [] ==>
                code == 1 && r == Going && blocks == old(blocks) && values == old(values)
      ensures old(blocks) != [] && Last(old(blocks)).rest != [] ==>
                && n <= limit && code in {0, -1, 2} && (code == 2 ==> n == limit)
                && (code == -1 <==> r.Stop?)
                && Steps(P, Run(old(blocks), old(values), old(lib)), n)
                   == (if r.Stop? then Fail(blocks, values, lib, r.e)
                       else if code == 0 then Done(values, lib) else Run(blocks, values, lib))
    {
      n, r := 0, Going;
      if blocks == [] { return -1, r, n; }
      if Last(blocks).rest == [] { return 1, r, n; }
      ghost var m := Run(blocks, values, lib);
      while n < limit
        invariant n <= limit && blocks != [] && Last(blocks).rest != [] && !skip && r == Going
        invariant Steps(P, m, n) == Run(blocks, values, lib)
      {
        StepsNext(P, m, n);
        r := Execute(P);
        n := n + 1;
        if r.Stop? { return -1, r, n; }
        if blocks == [] { return 0, r, n; }
        Settle();
        if blocks == [] { return 0, r, n; }
      }
      return 2, r, n;
    }
  }

  lemma {:induction false} StepsNext(P: Program, m: State, n: nat)
    ensures Steps(P, m, n + 1) == Step(P, Steps(P, m, n))
    decreases n
  {
    hide Step;
    if n == 0 {
    } else {
      StepsNext(P, Step(P, m), n - 1);
      assert Steps(P, m, n + 1) == Steps(P, Step(P, m), n);
    }
  }
}
