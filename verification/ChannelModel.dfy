/** Channels with non-deterministic pick, as a transition system.

    Any number of threads run put, take and pick against any number of channels.  A thread's
    program counter names the next lock operation, semaphore operation or unprotected memory
    access it will perform; `Step` performs exactly that one and moves the counter on.  The
    interleaving is left open: a run is any sequence of actions in which each action is possible
    where it is taken.

    A semaphore is its count: the module `SemaphoreModel` shows that the mutex-and-condition
    implementation behaves that way. */
module ChannelModel {
  import opened Wrappers

  type Tid = nat
  type Cid = nat
  type Value = int

  /** One consumption: the value, the thread it goes to, and which of its operations asked. */
  datatype Entry = Entry(v: Value, who: Tid, op: nat)

  /** A channel: a ring of size + 1 slots, two counting semaphores, three locks and the mailbox
      pointer, which here names the picker whose stack frame it points into.  `puts` and `log` are
      history: the values ever put, and the values ever consumed.  No step reads them. */
  datatype Chan = Chan(
    size: nat, slots: seq<Value>, first: nat, last: nat,
    put: nat, take: nat,
    lock: Option<Tid>, putLock: Option<Tid>, takeLock: Option<Tid>,
    mailbox: Option<Tid>, id: nat,
    puts: seq<Value>, log: seq<Entry>)
  {
    function Occupancy(): int { |puts| - |log| }

    /** The slot after n, wrapping past the last one. */
    function Next(n: nat): nat { if n == size then 0 else n + 1 }

    /** The slot that lies k places after `first`. */
    function Slot(k: nat): nat { if first + k <= size then first + k else first + k - size - 1 }
  }

  /** The one-shot mailbox on a picker's stack. */
  datatype Box = Box(bi: nat, done: nat, id: nat, value: Value)

  datatype Stage =
    | TryTake | WantLock | TryPut
    | ClearEarlier | FreeEarlier | FastTake | FastPost | FastUnlock | FastFree
    | Unlock | PendDone | Relock | ClearMail | FreeTake | PostTake
    | Dead

  /** The locals of one pick.  `arr` is its private copy of the channel array, nulled as it goes. */
  datatype Pick = Pick(choices: seq<Cid>, arr: seq<Option<Cid>>, i: nat, j: nat, count: nat,
                       box: Box, id: nat, value: Value)

  /** Of a put that is using a mailbox, m is the picker whose mailbox it is.  PutLost is inside sem_try,
      having found the count at zero, and PutPosted inside sem_post, having raised it: the mutex and the
      condition variable of the mailbox are still in use. */
  datatype PC =
    | Idle
    | PutLockPut(c: Cid, v: Value) | PutLockChan(c: Cid, v: Value) | PutChoose(c: Cid, v: Value)
    | PutTry(c: Cid, v: Value, m: Tid) | PutLost(c: Cid, v: Value, m: Tid)
    | PutRing(c: Cid, v: Value) | PutPostPut(c: Cid, v: Value, nth: nat)
    | PutDeliver(c: Cid, v: Value, m: Tid) | PutPostDone(c: Cid, v: Value, nth: nat, m: Tid)
    | PutPosted(c: Cid, v: Value, nth: nat, m: Tid)
    | PutUnlock(c: Cid, v: Value, nth: nat) | PutPendTake(c: Cid, v: Value, nth: nat)
    | PutUnlockPut(c: Cid, v: Value, nth: nat)
    | PutRet(c: Cid, v: Value, nth: nat)
    | TakeLockTake(c: Cid) | TakePend(c: Cid) | TakeRing(c: Cid)
    | TakePost(c: Cid, v: Value) | TakeUnlock(c: Cid, v: Value) | TakeRet(c: Cid, v: Value)
    | Picking(at: Stage, p: Pick)
    | PickRet(choices: seq<Cid>, result: Option<(nat, Value)>)
    | Crashed

  /** `op` counts a thread's operations; `got` are the log positions the current one consumed and
      `posts` the channels whose take semaphore was posted for it.  All three are history. */
  datatype Thread = Thread(pc: PC, op: nat, got: seq<(Cid, nat)>, posts: seq<Cid>)

  /** `guarded` says whether the unlock loop of pick skips nulled entries, as the other two loops
      do and as was meant, or unlocks every entry, as written. */
  datatype State = State(chans: seq<Chan>, threads: seq<Thread>, guarded: bool)

  datatype Op = Put(c: Cid, v: Value) | Take(c: Cid) | PickFrom(choices: seq<Cid>)

  datatype Action = Begin(t: Tid, op: Op) | Go(t: Tid)

  // ---------------------------------------------------------------- small updates

  function SetC(s: State, c: Cid, ch: Chan): (r: State)
    requires c < |s.chans|
  {
    s.(chans := s.chans[c := ch])
  }

  function SetPC(s: State, t: Tid, pc: PC): (r: State)
    requires t < |s.threads|
  {
    s.(threads := s.threads[t := s.threads[t].(pc := pc)])
  }

  /** put_value: write at `last` and advance it. */
  function PutValue(ch: Chan, v: Value): (r: Chan)
    requires ch.last < |ch.slots|
  {
    ch.(slots := ch.slots[ch.last := v], last := ch.Next(ch.last), puts := ch.puts + [v])
  }

  /** take_value: read at `first` and advance it. */
  function TakeValue(ch: Chan, who: Tid, op: nat): (r: Chan)
    requires ch.first < |ch.slots|
  {
    ch.(first := ch.Next(ch.first), log := ch.log + [Entry(ch.slots[ch.first], who, op)])
  }

  /** Thread t records that it consumed the newest log entry of c. */
  function Got(s: State, t: Tid, c: Cid): (r: State)
    requires t < |s.threads| && c < |s.chans|
    requires |s.chans[c].log| > 0
  {
    s.(threads := s.threads[t := s.threads[t].(got := s.threads[t].got + [(c, |s.chans[c].log| - 1)])])
  }

  /** sem_post on the take semaphore of c, by thread t. */
  function PostTakeSem(s: State, t: Tid, c: Cid): (r: State)
    requires t < |s.threads| && c < |s.chans|
  {
    s.(chans := s.chans[c := s.chans[c].(take := s.chans[c].take + 1)],
       threads := s.threads[t := s.threads[t].(posts := s.threads[t].posts + [c])])
  }

  // ---------------------------------------------------------------- well-formedness

  predicate ChanShape(ch: Chan) {
    && |ch.slots| == ch.size + 1
    && ch.first <= ch.size
    && ch.last <= ch.size
  }

  predicate PickShape(n: nat, at: Stage, p: Pick) {
    && |p.arr| == |p.choices|
    && (forall k | 0 <= k < |p.choices| :: p.choices[k] < n)
    && (forall k | 0 <= k < |p.arr| :: p.arr[k].Some? ==> p.arr[k].value == p.choices[k])
    && match at
       case TryTake => p.i <= |p.arr| && (forall k | p.i <= k < |p.arr| :: p.arr[k].Some?)
       case WantLock | TryPut => p.i < |p.arr| && (forall k | p.i <= k < |p.arr| :: p.arr[k].Some?)
       case ClearEarlier => p.i < |p.arr| && p.arr[p.i].Some? && p.j <= p.i
       case FreeEarlier => p.i < |p.arr| && p.arr[p.i].Some? && p.j < p.i && p.arr[p.j].Some?
       case FastTake | FastPost | FastUnlock | FastFree => p.i < |p.arr| && p.arr[p.i].Some? && p.j == p.i
       case Unlock => p.j <= |p.arr|
       case Dead => p.j < |p.arr| && p.arr[p.j].None?
       case PendDone => true
       case Relock => p.j <= |p.arr|
       case ClearMail | FreeTake => p.j < |p.arr| && p.arr[p.j].Some?
       case PostTake => true
  }

  /** Every index a thread is about to use exists. */
  predicate PCShape(n: nat, pc: PC) {
    match pc
    case Idle | Crashed | PickRet(_, _) => true
    case Picking(at, p) => PickShape(n, at, p)
    case _ => pc.c < n
  }

  predicate Shape(s: State) {
    && (forall c | 0 <= c < |s.chans| :: ChanShape(s.chans[c]))
    && (forall t | 0 <= t < |s.threads| :: PCShape(|s.chans|, s.threads[t].pc))
  }

  // ---------------------------------------------------------------- one step of a thread

  /** Between operations. */
  predicate Resting(pc: PC) {
    pc.Idle? || pc.PutRet? || pc.TakeRet? || pc.PickRet?
  }

  /** The semaphores of a mailbox exist only while its picker is inside pick. */
  predicate MailboxAlive(s: State, m: Tid) {
    m < |s.threads| && s.threads[m].pc.Picking?
  }

  /** The pointer c holds, read anew, is still the one to m, and leads to a live mailbox. */
  predicate StillThere(s: State, c: Cid, m: Tid)
    requires c < |s.chans|
  {
    s.chans[c].mailbox == Some(m) && MailboxAlive(s, m)
  }

  function BoxOf(s: State, m: Tid): (b: Box)
    requires MailboxAlive(s, m)
  {
    s.threads[m].pc.p.box
  }

  function SetBox(s: State, m: Tid, b: Box): (r: State)
    requires MailboxAlive(s, m)
  {
    SetPC(s, m, s.threads[m].pc.(p := s.threads[m].pc.p.(box := b)))
  }

  /** Can the thread perform its next operation now?  Only lock and sem_pend ever wait. */
  predicate Enabled(s: State, t: Tid)
    requires Shape(s)
  {
    && t < |s.threads|
    && match s.threads[t].pc
       case Idle | Crashed | PutRet(_, _, _) | TakeRet(_, _) | PickRet(_, _) => false
       case PutLockPut(c, _) => s.chans[c].putLock.None?
       case PutLockChan(c, _) => s.chans[c].lock.None?
       case PutPendTake(c, _, _) => s.chans[c].take > 0
       case TakeLockTake(c) => s.chans[c].takeLock.None?
       case TakePend(c) => s.chans[c].put > 0
       case Picking(at, p) =>
         (match at
          case WantLock => s.chans[p.arr[p.i].value].lock.None?
          case PendDone => p.box.done > 0
          case Dead => false
          case Relock => p.j < |p.arr| && p.arr[p.j].Some? ==> s.chans[p.arr[p.j].value].lock.None?
          case _ => true)
       case _ => true
  }

  function StepPut(s: State, t: Tid): (r: State)
    requires Shape(s) && Enabled(s, t)
  {
    match s.threads[t].pc
    case PutLockPut(c, v) =>
      SetPC(SetC(s, c, s.chans[c].(putLock := Some(t))), t, PutLockChan(c, v))
    case PutLockChan(c, v) =>
      SetPC(SetC(s, c, s.chans[c].(lock := Some(t))), t, PutChoose(c, v))
    case PutChoose(c, v) =>
      (match s.chans[c].mailbox
       case None => SetPC(s, t, PutRing(c, v))
       case Some(m) => SetPC(s, t, PutTry(c, v, m)))
    case PutTry(c, v, m) =>
      if !StillThere(s, c, m) then SetPC(s, t, Crashed)
      else
        var b := BoxOf(s, m);
        if b.bi > 0 then SetPC(SetBox(s, m, b.(bi := b.bi - 1)), t, PutDeliver(c, v, m))
        else SetPC(s, t, PutLost(c, v, m))
    case PutLost(c, v, m) =>
      if !MailboxAlive(s, m) then SetPC(s, t, Crashed) else SetPC(s, t, PutRing(c, v))
    case PutRing(c, v) =>
      SetPC(SetC(s, c, PutValue(s.chans[c], v)), t, PutPostPut(c, v, |s.chans[c].puts| + 1))
    case PutPostPut(c, v, nth) =>
      SetPC(SetC(s, c, s.chans[c].(put := s.chans[c].put + 1)), t, PutUnlock(c, v, nth))
    case PutDeliver(c, v, m) =>
      if !StillThere(s, c, m) then SetPC(s, t, Crashed)
      else
        var ch := s.chans[c];
        var s1 := SetC(s, c, ch.(puts := ch.puts + [v], log := ch.log + [Entry(v, m, s.threads[m].op)]));
        var s2 := SetBox(s1, m, BoxOf(s1, m).(id := ch.id, value := v));
        SetPC(Got(s2, m, c), t, PutPostDone(c, v, |ch.puts| + 1, m))
    case PutPostDone(c, v, nth, m) =>
      if !StillThere(s, c, m) then SetPC(s, t, Crashed)
      else
        var b := BoxOf(s, m);
        SetPC(SetBox(s, m, b.(done := b.done + 1)), t, PutPosted(c, v, nth, m))
    case PutPosted(c, v, nth, m) =>
      if !MailboxAlive(s, m) then SetPC(s, t, Crashed) else SetPC(s, t, PutUnlock(c, v, nth))
    case PutUnlock(c, v, nth) =>
      SetPC(SetC(s, c, s.chans[c].(lock := None)), t, PutPendTake(c, v, nth))
    case PutPendTake(c, v, nth) =>
      SetPC(SetC(s, c, s.chans[c].(take := s.chans[c].take - 1)), t, PutUnlockPut(c, v, nth))
    case PutUnlockPut(c, v, nth) =>
      SetPC(SetC(s, c, s.chans[c].(putLock := None)), t, PutRet(c, v, nth))
    case _ => s
  }

  function StepTake(s: State, t: Tid): (r: State)
    requires Shape(s) && Enabled(s, t)
  {
    match s.threads[t].pc
    case TakeLockTake(c) =>
      SetPC(SetC(s, c, s.chans[c].(takeLock := Some(t))), t, TakePend(c))
    case TakePend(c) =>
      SetPC(SetC(s, c, s.chans[c].(put := s.chans[c].put - 1)), t, TakeRing(c))
    case TakeRing(c) =>
      var ch := s.chans[c];
      SetPC(Got(SetC(s, c, TakeValue(ch, t, s.threads[t].op)), t, c), t, TakePost(c, ch.slots[ch.first]))
    case TakePost(c, v) =>
      SetPC(PostTakeSem(s, t, c), t, TakeUnlock(c, v))
    case TakeUnlock(c, v) =>
      SetPC(SetC(s, c, s.chans[c].(takeLock := None)), t, TakeRet(c, v))
    case _ => s
  }

  /** The scan: win take_lock, then lock, then try for a value. */
  function StepScan(s: State, t: Tid): (r: State)
    requires Shape(s) && Enabled(s, t) && s.threads[t].pc.Picking?
  {
    var p := s.threads[t].pc.p;
    match s.threads[t].pc.at
    case TryTake =>
      if p.i == |p.arr| then
        if p.count == 0 then SetPC(s, t, PickRet(p.choices, None))
        else SetPC(s, t, Picking(Unlock, p.(j := 0)))
      else
        var c := p.arr[p.i].value;
        if s.chans[c].takeLock.Some? then
          SetPC(s, t, Picking(TryTake, p.(arr := p.arr[p.i := None], i := p.i + 1)))
        else
          SetPC(SetC(s, c, s.chans[c].(takeLock := Some(t))), t, Picking(WantLock, p))
    case WantLock =>
      var c := p.arr[p.i].value;
      SetPC(SetC(s, c, s.chans[c].(lock := Some(t))), t, Picking(TryPut, p))
    case TryPut =>
      var c := p.arr[p.i].value;
      if s.chans[c].put > 0 then
        SetPC(SetC(s, c, s.chans[c].(put := s.chans[c].put - 1)), t, Picking(ClearEarlier, p.(j := 0)))
      else
        SetPC(SetC(s, c, s.chans[c].(id := p.i, mailbox := Some(t))), t,
              Picking(TryTake, p.(i := p.i + 1, count := p.count + 1)))
    case _ => s
  }

  /** A value was found during the scan. */
  function StepFast(s: State, t: Tid): (r: State)
    requires Shape(s) && Enabled(s, t) && s.threads[t].pc.Picking?
  {
    var p := s.threads[t].pc.p;
    match s.threads[t].pc.at
    case ClearEarlier =>
      if p.j == p.i then SetPC(s, t, Picking(FastTake, p))
      else if p.arr[p.j].None? then SetPC(s, t, Picking(ClearEarlier, p.(j := p.j + 1)))
      else
        var c := p.arr[p.j].value;
        SetPC(SetC(s, c, s.chans[c].(mailbox := None, lock := None)), t, Picking(FreeEarlier, p))
    case FreeEarlier =>
      var c := p.arr[p.j].value;
      SetPC(SetC(s, c, s.chans[c].(takeLock := None)), t, Picking(ClearEarlier, p.(j := p.j + 1)))
    case FastTake =>
      var c := p.arr[p.i].value;
      var ch := s.chans[c];
      SetPC(Got(SetC(s, c, TakeValue(ch, t, s.threads[t].op)), t, c), t,
            Picking(FastPost, p.(id := p.i, value := ch.slots[ch.first])))
    case FastPost =>
      SetPC(PostTakeSem(s, t, p.arr[p.i].value), t, Picking(FastUnlock, p))
    case FastUnlock =>
      var c := p.arr[p.i].value;
      SetPC(SetC(s, c, s.chans[c].(lock := None)), t, Picking(FastFree, p))
    case FastFree =>
      var c := p.arr[p.i].value;
      SetPC(SetC(s, c, s.chans[c].(takeLock := None)), t, PickRet(p.choices, Some((p.id, p.value))))
    case _ => s
  }

  /** No value was found: release the channels, wait for a delivery, and clear up. */
  function StepSlow(s: State, t: Tid): (r: State)
    requires Shape(s) && Enabled(s, t) && s.threads[t].pc.Picking?
  {
    var p := s.threads[t].pc.p;
    match s.threads[t].pc.at
    case Unlock =>
      if p.j == |p.arr| then SetPC(s, t, Picking(PendDone, p))
      else if p.arr[p.j].None? then
        if s.guarded then SetPC(s, t, Picking(Unlock, p.(j := p.j + 1))) else SetPC(s, t, Picking(Dead, p))
      else
        var c := p.arr[p.j].value;
        SetPC(SetC(s, c, s.chans[c].(lock := None)), t, Picking(Unlock, p.(j := p.j + 1)))
    case PendDone =>
      SetPC(s, t, Picking(Relock, p.(j := 0, id := p.box.id, value := p.box.value,
                                    box := p.box.(done := p.box.done - 1))))
    case Relock =>
      if p.j == |p.arr| then SetPC(s, t, Picking(PostTake, p))
      else if p.arr[p.j].None? then SetPC(s, t, Picking(Relock, p.(j := p.j + 1)))
      else
        var c := p.arr[p.j].value;
        SetPC(SetC(s, c, s.chans[c].(lock := Some(t))), t, Picking(ClearMail, p))
    case ClearMail =>
      var c := p.arr[p.j].value;
      SetPC(SetC(s, c, s.chans[c].(mailbox := None, lock := None)), t, Picking(FreeTake, p))
    case FreeTake =>
      var c := p.arr[p.j].value;
      SetPC(SetC(s, c, s.chans[c].(takeLock := None)), t, Picking(Relock, p.(j := p.j + 1)))
    case PostTake =>
      if p.id < |p.arr| && p.arr[p.id].Some? then
        SetPC(PostTakeSem(s, t, p.arr[p.id].value), t, PickRet(p.choices, Some((p.id, p.value))))
      else SetPC(s, t, Crashed)
    case _ => s
  }

  function StepPick(s: State, t: Tid): (r: State)
    requires Shape(s) && Enabled(s, t) && s.threads[t].pc.Picking?
  {
    match s.threads[t].pc.at
    case TryTake | WantLock | TryPut => StepScan(s, t)
    case ClearEarlier | FreeEarlier | FastTake | FastPost | FastUnlock | FastFree => StepFast(s, t)
    case _ => StepSlow(s, t)
  }

  function Step(s: State, t: Tid): (r: State)
    requires Shape(s) && Enabled(s, t)
  {
    match s.threads[t].pc
    case Picking(_, _) => StepPick(s, t)
    case TakeLockTake(_) | TakePend(_) | TakeRing(_) | TakePost(_, _) | TakeUnlock(_, _) => StepTake(s, t)
    case _ => StepPut(s, t)
  }

  // ---------------------------------------------------------------- runs

  predicate OpOk(s: State, op: Op) {
    match op
    case Put(c, _) => c < |s.chans|
    case Take(c) => c < |s.chans|
    case PickFrom(choices) => forall k | 0 <= k < |choices| :: choices[k] < |s.chans|
  }

  function FirstPC(op: Op): (pc: PC) {
    match op
    case Put(c, v) => PutLockPut(c, v)
    case Take(c) => TakeLockTake(c)
    case PickFrom(choices) =>
      Picking(TryTake, Pick(choices, seq(|choices|, k requires 0 <= k < |choices| => Some(choices[k])),
                            0, 0, 0, Box(1, 0, 0, 0), 0, 0))
  }

  predicate Possible(s: State, a: Action) {
    && Shape(s)
    && a.t < |s.threads|
    && match a
       case Go(t) => Enabled(s, t)
       case Begin(t, op) => Resting(s.threads[t].pc) && OpOk(s, op)
  }

  function Apply(s: State, a: Action): (r: State)
    requires Possible(s, a)
  {
    match a
    case Go(t) => Step(s, t)
    case Begin(t, op) =>
      s.(threads := s.threads[t := Thread(FirstPC(op), s.threads[t].op + 1, [], [])])
  }

  /** A freshly made channel: everything free, the take semaphore at its size. */
  predicate FreshChan(ch: Chan) {
    && ChanShape(ch)
    && ch.first == ch.last == ch.put == 0 && ch.take == ch.size
    && ch.lock.None? && ch.putLock.None? && ch.takeLock.None? && ch.mailbox.None?
    && ch.puts == [] && ch.log == []
  }

  predicate Init(s: State) {
    && (forall c | 0 <= c < |s.chans| :: FreshChan(s.chans[c]))
    && (forall t | 0 <= t < |s.threads| :: s.threads[t] == Thread(Idle, 0, [], []))
  }

  predicate IsRun(s: State, acts: seq<Action>)
    decreases |acts|
  {
    acts == [] || (Possible(s, acts[0]) && IsRun(Apply(s, acts[0]), acts[1..]))
  }

  function After(s: State, acts: seq<Action>): (r: State)
    requires IsRun(s, acts)
    decreases |acts|
  {
    if acts == [] then s else After(Apply(s, acts[0]), acts[1..])
  }
}
