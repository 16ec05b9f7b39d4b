/** A counting semaphore built from a mutex and a condition variable, as a transition system, and
    the atomic counting semaphore it stands for.

    A wait on the condition variable releases the mutex and sleeps in one operation.  A signal
    wakes some sleepers, at least one if there are any; a sleeper may also wake for no reason.
    The post signals after it has released the mutex. */
module SemaphoreModel {
  import opened Wrappers

  type Tid = nat

  datatype PC =
    | Idle
    | PostLock | PostInc | PostUnlock | PostSignal | PostRet
    | PendLock | PendTest(again: bool) | Asleep | Woken | PendDec(again: bool) | PendUnlock | PendRet
    | TryLock | TryTest | TryUnlock(got: bool) | TryRet(got: bool)
    | GetLock | GetRead | GetUnlock(n: int) | GetRet(n: int)

  datatype State = State(count: int, mutex: Option<Tid>, threads: seq<PC>)

  datatype Op = Post | Pend | Try | Get

  /** Signal names the sleepers it wakes; Wake is a spurious wake-up. */
  datatype Action =
    | Begin(t: Tid, op: Op)
    | Go(t: Tid)
    | Signal(t: Tid, woken: set<Tid>)
    | Wake(t: Tid)

  function Set(s: State, t: Tid, pc: PC): (r: State)
    requires t < |s.threads|
  {
    s.(threads := s.threads[t := pc])
  }

  function Sleepers(s: State): (r: set<Tid>) {
    set t | 0 <= t < |s.threads| && s.threads[t].Asleep?
  }

  predicate Resting(pc: PC) {
    pc.Idle? || pc.PostRet? || pc.PendRet? || pc.TryRet? || pc.GetRet?
  }

  function FirstPC(op: Op): (pc: PC) {
    match op
    case Post => PostLock
    case Pend => PendLock
    case Try => TryLock
    case Get => GetLock
  }

  /** Only taking the mutex can wait, and a sleeper waits until it is woken. */
  predicate Enabled(s: State, t: Tid) {
    && t < |s.threads|
    && match s.threads[t]
       case Idle | PostRet | PendRet | TryRet(_) | GetRet(_) => false
       case Asleep | PostSignal => false
       case PostLock | PendLock | TryLock | GetLock | Woken => s.mutex.None?
       case _ => true
  }

  function Step(s: State, t: Tid): (r: State)
    requires Enabled(s, t)
  {
    match s.threads[t]
    case PostLock => Set(s, t, PostInc).(mutex := Some(t))
    case PostInc => Set(s, t, PostUnlock).(count := s.count + 1)
    case PostUnlock => Set(s, t, PostSignal).(mutex := None)
    case PendLock => Set(s, t, PendTest(false)).(mutex := Some(t))
    case PendTest(again) =>
      if s.count <= 0 then Set(s, t, Asleep).(mutex := None) else Set(s, t, PendDec(again))
    case Woken => Set(s, t, PendTest(true)).(mutex := Some(t))
    case PendDec(_) => Set(s, t, PendUnlock).(count := s.count - 1)
    case PendUnlock => Set(s, t, PendRet).(mutex := None)
    case TryLock => Set(s, t, TryTest).(mutex := Some(t))
    case TryTest =>
      if s.count > 0 then Set(s, t, TryUnlock(true)).(count := s.count - 1)
      else Set(s, t, TryUnlock(false))
    case TryUnlock(got) => Set(s, t, TryRet(got)).(mutex := None)
    case GetLock => Set(s, t, GetRead).(mutex := Some(t))
    case GetRead => Set(s, t, GetUnlock(s.count))
    case GetUnlock(n) => Set(s, t, GetRet(n)).(mutex := None)
    case _ => s
  }

  function WakeAll(threads: seq<PC>, woken: set<Tid>): (r: seq<PC>) {
    seq(|threads|, k requires 0 <= k < |threads| => if k in woken then Woken else threads[k])
  }

  predicate Possible(s: State, a: Action) {
    && a.t < |s.threads|
    && match a
       case Begin(t, op) => Resting(s.threads[t])
       case Go(t) => Enabled(s, t)
       case Signal(t, woken) =>
         s.threads[t].PostSignal? && woken <= Sleepers(s) && (Sleepers(s) != {} ==> woken != {})
       case Wake(t) => s.threads[t].Asleep?
  }

  function Apply(s: State, a: Action): (r: State)
    requires Possible(s, a)
  {
    match a
    case Begin(t, op) => Set(s, t, FirstPC(op))
    case Go(t) => Step(s, t)
    case Signal(t, woken) => s.(threads := WakeAll(s.threads[t := PostRet], woken))
    case Wake(t) => Set(s, t, Woken)
  }

  predicate Init(s: State, count: nat) {
    s.count == count && s.mutex.None? && forall t | 0 <= t < |s.threads| :: s.threads[t].Idle?
  }

  predicate IsRun(s: State, acts: seq<Action>)
    decreases |acts|
  {
    acts == [] || (Possible(s, acts[0]) && IsRun(Apply(s, acts[0]), acts[1..]))
  }

  function After(s: State, acts: seq<Action>): (r: State)
    requires IsRun(s, acts)
    decreases |acts|
  {
    if acts == [] then s else After(Apply(s, acts[0]), acts[1..])
  }

  // ---------------------------------------------------------------- the atomic semaphore

  datatype APC = AIdle | ACalled(op: Op) | APosted | ATaken | ATried(got: bool) | ASaw(n: int)

  datatype AState = AState(count: nat, threads: seq<APC>)

  datatype AAction = ABegin(t: Tid, op: Op) | ADo(t: Tid)

  predicate APossible(s: AState, a: AAction) {
    && a.t < |s.threads|
    && match a
       case ABegin(t, _) => !s.threads[t].ACalled?
       case ADo(t) => s.threads[t].ACalled? && (s.threads[t].op.Pend? ==> s.count > 0)
  }

  /** Each operation takes effect in one step. */
  function AApply(s: AState, a: AAction): (r: AState)
    requires APossible(s, a)
  {
    match a
    case ABegin(t, op) => s.(threads := s.threads[t := ACalled(op)])
    case ADo(t) =>
      match s.threads[t].op
      case Post => AState(s.count + 1, s.threads[t := APosted])
      case Pend => AState(s.count - 1, s.threads[t := ATaken])
      case Try =>
        if s.count > 0 then AState(s.count - 1, s.threads[t := ATried(true)])
        else s.(threads := s.threads[t := ATried(false)])
      case Get => s.(threads := s.threads[t := ASaw(s.count)])
  }

  predicate AIsRun(s: AState, acts: seq<AAction>)
    decreases |acts|
  {
    acts == [] || (APossible(s, acts[0]) && AIsRun(AApply(s, acts[0]), acts[1..]))
  }

  function AAfter(s: AState, acts: seq<AAction>): (r: AState)
    requires AIsRun(s, acts)
    decreases |acts|
  {
    if acts == [] then s else AAfter(AApply(s, acts[0]), acts[1..])
  }
}
