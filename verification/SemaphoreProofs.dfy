/** The mutex-and-condition semaphore behaves as the atomic one and loses no wake-up. */
module SemaphoreProofs {
  import opened Wrappers
  import opened SemaphoreModel

  // ---------------------------------------------------------------- invariant

  /** Between taking the mutex and releasing it. */
  predicate Inside(pc: PC) {
    || pc.PostInc? || pc.PostUnlock? || pc.PendTest? || pc.PendDec? || pc.PendUnlock?
    || pc.TryTest? || pc.TryUnlock? || pc.GetRead? || pc.GetUnlock?
  }

  /** A post whose signal is still to come. */
  predicate Signalling(pc: PC) { pc.PostUnlock? || pc.PostSignal? }

  /** A woken thread that has yet to look at the count again, or to take what it saw. */
  predicate Waking(pc: PC) { pc.Woken? || (pc.PendTest? && pc.again) || (pc.PendDec? && pc.again) }

  function SignallersOf(threads: seq<PC>): (r: set<Tid>) {
    set t | 0 <= t < |threads| && Signalling(threads[t])
  }

  function WakersOf(threads: seq<PC>): (r: set<Tid>) {
    set t | 0 <= t < |threads| && Waking(threads[t])
  }

  ghost predicate MutexInv(s: State) {
    && (forall t | 0 <= t < |s.threads| :: s.mutex == Some(t) <==> Inside(s.threads[t]))
    && (s.mutex.Some? ==> s.mutex.value < |s.threads|)
  }

  ghost predicate CountInv(s: State) {
    && s.count >= 0
    && forall t | 0 <= t < |s.threads| :: s.threads[t].PendDec? ==> s.count > 0
  }

  /** While somebody sleeps, every unit of the count is spoken for by a signal to come or by a
      woken thread that will look again. */
  ghost predicate WakeInv(s: State) {
    Sleepers(s) != {} ==> s.count <= |SignallersOf(s.threads)| + |WakersOf(s.threads)|
  }

  ghost predicate Inv(s: State) { MutexInv(s) && CountInv(s) && WakeInv(s) }

  // ---------------------------------------------------------------- sets under an update

  function One(b: bool): nat { if b then 1 else 0 }

  /** Putting t into a set, or taking it out. */
  lemma SizeUpd(a: set<Tid>, b: set<Tid>, t: Tid, now: bool)
    requires b == if now then a + {t} else a - {t}
    ensures |b| == |a| + One(now) - One(t in a)
  {
    if t in a {
      assert a + {t} == a;
      assert a == (a - {t}) + {t};
    } else {
      assert a - {t} == a;
    }
  }

  lemma SignallersUpd(threads: seq<PC>, t: Tid, pc: PC)
    requires t < |threads|
    ensures |SignallersOf(threads[t := pc])|
         == |SignallersOf(threads)| + One(Signalling(pc)) - One(Signalling(threads[t]))
  {
    var a, b := SignallersOf(threads), SignallersOf(threads[t := pc]);
    assert b == if Signalling(pc) then a + {t} else a - {t};
    SizeUpd(a, b, t, Signalling(pc));
  }

  lemma WakersUpd(threads: seq<PC>, t: Tid, pc: PC)
    requires t < |threads|
    ensures |WakersOf(threads[t := pc])|
         == |WakersOf(threads)| + One(Waking(pc)) - One(Waking(threads[t]))
  {
    var a, b := WakersOf(threads), WakersOf(threads[t := pc]);
    assert b == if Waking(pc) then a + {t} else a - {t};
    SizeUpd(a, b, t, Waking(pc));
  }

  // ---------------------------------------------------------------- preservation

  lemma MutexKept(s: State, t: Tid)
    requires MutexInv(s) && Enabled(s, t)
    ensures MutexInv(Step(s, t))
  {
  }

  lemma CountKept(s: State, t: Tid)
    requires MutexInv(s) && CountInv(s) && Enabled(s, t)
    ensures CountInv(Step(s, t))
  {
    var r := Step(s, t);
    forall u | 0 <= u < |r.threads| && r.threads[u].PendDec? ensures r.count > 0 {
      assert s.mutex == Some(t) <==> Inside(s.threads[t]);
      if u != t { assert s.mutex == Some(u) <==> Inside(s.threads[u]); }
    }
  }

  lemma WakeKept(s: State, t: Tid)
    requires CountInv(s) && WakeInv(s) && Enabled(s, t)
    ensures WakeInv(Step(s, t))
  {
    var r := Step(s, t);
    SignallersUpd(s.threads, t, r.threads[t]);
    WakersUpd(s.threads, t, r.threads[t]);
    if !r.threads[t].Asleep? {
      assert Sleepers(r) <= Sleepers(s);
    }
  }

  /** A signal hands its claim to at least one sleeper, if there is one. */
  lemma SignalKept(s: State, t: Tid, woken: set<Tid>)
    requires Inv(s) && Possible(s, Signal(t, woken))
    ensures Inv(Apply(s, Signal(t, woken)))
  {
    var r := Apply(s, Signal(t, woken));
    assert forall u | 0 <= u < |r.threads| :: Inside(r.threads[u]) == Inside(s.threads[u]);
    assert SignallersOf(r.threads) == SignallersOf(s.threads) - {t};
    assert t in SignallersOf(s.threads);
    WakersGrow(s, t, woken);
    if Sleepers(r) != {} {
      var u :| u in Sleepers(r);
      assert u in Sleepers(s);
      assert woken != {};
    }
  }

  lemma WakersGrow(s: State, t: Tid, woken: set<Tid>)
    requires Possible(s, Signal(t, woken))
    ensures |WakersOf(Apply(s, Signal(t, woken)).threads)| == |WakersOf(s.threads)| + |woken|
  {
    var r := Apply(s, Signal(t, woken));
    assert WakersOf(r.threads) == WakersOf(s.threads) + woken;
    assert WakersOf(s.threads) !! woken;
  }

  lemma OutsideKept(s: State, t: Tid, pc: PC)
    requires Inv(s) && t < |s.threads| && !Inside(s.threads[t]) && !Inside(pc)
    requires !Signalling(s.threads[t]) && !pc.Asleep? && (Waking(s.threads[t]) ==> Waking(pc))
    ensures Inv(Set(s, t, pc))
  {
    var r := Set(s, t, pc);
    SignallersUpd(s.threads, t, pc);
    WakersUpd(s.threads, t, pc);
    assert Sleepers(r) <= Sleepers(s);
  }

  lemma ActionKeepsInv(s: State, a: Action)
    requires Inv(s) && Possible(s, a)
    ensures Inv(Apply(s, a))
  {
    match a
    case Begin(t, op) => OutsideKept(s, t, FirstPC(op));
    case Go(t) => MutexKept(s, t); CountKept(s, t); WakeKept(s, t);
    case Signal(t, woken) => SignalKept(s, t, woken);
    case Wake(t) => OutsideKept(s, t, Woken);
  }

  lemma InitInv(s: State, count: nat)
    requires Init(s, count)
    ensures Inv(s)
  {
    assert Sleepers(s) == {};
  }

  lemma {:induction false} RunKeepsInv(s: State, acts: seq<Action>)
    requires Inv(s) && IsRun(s, acts)
    ensures Inv(After(s, acts))
    decreases |acts|
  {
    if acts == [] {
    } else {
      ActionKeepsInv(s, acts[0]);
      RunKeepsInv(Apply(s, acts[0]), acts[1..]);
    }
  }

  // ---------------------------------------------------------------- no lost wake-up

  /** In every run the count is never negative, and while some thread sleeps it never exceeds the
      signals still to come plus the woken threads still to look again. */
  lemma NoLostWakeup(s: State, count: nat, acts: seq<Action>)
    requires Init(s, count) && IsRun(s, acts)
    ensures After(s, acts).count >= 0
    ensures Sleepers(After(s, acts)) != {} ==>
              After(s, acts).count <= |SignallersOf(After(s, acts).threads)| + |WakersOf(After(s, acts).threads)|
  {
    InitInv(s, count);
    RunKeepsInv(s, acts);
  }

  /** Can u do something: step, or deliver its signal? */
  predicate CanMove(s: State, u: Tid) {
    Enabled(s, u) || (u < |s.threads| && s.threads[u].PostSignal?)
  }

  /** While a thread sleeps on an available unit, some thread can move that is inside the mutex, has a
      signal to give, or was woken and is to look again. */
  lemma SleepersAreNotStranded(s: State, count: nat, acts: seq<Action>) returns (u: Tid)
    requires Init(s, count) && IsRun(s, acts)
    requires Sleepers(After(s, acts)) != {} && After(s, acts).count > 0
    ensures CanMove(After(s, acts), u) && u < |After(s, acts).threads|
    ensures var pc := After(s, acts).threads[u]; Inside(pc) || Signalling(pc) || Waking(pc)
  {
    InitInv(s, count);
    RunKeepsInv(s, acts);
    u := Mover(After(s, acts));
  }

  lemma Mover(r: State) returns (u: Tid)
    requires Inv(r) && Sleepers(r) != {} && r.count > 0
    ensures CanMove(r, u) && u < |r.threads|
    ensures Inside(r.threads[u]) || Signalling(r.threads[u]) || Waking(r.threads[u])
  {
    if r.mutex.Some? {
      u := r.mutex.value;
    } else if SignallersOf(r.threads) != {} {
      u :| u in SignallersOf(r.threads);
    } else {
      assert WakersOf(r.threads) != {};
      u :| u in WakersOf(r.threads);
    }
  }

  /** When no thread can move by itself, the mutex is free, and every thread is between operations or
      sleeps; and if one sleeps, there is nothing to be had. */
  lemma OnlySleepersWait(s: State, count: nat, acts: seq<Action>)
    requires Init(s, count) && IsRun(s, acts)
    requires forall u | 0 <= u < |After(s, acts).threads| :: !CanMove(After(s, acts), u)
    ensures var r := After(s, acts);
            && r.mutex.None?
            && (forall u | 0 <= u < |r.threads| :: Resting(r.threads[u]) || r.threads[u].Asleep?)
            && (Sleepers(r) != {} ==> r.count == 0)
  {
    InitInv(s, count);
    RunKeepsInv(s, acts);
    var r := After(s, acts);
    SomeoneMoves(r);
    forall u | 0 <= u < |r.threads| ensures Resting(r.threads[u]) || r.threads[u].Asleep? {
      assert !CanMove(r, u);
    }
  }

  /** The owner of the mutex can move, and so can someone while a sleeper could be served. */
  lemma SomeoneMoves(r: State)
    requires Inv(r)
    ensures r.mutex.Some? ==> r.mutex.value < |r.threads| && CanMove(r, r.mutex.value)
    ensures Sleepers(r) != {} && r.count > 0 ==> exists u: nat :: u < |r.threads| && CanMove(r, u)
  {
    if Sleepers(r) != {} && r.count > 0 {
      var u := Mover(r);
    }
  }

  // ---------------------------------------------------------------- refinement

  /** What a thread looks like from outside. */
  function Abs(pc: PC): (r: APC) {
    match pc
    case Idle => AIdle
    case PostLock | PostInc => ACalled(Post)
    case PostUnlock | PostSignal | PostRet => APosted
    case PendLock | PendTest(_) | Asleep | Woken | PendDec(_) => ACalled(Pend)
    case PendUnlock | PendRet => ATaken
    case TryLock | TryTest => ACalled(Try)
    case TryUnlock(got) => ATried(got)
    case TryRet(got) => ATried(got)
    case GetLock | GetRead => ACalled(Get)
    case GetUnlock(n) => ASaw(n)
    case GetRet(n) => ASaw(n)
  }

  function AbsState(s: State): (r: AState)
    requires s.count >= 0
  {
    AState(s.count, seq(|s.threads|, k requires 0 <= k < |s.threads| => Abs(s.threads[k])))
  }

  lemma AbsUpd(s: State, r: State, t: Tid)
    requires t < |s.threads| && s.count >= 0 && r.count >= 0
    requires |r.threads| == |s.threads| && r.threads == s.threads[t := r.threads[t]]
    ensures AbsState(r) == AState(r.count, AbsState(s).threads[t := Abs(r.threads[t])])
  {
  }

  /** Does this action take effect in the atomic semaphore, and as what? */
  function Effect(s: State, a: Action): (r: seq<AAction>)
    requires Possible(s, a)
  {
    match a
    case Begin(t, op) => [ABegin(t, op)]
    case Go(t) =>
      if s.threads[t].PostInc? || s.threads[t].PendDec? || s.threads[t].TryTest? || s.threads[t].GetRead?
      then [ADo(t)] else []
    case Signal(_, _) => []
    case Wake(_) => []
  }

  lemma StepRefines(s: State, t: Tid)
    requires Inv(s) && Enabled(s, t) && Step(s, t).count >= 0
    ensures Effect(s, Go(t)) == [] ==> AbsState(Step(s, t)) == AbsState(s)
    ensures Effect(s, Go(t)) != [] ==>
              APossible(AbsState(s), ADo(t)) && AbsState(Step(s, t)) == AApply(AbsState(s), ADo(t))
  {
    hide AbsState;
    var r := Step(s, t);
    AbsThreads(s);
    AbsUpd(s, r, t);
  }

  lemma AbsThreads(s: State)
    requires s.count >= 0
    ensures AbsState(s).count == s.count && |AbsState(s).threads| == |s.threads|
    ensures forall t | 0 <= t < |s.threads| :: AbsState(s).threads[t] == Abs(s.threads[t])
    ensures forall t | 0 <= t < |s.threads| ::
              AbsState(s).threads[t := Abs(s.threads[t])] == AbsState(s).threads
  {
  }

  /** One action is one atomic operation or invisible. */
  lemma ActionRefines(s: State, a: Action)
    requires Inv(s) && Possible(s, a)
    ensures Apply(s, a).count >= 0
    ensures Effect(s, a) == [] ==> AbsState(Apply(s, a)) == AbsState(s)
    ensures Effect(s, a) != [] ==>
              APossible(AbsState(s), Effect(s, a)[0])
              && AbsState(Apply(s, a)) == AApply(AbsState(s), Effect(s, a)[0])
  {
    ActionKeepsInv(s, a);
    var r := Apply(s, a);
    match a
    case Begin(t, op) => AbsUpd(s, r, t);
    case Go(t) => StepRefines(s, t);
    case Wake(t) => AbsUpd(s, r, t);
    case Signal(t, woken) =>
      assert forall k | 0 <= k < |s.threads| :: Abs(r.threads[k]) == Abs(s.threads[k]);
  }

  /** What a run does in the atomic semaphore, in order. */
  function Effects(s: State, acts: seq<Action>): (r: seq<AAction>)
    requires IsRun(s, acts)
    decreases |acts|
  {
    if acts == [] then [] else Effect(s, acts[0]) + Effects(Apply(s, acts[0]), acts[1..])
  }

  /** Every run of the implementation is, seen from outside, a run of the atomic semaphore that
      ends in the same state. */
  lemma {:induction false} RunRefines(s: State, acts: seq<Action>)
    requires Inv(s) && IsRun(s, acts)
    ensures After(s, acts).count >= 0
    ensures AIsRun(AbsState(s), Effects(s, acts))
    ensures AAfter(AbsState(s), Effects(s, acts)) == AbsState(After(s, acts))
    decreases |acts|
  {
    if acts == [] {
    } else {
      var e, rest := Effect(s, acts[0]), Effects(Apply(s, acts[0]), acts[1..]);
      ActionRefines(s, acts[0]);
      ActionKeepsInv(s, acts[0]);
      RunRefines(Apply(s, acts[0]), acts[1..]);
      if e == [] {
        assert e + rest == rest;
      } else {
        assert (e + rest)[0] == e[0] && (e + rest)[1..] == rest;
      }
    }
  }

  /** A run cut at k: both parts are runs, and do what the whole does. */
  lemma {:induction false} RunCut(s: State, acts: seq<Action>, k: nat)
    requires IsRun(s, acts) && k <= |acts|
    ensures IsRun(s, acts[..k]) && Effects(s, acts[..k]) <= Effects(s, acts)
    decreases k
  {
    if k == 0 {
      assert acts[..0] == [];
    } else {
      RunCut(Apply(s, acts[0]), acts[1..], k - 1);
      assert acts[..k][0] == acts[0] && acts[..k][1..] == acts[1..][..k - 1];
    }
  }

  /** At every point of every run the implementation, seen from outside, is where the atomic semaphore
      is after the operations that have taken effect so far: the same count, and the same answers to
      those who have asked. */
  lemma RefinesAtomicSemaphore(s: State, count: nat, acts: seq<Action>, k: nat)
    requires Init(s, count) && IsRun(s, acts) && k <= |acts|
    ensures AIsRun(AbsState(s), Effects(s, acts))
    ensures IsRun(s, acts[..k]) && Effects(s, acts[..k]) <= Effects(s, acts)
    ensures After(s, acts[..k]).count >= 0 && AIsRun(AbsState(s), Effects(s, acts[..k]))
    ensures AAfter(AbsState(s), Effects(s, acts[..k])) == AbsState(After(s, acts[..k]))
  {
    InitInv(s, count);
    RunRefines(s, acts);
    RunCut(s, acts, k);
    RunRefines(s, acts[..k]);
  }
}
