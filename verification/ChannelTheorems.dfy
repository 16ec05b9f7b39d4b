/** What every run of the channel protocol keeps. */
module ChannelTheorems {
  import opened Wrappers
  import opened ChannelModel
  import opened ChannelInvariant
  import opened ChannelFrames
  import opened ChannelSteps
  import opened ChannelPickSteps
  import opened ChannelMailSteps

  // ---------------------------------------------------------------- the invariant holds

  lemma KeepScan(s: State, t: Tid)
    requires Shape(s) && Inv(s) && Enabled(s, t) && s.threads[t].pc.Picking? && Scanning(s.threads[t].pc.at)
    ensures Inv(StepScan(s, t))
  {
    hide Inv;
    var p := s.threads[t].pc.p;
    match s.threads[t].pc.at
    case TryTake =>
      if p.i == |p.arr| {
        if p.count == 0 { KeepScannedNone(s, t); } else { KeepScannedSome(s, t); }
      } else if s.chans[p.arr[p.i].value].takeLock.Some? {
        KeepTryTakeLost(s, t);
      } else {
        KeepTryTakeWon(s, t);
      }
    case WantLock => KeepWantLock(s, t);
    case TryPut =>
      if s.chans[p.arr[p.i].value].put > 0 { KeepTryPutHit(s, t); } else { KeepTryPutMiss(s, t); }
  }

  lemma KeepFast(s: State, t: Tid)
    requires Shape(s) && Inv(s) && Enabled(s, t) && s.threads[t].pc.Picking? && Fast(s.threads[t].pc.at)
    ensures Inv(StepFast(s, t))
  {
    hide Inv;
    var p := s.threads[t].pc.p;
    match s.threads[t].pc.at
    case ClearEarlier =>
      if p.j == p.i { KeepClearEnd(s, t); }
      else if p.arr[p.j].None? { KeepClearSkip(s, t); }
      else { KeepClearEarlier(s, t); }
    case FreeEarlier => KeepFreeEarlier(s, t);
    case FastTake => KeepFastTake(s, t);
    case FastPost => KeepFastPost(s, t);
    case FastUnlock => KeepFastUnlock(s, t);
    case FastFree => KeepFastFree(s, t);
  }

  lemma KeepSlow(s: State, t: Tid)
    requires Shape(s) && Inv(s) && Enabled(s, t) && s.threads[t].pc.Picking?
    requires !Scanning(s.threads[t].pc.at) && !Fast(s.threads[t].pc.at)
    ensures Inv(StepSlow(s, t))
  {
    hide Inv;
    var p := s.threads[t].pc.p;
    match s.threads[t].pc.at
    case Unlock =>
      if p.j == |p.arr| { KeepUnlockEnd(s, t); }
      else if p.arr[p.j].Some? { KeepUnlock(s, t); }
      else if s.guarded { KeepUnlockSkip(s, t); }
      else { KeepUnlockDead(s, t); }
    case PendDone => KeepPendDone(s, t);
    case Relock =>
      if p.j == |p.arr| { KeepRelockEnd(s, t); }
      else if p.arr[p.j].None? { KeepRelockSkip(s, t); }
      else { KeepRelock(s, t); }
    case ClearMail => KeepClearMail(s, t);
    case FreeTake => KeepFreeTake(s, t);
    case PostTake => KeepPostTake(s, t);
  }

  lemma KeepPut(s: State, t: Tid)
    requires Shape(s) && Inv(s) && Enabled(s, t) && !s.threads[t].pc.Picking?
    requires var pc := s.threads[t].pc;
             !pc.TakeLockTake? && !pc.TakePend? && !pc.TakeRing? && !pc.TakePost? && !pc.TakeUnlock?
    ensures Inv(StepPut(s, t))
  {
    hide Inv;
    match s.threads[t].pc
    case PutLockPut(_, _) => KeepPutLockPut(s, t);
    case PutLockChan(_, _) => KeepPutLockChan(s, t);
    case PutChoose(c, _) =>
      if s.chans[c].mailbox.None? { KeepPutChooseRing(s, t); } else { KeepPutChooseTry(s, t); }
    case PutTry(_, _, m) =>
      if MailboxAlive(s, m) && BoxOf(s, m).bi > 0 { KeepPutTryWin(s, t); } else { KeepPutTryLost(s, t); }
    case PutLost(_, _, _) => KeepPutLost(s, t);
    case PutRing(_, _) => KeepPutRing(s, t);
    case PutPostPut(_, _, _) => KeepPutPostPut(s, t);
    case PutDeliver(_, _, _) => KeepPutDeliver(s, t);
    case PutPostDone(_, _, _, _) => KeepPutPostDone(s, t);
    case PutPosted(_, _, _, _) => KeepPutPosted(s, t);
    case PutUnlock(_, _, _) => KeepPutUnlock(s, t);
    case PutPendTake(_, _, _) => KeepPutPendTake(s, t);
    case PutUnlockPut(_, _, _) => KeepPutUnlockPut(s, t);
  }

  lemma KeepTake(s: State, t: Tid)
    requires Shape(s) && Inv(s) && Enabled(s, t)
    requires var pc := s.threads[t].pc;
             pc.TakeLockTake? || pc.TakePend? || pc.TakeRing? || pc.TakePost? || pc.TakeUnlock?
    ensures Inv(StepTake(s, t))
  {
    hide Inv;
    match s.threads[t].pc
    case TakeLockTake(_) => KeepTakeLockTake(s, t);
    case TakePend(_) => KeepTakePend(s, t);
    case TakeRing(_) => KeepTakeRing(s, t);
    case TakePost(_, _) => KeepTakePost(s, t);
    case TakeUnlock(_, _) => KeepTakeUnlock(s, t);
  }

  /** One lock, semaphore or memory operation of any thread keeps the invariant. */
  lemma StepKeepsInv(s: State, t: Tid)
    requires Shape(s) && Inv(s) && Enabled(s, t)
    ensures Inv(Step(s, t))
  {
    hide Inv;
    var pc := s.threads[t].pc;
    if pc.Picking? {
      if Scanning(pc.at) { KeepScan(s, t); }
      else if Fast(pc.at) { KeepFast(s, t); }
      else { KeepSlow(s, t); }
    } else if pc.TakeLockTake? || pc.TakePend? || pc.TakeRing? || pc.TakePost? || pc.TakeUnlock? {
      KeepTake(s, t);
    } else {
      KeepPut(s, t);
    }
  }

  /** Starting an operation keeps the invariant. */
  lemma BeginKeepsInv(s: State, t: Tid, op: Op)
    requires Inv(s) && t < |s.threads| && Resting(s.threads[t].pc) && OpOk(s, op)
    ensures Inv(Apply(s, Begin(t, op)))
  {
    var th := Thread(FirstPC(op), s.threads[t].op + 1, [], []);
    BeginLocal(s, t, op, th, UpdT(s, t, th));
    hide Tags, Owners, Channels, Threads, Winners, ThreadInv, SameHolds, SameCounts, SameMailbox, PickerKept;
    ShapeUpdT(s, t, th);
    OwnersUpdT(s, t, th);
    ChannelsUpdT(s, t, th);
    ThreadsUpdT(s, t, th);
    WinnersUpdT(s, t, th);
    BeginTags(s, t, th);
  }

  /** A thread that begins an operation holds nothing and has recorded nothing. */
  lemma BeginLocal(s: State, t: Tid, op: Op, th: Thread, r: State)
    requires Inv(s) && t < |s.threads| && Resting(s.threads[t].pc) && OpOk(s, op)
    requires th == Thread(FirstPC(op), s.threads[t].op + 1, [], []) && r == UpdT(s, t, th)
    ensures PCShape(|s.chans|, th.pc) && SameHolds(s.threads[t].pc, th.pc) && SameMailbox(s.threads[t].pc, th.pc)
    ensures PickerKept(s.threads[t], th) || Mails(s.threads[t].pc) <= Locks(s.threads[t].pc)
    ensures forall d | 0 <= d < |s.chans| :: SameCounts(s.threads[t], th, d)
    ensures !Delivering(th.pc) && ThreadInv(r, t)
  {
    hide Owners, Channels, Winners, Tags;
    assert ThreadInv(s, t);
    if op.PickFrom? {
      assert Span(th.pc.p.arr, 0, 0) == {};
    }
  }

  lemma BeginTags(s: State, t: Tid, th: Thread)
    requires Tags(s) && t < |s.threads| && th.op == s.threads[t].op + 1 && th.got == []
    ensures Tags(UpdT(s, t, th))
  {
    var r := UpdT(s, t, th);
    forall d, k | 0 <= d < |r.chans| && 0 <= k < |r.chans[d].log| ensures EntryInv(r, d, k) {
      assert EntryInv(s, d, k);
    }
    forall u, x | 0 <= u < |r.threads| && 0 <= x < |r.threads[u].got| ensures GotInv(r, u, x) {
      assert GotInv(s, u, x);
    }
  }

  lemma InitInv(s: State)
    requires Init(s)
    ensures Inv(s)
  {
    forall c, t | 0 <= c < |s.chans| && 0 <= t < |s.threads| ensures OwnersAt(s, c, t) {
      assert FreshChan(s.chans[c]);
    }
    forall c | 0 <= c < |s.chans| ensures ChanInv(s, c) {
      assert FreshChan(s.chans[c]);
      assert Owing(s.threads, c) == {};
    }
    forall t | 0 <= t < |s.threads| ensures ThreadInv(s, t) {
    }
  }

  lemma ActionKeepsInv(s: State, a: Action)
    requires Inv(s) && Possible(s, a)
    ensures Inv(Apply(s, a))
  {
    match a
    case Go(t) => StepKeepsInv(s, t);
    case Begin(t, op) => BeginKeepsInv(s, t, op);
  }

  lemma {:induction false} RunKeepsInv(s: State, acts: seq<Action>)
    requires Inv(s) && IsRun(s, acts)
    ensures Inv(After(s, acts))
    decreases |acts|
  {
    if acts == [] {
    } else {
      ActionKeepsInv(s, acts[0]);
      RunKeepsInv(Apply(s, acts[0]), acts[1..]);
    }
  }

  /** s is the state after some run from freshly made channels and idle threads. */
  ghost predicate Reachable(s: State) {
    exists s0: State, acts: seq<Action> :: Init(s0) && IsRun(s0, acts) && After(s0, acts) == s
  }

  lemma ReachableInv(s: State)
    requires Reachable(s)
    ensures Inv(s)
  {
    var s0: State, acts: seq<Action> :| Init(s0) && IsRun(s0, acts) && After(s0, acts) == s;
    InitInv(s0);
    RunKeepsInv(s0, acts);
  }

  // ---------------------------------------------------------------- order and safety of the ring

  /** The values in the ring, oldest first. */
  function RingContents(ch: Chan): (r: seq<Value>)
    requires ChanShape(ch) && 0 <= ch.Occupancy() <= ch.size + 1
  {
    seq(ch.Occupancy(), k requires 0 <= k < ch.Occupancy() => ch.slots[ch.Slot(k)])
  }

  function ValuesOf(log: seq<Entry>): (r: seq<Value>) {
    seq(|log|, k requires 0 <= k < |log| => log[k].v)
  }

  /** Per-channel FIFO: in every reachable state the values consumed, in the order they were
      consumed, by take, by a pick's scan or through a mailbox, followed by the ring's contents,
      are exactly the values put, in the order they were put. */
  lemma Fifo(s: State, c: Cid)
    requires Reachable(s) && c < |s.chans|
    ensures ChanShape(s.chans[c]) && 0 <= s.chans[c].Occupancy() <= s.chans[c].size + 1
    ensures ValuesOf(s.chans[c].log) + RingContents(s.chans[c]) == s.chans[c].puts
  {
    ReachableInv(s);
    assert ChanInv(s, c);
  }

  /** Is thread t about to remove a value from the ring of c? */
  predicate Removing(pc: PC, c: Cid) {
    || (pc.TakeRing? && pc.c == c)
    || (pc.Picking? && pc.at.FastTake? && pc.p.i < |pc.p.arr| && pc.p.arr[pc.p.i] == Some(c))
  }

  /** No live slot is overwritten, and a put and a removal in progress on the same channel use
      different slots. */
  lemma NoOverwrite(s: State, t: Tid, c: Cid)
    requires Reachable(s) && t < |s.threads| && c < |s.chans|
    requires s.threads[t].pc.PutRing? && s.threads[t].pc.c == c
    ensures s.chans[c].Occupancy() <= s.chans[c].size
    ensures forall k | 0 <= k < s.chans[c].Occupancy() :: s.chans[c].Slot(k) != s.chans[c].last
    ensures forall u | 0 <= u < |s.threads| && Removing(s.threads[u].pc, c) ::
              s.chans[c].Occupancy() > 0 && s.chans[c].first != s.chans[c].last
  {
    ReachableInv(s);
    assert ChanInv(s, c) && OwnersAt(s, c, t);
    PutValueRing(s.chans[c], 0);
    forall u | 0 <= u < |s.threads| && Removing(s.threads[u].pc, c)
      ensures s.chans[c].Occupancy() > 0 && s.chans[c].first != s.chans[c].last
    {
      ClaimedIsThere(s, u, c);
      assert s.chans[c].Slot(0) == s.chans[c].first;
    }
  }

  // ---------------------------------------------------------------- take and pick

  /** Log entry k of c belongs to the current operation of t. */
  predicate BelongsTo(s: State, t: Tid, c: Cid, k: nat)
    requires t < |s.threads| && c < |s.chans| && k < |s.chans[c].log|
  {
    s.chans[c].log[k].who == t && s.chans[c].log[k].op == s.threads[t].op
  }

  /** An operation's consumptions are the ones it recorded, and no others, on any channel. */
  lemma ConsumptionsOf(s: State, t: Tid, c: Cid, k: nat)
    requires Inv(s) && t < |s.threads| && c < |s.chans| && k < |s.chans[c].log|
    ensures BelongsTo(s, t, c, k) <==> (c, k) in s.threads[t].got
  {
    assert EntryInv(s, c, k);
    if (c, k) in s.threads[t].got {
      var x :| 0 <= x < |s.threads[t].got| && s.threads[t].got[x] == (c, k);
      assert GotInv(s, t, x);
    }
  }

  /** A successful pick has consumed exactly one value, from the channel whose index it reports,
      returns that value, and has had that channel's take semaphore posted exactly once; nothing
      on any other channel was consumed for it. */
  lemma PickExactlyOnce(s: State, t: Tid, id: nat, v: Value)
    requires Reachable(s) && t < |s.threads|
    requires s.threads[t].pc.PickRet? && s.threads[t].pc.result == Some((id, v))
    ensures id < |s.threads[t].pc.choices|
    ensures s.threads[t].posts == [s.threads[t].pc.choices[id]]
    ensures exists at: nat :: OnlyConsumption(s, t, s.threads[t].pc.choices[id], at, v)
  {
    ReachableInv(s);
    assert ThreadInv(s, t);
    var c := s.threads[t].pc.choices[id];
    var at := s.threads[t].got[0].1;
    forall d, k | 0 <= d < |s.chans| && 0 <= k < |s.chans[d].log|
      ensures BelongsTo(s, t, d, k) <==> d == c && k == at
    {
      ConsumptionsOf(s, t, d, k);
    }
    assert OnlyConsumption(s, t, c, at, v);
  }

  /** Position `at` of c is the one log entry of any channel that t's operation consumed. */
  ghost predicate OnlyConsumption(s: State, t: Tid, c: Cid, at: nat, v: Value)
    requires t < |s.threads|
  {
    && c < |s.chans| && at < |s.chans[c].log| && s.chans[c].log[at].v == v
    && forall d, k | 0 <= d < |s.chans| && 0 <= k < |s.chans[d].log| ::
         BelongsTo(s, t, d, k) <==> d == c && k == at
  }

  /** A pick that fails has consumed nothing and posted nothing. */
  lemma PickFailsCleanly(s: State, t: Tid)
    requires Reachable(s) && t < |s.threads|
    requires s.threads[t].pc.PickRet? && s.threads[t].pc.result.None?
    ensures s.threads[t].posts == []
    ensures forall d, k | 0 <= d < |s.chans| && 0 <= k < |s.chans[d].log| :: !BelongsTo(s, t, d, k)
  {
    ReachableInv(s);
    assert ThreadInv(s, t);
    forall d, k | 0 <= d < |s.chans| && 0 <= k < |s.chans[d].log| ensures !BelongsTo(s, t, d, k) {
      ConsumptionsOf(s, t, d, k);
    }
  }

  /** A take returns the one value it consumed and has posted take exactly once. */
  lemma TakeExactlyOnce(s: State, t: Tid, c: Cid, v: Value)
    requires Reachable(s) && t < |s.threads| && s.threads[t].pc == TakeRet(c, v)
    ensures s.threads[t].posts == [c]
    ensures exists at: nat :: OnlyConsumption(s, t, c, at, v)
  {
    ReachableInv(s);
    assert ThreadInv(s, t);
    var at := s.threads[t].got[0].1;
    forall d, k | 0 <= d < |s.chans| && 0 <= k < |s.chans[d].log|
      ensures BelongsTo(s, t, d, k) <==> d == c && k == at
    {
      ConsumptionsOf(s, t, d, k);
    }
    assert OnlyConsumption(s, t, c, at, v);
  }

  // ---------------------------------------------------------------- buffering

  /** When the nth put on a channel of size n has returned, at least the first nth - size values
      put there have been consumed. */
  lemma BoundedBuffering(s: State, t: Tid, c: Cid, v: Value, nth: nat)
    requires Reachable(s) && t < |s.threads| && s.threads[t].pc == PutRet(c, v, nth)
    ensures c < |s.chans| && 0 < nth <= |s.chans[c].puts| && s.chans[c].puts[nth - 1] == v
    ensures nth - s.chans[c].size <= |s.chans[c].log|
  {
    ReachableInv(s);
    assert ThreadInv(s, t);
  }

  /** On an unbuffered channel a put returns only after its own value was taken or picked. */
  lemma Rendezvous(s: State, t: Tid, c: Cid, v: Value, nth: nat)
    requires Reachable(s) && t < |s.threads| && s.threads[t].pc == PutRet(c, v, nth)
    requires c < |s.chans| && s.chans[c].size == 0
    ensures 0 < nth <= |s.chans[c].log| && s.chans[c].log[nth - 1].v == v
  {
    BoundedBuffering(s, t, c, v, nth);
    ReachableInv(s);
    assert ChanInv(s, c);
  }

  // ---------------------------------------------------------------- mailboxes

  /** No put ever follows a missing mailbox pointer or one into a pick that has returned: from the
      moment it reads the pointer until it is out of the mailbox's semaphores it holds the channel's
      lock, the pointer stays, and the picker is still in the pick that set it. */
  lemma NeverCrashes(s: State, t: Tid)
    requires Reachable(s) && t < |s.threads|
    ensures !s.threads[t].pc.Crashed?
    ensures Using(s.threads[t].pc) ==>
              var c, m := s.threads[t].pc.c, s.threads[t].pc.m;
              && c < |s.chans| && s.chans[c].lock == Some(t) && StillThere(s, c, m)
              && c in Mails(s.threads[m].pc)
  {
    ReachableInv(s);
    assert ThreadInv(s, t);
    if Using(s.threads[t].pc) {
      FacingFacts(s, t, s.threads[t].pc.c);
      assert OwnersAt(s, s.threads[t].pc.c, s.threads[t].pc.m);
    }
  }

  /** Once a pick has destroyed its mailbox, or is about to, nothing points at it and no put is
      anywhere inside it, be it trying it, filling it or still posting its semaphore. */
  lemma MailboxNotUsedAfterReturn(s: State, m: Tid)
    requires Reachable(s) && m < |s.threads|
    requires s.threads[m].pc.Picking? ==> s.threads[m].pc.at.PostTake? || s.threads[m].pc.at.FastFree?
    ensures forall c | 0 <= c < |s.chans| :: s.chans[c].mailbox != Some(m)
    ensures forall u | 0 <= u < |s.threads| :: Target(s.threads[u].pc) != Some(m)
  {
    ReachableInv(s);
    forall c | 0 <= c < |s.chans| ensures s.chans[c].mailbox != Some(m) {
      assert OwnersAt(s, c, m);
    }
    forall u | 0 <= u < |s.threads| ensures Target(s.threads[u].pc) != Some(m) {
      if Using(s.threads[u].pc) { NeverCrashes(s, u); }
    }
  }

  /** Whoever writes a channel's mailbox pointer holds the channel's lock. */
  lemma MailboxWrittenUnderLock(s: State, t: Tid, c: Cid)
    requires Reachable(s) && Possible(s, Go(t)) && c < |s.chans|
    ensures c < |Apply(s, Go(t)).chans|
    ensures Apply(s, Go(t)).chans[c].mailbox != s.chans[c].mailbox ==> s.chans[c].lock == Some(t)
  {
    ReachableInv(s);
    assert OwnersAt(s, c, t);
    hide Inv;
    if s.threads[t].pc.Picking? { PickWritesLocked(s, t, c); } else { OthersNeverWrite(s, t, c); }
  }

  lemma OthersNeverWrite(s: State, t: Tid, c: Cid)
    requires Shape(s) && Enabled(s, t) && !s.threads[t].pc.Picking? && c < |s.chans|
    ensures c < |Step(s, t).chans| && Step(s, t).chans[c].mailbox == s.chans[c].mailbox
  {
  }

  lemma PickWritesLocked(s: State, t: Tid, c: Cid)
    requires Shape(s) && Enabled(s, t) && s.threads[t].pc.Picking? && c < |s.chans| && OwnersAt(s, c, t)
    ensures c < |StepPick(s, t).chans|
    ensures StepPick(s, t).chans[c].mailbox != s.chans[c].mailbox ==> s.chans[c].lock == Some(t)
  {
    hide Span;
    var p := s.threads[t].pc.p;
    match s.threads[t].pc.at
    case TryPut => SpanHas(p.arr, 0, p.i + 1, p.i);
    case ClearEarlier =>
      if p.j < p.i && p.arr[p.j].Some? { SpanHas(p.arr, p.j, p.i + 1, p.j); }
    case ClearMail => SpanHas(p.arr, p.j, p.j + 1, p.j);
    case _ =>
  }

  lemma SpanHas(arr: seq<Option<Cid>>, lo: nat, hi: nat, k: nat)
    requires lo <= k < hi && k < |arr| && arr[k].Some?
    ensures arr[k].value in Span(arr, lo, hi)
  {
  }

  // ---------------------------------------------------------------- lock progress

  /** t's next operation is to lock channel c's `lock`, and somebody else has it. */
  predicate WaitsForLock(s: State, t: Tid, c: Cid)
    requires t < |s.threads| && c < |s.chans|
  {
    var pc := s.threads[t].pc;
    && s.chans[c].lock.Some?
    && ((pc.PutLockChan? && pc.c == c)
        || (pc.Picking? && pc.at.WantLock? && pc.p.i < |pc.p.arr| && pc.p.arr[pc.p.i] == Some(c))
        || (pc.Picking? && pc.at.Relock? && pc.p.j < |pc.p.arr| && pc.p.arr[pc.p.j] == Some(c)))
  }

  /** The owner of the lock a thread waits for. */
  ghost predicate Blocks(s: State, t: Tid, c: Cid, u: Tid)
    requires t < |s.threads| && c < |s.chans|
  {
    WaitsForLock(s, t, c) && s.chans[c].lock == Some(u) && u < |s.threads| && u != t
  }

  /** A putter that holds a channel's lock can always take its next step. */
  lemma PutterSteps(s: State, c: Cid, u: Tid)
    requires Inv(s) && c < |s.chans| && u < |s.threads| && s.chans[c].lock == Some(u)
    requires !s.threads[u].pc.Picking?
    ensures Enabled(s, u)
  {
    assert OwnersAt(s, c, u);
  }

  /** A scanning pick waits only for a put, because it holds that channel's take_lock. */
  lemma PickWaitsForPutter(s: State, t: Tid, c: Cid, u: Tid)
    requires Inv(s) && t < |s.threads| && c < |s.chans| && Blocks(s, t, c, u)
    requires s.threads[t].pc.Picking?
    ensures !s.threads[u].pc.Picking?
  {
    WaiterHasTaken(s, t, c);
    assert OwnersAt(s, c, t) && OwnersAt(s, c, u);
    if s.threads[u].pc.Picking? { LocksAreTaken(|s.chans|, s.threads[u].pc); }
  }

  lemma WaiterHasTaken(s: State, t: Tid, c: Cid)
    requires Inv(s) && t < |s.threads| && c < |s.chans| && WaitsForLock(s, t, c)
    requires s.threads[t].pc.Picking?
    ensures c in Takes(s.threads[t].pc)
  {
    assert ThreadInv(s, t);
    var pc := s.threads[t].pc;
    if pc.at.WantLock? {
      SpanGrows(pc.p.arr, 0, pc.p.i);
    } else {
      SpanShrinks(pc.p.arr, pc.p.j, |pc.p.arr|, |pc.p.arr|);
    }
  }

  lemma LocksAreTaken(n: nat, pc: PC)
    requires pc.Picking? && PickShape(n, pc.at, pc.p)
    ensures Locks(pc) <= Takes(pc)
  {
  }

  /** Channel-lock progress: whatever order picks list channels in, and with repeats, a thread
      waiting for a channel's lock waits for a thread that can step, or for a pick that itself
      waits for a put that can step.  (A pick that died in the unguarded unlock loop holds its
      locks for ever; it is the one exception.) */
  lemma LockProgress(s: State, t: Tid, c: Cid) returns (u: Tid, d: Cid, w: Tid)
    requires Reachable(s) && t < |s.threads| && c < |s.chans| && WaitsForLock(s, t, c)
    ensures Shape(s) && Blocks(s, t, c, u)
    ensures || Enabled(s, u)
            || (s.threads[u].pc.Picking? && s.threads[u].pc.at.Dead?)
            || (d < |s.chans| && Blocks(s, u, d, w) && Enabled(s, w))
  {
    ReachableInv(s);
    u, d, w := s.chans[c].lock.value, c, t;
    assert OwnersAt(s, c, t) && OwnersAt(s, c, u) && ThreadInv(s, t);
    WaiterIsNotOwner(s, t, c);
    if !s.threads[u].pc.Picking? {
      PutterSteps(s, c, u);
    } else if s.threads[u].pc.at.WantLock? && !Enabled(s, u) {
      var p := s.threads[u].pc.p;
      d := p.arr[p.i].value;
      w := s.chans[d].lock.value;
      WaiterIsNotOwner(s, u, d);
      PickWaitsForPutter(s, u, d, w);
      PutterSteps(s, d, w);
    }
  }

  lemma WaiterIsNotOwner(s: State, t: Tid, c: Cid)
    requires Inv(s) && t < |s.threads| && c < |s.chans| && WaitsForLock(s, t, c)
    ensures s.chans[c].lock != Some(t)
  {
    assert OwnersAt(s, c, t) && ThreadInv(s, t);
    var pc := s.threads[t].pc;
    if pc.Picking? && pc.at.WantLock? {
      SpanDistinct(pc.p.arr, pc.p.i);
    }
  }

  lemma SpanDistinct(arr: seq<Option<Cid>>, i: nat)
    requires i < |arr| && arr[i].Some? && Distinct(arr, i + 1)
    ensures arr[i].value !in Span(arr, 0, i)
  {
  }

  // ---------------------------------------------------------------- the unguarded unlock loop

  /** With the null guard no pick ever dies. */
  lemma GuardedNeverDies(s: State, t: Tid)
    requires Reachable(s) && s.guarded && t < |s.threads|
    ensures s.threads[t].pc.Picking? ==> !s.threads[t].pc.at.Dead?
  {
    ReachableInv(s);
    assert ThreadInv(s, t);
  }

  /** t goes n times in a row. */
  function Goes(t: Tid, n: nat): (r: seq<Action>) { seq(n, k => Go(t)) }

  /** One iteration of the unlock loop. */
  lemma UnlockStep(s: State, t: Tid)
    requires Inv(s) && t < |s.threads| && s.threads[t].pc.Picking? && s.threads[t].pc.at.Unlock?
    ensures Possible(s, Go(t)) && s.threads[t].pc.p.j <= |s.threads[t].pc.p.arr|
    ensures var p, r := s.threads[t].pc.p, Apply(s, Go(t));
            && Inv(r) && r.guarded == s.guarded && t < |r.threads| && r.threads[t].pc.Picking?
            && (p.j == |p.arr| ==> r.threads[t].pc.at == PendDone)
            && (p.j < |p.arr| && p.arr[p.j].None? && !s.guarded ==> r.threads[t].pc.at == Dead)
            && (p.j < |p.arr| && (p.arr[p.j].Some? || s.guarded) ==>
                  r.threads[t].pc == Picking(Unlock, p.(j := p.j + 1)))
  {
    StepKeepsInv(s, t);
    assert ThreadInv(s, t);
  }

  /** Left to itself, a pick in the unlock loop gets through to the wait if the loop is guarded or
      every entry still ahead was won, and dies on the first entry it did not win otherwise. */
  lemma {:induction false} UnlockLoopFate(s: State, t: Tid) returns (n: nat)
    requires Inv(s) && t < |s.threads| && s.threads[t].pc.Picking? && s.threads[t].pc.at.Unlock?
    ensures IsRun(s, Goes(t, n))
    ensures var r := After(s, Goes(t, n));
            var p := s.threads[t].pc.p;
            && t < |r.threads| && r.threads[t].pc.Picking?
            && r.threads[t].pc.at ==
                 if s.guarded || (forall k | p.j <= k < |p.arr| :: p.arr[k].Some?) then PendDone else Dead
    decreases |s.threads[t].pc.p.arr| - s.threads[t].pc.p.j
  {
    hide Inv, Apply, Possible;
    var p := s.threads[t].pc.p;
    UnlockStep(s, t);
    var r := Apply(s, Go(t));
    if p.j == |p.arr| || (p.arr[p.j].None? && !s.guarded) {
      n := 1;
      assert Goes(t, 1) == [Go(t)];
      assert Goes(t, 1)[1..] == [];
    } else {
      var m := UnlockLoopFate(r, t);
      n := m + 1;
      assert Goes(t, n)[0] == Go(t);
      assert Goes(t, n)[1..] == Goes(t, m);
    }
  }

  /** As written, under any interleaving: a pick past the unlock loop had won every channel it
      lists, and a pick that died there had not. */
  lemma UnguardedUnlockLoop(s: State, t: Tid)
    requires Reachable(s) && !s.guarded && t < |s.threads| && s.threads[t].pc.Picking?
    ensures var at, p := s.threads[t].pc.at, s.threads[t].pc.p;
            && (at.PendDone? || at.Relock? || at.ClearMail? || at.FreeTake? || at.PostTake? ==>
                  forall k | 0 <= k < |p.arr| :: p.arr[k].Some?)
            && (at.Dead? ==> exists k :: 0 <= k < |p.arr| && p.arr[k].None?)
  {
    ReachableInv(s);
    assert ThreadInv(s, t);
    var p := s.threads[t].pc.p;
    if s.threads[t].pc.at.Dead? { assert p.arr[p.j].None?; }
  }

  lemma {:induction false} RunExtends(s: State, acts: seq<Action>, a: Action)
    requires IsRun(s, acts) && Possible(After(s, acts), a)
    ensures IsRun(s, acts + [a]) && After(s, acts + [a]) == Apply(After(s, acts), a)
    decreases |acts|
  {
    hide Possible, Apply;
    if acts == [] {
      assert (acts + [a])[1..] == [];
    } else {
      RunExtends(Apply(s, acts[0]), acts[1..], a);
      assert (acts + [a])[0] == acts[0];
      assert (acts + [a])[1..] == acts[1..] + [a];
    }
  }

  function IdleChan(): (ch: Chan) { Chan(0, [0], 0, 0, 0, 0, None, None, None, None, 0, [], []) }

  /** Two idle unbuffered channels and two idle threads, with the unlock loop as written. */
  function TwoByTwo(): (s: State) {
    State([IdleChan(), IdleChan()], [Thread(Idle, 0, [], []), Thread(Idle, 0, [], [])], false)
  }

  /** Thread 0 blocks in a take on channel 0; thread 1 picks from both channels, loses channel 0,
      wins channel 1, finds nothing there, and dies unlocking the entry it lost. */
  lemma UnguardedPickCanDie() returns (acts: seq<Action>)
    ensures Init(TwoByTwo()) && IsRun(TwoByTwo(), acts)
    ensures var r := After(TwoByTwo(), acts);
            1 < |r.threads| && r.threads[1].pc.Picking? && r.threads[1].pc.at.Dead?
  {
    hide Inv, Apply, Possible, IsRun, After;
    var s := TwoByTwo();
    var taker := LostScan();
    assert After(s, taker).threads[1].pc.p.arr[0].None?;
    var n := UnlockLoopFate(After(s, taker), 1);
    RunsConcat(s, taker, Goes(1, n));
    acts := taker + Goes(1, n);
  }

  lemma {:induction false} RunsConcat(s: State, a: seq<Action>, b: seq<Action>)
    requires IsRun(s, a) && IsRun(After(s, a), b)
    ensures IsRun(s, a + b) && After(s, a + b) == After(After(s, a), b)
    decreases |a|
  {
    hide Possible, Apply;
    if a == [] {
      assert a + b == b;
    } else {
      RunsConcat(Apply(s, a[0]), a[1..], b);
      assert (a + b)[0] == a[0];
      assert (a + b)[1..] == a[1..] + b;
    }
  }

  lemma Then(acts: seq<Action>, a: Action) returns (more: seq<Action>)
    requires IsRun(TwoByTwo(), acts) && Possible(After(TwoByTwo(), acts), a)
    ensures IsRun(TwoByTwo(), more) && After(TwoByTwo(), more) == Apply(After(TwoByTwo(), acts), a)
  {
    RunExtends(TwoByTwo(), acts, a);
    more := acts + [a];
  }

  /** Thread 1's pick with its first entry lost, at the given stage. */
  predicate Halfway(m: State, at: Stage, i: nat, count: nat) {
    && Shape(m) && !m.guarded && |m.threads| == 2 && |m.chans| == 2
    && m.threads[1].pc == Picking(at, Pick([0, 1], [None, Some(1)], i, 0, count, Box(1, 0, 0, 0), 0, 0))
    && m.chans[1].put == 0
  }

  /** The scan of that run: channel 0 is lost, channel 1 won and empty. */
  lemma LostScan() returns (acts: seq<Action>)
    ensures IsRun(TwoByTwo(), acts)
    ensures Inv(After(TwoByTwo(), acts)) && Halfway(After(TwoByTwo(), acts), Unlock, 2, 1)
  {
    InitInv(TwoByTwo());
    acts := LostFirst();
    acts := WonSecond(acts);
    acts := MissedSecond(acts);
    RunKeepsInv(TwoByTwo(), acts);
  }

  lemma LostFirst() returns (acts: seq<Action>)
    ensures IsRun(TwoByTwo(), acts)
    ensures Halfway(After(TwoByTwo(), acts), TryTake, 1, 0)
    ensures After(TwoByTwo(), acts).chans[1] == IdleChan()
  {
    hide Possible, Apply, Halfway, Shape;
    acts := TakerIn();
    PickBegins(After(TwoByTwo(), acts));
    acts := Then(acts, Begin(1, PickFrom([0, 1])));
    FirstIsLost(After(TwoByTwo(), acts));
    acts := Then(acts, Go(1));
  }

  /** Channel 0 is being taken from, channel 1 is idle. */
  predicate TakerWaits(m: State) {
    && Shape(m) && !m.guarded && |m.threads| == 2 && |m.chans| == 2
    && m.chans[0].takeLock == Some(0) && m.chans[1] == IdleChan()
  }

  lemma TakerIn() returns (acts: seq<Action>)
    ensures IsRun(TwoByTwo(), acts)
    ensures TakerWaits(After(TwoByTwo(), acts)) && After(TwoByTwo(), acts).threads[1].pc == Idle
  {
    var s := TwoByTwo();
    var m := Apply(s, Begin(0, Take(0)));
    TakerBegins();
    hide TwoByTwo, Apply, Possible, TakerWaits, TakerStarts;
    acts := Then([], Begin(0, Take(0)));
    TakerGoes(m);
    acts := Then(acts, Go(0));
  }

  /** Thread 0 has begun its take, and nothing else has happened. */
  predicate TakerStarts(m: State) { m == Apply(TwoByTwo(), Begin(0, Take(0))) }

  lemma TakerBegins()
    ensures Possible(TwoByTwo(), Begin(0, Take(0))) && TakerStarts(Apply(TwoByTwo(), Begin(0, Take(0))))
    ensures IsRun(TwoByTwo(), []) && After(TwoByTwo(), []) == TwoByTwo()
  {
  }

  lemma TakerGoes(m: State)
    requires TakerStarts(m)
    ensures Possible(m, Go(0)) && TakerWaits(Apply(m, Go(0))) && Apply(m, Go(0)).threads[1].pc == Idle
  {
  }

  predicate JustBegun(pc: PC) {
    pc == Picking(TryTake, Pick([0, 1], [Some(0), Some(1)], 0, 0, 0, Box(1, 0, 0, 0), 0, 0))
  }

  lemma PickBegins(m: State)
    requires TakerWaits(m) && m.threads[1].pc == Idle
    ensures Possible(m, Begin(1, PickFrom([0, 1])))
    ensures TakerWaits(Apply(m, Begin(1, PickFrom([0, 1]))))
    ensures JustBegun(Apply(m, Begin(1, PickFrom([0, 1]))).threads[1].pc)
  {
    assert FirstPC(PickFrom([0, 1])).p.arr == [Some(0), Some(1)];
  }

  lemma FirstIsLost(m: State)
    requires TakerWaits(m) && JustBegun(m.threads[1].pc)
    ensures Possible(m, Go(1)) && Halfway(Apply(m, Go(1)), TryTake, 1, 0)
    ensures Apply(m, Go(1)).chans[1] == IdleChan()
  {
    assert m.threads[1].pc.p.arr[0 := None] == [None, Some(1)];
  }

  lemma WonSecond(start: seq<Action>) returns (acts: seq<Action>)
    requires IsRun(TwoByTwo(), start) && Halfway(After(TwoByTwo(), start), TryTake, 1, 0)
    requires After(TwoByTwo(), start).chans[1] == IdleChan()
    ensures IsRun(TwoByTwo(), acts) && Halfway(After(TwoByTwo(), acts), TryPut, 1, 0)
  {
    hide Possible, Apply, Halfway, Shape;
    SecondIsWon(After(TwoByTwo(), start));
    acts := Then(start, Go(1));
    SecondIsLocked(After(TwoByTwo(), acts));
    acts := Then(acts, Go(1));
  }

  lemma SecondIsWon(m: State)
    requires Halfway(m, TryTake, 1, 0) && m.chans[1].takeLock.None? && m.chans[1].lock.None?
    ensures Possible(m, Go(1)) && Halfway(Apply(m, Go(1)), WantLock, 1, 0)
    ensures Apply(m, Go(1)).chans[1].lock.None?
  {
  }

  lemma SecondIsLocked(m: State)
    requires Halfway(m, WantLock, 1, 0) && m.chans[1].lock.None?
    ensures Possible(m, Go(1)) && Halfway(Apply(m, Go(1)), TryPut, 1, 0)
  {
  }

  lemma MissedSecond(start: seq<Action>) returns (acts: seq<Action>)
    requires IsRun(TwoByTwo(), start) && Halfway(After(TwoByTwo(), start), TryPut, 1, 0)
    ensures IsRun(TwoByTwo(), acts) && Halfway(After(TwoByTwo(), acts), Unlock, 2, 1)
  {
    hide Possible, Apply, Halfway, Shape;
    SecondIsEmpty(After(TwoByTwo(), start));
    acts := Then(start, Go(1));
    ScanEnds(After(TwoByTwo(), acts));
    acts := Then(acts, Go(1));
  }

  lemma SecondIsEmpty(m: State)
    requires Halfway(m, TryPut, 1, 0)
    ensures Possible(m, Go(1)) && Halfway(Apply(m, Go(1)), TryTake, 2, 1)
  {
  }

  lemma ScanEnds(m: State)
    requires Halfway(m, TryTake, 2, 1)
    ensures Possible(m, Go(1)) && Halfway(Apply(m, Go(1)), Unlock, 2, 1)
  {
  }

  // ---------------------------------------------------------------- teardown

  /** With no thread inside an operation the semaphores account for the whole channel, which is
      what deinit relies on to count the buffered values. */
  lemma Quiescent(s: State, c: Cid)
    requires Reachable(s) && c < |s.chans|
    requires forall t | 0 <= t < |s.threads| :: Resting(s.threads[t].pc)
    ensures s.chans[c].put + s.chans[c].take == s.chans[c].size
    ensures s.chans[c].Occupancy() == s.chans[c].size - s.chans[c].take
    ensures s.chans[c].mailbox.None? && s.chans[c].lock.None?
    ensures s.chans[c].putLock.None? && s.chans[c].takeLock.None?
  {
    ReachableInv(s);
    hide Inv;
    forall t | 0 <= t < |s.threads| ensures !Owes(s.threads[t], c) && HasNothing(s, t, c) {
      RestingHasNothing(s, t, c);
    }
    assert Owing(s.threads, c) == {};
    QuietChannel(s, c);
  }

  /** Thread t holds no lock of c, and no mailbox of its is there. */
  predicate HasNothing(s: State, t: Tid, c: Cid)
    requires c < |s.chans|
  {
    && s.chans[c].mailbox != Some(t) && s.chans[c].lock != Some(t)
    && s.chans[c].putLock != Some(t) && s.chans[c].takeLock != Some(t)
  }

  lemma RestingHasNothing(s: State, t: Tid, c: Cid)
    requires Inv(s) && c < |s.chans| && t < |s.threads| && Resting(s.threads[t].pc)
    ensures !Owes(s.threads[t], c) && HasNothing(s, t, c)
  {
    hide Tags, Winners, Channels;
    assert ThreadInv(s, t) && OwnersAt(s, c, t);
  }

  lemma QuietChannel(s: State, c: Cid)
    requires Inv(s) && c < |s.chans| && Owing(s.threads, c) == {}
    requires forall t | 0 <= t < |s.threads| :: HasNothing(s, t, c)
    ensures s.chans[c].put + s.chans[c].take == s.chans[c].size
    ensures s.chans[c].Occupancy() == s.chans[c].size - s.chans[c].take
    ensures s.chans[c].mailbox.None? && s.chans[c].lock.None?
    ensures s.chans[c].putLock.None? && s.chans[c].takeLock.None?
  {
    NothingHeld(s, c);
    hide Tags, Winners, Threads, HasNothing, Owners;
    assert ChanInv(s, c);
  }

  lemma NothingHeld(s: State, c: Cid)
    requires Inv(s) && c < |s.chans|
    requires forall t | 0 <= t < |s.threads| :: HasNothing(s, t, c)
    ensures s.chans[c].mailbox.None? && s.chans[c].lock.None?
    ensures s.chans[c].putLock.None? && s.chans[c].takeLock.None?
  {
    hide Tags, Winners, Threads, Channels;
    assert Known(s, s.chans[c].lock) && Known(s, s.chans[c].putLock);
    assert Known(s, s.chans[c].takeLock) && Known(s, s.chans[c].mailbox);
    var ch, n := s.chans[c], |s.threads|;
    assert Holder(ch.lock) < n ==> HasNothing(s, Holder(ch.lock), c);
    assert Holder(ch.putLock) < n ==> HasNothing(s, Holder(ch.putLock), c);
    assert Holder(ch.takeLock) < n ==> HasNothing(s, Holder(ch.takeLock), c);
    assert Holder(ch.mailbox) < n ==> HasNothing(s, Holder(ch.mailbox), c);
  }

  function Holder(o: Option<Tid>): (t: Tid) { if o.Some? then o.value else 0 }
}
