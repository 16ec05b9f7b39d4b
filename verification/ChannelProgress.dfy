/** The channels never leave a sender and a receiver waiting for each other: when no thread can move, no
    channel has both. */
module ChannelProgress {
  import opened Wrappers
  import opened ChannelModel
  import opened ChannelInvariant
  import opened ChannelTheorems

  // ---------------------------------------------------------------- who has won a mailbox

  /** A waiting pick whose mailbox has been won and not yet posted. */
  predicate BoxWon(pc: PC) { pc.Picking? && Waiting(pc.at) && pc.p.box.bi == 0 && pc.p.box.done == 0 }

  /** Some put is filling the mailbox of m. */
  predicate ServedBy(s: State, m: Tid, u: Tid) {
    u < |s.threads| && Delivering(s.threads[u].pc) && s.threads[u].pc.m == m
  }

  ghost predicate IsServed(s: State, m: Tid) { exists u :: ServedBy(s, m, u) }

  ghost predicate Served(s: State) {
    forall m | 0 <= m < |s.threads| && BoxWon(s.threads[m].pc) :: IsServed(s, m)
  }

  /** A step of t that leaves the other threads as they are, and does not win or lose a mailbox. */
  lemma AloneServed(s: State, r: State, t: Tid)
    requires Served(s) && t < |s.threads| && |r.threads| == |s.threads| && r.threads == s.threads[t := r.threads[t]]
    requires !Delivering(s.threads[t].pc) && (BoxWon(r.threads[t].pc) ==> BoxWon(s.threads[t].pc))
    ensures Served(r)
  {
    forall m | 0 <= m < |r.threads| && BoxWon(r.threads[m].pc) ensures IsServed(r, m) {
      assert IsServed(s, m);
      var u :| ServedBy(s, m, u);
      assert ServedBy(r, m, u);
    }
  }

  lemma ScanServed(s: State, t: Tid)
    requires Inv(s) && Enabled(s, t) && Served(s) && s.threads[t].pc.Picking? && Scanning(s.threads[t].pc.at)
    ensures Served(StepScan(s, t))
  {
    hide Owners, Channels, Winners, Tags, Served;
    assert ThreadInv(s, t);
    AloneServed(s, StepScan(s, t), t);
  }

  lemma FastServed(s: State, t: Tid)
    requires Shape(s) && Enabled(s, t) && Served(s) && s.threads[t].pc.Picking? && Fast(s.threads[t].pc.at)
    ensures Served(StepFast(s, t))
  {
    hide Served;
    AloneServed(s, StepFast(s, t), t);
  }

  lemma SlowServed(s: State, t: Tid)
    requires Shape(s) && Enabled(s, t) && Served(s) && s.threads[t].pc.Picking?
    requires !Scanning(s.threads[t].pc.at) && !Fast(s.threads[t].pc.at)
    ensures Served(StepSlow(s, t))
  {
    hide Served;
    AloneServed(s, StepSlow(s, t), t);
  }

  lemma TakeServed(s: State, t: Tid)
    requires Shape(s) && Enabled(s, t) && Served(s)
    requires var pc := s.threads[t].pc;
             pc.TakeLockTake? || pc.TakePend? || pc.TakeRing? || pc.TakePost? || pc.TakeUnlock?
    ensures Served(StepTake(s, t))
  {
    hide Served;
    AloneServed(s, StepTake(s, t), t);
  }

  /** A put that is not at work on a mailbox's counts. */
  lemma PlainPutServed(s: State, t: Tid)
    requires Shape(s) && Enabled(s, t) && Served(s)
    requires var pc := s.threads[t].pc;
             pc.PutLockPut? || pc.PutLockChan? || pc.PutChoose? || pc.PutLost? || pc.PutRing? || pc.PutPostPut?
             || pc.PutPosted? || pc.PutUnlock? || pc.PutPendTake? || pc.PutUnlockPut?
    ensures Served(StepPut(s, t))
  {
    hide Served;
    AloneServed(s, StepPut(s, t), t);
  }

  /** What a step of t on the mailbox of m does to the threads. */
  ghost predicate Worked(s: State, r: State, t: Tid, m: Tid) {
    && t < |s.threads| && m < |s.threads| && t != m && |r.threads| == |s.threads|
    && (forall v | 0 <= v < |s.threads| && v != t && v != m :: r.threads[v] == s.threads[v])
    && s.threads[m].pc.Picking? && r.threads[m].pc.Picking? && !r.threads[t].pc.Picking?
  }

  /** A put that wins m, or goes on filling it, is the one that serves m; one that has posted leaves m with
      a count. */
  lemma WorkServed(s: State, r: State, t: Tid, m: Tid)
    requires Served(s) && Worked(s, r, t, m)
    requires Delivering(s.threads[t].pc) ==> s.threads[t].pc.m == m
    requires ServedBy(r, m, t) || !BoxWon(r.threads[m].pc)
    ensures Served(r)
  {
    forall v | 0 <= v < |r.threads| && BoxWon(r.threads[v].pc) ensures IsServed(r, v) {
      if v == m {
        assert ServedBy(r, m, t);
      } else {
        assert IsServed(s, v);
        var u :| ServedBy(s, v, u);
        assert ServedBy(r, v, u);
      }
    }
  }

  lemma TryServed(s: State, t: Tid)
    requires Inv(s) && Enabled(s, t) && Served(s) && s.threads[t].pc.PutTry?
    ensures Served(StepPut(s, t))
  {
    hide Owners, Channels, Winners, Tags, Served;
    PickerOf(s, t);
    var m := s.threads[t].pc.m;
    if BoxOf(s, m).bi > 0 { WorkServed(s, StepPut(s, t), t, m); } else { AloneServed(s, StepPut(s, t), t); }
  }

  lemma PickerOf(s: State, t: Tid)
    requires Inv(s) && t < |s.threads| && Using(s.threads[t].pc)
    ensures s.threads[t].pc.c < |s.chans|
    ensures StillThere(s, s.threads[t].pc.c, s.threads[t].pc.m) && s.threads[t].pc.m != t
  {
    assert ThreadInv(s, t) && ChanInv(s, s.threads[t].pc.c);
  }

  lemma DeliverServed(s: State, t: Tid)
    requires Inv(s) && Enabled(s, t) && Served(s) && Delivering(s.threads[t].pc)
    ensures Served(StepPut(s, t))
  {
    hide Owners, Channels, Threads, Winners, Tags, Served;
    PickerOf(s, t);
    WorkServed(s, StepPut(s, t), t, s.threads[t].pc.m);
  }

  lemma StepServed(s: State, t: Tid)
    requires Inv(s) && Enabled(s, t) && Served(s)
    ensures Served(Step(s, t))
  {
    hide Owners, Channels, Threads, Winners, Tags, Served;
    var pc := s.threads[t].pc;
    if pc.Picking? {
      if Scanning(pc.at) { ScanServed(s, t); } else if Fast(pc.at) { FastServed(s, t); } else { SlowServed(s, t); }
    } else if pc.TakeLockTake? || pc.TakePend? || pc.TakeRing? || pc.TakePost? || pc.TakeUnlock? {
      TakeServed(s, t);
    } else if pc.PutTry? {
      TryServed(s, t);
    } else if Delivering(pc) {
      DeliverServed(s, t);
    } else {
      PlainPutServed(s, t);
    }
  }

  lemma {:induction false} RunServed(s: State, acts: seq<Action>)
    requires Inv(s) && Served(s) && IsRun(s, acts)
    ensures Served(After(s, acts))
    decreases |acts|
  {
    hide Inv, Served;
    if acts == [] {
    } else {
      ActionKeepsInv(s, acts[0]);
      ActionServed(s, acts[0]);
      RunServed(Apply(s, acts[0]), acts[1..]);
    }
  }

  lemma ActionServed(s: State, a: Action)
    requires Inv(s) && Served(s) && Possible(s, a)
    ensures Served(Apply(s, a))
  {
    hide Inv, Served, Shape;
    match a
    case Go(t) => StepServed(s, t);
    case Begin(t, op) => AloneServed(s, Apply(s, a), t);
  }

  lemma ReachableServed(s: State)
    requires Reachable(s)
    ensures Served(s)
  {
    var s0: State, acts: seq<Action> :| Init(s0) && IsRun(s0, acts) && After(s0, acts) == s;
    InitInv(s0);
    RunServed(s0, acts);
  }

  // ---------------------------------------------------------------- when nothing can move

  /** No thread can move, and no pick has died. */
  ghost predicate Stuck(s: State)
    requires Shape(s)
  {
    forall t | 0 <= t < |s.threads| :: !Enabled(s, t) && !(s.threads[t].pc.Picking? && s.threads[t].pc.at.Dead?)
  }

  /** Nobody holds any channel's `lock`. */
  lemma NoLockHeld(s: State, c: Cid)
    requires Inv(s) && Stuck(s) && c < |s.chans|
    ensures s.chans[c].lock.None?
  {
    hide Channels, Winners, Tags;
    if s.chans[c].lock.Some? {
      assert Known(s, s.chans[c].lock);
      HolderMoves(s, c, s.chans[c].lock.value);
    }
  }

  lemma HolderMoves(s: State, c: Cid, u: Tid)
    requires Inv(s) && c < |s.chans| && u < |s.threads| && s.chans[c].lock == Some(u)
    requires !(s.threads[u].pc.Picking? && s.threads[u].pc.at.Dead?)
    ensures exists w :: 0 <= w < |s.threads| && Enabled(s, w)
  {
    assert OwnersAt(s, c, u) && ThreadInv(s, u);
    var pc := s.threads[u].pc;
    if !pc.Picking? {
      PutterSteps(s, c, u);
    } else if pc.at.WantLock? && !Enabled(s, u) {
      var d := pc.p.arr[pc.p.i].value;
      var w := s.chans[d].lock.value;
      assert OwnersAt(s, d, u);
      WaiterIsNotOwner(s, u, d);
      PickWaitsForPutter(s, u, d, w);
      PutterSteps(s, d, w);
      assert Enabled(s, w);
    } else {
      assert Enabled(s, u);
    }
  }

  /** Where a thread can be when nothing moves: between operations, or in one of five waits. */
  predicate Parked(pc: PC) {
    || Resting(pc) || pc.PutLockPut? || pc.PutPendTake? || pc.TakeLockTake? || pc.TakePend?
    || (pc.Picking? && pc.at.PendDone?)
  }

  lemma StuckParked(s: State, t: Tid)
    requires Inv(s) && Stuck(s) && t < |s.threads|
    ensures Parked(s.threads[t].pc)
  {
    hide Owners, Channels, Winners, Tags;
    assert ThreadInv(s, t) && !Enabled(s, t);
    var pc := s.threads[t].pc;
    if pc.PutLockChan? { NoLockHeld(s, pc.c); }
    if pc.Picking? && pc.at.WantLock? { NoLockHeld(s, pc.p.arr[pc.p.i].value); }
    if pc.Picking? && pc.at.Relock? && pc.p.j < |pc.p.arr| && pc.p.arr[pc.p.j].Some? {
      NoLockHeld(s, pc.p.arr[pc.p.j].value);
    }
  }

  /** A parked pick's mailbox is still open. */
  lemma ParkedPick(s: State, t: Tid)
    requires Inv(s) && Served(s) && Stuck(s) && t < |s.threads| && s.threads[t].pc.Picking?
    ensures s.threads[t].pc.at.PendDone? && s.threads[t].pc.p.box.bi == 1
    ensures s.threads[t].got == [] && s.threads[t].posts == []
  {
    hide Owners, Channels, Winners, Tags;
    StuckParked(s, t);
    assert ThreadInv(s, t) && !Enabled(s, t);
    forall u | 0 <= u < |s.threads| ensures !Delivering(s.threads[u].pc) { StuckParked(s, u); }
    NoneServing(s, t);
  }

  lemma NoneServing(s: State, m: Tid)
    requires Served(s) && m < |s.threads| && forall u | 0 <= u < |s.threads| :: !Delivering(s.threads[u].pc)
    ensures !BoxWon(s.threads[m].pc)
  {
  }

  lemma ParkedOwesNothing(s: State, t: Tid, c: Cid)
    requires Inv(s) && Served(s) && Stuck(s) && t < |s.threads| && c < |s.chans|
    ensures !Owes(s.threads[t], c)
  {
    hide Owners, Channels, Winners, Tags, Served, Stuck;
    StuckParked(s, t);
    if s.threads[t].pc.Picking? { ParkedPick(s, t); } else { assert ThreadInv(s, t); }
  }

  /** With nothing moving, the counts of a channel speak for its ring. */
  lemma StuckCounts(s: State, c: Cid)
    requires Inv(s) && Served(s) && Stuck(s) && c < |s.chans|
    ensures var ch := s.chans[c];
            ch.Occupancy() == ch.put && ch.take + ch.Occupancy() == ch.size + PendingN(s, c)
  {
    hide Owners, Threads, Winners, Tags, Served, Stuck, RingInv, MailInv;
    NoLockHeld(s, c);
    forall t | 0 <= t < |s.threads| ensures !Owes(s.threads[t], c) { ParkedOwesNothing(s, t, c); }
    assert Owing(s.threads, c) == {};
    assert ChanInv(s, c);
    NothingClaimed(s, c);
  }

  lemma NothingClaimed(s: State, c: Cid)
    requires Inv(s) && Stuck(s) && c < |s.chans|
    ensures ClaimedN(s, c) == 0
  {
    hide Owners, Channels, Threads, Winners, Tags, Stuck;
    var o := s.chans[c].takeLock;
    if o.Some? && o.value < |s.threads| { StuckParked(s, o.value); }
  }

  /** t waits to send on c, or to be let in to do so. */
  predicate Sender(pc: PC, c: Cid) { (pc.PutLockPut? || pc.PutPendTake?) && pc.c == c }

  /** t waits to receive from c, or to be let in to do so; a pick waits on the channels it has won. */
  predicate Receiver(pc: PC, c: Cid) {
    ((pc.TakeLockTake? || pc.TakePend?) && pc.c == c) || (pc.Picking? && c in Takes(pc))
  }

  /** A parked sender means a ring that is full, its own value in it and one more than fits. */
  lemma SenderFull(s: State, t: Tid, c: Cid)
    requires Inv(s) && Served(s) && Stuck(s) && t < |s.threads| && c < |s.chans| && Sender(s.threads[t].pc, c)
    ensures s.chans[c].Occupancy() == s.chans[c].put == s.chans[c].size + 1
    ensures exists u :: 0 <= u < |s.threads| && s.threads[u].pc.PutPendTake? && s.threads[u].pc.c == c
  {
    hide Channels, Winners, Tags, Served;
    StuckCounts(s, c);
    assert !Enabled(s, t) && ThreadInv(s, t);
    var u := t;
    if s.threads[t].pc.PutLockPut? {
      assert Known(s, s.chans[c].putLock);
      u := s.chans[c].putLock.value;
      assert OwnersAt(s, c, u);
      StuckParked(s, u);
    }
    assert OwnersAt(s, c, u) && !Enabled(s, u);
    assert s.threads[u].pc.PutPendTake? && s.threads[u].pc.c == c;
  }

  /** A parked receiver means an empty ring. */
  lemma ReceiverEmpty(s: State, t: Tid, c: Cid)
    requires Inv(s) && Served(s) && Stuck(s) && t < |s.threads| && c < |s.chans| && Receiver(s.threads[t].pc, c)
    ensures s.chans[c].Occupancy() == 0
  {
    hide Channels, Winners, Tags, Served;
    StuckCounts(s, c);
    assert !Enabled(s, t) && ThreadInv(s, t);
    var u := t;
    if s.threads[t].pc.TakeLockTake? {
      assert Known(s, s.chans[c].takeLock);
      u := s.chans[c].takeLock.value;
    }
    assert OwnersAt(s, c, u) && OwnersAt(s, c, t);
    StuckParked(s, u);
    if s.threads[u].pc.Picking? { WaitingPickEmpty(s, u, c); } else { assert !Enabled(s, u); }
  }

  lemma WaitingPickEmpty(s: State, u: Tid, c: Cid)
    requires Inv(s) && Served(s) && Stuck(s) && u < |s.threads| && c < |s.chans|
    requires s.threads[u].pc.Picking? && c in Takes(s.threads[u].pc)
    ensures s.chans[c].Occupancy() == 0
  {
    hide Winners, Tags, Served;
    ParkedPick(s, u);
    assert OwnersAt(s, c, u) && ChanInv(s, c);
  }

  /** When no thread can move, no channel has a sender waiting and a receiver waiting: whoever waits, waits
      for an operation nobody has begun. */
  lemma NobodyMissesAnother(s: State, t: Tid, u: Tid, c: Cid)
    requires Reachable(s) && Shape(s) && Stuck(s) && t < |s.threads| && u < |s.threads| && c < |s.chans|
    ensures !(Sender(s.threads[t].pc, c) && Receiver(s.threads[u].pc, c))
    ensures Parked(s.threads[t].pc)
    ensures Sender(s.threads[t].pc, c) ==> s.chans[c].Occupancy() == s.chans[c].size + 1
    ensures Receiver(s.threads[t].pc, c) ==> s.chans[c].Occupancy() == 0
  {
    hide Inv, Stuck, Sender, Receiver, Served;
    ReachableInv(s);
    ReachableServed(s);
    StuckParked(s, t);
    if Sender(s.threads[t].pc, c) { SenderFull(s, t, c); }
    if Receiver(s.threads[u].pc, c) { ReceiverEmpty(s, u, c); }
    if Receiver(s.threads[t].pc, c) { ReceiverEmpty(s, t, c); }
  }
}
