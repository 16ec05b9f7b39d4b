/** Every step of every thread keeps the invariant. */
module ChannelSteps {
  import opened Wrappers
  import opened ChannelModel
  import opened ChannelInvariant
  import opened ChannelFrames

  // ---------------------------------------------------------------- the ring

  /** No live slot is overwritten: with room left, the write lands beside the live values. */
  lemma PutValueRing(ch: Chan, v: Value)
    requires RingInv(ch) && ch.Occupancy() <= ch.size
    ensures RingInv(PutValue(ch, v))
    ensures forall k | 0 <= k < ch.Occupancy() :: ch.Slot(k) != ch.last
  {
    var r := PutValue(ch, v);
    forall k | 0 <= k < r.Occupancy() ensures r.slots[r.Slot(k)] == r.puts[|r.log| + k] {
      if k < ch.Occupancy() { assert ch.slots[ch.Slot(k)] == ch.puts[|ch.log| + k]; }
    }
  }

  /** What take_value reads is the oldest value not yet consumed. */
  lemma TakeValueRing(ch: Chan, who: Tid, op: nat)
    requires RingInv(ch) && ch.Occupancy() > 0
    ensures RingInv(TakeValue(ch, who, op))
    ensures ch.slots[ch.first] == ch.puts[|ch.log|]
  {
    var r := TakeValue(ch, who, op);
    assert ch.Slot(0) == ch.first;
    assert ch.slots[ch.Slot(0)] == ch.puts[|ch.log| + 0];
    forall k | 0 <= k < r.Occupancy() ensures r.slots[r.Slot(k)] == r.puts[|r.log| + k] {
      assert r.Slot(k) == ch.Slot(k + 1);
      assert ch.slots[ch.Slot(k + 1)] == ch.puts[|ch.log| + (k + 1)];
    }
  }

  /** Locks, semaphores and mailboxes do not concern the ring. */
  lemma RingUntouched(a: Chan, b: Chan)
    requires RingInv(a)
    requires b.size == a.size && b.slots == a.slots && b.first == a.first && b.last == a.last
    requires b.puts == a.puts && b.log == a.log
    ensures RingInv(b)
  {
    forall k | 0 <= k < b.Occupancy() ensures b.slots[b.Slot(k)] == b.puts[|b.log| + k] {
      assert a.slots[a.Slot(k)] == a.puts[|a.log| + k];
    }
  }

  // ---------------------------------------------------------------- putting the parts together

  ghost predicate SameHistory(c: Cid, t: Tid, a: Chan, b: Chan, th: Thread, th': Thread) {
    && th'.op == th.op
    && ((b.log == a.log && th'.got == th.got)
        || (|b.log| > 0 && b.log == a.log + [Entry(b.log[|b.log| - 1].v, t, th.op)]
            && th'.got == th.got + [(c, |a.log|)]))
  }

  ghost predicate Legal(n: nat, t: Tid, c: Cid, a: Chan, b: Chan, th: Thread, th': Thread) {
    && PCShape(n, th'.pc)
    && MovesAll(t, c, a, b, th.pc, th'.pc)
    && RingInv(b)
    && Balanced(c, a, b, th, th')
    && (forall d | 0 <= d < n && d != c :: SameCounts(th, th', d))
    && SameMailbox(th.pc, th'.pc)
    && Polite(c, a, b, th, th')
    && !Delivering(th'.pc)
    && SameHistory(c, t, a, b, th, th')
  }

  lemma InvUpd(s: State, t: Tid, c: Cid, ch: Chan, th: Thread)
    requires Inv(s) && t < |s.threads| && c < |s.chans|
    requires Legal(|s.chans|, t, c, s.chans[c], ch, s.threads[t], th)
    requires MailInv(Upd(s, t, c, ch, th), c)
    requires ThreadInv(Upd(s, t, c, ch, th), t)
    ensures Inv(Upd(s, t, c, ch, th))
  {
    ShapeUpd(s, t, c, ch, th);
    OwnersUpd(s, t, c, ch, th);
    ChannelsUpd(s, t, c, ch, th);
    ThreadsUpd(s, t, c, ch, th);
    WinnersUpd(s, t, c, ch, th);
    if ch.log == s.chans[c].log && th.got == s.threads[t].got {
      TagsUpd(s, t, c, ch, th);
    } else {
      TagsTaken(s, t, c, ch, th, ch.log[|ch.log| - 1].v);
    }
  }

  ghost predicate LegalT(n: nat, th: Thread, th': Thread) {
    && PCShape(n, th'.pc)
    && SameHolds(th.pc, th'.pc)
    && (forall d | 0 <= d < n :: SameCounts(th, th', d))
    && SameMailbox(th.pc, th'.pc)
    && (PickerKept(th, th') || Mails(th.pc) <= Locks(th.pc))
    && !Delivering(th'.pc)
    && th'.op == th.op && th'.got == th.got
  }

  lemma InvUpdT(s: State, t: Tid, th: Thread)
    requires Inv(s) && t < |s.threads|
    requires LegalT(|s.chans|, s.threads[t], th)
    requires ThreadInv(UpdT(s, t, th), t)
    ensures Inv(UpdT(s, t, th))
  {
    ShapeUpdT(s, t, th);
    OwnersUpdT(s, t, th);
    ChannelsUpdT(s, t, th);
    ThreadsUpdT(s, t, th);
    WinnersUpdT(s, t, th);
    TagsUpdT(s, t, th);
  }

  /** All that one step of a put or take needs to know. */
  ghost predicate Local(s: State, t: Tid, c: Cid, pc: PC) {
    && t < |s.threads| && c < |s.chans|
    && s.threads[t].pc == pc && PCShape(|s.chans|, pc)
    && ThreadInv(s, t)
    && ChanInv(s, c)
    && OwnersAt(s, c, t)
  }

  lemma GetLocal(s: State, t: Tid, c: Cid)
    requires Inv(s) && t < |s.threads| && c < |s.chans|
    ensures Local(s, t, c, s.threads[t].pc)
  {
    assert ThreadInv(s, t) && ChanInv(s, c) && OwnersAt(s, c, t);
  }

  // ---------------------------------------------------------------- put

  lemma LegalPutLockPut(s: State, t: Tid, c: Cid, v: Value)
    requires Local(s, t, c, PutLockPut(c, v))
    requires s.chans[c].putLock.None?
    ensures Legal(|s.chans|, t, c, s.chans[c], s.chans[c].(putLock := Some(t)), s.threads[t],
                  s.threads[t].(pc := PutLockChan(c, v)))
  {
    RingUntouched(s.chans[c], s.chans[c].(putLock := Some(t)));
  }

  lemma NextPutLockPut(s: State, t: Tid, c: Cid, v: Value, r: State)
    requires Local(s, t, c, PutLockPut(c, v))
    requires s.chans[c].putLock.None?
    requires r == Upd(s, t, c, s.chans[c].(putLock := Some(t)), s.threads[t].(pc := PutLockChan(c, v)))
    ensures MailInv(r, c)
    ensures ThreadInv(r, t)
  {
  }

  lemma KeepPutLockPut(s: State, t: Tid)
    requires Shape(s) && Inv(s) && Enabled(s, t) && s.threads[t].pc.PutLockPut?
    ensures Inv(StepPut(s, t))
  {
    hide Inv, Legal, ThreadInv, MailInv, RingInv, CountInv;
    var PutLockPut(c, v) := s.threads[t].pc;
    GetLocal(s, t, c);
    LegalPutLockPut(s, t, c, v);
    var ch' := s.chans[c].(putLock := Some(t));
    var th' := s.threads[t].(pc := PutLockChan(c, v));
    NextPutLockPut(s, t, c, v, Upd(s, t, c, ch', th'));
    InvUpd(s, t, c, ch', th');
    assert StepPut(s, t) == Upd(s, t, c, ch', th');
  }

  lemma LegalPutLockChan(s: State, t: Tid, c: Cid, v: Value)
    requires Local(s, t, c, PutLockChan(c, v))
    requires s.chans[c].lock.None?
    ensures Legal(|s.chans|, t, c, s.chans[c], s.chans[c].(lock := Some(t)), s.threads[t],
                  s.threads[t].(pc := PutChoose(c, v)))
  {
    RingUntouched(s.chans[c], s.chans[c].(lock := Some(t)));
  }

  lemma NextPutLockChan(s: State, t: Tid, c: Cid, v: Value, r: State)
    requires Local(s, t, c, PutLockChan(c, v))
    requires s.chans[c].lock.None?
    requires r == Upd(s, t, c, s.chans[c].(lock := Some(t)), s.threads[t].(pc := PutChoose(c, v)))
    ensures MailInv(r, c)
    ensures ThreadInv(r, t)
  {
  }

  lemma KeepPutLockChan(s: State, t: Tid)
    requires Shape(s) && Inv(s) && Enabled(s, t) && s.threads[t].pc.PutLockChan?
    ensures Inv(StepPut(s, t))
  {
    hide Inv, Legal, ThreadInv, MailInv, RingInv, CountInv;
    var PutLockChan(c, v) := s.threads[t].pc;
    GetLocal(s, t, c);
    LegalPutLockChan(s, t, c, v);
    var ch' := s.chans[c].(lock := Some(t));
    var th' := s.threads[t].(pc := PutChoose(c, v));
    NextPutLockChan(s, t, c, v, Upd(s, t, c, ch', th'));
    InvUpd(s, t, c, ch', th');
    assert StepPut(s, t) == Upd(s, t, c, ch', th');
  }

  lemma LegalPutRing(s: State, t: Tid, c: Cid, v: Value)
    requires Local(s, t, c, PutRing(c, v))
    ensures Legal(|s.chans|, t, c, s.chans[c], PutValue(s.chans[c], v), s.threads[t],
                  s.threads[t].(pc := PutPostPut(c, v, |s.chans[c].puts| + 1)))
  {
    PutValueRing(s.chans[c], v);
  }

  lemma NextPutRing(s: State, t: Tid, c: Cid, v: Value, r: State)
    requires Local(s, t, c, PutRing(c, v))
    requires r == Upd(s, t, c, PutValue(s.chans[c], v), s.threads[t].(pc := PutPostPut(c, v, |s.chans[c].puts| + 1)))
    ensures MailInv(r, c)
    ensures ThreadInv(r, t)
  {
    PutValueRing(s.chans[c], v);
  }

  lemma KeepPutRing(s: State, t: Tid)
    requires Shape(s) && Inv(s) && Enabled(s, t) && s.threads[t].pc.PutRing?
    ensures Inv(StepPut(s, t))
  {
    hide Inv, Legal, ThreadInv, MailInv, RingInv, CountInv;
    var PutRing(c, v) := s.threads[t].pc;
    GetLocal(s, t, c);
    LegalPutRing(s, t, c, v);
    var ch' := PutValue(s.chans[c], v);
    var th' := s.threads[t].(pc := PutPostPut(c, v, |s.chans[c].puts| + 1));
    NextPutRing(s, t, c, v, Upd(s, t, c, ch', th'));
    InvUpd(s, t, c, ch', th');
    assert StepPut(s, t) == Upd(s, t, c, ch', th');
  }

  lemma LegalPutPostPut(s: State, t: Tid, c: Cid, v: Value, nth: nat)
    requires Local(s, t, c, PutPostPut(c, v, nth))
    ensures Legal(|s.chans|, t, c, s.chans[c], s.chans[c].(put := s.chans[c].put + 1), s.threads[t],
                  s.threads[t].(pc := PutUnlock(c, v, nth)))
  {
    RingUntouched(s.chans[c], s.chans[c].(put := s.chans[c].put + 1));
  }

  lemma NextPutPostPut(s: State, t: Tid, c: Cid, v: Value, nth: nat, r: State)
    requires Local(s, t, c, PutPostPut(c, v, nth))
    requires r == Upd(s, t, c, s.chans[c].(put := s.chans[c].put + 1), s.threads[t].(pc := PutUnlock(c, v, nth)))
    ensures MailInv(r, c)
    ensures ThreadInv(r, t)
  {
  }

  lemma KeepPutPostPut(s: State, t: Tid)
    requires Shape(s) && Inv(s) && Enabled(s, t) && s.threads[t].pc.PutPostPut?
    ensures Inv(StepPut(s, t))
  {
    hide Inv, Legal, ThreadInv, MailInv, RingInv, CountInv;
    var PutPostPut(c, v, nth) := s.threads[t].pc;
    GetLocal(s, t, c);
    LegalPutPostPut(s, t, c, v, nth);
    var ch' := s.chans[c].(put := s.chans[c].put + 1);
    var th' := s.threads[t].(pc := PutUnlock(c, v, nth));
    NextPutPostPut(s, t, c, v, nth, Upd(s, t, c, ch', th'));
    InvUpd(s, t, c, ch', th');
    assert StepPut(s, t) == Upd(s, t, c, ch', th');
  }

  lemma LegalPutUnlock(s: State, t: Tid, c: Cid, v: Value, nth: nat)
    requires Local(s, t, c, PutUnlock(c, v, nth))
    ensures Legal(|s.chans|, t, c, s.chans[c], s.chans[c].(lock := None), s.threads[t],
                  s.threads[t].(pc := PutPendTake(c, v, nth)))
  {
    RingUntouched(s.chans[c], s.chans[c].(lock := None));
  }

  lemma NextPutUnlock(s: State, t: Tid, c: Cid, v: Value, nth: nat, r: State)
    requires Local(s, t, c, PutUnlock(c, v, nth))
    requires r == Upd(s, t, c, s.chans[c].(lock := None), s.threads[t].(pc := PutPendTake(c, v, nth)))
    ensures MailInv(r, c)
    ensures ThreadInv(r, t)
  {
  }

  lemma KeepPutUnlock(s: State, t: Tid)
    requires Shape(s) && Inv(s) && Enabled(s, t) && s.threads[t].pc.PutUnlock?
    ensures Inv(StepPut(s, t))
  {
    hide Inv, Legal, ThreadInv, MailInv, RingInv, CountInv;
    var PutUnlock(c, v, nth) := s.threads[t].pc;
    GetLocal(s, t, c);
    LegalPutUnlock(s, t, c, v, nth);
    var ch' := s.chans[c].(lock := None);
    var th' := s.threads[t].(pc := PutPendTake(c, v, nth));
    NextPutUnlock(s, t, c, v, nth, Upd(s, t, c, ch', th'));
    InvUpd(s, t, c, ch', th');
    assert StepPut(s, t) == Upd(s, t, c, ch', th');
  }

  lemma LegalPutPendTake(s: State, t: Tid, c: Cid, v: Value, nth: nat)
    requires Local(s, t, c, PutPendTake(c, v, nth))
    requires s.chans[c].take > 0
    ensures Legal(|s.chans|, t, c, s.chans[c], s.chans[c].(take := s.chans[c].take - 1), s.threads[t],
                  s.threads[t].(pc := PutUnlockPut(c, v, nth)))
  {
    RingUntouched(s.chans[c], s.chans[c].(take := s.chans[c].take - 1));
  }

  lemma NextPutPendTake(s: State, t: Tid, c: Cid, v: Value, nth: nat, r: State)
    requires Local(s, t, c, PutPendTake(c, v, nth))
    requires s.chans[c].take > 0
    requires r == Upd(s, t, c, s.chans[c].(take := s.chans[c].take - 1), s.threads[t].(pc := PutUnlockPut(c, v, nth)))
    ensures MailInv(r, c)
    ensures ThreadInv(r, t)
  {
  }

  lemma KeepPutPendTake(s: State, t: Tid)
    requires Shape(s) && Inv(s) && Enabled(s, t) && s.threads[t].pc.PutPendTake?
    ensures Inv(StepPut(s, t))
  {
    hide Inv, Legal, ThreadInv, MailInv, RingInv, CountInv;
    var PutPendTake(c, v, nth) := s.threads[t].pc;
    GetLocal(s, t, c);
    LegalPutPendTake(s, t, c, v, nth);
    var ch' := s.chans[c].(take := s.chans[c].take - 1);
    var th' := s.threads[t].(pc := PutUnlockPut(c, v, nth));
    NextPutPendTake(s, t, c, v, nth, Upd(s, t, c, ch', th'));
    InvUpd(s, t, c, ch', th');
    assert StepPut(s, t) == Upd(s, t, c, ch', th');
  }

  lemma LegalPutUnlockPut(s: State, t: Tid, c: Cid, v: Value, nth: nat)
    requires Local(s, t, c, PutUnlockPut(c, v, nth))
    ensures Legal(|s.chans|, t, c, s.chans[c], s.chans[c].(putLock := None), s.threads[t],
                  s.threads[t].(pc := PutRet(c, v, nth)))
  {
    RingUntouched(s.chans[c], s.chans[c].(putLock := None));
  }

  lemma NextPutUnlockPut(s: State, t: Tid, c: Cid, v: Value, nth: nat, r: State)
    requires Local(s, t, c, PutUnlockPut(c, v, nth))
    requires r == Upd(s, t, c, s.chans[c].(putLock := None), s.threads[t].(pc := PutRet(c, v, nth)))
    ensures MailInv(r, c)
    ensures ThreadInv(r, t)
  {
  }

  lemma KeepPutUnlockPut(s: State, t: Tid)
    requires Shape(s) && Inv(s) && Enabled(s, t) && s.threads[t].pc.PutUnlockPut?
    ensures Inv(StepPut(s, t))
  {
    hide Inv, Legal, ThreadInv, MailInv, RingInv, CountInv;
    var PutUnlockPut(c, v, nth) := s.threads[t].pc;
    GetLocal(s, t, c);
    LegalPutUnlockPut(s, t, c, v, nth);
    var ch' := s.chans[c].(putLock := None);
    var th' := s.threads[t].(pc := PutRet(c, v, nth));
    NextPutUnlockPut(s, t, c, v, nth, Upd(s, t, c, ch', th'));
    InvUpd(s, t, c, ch', th');
    assert StepPut(s, t) == Upd(s, t, c, ch', th');
  }

  // ---------------------------------------------------------------- take

  lemma LegalTakeLockTake(s: State, t: Tid, c: Cid)
    requires Local(s, t, c, TakeLockTake(c))
    requires s.chans[c].takeLock.None?
    ensures Legal(|s.chans|, t, c, s.chans[c], s.chans[c].(takeLock := Some(t)), s.threads[t],
                  s.threads[t].(pc := TakePend(c)))
  {
    RingUntouched(s.chans[c], s.chans[c].(takeLock := Some(t)));
  }

  lemma NextTakeLockTake(s: State, t: Tid, c: Cid, r: State)
    requires Local(s, t, c, TakeLockTake(c))
    requires s.chans[c].takeLock.None?
    requires r == Upd(s, t, c, s.chans[c].(takeLock := Some(t)), s.threads[t].(pc := TakePend(c)))
    ensures MailInv(r, c)
    ensures ThreadInv(r, t)
  {
  }

  lemma KeepTakeLockTake(s: State, t: Tid)
    requires Shape(s) && Inv(s) && Enabled(s, t) && s.threads[t].pc.TakeLockTake?
    ensures Inv(StepTake(s, t))
  {
    hide Inv, Legal, ThreadInv, MailInv, RingInv, CountInv;
    var c := s.threads[t].pc.c;
    GetLocal(s, t, c);
    LegalTakeLockTake(s, t, c);
    var ch' := s.chans[c].(takeLock := Some(t));
    var th' := s.threads[t].(pc := TakePend(c));
    NextTakeLockTake(s, t, c, Upd(s, t, c, ch', th'));
    InvUpd(s, t, c, ch', th');
    assert StepTake(s, t) == Upd(s, t, c, ch', th');
  }

  lemma LegalTakePend(s: State, t: Tid, c: Cid)
    requires Local(s, t, c, TakePend(c))
    requires s.chans[c].put > 0
    ensures Legal(|s.chans|, t, c, s.chans[c], s.chans[c].(put := s.chans[c].put - 1), s.threads[t],
                  s.threads[t].(pc := TakeRing(c)))
  {
    RingUntouched(s.chans[c], s.chans[c].(put := s.chans[c].put - 1));
  }

  lemma NextTakePend(s: State, t: Tid, c: Cid, r: State)
    requires Local(s, t, c, TakePend(c))
    requires s.chans[c].put > 0
    requires r == Upd(s, t, c, s.chans[c].(put := s.chans[c].put - 1), s.threads[t].(pc := TakeRing(c)))
    ensures MailInv(r, c)
    ensures ThreadInv(r, t)
  {
  }

  lemma KeepTakePend(s: State, t: Tid)
    requires Shape(s) && Inv(s) && Enabled(s, t) && s.threads[t].pc.TakePend?
    ensures Inv(StepTake(s, t))
  {
    hide Inv, Legal, ThreadInv, MailInv, RingInv, CountInv;
    var c := s.threads[t].pc.c;
    GetLocal(s, t, c);
    LegalTakePend(s, t, c);
    var ch' := s.chans[c].(put := s.chans[c].put - 1);
    var th' := s.threads[t].(pc := TakeRing(c));
    NextTakePend(s, t, c, Upd(s, t, c, ch', th'));
    InvUpd(s, t, c, ch', th');
    assert StepTake(s, t) == Upd(s, t, c, ch', th');
  }

  lemma LegalTakeRing(s: State, t: Tid, c: Cid)
    requires Local(s, t, c, TakeRing(c))
    ensures Legal(|s.chans|, t, c, s.chans[c], TakeValue(s.chans[c], t, s.threads[t].op), s.threads[t],
                  s.threads[t].(pc := TakePost(c, s.chans[c].slots[s.chans[c].first]),
                                got := s.threads[t].got + [(c, |s.chans[c].log|)]))
  {
    TakeValueRing(s.chans[c], t, s.threads[t].op);
  }

  lemma NextTakeRing(s: State, t: Tid, c: Cid, r: State)
    requires Local(s, t, c, TakeRing(c))
    requires r == Upd(s, t, c, TakeValue(s.chans[c], t, s.threads[t].op),
                   s.threads[t].(pc := TakePost(c, s.chans[c].slots[s.chans[c].first]),
                                 got := s.threads[t].got + [(c, |s.chans[c].log|)]))
    ensures MailInv(r, c)
    ensures ThreadInv(r, t)
  {
    TakeValueRing(s.chans[c], t, s.threads[t].op);
  }

  lemma KeepTakeRing(s: State, t: Tid)
    requires Shape(s) && Inv(s) && Enabled(s, t) && s.threads[t].pc.TakeRing?
    ensures Inv(StepTake(s, t))
  {
    hide Inv, Legal, ThreadInv, MailInv, RingInv, CountInv;
    var c := s.threads[t].pc.c;
    GetLocal(s, t, c);
    LegalTakeRing(s, t, c);
    var ch' := TakeValue(s.chans[c], t, s.threads[t].op);
    var th' := s.threads[t].(pc := TakePost(c, s.chans[c].slots[s.chans[c].first]),
      got := s.threads[t].got + [(c, |s.chans[c].log|)]);
    NextTakeRing(s, t, c, Upd(s, t, c, ch', th'));
    InvUpd(s, t, c, ch', th');
    assert StepTake(s, t) == Upd(s, t, c, ch', th');
  }

  lemma LegalTakePost(s: State, t: Tid, c: Cid, v: Value)
    requires Local(s, t, c, TakePost(c, v))
    ensures Legal(|s.chans|, t, c, s.chans[c], s.chans[c].(take := s.chans[c].take + 1), s.threads[t],
                  s.threads[t].(pc := TakeUnlock(c, v), posts := s.threads[t].posts + [c]))
  {
    RingUntouched(s.chans[c], s.chans[c].(take := s.chans[c].take + 1));
  }

  lemma NextTakePost(s: State, t: Tid, c: Cid, v: Value, r: State)
    requires Local(s, t, c, TakePost(c, v))
    requires r == Upd(s, t, c, s.chans[c].(take := s.chans[c].take + 1),
      s.threads[t].(pc := TakeUnlock(c, v), posts := s.threads[t].posts + [c]))
    ensures MailInv(r, c)
    ensures ThreadInv(r, t)
  {
  }

  lemma KeepTakePost(s: State, t: Tid)
    requires Shape(s) && Inv(s) && Enabled(s, t) && s.threads[t].pc.TakePost?
    ensures Inv(StepTake(s, t))
  {
    hide Inv, Legal, ThreadInv, MailInv, RingInv, CountInv;
    var TakePost(c, v) := s.threads[t].pc;
    GetLocal(s, t, c);
    LegalTakePost(s, t, c, v);
    var ch' := s.chans[c].(take := s.chans[c].take + 1);
    var th' := s.threads[t].(pc := TakeUnlock(c, v), posts := s.threads[t].posts + [c]);
    NextTakePost(s, t, c, v, Upd(s, t, c, ch', th'));
    InvUpd(s, t, c, ch', th');
    assert StepTake(s, t) == Upd(s, t, c, ch', th');
  }

  lemma LegalTakeUnlock(s: State, t: Tid, c: Cid, v: Value)
    requires Local(s, t, c, TakeUnlock(c, v))
    ensures Legal(|s.chans|, t, c, s.chans[c], s.chans[c].(takeLock := None), s.threads[t],
                  s.threads[t].(pc := TakeRet(c, v)))
  {
    RingUntouched(s.chans[c], s.chans[c].(takeLock := None));
  }

  lemma NextTakeUnlock(s: State, t: Tid, c: Cid, v: Value, r: State)
    requires Local(s, t, c, TakeUnlock(c, v))
    requires r == Upd(s, t, c, s.chans[c].(takeLock := None), s.threads[t].(pc := TakeRet(c, v)))
    ensures MailInv(r, c)
    ensures ThreadInv(r, t)
  {
  }

  lemma KeepTakeUnlock(s: State, t: Tid)
    requires Shape(s) && Inv(s) && Enabled(s, t) && s.threads[t].pc.TakeUnlock?
    ensures Inv(StepTake(s, t))
  {
    hide Inv, Legal, ThreadInv, MailInv, RingInv, CountInv;
    var TakeUnlock(c, v) := s.threads[t].pc;
    GetLocal(s, t, c);
    LegalTakeUnlock(s, t, c, v);
    var ch' := s.chans[c].(takeLock := None);
    var th' := s.threads[t].(pc := TakeRet(c, v));
    NextTakeUnlock(s, t, c, v, Upd(s, t, c, ch', th'));
    InvUpd(s, t, c, ch', th');
    assert StepTake(s, t) == Upd(s, t, c, ch', th');
  }
}
