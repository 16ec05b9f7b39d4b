/** The steps of pick keep the invariant. */
module ChannelPickSteps {
  import opened Wrappers
  import opened ChannelModel
  import opened ChannelInvariant
  import opened ChannelFrames
  import opened ChannelSteps

  // ---------------------------------------------------------------- spans

  lemma SpanGrows(arr: seq<Option<Cid>>, lo: nat, hi: nat)
    requires lo <= hi < |arr|
    ensures arr[hi].None? ==> Span(arr, lo, hi + 1) == Span(arr, lo, hi)
    ensures arr[hi].Some? ==> Span(arr, lo, hi + 1) == Span(arr, lo, hi) + {arr[hi].value}
  {
  }

  lemma SpanShrinks(arr: seq<Option<Cid>>, lo: nat, hi: nat, top: nat)
    requires lo < hi <= |arr| && hi <= top && Distinct(arr, top)
    ensures arr[lo].None? ==> Span(arr, lo + 1, hi) == Span(arr, lo, hi)
    ensures arr[lo].Some? ==> arr[lo].value in Span(arr, lo, hi)
    ensures arr[lo].Some? ==> Span(arr, lo + 1, hi) == Span(arr, lo, hi) - {arr[lo].value}
  {
  }

  lemma SpanOne(arr: seq<Option<Cid>>, k: nat)
    requires k < |arr| && arr[k].Some?
    ensures Span(arr, k, k + 1) == {arr[k].value}
    ensures Span(arr, k, k) == {}
  {
  }

  lemma SpanUpdate(arr: seq<Option<Cid>>, lo: nat, hi: nat, k: nat)
    requires hi <= k < |arr|
    ensures Span(arr[k := None], lo, hi) == Span(arr, lo, hi)
  {
    forall d | d in Span(arr, lo, hi) ensures d in Span(arr[k := None], lo, hi) {
      var l :| 0 <= l < |arr| && lo <= l < hi && arr[l] == Some(d);
      assert arr[k := None][l] == Some(d);
    }
  }

  lemma DistinctGrows(arr: seq<Option<Cid>>, i: nat)
    requires i < |arr| && Distinct(arr, i)
    requires arr[i].Some? ==> arr[i].value !in Span(arr, 0, i)
    ensures Distinct(arr, i + 1)
  {
  }

  /** A channel whose take_lock the scan has just won has no mailbox. */
  lemma NoMailbox(s: State, t: Tid)
    requires Inv(s) && t < |s.threads|
    requires s.threads[t].pc.Picking? && s.threads[t].pc.at.TryPut?
    ensures s.chans[s.threads[t].pc.p.arr[s.threads[t].pc.p.i].value].mailbox.None?
    ensures s.threads[t].pc.p.arr[s.threads[t].pc.p.i].value !in Mails(s.threads[t].pc)
  {
    var p := s.threads[t].pc.p;
    var c := p.arr[p.i].value;
    assert ThreadInv(s, t) && OwnersAt(s, c, t) && ChanInv(s, c);
    SpanGrows(p.arr, 0, p.i);
    if s.chans[c].mailbox.Some? {
      MailOwner(s, c);
    }
  }

  // ---------------------------------------------------------------- local reasoning

  /** All that one step of a pick needs to know: its own record and the channel it works on. */
  ghost predicate Local(s: State, t: Tid, c: Cid, at: Stage, p: Pick) {
    && t < |s.threads| && c < |s.chans|
    && s.threads[t].pc == Picking(at, p)
    && PickShape(|s.chans|, at, p)
    && PickInv(s, s.threads[t], at, p)
    && RingInv(s.chans[c])
    && OwnersAt(s, c, t)
  }

  lemma GetLocal(s: State, t: Tid, c: Cid)
    requires Inv(s) && t < |s.threads| && c < |s.chans| && s.threads[t].pc.Picking?
    ensures Local(s, t, c, s.threads[t].pc.at, s.threads[t].pc.p)
    ensures MailInv(s, c) && CountInv(s, c)
  {
    assert ThreadInv(s, t) && OwnersAt(s, c, t) && ChanInv(s, c);
  }

  lemma GetOwn(s: State, t: Tid)
    requires Inv(s) && t < |s.threads| && s.threads[t].pc.Picking?
    ensures PickShape(|s.chans|, s.threads[t].pc.at, s.threads[t].pc.p)
    ensures PickInv(s, s.threads[t], s.threads[t].pc.at, s.threads[t].pc.p)
  {
    assert ThreadInv(s, t);
  }

  /** A pick step that writes channel c, given that its own part of the invariant is kept. */
  lemma KeepPick(s: State, t: Tid, c: Cid, ch: Chan, th: Thread)
    requires Inv(s) && t < |s.threads| && c < |s.chans| && th.pc.Picking?
    requires Legal(|s.chans|, t, c, s.chans[c], ch, s.threads[t], th)
    requires PickInv(s, th, th.pc.at, th.pc.p)
    requires MailInv(Upd(s, t, c, ch, th), c)
    ensures Inv(Upd(s, t, c, ch, th))
  {
    PickKept(s, Upd(s, t, c, ch, th), th, th.pc.at, th.pc.p);
    InvUpd(s, t, c, ch, th);
  }

  /** A pick step that writes only locks and the mailbox pointer of its channel. */
  lemma LegalPointers(n: nat, t: Tid, c: Cid, a: Chan, b: Chan, th: Thread, th': Thread)
    requires RingInv(a) && b == a.(lock := b.lock, takeLock := b.takeLock, mailbox := b.mailbox)
    requires th' == th.(pc := th'.pc) && th.pc.Picking? && th'.pc.Picking? && PCShape(n, th'.pc)
    requires MovesAll(t, c, a, b, th.pc, th'.pc) && SameMailbox(th.pc, th'.pc)
    requires forall d :: Claimed(th'.pc, d) == Claimed(th.pc, d)
    requires b.mailbox == a.mailbox || c in Locks(th.pc)
    requires PickerKept(th, th') || Mails(th.pc) <= Locks(th.pc)
    ensures Legal(n, t, c, a, b, th, th')
  {
    hide MovesAll, SameMailbox, RingInv, PickerKept, PCShape, Mails, Locks;
    RingUntouched(a, b);
  }

  /** A pick step that touches no channel. */
  lemma KeepPickT(s: State, t: Tid, th: Thread)
    requires Inv(s) && t < |s.threads| && th.pc.Picking?
    requires LegalT(|s.chans|, s.threads[t], th)
    requires PickInv(s, th, th.pc.at, th.pc.p)
    ensures Inv(UpdT(s, t, th))
  {
    PickKept(s, UpdT(s, t, th), th, th.pc.at, th.pc.p);
    InvUpdT(s, t, th);
  }

  // ---------------------------------------------------------------- scan

  lemma LegalTryTakeLost(n: nat, s: State, th: Thread, p: Pick)
    requires th.pc == Picking(TryTake, p) && PickShape(n, TryTake, p) && PickInv(s, th, TryTake, p)
    requires p.i < |p.arr|
    ensures LegalT(n, th, th.(pc := Picking(TryTake, p.(arr := p.arr[p.i := None], i := p.i + 1))))
  {
    SpanUpdate(p.arr, 0, p.i, p.i);
    SpanGrows(p.arr[p.i := None], 0, p.i);
  }

  lemma NextTryTakeLost(s: State, th: Thread, p: Pick)
    requires PickInv(s, th, TryTake, p) && p.i < |p.arr|
    ensures var p' := p.(arr := p.arr[p.i := None], i := p.i + 1);
            PickInv(s, th.(pc := Picking(TryTake, p')), TryTake, p')
  {
    var arr := p.arr[p.i := None];
    DistinctGrows(arr, p.i);
    assert forall k | 0 <= k < p.i :: arr[k] == p.arr[k];
  }

  lemma KeepTryTakeLost(s: State, t: Tid)
    requires Shape(s) && Inv(s) && Enabled(s, t) && s.threads[t].pc.Picking? && s.threads[t].pc.at.TryTake?
    requires var p := s.threads[t].pc.p;
             p.i < |p.arr| && s.chans[p.arr[p.i].value].takeLock.Some?
    ensures Inv(StepScan(s, t))
  {
    hide Inv, LegalT, PickInv;
    var p := s.threads[t].pc.p;
    GetOwn(s, t);
    LegalTryTakeLost(|s.chans|, s, s.threads[t], p);
    NextTryTakeLost(s, s.threads[t], p);
    KeepPickT(s, t, s.threads[t].(pc := Picking(TryTake, p.(arr := p.arr[p.i := None], i := p.i + 1))));
  }

  lemma LegalTryTakeWon(s: State, t: Tid, c: Cid, p: Pick)
    requires Local(s, t, c, TryTake, p)
    requires p.i < |p.arr| && p.arr[p.i] == Some(c)
    requires p.i < |p.arr| && s.chans[p.arr[p.i].value].takeLock.None?
    ensures Legal(|s.chans|, t, c, s.chans[c], s.chans[c].(takeLock := Some(t)), s.threads[t],
                  s.threads[t].(pc := Picking(WantLock, p)))
  {
    hide Span, RingInv, Distinct;
    SpanGrows(p.arr, 0, p.i);
    DistinctGrows(p.arr, p.i);
    RingUntouched(s.chans[c], s.chans[c].(takeLock := Some(t)));
  }

  lemma NextTryTakeWon(s: State, t: Tid, c: Cid, p: Pick)
    requires Local(s, t, c, TryTake, p)
    requires p.i < |p.arr| && p.arr[p.i] == Some(c)
    requires p.i < |p.arr| && s.chans[p.arr[p.i].value].takeLock.None?
    ensures PickInv(s, s.threads[t].(pc := Picking(WantLock, p)),
                    WantLock, p)
  {
    DistinctGrows(p.arr, p.i);
    SpanGrows(p.arr, 0, p.i);
  }

  lemma KeepTryTakeWon(s: State, t: Tid)
    requires Shape(s) && Inv(s) && Enabled(s, t) && s.threads[t].pc.Picking? && s.threads[t].pc.at.TryTake?
    requires var p := s.threads[t].pc.p;
             p.i < |p.arr| && s.chans[p.arr[p.i].value].takeLock.None?
    ensures Inv(StepScan(s, t))
  {
    hide Inv, Legal, PickInv, RingInv;
    var p := s.threads[t].pc.p;
    var c := p.arr[p.i].value;
    GetLocal(s, t, c);
    LegalTryTakeWon(s, t, c, p);
    NextTryTakeWon(s, t, c, p);
    var ch' := s.chans[c].(takeLock := Some(t));
    var th' := s.threads[t].(pc := Picking(WantLock, p));
    assert MailInv(Upd(s, t, c, ch', th'), c);
    KeepPick(s, t, c, ch', th');
    assert StepScan(s, t) == Upd(s, t, c, ch', th');
  }

  /** Nothing could be won: the pick fails, and holds nothing. */
  lemma KeepScannedNone(s: State, t: Tid)
    requires Inv(s) && Enabled(s, t) && s.threads[t].pc.Picking? && s.threads[t].pc.at.TryTake?
    requires s.threads[t].pc.p.i == |s.threads[t].pc.p.arr| && s.threads[t].pc.p.count == 0
    ensures Inv(StepScan(s, t))
  {
    var p := s.threads[t].pc.p;
    GetOwn(s, t);
    assert Span(p.arr, 0, p.i) == {};
    var th' := s.threads[t].(pc := PickRet(p.choices, None));
    assert LegalT(|s.chans|, s.threads[t], th');
    InvUpdT(s, t, th');
  }

  lemma KeepScannedSome(s: State, t: Tid)
    requires Shape(s) && Inv(s) && Enabled(s, t) && s.threads[t].pc.Picking? && s.threads[t].pc.at.TryTake?
    requires s.threads[t].pc.p.i == |s.threads[t].pc.p.arr| && s.threads[t].pc.p.count != 0
    ensures Inv(StepScan(s, t))
  {
    hide Inv;
    var p := s.threads[t].pc.p;
    GetOwn(s, t);
    KeepPickT(s, t, s.threads[t].(pc := Picking(Unlock, p.(j := 0))));
  }

  lemma LegalWantLock(s: State, t: Tid, c: Cid, p: Pick)
    requires Local(s, t, c, WantLock, p)
    requires p.i < |p.arr| && p.arr[p.i] == Some(c)
    requires s.chans[c].lock.None?
    ensures Legal(|s.chans|, t, c, s.chans[c], s.chans[c].(lock := Some(t)), s.threads[t],
                  s.threads[t].(pc := Picking(TryPut, p)))
  {
    hide Span, RingInv, Distinct;
    SpanGrows(p.arr, 0, p.i);
    RingUntouched(s.chans[c], s.chans[c].(lock := Some(t)));
  }

  lemma NextWantLock(s: State, t: Tid, c: Cid, p: Pick)
    requires Local(s, t, c, WantLock, p)
    requires p.i < |p.arr| && p.arr[p.i] == Some(c)
    requires s.chans[c].lock.None?
    ensures PickInv(s, s.threads[t].(pc := Picking(TryPut, p)),
                    TryPut, p)
  {
  }

  lemma KeepWantLock(s: State, t: Tid)
    requires Shape(s) && Inv(s) && Enabled(s, t) && s.threads[t].pc.Picking? && s.threads[t].pc.at.WantLock?
    ensures Inv(StepScan(s, t))
  {
    hide Inv, Legal, PickInv, RingInv;
    var p := s.threads[t].pc.p;
    var c := p.arr[p.i].value;
    GetLocal(s, t, c);
    LegalWantLock(s, t, c, p);
    NextWantLock(s, t, c, p);
    var ch' := s.chans[c].(lock := Some(t));
    var th' := s.threads[t].(pc := Picking(TryPut, p));
    assert MailInv(Upd(s, t, c, ch', th'), c);
    KeepPick(s, t, c, ch', th');
    assert StepScan(s, t) == Upd(s, t, c, ch', th');
  }

  lemma LegalTryPutHit(s: State, t: Tid, c: Cid, p: Pick)
    requires Local(s, t, c, TryPut, p)
    requires p.i < |p.arr| && p.arr[p.i] == Some(c)
    requires s.chans[p.arr[p.i].value].put > 0
    requires s.chans[c].mailbox.None? && c !in Mails(s.threads[t].pc)
    ensures Legal(|s.chans|, t, c, s.chans[c], s.chans[c].(put := s.chans[c].put - 1), s.threads[t],
                  s.threads[t].(pc := Picking(ClearEarlier, p.(j := 0))))
  {
    hide Span, RingInv, Distinct;
    SpanGrows(p.arr, 0, p.i);
    RingUntouched(s.chans[c], s.chans[c].(put := s.chans[c].put - 1));
  }

  lemma NextTryPutHit(s: State, t: Tid, c: Cid, p: Pick)
    requires Local(s, t, c, TryPut, p)
    requires p.i < |p.arr| && p.arr[p.i] == Some(c)
    requires s.chans[p.arr[p.i].value].put > 0
    requires s.chans[c].mailbox.None? && c !in Mails(s.threads[t].pc)
    ensures PickInv(s, s.threads[t].(pc := Picking(ClearEarlier, p.(j := 0))),
                    ClearEarlier, p.(j := 0))
  {
  }

  lemma KeepTryPutHit(s: State, t: Tid)
    requires Shape(s) && Inv(s) && Enabled(s, t) && s.threads[t].pc.Picking? && s.threads[t].pc.at.TryPut?
    requires s.chans[s.threads[t].pc.p.arr[s.threads[t].pc.p.i].value].put > 0
    ensures Inv(StepScan(s, t))
  {
    hide Inv, Legal, PickInv, RingInv;
    var p := s.threads[t].pc.p;
    var c := p.arr[p.i].value;
    GetLocal(s, t, c);
    NoMailbox(s, t);
    LegalTryPutHit(s, t, c, p);
    NextTryPutHit(s, t, c, p);
    var ch' := s.chans[c].(put := s.chans[c].put - 1);
    var th' := s.threads[t].(pc := Picking(ClearEarlier, p.(j := 0)));
    assert MailInv(Upd(s, t, c, ch', th'), c);
    KeepPick(s, t, c, ch', th');
    assert StepScan(s, t) == Upd(s, t, c, ch', th');
  }

  lemma LegalTryPutMiss(s: State, t: Tid, c: Cid, p: Pick)
    requires Local(s, t, c, TryPut, p)
    requires p.i < |p.arr| && p.arr[p.i] == Some(c)
    requires s.chans[p.arr[p.i].value].put == 0
    requires s.chans[c].mailbox.None? && c !in Mails(s.threads[t].pc)
    ensures Legal(|s.chans|, t, c, s.chans[c], s.chans[c].(id := p.i, mailbox := Some(t)), s.threads[t],
                  s.threads[t].(pc := Picking(TryTake, p.(i := p.i + 1, count := p.count + 1))))
  {
    SpanGrows(p.arr, 0, p.i);
    RingUntouched(s.chans[c], s.chans[c].(id := p.i, mailbox := Some(t)));
  }

  lemma NextTryPutMiss(s: State, t: Tid, c: Cid, p: Pick)
    requires Local(s, t, c, TryPut, p)
    requires p.i < |p.arr| && p.arr[p.i] == Some(c)
    requires s.chans[p.arr[p.i].value].put == 0
    requires s.chans[c].mailbox.None? && c !in Mails(s.threads[t].pc)
    ensures PickInv(s, s.threads[t].(pc := Picking(TryTake, p.(i := p.i + 1, count := p.count + 1))),
                    TryTake, p.(i := p.i + 1, count := p.count + 1))
  {
  }

  lemma KeepTryPutMiss(s: State, t: Tid)
    requires Shape(s) && Inv(s) && Enabled(s, t) && s.threads[t].pc.Picking? && s.threads[t].pc.at.TryPut?
    requires s.chans[s.threads[t].pc.p.arr[s.threads[t].pc.p.i].value].put == 0
    ensures Inv(StepScan(s, t))
  {
    hide Inv, Legal, PickInv, RingInv;
    var p := s.threads[t].pc.p;
    var c := p.arr[p.i].value;
    GetLocal(s, t, c);
    NoMailbox(s, t);
    LegalTryPutMiss(s, t, c, p);
    NextTryPutMiss(s, t, c, p);
    var ch' := s.chans[c].(id := p.i, mailbox := Some(t));
    var th' := s.threads[t].(pc := Picking(TryTake, p.(i := p.i + 1, count := p.count + 1)));
    assert MailInv(Upd(s, t, c, ch', th'), c);
    KeepPick(s, t, c, ch', th');
    assert StepScan(s, t) == Upd(s, t, c, ch', th');
  }

  // ---------------------------------------------------------------- fast path

  lemma KeepClearEnd(s: State, t: Tid)
    requires Shape(s) && Inv(s) && Enabled(s, t) && s.threads[t].pc.Picking? && s.threads[t].pc.at.ClearEarlier?
    requires s.threads[t].pc.p.j == s.threads[t].pc.p.i
    ensures Inv(StepFast(s, t))
  {
    hide Inv;
    var p := s.threads[t].pc.p;
    GetOwn(s, t);
    KeepPickT(s, t, s.threads[t].(pc := Picking(FastTake, p)));
  }

  lemma LegalClearSkip(n: nat, s: State, th: Thread, p: Pick)
    requires th.pc == Picking(ClearEarlier, p) && PickShape(n, ClearEarlier, p) && PickInv(s, th, ClearEarlier, p)
    requires p.j < p.i && p.arr[p.j].None?
    ensures LegalT(n, th, th.(pc := Picking(ClearEarlier, p.(j := p.j + 1))))
  {
    SpanShrinks(p.arr, p.j, p.i + 1, p.i + 1);
    SpanShrinks(p.arr, p.j, p.i, p.i + 1);
  }

  lemma KeepClearSkip(s: State, t: Tid)
    requires Shape(s) && Inv(s) && Enabled(s, t) && s.threads[t].pc.Picking? && s.threads[t].pc.at.ClearEarlier?
    requires var p := s.threads[t].pc.p; p.j < p.i && p.arr[p.j].None?
    ensures Inv(StepFast(s, t))
  {
    hide Inv, LegalT;
    var p := s.threads[t].pc.p;
    GetOwn(s, t);
    LegalClearSkip(|s.chans|, s, s.threads[t], p);
    KeepPickT(s, t, s.threads[t].(pc := Picking(ClearEarlier, p.(j := p.j + 1))));
  }

  lemma LegalClearEarlier(s: State, t: Tid, c: Cid, p: Pick)
    requires Local(s, t, c, ClearEarlier, p)
    requires p.j < |p.arr| && p.arr[p.j] == Some(c)
    requires p.j < p.i && p.arr[p.j].Some?
    ensures Legal(|s.chans|, t, c, s.chans[c], s.chans[c].(mailbox := None, lock := None), s.threads[t],
                  s.threads[t].(pc := Picking(FreeEarlier, p)))
  {
    hide Span, RingInv, Distinct, Legal, BoxInv;
    SpanShrinks(p.arr, p.j, p.i + 1, p.i + 1);
    SpanShrinks(p.arr, p.j, p.i, p.i + 1);
    LegalPointers(|s.chans|, t, c, s.chans[c], s.chans[c].(mailbox := None, lock := None), s.threads[t],
                  s.threads[t].(pc := Picking(FreeEarlier, p)));
  }

  lemma NextClearEarlier(s: State, t: Tid, c: Cid, p: Pick)
    requires Local(s, t, c, ClearEarlier, p)
    requires p.j < |p.arr| && p.arr[p.j] == Some(c)
    requires p.j < p.i && p.arr[p.j].Some?
    ensures PickInv(s, s.threads[t].(pc := Picking(FreeEarlier, p)),
                    FreeEarlier, p)
  {
  }

  lemma KeepClearEarlier(s: State, t: Tid)
    requires Shape(s) && Inv(s) && Enabled(s, t) && s.threads[t].pc.Picking? && s.threads[t].pc.at.ClearEarlier?
    requires var p := s.threads[t].pc.p; p.j < p.i && p.arr[p.j].Some?
    ensures Inv(StepFast(s, t))
  {
    hide Inv, Legal, PickInv, RingInv;
    var p := s.threads[t].pc.p;
    var c := p.arr[p.j].value;
    GetLocal(s, t, c);
    LegalClearEarlier(s, t, c, p);
    NextClearEarlier(s, t, c, p);
    var ch' := s.chans[c].(mailbox := None, lock := None);
    var th' := s.threads[t].(pc := Picking(FreeEarlier, p));
    assert MailInv(Upd(s, t, c, ch', th'), c);
    KeepPick(s, t, c, ch', th');
    assert StepFast(s, t) == Upd(s, t, c, ch', th');
  }

  lemma MovesFreeEarlier(t: Tid, c: Cid, a: Chan, p: Pick)
    requires p.j < p.i < |p.arr| && p.arr[p.j] == Some(c) && Distinct(p.arr, p.i + 1)
    requires a.takeLock == Some(t) <==> c in Takes(Picking(FreeEarlier, p))
    ensures MovesAll(t, c, a, a.(takeLock := None), Picking(FreeEarlier, p), Picking(ClearEarlier, p.(j := p.j + 1)))
  {
    hide Span, Distinct;
    SpanShrinks(p.arr, p.j, p.i + 1, p.i + 1);
  }

  lemma LegalFreeEarlier(s: State, t: Tid, c: Cid, p: Pick)
    requires Local(s, t, c, FreeEarlier, p)
    requires p.j < |p.arr| && p.arr[p.j] == Some(c)
    ensures Legal(|s.chans|, t, c, s.chans[c], s.chans[c].(takeLock := None), s.threads[t],
                  s.threads[t].(pc := Picking(ClearEarlier, p.(j := p.j + 1))))
  {
    hide Span, RingInv, Distinct, Legal, MovesAll, BoxInv;
    MovesFreeEarlier(t, c, s.chans[c], p);
    LegalPointers(|s.chans|, t, c, s.chans[c], s.chans[c].(takeLock := None), s.threads[t],
                  s.threads[t].(pc := Picking(ClearEarlier, p.(j := p.j + 1))));
  }

  lemma NextFreeEarlier(s: State, t: Tid, c: Cid, p: Pick)
    requires Local(s, t, c, FreeEarlier, p)
    requires p.j < |p.arr| && p.arr[p.j] == Some(c)
    ensures PickInv(s, s.threads[t].(pc := Picking(ClearEarlier, p.(j := p.j + 1))),
                    ClearEarlier, p.(j := p.j + 1))
  {
  }

  lemma KeepFreeEarlier(s: State, t: Tid)
    requires Shape(s) && Inv(s) && Enabled(s, t) && s.threads[t].pc.Picking? && s.threads[t].pc.at.FreeEarlier?
    ensures Inv(StepFast(s, t))
  {
    hide Inv, Legal, PickInv, RingInv;
    var p := s.threads[t].pc.p;
    var c := p.arr[p.j].value;
    GetLocal(s, t, c);
    LegalFreeEarlier(s, t, c, p);
    NextFreeEarlier(s, t, c, p);
    var ch' := s.chans[c].(takeLock := None);
    var th' := s.threads[t].(pc := Picking(ClearEarlier, p.(j := p.j + 1)));
    assert MailInv(Upd(s, t, c, ch', th'), c);
    KeepPick(s, t, c, ch', th');
    assert StepFast(s, t) == Upd(s, t, c, ch', th');
  }

  lemma LegalFastTake(s: State, t: Tid, c: Cid, p: Pick)
    requires Local(s, t, c, FastTake, p) && p.arr[p.i] == Some(c)
    requires s.chans[c].Occupancy() > 0
    ensures var ch, th := s.chans[c], s.threads[t];
            Legal(|s.chans|, t, c, ch, TakeValue(ch, t, th.op), th,
                  th.(pc := Picking(FastPost, p.(id := p.i, value := ch.slots[ch.first])),
                      got := th.got + [(c, |ch.log|)]))
  {
    hide Span, Distinct;
    SpanOne(p.arr, p.i);
    TakeValueRing(s.chans[c], t, s.threads[t].op);
  }

  lemma NextFastTake(s: State, t: Tid, c: Cid, p: Pick)
    requires Local(s, t, c, FastTake, p) && p.arr[p.i] == Some(c)
    ensures var ch, th := s.chans[c], s.threads[t];
            var th' := th.(pc := Picking(FastPost, p.(id := p.i, value := ch.slots[ch.first])),
                           got := th.got + [(c, |ch.log|)]);
            PickInv(Upd(s, t, c, TakeValue(ch, t, th.op), th'), th', FastPost, th'.pc.p)
  {
  }

  /** The value a fast pick is about to remove is there. */
  lemma ClaimedIsThere(s: State, t: Tid, c: Cid)
    requires Inv(s) && t < |s.threads| && c < |s.chans| && Claimed(s.threads[t].pc, c)
    ensures s.chans[c].Occupancy() > 0
  {
    Contributes(s, t, c);
    assert ChanInv(s, c);
  }

  lemma KeepFastTake(s: State, t: Tid)
    requires Shape(s) && Inv(s) && Enabled(s, t) && s.threads[t].pc.Picking? && s.threads[t].pc.at.FastTake?
    ensures Inv(StepFast(s, t))
  {
    hide Inv, Legal, PickInv, RingInv, OwnersAt, Span, CountInv;
    var p := s.threads[t].pc.p;
    var c := p.arr[p.i].value;
    GetLocal(s, t, c);
    ClaimedIsThere(s, t, c);
    LegalFastTake(s, t, c, p);
    NextFastTake(s, t, c, p);
    var ch' := TakeValue(s.chans[c], t, s.threads[t].op);
    var th' := s.threads[t].(pc := Picking(FastPost, p.(id := p.i, value := s.chans[c].slots[s.chans[c].first])),
                             got := s.threads[t].got + [(c, |s.chans[c].log|)]);
    InvUpd(s, t, c, ch', th');
    assert StepFast(s, t) == Upd(s, t, c, ch', th');
  }

  lemma LegalFastPost(s: State, t: Tid, c: Cid, p: Pick)
    requires Local(s, t, c, FastPost, p)
    requires p.i < |p.arr| && p.arr[p.i] == Some(c)
    ensures Legal(|s.chans|, t, c, s.chans[c], s.chans[c].(take := s.chans[c].take + 1), s.threads[t],
                  s.threads[t].(pc := Picking(FastUnlock, p), posts := s.threads[t].posts + [c]))
  {
    RingUntouched(s.chans[c], s.chans[c].(take := s.chans[c].take + 1));
  }

  lemma NextFastPost(s: State, t: Tid, c: Cid, p: Pick)
    requires Local(s, t, c, FastPost, p)
    requires p.i < |p.arr| && p.arr[p.i] == Some(c)
    ensures PickInv(s, s.threads[t].(pc := Picking(FastUnlock, p), posts := s.threads[t].posts + [c]),
                    FastUnlock, p)
  {
  }

  lemma KeepFastPost(s: State, t: Tid)
    requires Shape(s) && Inv(s) && Enabled(s, t) && s.threads[t].pc.Picking? && s.threads[t].pc.at.FastPost?
    ensures Inv(StepFast(s, t))
  {
    hide Inv, Legal, PickInv, RingInv, OwnersAt, Span, CountInv;
    var p := s.threads[t].pc.p;
    var c := p.arr[p.i].value;
    GetLocal(s, t, c);
    LegalFastPost(s, t, c, p);
    NextFastPost(s, t, c, p);
    var ch' := s.chans[c].(take := s.chans[c].take + 1);
    var th' := s.threads[t].(pc := Picking(FastUnlock, p), posts := s.threads[t].posts + [c]);
    assert MailInv(Upd(s, t, c, ch', th'), c);
    KeepPick(s, t, c, ch', th');
    assert StepFast(s, t) == Upd(s, t, c, ch', th');
  }

  lemma LegalFastUnlock(s: State, t: Tid, c: Cid, p: Pick)
    requires Local(s, t, c, FastUnlock, p)
    requires p.i < |p.arr| && p.arr[p.i] == Some(c)
    ensures Legal(|s.chans|, t, c, s.chans[c], s.chans[c].(lock := None), s.threads[t],
                  s.threads[t].(pc := Picking(FastFree, p)))
  {
    hide Span, RingInv, Distinct;
    SpanOne(p.arr, p.i);
    RingUntouched(s.chans[c], s.chans[c].(lock := None));
  }

  lemma NextFastUnlock(s: State, t: Tid, c: Cid, p: Pick)
    requires Local(s, t, c, FastUnlock, p)
    requires p.i < |p.arr| && p.arr[p.i] == Some(c)
    ensures PickInv(s, s.threads[t].(pc := Picking(FastFree, p)),
                    FastFree, p)
  {
  }

  lemma KeepFastUnlock(s: State, t: Tid)
    requires Shape(s) && Inv(s) && Enabled(s, t) && s.threads[t].pc.Picking? && s.threads[t].pc.at.FastUnlock?
    ensures Inv(StepFast(s, t))
  {
    hide Inv, Legal, PickInv, RingInv;
    var p := s.threads[t].pc.p;
    var c := p.arr[p.i].value;
    GetLocal(s, t, c);
    LegalFastUnlock(s, t, c, p);
    NextFastUnlock(s, t, c, p);
    var ch' := s.chans[c].(lock := None);
    var th' := s.threads[t].(pc := Picking(FastFree, p));
    assert MailInv(Upd(s, t, c, ch', th'), c);
    KeepPick(s, t, c, ch', th');
    assert StepFast(s, t) == Upd(s, t, c, ch', th');
  }

  lemma LegalFastFree(s: State, t: Tid, c: Cid, p: Pick)
    requires Local(s, t, c, FastFree, p) && p.arr[p.i] == Some(c)
    ensures Legal(|s.chans|, t, c, s.chans[c], s.chans[c].(takeLock := None), s.threads[t],
                  s.threads[t].(pc := PickRet(p.choices, Some((p.id, p.value)))))
  {
    SpanOne(p.arr, p.i);
    RingUntouched(s.chans[c], s.chans[c].(takeLock := None));
  }

  lemma KeepFastFree(s: State, t: Tid)
    requires Shape(s) && Inv(s) && Enabled(s, t) && s.threads[t].pc.Picking? && s.threads[t].pc.at.FastFree?
    ensures Inv(StepFast(s, t))
  {
    hide Inv, Legal, RingInv;
    var p := s.threads[t].pc.p;
    var c := p.arr[p.i].value;
    GetLocal(s, t, c);
    LegalFastFree(s, t, c, p);
    var ch' := s.chans[c].(takeLock := None);
    var th' := s.threads[t].(pc := PickRet(p.choices, Some((p.id, p.value))));
    InvUpd(s, t, c, ch', th');
    assert StepFast(s, t) == Upd(s, t, c, ch', th');
  }

  // ---------------------------------------------------------------- slow path

  lemma KeepUnlockEnd(s: State, t: Tid)
    requires Shape(s) && Inv(s) && Enabled(s, t) && s.threads[t].pc.Picking? && s.threads[t].pc.at.Unlock?
    requires s.threads[t].pc.p.j == |s.threads[t].pc.p.arr|
    ensures Inv(StepSlow(s, t))
  {
    hide Inv;
    var p := s.threads[t].pc.p;
    GetOwn(s, t);
    assert Span(p.arr, p.j, |p.arr|) == {};
    KeepPickT(s, t, s.threads[t].(pc := Picking(PendDone, p)));
  }

  lemma LegalUnlockSkip(n: nat, s: State, th: Thread, p: Pick)
    requires th.pc == Picking(Unlock, p) && PickShape(n, Unlock, p) && PickInv(s, th, Unlock, p)
    requires p.j < |p.arr| && p.arr[p.j].None?
    ensures LegalT(n, th, th.(pc := Picking(Unlock, p.(j := p.j + 1))))
  {
    SpanShrinks(p.arr, p.j, |p.arr|, |p.arr|);
  }

  lemma KeepUnlockSkip(s: State, t: Tid)
    requires Shape(s) && Inv(s) && Enabled(s, t) && s.threads[t].pc.Picking? && s.threads[t].pc.at.Unlock?
    requires var p := s.threads[t].pc.p; p.j < |p.arr| && p.arr[p.j].None?
    requires s.guarded
    ensures Inv(StepSlow(s, t))
  {
    hide Inv, LegalT;
    var p := s.threads[t].pc.p;
    GetOwn(s, t);
    LegalUnlockSkip(|s.chans|, s, s.threads[t], p);
    KeepPickT(s, t, s.threads[t].(pc := Picking(Unlock, p.(j := p.j + 1))));
  }

  lemma KeepUnlockDead(s: State, t: Tid)
    requires Shape(s) && Inv(s) && Enabled(s, t) && s.threads[t].pc.Picking? && s.threads[t].pc.at.Unlock?
    requires var p := s.threads[t].pc.p; p.j < |p.arr| && p.arr[p.j].None?
    requires !s.guarded
    ensures Inv(StepSlow(s, t))
  {
    hide Inv;
    var p := s.threads[t].pc.p;
    GetOwn(s, t);
    KeepPickT(s, t, s.threads[t].(pc := Picking(Dead, p)));
  }

  lemma LegalUnlock(s: State, t: Tid, c: Cid, p: Pick)
    requires Local(s, t, c, Unlock, p)
    requires p.j < |p.arr| && p.arr[p.j] == Some(c)
    requires p.j < |p.arr| && p.arr[p.j].Some?
    ensures Legal(|s.chans|, t, c, s.chans[c], s.chans[c].(lock := None), s.threads[t],
                  s.threads[t].(pc := Picking(Unlock, p.(j := p.j + 1))))
  {
    hide Span, RingInv, Distinct;
    SpanShrinks(p.arr, p.j, |p.arr|, |p.arr|);
    RingUntouched(s.chans[c], s.chans[c].(lock := None));
  }

  lemma NextUnlock(s: State, t: Tid, c: Cid, p: Pick)
    requires Local(s, t, c, Unlock, p)
    requires p.j < |p.arr| && p.arr[p.j] == Some(c)
    requires p.j < |p.arr| && p.arr[p.j].Some?
    ensures PickInv(s, s.threads[t].(pc := Picking(Unlock, p.(j := p.j + 1))),
                    Unlock, p.(j := p.j + 1))
  {
  }

  lemma KeepUnlock(s: State, t: Tid)
    requires Shape(s) && Inv(s) && Enabled(s, t) && s.threads[t].pc.Picking? && s.threads[t].pc.at.Unlock?
    requires var p := s.threads[t].pc.p; p.j < |p.arr| && p.arr[p.j].Some?
    ensures Inv(StepSlow(s, t))
  {
    hide Inv, Legal, PickInv, RingInv;
    var p := s.threads[t].pc.p;
    var c := p.arr[p.j].value;
    GetLocal(s, t, c);
    LegalUnlock(s, t, c, p);
    NextUnlock(s, t, c, p);
    var ch' := s.chans[c].(lock := None);
    var th' := s.threads[t].(pc := Picking(Unlock, p.(j := p.j + 1)));
    assert MailInv(Upd(s, t, c, ch', th'), c);
    KeepPick(s, t, c, ch', th');
    assert StepSlow(s, t) == Upd(s, t, c, ch', th');
  }

  lemma KeepPendDone(s: State, t: Tid)
    requires Shape(s) && Inv(s) && Enabled(s, t) && s.threads[t].pc.Picking? && s.threads[t].pc.at.PendDone?
    ensures Inv(StepSlow(s, t))
  {
    hide Inv;
    var p := s.threads[t].pc.p;
    GetOwn(s, t);
    KeepPickT(s, t, s.threads[t].(pc := Picking(Relock, p.(j := 0, id := p.box.id, value := p.box.value,
                                                           box := p.box.(done := p.box.done - 1)))));
  }

  lemma KeepRelockEnd(s: State, t: Tid)
    requires Shape(s) && Inv(s) && Enabled(s, t) && s.threads[t].pc.Picking? && s.threads[t].pc.at.Relock?
    requires s.threads[t].pc.p.j == |s.threads[t].pc.p.arr|
    ensures Inv(StepSlow(s, t))
  {
    hide Inv;
    var p := s.threads[t].pc.p;
    GetOwn(s, t);
    assert Span(p.arr, p.j, |p.arr|) == {};
    KeepPickT(s, t, s.threads[t].(pc := Picking(PostTake, p)));
  }

  lemma LegalRelockSkip(n: nat, s: State, th: Thread, p: Pick)
    requires th.pc == Picking(Relock, p) && PickShape(n, Relock, p) && PickInv(s, th, Relock, p)
    requires p.j < |p.arr| && p.arr[p.j].None?
    ensures LegalT(n, th, th.(pc := Picking(Relock, p.(j := p.j + 1))))
  {
    SpanShrinks(p.arr, p.j, |p.arr|, |p.arr|);
  }

  lemma KeepRelockSkip(s: State, t: Tid)
    requires Shape(s) && Inv(s) && Enabled(s, t) && s.threads[t].pc.Picking? && s.threads[t].pc.at.Relock?
    requires var p := s.threads[t].pc.p; p.j < |p.arr| && p.arr[p.j].None?
    ensures Inv(StepSlow(s, t))
  {
    hide Inv, LegalT;
    var p := s.threads[t].pc.p;
    GetOwn(s, t);
    LegalRelockSkip(|s.chans|, s, s.threads[t], p);
    KeepPickT(s, t, s.threads[t].(pc := Picking(Relock, p.(j := p.j + 1))));
  }

  lemma LegalRelock(s: State, t: Tid, c: Cid, p: Pick)
    requires Local(s, t, c, Relock, p)
    requires p.j < |p.arr| && p.arr[p.j] == Some(c)
    requires p.j < |p.arr| && p.arr[p.j].Some?
    requires s.chans[c].lock.None?
    ensures Legal(|s.chans|, t, c, s.chans[c], s.chans[c].(lock := Some(t)), s.threads[t],
                  s.threads[t].(pc := Picking(ClearMail, p)))
  {
    hide Span, RingInv, Distinct;
    SpanOne(p.arr, p.j);
    RingUntouched(s.chans[c], s.chans[c].(lock := Some(t)));
  }

  lemma NextRelock(s: State, t: Tid, c: Cid, p: Pick)
    requires Local(s, t, c, Relock, p)
    requires p.j < |p.arr| && p.arr[p.j] == Some(c)
    requires p.j < |p.arr| && p.arr[p.j].Some?
    requires s.chans[c].lock.None?
    ensures PickInv(s, s.threads[t].(pc := Picking(ClearMail, p)),
                    ClearMail, p)
  {
  }

  lemma KeepRelock(s: State, t: Tid)
    requires Shape(s) && Inv(s) && Enabled(s, t) && s.threads[t].pc.Picking? && s.threads[t].pc.at.Relock?
    requires var p := s.threads[t].pc.p; p.j < |p.arr| && p.arr[p.j].Some?
    ensures Inv(StepSlow(s, t))
  {
    hide Inv, Legal, PickInv, RingInv;
    var p := s.threads[t].pc.p;
    var c := p.arr[p.j].value;
    GetLocal(s, t, c);
    LegalRelock(s, t, c, p);
    NextRelock(s, t, c, p);
    var ch' := s.chans[c].(lock := Some(t));
    var th' := s.threads[t].(pc := Picking(ClearMail, p));
    assert MailInv(Upd(s, t, c, ch', th'), c);
    KeepPick(s, t, c, ch', th');
    assert StepSlow(s, t) == Upd(s, t, c, ch', th');
  }

  lemma LegalClearMail(s: State, t: Tid, c: Cid, p: Pick)
    requires Local(s, t, c, ClearMail, p)
    requires p.j < |p.arr| && p.arr[p.j] == Some(c)
    ensures Legal(|s.chans|, t, c, s.chans[c], s.chans[c].(mailbox := None, lock := None), s.threads[t],
                  s.threads[t].(pc := Picking(FreeTake, p)))
  {
    hide Span, RingInv, Distinct, Legal;
    SpanOne(p.arr, p.j);
    SpanShrinks(p.arr, p.j, |p.arr|, |p.arr|);
    LegalPointers(|s.chans|, t, c, s.chans[c], s.chans[c].(mailbox := None, lock := None), s.threads[t],
                  s.threads[t].(pc := Picking(FreeTake, p)));
  }

  lemma NextClearMail(s: State, t: Tid, c: Cid, p: Pick)
    requires Local(s, t, c, ClearMail, p)
    requires p.j < |p.arr| && p.arr[p.j] == Some(c)
    ensures PickInv(s, s.threads[t].(pc := Picking(FreeTake, p)),
                    FreeTake, p)
  {
  }

  lemma KeepClearMail(s: State, t: Tid)
    requires Shape(s) && Inv(s) && Enabled(s, t) && s.threads[t].pc.Picking? && s.threads[t].pc.at.ClearMail?
    ensures Inv(StepSlow(s, t))
  {
    hide Inv, Legal, PickInv, RingInv;
    var p := s.threads[t].pc.p;
    var c := p.arr[p.j].value;
    GetLocal(s, t, c);
    LegalClearMail(s, t, c, p);
    NextClearMail(s, t, c, p);
    var ch' := s.chans[c].(mailbox := None, lock := None);
    var th' := s.threads[t].(pc := Picking(FreeTake, p));
    assert MailInv(Upd(s, t, c, ch', th'), c);
    KeepPick(s, t, c, ch', th');
    assert StepSlow(s, t) == Upd(s, t, c, ch', th');
  }

  lemma MovesFreeTake(t: Tid, c: Cid, a: Chan, p: Pick)
    requires p.j < |p.arr| && p.arr[p.j] == Some(c) && Distinct(p.arr, |p.arr|)
    requires a.takeLock == Some(t) <==> c in Takes(Picking(FreeTake, p))
    ensures MovesAll(t, c, a, a.(takeLock := None), Picking(FreeTake, p), Picking(Relock, p.(j := p.j + 1)))
  {
    hide Span, Distinct;
    SpanShrinks(p.arr, p.j, |p.arr|, |p.arr|);
  }

  lemma LegalFreeTake(s: State, t: Tid, c: Cid, p: Pick)
    requires Local(s, t, c, FreeTake, p)
    requires p.j < |p.arr| && p.arr[p.j] == Some(c)
    ensures Legal(|s.chans|, t, c, s.chans[c], s.chans[c].(takeLock := None), s.threads[t],
                  s.threads[t].(pc := Picking(Relock, p.(j := p.j + 1))))
  {
    hide Span, RingInv, Distinct, Legal, MovesAll, BoxInv;
    MovesFreeTake(t, c, s.chans[c], p);
    LegalPointers(|s.chans|, t, c, s.chans[c], s.chans[c].(takeLock := None), s.threads[t],
                  s.threads[t].(pc := Picking(Relock, p.(j := p.j + 1))));
  }

  lemma NextFreeTake(s: State, t: Tid, c: Cid, p: Pick)
    requires Local(s, t, c, FreeTake, p)
    requires p.j < |p.arr| && p.arr[p.j] == Some(c)
    ensures PickInv(s, s.threads[t].(pc := Picking(Relock, p.(j := p.j + 1))),
                    Relock, p.(j := p.j + 1))
  {
  }

  lemma KeepFreeTake(s: State, t: Tid)
    requires Shape(s) && Inv(s) && Enabled(s, t) && s.threads[t].pc.Picking? && s.threads[t].pc.at.FreeTake?
    ensures Inv(StepSlow(s, t))
  {
    hide Inv, Legal, PickInv, RingInv, OwnersAt, Span, CountInv;
    var p := s.threads[t].pc.p;
    var c := p.arr[p.j].value;
    GetLocal(s, t, c);
    LegalFreeTake(s, t, c, p);
    NextFreeTake(s, t, c, p);
    var ch' := s.chans[c].(takeLock := None);
    var th' := s.threads[t].(pc := Picking(Relock, p.(j := p.j + 1)));
    assert MailInv(Upd(s, t, c, ch', th'), c);
    KeepPick(s, t, c, ch', th');
    assert StepSlow(s, t) == Upd(s, t, c, ch', th');
  }

  lemma LegalPostTake(s: State, t: Tid, c: Cid, p: Pick)
    requires Local(s, t, c, PostTake, p) && p.id < |p.arr| && p.arr[p.id] == Some(c)
    ensures Legal(|s.chans|, t, c, s.chans[c], s.chans[c].(take := s.chans[c].take + 1), s.threads[t],
                  s.threads[t].(pc := PickRet(p.choices, Some((p.id, p.value))), posts := s.threads[t].posts + [c]))
  {
    RingUntouched(s.chans[c], s.chans[c].(take := s.chans[c].take + 1));
  }

  lemma NextPostTake(s: State, t: Tid, c: Cid, p: Pick, r: State)
    requires Local(s, t, c, PostTake, p) && p.id < |p.arr| && p.arr[p.id] == Some(c)
    requires r == Upd(s, t, c, s.chans[c].(take := s.chans[c].take + 1),
                      s.threads[t].(pc := PickRet(p.choices, Some((p.id, p.value))),
                                    posts := s.threads[t].posts + [c]))
    ensures ThreadInv(r, t)
  {
  }

  lemma MailPostTake(s: State, t: Tid, c: Cid, p: Pick, r: State)
    requires Local(s, t, c, PostTake, p) && MailInv(s, c)
    requires r == Upd(s, t, c, s.chans[c].(take := s.chans[c].take + 1),
                      s.threads[t].(pc := PickRet(p.choices, Some((p.id, p.value))),
                                    posts := s.threads[t].posts + [c]))
    ensures MailInv(r, c)
  {
    hide PickInv, RingInv;
  }

  lemma PostTarget(s: State, t: Tid)
    requires Inv(s) && t < |s.threads| && s.threads[t].pc.Picking? && s.threads[t].pc.at.PostTake?
    ensures var p := s.threads[t].pc.p;
            p.id < |p.arr| && p.arr[p.id].Some? && p.arr[p.id].value < |s.chans|
  {
    assert ThreadInv(s, t);
  }

  lemma KeepPostTake(s: State, t: Tid)
    requires Shape(s) && Inv(s) && Enabled(s, t) && s.threads[t].pc.Picking? && s.threads[t].pc.at.PostTake?
    ensures Inv(StepSlow(s, t))
  {
    hide Inv, Legal, RingInv, PickInv, OwnersAt, Span, CountInv, ThreadInv, MailInv;
    var p := s.threads[t].pc.p;
    PostTarget(s, t);
    var c := p.arr[p.id].value;
    GetLocal(s, t, c);
    LegalPostTake(s, t, c, p);
    var ch' := s.chans[c].(take := s.chans[c].take + 1);
    var th' := s.threads[t].(pc := PickRet(p.choices, Some((p.id, p.value))), posts := s.threads[t].posts + [c]);
    NextPostTake(s, t, c, p, Upd(s, t, c, ch', th'));
    MailPostTake(s, t, c, p, Upd(s, t, c, ch', th'));
    InvUpd(s, t, c, ch', th');
    assert StepSlow(s, t) == Upd(s, t, c, ch', th');
  }
}
