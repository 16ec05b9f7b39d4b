/** The steps in which a put talks to the mailbox of a waiting pick: two threads change at once. */
module ChannelMailSteps {
  import opened Wrappers
  import opened ChannelModel
  import opened ChannelInvariant
  import opened ChannelFrames
  import opened ChannelSteps

  /** Replace channel c, the putter t and the picker m. */
  function Upd2(s: State, t: Tid, m: Tid, c: Cid, ch: Chan, th: Thread, tm: Thread): (r: State)
    requires t < |s.threads| && m < |s.threads| && c < |s.chans|
  {
    s.(chans := s.chans[c := ch], threads := s.threads[m := tm][t := th])
  }

  /** The putter t, at channel c, faces the picker m. */
  ghost predicate Facing(s: State, t: Tid, m: Tid, c: Cid) {
    && Shape(s) && Owners(s)
    && t < |s.threads| && m < |s.threads| && c < |s.chans| && t != m
    && s.chans[c].mailbox == Some(m)
    && s.chans[c].lock == Some(t)
    && s.threads[m].pc.Picking?
  }

  lemma FacingFacts(s: State, t: Tid, c: Cid)
    requires Inv(s) && t < |s.threads| && c < |s.chans|
    requires Using(s.threads[t].pc) && s.threads[t].pc.c == c
    ensures var m := s.threads[t].pc.m;
            Facing(s, t, m, c) && s.chans[c].putLock == Some(t) && s.chans[c].takeLock == Some(m)
  {
    assert OwnersAt(s, c, t) && ChanInv(s, c) && ThreadInv(s, t);
    MailOwner(s, c);
  }

  // ---------------------------------------------------------------- owners

  lemma OwnersUpd2(s: State, t: Tid, m: Tid, c: Cid, ch: Chan, th: Thread, tm: Thread)
    requires Facing(s, t, m, c)
    requires SameHolds(s.threads[t].pc, th.pc) && SameHolds(s.threads[m].pc, tm.pc)
    requires ch.lock == s.chans[c].lock && ch.putLock == s.chans[c].putLock
    requires ch.takeLock == s.chans[c].takeLock && ch.mailbox == s.chans[c].mailbox
    ensures Owners(Upd2(s, t, m, c, ch, th, tm))
  {
    var r := Upd2(s, t, m, c, ch, th, tm);
    forall d, u | 0 <= d < |r.chans| && 0 <= u < |r.threads| ensures OwnersAt(r, d, u) {
      assert OwnersAt(s, d, u);
    }
  }

  // ---------------------------------------------------------------- counts

  lemma CountsUpd2(s: State, t: Tid, m: Tid, c: Cid, ch: Chan, th: Thread, tm: Thread, d: Cid)
    requires Facing(s, t, m, c) && d < |s.chans| && CountInv(s, d)
    requires SameCounts(s.threads[m], tm, d) && SameCounts(s.threads[t], th, d)
    requires SameSems(s.chans[c], ch)
    ensures CountInv(Upd2(s, t, m, c, ch, th, tm), d)
  {
    CountsElsewhere(s, UpdT(s, m, tm), m, d);
    CountsElsewhere(UpdT(s, m, tm), Upd2(s, t, m, c, ch, th, tm), t, d);
  }

  /** A delivery makes the put pending and the picker owe a post: the two cancel. */
  lemma CountsDeliver(s: State, t: Tid, m: Tid, c: Cid, ch: Chan, th: Thread, tm: Thread)
    requires Facing(s, t, m, c) && CountInv(s, c) && s.chans[c].putLock == Some(t)
    requires SameSems(s.chans[c], ch)
    requires !Unposted(s.threads[t].pc, c) && !Unposted(th.pc, c)
    requires !Pending(s.threads[t].pc, c) && Pending(th.pc, c)
    requires !Owes(s.threads[m], c) && Owes(tm, c) && Owes(th, c) == Owes(s.threads[t], c)
    requires Claimed(tm.pc, c) == Claimed(s.threads[m].pc, c) && Claimed(th.pc, c) == Claimed(s.threads[t].pc, c)
    ensures CountInv(Upd2(s, t, m, c, ch, th, tm), c)
  {
    OwingUpd(s.threads, m, tm, c);
    OwingUpd(s.threads[m := tm], t, th, c);
  }

  // ---------------------------------------------------------------- mailboxes

  /** The picker's record moves on without opening its mailbox again. */
  ghost predicate SamePick(a: PC, b: PC) {
    a.Picking? ==>
      b.Picking? && b.at == a.at && b.p.arr == a.p.arr && b.p.i == a.p.i && b.p.j == a.p.j
      && (b.p.box.bi == 1 ==> a.p.box.bi == 1)
  }

  lemma MailUpd2(s: State, t: Tid, m: Tid, c: Cid, ch: Chan, th: Thread, tm: Thread, d: Cid)
    requires Facing(s, t, m, c) && d < |s.chans| && MailInv(s, d)
    requires ch.mailbox == s.chans[c].mailbox && ch.id == s.chans[c].id
    requires ch.Occupancy() == s.chans[c].Occupancy()
    requires SamePick(s.threads[m].pc, tm.pc) && !s.threads[t].pc.Picking?
    ensures MailInv(Upd2(s, t, m, c, ch, th, tm), d)
  {
  }

  // ---------------------------------------------------------------- the other threads

  lemma FrameUpd2(s: State, t: Tid, m: Tid, c: Cid, ch: Chan, th: Thread, tm: Thread, u: Tid)
    requires Facing(s, t, m, c) && s.chans[c].putLock == Some(t) && u < |s.threads| && u != t && u != m
    requires ch.size == s.chans[c].size && ch.mailbox == s.chans[c].mailbox
    requires s.chans[c].log <= ch.log && s.chans[c].puts <= ch.puts
    requires !s.threads[t].pc.Picking?
    requires var pc := s.threads[u].pc;
             Meeting(pc) && s.chans[pc.c].mailbox == Some(m) ==>
               !Delivering(pc) && BiKept(s.threads[m], tm)
    ensures Frame(s, Upd2(s, t, m, c, ch, th, tm), u)
  {
    assert OwnersAt(s, c, u) && OwnersAt(s, c, t);
  }

  /** Nobody but t can be delivering to m, and a put that lost the race saw m's mailbox won. */
  lemma OnlyWinner(s: State, t: Tid, m: Tid, c: Cid, u: Tid)
    requires Inv(s) && Facing(s, t, m, c) && u < |s.threads| && u != t
    requires s.threads[t].pc.PutTry? ==> BoxOf(s, m).bi == 1
    requires s.threads[t].pc.PutTry? || (Delivering(s.threads[t].pc) && s.threads[t].pc.m == m)
    requires Meeting(s.threads[u].pc) && s.chans[s.threads[u].pc.c].mailbox == Some(m)
    ensures !Delivering(s.threads[u].pc) && !s.threads[t].pc.PutTry?
  {
    assert ThreadInv(s, u) && OneWinner(s, u, t);
  }

  lemma WinnerMet(s: State, t: Tid, m: Tid, c: Cid, u: Tid)
    requires Inv(s) && Facing(s, t, m, c) && u < |s.threads| && u != t
    requires s.threads[t].pc.PutTry? ==> BoxOf(s, m).bi == 1
    requires s.threads[t].pc.PutTry? || (Delivering(s.threads[t].pc) && s.threads[t].pc.m == m)
    requires Target(s.threads[u].pc) == Some(m)
    ensures !Delivering(s.threads[u].pc)
  {
    assert ThreadInv(s, u);
    if Delivering(s.threads[u].pc) { OnlyWinner(s, t, m, c, u); }
  }

  lemma ThreadsUpd2(s: State, t: Tid, m: Tid, c: Cid, ch: Chan, th: Thread, tm: Thread)
    requires Inv(s) && Facing(s, t, m, c) && s.chans[c].putLock == Some(t)
    requires Shape(Upd2(s, t, m, c, ch, th, tm))
    requires ch.size == s.chans[c].size && ch.mailbox == s.chans[c].mailbox
    requires s.chans[c].log <= ch.log && s.chans[c].puts <= ch.puts
    requires s.threads[t].pc.PutTry? || (Delivering(s.threads[t].pc) && s.threads[t].pc.m == m)
    requires if s.threads[t].pc.PutTry? then BoxOf(s, m).bi == 1 else BiKept(s.threads[m], tm)
    requires ThreadInv(Upd2(s, t, m, c, ch, th, tm), t)
    requires ThreadInv(Upd2(s, t, m, c, ch, th, tm), m)
    ensures Threads(Upd2(s, t, m, c, ch, th, tm))
  {
    var r := Upd2(s, t, m, c, ch, th, tm);
    forall u | 0 <= u < |r.threads| ensures ThreadInv(r, u) {
      if u != t && u != m {
        var pc := s.threads[u].pc;
        assert ThreadInv(s, u);
        if Meeting(pc) && s.chans[pc.c].mailbox == Some(m) { OnlyWinner(s, t, m, c, u); }
        FrameUpd2(s, t, m, c, ch, th, tm, u);
        ThreadKept(s, r, u);
      }
    }
  }

  lemma WinnersUpd2(s: State, t: Tid, m: Tid, c: Cid, ch: Chan, th: Thread, tm: Thread)
    requires Inv(s) && Facing(s, t, m, c)
    requires ch.mailbox == s.chans[c].mailbox && tm.pc.Picking?
    requires s.threads[t].pc.PutTry? ==> BoxOf(s, m).bi == 1
    requires s.threads[t].pc.PutTry? || (Delivering(s.threads[t].pc) && s.threads[t].pc.m == m)
    requires Delivering(th.pc) ==> th.pc.m == m
    ensures Winners(Upd2(s, t, m, c, ch, th, tm))
  {
    var r := Upd2(s, t, m, c, ch, th, tm);
    forall u, w | 0 <= u < |r.threads| && 0 <= w < |r.threads| ensures OneWinner(r, u, w) {
      assert OneWinner(s, u, w);
      if u != t && Target(s.threads[u].pc) == Some(m) { WinnerMet(s, t, m, c, u); }
      if w != t && Target(s.threads[w].pc) == Some(m) { WinnerMet(s, t, m, c, w); }
    }
  }

  /** The parts for a step that changes a putter and its picker. */
  lemma InvUpd2(s: State, t: Tid, m: Tid, c: Cid, ch: Chan, th: Thread, tm: Thread)
    requires Inv(s) && Facing(s, t, m, c) && s.chans[c].putLock == Some(t)
    requires ch.size == s.chans[c].size && s.chans[c].log <= ch.log && s.chans[c].puts <= ch.puts
    requires ch.mailbox == s.chans[c].mailbox && tm.pc.Picking?
    requires s.threads[t].pc.PutTry? || (Delivering(s.threads[t].pc) && s.threads[t].pc.m == m)
    requires if s.threads[t].pc.PutTry? then BoxOf(s, m).bi == 1 else BiKept(s.threads[m], tm)
    requires Delivering(th.pc) ==> th.pc.m == m
    requires var r := Upd2(s, t, m, c, ch, th, tm);
             Shape(r) && Owners(r) && Channels(r) && Tags(r) && ThreadInv(r, t) && ThreadInv(r, m)
    ensures Inv(Upd2(s, t, m, c, ch, th, tm))
  {
    ThreadsUpd2(s, t, m, c, ch, th, tm);
    WinnersUpd2(s, t, m, c, ch, th, tm);
  }

  lemma TagsUpd2(s: State, t: Tid, m: Tid, c: Cid, ch: Chan, th: Thread, tm: Thread)
    requires Tags(s) && t < |s.threads| && m < |s.threads| && c < |s.chans| && t != m
    requires ch.log == s.chans[c].log
    requires th.op == s.threads[t].op && th.got == s.threads[t].got
    requires tm.op == s.threads[m].op && tm.got == s.threads[m].got
    ensures Tags(Upd2(s, t, m, c, ch, th, tm))
  {
    TagsUpdT(s, m, tm);
    TagsUpd(UpdT(s, m, tm), t, c, ch, th);
    assert Upd(UpdT(s, m, tm), t, c, ch, th) == Upd2(s, t, m, c, ch, th, tm);
  }

  lemma TagsDeliver(s: State, t: Tid, m: Tid, c: Cid, ch: Chan, th: Thread, tm: Thread, v: Value)
    requires Tags(s) && t < |s.threads| && m < |s.threads| && c < |s.chans| && t != m
    requires ch.log == s.chans[c].log + [Entry(v, m, s.threads[m].op)]
    requires th.op == s.threads[t].op && th.got == s.threads[t].got
    requires tm.op == s.threads[m].op && tm.got == s.threads[m].got + [(c, |s.chans[c].log|)]
    ensures Tags(Upd2(s, t, m, c, ch, th, tm))
  {
    TagsTaken(s, m, c, ch, tm, v);
    TagsUpdT(Upd(s, m, c, ch, tm), t, th);
    assert UpdT(Upd(s, m, c, ch, tm), t, th) == Upd2(s, t, m, c, ch, th, tm);
  }

  // ---------------------------------------------------------------- steps

  /** A put that finds no mailbox goes to the ring. */
  lemma KeepPutChooseRing(s: State, t: Tid)
    requires Inv(s) && Enabled(s, t) && s.threads[t].pc.PutChoose?
    requires s.chans[s.threads[t].pc.c].mailbox.None?
    ensures Inv(StepPut(s, t))
  {
    var PutChoose(c, v) := s.threads[t].pc;
    assert ThreadInv(s, t) && ChanInv(s, c) && OwnersAt(s, c, t);
    var th' := s.threads[t].(pc := PutRing(c, v));
    InvUpdT(s, t, th');
    assert StepPut(s, t) == UpdT(s, t, th');
  }

  /** One that finds a mailbox tries it. */
  lemma KeepPutChooseTry(s: State, t: Tid)
    requires Inv(s) && Enabled(s, t) && s.threads[t].pc.PutChoose?
    requires s.chans[s.threads[t].pc.c].mailbox.Some?
    ensures Inv(StepPut(s, t))
  {
    var PutChoose(c, v) := s.threads[t].pc;
    assert ThreadInv(s, t);
    var th' := s.threads[t].(pc := PutTry(c, v, s.chans[c].mailbox.value));
    InvUpdT(s, t, th');
    assert StepPut(s, t) == UpdT(s, t, th');
  }

  /** The mailbox a put tries is there, and is still there when the put leaves sem_try and goes to the
      ring because another has won it. */
  lemma KeepPutTryLost(s: State, t: Tid)
    requires Inv(s) && Enabled(s, t) && s.threads[t].pc.PutTry?
    requires var m := s.threads[t].pc.m; MailboxAlive(s, m) ==> BoxOf(s, m).bi == 0
    ensures Inv(StepPut(s, t))
  {
    var PutTry(c, v, m) := s.threads[t].pc;
    assert ThreadInv(s, t) && ChanInv(s, c);
    var th' := s.threads[t].(pc := PutLost(c, v, m));
    InvUpdT(s, t, th');
    assert StepPut(s, t) == UpdT(s, t, th');
  }

  lemma KeepPutLost(s: State, t: Tid)
    requires Inv(s) && Enabled(s, t) && s.threads[t].pc.PutLost?
    ensures Inv(StepPut(s, t))
  {
    var PutLost(c, v, m) := s.threads[t].pc;
    assert ThreadInv(s, t);
    var th' := s.threads[t].(pc := PutRing(c, v));
    InvUpdT(s, t, th');
    assert StepPut(s, t) == UpdT(s, t, th');
  }

  /** What an open mailbox says about its picker. */
  lemma OpenMailbox(s: State, t: Tid, m: Tid, c: Cid)
    requires Inv(s) && Facing(s, t, m, c) && BoxOf(s, m).bi > 0
    ensures BoxOf(s, m).bi == 1 && BoxOf(s, m).done == 0 && Waiting(s.threads[m].pc.at)
    ensures s.threads[m].got == [] && s.threads[m].posts == [] && s.chans[c].Occupancy() == 0
  {
    assert ThreadInv(s, m) && ChanInv(s, c) && OwnersAt(s, c, m);
    var pc := s.threads[m].pc;
    if !Waiting(pc.at) { MailsAreLocked(|s.chans|, pc); }
  }

  /** Until the unlock loop a pick holds the lock of every channel that points at it. */
  lemma MailsAreLocked(n: nat, pc: PC)
    requires pc.Picking? && PickShape(n, pc.at, pc.p)
    ensures Scanning(pc.at) || Fast(pc.at) ==> Mails(pc) <= Locks(pc)
  {
  }

  lemma ChannelsUpd2(s: State, t: Tid, m: Tid, c: Cid, th: Thread, tm: Thread)
    requires Facing(s, t, m, c) && Channels(s) && !s.threads[t].pc.Picking?
    requires forall d | 0 <= d < |s.chans| :: SameCounts(s.threads[m], tm, d) && SameCounts(s.threads[t], th, d)
    requires SamePick(s.threads[m].pc, tm.pc)
    ensures Channels(Upd2(s, t, m, c, s.chans[c], th, tm))
  {
    var r := Upd2(s, t, m, c, s.chans[c], th, tm);
    forall d | 0 <= d < |r.chans| ensures ChanInv(r, d) {
      assert ChanInv(s, d);
      CountsUpd2(s, t, m, c, s.chans[c], th, tm, d);
      MailUpd2(s, t, m, c, s.chans[c], th, tm, d);
    }
  }

  function Winning(s: State, m: Tid): (tm: Thread)
    requires MailboxAlive(s, m) && BoxOf(s, m).bi > 0
  {
    var p := s.threads[m].pc.p;
    s.threads[m].(pc := Picking(s.threads[m].pc.at, p.(box := p.box.(bi := p.box.bi - 1))))
  }

  lemma KeepPutTryWin(s: State, t: Tid)
    requires Inv(s) && Enabled(s, t) && s.threads[t].pc.PutTry?
    requires var m := s.threads[t].pc.m; MailboxAlive(s, m) && BoxOf(s, m).bi > 0
    ensures Inv(StepPut(s, t))
  {
    var PutTry(c, v, m) := s.threads[t].pc;
    FacingFacts(s, t, c);
    OpenMailbox(s, t, m, c);
    var tm := Winning(s, m);
    var th := s.threads[t].(pc := PutDeliver(c, v, m));
    WinIsLegal(s, t, m, c, th, tm);
    assert StepPut(s, t) == Upd2(s, t, m, c, s.chans[c], th, tm);
  }

  lemma WinThreads(s: State, t: Tid, m: Tid, c: Cid, th: Thread, tm: Thread, r: State)
    requires Inv(s) && Facing(s, t, m, c) && s.chans[c].putLock == Some(t)
    requires s.threads[t].pc.PutTry? && s.threads[t].pc.c == c
    requires BoxOf(s, m).bi == 1 && BoxOf(s, m).done == 0 && Waiting(s.threads[m].pc.at)
    requires s.threads[m].got == [] && s.threads[m].posts == [] && s.chans[c].Occupancy() == 0
    requires tm == Winning(s, m)
    requires th == s.threads[t].(pc := PutDeliver(c, s.threads[t].pc.v, m))
    requires r == Upd2(s, t, m, c, s.chans[c], th, tm)
    ensures ThreadInv(r, t)
    ensures ThreadInv(r, m)
  {
    hide Owners, Channels, Winners, Tags;
    assert ThreadInv(s, m) && ThreadInv(s, t);
    WonPick(s, m);
    PickKept(s, r, tm, tm.pc.at, tm.pc.p);
    hide PickInv;
  }

  /** What winning a mailbox does to the picker's own record. */
  lemma WonPick(s: State, m: Tid)
    requires MailboxAlive(s, m) && PickInv(s, s.threads[m], s.threads[m].pc.at, s.threads[m].pc.p)
    requires BoxOf(s, m).bi == 1 && BoxOf(s, m).done == 0 && Waiting(s.threads[m].pc.at)
    ensures var tm := Winning(s, m); PickInv(s, tm, tm.pc.at, tm.pc.p)
  {
  }

  lemma WinIsLegal(s: State, t: Tid, m: Tid, c: Cid, th: Thread, tm: Thread)
    requires Inv(s) && Facing(s, t, m, c) && s.chans[c].putLock == Some(t)
    requires s.threads[t].pc.PutTry? && s.threads[t].pc.c == c
    requires BoxOf(s, m).bi == 1 && BoxOf(s, m).done == 0 && Waiting(s.threads[m].pc.at)
    requires s.threads[m].got == [] && s.threads[m].posts == [] && s.chans[c].Occupancy() == 0
    requires tm == Winning(s, m)
    requires th == s.threads[t].(pc := PutDeliver(c, s.threads[t].pc.v, m))
    ensures Inv(Upd2(s, t, m, c, s.chans[c], th, tm))
  {
    hide ThreadInv, ChanInv, OwnersAt, OneWinner, EntryInv, GotInv;
    OwnersUpd2(s, t, m, c, s.chans[c], th, tm);
    ChannelsUpd2(s, t, m, c, th, tm);
    WinThreads(s, t, m, c, th, tm, Upd2(s, t, m, c, s.chans[c], th, tm));
    TagsUpd2(s, t, m, c, s.chans[c], th, tm);
    InvUpd2(s, t, m, c, s.chans[c], th, tm);
  }

  function Receiving(s: State, m: Tid, c: Cid, v: Value): (tm: Thread)
    requires MailboxAlive(s, m) && c < |s.chans|
  {
    var p := s.threads[m].pc.p;
    s.threads[m].(pc := Picking(s.threads[m].pc.at, p.(box := p.box.(id := s.chans[c].id, value := v))),
                  got := s.threads[m].got + [(c, |s.chans[c].log|)])
  }

  function Delivery(s: State, m: Tid, c: Cid, v: Value): (ch: Chan)
    requires m < |s.threads| && c < |s.chans|
  {
    s.chans[c].(puts := s.chans[c].puts + [v], log := s.chans[c].log + [Entry(v, m, s.threads[m].op)])
  }

  lemma DeliveryRing(ch: Chan, v: Value, e: Entry)
    requires RingInv(ch) && ch.Occupancy() == 0 && e.v == v
    ensures RingInv(ch.(puts := ch.puts + [v], log := ch.log + [e]))
  {
  }

  lemma ChannelsDeliver(s: State, t: Tid, m: Tid, c: Cid, v: Value, th: Thread)
    requires Facing(s, t, m, c) && Channels(s) && s.chans[c].putLock == Some(t)
    requires s.threads[t].pc == PutDeliver(c, v, m) && s.threads[m].got == [] && s.threads[m].posts == []
    requires s.chans[c].Occupancy() == 0
    requires th == s.threads[t].(pc := PutPostDone(c, v, |s.chans[c].puts| + 1, m))
    ensures Channels(Upd2(s, t, m, c, Delivery(s, m, c, v), th, Receiving(s, m, c, v)))
  {
    var ch, tm := Delivery(s, m, c, v), Receiving(s, m, c, v);
    var r := Upd2(s, t, m, c, ch, th, tm);
    assert ChanInv(s, c);
    DeliveryRing(s.chans[c], v, Entry(v, m, s.threads[m].op));
    forall d | 0 <= d < |r.chans| ensures ChanInv(r, d) {
      assert ChanInv(s, d);
      MailUpd2(s, t, m, c, ch, th, tm, d);
      if d == c {
        CountsDeliver(s, t, m, c, ch, th, tm);
      } else {
        CountsUpd2(s, t, m, c, ch, th, tm, d);
      }
    }
  }

  lemma DeliverFacts(s: State, t: Tid, m: Tid, c: Cid, v: Value)
    requires Inv(s) && Facing(s, t, m, c) && s.threads[t].pc == PutDeliver(c, v, m)
    ensures s.threads[m].got == [] && s.threads[m].posts == [] && s.chans[c].Occupancy() == 0
  {
    assert ThreadInv(s, t) && ThreadInv(s, m);
  }

  lemma DeliverPutter(s: State, t: Tid, m: Tid, c: Cid, v: Value, th: Thread, r: State)
    requires Inv(s) && Facing(s, t, m, c) && s.chans[c].putLock == Some(t)
    requires s.threads[t].pc == PutDeliver(c, v, m)
    requires th == s.threads[t].(pc := PutPostDone(c, v, |s.chans[c].puts| + 1, m))
    requires r == Upd2(s, t, m, c, Delivery(s, m, c, v), th, Receiving(s, m, c, v))
    ensures ThreadInv(r, t)
  {
    hide Owners, Channels, Winners, Tags, CountInv;
    assert ThreadInv(s, t) && ThreadInv(s, m);
    RingOf(s, c);
  }

  lemma RingOf(s: State, c: Cid)
    requires Inv(s) && c < |s.chans|
    ensures RingInv(s.chans[c]) && MailInv(s, c)
  {
    hide Owners, Threads, Winners, Tags;
    assert ChanInv(s, c);
  }

  lemma DeliverPicker(s: State, t: Tid, m: Tid, c: Cid, v: Value, th: Thread, r: State)
    requires Inv(s) && Facing(s, t, m, c) && s.chans[c].putLock == Some(t)
    requires s.threads[t].pc == PutDeliver(c, v, m)
    requires th == s.threads[t].(pc := PutPostDone(c, v, |s.chans[c].puts| + 1, m))
    requires r == Upd2(s, t, m, c, Delivery(s, m, c, v), th, Receiving(s, m, c, v))
    ensures ThreadInv(r, m)
  {
    hide Owners, Channels, Winners, Tags, CountInv;
    assert ThreadInv(s, t) && ThreadInv(s, m);
    RingOf(s, c);
  }

  lemma DeliverChannels(s: State, t: Tid, m: Tid, c: Cid, v: Value, th: Thread)
    requires Inv(s) && Facing(s, t, m, c) && s.chans[c].putLock == Some(t)
    requires s.threads[t].pc == PutDeliver(c, v, m)
    requires th == s.threads[t].(pc := PutPostDone(c, v, |s.chans[c].puts| + 1, m))
    ensures var r := Upd2(s, t, m, c, Delivery(s, m, c, v), th, Receiving(s, m, c, v));
            Shape(r) && Owners(r) && Channels(r) && Tags(r)
  {
    hide Owners, Channels, Threads, Winners, Tags, Facing;
    FacingParts(s, t, m, c);
    var ch, tm := Delivery(s, m, c, v), Receiving(s, m, c, v);
    DeliverFacts(s, t, m, c, v);
    DeliverSame(s, t, m, c, v, th);
    OwnersUpd2(s, t, m, c, ch, th, tm);
    ChannelsDeliver(s, t, m, c, v, th);
    TagsDeliver(s, t, m, c, ch, th, tm, v);
  }

  /** A delivery moves no lock. */
  lemma DeliverSame(s: State, t: Tid, m: Tid, c: Cid, v: Value, th: Thread)
    requires Facing(s, t, m, c) && s.threads[t].pc == PutDeliver(c, v, m)
    requires th == s.threads[t].(pc := PutPostDone(c, v, |s.chans[c].puts| + 1, m))
    ensures SameHolds(s.threads[t].pc, th.pc) && SameHolds(s.threads[m].pc, Receiving(s, m, c, v).pc)
    ensures Shape(Upd2(s, t, m, c, Delivery(s, m, c, v), th, Receiving(s, m, c, v)))
  {
    hide Owners, Span;
    BoxOnly(|s.chans|, s.threads[m], Receiving(s, m, c, v));
  }

  lemma DeliverIsLegal(s: State, t: Tid, m: Tid, c: Cid, v: Value, th: Thread)
    requires Inv(s) && Facing(s, t, m, c) && s.chans[c].putLock == Some(t)
    requires s.threads[t].pc == PutDeliver(c, v, m)
    requires th == s.threads[t].(pc := PutPostDone(c, v, |s.chans[c].puts| + 1, m))
    ensures Inv(Upd2(s, t, m, c, Delivery(s, m, c, v), th, Receiving(s, m, c, v)))
  {
    hide Inv, ThreadInv, Owners, Channels, Tags;
    DeliverChannels(s, t, m, c, v, th);
    var r := Upd2(s, t, m, c, Delivery(s, m, c, v), th, Receiving(s, m, c, v));
    DeliverPutter(s, t, m, c, v, th, r);
    DeliverPicker(s, t, m, c, v, th, r);
    InvUpd2(s, t, m, c, Delivery(s, m, c, v), th, Receiving(s, m, c, v));
  }

  lemma KeepPutDeliver(s: State, t: Tid)
    requires Inv(s) && Enabled(s, t) && s.threads[t].pc.PutDeliver?
    ensures Inv(StepPut(s, t))
  {
    var PutDeliver(c, v, m) := s.threads[t].pc;
    assert ThreadInv(s, t);
    FacingFacts(s, t, c);
    var th := s.threads[t].(pc := PutPostDone(c, v, |s.chans[c].puts| + 1, m));
    DeliverIsLegal(s, t, m, c, v, th);
    assert StepPut(s, t) == Upd2(s, t, m, c, Delivery(s, m, c, v), th, Receiving(s, m, c, v));
  }

  function Notified(s: State, m: Tid): (tm: Thread)
    requires MailboxAlive(s, m)
  {
    var p := s.threads[m].pc.p;
    s.threads[m].(pc := Picking(s.threads[m].pc.at, p.(box := p.box.(done := p.box.done + 1))))
  }

  lemma NotifyThreads(s: State, t: Tid, m: Tid, c: Cid, th: Thread, tm: Thread, r: State)
    requires Inv(s) && Facing(s, t, m, c) && s.chans[c].putLock == Some(t)
    requires s.threads[t].pc.PutPostDone? && s.threads[t].pc.c == c && s.threads[t].pc.m == m
    requires tm == Notified(s, m)
    requires th == s.threads[t].(pc := PutPosted(c, s.threads[t].pc.v, s.threads[t].pc.nth, m))
    requires r == Upd2(s, t, m, c, s.chans[c], th, tm)
    ensures ThreadInv(r, t)
    ensures ThreadInv(r, m)
  {
    hide Owners, Channels, Winners, Tags;
    assert ThreadInv(s, m) && ThreadInv(s, t);
    NotifiedPick(s, s.threads[m], tm, s.threads[t], c, m);
    PickKept(s, r, tm, tm.pc.at, tm.pc.p);
    hide PickInv, DeliverInv;
  }

  /** What a post does to the picker's own record. */
  lemma NotifiedPick(s: State, a: Thread, b: Thread, th: Thread, c: Cid, m: Tid)
    requires m < |s.threads| && a == s.threads[m] && a.pc.Picking? && PickInv(s, a, a.pc.at, a.pc.p)
    requires th.pc.PutPostDone? && DeliverInv(s, c, m, true)
    requires b == Notified(s, m)
    ensures PickInv(s, b, b.pc.at, b.pc.p)
  {
  }

  lemma NotifyIsLegal(s: State, t: Tid, m: Tid, c: Cid, th: Thread, tm: Thread)
    requires Inv(s) && Facing(s, t, m, c) && s.chans[c].putLock == Some(t)
    requires s.threads[t].pc.PutPostDone? && s.threads[t].pc.c == c && s.threads[t].pc.m == m
    requires tm == Notified(s, m)
    requires th == s.threads[t].(pc := PutPosted(c, s.threads[t].pc.v, s.threads[t].pc.nth, m))
    ensures Inv(Upd2(s, t, m, c, s.chans[c], th, tm))
  {
    hide Inv, ThreadInv, Owners, Channels, Tags;
    NotifyChannels(s, t, m, c, th, tm);
    NotifyThreads(s, t, m, c, th, tm, Upd2(s, t, m, c, s.chans[c], th, tm));
    InvUpd2(s, t, m, c, s.chans[c], th, tm);
  }

  lemma NotifyChannels(s: State, t: Tid, m: Tid, c: Cid, th: Thread, tm: Thread)
    requires Inv(s) && Facing(s, t, m, c) && s.chans[c].putLock == Some(t)
    requires s.threads[t].pc.PutPostDone? && s.threads[t].pc.c == c && s.threads[t].pc.m == m
    requires tm == Notified(s, m)
    requires th == s.threads[t].(pc := PutPosted(c, s.threads[t].pc.v, s.threads[t].pc.nth, m))
    ensures var r := Upd2(s, t, m, c, s.chans[c], th, tm);
            Shape(r) && Owners(r) && Channels(r) && Tags(r)
  {
    hide ThreadInv, ChanInv, OwnersAt, OneWinner, EntryInv, GotInv, Threads, Winners, Owners, Tags, Channels, Facing;
    FacingParts(s, t, m, c);
    NotifySame(s, t, m, c, th, tm);
    OwnersUpd2(s, t, m, c, s.chans[c], th, tm);
    ChannelsUpd2(s, t, m, c, th, tm);
    TagsUpd2(s, t, m, c, s.chans[c], th, tm);
  }

  lemma FacingParts(s: State, t: Tid, m: Tid, c: Cid)
    requires Facing(s, t, m, c)
    ensures t < |s.threads| && m < |s.threads| && c < |s.chans| && t != m && MailboxAlive(s, m)
  {
  }

  /** A post moves nothing but the two program counters and the count in the mailbox. */
  lemma NotifySame(s: State, t: Tid, m: Tid, c: Cid, th: Thread, tm: Thread)
    requires Facing(s, t, m, c) && s.threads[t].pc.PutPostDone? && s.threads[t].pc.c == c && s.threads[t].pc.m == m
    requires tm == Notified(s, m)
    requires th == s.threads[t].(pc := PutPosted(c, s.threads[t].pc.v, s.threads[t].pc.nth, m))
    ensures SameHolds(s.threads[t].pc, th.pc) && SameHolds(s.threads[m].pc, tm.pc)
    ensures forall d | 0 <= d < |s.chans| :: SameCounts(s.threads[m], tm, d) && SameCounts(s.threads[t], th, d)
    ensures SamePick(s.threads[m].pc, tm.pc) && Shape(Upd2(s, t, m, c, s.chans[c], th, tm))
  {
    hide Owners, Span, SameHolds, SameCounts;
    BoxOnly(|s.chans|, s.threads[m], tm);
    PostOnly(|s.chans|, s.threads[t], th);
  }

  lemma BoxOnly(n: nat, a: Thread, b: Thread)
    requires a.pc.Picking? && b.pc.Picking? && PCShape(n, a.pc)
    requires b == a.(pc := Picking(a.pc.at, a.pc.p.(box := b.pc.p.box)), got := b.got)
    ensures SameHolds(a.pc, b.pc) && PCShape(n, b.pc)
    ensures b.got == a.got ==> forall d :: SameCounts(a, b, d)
  {
    hide Span;
  }

  lemma PostOnly(n: nat, a: Thread, b: Thread)
    requires a.pc.PutPostDone? && b == a.(pc := PutPosted(a.pc.c, a.pc.v, a.pc.nth, a.pc.m)) && PCShape(n, a.pc)
    ensures SameHolds(a.pc, b.pc) && PCShape(n, b.pc) && forall d :: SameCounts(a, b, d)
  {
  }

  lemma KeepPutPostDone(s: State, t: Tid)
    requires Inv(s) && Enabled(s, t) && s.threads[t].pc.PutPostDone?
    ensures Inv(StepPut(s, t))
  {
    var PutPostDone(c, v, nth, m) := s.threads[t].pc;
    assert ThreadInv(s, t);
    FacingFacts(s, t, c);
    var th := s.threads[t].(pc := PutPosted(c, v, nth, m));
    NotifyIsLegal(s, t, m, c, th, Notified(s, m));
    assert StepPut(s, t) == Upd2(s, t, m, c, s.chans[c], th, Notified(s, m));
  }

  /** The mailbox outlives the post: the picker may have gone on, but not past the lock of c. */
  lemma KeepPutPosted(s: State, t: Tid)
    requires Inv(s) && Enabled(s, t) && s.threads[t].pc.PutPosted?
    ensures Inv(StepPut(s, t))
  {
    var PutPosted(c, v, nth, m) := s.threads[t].pc;
    assert ThreadInv(s, t) && ChanInv(s, c);
    var th' := s.threads[t].(pc := PutUnlock(c, v, nth));
    InvUpdT(s, t, th');
    assert StepPut(s, t) == UpdT(s, t, th');
  }
}
