/** What one thread's local change does to the rest of the protocol: lemmas about an update of
    one thread record and one channel that hold for any such update. */
module ChannelFrames {
  import opened Wrappers
  import opened ChannelModel
  import opened ChannelInvariant

  /** Replace channel c and thread t. */
  function Upd(s: State, t: Tid, c: Cid, ch: Chan, th: Thread): (r: State)
    requires t < |s.threads| && c < |s.chans|
  {
    s.(chans := s.chans[c := ch], threads := s.threads[t := th])
  }

  /** Replace thread t only. */
  function UpdT(s: State, t: Tid, th: Thread): (r: State)
    requires t < |s.threads|
  {
    s.(threads := s.threads[t := th])
  }

  // ---------------------------------------------------------------- shape

  lemma ShapeUpd(s: State, t: Tid, c: Cid, ch: Chan, th: Thread)
    requires Shape(s) && t < |s.threads| && c < |s.chans|
    requires ChanShape(ch) && PCShape(|s.chans|, th.pc)
    ensures Shape(Upd(s, t, c, ch, th))
  {
  }

  lemma ShapeUpdT(s: State, t: Tid, th: Thread)
    requires Shape(s) && t < |s.threads| && PCShape(|s.chans|, th.pc)
    ensures Shape(UpdT(s, t, th))
  {
  }

  // ---------------------------------------------------------------- owners

  ghost predicate SameHolds(a: PC, b: PC) {
    Locks(a) == Locks(b) && PutLocks(a) == PutLocks(b) && Takes(a) == Takes(b) && Mails(a) == Mails(b)
  }

  /** How one lock (or mailbox pointer) of c and one of t's holdings may move together. */
  ghost predicate Moves(t: Tid, c: Cid, a: Option<Tid>, b: Option<Tid>, held: set<Cid>, held': set<Cid>) {
    || (b == a && held' == held)
    || (a.None? && b == Some(t) && held' == held + {c})
    || (a == Some(t) && b.None? && held' == held - {c})
  }

  ghost predicate MovesAll(t: Tid, c: Cid, a: Chan, b: Chan, pc: PC, pc': PC) {
    && Moves(t, c, a.lock, b.lock, Locks(pc), Locks(pc'))
    && Moves(t, c, a.putLock, b.putLock, PutLocks(pc), PutLocks(pc'))
    && Moves(t, c, a.takeLock, b.takeLock, Takes(pc), Takes(pc'))
    && Moves(t, c, a.mailbox, b.mailbox, Mails(pc), Mails(pc'))
  }

  lemma OwnersUpd(s: State, t: Tid, c: Cid, ch: Chan, th: Thread)
    requires Owners(s) && t < |s.threads| && c < |s.chans|
    requires MovesAll(t, c, s.chans[c], ch, s.threads[t].pc, th.pc)
    ensures Owners(Upd(s, t, c, ch, th))
  {
    var r := Upd(s, t, c, ch, th);
    forall d, u | 0 <= d < |r.chans| && 0 <= u < |r.threads|
      ensures OwnersAt(r, d, u)
    {
      assert OwnersAt(s, d, u);
      assert OwnersAt(s, d, t);
    }
  }

  lemma OwnersUpdT(s: State, t: Tid, th: Thread)
    requires Owners(s) && t < |s.threads| && SameHolds(s.threads[t].pc, th.pc)
    ensures Owners(UpdT(s, t, th))
  {
    var r := UpdT(s, t, th);
    forall d, u | 0 <= d < |r.chans| && 0 <= u < |r.threads|
      ensures OwnersAt(r, d, u)
    {
      assert OwnersAt(s, d, u);
    }
  }

  // ---------------------------------------------------------------- counts

  /** Everything one program counter contributes to the counts of channel d. */
  ghost predicate SameCounts(a: Thread, b: Thread, d: Cid) {
    && Unposted(a.pc, d) == Unposted(b.pc, d)
    && Pending(a.pc, d) == Pending(b.pc, d)
    && Claimed(a.pc, d) == Claimed(b.pc, d)
    && Owes(a, d) == Owes(b, d)
  }

  /** The counts of c move by as much as thread t's contribution does. */
  ghost predicate Balanced(c: Cid, a: Chan, b: Chan, th: Thread, th': Thread) {
    && b.size == a.size
    && (b.Occupancy() - a.Occupancy()
        == b.put - a.put + One(Unposted(th'.pc, c)) - One(Unposted(th.pc, c))
                         + One(Claimed(th'.pc, c)) - One(Claimed(th.pc, c)))
    && (b.take - a.take + b.Occupancy() - a.Occupancy() + One(Owes(th', c)) - One(Owes(th, c))
        == One(Pending(th'.pc, c)) - One(Pending(th.pc, c)))
  }

  lemma OwingGrows(threads: seq<Thread>, t: Tid, th: Thread, d: Cid)
    requires t < |threads| && Owes(th, d)
    ensures Owing(threads[t := th], d) == Owing(threads, d) + {t}
  {
  }

  lemma OwingShrinks(threads: seq<Thread>, t: Tid, th: Thread, d: Cid)
    requires t < |threads| && !Owes(th, d)
    ensures Owing(threads[t := th], d) == Owing(threads, d) - {t}
  {
  }

  lemma OwingUpd(threads: seq<Thread>, t: Tid, th: Thread, d: Cid)
    requires t < |threads|
    ensures |Owing(threads[t := th], d)| == |Owing(threads, d)| + One(Owes(th, d)) - One(Owes(threads[t], d))
  {
    if Owes(th, d) {
      OwingGrows(threads, t, th, d);
    } else {
      OwingShrinks(threads, t, th, d);
    }
  }

  /** Only the owner of the respective lock contributes to a count. */
  lemma Contributes(s: State, t: Tid, d: Cid)
    requires Owners(s) && t < |s.threads| && d < |s.chans|
    requires PCShape(|s.chans|, s.threads[t].pc)
    ensures Unposted(s.threads[t].pc, d) ==> s.chans[d].lock == Some(t)
    ensures Pending(s.threads[t].pc, d) ==> s.chans[d].putLock == Some(t)
    ensures Claimed(s.threads[t].pc, d) ==> s.chans[d].takeLock == Some(t)
  {
    assert OwnersAt(s, d, t);
    var pc := s.threads[t].pc;
    if pc.Picking? && Claimed(pc, d) {
      assert d in Span(pc.p.arr, pc.p.j, pc.p.i + 1);
    }
  }

  lemma CountsUpd(s: State, t: Tid, c: Cid, ch: Chan, th: Thread)
    requires t < |s.threads| && c < |s.chans|
    requires Owners(s) && Owners(Upd(s, t, c, ch, th))
    requires PCShape(|s.chans|, s.threads[t].pc) && PCShape(|s.chans|, th.pc)
    requires CountInv(s, c) && Balanced(c, s.chans[c], ch, s.threads[t], th)
    requires OneOwner(s.chans[c].lock, ch.lock, t) && OneOwner(s.chans[c].putLock, ch.putLock, t)
    requires OneOwner(s.chans[c].takeLock, ch.takeLock, t)
    ensures CountInv(Upd(s, t, c, ch, th), c)
  {
    var r := Upd(s, t, c, ch, th);
    Contributes(s, t, c);
    Contributes(r, t, c);
    OwingUpd(s.threads, t, th, c);
  }

  /** A lock changes hands only between t and nobody. */
  predicate OneOwner(a: Option<Tid>, b: Option<Tid>, t: Tid) {
    a == b || (a.None? && b == Some(t)) || (a == Some(t) && b.None?)
  }

  predicate SameSems(a: Chan, b: Chan) {
    && b.size == a.size && b.put == a.put && b.take == a.take && b.Occupancy() == a.Occupancy()
    && b.lock == a.lock && b.putLock == a.putLock && b.takeLock == a.takeLock
  }

  lemma CountsElsewhere(s: State, r: State, t: Tid, d: Cid)
    requires |r.threads| == |s.threads| && |r.chans| == |s.chans|
    requires t < |s.threads| && d < |s.chans| && SameSems(s.chans[d], r.chans[d])
    requires r.threads == s.threads[t := r.threads[t]]
    requires CountInv(s, d) && SameCounts(s.threads[t], r.threads[t], d)
    ensures CountInv(r, d)
  {
    OwingUpd(s.threads, t, r.threads[t], d);
  }

  // ---------------------------------------------------------------- mailboxes

  /** What the channels that point at a picker rely on. */
  ghost predicate SameMailbox(a: PC, b: PC) {
    a.Picking? && Mails(b) != {} ==>
      && b.Picking?
      && b.p.box.bi == a.p.box.bi
      && |b.p.arr| == |a.p.arr|
      && Won(a.at, a.p) <= Won(b.at, b.p)
      && (forall k | 0 <= k < |a.p.arr| && k < Won(a.at, a.p) :: b.p.arr[k] == a.p.arr[k])
  }

  lemma MailElsewhere(s: State, r: State, t: Tid, d: Cid)
    requires |r.threads| == |s.threads| && |r.chans| == |s.chans|
    requires t < |s.threads| && d < |s.chans| && r.chans[d] == s.chans[d]
    requires r.threads == s.threads[t := r.threads[t]]
    requires Owners(r) && MailInv(s, d) && SameMailbox(s.threads[t].pc, r.threads[t].pc)
    ensures MailInv(r, d)
  {
    assert OwnersAt(r, d, t);
  }

  lemma ChannelsUpd(s: State, t: Tid, c: Cid, ch: Chan, th: Thread)
    requires t < |s.threads| && c < |s.chans|
    requires Owners(s) && Channels(s) && Owners(Upd(s, t, c, ch, th))
    requires PCShape(|s.chans|, s.threads[t].pc) && PCShape(|s.chans|, th.pc)
    requires RingInv(ch) && Balanced(c, s.chans[c], ch, s.threads[t], th)
    requires OneOwner(s.chans[c].lock, ch.lock, t) && OneOwner(s.chans[c].putLock, ch.putLock, t)
    requires OneOwner(s.chans[c].takeLock, ch.takeLock, t)
    requires forall d | 0 <= d < |s.chans| && d != c :: SameCounts(s.threads[t], th, d)
    requires SameMailbox(s.threads[t].pc, th.pc)
    requires MailInv(Upd(s, t, c, ch, th), c)
    ensures Channels(Upd(s, t, c, ch, th))
  {
    var r := Upd(s, t, c, ch, th);
    forall d | 0 <= d < |r.chans| ensures ChanInv(r, d) {
      assert ChanInv(s, d);
      if d == c {
        CountsUpd(s, t, c, ch, th);
      } else {
        CountsElsewhere(s, r, t, d);
        MailElsewhere(s, r, t, d);
      }
    }
  }

  lemma ChannelsUpdT(s: State, t: Tid, th: Thread)
    requires t < |s.threads|
    requires Owners(s) && Channels(s) && Owners(UpdT(s, t, th))
    requires forall d | 0 <= d < |s.chans| :: SameCounts(s.threads[t], th, d)
    requires SameMailbox(s.threads[t].pc, th.pc)
    ensures Channels(UpdT(s, t, th))
  {
    var r := UpdT(s, t, th);
    forall d | 0 <= d < |r.chans| ensures ChanInv(r, d) {
      assert ChanInv(s, d);
      CountsElsewhere(s, r, t, d);
      MailElsewhere(s, r, t, d);
    }
  }

  // ---------------------------------------------------------------- the other threads

  /** What a putter relies on about the picker it has met. */
  ghost predicate PickerKept(a: Thread, b: Thread) {
    a.pc.Picking? ==>
      && b.pc.Picking?
      && b.pc.p.box.bi == a.pc.p.box.bi
      && (Waiting(a.pc.at) && a.pc.p.box.done == 0 ==>
            && Waiting(b.pc.at) && b.pc.p.box == a.pc.p.box && b.pc.p.arr == a.pc.p.arr
            && b.got == a.got && b.posts == a.posts)
  }

  /** A mailbox that has been won stays won. */
  ghost predicate BiKept(a: Thread, b: Thread) {
    a.pc.Picking? ==> b.pc.Picking? && b.pc.p.box.bi == a.pc.p.box.bi
  }

  /** Thread u, itself unchanged, sees nothing it relies on change. */
  ghost predicate Frame(s: State, r: State, u: Tid) {
    && u < |s.threads| && |r.threads| == |s.threads| && |r.chans| == |s.chans|
    && r.guarded == s.guarded
    && r.threads[u] == s.threads[u]
    && PCShape(|s.chans|, s.threads[u].pc)
    && (forall d | 0 <= d < |s.chans| :: r.chans[d].size == s.chans[d].size && s.chans[d].log <= r.chans[d].log)
    && (forall d | 0 <= d < |s.chans| :: s.chans[d].puts <= r.chans[d].puts)
    && var pc := s.threads[u].pc;
    && ((pc.PutPostPut? || pc.PutPostDone? || pc.PutPosted? || pc.PutUnlock? || pc.PutPendTake? || pc.PutUnlockPut?
         || pc.PutDeliver?) ==>
          r.chans[pc.c].puts == s.chans[pc.c].puts)
    && (Using(pc) || Meeting(pc) ==> r.chans[pc.c].mailbox == s.chans[pc.c].mailbox)
    && (Meeting(pc) && r.chans[pc.c].mailbox.Some? ==>
          var m := r.chans[pc.c].mailbox.value;
          && m < |s.threads| && BiKept(s.threads[m], r.threads[m])
          && (Delivering(pc) ==> PickerKept(s.threads[m], r.threads[m])))
    && (pc.PutDeliver? ==> r.chans[pc.c].log == s.chans[pc.c].log)
  }

  lemma ConsumedKept(s: State, r: State, th: Thread, c: Cid, v: Value)
    requires |r.chans| == |s.chans|
    requires forall d | 0 <= d < |s.chans| :: s.chans[d].log <= r.chans[d].log
    requires Consumed(s, th, c, v)
    ensures Consumed(r, th, c, v)
  {
  }

  lemma DeliverKept(s: State, r: State, u: Tid, c: Cid)
    requires Frame(s, r, u) && Delivering(s.threads[u].pc) && s.threads[u].pc.c == c
    requires DeliverInv(s, c, s.threads[u].pc.m, s.threads[u].pc.PutPostDone?)
    ensures DeliverInv(r, c, s.threads[u].pc.m, s.threads[u].pc.PutPostDone?)
  {
    if s.threads[u].pc.PutPostDone? {
      var m := s.chans[c].mailbox.value;
      var p := s.threads[m].pc.p;
      ConsumedKept(s, r, s.threads[m], p.arr[p.box.id].value, p.box.value);
    }
  }

  lemma ThreadKept(s: State, r: State, u: Tid)
    requires Frame(s, r, u) && ThreadInv(s, u)
    ensures ThreadInv(r, u)
  {
    hide DeliverInv, PickInv, Consumed;
    var th := s.threads[u];
    match th.pc
    case PutDeliver(c, _, _) => DeliverKept(s, r, u, c);
    case PutPostDone(c, _, _, _) => DeliverKept(s, r, u, c);
    case TakePost(c, v) => ConsumedKept(s, r, th, c, v);
    case TakeUnlock(c, v) => ConsumedKept(s, r, th, c, v);
    case TakeRet(c, v) => ConsumedKept(s, r, th, c, v);
    case PutRet(c, v, nth) => assert Entered(r, c, v, nth);
    case PickRet(choices, Some((id, v))) => ConsumedKept(s, r, th, choices[id], v);
    case Picking(at, p) => PickKept(s, r, th, at, p);
    case _ =>
  }

  lemma PickKept(s: State, r: State, th: Thread, at: Stage, p: Pick)
    requires |r.chans| == |s.chans| && r.guarded == s.guarded
    requires forall d | 0 <= d < |s.chans| :: s.chans[d].log <= r.chans[d].log
    requires PickInv(s, th, at, p)
    ensures PickInv(r, th, at, p)
  {
  }

  /** t's update of c leaves alone whatever the owners of c's locks may be relying on. */
  ghost predicate Polite(c: Cid, a: Chan, b: Chan, th: Thread, th': Thread) {
    && b.size == a.size
    && a.log <= b.log && a.puts <= b.puts
    && (b.puts == a.puts || c in PutLocks(th.pc))
    && (b.mailbox == a.mailbox || c in Locks(th.pc))
    && (b.log == a.log || (c in Takes(th.pc) && !(th.pc.Picking? && Waiting(th.pc.at))))
    && (PickerKept(th, th') || Mails(th.pc) <= Locks(th.pc))
  }

  /** A channel with a mailbox has its take_lock held by the picker. */
  lemma MailOwner(s: State, c: Cid)
    requires Shape(s) && Owners(s) && c < |s.chans| && s.chans[c].mailbox.Some?
    requires MailInv(s, c)
    ensures s.chans[c].mailbox.value < |s.threads|
    ensures s.chans[c].takeLock == s.chans[c].mailbox
    ensures c in Mails(s.threads[s.chans[c].mailbox.value].pc)
  {
    var m := s.chans[c].mailbox.value;
    assert OwnersAt(s, c, m);
    MailsAreTaken(s.threads[m].pc);
  }

  lemma MailsAreTaken(pc: PC)
    ensures Mails(pc) <= Takes(pc)
  {
  }

  lemma FrameUpd(s: State, t: Tid, c: Cid, ch: Chan, th: Thread, u: Tid)
    requires Shape(s) && Owners(s) && t < |s.threads| && c < |s.chans| && u < |s.threads| && u != t
    requires MailInv(s, c) && ThreadInv(s, u)
    requires Polite(c, s.chans[c], ch, s.threads[t], th)
    ensures Frame(s, Upd(s, t, c, ch, th), u)
  {
    var pc := s.threads[u].pc;
    if Meeting(pc) {
      FrameMeeting(s, t, c, ch, th, u);
    } else {
      assert OwnersAt(s, c, u) && OwnersAt(s, c, t);
    }
  }

  lemma FrameMeeting(s: State, t: Tid, c: Cid, ch: Chan, th: Thread, u: Tid)
    requires Shape(s) && Owners(s) && t < |s.threads| && c < |s.chans| && u < |s.threads| && u != t
    requires MailInv(s, c) && ThreadInv(s, u) && Meeting(s.threads[u].pc)
    requires Polite(c, s.chans[c], ch, s.threads[t], th)
    ensures Frame(s, Upd(s, t, c, ch, th), u)
  {
    hide MailInv, ThreadInv, BiKept, PickerKept;
    var d := s.threads[u].pc.c;
    assert OwnersAt(s, d, u) && OwnersAt(s, d, t);
    if s.chans[d].mailbox.Some? { PickerMet(s, t, c, ch, th, u); }
    if s.threads[u].pc.PutDeliver? && d == c { LogMet(s, t, c, ch, th, u); }
  }

  /** Nothing is consumed from a channel whose mailbox is about to be filled: the picker has its
      take_lock, and waits. */
  lemma LogMet(s: State, t: Tid, c: Cid, ch: Chan, th: Thread, u: Tid)
    requires Shape(s) && Owners(s) && t < |s.threads| && c < |s.chans| && u < |s.threads|
    requires MailInv(s, c) && ThreadInv(s, u) && s.threads[u].pc.PutDeliver? && s.threads[u].pc.c == c
    requires Polite(c, s.chans[c], ch, s.threads[t], th)
    ensures ch.log == s.chans[c].log
  {
    hide MailInv, PickerKept;
    MailOwner(s, c);
    assert OwnersAt(s, c, t);
  }

  /** The picker whose mailbox a put has met is left as the put relies on it. */
  lemma PickerMet(s: State, t: Tid, c: Cid, ch: Chan, th: Thread, u: Tid)
    requires Shape(s) && Owners(s) && t < |s.threads| && c < |s.chans| && u < |s.threads| && u != t
    requires ThreadInv(s, u) && Meeting(s.threads[u].pc) && s.chans[s.threads[u].pc.c].mailbox.Some?
    requires Polite(c, s.chans[c], ch, s.threads[t], th)
    ensures var m, r := s.chans[s.threads[u].pc.c].mailbox.value, Upd(s, t, c, ch, th);
            && m < |s.threads| && BiKept(s.threads[m], r.threads[m])
            && (Delivering(s.threads[u].pc) ==> PickerKept(s.threads[m], r.threads[m]))
  {
    hide ThreadInv, DeliverInv;
    var d := s.threads[u].pc.c;
    assert OwnersAt(s, d, u) && OwnersAt(s, d, t);
  }

  lemma FrameUpdT(s: State, t: Tid, th: Thread, u: Tid)
    requires Shape(s) && Owners(s) && t < |s.threads| && u < |s.threads| && u != t
    requires ThreadInv(s, u)
    requires PickerKept(s.threads[t], th) || Mails(s.threads[t].pc) <= Locks(s.threads[t].pc)
    ensures Frame(s, UpdT(s, t, th), u)
  {
    var pc := s.threads[u].pc;
    if Meeting(pc) || Using(pc) {
      assert OwnersAt(s, pc.c, u) && OwnersAt(s, pc.c, t);
    }
  }

  lemma ThreadsUpd(s: State, t: Tid, c: Cid, ch: Chan, th: Thread)
    requires Shape(s) && Owners(s) && t < |s.threads| && c < |s.chans|
    requires Channels(s) && Threads(s) && Shape(Upd(s, t, c, ch, th))
    requires Polite(c, s.chans[c], ch, s.threads[t], th)
    requires ThreadInv(Upd(s, t, c, ch, th), t)
    ensures Threads(Upd(s, t, c, ch, th))
  {
    var r := Upd(s, t, c, ch, th);
    forall u | 0 <= u < |r.threads| ensures ThreadInv(r, u) {
      if u != t {
        assert ChanInv(s, c) && ThreadInv(s, u);
        FrameUpd(s, t, c, ch, th, u);
        ThreadKept(s, r, u);
      }
    }
  }

  lemma ThreadsUpdT(s: State, t: Tid, th: Thread)
    requires Shape(s) && Owners(s) && t < |s.threads|
    requires Threads(s) && Shape(UpdT(s, t, th))
    requires PickerKept(s.threads[t], th) || Mails(s.threads[t].pc) <= Locks(s.threads[t].pc)
    requires ThreadInv(UpdT(s, t, th), t)
    ensures Threads(UpdT(s, t, th))
  {
    var r := UpdT(s, t, th);
    forall u | 0 <= u < |r.threads| ensures ThreadInv(r, u) {
      if u != t {
        assert ThreadInv(s, u);
        FrameUpdT(s, t, th, u);
        ThreadKept(s, r, u);
      }
    }
  }

  // ---------------------------------------------------------------- winners

  lemma WinnersUpd(s: State, t: Tid, c: Cid, ch: Chan, th: Thread)
    requires Winners(s) && t < |s.threads| && c < |s.chans|
    requires !Delivering(th.pc)
    ensures Winners(Upd(s, t, c, ch, th))
  {
    var r := Upd(s, t, c, ch, th);
    forall u, w | 0 <= u < |r.threads| && 0 <= w < |r.threads| ensures OneWinner(r, u, w) {
      assert OneWinner(s, u, w);
    }
  }

  lemma WinnersUpdT(s: State, t: Tid, th: Thread)
    requires Winners(s) && t < |s.threads| && !Delivering(th.pc)
    ensures Winners(UpdT(s, t, th))
  {
    var r := UpdT(s, t, th);
    forall u, w | 0 <= u < |r.threads| && 0 <= w < |r.threads| ensures OneWinner(r, u, w) {
      assert OneWinner(s, u, w);
    }
  }

  // ---------------------------------------------------------------- history

  lemma TagsUpd(s: State, t: Tid, c: Cid, ch: Chan, th: Thread)
    requires Tags(s) && t < |s.threads| && c < |s.chans|
    requires ch.log == s.chans[c].log && th.op == s.threads[t].op && th.got == s.threads[t].got
    ensures Tags(Upd(s, t, c, ch, th))
  {
    var r := Upd(s, t, c, ch, th);
    forall d, k | 0 <= d < |r.chans| && 0 <= k < |r.chans[d].log| ensures EntryInv(r, d, k) {
      assert EntryInv(s, d, k);
    }
    forall u, x | 0 <= u < |r.threads| && 0 <= x < |r.threads[u].got| ensures GotInv(r, u, x) {
      assert GotInv(s, u, x);
    }
  }

  lemma TagsUpdT(s: State, t: Tid, th: Thread)
    requires Tags(s) && t < |s.threads|
    requires th.op == s.threads[t].op && th.got == s.threads[t].got
    ensures Tags(UpdT(s, t, th))
  {
    var r := UpdT(s, t, th);
    forall d, k | 0 <= d < |r.chans| && 0 <= k < |r.chans[d].log| ensures EntryInv(r, d, k) {
      assert EntryInv(s, d, k);
    }
    forall u, x | 0 <= u < |r.threads| && 0 <= x < |r.threads[u].got| ensures GotInv(r, u, x) {
      assert GotInv(s, u, x);
    }
  }

  /** One consumption recorded on both sides. */
  lemma TagsTaken(s: State, t: Tid, c: Cid, ch: Chan, th: Thread, v: Value)
    requires Tags(s) && t < |s.threads| && c < |s.chans|
    requires ch.log == s.chans[c].log + [Entry(v, t, s.threads[t].op)]
    requires th.op == s.threads[t].op && th.got == s.threads[t].got + [(c, |s.chans[c].log|)]
    ensures Tags(Upd(s, t, c, ch, th))
  {
    var r := Upd(s, t, c, ch, th);
    forall d, k | 0 <= d < |r.chans| && 0 <= k < |r.chans[d].log| ensures EntryInv(r, d, k) {
      if d == c && k == |s.chans[c].log| {
        assert th.got[|s.threads[t].got|] == (c, k);
      } else {
        assert EntryInv(s, d, k);
        GotGrows(s.threads[t].got, (c, |s.chans[c].log|), (d, k));
      }
    }
    forall u, x | 0 <= u < |r.threads| && 0 <= x < |r.threads[u].got| ensures GotInv(r, u, x) {
      if !(u == t && x == |s.threads[t].got|) { assert GotInv(s, u, x); }
    }
  }

  lemma GotGrows(got: seq<(Cid, nat)>, last: (Cid, nat), e: (Cid, nat))
    ensures e in got ==> e in got + [last]
  {
  }
}
