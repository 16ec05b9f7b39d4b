/** The inductive invariant of the channel protocol. */
module ChannelInvariant {
  import opened Wrappers
  import opened ChannelModel

  // ---------------------------------------------------------------- what a thread holds

  /** The channels named by entries lo .. hi of a pick's array. */
  function Span(arr: seq<Option<Cid>>, lo: int, hi: int): (r: set<Cid>) {
    set k | 0 <= k < |arr| && lo <= k < hi && arr[k].Some? :: arr[k].value
  }

  /** Channels whose take_lock a pick holds. */
  function PickTakes(at: Stage, p: Pick): (r: set<Cid>) {
    match at
    case TryTake => Span(p.arr, 0, p.i)
    case WantLock | TryPut => Span(p.arr, 0, p.i + 1)
    case ClearEarlier | FreeEarlier | FastTake | FastPost | FastUnlock | FastFree => Span(p.arr, p.j, p.i + 1)
    case Unlock | PendDone | Dead => Span(p.arr, 0, |p.arr|)
    case Relock | ClearMail | FreeTake => Span(p.arr, p.j, |p.arr|)
    case PostTake => {}
  }

  /** Channels whose lock a pick holds. */
  function PickLocks(at: Stage, p: Pick): (r: set<Cid>) {
    match at
    case TryTake | WantLock => Span(p.arr, 0, p.i)
    case TryPut => Span(p.arr, 0, p.i + 1)
    case ClearEarlier | FastTake | FastPost | FastUnlock => Span(p.arr, p.j, p.i + 1)
    case FreeEarlier => Span(p.arr, p.j + 1, p.i + 1)
    case Unlock | Dead => Span(p.arr, p.j, |p.arr|)
    case ClearMail => Span(p.arr, p.j, p.j + 1)
    case FastFree | PendDone | Relock | FreeTake | PostTake => {}
  }

  /** Channels whose mailbox pointer leads to a pick. */
  function PickMails(at: Stage, p: Pick): (r: set<Cid>) {
    match at
    case TryTake | WantLock | TryPut => Span(p.arr, 0, p.i)
    case ClearEarlier | FastTake | FastPost | FastUnlock | FastFree => Span(p.arr, p.j, p.i)
    case FreeEarlier => Span(p.arr, p.j + 1, p.i)
    case Unlock | PendDone | Dead => Span(p.arr, 0, |p.arr|)
    case Relock | ClearMail => Span(p.arr, p.j, |p.arr|)
    case FreeTake => Span(p.arr, p.j + 1, |p.arr|)
    case PostTake => {}
  }

  function Takes(pc: PC): (r: set<Cid>) {
    match pc
    case TakePend(c) => {c}
    case TakeRing(c) => {c}
    case TakePost(c, _) => {c}
    case TakeUnlock(c, _) => {c}
    case Picking(at, p) => PickTakes(at, p)
    case _ => {}
  }

  function Locks(pc: PC): (r: set<Cid>) {
    match pc
    case PutChoose(c, _) => {c}
    case PutTry(c, _, _) => {c}
    case PutLost(c, _, _) => {c}
    case PutRing(c, _) => {c}
    case PutPostPut(c, _, _) => {c}
    case PutDeliver(c, _, _) => {c}
    case PutPostDone(c, _, _, _) => {c}
    case PutPosted(c, _, _, _) => {c}
    case PutUnlock(c, _, _) => {c}
    case Picking(at, p) => PickLocks(at, p)
    case _ => {}
  }

  function PutLocks(pc: PC): (r: set<Cid>) {
    match pc
    case PutLockChan(c, _) => {c}
    case PutPendTake(c, _, _) => {c}
    case PutUnlockPut(c, _, _) => {c}
    case Picking(_, _) => {}
    case _ => Locks(pc)
  }

  function Mails(pc: PC): (r: set<Cid>) {
    match pc
    case Picking(at, p) => PickMails(at, p)
    case _ => {}
  }

  /** Lock owners and mailbox pointers are exactly what the program counters say. */
  predicate OwnersAt(s: State, c: Cid, t: Tid)
    requires c < |s.chans| && t < |s.threads|
  {
    var ch, pc := s.chans[c], s.threads[t].pc;
    && (ch.lock == Some(t) <==> c in Locks(pc))
    && (ch.putLock == Some(t) <==> c in PutLocks(pc))
    && (ch.takeLock == Some(t) <==> c in Takes(pc))
    && (ch.mailbox == Some(t) <==> c in Mails(pc))
  }

  predicate Known(s: State, o: Option<Tid>) {
    o.Some? ==> o.value < |s.threads|
  }

  ghost predicate Owners(s: State) {
    && (forall c, t | 0 <= c < |s.chans| && 0 <= t < |s.threads| :: OwnersAt(s, c, t))
    && (forall c | 0 <= c < |s.chans| ::
          Known(s, s.chans[c].lock) && Known(s, s.chans[c].putLock) &&
          Known(s, s.chans[c].takeLock) && Known(s, s.chans[c].mailbox))
  }

  // ---------------------------------------------------------------- counts

  /** A value is in the ring but its put semaphore has not been posted yet. */
  predicate Unposted(pc: PC, c: Cid) { pc.PutPostPut? && pc.c == c }

  /** A put has entered its value and not yet pended on take. */
  predicate Pending(pc: PC, c: Cid) {
    (pc.PutPostPut? || pc.PutPostDone? || pc.PutPosted? || pc.PutUnlock? || pc.PutPendTake?) && pc.c == c
  }

  /** A consumer has decremented put and not yet removed the value. */
  predicate Claimed(pc: PC, c: Cid) {
    || (pc.TakeRing? && pc.c == c)
    || (pc.Picking? && (pc.at.ClearEarlier? || pc.at.FreeEarlier? || pc.at.FastTake?)
        && pc.p.i < |pc.p.arr| && pc.p.arr[pc.p.i] == Some(c))
  }

  /** A consumption from c has not been answered by a post of its take semaphore. */
  predicate Owes(th: Thread, c: Cid) {
    |th.posts| < |th.got| && th.got[|th.posts|].0 == c
  }

  function Owing(threads: seq<Thread>, c: Cid): (r: set<Tid>) {
    set t | 0 <= t < |threads| && Owes(threads[t], c)
  }

  function One(b: bool): nat { if b then 1 else 0 }

  function UnpostedN(s: State, c: Cid): nat
    requires c < |s.chans|
  {
    var o := s.chans[c].lock;
    One(o.Some? && o.value < |s.threads| && Unposted(s.threads[o.value].pc, c))
  }

  function PendingN(s: State, c: Cid): nat
    requires c < |s.chans|
  {
    var o := s.chans[c].putLock;
    One(o.Some? && o.value < |s.threads| && Pending(s.threads[o.value].pc, c))
  }

  function ClaimedN(s: State, c: Cid): nat
    requires c < |s.chans|
  {
    var o := s.chans[c].takeLock;
    One(o.Some? && o.value < |s.threads| && Claimed(s.threads[o.value].pc, c))
  }

  // ---------------------------------------------------------------- channels

  /** The ring holds exactly the values put and not yet consumed, in order. */
  predicate RingInv(ch: Chan) {
    && ChanShape(ch)
    && |ch.log| <= |ch.puts| <= |ch.log| + ch.size + 1
    && ch.last == ch.Slot(ch.Occupancy())
    && (forall k | 0 <= k < ch.Occupancy() :: ch.slots[ch.Slot(k)] == ch.puts[|ch.log| + k])
    && (forall k | 0 <= k < |ch.log| :: ch.log[k].v == ch.puts[k])
  }

  predicate CountInv(s: State, c: Cid)
    requires c < |s.chans|
  {
    var ch := s.chans[c];
    && ch.Occupancy() == ch.put + UnpostedN(s, c) + ClaimedN(s, c)
    && ch.take + ch.Occupancy() + |Owing(s.threads, c)| == ch.size + PendingN(s, c)
  }

  /** A mailbox pointer leads to a live picker, at the entry that names this channel, and while
      the mailbox is still open the ring is empty. */
  predicate MailInv(s: State, c: Cid)
    requires c < |s.chans|
  {
    var ch := s.chans[c];
    ch.mailbox.Some? ==>
      var m := ch.mailbox.value;
      && MailboxAlive(s, m)
      && ch.id < |s.threads[m].pc.p.arr|
      && ch.id < Won(s.threads[m].pc.at, s.threads[m].pc.p)
      && s.threads[m].pc.p.arr[ch.id] == Some(c)
      && (BoxOf(s, m).bi == 1 ==> ch.Occupancy() == 0)
  }

  predicate ChanInv(s: State, c: Cid)
    requires c < |s.chans|
  {
    RingInv(s.chans[c]) && CountInv(s, c) && MailInv(s, c)
  }

  // ---------------------------------------------------------------- threads

  predicate Scanning(at: Stage) { at.TryTake? || at.WantLock? || at.TryPut? }

  predicate Waiting(at: Stage) { at.Unlock? || at.PendDone? || at.Dead? }

  predicate Fast(at: Stage) {
    at.ClearEarlier? || at.FreeEarlier? || at.FastTake? || at.FastPost? || at.FastUnlock? || at.FastFree?
  }

  /** How far the array has been scanned. */
  function Won(at: Stage, p: Pick): (r: nat) {
    if at.TryTake? then p.i else if Scanning(at) || Fast(at) then p.i + 1 else |p.arr|
  }

  predicate Distinct(arr: seq<Option<Cid>>, hi: nat) {
    forall k, l | 0 <= k < l < hi && l < |arr| && arr[k].Some? && arr[l].Some? :: arr[k] != arr[l]
  }

  /** The current operation consumed exactly one value, v, and it came from c. */
  predicate Consumed(s: State, th: Thread, c: Cid, v: Value) {
    && |th.got| == 1
    && th.got[0].0 == c
    && c < |s.chans|
    && th.got[0].1 < |s.chans[c].log|
    && s.chans[c].log[th.got[0].1].v == v
  }

  predicate Untouched(th: Thread) { th.got == [] && th.posts == [] }

  predicate Delivered(s: State, th: Thread, p: Pick, id: nat, v: Value) {
    && id < |p.arr|
    && p.arr[id].Some?
    && Consumed(s, th, p.arr[id].value, v)
    && th.posts == []
  }

  predicate BoxInv(s: State, th: Thread, at: Stage, p: Pick) {
    if Scanning(at) || at.ClearEarlier? || at.FreeEarlier? || at.FastTake? then
      p.box.bi == 1 && p.box.done == 0 && Untouched(th)
    else if Fast(at) then
      && p.box.bi == 1 && p.box.done == 0
      && p.id == p.i < |p.arr| && p.arr[p.i].Some?
      && Consumed(s, th, p.arr[p.i].value, p.value)
      && th.posts == if at.FastPost? then [] else [p.arr[p.i].value]
    else if Waiting(at) then
      && p.box.bi <= 1 && p.box.done <= 1 && th.posts == []
      && (p.box.bi == 1 ==> p.box.done == 0 && th.got == [])
      && (p.box.done == 1 ==> Delivered(s, th, p, p.box.id, p.box.value))
    else
      p.box.bi == 0 && p.box.done == 0 && Delivered(s, th, p, p.id, p.value)
  }

  predicate AnyWon(arr: seq<Option<Cid>>) { exists k :: 0 <= k < |arr| && arr[k].Some? }

  predicate PickInv(s: State, th: Thread, at: Stage, p: Pick) {
    && Distinct(p.arr, Won(at, p))
    && (Scanning(at) ==> (p.count == 0 <==> forall k | 0 <= k < p.i && k < |p.arr| :: p.arr[k].None?))
    && (at.Relock? || at.PendDone? || at.PostTake? || at.ClearMail? || at.FreeTake? ==>
          s.guarded || forall k | 0 <= k < |p.arr| :: p.arr[k].Some?)
    && (at.Unlock? ==> s.guarded || forall k | 0 <= k < p.j && k < |p.arr| :: p.arr[k].Some?)
    && (at.Dead? ==> !s.guarded)
    && (at.Unlock? || at.Dead? ==> AnyWon(p.arr))
    && BoxInv(s, th, at, p)
  }

  /** The put's value is the nth ever put on its channel. */
  predicate Entered(s: State, c: Cid, v: Value, nth: nat) {
    c < |s.chans| && 0 < nth <= |s.chans[c].puts| && s.chans[c].puts[nth - 1] == v
  }

  /** A put that has won a mailbox and is filling it. */
  predicate Delivering(pc: PC) { pc.PutDeliver? || pc.PutPostDone? }

  /** A put that has, or may have, a hand on the mailbox of picker pc.m. */
  predicate Using(pc: PC) { pc.PutTry? || pc.PutLost? || Delivering(pc) || pc.PutPosted? }

  /** A put that has found the mailbox won, by itself or another. */
  predicate Meeting(pc: PC) { pc.PutLost? || pc.PutRing? || Delivering(pc) }

  /** The put that is talking to a mailbox: its picker is waiting, open to nobody else. */
  predicate DeliverInv(s: State, c: Cid, m: Tid, written: bool) {
    && c < |s.chans| && StillThere(s, c, m)
    && Waiting(s.threads[m].pc.at)
    && BoxOf(s, m).bi == 0 && BoxOf(s, m).done == 0
    && (if written then Delivered(s, s.threads[m], s.threads[m].pc.p, BoxOf(s, m).id, BoxOf(s, m).value)
        else s.threads[m].got == [] && s.chans[c].Occupancy() == 0)
  }

  predicate ThreadInv(s: State, t: Tid)
    requires t < |s.threads|
    requires PCShape(|s.chans|, s.threads[t].pc)
  {
    var th := s.threads[t];
    match th.pc
    case Idle => Untouched(th)
    case PutLockPut(_, _) => Untouched(th)
    case PutLockChan(_, _) => Untouched(th)
    case PutChoose(_, _) => Untouched(th)
    case PutTry(c, _, m) => Untouched(th) && s.chans[c].mailbox == Some(m)
    case PutLost(c, _, m) => Untouched(th) && StillThere(s, c, m) && BoxOf(s, m).bi == 0
    case PutRing(c, _) =>
      && Untouched(th)
      && (s.chans[c].mailbox.Some? ==>
            MailboxAlive(s, s.chans[c].mailbox.value) && BoxOf(s, s.chans[c].mailbox.value).bi == 0)
    case PutPostPut(c, v, nth) => Untouched(th) && Entered(s, c, v, nth) && nth == |s.chans[c].puts|
    case PutDeliver(c, _, m) => Untouched(th) && DeliverInv(s, c, m, false)
    case PutPostDone(c, v, nth, m) => Untouched(th) && Entered(s, c, v, nth) && nth == |s.chans[c].puts|
      && DeliverInv(s, c, m, true)
    case PutPosted(c, v, nth, m) => Untouched(th) && Entered(s, c, v, nth) && nth == |s.chans[c].puts|
      && s.chans[c].mailbox == Some(m)
    case PutUnlock(c, v, nth) => Untouched(th) && Entered(s, c, v, nth) && nth == |s.chans[c].puts|
    case PutPendTake(c, v, nth) => Untouched(th) && Entered(s, c, v, nth) && nth == |s.chans[c].puts|
    case PutUnlockPut(c, v, nth) => Untouched(th) && Entered(s, c, v, nth) && nth == |s.chans[c].puts|
    case PutRet(c, v, nth) => Untouched(th) && Entered(s, c, v, nth) && nth <= |s.chans[c].log| + s.chans[c].size
    case TakeLockTake(_) => Untouched(th)
    case TakePend(_) => Untouched(th)
    case TakeRing(_) => Untouched(th)
    case TakePost(c, v) => Consumed(s, th, c, v) && th.posts == []
    case TakeUnlock(c, v) => Consumed(s, th, c, v) && th.posts == [c]
    case TakeRet(c, v) => Consumed(s, th, c, v) && th.posts == [c]
    case Picking(at, p) => PickInv(s, th, at, p)
    case PickRet(choices, None) => Untouched(th)
    case PickRet(choices, Some((id, v))) =>
      id < |choices| && Consumed(s, th, choices[id], v) && th.posts == [choices[id]]
    case Crashed => false
  }

  // ---------------------------------------------------------------- pairs and history

  /** The picker whose mailbox a put is using. */
  function Target(pc: PC): (m: Option<Tid>) { if Using(pc) then Some(pc.m) else None }

  /** No two puts deliver to one picker. */
  predicate OneWinner(s: State, u: Tid, w: Tid)
    requires u < |s.threads| && w < |s.threads|
  {
    var a, b := s.threads[u].pc, s.threads[w].pc;
    u != w && Delivering(a) && Delivering(b) ==> a.m != b.m
  }

  /** Log entry k of channel c is attributed to the operation that recorded it. */
  predicate EntryInv(s: State, c: Cid, k: nat)
    requires c < |s.chans| && k < |s.chans[c].log|
  {
    var e := s.chans[c].log[k];
    && e.who < |s.threads|
    && e.op <= s.threads[e.who].op
    && (e.op == s.threads[e.who].op ==> (c, k) in s.threads[e.who].got)
  }

  predicate GotInv(s: State, t: Tid, x: nat)
    requires t < |s.threads| && x < |s.threads[t].got|
  {
    var e := s.threads[t].got[x];
    && e.0 < |s.chans|
    && e.1 < |s.chans[e.0].log|
    && s.chans[e.0].log[e.1].who == t
    && s.chans[e.0].log[e.1].op == s.threads[t].op
  }

  ghost predicate Tags(s: State) {
    && (forall c, k | 0 <= c < |s.chans| && 0 <= k < |s.chans[c].log| :: EntryInv(s, c, k))
    && (forall t, x | 0 <= t < |s.threads| && 0 <= x < |s.threads[t].got| :: GotInv(s, t, x))
  }

  ghost predicate Channels(s: State) {
    forall c | 0 <= c < |s.chans| :: ChanInv(s, c)
  }

  ghost predicate Threads(s: State)
    requires Shape(s)
  {
    forall t | 0 <= t < |s.threads| :: ThreadInv(s, t)
  }

  ghost predicate Winners(s: State) {
    forall u, w | 0 <= u < |s.threads| && 0 <= w < |s.threads| :: OneWinner(s, u, w)
  }

  ghost predicate Inv(s: State) {
    Shape(s) && Owners(s) && Channels(s) && Threads(s) && Winners(s) && Tags(s)
  }
}
