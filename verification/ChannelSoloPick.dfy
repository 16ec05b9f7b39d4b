/** Which picks die in the unlock loop as it is written, told by what a caller can see beforehand:
    the channels listed, and the state of their locks and semaphores. */
module ChannelSoloPick {
  import opened Wrappers
  import opened ChannelModel
  import opened ChannelInvariant
  import opened ChannelTheorems

  predicate Differ(choices: seq<Cid>) { forall j, k | 0 <= j < k < |choices| :: choices[j] != choices[k] }

  /** As written, under any interleaving: a pick that gets past the unlock loop listed no channel
      twice, so one that does never gets to wait. */
  lemma WaitersListNoChannelTwice(s: State, t: Tid)
    requires Reachable(s) && !s.guarded && t < |s.threads| && s.threads[t].pc.Picking?
    requires var at := s.threads[t].pc.at;
             at.PendDone? || at.Relock? || at.ClearMail? || at.FreeTake? || at.PostTake?
    ensures Differ(s.threads[t].pc.p.choices)
  {
    ReachableInv(s);
    assert ThreadInv(s, t);
    UnguardedUnlockLoop(s, t);
    var p := s.threads[t].pc.p;
    forall j, k | 0 <= j < k < |p.choices| ensures p.choices[j] != p.choices[k] {
      assert p.arr[j] == Some(p.choices[j]) && p.arr[k] == Some(p.choices[k]);
    }
  }

  // ---------------------------------------------------------------- a pick that runs alone

  /** Entry k of the list is won by a pick that starts in s and runs alone: its channel's take_lock
      is free, and not taken for an earlier entry. */
  predicate Wins(s: State, choices: seq<Cid>, k: nat)
    requires k < |choices|
  {
    choices[k] < |s.chans| && s.chans[choices[k]].takeLock.None? && choices[k] !in choices[..k]
  }

  /** A channel nobody holds the lock of, with nothing in it to take. */
  predicate Quiet(s: State, c: Cid) { c < |s.chans| && s.chans[c].lock.None? && s.chans[c].put == 0 }

  /** Some entries are won and some are not, and every channel won is quiet. */
  predicate DiesAlone(s: State, choices: seq<Cid>) {
    && (exists k :: 0 <= k < |choices| && Wins(s, choices, k))
    && (exists k :: 0 <= k < |choices| && !Wins(s, choices, k))
    && (forall k | 0 <= k < |choices| && Wins(s, choices, k) :: Quiet(s, choices[k]))
  }

  predicate Dead(s: State, t: Tid) {
    t < |s.threads| && s.threads[t].pc.Picking? && s.threads[t].pc.at.Dead?
  }

  /** The pick is on a way out that does not lead to the death. */
  predicate Past(pc: PC) {
    || pc.PickRet? || pc.Crashed?
    || (pc.Picking? &&
        (Fast(pc.at) || pc.at.PendDone? || pc.at.Relock? || pc.at.ClearMail? || pc.at.FreeTake? || pc.at.PostTake?))
  }

  /** The first n entries are as the scan leaves them. */
  predicate Sorted(s: State, choices: seq<Cid>, p: Pick, n: nat) {
    && n <= |choices| && p.choices == choices && |p.arr| == |choices|
    && forall k | 0 <= k < n :: (p.arr[k].Some? <==> Wins(s, choices, k)) && (p.arr[k].Some? ==> Quiet(s, choices[k]))
  }

  /** Channels not listed so far are untouched; the others' take_locks are taken. */
  predicate Untaken(s: State, r: State, seen: seq<Cid>) {
    forall c | 0 <= c < |s.chans| && c < |r.chans| ::
      if c in seen then r.chans[c].takeLock.Some? else r.chans[c] == s.chans[c]
  }

  predicate ScanAt(s: State, r: State, t: Tid, choices: seq<Cid>, at: Stage, p: Pick) {
    && p.i <= |choices| && Sorted(s, choices, p, p.i)
    && (forall k | p.i <= k < |choices| :: p.arr[k] == Some(choices[k]))
    && (p.count == 0 <==> forall k | 0 <= k < p.i :: !Wins(s, choices, k))
    && if at.TryTake? then Untaken(s, r, choices[..p.i])
       else
         && p.i < |choices| && Wins(s, choices, p.i)
         && var c := choices[p.i];
         && c < |r.chans|
         && Untaken(s, r.(chans := r.chans[c := s.chans[c]]), choices[..p.i])
         && r.chans[c] == (if at.WantLock? then s.chans[c].(takeLock := Some(t))
                           else s.chans[c].(takeLock := Some(t), lock := Some(t)))
         && (at.TryPut? ==> s.chans[c].lock.None?)
  }

  /** Where a pick that started in s and has run alone can be. */
  predicate Solo(s: State, r: State, t: Tid, choices: seq<Cid>) {
    && |r.chans| == |s.chans| && t < |r.threads| && !r.guarded
    && (forall k | 0 <= k < |choices| :: choices[k] < |s.chans|)
    && var pc := r.threads[t].pc;
    && (Past(pc)
        || (pc.Picking? && Scanning(pc.at) && ScanAt(s, r, t, choices, pc.at, pc.p))
        || (pc.Picking? && (pc.at.Unlock? || pc.at.Dead?) && Sorted(s, choices, pc.p, |choices|)
            && exists k :: 0 <= k < |choices| && Wins(s, choices, k)))
  }

  lemma SoloTryTake(s: State, r: State, t: Tid, choices: seq<Cid>)
    requires Shape(r) && Enabled(r, t) && Solo(s, r, t, choices)
    requires r.threads[t].pc.Picking? && r.threads[t].pc.at.TryTake?
    ensures Solo(s, StepScan(r, t), t, choices)
  {
    var p := r.threads[t].pc.p;
    ScanFacts(s, r, t, choices);
    hide ScanAt, Shape;
    if p.i == |p.arr| {
      SoloScanned(s, r, t, choices);
    } else if r.chans[choices[p.i]].takeLock.Some? {
      SoloLost(s, r, t, choices);
    } else {
      SoloWon(s, r, t, choices);
    }
  }

  lemma SoloScanned(s: State, r: State, t: Tid, choices: seq<Cid>)
    requires Shape(r) && Enabled(r, t) && Solo(s, r, t, choices)
    requires r.threads[t].pc.Picking? && r.threads[t].pc.at.TryTake? && r.threads[t].pc.p.i == |r.threads[t].pc.p.arr|
    ensures Solo(s, StepScan(r, t), t, choices)
  {
  }

  /** One more entry sorted. */
  lemma SortedNext(s: State, choices: seq<Cid>, p: Pick, q: Pick)
    requires Sorted(s, choices, p, p.i) && p.i < |choices|
    requires q.choices == choices && q.i == p.i + 1
    requires q.arr == if Wins(s, choices, p.i) then p.arr else p.arr[p.i := None]
    requires Wins(s, choices, p.i) ==> p.arr[p.i].Some? && Quiet(s, choices[p.i])
    ensures Sorted(s, choices, q, q.i)
  {
  }

  lemma SeenNext(choices: seq<Cid>, i: nat)
    requires i < |choices|
    ensures forall c :: c in choices[..i + 1] <==> c in choices[..i] || c == choices[i]
  {
    assert choices[..i + 1] == choices[..i] + [choices[i]];
  }

  /** What a scanning pick's description says, and the entry it is at. */
  lemma ScanFacts(s: State, r: State, t: Tid, choices: seq<Cid>)
    requires Shape(r) && Solo(s, r, t, choices) && t < |r.threads|
    requires r.threads[t].pc.Picking? && Scanning(r.threads[t].pc.at)
    ensures var at, p := r.threads[t].pc.at, r.threads[t].pc.p;
            && ScanAt(s, r, t, choices, at, p) && |p.arr| == |choices| && p.choices == choices
            && |r.chans| == |s.chans|
            && (p.i < |choices| ==> p.arr[p.i] == Some(choices[p.i]) && choices[p.i] < |r.chans|)
  {
  }

  /** The pick goes on scanning. */
  lemma ScansOn(s: State, r: State, t: Tid, choices: seq<Cid>, q: State, at: Stage, p: Pick)
    requires Solo(s, r, t, choices) && |q.chans| == |r.chans| && q.guarded == r.guarded && t < |q.threads|
    requires q.threads[t].pc == Picking(at, p) && Scanning(at) && ScanAt(s, q, t, choices, at, p)
    ensures Solo(s, q, t, choices)
  {
  }

  lemma LostStep(r: State, t: Tid)
    requires Shape(r) && Enabled(r, t) && r.threads[t].pc.Picking? && r.threads[t].pc.at.TryTake?
    requires var p := r.threads[t].pc.p;
             p.i < |p.arr| && p.arr[p.i].Some? && p.arr[p.i].value < |r.chans|
               && r.chans[p.arr[p.i].value].takeLock.Some?
    ensures var p := r.threads[t].pc.p;
            StepScan(r, t) == SetPC(r, t, Picking(TryTake, p.(arr := p.arr[p.i := None], i := p.i + 1)))
  {
  }

  lemma MissStep(r: State, t: Tid)
    requires Shape(r) && Enabled(r, t) && r.threads[t].pc.Picking? && r.threads[t].pc.at.TryPut?
    requires var p := r.threads[t].pc.p;
             p.i < |p.arr| && p.arr[p.i].Some? && p.arr[p.i].value < |r.chans| && r.chans[p.arr[p.i].value].put == 0
    ensures var p := r.threads[t].pc.p; var c := p.arr[p.i].value;
            StepScan(r, t) == SetPC(SetC(r, c, r.chans[c].(id := p.i, mailbox := Some(t))), t,
                                    Picking(TryTake, p.(i := p.i + 1, count := p.count + 1)))
  {
  }

  lemma ScanLost(s: State, r: State, t: Tid, choices: seq<Cid>, p: Pick, q: State)
    requires ScanAt(s, r, t, choices, TryTake, p) && p.i < |choices| && |p.arr| == |choices| && q.chans == r.chans
    requires choices[p.i] < |r.chans| == |s.chans| && r.chans[choices[p.i]].takeLock.Some?
    ensures ScanAt(s, q, t, choices, TryTake, p.(arr := p.arr[p.i := None], i := p.i + 1))
  {
    assert !Wins(s, choices, p.i);
    SortedNext(s, choices, p, p.(arr := p.arr[p.i := None], i := p.i + 1));
    SeenNext(choices, p.i);
    hide Sorted, Wins;
  }

  lemma ScanMiss(s: State, r: State, t: Tid, choices: seq<Cid>, p: Pick, q: State)
    requires ScanAt(s, r, t, choices, TryPut, p) && |p.arr| == |choices| && |r.chans| == |s.chans|
    requires r.chans[choices[p.i]].put == 0
    requires var c := choices[p.i]; q.chans == r.chans[c := r.chans[c].(id := p.i, mailbox := Some(t))]
    ensures ScanAt(s, q, t, choices, TryTake, p.(i := p.i + 1, count := p.count + 1))
  {
    SortedNext(s, choices, p, p.(i := p.i + 1, count := p.count + 1));
    SeenNext(choices, p.i);
    hide Sorted, Wins;
  }

  lemma SoloLost(s: State, r: State, t: Tid, choices: seq<Cid>)
    requires t < |r.threads| && Shape(r) && Enabled(r, t) && Solo(s, r, t, choices)
    requires r.threads[t].pc.Picking? && r.threads[t].pc.at.TryTake? && r.threads[t].pc.p.i < |choices|
    requires choices[r.threads[t].pc.p.i] < |r.chans| && r.chans[choices[r.threads[t].pc.p.i]].takeLock.Some?
    ensures Solo(s, StepScan(r, t), t, choices)
  {
    hide Solo, ScanAt, Shape, Enabled, StepScan;
    var p := r.threads[t].pc.p;
    ScanFacts(s, r, t, choices);
    LostStep(r, t);
    ScanLost(s, r, t, choices, p, StepScan(r, t));
    ScansOn(s, r, t, choices, StepScan(r, t), TryTake, p.(arr := p.arr[p.i := None], i := p.i + 1));
  }

  lemma SoloWon(s: State, r: State, t: Tid, choices: seq<Cid>)
    requires Shape(r) && Enabled(r, t) && Solo(s, r, t, choices)
    requires r.threads[t].pc.Picking? && r.threads[t].pc.at.TryTake? && r.threads[t].pc.p.i < |choices|
    requires r.chans[choices[r.threads[t].pc.p.i]].takeLock.None?
    ensures Solo(s, StepScan(r, t), t, choices)
  {
    var c := choices[r.threads[t].pc.p.i];
    assert r.chans[c] == s.chans[c];
  }

  lemma SoloWantLock(s: State, r: State, t: Tid, choices: seq<Cid>)
    requires Shape(r) && Enabled(r, t) && Solo(s, r, t, choices)
    requires r.threads[t].pc.Picking? && r.threads[t].pc.at.WantLock?
    ensures Solo(s, StepScan(r, t), t, choices)
  {
    hide Sorted, Wins, Quiet;
    assert r.threads[t].pc.p.arr[r.threads[t].pc.p.i] == Some(choices[r.threads[t].pc.p.i]);
    hide Shape;
  }

  lemma SoloTryPut(s: State, r: State, t: Tid, choices: seq<Cid>)
    requires t < |r.threads| && Shape(r) && Enabled(r, t) && Solo(s, r, t, choices)
    requires r.threads[t].pc.Picking? && r.threads[t].pc.at.TryPut?
    ensures Solo(s, StepScan(r, t), t, choices)
  {
    hide Solo, ScanAt, Shape, Enabled, StepScan;
    var p := r.threads[t].pc.p;
    ScanFacts(s, r, t, choices);
    TryPutPlace(s, r, t, choices, p);
    if r.chans[choices[p.i]].put > 0 {
      SoloHit(s, r, t, choices);
    } else {
      MissStep(r, t);
      ScanMiss(s, r, t, choices, p, StepScan(r, t));
      ScansOn(s, r, t, choices, StepScan(r, t), TryTake, p.(i := p.i + 1, count := p.count + 1));
    }
  }

  lemma TryPutPlace(s: State, r: State, t: Tid, choices: seq<Cid>, p: Pick)
    requires ScanAt(s, r, t, choices, TryPut, p)
    ensures p.i < |choices| && choices[p.i] < |r.chans|
  {
  }

  lemma SoloHit(s: State, r: State, t: Tid, choices: seq<Cid>)
    requires Shape(r) && Enabled(r, t) && Solo(s, r, t, choices)
    requires r.threads[t].pc.Picking? && r.threads[t].pc.at.TryPut?
    requires var p := r.threads[t].pc.p;
             p.i < |p.arr| && p.arr[p.i].Some? && p.arr[p.i].value < |r.chans| && r.chans[p.arr[p.i].value].put > 0
    ensures Solo(s, StepScan(r, t), t, choices)
  {
    hide ScanAt, Shape;
  }

  lemma SoloUnlock(s: State, r: State, t: Tid, choices: seq<Cid>)
    requires t < |r.threads| && Shape(r) && Enabled(r, t) && Solo(s, r, t, choices)
    requires r.threads[t].pc.Picking? && r.threads[t].pc.at.Unlock?
    ensures Solo(s, StepSlow(r, t), t, choices)
  {
    hide ScanAt, Wins;
  }

  /** There is no way back. */
  lemma PastStays(r: State, t: Tid)
    requires t < |r.threads| && Shape(r) && Enabled(r, t) && Past(r.threads[t].pc)
    ensures var q := Step(r, t);
            && |q.chans| == |r.chans| && q.guarded == r.guarded && t < |q.threads| && Past(q.threads[t].pc)
  {
    assert PCShape(|r.chans|, r.threads[t].pc);
  }

  /** Every step the pick takes alone keeps the description. */
  lemma SoloStep(s: State, r: State, t: Tid, choices: seq<Cid>)
    requires t < |r.threads| && Shape(r) && Enabled(r, t) && Solo(s, r, t, choices)
    ensures Solo(s, Step(r, t), t, choices)
  {
    hide ScanAt, Shape, Wins, Sorted, StepScan, StepSlow, StepFast;
    var pc := r.threads[t].pc;
    if Past(pc) {
      PastStays(r, t);
    } else if pc.at.TryTake? {
      SoloTryTake(s, r, t, choices);
    } else if pc.at.WantLock? {
      SoloWantLock(s, r, t, choices);
    } else if pc.at.TryPut? {
      SoloTryPut(s, r, t, choices);
    } else {
      SoloUnlock(s, r, t, choices);
    }
  }

  lemma {:induction false} SoloRun(s: State, r: State, t: Tid, choices: seq<Cid>, n: nat)
    requires Solo(s, r, t, choices) && IsRun(r, Goes(t, n))
    ensures Solo(s, After(r, Goes(t, n)), t, choices)
    decreases n
  {
    if n == 0 {
    } else {
      assert Goes(t, n)[0] == Go(t) && Goes(t, n)[1..] == Goes(t, n - 1);
      SoloStep(s, r, t, choices);
      SoloRun(s, Apply(r, Go(t)), t, choices, n - 1);
    }
  }

  /** How far a scanning pick still has to go. */
  function Ahead(pc: PC): (n: nat)
    requires pc.Picking? && pc.p.i <= |pc.p.arr|
  {
    3 * (|pc.p.arr| - pc.p.i) + (if pc.at.TryTake? then 2 else if pc.at.WantLock? then 1 else 0)
  }

  /** One step of a scan that will end in the death: it can be taken, and the scan goes on or is over
      with the unlock loop still to come. */
  lemma DoomedStep(s: State, r: State, t: Tid, choices: seq<Cid>)
    requires Shape(r) && Solo(s, r, t, choices) && DiesAlone(s, choices)
    requires r.threads[t].pc.Picking? && Scanning(r.threads[t].pc.at)
    ensures Enabled(r, t) && r.threads[t].pc.p.i <= |r.threads[t].pc.p.arr|
    ensures Advances(r.threads[t].pc, StepScan(r, t), t)
  {
    hide Untaken, Sorted, DiesAlone;
    ScanFacts(s, r, t, choices);
    ScanQuiet(s, choices);
    if r.threads[t].pc.at.TryTake? && r.threads[t].pc.p.i < |choices| {
    } else if r.threads[t].pc.at.TryTake? {
      SomeCounted(s, r, t, choices, r.threads[t].pc.p);
    } else {
      assert Quiet(s, choices[r.threads[t].pc.p.i]);
    }
  }

  lemma ScanQuiet(s: State, choices: seq<Cid>)
    requires DiesAlone(s, choices)
    ensures forall k | 0 <= k < |choices| && Wins(s, choices, k) :: Quiet(s, choices[k])
  {
  }

  lemma SomeCounted(s: State, r: State, t: Tid, choices: seq<Cid>, p: Pick)
    requires ScanAt(s, r, t, choices, TryTake, p) && p.i == |choices| && DiesAlone(s, choices)
    ensures p.count != 0
  {
  }

  /** The scan goes on, nearer its end, or the unlock loop begins. */
  predicate Advances(pc: PC, q: State, t: Tid)
    requires pc.Picking? && pc.p.i <= |pc.p.arr|
  {
    && t < |q.threads| && q.threads[t].pc.Picking? && q.threads[t].pc.p.i <= |q.threads[t].pc.p.arr|
    && ((Scanning(q.threads[t].pc.at) && Ahead(q.threads[t].pc) < Ahead(pc))
        || (q.threads[t].pc.at.Unlock? && q.threads[t].pc.p.j == 0))
  }

  lemma InvShape(r: State)
    requires Inv(r)
    ensures Shape(r)
  {
  }

  lemma EntryLost(s: State, q: State, t: Tid, choices: seq<Cid>)
    requires Solo(s, q, t, choices) && DiesAlone(s, choices)
    requires q.threads[t].pc.Picking? && q.threads[t].pc.at.Unlock? && q.threads[t].pc.p.j == 0
    ensures !q.guarded && exists k :: 0 <= k < |q.threads[t].pc.p.arr| && q.threads[t].pc.p.arr[k].None?
  {
    var k :| 0 <= k < |choices| && !Wins(s, choices, k);
    assert q.threads[t].pc.p.arr[k].None?;
  }

  /** A scan that will end in the death gets there. */
  lemma {:induction false} Doomed(s: State, r: State, t: Tid, choices: seq<Cid>) returns (n: nat)
    requires t < |r.threads| && Inv(r) && Solo(s, r, t, choices) && DiesAlone(s, choices)
    requires r.threads[t].pc.Picking? && Scanning(r.threads[t].pc.at) && r.threads[t].pc.p.i <= |r.threads[t].pc.p.arr|
    ensures IsRun(r, Goes(t, n)) && Dead(After(r, Goes(t, n)), t)
    decreases Ahead(r.threads[t].pc)
  {
    hide *;
    InvShape(r);
    DoomedStep(s, r, t, choices);
    GoIs(r, t);
    var q := Apply(r, Go(t));
    ActionKeepsInv(r, Go(t));
    SoloStep(s, r, t, choices);
    AdvancesTo(r.threads[t].pc, q, t);
    var m: nat;
    if q.threads[t].pc.at.Unlock? {
      EntryLost(s, q, t, choices);
      m := UnlockLoopFate(q, t);
      assert Dead(After(q, Goes(t, m)), t) by { DeadAt(After(q, Goes(t, m)), t); }
    } else {
      m := Doomed(s, q, t, choices);
    }
    n := m + 1;
    GoesOnce(r, t, m);
  }

  lemma GoIs(r: State, t: Tid)
    requires t < |r.threads| && Shape(r) && Enabled(r, t) && r.threads[t].pc.Picking? && Scanning(r.threads[t].pc.at)
    ensures Possible(r, Go(t)) && Apply(r, Go(t)) == Step(r, t) == StepScan(r, t)
  {
  }

  lemma AdvancesTo(pc: PC, q: State, t: Tid)
    requires pc.Picking? && pc.p.i <= |pc.p.arr| && Advances(pc, q, t)
    ensures t < |q.threads| && q.threads[t].pc.Picking? && q.threads[t].pc.p.i <= |q.threads[t].pc.p.arr|
    ensures q.threads[t].pc.at.Unlock? ==> q.threads[t].pc.p.j == 0
    ensures !q.threads[t].pc.at.Unlock? ==> Scanning(q.threads[t].pc.at) && Ahead(q.threads[t].pc) < Ahead(pc)
  {
  }

  lemma DeadAt(r: State, t: Tid)
    requires t < |r.threads| && r.threads[t].pc.Picking? && r.threads[t].pc.at.Dead?
    ensures Dead(r, t)
  {
  }

  lemma GoesOnce(r: State, t: Tid, m: nat)
    requires Possible(r, Go(t)) && IsRun(Apply(r, Go(t)), Goes(t, m))
    ensures IsRun(r, Goes(t, m + 1)) && After(r, Goes(t, m + 1)) == After(Apply(r, Go(t)), Goes(t, m))
  {
    hide Possible, Apply;
    assert Goes(t, m + 1)[0] == Go(t) && Goes(t, m + 1)[1..] == Goes(t, m);
  }

  lemma SoloStart(s: State, t: Tid, choices: seq<Cid>)
    requires Possible(s, Begin(t, PickFrom(choices))) && !s.guarded
    ensures var r := Apply(s, Begin(t, PickFrom(choices)));
            && Solo(s, r, t, choices) && r.threads[t].pc.Picking? && r.threads[t].pc.at.TryTake?
            && r.threads[t].pc.p.i <= |r.threads[t].pc.p.arr|
  {
  }

  /** A pick that died alone had lost an entry, won one, and found quiet what it won. */
  lemma DeadIsTold(s: State, r: State, t: Tid, choices: seq<Cid>)
    requires Inv(r) && Solo(s, r, t, choices) && Dead(r, t)
    ensures DiesAlone(s, choices)
  {
    var p := r.threads[t].pc.p;
    assert !Wins(s, choices, p.j);
  }

  /** A pick that begins in s and runs alone n steps. */
  function Alone(t: Tid, choices: seq<Cid>, n: nat): (acts: seq<Action>) {
    [Begin(t, PickFrom(choices))] + Goes(t, n)
  }

  /** As written, a pick left to run alone dies in the unlock loop if and only if, when it is called,
      it can win some of the entries it lists and not all, and the channels it can win are quiet. */
  lemma SoloPickDiesIff(s: State, t: Tid, choices: seq<Cid>)
    requires Reachable(s) && !s.guarded && Possible(s, Begin(t, PickFrom(choices)))
    ensures (exists n: nat :: IsRun(s, Alone(t, choices, n)) && Dead(After(s, Alone(t, choices, n)), t))
       <==> DiesAlone(s, choices)
  {
    hide Inv, Solo, Goes, DiesAlone, Dead;
    var r := Apply(s, Begin(t, PickFrom(choices)));
    SoloStart(s, t, choices);
    if n: nat :| IsRun(s, Alone(t, choices, n)) && Dead(After(s, Alone(t, choices, n)), t) {
      assert Alone(t, choices, n)[1..] == Goes(t, n);
      SoloRun(s, r, t, choices, n);
      ReachableInv(s);
      RunKeepsInv(s, Alone(t, choices, n));
      DeadIsTold(s, After(r, Goes(t, n)), t, choices);
    }
    if DiesAlone(s, choices) {
      ReachableInv(s);
      ActionKeepsInv(s, Begin(t, PickFrom(choices)));
      var n := Doomed(s, r, t, choices);
      assert Alone(t, choices, n)[1..] == Goes(t, n);
      assert IsRun(s, Alone(t, choices, n)) && Dead(After(s, Alone(t, choices, n)), t);
    }
  }

  // ---------------------------------------------------------------- which lists can die at all

  /** As written, under any interleaving of any threads: a pick that died had won one entry of its list
      and not another, so a pick of one channel never dies. */
  lemma DeadListsTwo(s: State, t: Tid)
    requires Reachable(s) && Dead(s, t)
    ensures |s.threads[t].pc.p.choices| >= 2
  {
    ReachableInv(s);
    assert ThreadInv(s, t);
    var p := s.threads[t].pc.p;
    var k :| 0 <= k < |p.arr| && p.arr[k].Some?;
    assert p.arr[p.j].None? && k != p.j;
  }

  /** n fresh channels, two idle threads, and the unlock loop as written. */
  predicate FreshTwo(s: State, n: nat) { Init(s) && !s.guarded && |s.chans| == n && |s.threads| == 2 }

  /** r has a dead pick from the channels listed. */
  ghost predicate DiedOf(r: State, choices: seq<Cid>) {
    exists t: nat :: Dead(r, t) && r.threads[t].pc.p.choices == choices
  }

  ghost predicate CanDie(n: nat, choices: seq<Cid>) {
    exists s, acts :: FreshTwo(s, n) && IsRun(s, acts) && DiedOf(After(s, acts), choices)
  }

  /** As written, a pick can die in some run of two threads on fresh channels if and only if it lists two
      channels or more, or one of them twice. */
  lemma CanDieIff(n: nat, choices: seq<Cid>)
    requires forall k | 0 <= k < |choices| :: choices[k] < n
    ensures CanDie(n, choices) <==> |choices| >= 2
  {
    hide IsRun, After, Init;
    if CanDie(n, choices) {
      var s, acts :| FreshTwo(s, n) && IsRun(s, acts) && DiedOf(After(s, acts), choices);
      var t: nat :| Dead(After(s, acts), t) && After(s, acts).threads[t].pc.p.choices == choices;
      DeadListsTwo(After(s, acts), t);
    }
    if |choices| >= 2 {
      var s, acts := DeathRun(n, choices);
    }
  }

  function FreshState(n: nat): (s: State) {
    State(seq(n, _ => IdleChan()), [Thread(Idle, 0, [], []), Thread(Idle, 0, [], [])], false)
  }

  /** If the list names two channels, a take on its first is begun before the pick; if it names one channel
      over and over, the pick needs nobody's help. */
  lemma DeathRun(n: nat, choices: seq<Cid>) returns (s: State, acts: seq<Action>)
    requires |choices| >= 2 && forall k | 0 <= k < |choices| :: choices[k] < n
    ensures FreshTwo(s, n) && IsRun(s, acts) && DiedOf(After(s, acts), choices)
  {
    hide *;
    s := FreshState(n);
    FreshFacts(n);
    if k :| 0 <= k < |choices| && choices[k] != choices[0] {
      var c := choices[0];
      var taker, r := TakerOn(n, c);
      LaterWins(s, r, c, choices, k);
      acts := DeathFrom(s, taker, 1, choices);
    } else {
      NothingRun(s);
      SameLost(s, choices);
      acts := DeathFrom(s, [], 1, choices);
    }
  }

  lemma FreshFacts(n: nat)
    ensures FreshTwo(FreshState(n), n) && Shape(FreshState(n)) && Init(FreshState(n)) && |FreshState(n).chans| == n
    ensures !FreshState(n).guarded
    ensures forall c | 0 <= c < n :: FreshState(n).chans[c] == IdleChan()
  {
  }

  lemma NothingRun(s: State)
    ensures IsRun(s, []) && After(s, []) == s
  {
  }

  /** r is fresh but for a take on c by thread 0, which has its take_lock. */
  predicate TakerHas(r: State, n: nat, c: Cid) {
    && Shape(r) && !r.guarded && |r.chans| == n && |r.threads| == 2 && c < n && r.threads[1].pc.Idle?
    && r.chans[c].takeLock.Some? && forall d | 0 <= d < n && d != c :: r.chans[d] == IdleChan()
  }

  lemma TakerOn(n: nat, c: Cid) returns (acts: seq<Action>, r: State)
    requires c < n
    ensures IsRun(FreshState(n), acts) && After(FreshState(n), acts) == r && TakerHas(r, n, c)
  {
    hide IsRun, After;
    var s := FreshState(n);
    var s1 := Apply(s, Begin(0, Take(c)));
    r := Apply(s1, Go(0));
    TwoRun(s, Begin(0, Take(c)), Go(0));
    acts := [Begin(0, Take(c)), Go(0)];
  }

  lemma TwoRun(s: State, a: Action, b: Action)
    requires Possible(s, a) && Possible(Apply(s, a), b)
    ensures IsRun(s, [a, b]) && After(s, [a, b]) == Apply(Apply(s, a), b)
  {
    hide Possible, Apply;
    assert [a, b][1..] == [b] && [b][1..] == [];
    NothingRun(Apply(Apply(s, a), b));
    assert IsRun(Apply(s, a), [b]) && After(Apply(s, a), [b]) == Apply(Apply(s, a), b);
  }

  lemma LaterWins(s: State, r: State, c: Cid, choices: seq<Cid>, k: nat)
    requires TakerHas(r, |s.chans|, c) && k < |choices| && choices[0] == c && choices[k] != c
    requires forall j | 0 <= j < |choices| :: choices[j] < |s.chans|
    ensures !r.guarded && DiesAlone(r, choices) && Possible(r, Begin(1, PickFrom(choices)))
  {
    assert !Wins(r, choices, 0);
    var j := FirstOther(choices);
    assert Wins(r, choices, j);
  }

  /** The first entry that is not the first channel. */
  lemma FirstOther(choices: seq<Cid>) returns (j: nat)
    requires exists k :: 0 <= k < |choices| && choices[k] != choices[0]
    ensures j < |choices| && choices[j] != choices[0] && choices[j] !in choices[..j]
  {
    j := 0;
    while j < |choices| && choices[j] == choices[0]
      invariant 0 <= j <= |choices| && forall i | 0 <= i < j :: choices[i] == choices[0]
    {
      j := j + 1;
    }
  }

  lemma SameLost(s: State, choices: seq<Cid>)
    requires Shape(s) && FreshTwo(s, |s.chans|) && |choices| >= 2
    requires forall k | 0 <= k < |choices| :: choices[k] < |s.chans| && choices[k] == choices[0]
    requires forall c | 0 <= c < |s.chans| :: s.chans[c] == IdleChan()
    ensures DiesAlone(s, choices) && Possible(s, Begin(1, PickFrom(choices)))
  {
    assert Wins(s, choices, 0);
    assert choices[..1] == [choices[0]];
    assert !Wins(s, choices, 1);
  }

  /** After a run, a pick that dies alone. */
  lemma DeathFrom(s: State, start: seq<Action>, t: Tid, choices: seq<Cid>) returns (acts: seq<Action>)
    requires Init(s) && !s.guarded && IsRun(s, start)
    requires var r := After(s, start);
             !r.guarded && DiesAlone(r, choices) && Possible(r, Begin(t, PickFrom(choices)))
    ensures IsRun(s, acts) && DiedOf(After(s, acts), choices)
  {
    hide Solo, DiesAlone, Dead, Init, Possible, Apply;
    var r := After(s, start);
    assert Reachable(r);
    SoloPickDiesIff(r, t, choices);
    var n: nat :| IsRun(r, Alone(t, choices, n)) && Dead(After(r, Alone(t, choices, n)), t);
    DeadHasList(r, t, choices, n);
    RunsConcat(s, start, Alone(t, choices, n));
    acts := start + Alone(t, choices, n);
  }

  /** The dead pick is the one that was begun. */
  lemma DeadHasList(s: State, t: Tid, choices: seq<Cid>, n: nat)
    requires !s.guarded && IsRun(s, Alone(t, choices, n)) && Dead(After(s, Alone(t, choices, n)), t)
    ensures After(s, Alone(t, choices, n)).threads[t].pc.p.choices == choices
  {
    hide Goes;
    assert Alone(t, choices, n)[0] == Begin(t, PickFrom(choices));
    assert Alone(t, choices, n)[1..] == Goes(t, n);
    SoloStart(s, t, choices);
    SoloRun(s, Apply(s, Begin(t, PickFrom(choices))), t, choices, n);
  }
}
