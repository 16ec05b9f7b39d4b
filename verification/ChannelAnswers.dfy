/** What an operation answers for: the channel, the value and the list it was begun with. */
module ChannelAnswers {
  import opened Wrappers
  import opened ChannelModel
  import opened ChannelTheorems

  /** The operation that thread t began last. */
  function LastBegun(acts: seq<Action>, t: Tid): (op: Option<Op>)
    decreases |acts|
  {
    if acts == [] then None
    else
      var last := acts[|acts| - 1];
      if last.Begin? && last.t == t then Some(last.op) else LastBegun(acts[..|acts| - 1], t)
  }

  /** The program counter is somewhere in the operation. */
  predicate Serves(pc: PC, op: Op) {
    match pc
    case Idle => false
    case TakeLockTake(c) => op == Take(c)
    case TakePend(c) => op == Take(c)
    case TakeRing(c) => op == Take(c)
    case TakePost(c, _) => op == Take(c)
    case TakeUnlock(c, _) => op == Take(c)
    case TakeRet(c, _) => op == Take(c)
    case Picking(_, p) => op == PickFrom(p.choices)
    case PickRet(choices, _) => op == PickFrom(choices)
    case Crashed => true
    case _ => op == Put(pc.c, pc.v)
  }

  predicate InService(pc: PC, op: Option<Op>) { if op.None? then pc.Idle? else Serves(pc, op.value) }

  // ---------------------------------------------------------------- steps

  lemma BegunServes(op: Op)
    ensures Serves(FirstPC(op), op)
  {
  }

  lemma OneOperation(pc: PC, a: Op, b: Op)
    requires Serves(pc, a) && Serves(pc, b) && !pc.Crashed?
    ensures a == b
  {
  }

  /** A step of t, told by its parts: t stays with its operation, and the others stay where they are, but
      for what a put leaves in a mailbox. */
  ghost predicate Stays(s: State, r: State, t: Tid)
    requires t < |s.threads|
  {
    && |r.threads| == |s.threads| && |r.chans| == |s.chans|
    && (forall op | Serves(s.threads[t].pc, op) :: Serves(r.threads[t].pc, op))
    && forall u | 0 <= u < |s.threads| && u != t :: SameService(s.threads[u].pc, r.threads[u].pc)
  }

  predicate SameService(a: PC, b: PC) {
    b == a || (a.Picking? && b.Picking? && b.p.choices == a.p.choices)
  }

  /** Only t's record changes. */
  ghost predicate Alone(s: State, r: State, t: Tid)
    requires t < |s.threads|
  {
    && |r.chans| == |s.chans| && t < |r.threads| && r.threads == s.threads[t := r.threads[t]]
    && forall op | Serves(s.threads[t].pc, op) :: Serves(r.threads[t].pc, op)
  }

  lemma AloneStays(s: State, r: State, t: Tid)
    requires t < |s.threads| && Alone(s, r, t)
    ensures Stays(s, r, t)
  {
    hide Serves;
  }

  lemma PutStays(s: State, t: Tid)
    requires Shape(s) && Enabled(s, t) && !s.threads[t].pc.Picking?
    ensures Stays(s, StepPut(s, t), t)
  {
    hide Shape, Enabled, StepPut, Serves, SameService;
    PutServes(s, t);
    PutOthers(s, t);
  }

  lemma PutServes(s: State, t: Tid)
    requires Shape(s) && Enabled(s, t) && !s.threads[t].pc.Picking?
    ensures t < |StepPut(s, t).threads|
    ensures forall op | Serves(s.threads[t].pc, op) :: Serves(StepPut(s, t).threads[t].pc, op)
  {
  }

  lemma PutOthers(s: State, t: Tid)
    requires Shape(s) && Enabled(s, t) && !s.threads[t].pc.Picking?
    ensures |StepPut(s, t).threads| == |s.threads| && |StepPut(s, t).chans| == |s.chans|
    ensures forall u | 0 <= u < |s.threads| && u != t ::
              SameService(s.threads[u].pc, StepPut(s, t).threads[u].pc)
  {
  }

  lemma TakeStays(s: State, t: Tid)
    requires Shape(s) && Enabled(s, t) && !s.threads[t].pc.Picking?
    ensures Alone(s, StepTake(s, t), t)
  {
  }

  lemma ScanStays(s: State, t: Tid)
    requires Shape(s) && Enabled(s, t) && s.threads[t].pc.Picking?
    ensures Alone(s, StepScan(s, t), t)
  {
  }

  lemma FastStays(s: State, t: Tid)
    requires Shape(s) && Enabled(s, t) && s.threads[t].pc.Picking?
    ensures Alone(s, StepFast(s, t), t)
  {
  }

  lemma SlowStays(s: State, t: Tid)
    requires Shape(s) && Enabled(s, t) && s.threads[t].pc.Picking?
    ensures Alone(s, StepSlow(s, t), t)
  {
  }

  lemma StepStays(s: State, t: Tid)
    requires Shape(s) && Enabled(s, t)
    ensures Stays(s, Step(s, t), t)
  {
    hide Shape, Enabled, StepPut, StepTake, StepScan, StepFast, StepSlow, Alone, Serves;
    NotIdle(s, t);
    if s.threads[t].pc.Picking? {
      ScanStays(s, t);
      FastStays(s, t);
      SlowStays(s, t);
      AloneStays(s, StepScan(s, t), t);
      AloneStays(s, StepFast(s, t), t);
      AloneStays(s, StepSlow(s, t), t);
    } else {
      PutStays(s, t);
      TakeStays(s, t);
      AloneStays(s, StepTake(s, t), t);
    }
  }

  lemma ActionServes(s: State, acts: seq<Action>, a: Action, u: Tid)
    requires Possible(s, a) && u < |s.threads| && InService(s.threads[u].pc, LastBegun(acts, u))
    ensures u < |Apply(s, a).threads| && InService(Apply(s, a).threads[u].pc, LastBegun(acts + [a], u))
  {
    hide Shape, Step, Enabled;
    assert (acts + [a])[..|acts|] == acts;
    match a
    case Begin(t, op) => BegunServes(op);
    case Go(t) =>
      NotIdle(s, t);
      StepStays(s, t);
  }

  lemma NotIdle(s: State, t: Tid)
    requires Shape(s) && Enabled(s, t)
    ensures t < |s.threads| && !s.threads[t].pc.Idle? && !s.threads[t].pc.Crashed?
  {
  }

  /** In every run, every thread is in the operation it began last. */
  lemma {:induction false} RunServes(s: State, acts: seq<Action>, u: Tid)
    requires Init(s) && IsRun(s, acts) && u < |s.threads|
    ensures u < |After(s, acts).threads| && InService(After(s, acts).threads[u].pc, LastBegun(acts, u))
    decreases |acts|
  {
    hide Possible, Apply, InService;
    if acts == [] {
      assert InService(s.threads[u].pc, LastBegun([], u)) by { IdleServes(s, u); }
    } else {
      var n := |acts| - 1;
      RunPrefix(s, acts, n);
      RunServes(s, acts[..n], u);
      ActionServes(After(s, acts[..n]), acts[..n], acts[n], u);
      assert acts[..n] + [acts[n]] == acts && acts[..n + 1] == acts;
    }
  }

  lemma IdleServes(s: State, u: Tid)
    requires Init(s) && u < |s.threads|
    ensures InService(s.threads[u].pc, None)
  {
  }

  /** A run up to its k-th action, and that action. */
  lemma {:induction false} RunPrefix(s: State, acts: seq<Action>, k: nat)
    requires IsRun(s, acts) && k < |acts|
    ensures IsRun(s, acts[..k]) && Possible(After(s, acts[..k]), acts[k])
    ensures IsRun(s, acts[..k + 1]) && After(s, acts[..k + 1]) == Apply(After(s, acts[..k]), acts[k])
    decreases k
  {
    hide Possible, Apply;
    if k == 0 {
      assert acts[..1] == [acts[0]] && acts[..1][1..] == [];
      NoActions(Apply(s, acts[0]));
    } else {
      RunPrefix(Apply(s, acts[0]), acts[1..], k - 1);
      assert acts[..k][0] == acts[0] && acts[..k][1..] == acts[1..][..k - 1];
      assert acts[..k + 1][0] == acts[0] && acts[..k + 1][1..] == acts[1..][..k];
    }
  }

  lemma NoActions(s: State)
    ensures IsRun(s, []) && After(s, []) == s
  {
  }

  // ---------------------------------------------------------------- what comes back

  lemma RunReaches(s: State, acts: seq<Action>)
    requires Init(s) && IsRun(s, acts)
    ensures Reachable(After(s, acts))
  {
  }

  /** A put that has returned has put the value it was given on the channel it was given, at most size
      values of which are still to be consumed before it; and on an unbuffered channel that very value
      has been consumed. */
  lemma PutAnswers(s: State, acts: seq<Action>, t: Tid, c: Cid, v: Value)
    requires Init(s) && IsRun(s, acts) && t < |s.threads| && LastBegun(acts, t) == Some(Put(c, v))
    ensures var r := After(s, acts);
            && t < |r.threads|
            && (Resting(r.threads[t].pc) ==>
                  exists nth: nat :: r.threads[t].pc == PutRet(c, v, nth) && PutHolds(r, c, v, nth))
  {
    hide IsRun, After;
    RunServes(s, acts, t);
    var r := After(s, acts);
    if Resting(r.threads[t].pc) {
      var nth := r.threads[t].pc.nth;
      RunReaches(s, acts);
      BoundedBuffering(r, t, c, v, nth);
      if r.chans[c].size == 0 { Rendezvous(r, t, c, v, nth); }
      assert r.threads[t].pc == PutRet(c, v, nth) && PutHolds(r, c, v, nth);
    }
  }

  /** v is the nth value put on c, all but `size` of the values up to it have been consumed, and with no
      buffer so has v. */
  predicate PutHolds(r: State, c: Cid, v: Value, nth: nat) {
    && c < |r.chans| && 0 < nth <= |r.chans[c].puts| && r.chans[c].puts[nth - 1] == v
    && nth - r.chans[c].size <= |r.chans[c].log|
    && (r.chans[c].size == 0 ==> nth <= |r.chans[c].log| && r.chans[c].log[nth - 1].v == v)
  }

  /** A take that has returned has consumed one value, from the channel it was given. */
  lemma TakeAnswers(s: State, acts: seq<Action>, t: Tid, c: Cid)
    requires Init(s) && IsRun(s, acts) && t < |s.threads| && LastBegun(acts, t) == Some(Take(c))
    ensures var r := After(s, acts);
            && t < |r.threads|
            && (Resting(r.threads[t].pc) ==>
                  exists v, at: nat :: r.threads[t].pc == TakeRet(c, v) && OnlyConsumption(r, t, c, at, v))
  {
    hide IsRun, After, OnlyConsumption;
    RunServes(s, acts, t);
    var r := After(s, acts);
    if Resting(r.threads[t].pc) {
      var v := r.threads[t].pc.v;
      RunReaches(s, acts);
      TakeExactlyOnce(r, t, c, v);
      var at: nat :| OnlyConsumption(r, t, c, at, v);
      assert r.threads[t].pc == TakeRet(c, v) && OnlyConsumption(r, t, c, at, v);
    }
  }

  /** A pick that has returned with an index and a value has consumed that value from the channel at that
      index of the list it was given, and nothing else; one that failed has consumed nothing. */
  lemma PickAnswers(s: State, acts: seq<Action>, t: Tid, choices: seq<Cid>)
    requires Init(s) && IsRun(s, acts) && t < |s.threads| && LastBegun(acts, t) == Some(PickFrom(choices))
    ensures var r := After(s, acts);
            && t < |r.threads|
            && (Resting(r.threads[t].pc) ==>
                  && r.threads[t].pc.PickRet? && r.threads[t].pc.choices == choices
                  && match r.threads[t].pc.result
                     case Some((id, v)) =>
                       id < |choices| && exists at: nat :: OnlyConsumption(r, t, choices[id], at, v)
                     case None =>
                       forall d, k | 0 <= d < |r.chans| && 0 <= k < |r.chans[d].log| :: !BelongsTo(r, t, d, k))
  {
    hide IsRun, After, OnlyConsumption;
    RunServes(s, acts, t);
    var r := After(s, acts);
    if Resting(r.threads[t].pc) {
      RunReaches(s, acts);
      match r.threads[t].pc.result {
        case Some((id, v)) => PickExactlyOnce(r, t, id, v);
        case None => PickFailsCleanly(r, t);
      }
    }
  }

  // ---------------------------------------------------------------- where values come from

  /** A put of v on c was begun. */
  predicate WasAsked(acts: seq<Action>, c: Cid, v: Value) {
    exists j :: 0 <= j < |acts| && acts[j].Begin? && acts[j].op == Put(c, v)
  }

  lemma {:induction false} LastWasAsked(acts: seq<Action>, t: Tid, c: Cid, v: Value)
    requires LastBegun(acts, t) == Some(Put(c, v))
    ensures WasAsked(acts, c, v)
    decreases |acts|
  {
    var n := |acts| - 1;
    if acts[n].Begin? && acts[n].t == t {
    } else {
      LastWasAsked(acts[..n], t, c, v);
      AskedBefore(acts, n, c, v);
    }
  }

  lemma AskedBefore(acts: seq<Action>, n: nat, c: Cid, v: Value)
    requires n <= |acts| && WasAsked(acts[..n], c, v)
    ensures WasAsked(acts, c, v)
  {
    var j :| 0 <= j < n && acts[..n][j].Begin? && acts[..n][j].op == Put(c, v);
    assert acts[j] == acts[..n][j];
  }

  /** A step adds to what was put on a channel at most the value of its thread's own put. */
  lemma StepPuts(s: State, t: Tid, c: Cid)
    requires Shape(s) && Enabled(s, t) && c < |s.chans|
    ensures c < |Step(s, t).chans|
    ensures var was, now := s.chans[c].puts, Step(s, t).chans[c].puts;
            now == was || (PutsOn(s.threads[t].pc, c) && now == was + [s.threads[t].pc.v])
  {
    hide Shape, Enabled, StepScan, StepFast, StepSlow, StepPut, StepTake;
    NotIdle(s, t);
    if s.threads[t].pc.Picking? {
      PickPuts(s, t, c);
    } else {
      PutPuts(s, t, c);
      TakePuts(s, t, c);
    }
  }

  predicate PutsOn(pc: PC, c: Cid) { (pc.PutRing? || pc.PutDeliver?) && pc.c == c }

  lemma PutPuts(s: State, t: Tid, c: Cid)
    requires Shape(s) && Enabled(s, t) && !s.threads[t].pc.Picking? && c < |s.chans|
    ensures var was, r := s.chans[c].puts, StepPut(s, t);
            c < |r.chans|
            && (r.chans[c].puts == was || (PutsOn(s.threads[t].pc, c) && r.chans[c].puts == was + [s.threads[t].pc.v]))
  {
  }

  lemma TakePuts(s: State, t: Tid, c: Cid)
    requires Shape(s) && Enabled(s, t) && !s.threads[t].pc.Picking? && c < |s.chans|
    ensures c < |StepTake(s, t).chans| && StepTake(s, t).chans[c].puts == s.chans[c].puts
  {
  }

  lemma PickPuts(s: State, t: Tid, c: Cid)
    requires Shape(s) && Enabled(s, t) && s.threads[t].pc.Picking? && c < |s.chans|
    ensures c < |StepScan(s, t).chans| && StepScan(s, t).chans[c].puts == s.chans[c].puts
    ensures c < |StepFast(s, t).chans| && StepFast(s, t).chans[c].puts == s.chans[c].puts
    ensures c < |StepSlow(s, t).chans| && StepSlow(s, t).chans[c].puts == s.chans[c].puts
  {
  }

  lemma ActionPuts(s: State, acts: seq<Action>, a: Action, c: Cid, i: nat)
    requires Possible(s, a) && c < |s.chans|
    requires forall u | 0 <= u < |s.threads| :: InService(s.threads[u].pc, LastBegun(acts, u))
    requires forall k | 0 <= k < |s.chans[c].puts| :: WasAsked(acts, c, s.chans[c].puts[k])
    requires c < |Apply(s, a).chans| && i < |Apply(s, a).chans[c].puts|
    ensures WasAsked(acts + [a], c, Apply(s, a).chans[c].puts[i])
  {
    hide Shape, Step, Enabled, WasAsked;
    var v := Apply(s, a).chans[c].puts[i];
    assert (acts + [a])[..|acts|] == acts;
    if a.Go? { StepPuts(s, a.t, c); }
    if i < |s.chans[c].puts| {
      AskedBefore(acts + [a], |acts|, c, v);
    } else {
      NotIdle(s, a.t);
      OneOperation(s.threads[a.t].pc, Put(c, v), LastBegun(acts, a.t).value);
      LastWasAsked(acts, a.t, c, v);
      AskedBefore(acts + [a], |acts|, c, v);
    }
  }

  /** No value comes from nowhere: whatever has been put on a channel, and so whatever is ever consumed from
      it, some thread was asked to put there. */
  lemma {:induction false} PutsWereAsked(s: State, acts: seq<Action>, c: Cid, i: nat)
    requires Init(s) && IsRun(s, acts) && c < |s.chans|
    ensures c < |After(s, acts).chans|
    ensures i < |After(s, acts).chans[c].puts| ==> WasAsked(acts, c, After(s, acts).chans[c].puts[i])
    decreases |acts|
  {
    hide Possible, Apply, InService, WasAsked, LastBegun;
    if acts == [] {
      NoPuts(s, c);
    } else {
      var n := |acts| - 1;
      RunPrefix(s, acts, n);
      assert acts[..n + 1] == acts && acts[..n] + [acts[n]] == acts;
      var r := After(s, acts[..n]);
      PutsWereAsked(s, acts[..n], c, i);
      SameSizes(s, acts[..n]);
      forall u | 0 <= u < |r.threads| ensures InService(r.threads[u].pc, LastBegun(acts[..n], u)) {
        RunServes(s, acts[..n], u);
      }
      forall k | 0 <= k < |r.chans[c].puts| ensures WasAsked(acts[..n], c, r.chans[c].puts[k]) {
        PutsWereAsked(s, acts[..n], c, k);
      }
      SameSizes(s, acts);
      if i < |After(s, acts).chans[c].puts| { ActionPuts(r, acts[..n], acts[n], c, i); }
    }
  }

  lemma NoPuts(s: State, c: Cid)
    requires Init(s) && c < |s.chans|
    ensures After(s, []) == s && s.chans[c].puts == []
  {
    assert FreshChan(s.chans[c]);
  }

  lemma {:induction false} SameSizes(s: State, acts: seq<Action>)
    requires IsRun(s, acts)
    ensures |After(s, acts).threads| == |s.threads| && |After(s, acts).chans| == |s.chans|
    decreases |acts|
  {
    if acts == [] {
    } else {
      OneSize(s, acts[0]);
      SameSizes(Apply(s, acts[0]), acts[1..]);
    }
  }

  lemma OneSize(s: State, a: Action)
    requires Possible(s, a)
    ensures |Apply(s, a).threads| == |s.threads| && |Apply(s, a).chans| == |s.chans|
  {
    hide Shape, Step, Enabled;
    if a.Go? { StepStays(s, a.t); }
  }

  // ---------------------------------------------------------------- what can be asked for

  /** Channels of any sizes and any number of threads can be started with. */
  lemma AnyStart(sizes: seq<nat>, n: nat, guarded: bool) returns (s: State)
    ensures Init(s) && |s.chans| == |sizes| && |s.threads| == n && s.guarded == guarded
    ensures forall c | 0 <= c < |sizes| :: s.chans[c].size == sizes[c]
  {
    var chans := seq(|sizes|, c requires 0 <= c < |sizes| => NewChan(sizes[c]));
    s := State(chans, seq(n, _ => Thread(Idle, 0, [], [])), guarded);
    forall c | 0 <= c < |sizes| ensures FreshChan(s.chans[c]) && s.chans[c].size == sizes[c] {
      assert s.chans[c] == NewChan(sizes[c]);
    }
  }

  function NewChan(size: nat): (ch: Chan) {
    Chan(size, seq(size + 1, _ => 0), 0, 0, 0, size, None, None, None, None, 0, [], [])
  }

  /** A thread between operations can begin any operation, on any channels there are. */
  lemma AnyOperation(s: State, t: Tid, c: Cid, v: Value, choices: seq<Cid>)
    requires Reachable(s) && t < |s.threads| && c < |s.chans| && forall k | 0 <= k < |choices| :: choices[k] < |s.chans|
    requires var pc := s.threads[t].pc; pc.Idle? || pc.PutRet? || pc.TakeRet? || pc.PickRet?
    ensures Possible(s, Begin(t, Put(c, v))) && Possible(s, Begin(t, Take(c)))
      && Possible(s, Begin(t, PickFrom(choices)))
  {
    ReachableInv(s);
  }
}
