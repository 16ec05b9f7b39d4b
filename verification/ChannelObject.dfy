/** The unsynchronised operations of a channel, on the channel's own memory. */
module ChannelObject {
  import opened Wrappers
  import opened ChannelModel
  import opened ChannelInvariant
  import opened ChannelSteps
  import opened ChannelTheorems

  /** What is in the ring is what was put and not consumed. */
  lemma RingIsPuts(ch: Chan)
    requires RingInv(ch)
    ensures RingContents(ch) == ch.puts[|ch.log|..]
  {
  }

  /** Room for one more value. */
  predicate HasRoom(ch: Chan) { RingInv(ch) && ch.Occupancy() <= ch.size }

  predicate HasValue(ch: Chan) { RingInv(ch) && ch.Occupancy() > 0 }

  lemma PutContents(ch: Chan, v: Value)
    requires HasRoom(ch)
    ensures RingInv(PutValue(ch, v)) && RingContents(PutValue(ch, v)) == RingContents(ch) + [v]
  {
    PutValueRing(ch, v);
    RingIsPuts(ch);
    RingIsPuts(PutValue(ch, v));
  }

  lemma TakeContents(ch: Chan, who: Tid, op: nat)
    requires HasValue(ch)
    ensures RingInv(TakeValue(ch, who, op))
    ensures RingContents(ch) == [ch.slots[ch.first]] + RingContents(TakeValue(ch, who, op))
  {
    TakeValueRing(ch, who, op);
    RingIsPuts(ch);
    RingIsPuts(TakeValue(ch, who, op));
  }

  class Channel {
    const size: nat
    const slots: array<Value>
    var first: nat
    var last: nat
    var put: nat
    var take: nat
    ghost var puts: seq<Value>
    ghost var log: seq<Entry>

    /** The channel as the transition system sees it, with nobody holding its locks. */
    ghost function View(): (ch: Chan)
      reads this, slots
    {
      Chan(size, slots[..], first, last, put, take, None, None, None, None, 0, puts, log)
    }

    constructor (n: nat)
      ensures size == n && fresh(slots) && FreshChan(View())
    {
      size := n;
      slots := new Value[n + 1](_ => 0);
      first, last, put, take := 0, 0, 0, n;
      puts, log := [], [];
    }

    /** With room, the ring gains v at its end. */
    method PutValue(v: Value)
      requires ChanShape(View())
      modifies this`last, this`puts, slots
      ensures View() == ChannelModel.PutValue(old(View()), v) && ChanShape(View())
      ensures old(HasRoom(View())) ==> RingInv(View()) && RingContents(View()) == old(RingContents(View())) + [v]
    {
      ghost var was := View();
      slots[last] := v;
      last := if last == size then 0 else last + 1;
      puts := puts + [v];
      assert View() == ChannelModel.PutValue(was, v);
      if HasRoom(was) { PutContents(was, v); }
    }

    /** The ring loses its first value, which is returned. */
    method TakeValue(ghost who: Tid, ghost op: nat) returns (v: Value)
      requires ChanShape(View())
      modifies this`first, this`log
      ensures View() == ChannelModel.TakeValue(old(View()), who, op) && ChanShape(View())
      ensures v == old(slots[first]) && log == old(log) + [Entry(v, who, op)]
      ensures old(HasValue(View())) ==> RingInv(View()) && old(RingContents(View())) == [v] + RingContents(View())
    {
      ghost var was := View();
      v := slots[first];
      log := log + [Entry(v, who, op)];
      first := if first == size then 0 else first + 1;
      assert View() == ChannelModel.TakeValue(was, who, op);
      if HasValue(was) { TakeContents(was, who, op); }
    }

    /** FIAL_deinit_channel: finalise the buffered values, counted from the take semaphore.  With
        nobody inside an operation that is exactly what was put and not consumed, in order, each
        once, wherever the ring wraps. */
    method Deinit() returns (finalised: seq<Value>)
      requires RingInv(View()) && View().Occupancy() == size - take
      modifies this`first
      ensures finalised == RingContents(old(View())) == puts[|log|..]
      ensures View() == old(View()).(first := first) && first == last
    {
      finalised := [];
      var len := size - take;
      var i := 0;
      ghost var start := View();
      while i < len
        invariant 0 <= i <= len
        invariant View() == start.(first := first) && first <= size
        invariant first == start.Slot(i)
        invariant finalised == RingContents(start)[..i]
      {
        assert RingContents(start)[i] == slots[first];
        finalised := finalised + [slots[first]];
        first := if first != size then first + 1 else 0;
        i := i + 1;
      }
      assert RingContents(start)[..len] == RingContents(start);
      assert forall k | 0 <= k < len :: RingContents(start)[k] == puts[|log|..][k];
    }
  }
}
