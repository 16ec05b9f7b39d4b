/** The shape of a growable deque, apart from its contents: where the live values start and end in
    the buffer, how long the buffer is, and how many elements compaction and doubling have moved. */
module DequeModel {

  const DEFAULT_SIZE: nat := 12

  /** `has` says whether there is a buffer; `size` is what the deque believes its length to be. */
  datatype Spine = Spine(has: bool, first: nat, head: nat, size: nat, moved: nat)

  /** Storing can succeed, be refused, or write where there is no buffer. */
  datatype Outcome = Stored(d: Spine) | Refused(d: Spine) | WildWrite

  predicate WellFormed(d: Spine) {
    if d.has then 0 < d.size && d.first <= d.head <= d.size
    else d.first == d.head == d.size == 0
  }

  function Live(d: Spine): int { d.head - d.first }

  function Max(a: int, b: int): int { if a < b then b else a }

  // ---------------------------------------------------------------- making room

  /** seq_move_over: slide the live values to the front. */
  function MoveOver(d: Spine): (r: Spine)
    requires d.first <= d.head
  {
    Spine(d.has, 0, d.head - d.first, d.size, d.moved + (d.head - d.first))
  }

  /** seq_grow; `alloc` says whether the allocation succeeds.  The believed size is set before a
      first allocation is known to have succeeded. */
  function Grow(d: Spine, alloc: bool): (r: (Spine, bool)) {
    if !d.has then
      if alloc then (Spine(true, 0, 0, DEFAULT_SIZE, d.moved), true)
      else (d.(size := DEFAULT_SIZE), false)
    else if alloc then (d.(size := 2 * d.size, moved := d.moved + d.size), true)
    else (d, false)
  }

  /** need_room: compact when more than a third is free in front, otherwise double; compact as a
      last resort when doubling fails. */
  function NeedRoom(d: Spine, alloc: bool): (r: (Spine, bool))
    requires d.first <= d.head
  {
    if d.first > d.size / 3 then (MoveOver(d), true)
    else
      var (g, ok) := Grow(d, alloc);
      if ok then (g, true)
      else if d.first != 0 then (MoveOver(g), true)
      else (g, false)
  }

  /** FIAL_seq_in. */
  function In(d: Spine, alloc: bool): (r: Outcome)
    requires d.first <= d.head
  {
    var (e, ok) := if d.head == d.size then NeedRoom(d, alloc) else (d, true);
    if !ok then Refused(e)
    else if !e.has then WildWrite
    else Stored(e.(head := e.head + 1))
  }

  function First(d: Spine): (r: Spine) { if d.first < d.head then d.(first := d.first + 1) else d }

  function Last(d: Spine): (r: Spine) { if d.first < d.head then d.(head := d.head - 1) else d }

  /** From a well-formed deque a store is never wild, leaves one more value than before when it is
      accepted, and is refused exactly when the buffer is full to both ends and cannot grow. */
  lemma InFromWellFormed(d: Spine, alloc: bool)
    requires WellFormed(d)
    ensures !In(d, alloc).WildWrite?
    ensures In(d, alloc).Stored? ==> WellFormed(In(d, alloc).d) && Live(In(d, alloc).d) == Live(d) + 1
    ensures In(d, alloc).Refused? <==> !alloc && d.first == 0 && d.head == d.size
  {
  }

  /** What a refused store leaves behind is well-formed exactly when there was a buffer already. */
  lemma RefusedIsWellFormed(d: Spine)
    requires WellFormed(d) && In(d, false).Refused?
    ensures WellFormed(In(d, false).d) <==> d.has
  {
  }

  /** After the very first allocation fails, the next store goes through a null buffer, whether or
      not memory is available by then. */
  lemma FailedFirstAllocation(alloc: bool)
    ensures var empty := Spine(false, 0, 0, 0, 0);
            In(empty, false).Refused? && In(In(empty, false).d, alloc).WildWrite?
  {
  }

  // ---------------------------------------------------------------- compaction as written

  /** The compaction copies its live count times the size of the deque's header where it means the
      size of a value.  Called from need_room, with the buffer full to its end, the copy stays
      inside the buffer exactly when nothing is live or the two sizes do not differ that way. */
  lemma MoveOverReach(d: Spine, header: nat, value: nat)
    requires WellFormed(d) && d.head == d.size && 0 < value
    ensures d.first * value + (d.head - d.first) * header <= d.size * value
        <==> d.head == d.first || header <= value
  {
    var count := d.head - d.first;
    assert d.size * value == d.first * value + count * value;
    if header <= value {
      ScaleLe(count, header, value);
    } else if count > 0 {
      ScaleLt(count, value, header);
    }
  }

  lemma ScaleLe(n: nat, a: nat, b: nat)
    requires a <= b
    ensures n * a <= n * b
  {
  }

  lemma ScaleLt(n: nat, a: nat, b: nat)
    requires a < b && 0 < n
    ensures n * a < n * b
  {
  }

  /** The buffer in units of storage, a value being `value` of them and the header `header`: the
      compaction as written moves the live count times `header` units and zeroes what follows the
      live count of values. */
  function MovedUnits(buf: seq<int>, d: Spine, header: nat, value: nat): (r: seq<int>)
    requires StaysInside(d, header, value) && |buf| == d.size * value
  {
    var from, n := d.first * value, Count(d) * header;
    InsideUnits(d, header, value);
    (buf[from..from + n] + buf[n..])[..Count(d) * value] + seq(|buf| - Count(d) * value, _ => 0)
  }

  function Count(d: Spine): (n: nat)
    requires d.first <= d.head
  {
    d.head - d.first
  }

  /** The copy stays inside the buffer. */
  predicate StaysInside(d: Spine, header: nat, value: nat) {
    && WellFormed(d) && d.head == d.size
    && d.first * value + Count(d) * header <= d.size * value
  }

  lemma InsideUnits(d: Spine, header: nat, value: nat)
    requires StaysInside(d, header, value)
    ensures Count(d) * header <= d.first * value + Count(d) * header <= d.size * value
    ensures Count(d) * value <= d.size * value && d.first * value + Count(d) * value == d.head * value
  {
    ScaleLe(value, Count(d), d.size);
  }

  /** The compaction as written stays inside and leaves the live values at the front. */
  ghost predicate Compacts(d: Spine, header: nat, value: nat) {
    && StaysInside(d, header, value)
    && forall buf: seq<int> | |buf| == d.size * value :: Kept(buf, d, header, value)
  }

  predicate Kept(buf: seq<int>, d: Spine, header: nat, value: nat)
    requires StaysInside(d, header, value) && |buf| == d.size * value
  {
    InsideUnits(d, header, value);
    MovedUnits(buf, d, header, value)[..Count(d) * value] == buf[d.first * value..d.head * value]
  }

  /** need_room compacts only with something free in front.  There the compaction as written does
      what it is for exactly when nothing is live or a header is as large as a value: a larger header
      takes it outside the buffer, and with a smaller one it loses contents. */
  lemma MoveOverSoundIff(d: Spine, header: nat, value: nat)
    requires WellFormed(d) && d.head == d.size && 0 < d.first && 0 < value
    ensures Compacts(d, header, value) <==> Count(d) == 0 || header == value
  {
    MoveOverReach(d, header, value);
    if Count(d) == 0 {
      forall buf: seq<int> | |buf| == d.size * value ensures Kept(buf, d, header, value) {
        InsideUnits(d, header, value);
      }
    } else if header == value {
      forall buf: seq<int> | |buf| == d.size * value ensures Kept(buf, d, header, value) {
        InsideUnits(d, header, value);
      }
    } else if header < value {
      SomeLost(d, header, value);
    }
  }

  /** A buffer with no unit twice shows the loss, at the first unit that is not moved. */
  lemma SomeLost(d: Spine, header: nat, value: nat)
    requires StaysInside(d, header, value) && 0 < d.first && 0 < Count(d) && header < value
    ensures !Compacts(d, header, value)
  {
    var buf := seq(d.size * value, i => i);
    InsideUnits(d, header, value);
    ScaleLt(Count(d), header, value);
    ScaleLt(value, 0, d.first);
    var at := Count(d) * header;
    assert MovedUnits(buf, d, header, value)[..Count(d) * value][at] == buf[at] == at;
    assert buf[d.first * value..d.head * value][at] == d.first * value + at;
    assert !Kept(buf, d, header, value);
  }

  // ---------------------------------------------------------------- amortised cost

  /** What the buffer has saved up towards its next compaction or doubling. */
  function Potential(d: Spine): int { Max(0, 2 * d.head - d.size) }

  /** One store that can allocate pays at most two moves, counting what it saves up. */
  lemma InPays(d: Spine)
    requires WellFormed(d)
    ensures In(d, true).Stored?
    ensures var e := In(d, true).d;
            e.moved - d.moved + Potential(e) - Potential(d) <= 2
  {
  }

  datatype Op = OpIn | OpFirst | OpLast

  function Do(d: Spine, op: Op): (r: Spine)
    requires WellFormed(d)
    ensures WellFormed(r)
  {
    match op
    case OpIn => (InFromWellFormed(d, true); In(d, true).d)
    case OpFirst => First(d)
    case OpLast => Last(d)
  }

  /** Run a sequence of operations, every allocation succeeding. */
  function Run(d: Spine, ops: seq<Op>): (r: Spine)
    requires WellFormed(d)
    ensures WellFormed(r)
    decreases |ops|
  {
    if ops == [] then d else Run(Do(d, ops[0]), ops[1..])
  }

  function Ins(ops: seq<Op>): (n: nat)
    decreases |ops|
  {
    if ops == [] then 0 else (if ops[0].OpIn? then 1 else 0) + Ins(ops[1..])
  }

  /** The largest live count reached. */
  function Peak(d: Spine, ops: seq<Op>): (n: int)
    requires WellFormed(d)
    ensures Live(d) <= n
    decreases |ops|
  {
    if ops == [] then Live(d)
    else Max(Live(d), Peak(Do(d, ops[0]), ops[1..]))
  }

  lemma {:induction false} RunPays(d: Spine, ops: seq<Op>)
    requires WellFormed(d)
    ensures Run(d, ops).moved + Potential(Run(d, ops)) <= d.moved + Potential(d) + 2 * Ins(ops)
    decreases |ops|
  {
    if ops == [] {
    } else {
      if ops[0].OpIn? { InPays(d); }
      RunPays(Do(d, ops[0]), ops[1..]);
    }
  }

  /** Over any run of stores and removals from an empty deque, compaction and doubling together
      move at most two elements per store. */
  lemma AmortisedCost(ops: seq<Op>)
    ensures Run(Spine(false, 0, 0, 0, 0), ops).moved <= 2 * Ins(ops)
  {
    RunPays(Spine(false, 0, 0, 0, 0), ops);
  }

  // ---------------------------------------------------------------- the compaction is reached

  function Times(op: Op, n: nat): (ops: seq<Op>) { seq(n, _ => op) }

  lemma {:induction false} RunThen(d: Spine, a: seq<Op>, b: seq<Op>)
    requires WellFormed(d)
    ensures Run(d, a + b) == Run(Run(d, a), b)
    decreases |a|
  {
    if a == [] {
      assert a + b == b;
    } else {
      assert (a + b)[0] == a[0] && (a + b)[1..] == a[1..] + b;
      RunThen(Do(d, a[0]), a[1..], b);
    }
  }

  lemma {:induction false} RunIns(d: Spine, n: nat)
    requires WellFormed(d) && d.head + n <= d.size
    ensures Run(d, Times(OpIn, n)) == d.(head := d.head + n)
    decreases n
  {
    if n == 0 {
    } else {
      assert Times(OpIn, n)[0] == OpIn && Times(OpIn, n)[1..] == Times(OpIn, n - 1);
      RunIns(Do(d, OpIn), n - 1);
    }
  }

  lemma {:induction false} RunFirsts(d: Spine, n: nat)
    requires WellFormed(d) && d.first + n <= d.head
    ensures Run(d, Times(OpFirst, n)) == d.(first := d.first + n)
    decreases n
  {
    if n == 0 {
    } else {
      assert Times(OpFirst, n)[0] == OpFirst && Times(OpFirst, n)[1..] == Times(OpFirst, n - 1);
      RunFirsts(Do(d, OpFirst), n - 1);
    }
  }

  /** Twelve stores and five removals from an empty deque reach a full buffer with five free places in
      front: the next store compacts seven live values, and does it right only if a header is as large
      as a value. */
  lemma CompactionHappens(header: nat, value: nat) returns (ops: seq<Op>)
    requires 0 < value
    ensures ops == Times(OpIn, 12) + Times(OpFirst, 5)
    ensures var d := Run(Spine(false, 0, 0, 0, 0), ops);
            && d == Spine(true, 5, 12, 12, 0)
            && In(d, true) == Stored(MoveOver(d).(head := 8))
            && (StaysInside(d, header, value) <==> header <= value)
            && (Compacts(d, header, value) <==> header == value)
  {
    var empty, full := Spine(false, 0, 0, 0, 0), Spine(true, 0, 12, 12, 0);
    ops := Times(OpIn, 12) + Times(OpFirst, 5);
    assert Times(OpIn, 12)[0] == OpIn && Times(OpIn, 12)[1..] == Times(OpIn, 11);
    RunIns(Spine(true, 0, 1, 12, 0), 11);
    RunThen(empty, Times(OpIn, 12), Times(OpFirst, 5));
    RunFirsts(full, 5);
    MoveOverReach(Spine(true, 5, 12, 12, 0), header, value);
    MoveOverSoundIff(Spine(true, 5, 12, 12, 0), header, value);
  }

  /** A doubled buffer is at most three times the live count at the time. */
  lemma InCapacity(d: Spine)
    requires WellFormed(d)
    ensures In(d, true).d.size <= Max(Max(d.size, DEFAULT_SIZE), 3 * Live(d))
  {
  }

  lemma {:induction false} RunCapacity(d: Spine, ops: seq<Op>, bound: int)
    requires WellFormed(d) && d.size <= bound && DEFAULT_SIZE <= bound && 3 * Peak(d, ops) <= bound
    ensures Run(d, ops).size <= bound
    decreases |ops|
  {
    if ops == [] {
    } else {
      if ops[0].OpIn? { InCapacity(d); }
      RunCapacity(Do(d, ops[0]), ops[1..], bound);
    }
  }

  /** Capacity never exceeds twelve or three times the largest number of values ever held. */
  lemma CapacityBound(ops: seq<Op>)
    ensures var d := Spine(false, 0, 0, 0, 0);
            Run(d, ops).size <= Max(DEFAULT_SIZE, 3 * Peak(d, ops))
  {
    var d := Spine(false, 0, 0, 0, 0);
    RunCapacity(d, ops, Max(DEFAULT_SIZE, 3 * Peak(d, ops)));
  }
}
