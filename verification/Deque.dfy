/** The growable deque: an array whose live part slides. */
module Deque {
  import opened DequeModel

  /** A slot's value; Empty is the zeroed slot. */
  datatype Value = Empty | Datum(n: int)

  /** Copy n values within one array towards its front (memmove). */
  method MoveDown(a: array<Value>, from: nat, n: nat)
    requires from + n <= a.Length
    modifies a
    ensures a[..n] == old(a[from..from + n])
  {
    ghost var was := a[..];
    var k := 0;
    while k < n
      invariant 0 <= k <= n
      invariant forall i | 0 <= i < k :: a[i] == was[from + i]
      invariant forall i | k <= i < a.Length :: a[i] == was[i]
    {
      a[k] := a[from + k];
      k := k + 1;
    }
  }

  /** Copy n values between places that do not overlap (memcpy). */
  method CopyOver(dst: array<Value>, at: nat, src: array<Value>, from: nat, n: nat)
    requires at + n <= dst.Length && from + n <= src.Length
    requires dst == src ==> from + n <= at
    modifies dst
    ensures dst[..] == old(dst[..at]) + old(src[from..from + n]) + old(dst[at + n..])
  {
    ghost var was, values := dst[..], src[from..from + n];
    var k := 0;
    while k < n
      invariant 0 <= k <= n
      invariant src[from..from + n] == values
      invariant dst[..at + k] == was[..at] + values[..k]
      invariant dst[at + k..] == was[at + k..]
    {
      assert src[from + k] == values[k];
      dst[at + k] := src[from + k];
      assert dst[..at + (k + 1)] == dst[..at + k] + [values[k]];
      k := k + 1;
    }
    assert dst[..] == dst[..at + n] + dst[at + n..];
  }

  /** Zero lo .. hi (memset). */
  method ZeroOut(a: array<Value>, lo: nat, hi: nat)
    requires lo <= hi <= a.Length
    modifies a
    ensures forall i | lo <= i < hi :: a[i] == Empty
    ensures a[..lo] == old(a[..lo])
    ensures a[hi..] == old(a[hi..])
  {
    var k := lo;
    while k < hi
      invariant lo <= k <= hi
      invariant forall i | lo <= i < k :: a[i] == Empty
      invariant forall i | 0 <= i < lo || hi <= i < a.Length :: a[i] == old(a[i])
    {
      a[k] := Empty;
      k := k + 1;
    }
  }

  class Seq {
    var buf: array?<Value>
    var first: nat
    var head: nat
    var size: nat
    ghost var moved: nat

    ghost predicate Valid()
      reads this
    {
      if buf == null then first == head == size == 0
      else 0 < size == buf.Length && first <= head <= size
    }

    /** The mathematical sequence the deque stands for. */
    ghost function Contents(): (s: seq<Value>)
      requires Valid()
      reads this, buf
    {
      if buf == null then [] else buf[first..head]
    }

    ghost function Shape(): (d: Spine)
      reads this
    {
      Spine(buf != null, first, head, size, moved)
    }

    /** A buffer either stays or is replaced by a new one. */
    twostate predicate OwnBuffer()
      reads this
    {
      buf == old(buf) || (buf != null && fresh(buf))
    }

    constructor ()
      ensures Valid() && Contents() == [] && Shape() == Spine(false, 0, 0, 0, 0)
    {
      buf, first, head, size, moved := null, 0, 0, 0, 0;
    }

    /** Allocate or double; `alloc` is the allocator's answer. */
    method Grow(alloc: bool) returns (ok: bool)
      requires Valid() && head == size
      modifies this
      ensures (Shape(), ok) == old(DequeModel.Grow(Shape(), alloc))
      ensures OwnBuffer() && (old(buf) != null || alloc ==> Valid() && Contents() == old(Contents()))
    {
      if buf == null {
        size := DEFAULT_SIZE;
        if !alloc { return false; }
        buf := new Value[DEFAULT_SIZE](_ => Empty);
        first, head := 0, 0;
      } else {
        if !alloc { return false; }
        var tmp := new Value[size * 2](_ => Empty);
        CopyOver(tmp, 0, buf, 0, size);
        assert tmp[first..head] == buf[first..head];
        moved := moved + size;
        buf := tmp;
        size := size * 2;
      }
      ok := true;
    }

    method MoveOver()
      requires Valid()
      modifies this, buf
      ensures Valid() && buf == old(buf)
      ensures Shape() == old(DequeModel.MoveOver(Shape()))
      ensures Contents() == old(Contents())
    {
      var count := head - first;
      if buf != null {
        MoveDown(buf, first, count);
        ZeroOut(buf, count, size);
      }
      moved := moved + count;
      first, head := 0, count;
    }

    method NeedRoom(alloc: bool) returns (ok: bool)
      requires Valid() && head == size
      modifies this, buf
      ensures (Shape(), ok) == old(DequeModel.NeedRoom(Shape(), alloc))
      ensures OwnBuffer() && (old(buf) != null || alloc ==> Valid() && Contents() == old(Contents()))
    {
      if first > size / 3 {
        MoveOver();
        return true;
      }
      ok := Grow(alloc);
      if !ok && first != 0 {
        MoveOver();
        ok := true;
      }
    }

    /** Store at the back; on success the caller's value has been moved out. */
    method In(v: Value, alloc: bool) returns (ok: bool, rest: Value)
      requires Valid()
      modifies this, buf
      ensures old(DequeModel.In(Shape(), alloc)) == if ok then Stored(Shape()) else Refused(Shape())
      ensures ok ==> Valid() && Contents() == old(Contents()) + [v] && rest == Empty
      ensures !ok ==> rest == v && (old(buf) != null ==> Valid() && Contents() == old(Contents()))
      ensures OwnBuffer()
    {
      if head == size {
        ok := NeedRoom(alloc);
        if !ok { return false, v; }
      }
      buf[head] := v;
      head := head + 1;
      ok, rest := true, Empty;
    }

    /** Move the oldest value to the caller, whose own value is dropped. */
    method First(v: Value) returns (ok: bool, r: Value)
      requires Valid()
      modifies this, buf
      ensures Valid() && buf == old(buf) && Shape() == old(DequeModel.First(Shape()))
      ensures ok == (old(Contents()) != [])
      ensures if ok then [r] + Contents() == old(Contents()) else r == v && Contents() == old(Contents())
    {
      if first == head { return false, v; }
      r := buf[first];
      buf[first] := Empty;
      first := first + 1;
      ok := true;
    }

    /** Move the newest value to the caller. */
    method Last(v: Value) returns (ok: bool, r: Value)
      requires Valid()
      modifies this, buf
      ensures Valid() && buf == old(buf) && Shape() == old(DequeModel.Last(Shape()))
      ensures ok == (old(Contents()) != [])
      ensures if ok then Contents() + [r] == old(Contents()) else r == v && Contents() == old(Contents())
    {
      if first == head { return false, v; }
      head := head - 1;
      r := buf[head];
      buf[head] := Empty;
      ok := true;
    }

    /** Make room for newSize values from `first` on.  The buffer may shrink: the space in front of
        `first` is given up. */
    method Reserve(newSize: int, alloc: bool) returns (ok: bool)
      requires Valid()
      modifies this, buf
      ensures Valid() && Contents() == old(Contents()) && OwnBuffer()
      ensures ok ==> newSize <= size - first
      ensures ok == (alloc || newSize <= old(size - first))
      ensures newSize <= old(size - first) ==> Shape() == old(Shape())
      ensures newSize > old(size - first) && ok ==> first == 0 && size == newSize
    {
      var current := head - first;
      if size - first >= newSize { return true; }
      if buf != null {
        MoveDown(buf, first, size - first);
        assert buf[..current] == old(buf[first..head]);
        first, head := 0, current;
      }
      if !alloc { return false; }
      var tmp := new Value[newSize](_ => Empty);
      if buf != null {
        CopyOver(tmp, 0, buf, 0, current);
        assert tmp[..current] == buf[..current];
      }
      buf, size, first, head := tmp, newSize, 0, current;
      ok := true;
    }

    method Clear()
      requires Valid()
      modifies this
      ensures Valid() && first == head == 0 && buf == old(buf) && size == old(size)
    {
      first, head := 0, 0;
    }

    /** An empty deque gets a new buffer. */
    method Renew(n: nat)
      requires Valid() && first == head == 0 && 0 < n
      modifies this
      ensures Valid() && first == head == 0 && size == n && buf != null && fresh(buf) && Contents() == []
    {
      buf, size := new Value[n](_ => Empty), n;
    }
  }

  /** FIAL_seq_append: move every value of `from` to the back of `to`.  A deque may be appended to
      itself, which doubles it. */
  method Append(to: Seq, from: Seq, alloc: bool) returns (ok: bool)
    requires to.Valid() && from.Valid()
    requires to != from && to.buf != null ==> to.buf != from.buf
    modifies to, to.buf, from, from.buf
    ensures to.Valid() && from.Valid()
    ensures ok ==> to.Contents() == old(to.Contents()) + old(from.Contents())
    ensures ok && to != from ==> from.Contents() == []
    ensures !ok ==> to.Contents() == old(to.Contents()) && from.Contents() == old(from.Contents())
    ensures ok == (alloc || old(from.Contents()) == []
                   || |old(to.Contents())| + |old(from.Contents())| <= old(to.size - to.first))
  {
    var n := from.head - from.first;
    if n == 0 { return true; }
    ok := to.Reserve(to.head - to.first + n, alloc);
    if !ok { return; }
    AppendCopy(to, from, n);
    if to != from {
      from.first, from.head := 0, 0;
    }
  }

  lemma Joined(all: seq<Value>, lo: nat, hi: nat, more: seq<Value>, r: seq<Value>)
    requires lo <= hi && hi + |more| <= |all| && r == all[..hi] + more + all[hi + |more|..]
    ensures r[lo..hi + |more|] == all[lo..hi] + more
  {
  }

  /** The copying half, once there is room behind `head`. */
  method AppendCopy(to: Seq, from: Seq, n: nat)
    requires to.Valid() && from.Valid() && to.buf != null && from.buf != null
    requires to != from ==> to.buf != from.buf
    requires 0 < n == from.head - from.first
    requires to.head + n <= to.size
    modifies to`head, to.buf, from.buf
    ensures to.Valid() && to.Contents() == old(to.Contents()) + old(from.Contents())
    ensures from.Valid()
  {
    CopyTail(to, to.buf, from.buf, from.first, n);
    if to != from {
      ZeroOut(from.buf, from.first, from.head);
    }
  }

  /** Copy n values behind `head`, and move it past them. */
  method CopyTail(to: Seq, dst: array<Value>, src: array<Value>, at: nat, n: nat)
    requires to.Valid() && to.buf == dst && at + n <= src.Length && to.head + n <= to.size
    requires dst == src ==> at + n <= to.head
    modifies to`head, dst
    ensures to.Valid() && to.head == old(to.head) + n
    ensures dst[to.first..to.head] == old(dst[to.first..to.head]) + old(src[at..at + n])
  {
    ghost var all, more := dst[..], src[at..at + n];
    CopyOver(dst, to.head, src, at, n);
    Joined(all, to.first, to.head, more, dst[..]);
    to.head := to.head + n;
    assert dst[to.first..to.head] == dst[..][to.first..to.head];
  }

  /** FIAL_seq_copy: `to` is cleared and refilled in order.  The copier manages the first `works`
      elements; where it fails, what was copied so far stays. */
  method Copy(to: Seq, from: Seq, alloc: bool, works: nat) returns (ok: bool)
    requires to != from && to.Valid() && from.Valid()
    requires to.buf != null ==> to.buf != from.buf
    modifies to, to.buf
    ensures to.Valid() && from.Valid() && from.Contents() == old(from.Contents())
    ensures var room := |from.Contents()| <= old(to.size) || alloc;
            && (ok <==> room && |from.Contents()| <= works)
            && to.Contents() == if !room then [] else if ok then from.Contents() else from.Contents()[..works]
  {
    ghost var items := from.Contents();
    to.Clear();
    assert from.Contents() == items && |items| == from.head - from.first;
    if to.size < from.head - from.first {
      if !alloc { return false; }
      to.Renew(from.head);
    }
    ok := true;
    if from.first != from.head {
      ok := Refill(to, to.buf, from.buf, from.first, from.head, works);
      assert to.Contents() == to.buf[..to.head] == items[..to.head];
    }
  }

  /** The element-by-element loop of the copy. */
  method Refill(to: Seq, dst: array<Value>, src: array<Value>, lo: nat, hi: nat, works: nat) returns (ok: bool)
    requires dst != src && lo <= hi <= src.Length && hi - lo <= dst.Length
    requires to.head == 0
    modifies to`head, dst
    ensures ok == (hi - lo <= works)
    ensures to.head == if ok then hi - lo else works
    ensures dst[..to.head] == src[lo..lo + to.head]
  {
    var k := lo;
    while k != hi
      invariant lo <= k <= hi && k - lo <= works
      invariant to.head == k - lo
      invariant dst[..k - lo] == src[lo..k]
      decreases hi - k
    {
      if k - lo == works { return false; }
      dst[to.head] := src[k];
      assert dst[..k + 1 - lo] == dst[..k - lo] + [src[k]];
      to.head := to.head + 1;
      k := k + 1;
    }
    ok := true;
  }
}
