/** The queue of src/core/ring.c as the object its callers see, operations one at a time: an
    array, two indices and a drop counter. RingSteps covers the two threads running at once. */
module SpscRing {
  import opened DeviceModel
  import opened Modular
  import opened RingSteps

  class SpscRing<T(0)> {
    var buf: array?<T>
    var size: nat
    var head: nat
    var tail: nat
    var dropped: nat

    constructor ()
      ensures !Ready()
    {
      buf, size, head, tail, dropped := null, 0, 0, 0, 0;
    }

    ghost predicate Ready()
      reads this
    {
      buf != null
    }

    ghost predicate Valid()
      reads this
    {
      Ready() ==> 2 <= size == buf.Length < 0x1_0000_0000 && head < size && tail < size
    }

    ghost function Count(): nat
      reads this
      requires Valid() && Ready()
    {
      if head >= tail then head - tail else size - tail + head
    }

    /** The points inside, oldest first. */
    ghost function Contents(): (points: seq<T>)
      reads this, buf
      requires Valid() && Ready()
      ensures |points| == Count() < size
    {
      if head >= tail then buf[tail..head] else buf[tail..] + buf[..head]
    }

    /** spsc_ring_init; memory is whether calloc succeeded. */
    method Init(newSize: nat, memory: bool) returns (rc: int)
      requires newSize < 0x1_0000_0000
      modifies this
      ensures rc == if newSize >= 2 && memory then 0 else -1
      ensures rc == 0 ==> Valid() && Ready() && fresh(buf) && size == newSize && Contents() == [] && dropped == 0
      ensures rc == -1 && newSize < 2 ==> unchanged(this)
      ensures rc == -1 && newSize >= 2 ==> !Ready()
    {
      if newSize < 2 {
        return -1;
      }
      if !memory {
        buf := null;
        return -1;
      }
      buf := new T[newSize];
      size := newSize;
      head, tail, dropped := 0, 0, 0;
      return 0;
    }

    /** spsc_ring_push: appends unless size - 1 points are inside, which counts a drop. */
    method Push(point: T) returns (ok: bool)
      requires Valid()
      modifies this`head, this`dropped, buf
      ensures Valid() && buf == old(buf) && size == old(size)
      ensures !Ready() ==> !ok && dropped == old(dropped)
      ensures Ready() ==> ok == (old(|Contents()|) < size - 1)
      ensures Ready() && ok ==> Contents() == old(Contents()) + [point] && dropped == old(dropped)
      ensures Ready() && !ok ==> Contents() == old(Contents()) && dropped == old(dropped) + 1
    {
      if buf == null {
        return false;
      }
      NextIndexIs(size, head);
      var h := head;
      var next := Rem(U32(h + 1), size);
      var t := tail;
      if next == t {
        dropped := dropped + 1;
        return false;
      }
      buf[h] := point;
      head := next;
      return true;
    }

    /** spsc_ring_pop: takes the oldest point, if any. */
    method Pop() returns (point: Option<T>)
      requires Valid()
      modifies this`tail
      ensures Valid()
      ensures point.Some? <==> Ready() && old(Ready() && Contents() != [])
      ensures Ready() && point.None? ==> Contents() == old(Contents()) == []
      ensures Ready() && point.Some? ==> [point.value] + Contents() == old(Contents())
    {
      if buf == null {
        return None;
      }
      NextIndexIs(size, tail);
      var t := tail;
      var h := head;
      if t == h {
        return None;
      }
      point := Some(buf[t]);
      tail := Rem(U32(t + 1), size);
    }

    /** spsc_ring_count. */
    method CountPoints() returns (n: nat)
      requires Valid()
      ensures n == if Ready() then |Contents()| else 0
    {
      if buf == null {
        return 0;
      }
      CountOfNoWrap(size, head, tail);
      n := CountOf(size, head, tail);
    }
  }
}
