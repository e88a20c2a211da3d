/** The lock-free queue of src/core/ring.c under every interleaving of one producer and one
    consumer. Each step is one atomic load or store, or one copy of a slot; the two threads
    take their steps in any order. The history fields (pushed, popped, events, the return logs
    and counts) record what happened; no step looks at them. */
module RingSteps {
  import opened DeviceModel
  import opened Modular

  /** Unsigned 32-bit arithmetic of the C code. */
  function U32(x: int): nat { x % 0x1_0000_0000 }

  function NextIndex(size: nat, index: nat): nat
    requires size > 0
  {
    Rem(U32(index + 1), size)
  }

  /** The expression spsc_ring_count evaluates once head and tail are loaded. */
  function CountOf(size: nat, head: nat, tail: nat): nat
  {
    if head >= tail then U32(head - tail) else U32(U32(size - tail) + head)
  }

  /** Where the producer thread is inside spsc_ring_push or spsc_ring_count. */
  datatype Producer<T> =
    | PIdle
    | PHead(point: T, head: nat)               // head loaded
    | PWrite(point: T, head: nat, next: nat)   // tail loaded, not full: about to copy into buf[head]
    | PStore(point: T, next: nat)              // slot written: about to store head
    | PDrop(point: T)                          // full: about to count the drop
    | PCount(head: nat)                        // counting, head loaded

  /** Where the consumer thread is inside spsc_ring_pop or spsc_ring_count. */
  datatype Consumer<T> =
    | CIdle
    | CTail(tail: nat)                         // tail loaded
    | CRead(tail: nat)                         // head loaded, not empty: about to copy buf[tail]
    | CStore(tail: nat, point: T)              // slot copied: about to store tail
    | CCount(head: nat, seen: nat)             // counting; seen is the occupancy when head was loaded

  /** Operations of the bounded queue, each at the instant it takes effect. */
  datatype Event<T> = PushOk(point: T) | PushFull(point: T) | PopOk(point: T) | PopEmpty

  datatype Ring<T> = Ring(
    size: nat, buf: seq<T>, head: nat, tail: nat, dropped: nat,
    producer: Producer<T>, consumer: Consumer<T>,
    pushed: seq<T>, popped: seq<T>, events: seq<Event<T>>,
    pushReturns: seq<(T, bool)>, popReturns: seq<Option<T>>, counts: seq<(nat, nat)>)

  datatype Step<T> =
    | StartPush(point: T) | StartPushCount | ProducerStep
    | StartPop | StartPopCount | ConsumerStep

  function Init<T>(buf: seq<T>): Ring<T>
  {
    Ring(|buf|, buf, 0, 0, 0, PIdle, CIdle, [], [], [], [], [], [])
  }

  ghost predicate Enabled<T>(r: Ring<T>, step: Step<T>)
  {
    && 2 <= r.size == |r.buf|
    && match step
       case StartPush(_) => r.producer.PIdle?
       case StartPushCount => r.producer.PIdle?
       case ProducerStep => !r.producer.PIdle? && (r.producer.PWrite? ==> r.producer.head < r.size)
       case StartPop => r.consumer.CIdle?
       case StartPopCount => r.consumer.CIdle?
       case ConsumerStep => !r.consumer.CIdle? && (r.consumer.CRead? ==> r.consumer.tail < r.size)
  }

  function Occupancy<T>(r: Ring<T>): int { |r.pushed| - |r.popped| }

  function Next<T>(r: Ring<T>, step: Step<T>): Ring<T>
    requires Enabled(r, step)
  {
    match step
    case StartPush(point) => r.(producer := PHead(point, r.head))
    case StartPushCount => r.(producer := PCount(r.head))
    case ProducerStep => ProducerNext(r)
    case StartPop => r.(consumer := CTail(r.tail))
    case StartPopCount => r.(consumer := CCount(r.head, if Occupancy(r) >= 0 then Occupancy(r) else 0))
    case ConsumerStep => ConsumerNext(r)
  }

  function ProducerNext<T>(r: Ring<T>): Ring<T>
    requires Enabled(r, ProducerStep)
  {
    match r.producer
    case PHead(point, head) =>
      var next := NextIndex(r.size, head);
      if next == r.tail then r.(producer := PDrop(point), events := r.events + [PushFull(point)])
      else r.(producer := PWrite(point, head, next))
    case PWrite(point, head, next) => r.(buf := r.buf[head := point], producer := PStore(point, next))
    case PStore(point, next) =>
      r.(head := next, producer := PIdle, pushed := r.pushed + [point],
         events := r.events + [PushOk(point)], pushReturns := r.pushReturns + [(point, true)])
    case PDrop(point) =>
      r.(dropped := r.dropped + 1, producer := PIdle, pushReturns := r.pushReturns + [(point, false)])
    case PCount(head) =>
      r.(producer := PIdle, counts := r.counts + [(CountOf(r.size, head, r.tail),
                                                   if Occupancy(r) >= 0 then Occupancy(r) else 0)])
  }

  function ConsumerNext<T>(r: Ring<T>): Ring<T>
    requires Enabled(r, ConsumerStep)
  {
    match r.consumer
    case CTail(tail) =>
      if tail == r.head then
        r.(consumer := CIdle, events := r.events + [PopEmpty], popReturns := r.popReturns + [None])
      else r.(consumer := CRead(tail))
    case CRead(tail) => r.(consumer := CStore(tail, r.buf[tail]))
    case CStore(tail, point) =>
      r.(tail := NextIndex(r.size, tail), consumer := CIdle, popped := r.popped + [point],
         events := r.events + [PopOk(point)], popReturns := r.popReturns + [Some(point)])
    case CCount(head, seen) =>
      r.(consumer := CIdle, counts := r.counts + [(CountOf(r.size, head, r.tail), seen)])
  }

  // ----- slots -----

  /** The slot of the k-th point ever pushed: k applications of the index arithmetic. */
  function Slot(k: nat, size: nat): nat
    requires size > 0
  {
    if k == 0 then 0 else NextIndex(size, Slot(k - 1, size))
  }

  lemma NextIndexIs(size: nat, index: nat)
    requires index < size < 0x1_0000_0000
    ensures NextIndex(size, index) == if index + 1 == size then 0 else index + 1
  {
    if index + 1 == size { assert Rem(size, size) == Rem(0, size); }
  }

  lemma {:induction false} SlotBound(k: nat, size: nat)
    requires 0 < size < 0x1_0000_0000
    ensures Slot(k, size) < size
  {
    if k > 0 {
      SlotBound(k - 1, size);
      NextIndexIs(size, Slot(k - 1, size));
    }
  }

  lemma SlotNext(k: nat, size: nat)
    requires 0 < size < 0x1_0000_0000
    ensures Slot(k, size) < size
    ensures Slot(k + 1, size) == NextIndex(size, Slot(k, size))
         == if Slot(k, size) + 1 == size then 0 else Slot(k, size) + 1
  {
    SlotBound(k, size);
    NextIndexIs(size, Slot(k, size));
  }

  /** The index arithmetic is counting modulo size. */
  lemma {:induction false} SlotIsRemainder(k: nat, size: nat)
    requires 0 < size < 0x1_0000_0000
    ensures Slot(k, size) == k % size
  {
    if k == 0 {
      ModSmall(0, size);
    } else {
      SlotIsRemainder(k - 1, size);
      SlotNext(k - 1, size);
      ModNext(k - 1, size);
    }
  }

  /** Positions less than one lap apart fall on different slots. */
  lemma {:induction false} LapDistance(a: nat, b: nat, size: nat)
    requires a <= b < a + size && size < 0x1_0000_0000
    ensures Slot(a, size) < size
    ensures Slot(b, size) == if Slot(a, size) + (b - a) < size then Slot(a, size) + (b - a)
                             else Slot(a, size) + (b - a) - size
    decreases b - a
  {
    SlotBound(a, size);
    if a < b {
      LapDistance(a, b - 1, size);
      SlotNext(b - 1, size);
    }
  }

  lemma CountOfNoWrap(size: nat, head: nat, tail: nat)
    requires head < size && tail < size < 0x1_0000_0000
    ensures CountOf(size, head, tail) == if head >= tail then head - tail else size - tail + head
  {
  }

  /** The count expression recovers the distance of two positions from their slots alone. */
  lemma SlotCount(a: nat, b: nat, size: nat)
    requires a <= b < a + size && size < 0x1_0000_0000
    ensures CountOf(size, Slot(b, size), Slot(a, size)) == b - a
  {
    LapDistance(a, b, size);
    CountOfNoWrap(size, Slot(b, size), Slot(a, size));
  }

  lemma LapWraps(a: nat, size: nat)
    requires 0 < size < 0x1_0000_0000
    ensures Slot(a + size, size) == Slot(a, size)
  {
    LapDistance(a, a + size - 1, size);
    SlotNext(a + size - 1, size);
    SlotBound(a, size);
  }

  // ----- the bounded queue -----

  /** The queue a history of operations leaves, if every operation in it answered truthfully. */
  function Queue<T(==)>(capacity: int, events: seq<Event<T>>): Option<seq<T>>
  {
    if events == [] then Some([])
    else match Queue(capacity, events[..|events| - 1])
      case None => None
      case Some(q) => Apply(capacity, q, events[|events| - 1])
  }

  function Apply<T(==)>(capacity: int, q: seq<T>, event: Event<T>): Option<seq<T>>
  {
    match event
    case PushOk(p) => if |q| < capacity then Some(q + [p]) else None
    case PushFull(_) => if |q| == capacity then Some(q) else None
    case PopOk(p) => if q != [] && q[0] == p then Some(q[1..]) else None
    case PopEmpty => if q == [] then Some(q) else None
  }

  lemma QueueNext<T>(capacity: int, events: seq<Event<T>>, event: Event<T>)
    requires Queue(capacity, events).Some?
    ensures Queue(capacity, events + [event]) == Apply(capacity, Queue(capacity, events).value, event)
  {
    assert (events + [event])[..|events|] == events;
  }

  /** What the push calls answered, in order, according to the history. */
  function Pushes<T>(events: seq<Event<T>>): seq<(T, bool)>
  {
    if events == [] then []
    else
      var before := Pushes(events[..|events| - 1]);
      match events[|events| - 1]
      case PushOk(p) => before + [(p, true)]
      case PushFull(p) => before + [(p, false)]
      case _ => before
  }

  function Pops<T>(events: seq<Event<T>>): seq<Option<T>>
  {
    if events == [] then []
    else
      var before := Pops(events[..|events| - 1]);
      match events[|events| - 1]
      case PopOk(p) => before + [Some(p)]
      case PopEmpty => before + [None]
      case _ => before
  }

  lemma LogsNext<T>(events: seq<Event<T>>, event: Event<T>)
    ensures Pushes(events + [event]) == Pushes(events) +
              match event { case PushOk(p) => [(p, true)] case PushFull(p) => [(p, false)] case _ => [] }
    ensures Pops(events + [event]) == Pops(events) +
              match event { case PopOk(p) => [Some(p)] case PopEmpty => [None] case _ => [] }
  {
    assert (events + [event])[..|events|] == events;
  }

  function Refusals<T>(answers: seq<(T, bool)>): nat
  {
    if answers == [] then 0
    else Refusals(answers[..|answers| - 1]) + if answers[|answers| - 1].1 then 0 else 1
  }

  // ----- the invariant -----

  ghost predicate SlotHolds<T>(size: nat, buf: seq<T>, pushed: seq<T>, k: nat)
    requires 0 < size
  {
    k < |pushed| && Slot(k, size) < |buf| && buf[Slot(k, size)] == pushed[k]
  }

  /** The indices are the counters, and the slots between them hold what was pushed last. */
  ghost predicate SlotsOk<T>(size: nat, buf: seq<T>, head: nat, tail: nat, pushed: seq<T>, popped: seq<T>)
  {
    && 2 <= size == |buf| < 0x1_0000_0000
    && head == Slot(|pushed|, size) && tail == Slot(|popped|, size)
    && |popped| <= |pushed| < |popped| + size
    && popped <= pushed
    && forall k :: |popped| <= k < |pushed| ==> SlotHolds(size, buf, pushed, k)
  }

  ghost predicate Slots<T>(r: Ring<T>)
  {
    SlotsOk(r.size, r.buf, r.head, r.tail, r.pushed, r.popped)
  }

  ghost predicate ProducerOk<T>(r: Ring<T>)
    requires Slots(r)
  {
    match r.producer
    case PIdle => true
    case PHead(_, head) => head == r.head
    case PWrite(_, head, next) =>
      head == r.head && next == Slot(|r.pushed| + 1, r.size) && Occupancy(r) < r.size - 1
    case PStore(point, next) =>
      r.head < |r.buf| && r.buf[r.head] == point && next == Slot(|r.pushed| + 1, r.size) && Occupancy(r) < r.size - 1
    case PDrop(_) => true
    case PCount(head) => head == r.head
  }

  ghost predicate ConsumerOk<T>(r: Ring<T>)
    requires Slots(r)
  {
    match r.consumer
    case CIdle => true
    case CTail(tail) => tail == r.tail
    case CRead(tail) => tail == r.tail && Occupancy(r) > 0
    case CStore(tail, point) => tail == r.tail && Occupancy(r) > 0 && point == r.pushed[|r.popped|]
    case CCount(head, seen) => seen < r.size && head == Slot(|r.popped| + seen, r.size)
  }

  ghost predicate HistoryOk<T>(r: Ring<T>)
    requires Slots(r)
  {
    && Queue(r.size - 1, r.events) == Some(r.pushed[|r.popped|..])
    && Pushes(r.events) == r.pushReturns + (if r.producer.PDrop? then [(r.producer.point, false)] else [])
    && Pops(r.events) == r.popReturns
    && r.dropped == Refusals(r.pushReturns)
    && forall i :: 0 <= i < |r.counts| ==> r.counts[i].0 == r.counts[i].1 < r.size
  }

  ghost predicate Inv<T>(r: Ring<T>)
  {
    Slots(r) && ProducerOk(r) && ConsumerOk(r) && HistoryOk(r)
  }

  lemma InitInv<T>(buf: seq<T>)
    requires 2 <= |buf| < 0x1_0000_0000
    ensures Inv(Init(buf))
  {
  }

  lemma WriteKeepsSlots<T>(size: nat, buf: seq<T>, head: nat, tail: nat, pushed: seq<T>, popped: seq<T>, point: T)
    requires SlotsOk(size, buf, head, tail, pushed, popped) && |pushed| - |popped| < size - 1
    ensures head < size && SlotsOk(size, buf[head := point], head, tail, pushed, popped)
  {
    SlotBound(|pushed|, size);
    var written := buf[head := point];
    forall k | |popped| <= k < |pushed| ensures SlotHolds(size, written, pushed, k) {
      assert SlotHolds(size, buf, pushed, k);
      LapDistance(k, |pushed|, size);
    }
  }

  lemma PublishKeepsSlots<T>(size: nat, buf: seq<T>, head: nat, tail: nat, pushed: seq<T>, popped: seq<T>, point: T)
    requires SlotsOk(size, buf, head, tail, pushed, popped) && |pushed| - |popped| < size - 1
    requires head < |buf| && buf[head] == point
    ensures SlotsOk(size, buf, Slot(|pushed| + 1, size), tail, pushed + [point], popped)
  {
    var longer := pushed + [point];
    forall k | |popped| <= k < |longer| ensures SlotHolds(size, buf, longer, k) {
      if k < |pushed| {
        assert SlotHolds(size, buf, pushed, k);
      }
    }
  }

  lemma RetireKeepsSlots<T>(size: nat, buf: seq<T>, head: nat, tail: nat, pushed: seq<T>, popped: seq<T>)
    requires SlotsOk(size, buf, head, tail, pushed, popped) && |pushed| > |popped|
    ensures tail < |buf| && buf[tail] == pushed[|popped|]
    ensures SlotsOk(size, buf, head, Slot(|popped| + 1, size), pushed, popped + [pushed[|popped|]])
  {
    assert SlotHolds(size, buf, pushed, |popped|);
  }

  /** Seeing the tail one step ahead of head means the queue is full. */
  lemma TailAheadIsFull<T>(r: Ring<T>)
    requires Slots(r)
    ensures NextIndex(r.size, r.head) == r.tail <==> Occupancy(r) == r.size - 1
  {
    var n, m := |r.pushed|, |r.popped|;
    SlotNext(n, r.size);
    LapWraps(m, r.size);
    if n + 1 < m + r.size { LapDistance(m, n + 1, r.size); }
  }

  lemma ProducerKeepsSlots<T>(r: Ring<T>)
    requires Inv(r) && Enabled(r, ProducerStep)
    ensures Slots(ProducerNext(r)) && ProducerOk(ProducerNext(r)) && ConsumerOk(ProducerNext(r))
  {
    var n, m := |r.pushed|, |r.popped|;
    match r.producer
    case PHead(point, head) =>
      SlotNext(n, r.size);
      TailAheadIsFull(r);
    case PWrite(point, head, next) => WriteKeepsSlots(r.size, r.buf, r.head, r.tail, r.pushed, r.popped, point);
    case PStore(point, next) =>
      SlotNext(n, r.size);
      PublishKeepsSlots(r.size, r.buf, r.head, r.tail, r.pushed, r.popped, point);
    case _ =>
  }

  lemma RefuseKeepsHistory<T>(r: Ring<T>)
    requires Inv(r) && r.producer.PHead? && Occupancy(r) == r.size - 1
    ensures HistoryOk(r.(producer := PDrop(r.producer.point), events := r.events + [PushFull(r.producer.point)]))
  {
    QueueNext(r.size - 1, r.events, PushFull(r.producer.point));
    LogsNext(r.events, PushFull(r.producer.point));
  }

  lemma RefusalsNext<T>(answers: seq<(T, bool)>, point: T, ok: bool)
    ensures Refusals(answers + [(point, ok)]) == Refusals(answers) + if ok then 0 else 1
  {
    assert (answers + [(point, ok)])[..|answers|] == answers;
  }

  lemma PublishKeepsHistory<T>(r: Ring<T>)
    requires Inv(r) && r.producer.PStore? && Slots(ProducerNext(r))
    ensures HistoryOk(ProducerNext(r))
  {
    var point, m := r.producer.point, |r.popped|;
    QueueNext(r.size - 1, r.events, PushOk(point));
    LogsNext(r.events, PushOk(point));
    RefusalsNext(r.pushReturns, point, true);
    assert (r.pushed + [point])[m..] == r.pushed[m..] + [point];
  }

  lemma DropKeepsHistory<T>(r: Ring<T>)
    requires Inv(r) && r.producer.PDrop? && Slots(ProducerNext(r))
    ensures HistoryOk(ProducerNext(r))
  {
    var point := r.producer.point;
    RefusalsNext(r.pushReturns, point, false);
  }

  lemma ProducerCountKeepsHistory<T>(r: Ring<T>)
    requires Inv(r) && r.producer.PCount? && Slots(ProducerNext(r))
    ensures HistoryOk(ProducerNext(r))
  {
    SlotCount(|r.popped|, |r.pushed|, r.size);
  }

  lemma ProducerKeepsHistory<T>(r: Ring<T>)
    requires Inv(r) && Enabled(r, ProducerStep) && Slots(ProducerNext(r))
    ensures HistoryOk(ProducerNext(r))
  {
    match r.producer
    case PHead(point, head) =>
      TailAheadIsFull(r);
      if Occupancy(r) == r.size - 1 { RefuseKeepsHistory(r); }
    case PStore(_, _) => PublishKeepsHistory(r);
    case PDrop(_) => DropKeepsHistory(r);
    case PCount(_) => ProducerCountKeepsHistory(r);
    case _ =>
  }

  lemma ConsumerKeepsSlots<T>(r: Ring<T>)
    requires Inv(r) && Enabled(r, ConsumerStep)
    ensures Slots(ConsumerNext(r)) && ProducerOk(ConsumerNext(r)) && ConsumerOk(ConsumerNext(r))
  {
    var n, m := |r.pushed|, |r.popped|;
    match r.consumer
    case CTail(tail) => LapDistance(m, n, r.size);
    case CRead(tail) => RetireKeepsSlots(r.size, r.buf, r.head, r.tail, r.pushed, r.popped);
    case CStore(tail, point) =>
      SlotNext(m, r.size);
      RetireKeepsSlots(r.size, r.buf, r.head, r.tail, r.pushed, r.popped);
    case _ =>
  }

  lemma MissKeepsHistory<T>(r: Ring<T>)
    requires Inv(r) && r.consumer.CTail? && Occupancy(r) == 0 && Slots(ConsumerNext(r))
    ensures HistoryOk(ConsumerNext(r))
  {
    QueueNext(r.size - 1, r.events, PopEmpty);
    LogsNext(r.events, PopEmpty);
  }

  lemma RetireKeepsHistory<T>(r: Ring<T>)
    requires Inv(r) && r.consumer.CStore? && Slots(ConsumerNext(r))
    ensures HistoryOk(ConsumerNext(r))
  {
    var point, m := r.consumer.point, |r.popped|;
    QueueNext(r.size - 1, r.events, PopOk(point));
    LogsNext(r.events, PopOk(point));
    assert r.pushed[m..][1..] == r.pushed[m + 1..];
  }

  lemma ConsumerCountKeepsHistory<T>(r: Ring<T>)
    requires Inv(r) && r.consumer.CCount? && Slots(ConsumerNext(r))
    ensures HistoryOk(ConsumerNext(r))
  {
    SlotCount(|r.popped|, |r.popped| + r.consumer.seen, r.size);
  }

  lemma ConsumerKeepsHistory<T>(r: Ring<T>)
    requires Inv(r) && Enabled(r, ConsumerStep) && Slots(ConsumerNext(r))
    ensures HistoryOk(ConsumerNext(r))
  {
    match r.consumer
    case CTail(_) =>
      LapDistance(|r.popped|, |r.pushed|, r.size);
      if Occupancy(r) == 0 { MissKeepsHistory(r); }
    case CStore(_, _) => RetireKeepsHistory(r);
    case CCount(_, _) => ConsumerCountKeepsHistory(r);
    case _ =>
  }

  /** One step of either thread keeps the invariant. */
  lemma StepKeepsInv<T>(r: Ring<T>, step: Step<T>)
    requires Inv(r) && Enabled(r, step)
    ensures Inv(Next(r, step))
  {
    match step
    case ProducerStep =>
      ProducerKeepsSlots(r);
      ProducerKeepsHistory(r);
    case ConsumerStep =>
      ConsumerKeepsSlots(r);
      ConsumerKeepsHistory(r);
    case _ =>
  }

  // ----- runs -----

  ghost predicate CanRun<T>(r: Ring<T>, steps: seq<Step<T>>)
    decreases |steps|
  {
    steps == [] || (Enabled(r, steps[0]) && CanRun(Next(r, steps[0]), steps[1..]))
  }

  ghost function Run<T>(r: Ring<T>, steps: seq<Step<T>>): Ring<T>
    requires CanRun(r, steps)
    decreases |steps|
  {
    if steps == [] then r else Run(Next(r, steps[0]), steps[1..])
  }

  lemma {:induction false} RunKeepsInv<T>(r: Ring<T>, steps: seq<Step<T>>)
    requires Inv(r) && CanRun(r, steps)
    ensures Inv(Run(r, steps))
    decreases |steps|
  {
    if steps != [] {
      StepKeepsInv(r, steps[0]);
      RunKeepsInv(Next(r, steps[0]), steps[1..]);
    }
  }

  /** First in, first out under every interleaving: what was popped is a prefix of what was
      pushed, in order; the slots from tail to head hold exactly the rest; head and tail are
      the counters modulo size and at most size - 1 points are inside. */
  lemma PoppedIsPrefixOfPushed<T>(buf: seq<T>, steps: seq<Step<T>>)
    requires 2 <= |buf| < 0x1_0000_0000 && CanRun(Init(buf), steps)
    ensures var r := Run(Init(buf), steps);
      && r.popped <= r.pushed
      && 0 <= Occupancy(r) <= |buf| - 1
      && r.size == |r.buf| == |buf|
      && r.head == |r.pushed| % |buf| && r.tail == |r.popped| % |buf|
      && forall k :: |r.popped| <= k < |r.pushed| ==> SlotHolds(|buf|, r.buf, r.pushed, k)
  {
    InitInv(buf);
    RunKeepsInv(Init(buf), steps);
    SizeKept(Init(buf), steps);
    var r := Run(Init(buf), steps);
    SlotIsRemainder(|r.pushed|, |buf|);
    SlotIsRemainder(|r.popped|, |buf|);
  }

  lemma {:induction false} SizeKept<T>(r: Ring<T>, steps: seq<Step<T>>)
    requires CanRun(r, steps)
    ensures Run(r, steps).size == r.size
    decreases |steps|
  {
    if steps != [] { SizeKept(Next(r, steps[0]), steps[1..]); }
  }

  /** No data race on a slot: the producer is never copying into the slot the consumer is
      copying out of. */
  lemma NoSlotRace<T>(buf: seq<T>, steps: seq<Step<T>>)
    requires 2 <= |buf| < 0x1_0000_0000 && CanRun(Init(buf), steps)
    ensures var r := Run(Init(buf), steps);
      r.producer.PWrite? && r.consumer.CRead? ==> r.producer.head != r.consumer.tail
  {
    InitInv(buf);
    RunKeepsInv(Init(buf), steps);
    var r := Run(Init(buf), steps);
    LapDistance(|r.popped|, |r.pushed|, r.size);
  }

  /** Linearizability: the effects, each placed at one step inside its call, form a history
      that a bounded queue of size - 1 places answers exactly as the calls did, including the
      refusals when full and the misses when empty. */
  lemma RingRefinesBoundedQueue<T>(buf: seq<T>, steps: seq<Step<T>>)
    requires 2 <= |buf| < 0x1_0000_0000 && CanRun(Init(buf), steps)
    ensures var r := Run(Init(buf), steps);
      && |r.popped| <= |r.pushed|
      && Queue(|buf| - 1, r.events) == Some(r.pushed[|r.popped|..])
      && Pops(r.events) == r.popReturns
      && (r.producer.PIdle? ==> Pushes(r.events) == r.pushReturns)
      && r.dropped == Refusals(r.pushReturns)
  {
    InitInv(buf);
    RunKeepsInv(Init(buf), steps);
    SizeKept(Init(buf), steps);
  }

  /** spsc_ring_count, called from the producer or the consumer thread, returns the true
      occupancy at one of its own two loads: the tail load for the producer, the head load for
      the consumer, however the other thread runs in between. */
  lemma OwnCountIsTrue<T>(buf: seq<T>, steps: seq<Step<T>>, i: nat)
    requires 2 <= |buf| < 0x1_0000_0000 && CanRun(Init(buf), steps)
    requires i < |Run(Init(buf), steps).counts|
    ensures Run(Init(buf), steps).counts[i].0 == Run(Init(buf), steps).counts[i].1 <= |buf| - 1
  {
    InitInv(buf);
    RunKeepsInv(Init(buf), steps);
    SizeKept(Init(buf), steps);
  }

  /** The points push was called with, in order. */
  function Offered<T>(steps: seq<Step<T>>): seq<T>
  {
    if steps == [] then []
    else if steps[0].StartPush? then [steps[0].point] + Offered(steps[1..])
    else Offered(steps[1..])
  }

  /** The point of the push in progress, if there is one. */
  function InPush<T>(p: Producer<T>): seq<T>
  {
    match p
    case PHead(point, _) => [point]
    case PWrite(point, _, _) => [point]
    case PStore(point, _) => [point]
    case PDrop(point) => [point]
    case _ => []
  }

  function Answered<T>(answers: seq<(T, bool)>): (points: seq<T>)
    ensures |points| == |answers|
  {
    seq(|answers|, i requires 0 <= i < |answers| => answers[i].0)
  }

  lemma StepOffers<T>(r: Ring<T>, step: Step<T>)
    requires Enabled(r, step)
    ensures Answered(Next(r, step).pushReturns) + InPush(Next(r, step).producer)
         == Answered(r.pushReturns) + InPush(r.producer) + if step.StartPush? then [step.point] else []
  {
  }

  lemma {:induction false} RunOffers<T>(r: Ring<T>, steps: seq<Step<T>>)
    requires CanRun(r, steps)
    ensures Answered(Run(r, steps).pushReturns) + InPush(Run(r, steps).producer)
         == Answered(r.pushReturns) + InPush(r.producer) + Offered(steps)
    decreases |steps|
  {
    if steps != [] {
      StepOffers(r, steps[0]);
      RunOffers(Next(r, steps[0]), steps[1..]);
    }
  }

  /** The calls that have returned answered for exactly the points they were called with, in order,
      and the points inside and popped are those of the calls that answered true. */
  lemma PushesAreThoseOffered<T>(buf: seq<T>, steps: seq<Step<T>>)
    requires 2 <= |buf| < 0x1_0000_0000 && CanRun(Init(buf), steps)
    ensures var r := Run(Init(buf), steps);
      && Answered(r.pushReturns) + InPush(r.producer) == Offered(steps)
      && r.pushed == Successes(r.pushReturns)
  {
    RunOffers(Init(buf), steps);
    RunSuccesses(Init(buf), steps);
  }

  function Successes<T>(answers: seq<(T, bool)>): seq<T>
  {
    if answers == [] then []
    else
      var (point, ok) := answers[|answers| - 1];
      Successes(answers[..|answers| - 1]) + if ok then [point] else []
  }

  lemma SuccessesNext<T>(answers: seq<(T, bool)>, point: T, ok: bool)
    ensures Successes(answers + [(point, ok)]) == Successes(answers) + if ok then [point] else []
  {
    assert (answers + [(point, ok)])[..|answers|] == answers;
  }

  lemma StepSuccesses<T>(r: Ring<T>, step: Step<T>)
    requires Enabled(r, step) && r.pushed == Successes(r.pushReturns)
    ensures Next(r, step).pushed == Successes(Next(r, step).pushReturns)
  {
    if step.ProducerStep? && r.producer.PStore? {
      SuccessesNext(r.pushReturns, r.producer.point, true);
    } else if step.ProducerStep? && r.producer.PDrop? {
      SuccessesNext(r.pushReturns, r.producer.point, false);
    }
  }

  lemma {:induction false} RunSuccesses<T>(r: Ring<T>, steps: seq<Step<T>>)
    requires CanRun(r, steps) && r.pushed == Successes(r.pushReturns)
    ensures Run(r, steps).pushed == Successes(Run(r, steps).pushReturns)
    decreases |steps|
  {
    if steps != [] {
      StepSuccesses(r, steps[0]);
      RunSuccesses(Next(r, steps[0]), steps[1..]);
    }
  }

  lemma {:induction false} RunAppend<T>(r: Ring<T>, a: seq<Step<T>>, b: seq<Step<T>>)
    requires CanRun(r, a) && CanRun(Run(r, a), b)
    ensures CanRun(r, a + b) && Run(r, a + b) == Run(Run(r, a), b)
    decreases |a|
  {
    if a == [] {
      assert a + b == b;
    } else {
      assert (a + b)[1..] == a[1..] + b;
      RunAppend(Next(r, a[0]), a[1..], b);
    }
  }

  lemma RunCons<T>(r: Ring<T>, step: Step<T>, rest: seq<Step<T>>)
    requires Enabled(r, step) && CanRun(Next(r, step), rest)
    ensures CanRun(r, [step] + rest) && Run(r, [step] + rest) == Run(Next(r, step), rest)
  {
    assert ([step] + rest)[1..] == rest;
  }

  lemma RunFour<T>(r: Ring<T>, first: Step<T>, next: Step<T>)
    requires Enabled(r, first) && Enabled(Next(r, first), next)
    requires Enabled(Next(Next(r, first), next), next)
    requires Enabled(Next(Next(Next(r, first), next), next), next)
    ensures CanRun(r, [first, next, next, next])
    ensures Run(r, [first, next, next, next]) == Next(Next(Next(Next(r, first), next), next), next)
  {
    var r1 := Next(r, first);
    var r2 := Next(r1, next);
    var r3 := Next(r2, next);
    RunCons(r3, next, []);
    RunCons(r2, next, [next] + []);
    RunCons(r1, next, [next] + ([next] + []));
    RunCons(r, first, [next] + ([next] + ([next] + [])));
    assert [first] + ([next] + ([next] + ([next] + []))) == [first, next, next, next];
  }

  lemma {:induction false} PoppedGrows<T>(r: Ring<T>, steps: seq<Step<T>>)
    requires CanRun(r, steps)
    ensures |r.popped| <= |Run(r, steps).popped|
    decreases |steps|
  {
    if steps != [] { PoppedGrows(Next(r, steps[0]), steps[1..]); }
  }

  /** The count expression on the slots of n pushes and m pops, of which before came first. */
  lemma CountOfCounters(size: nat, n: nat, before: nat, m: nat)
    requires before <= n < before + size && before <= m && size < 0x1_0000_0000
    ensures CountOf(size, n % size, m % size) == (n - m) % size
    ensures CountOf(size, n % size, m % size) == n - before <==> (m - before) % size == 0
  {
    DivMod(n, size);
    DivMod(m, size);
    CountOfNoWrap(size, n % size, m % size);
    ModDifference(n, m, size);
    assert n - m == n - before - (m - before);
    ModUnchanged(n - before, m - before, size);
  }

  /** What a third thread would compute, with any steps of the two others before its head load and
      between its two loads: the pushes at the head load minus the pops at the tail load, modulo
      size. That is the occupancy at the head load exactly when the pops in between are none, or a
      multiple of size. */
  lemma ForeignCountIs<T>(buf: seq<T>, a: seq<Step<T>>, b: seq<Step<T>>)
    requires 2 <= |buf| < 0x1_0000_0000 && CanRun(Init(buf), a) && CanRun(Run(Init(buf), a), b)
    ensures var atHead := Run(Init(buf), a);
      var atTail := Run(atHead, b);
      var overtaken := |atTail.popped| - |atHead.popped|;
      && CountOf(|buf|, atHead.head, atTail.tail) == (|atHead.pushed| - |atTail.popped|) % |buf|
      && overtaken >= 0
      && (CountOf(|buf|, atHead.head, atTail.tail) == Occupancy(atHead) <==> overtaken % |buf| == 0)
  {
    var atHead := Run(Init(buf), a);
    RunAppend(Init(buf), a, b);
    PoppedIsPrefixOfPushed(buf, a);
    PoppedIsPrefixOfPushed(buf, a + b);
    PoppedGrows(atHead, b);
    CountOfCounters(|buf|, |atHead.pushed|, |atHead.popped|, |Run(atHead, b).popped|);
  }

  /** So it can be wrong: with its head load before and its tail load after one
      push and one pop on a four-slot ring, the count expression yields three, though the ring
      never held more than one point. */
  lemma ForeignCountCanBeWrong(x: int)
    ensures var r := Init([x, x, x, x]);
      var steps := [StartPush(x), ProducerStep, ProducerStep, ProducerStep]
                 + [StartPop, ConsumerStep, ConsumerStep, ConsumerStep];
      && CanRun(r, steps)
      && Occupancy(Run(r, steps)) == 0
      && CountOf(4, r.head, Run(r, steps).tail) == 3
  {
    var r := Init([x, x, x, x]);
    NextIndexIs(4, 0);
    RunFour(r, StartPush(x), ProducerStep);
    var full := Run(r, [StartPush(x), ProducerStep, ProducerStep, ProducerStep]);
    assert full.head == 1 && full.tail == 0;
    RunFour(full, StartPop, ConsumerStep);
    RunAppend(r, [StartPush(x), ProducerStep, ProducerStep, ProducerStep],
              [StartPop, ConsumerStep, ConsumerStep, ConsumerStep]);
  }
}
