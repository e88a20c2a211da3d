/** The command queue of src/runtime/command_scheduler.c: ids assigned on submit, everything
    pending sent and settled on tick. */
module CommandScheduler {
  import opened DeviceModel

  const QUEUE_MAX: nat := 32

  datatype Scheduler = Scheduler(queue: seq<Command>, nextId: nat)

  /** command_scheduler_init. */
  const EMPTY: Scheduler := Scheduler([], 1)

  /** command_scheduler_submit: the queued command, or nothing when the queue is full. */
  function Submit(s: Scheduler, c: Command): (Scheduler, Option<Command>)
  {
    if |s.queue| >= QUEUE_MAX then (s, None)
    else
      var id := if c.id == 0 then s.nextId else c.id;
      var next := if c.id == 0 then s.nextId + 1 else if c.id >= s.nextId then c.id + 1 else s.nextId;
      var queued := c.(id := id, state := Pending);
      (Scheduler(s.queue + [queued], next), Some(queued))
  }

  function PendingOnly(q: seq<Command>): (p: seq<Command>)
    ensures |p| <= |q|
  {
    if q == [] then []
    else PendingOnly(q[..|q| - 1]) + if q[|q| - 1].state == Pending then [q[|q| - 1]] else []
  }

  /** What becomes of one command; ok is whether the adapter took the write (or has none). */
  function Settle(c: Command, ok: bool): Command
  {
    if ok then c.(state := Verified, message := "simulator readback verified")
    else c.(state := Failed, message := "adapter write failed")
  }

  /** settled is c, FAILED if the adapter refused the write and VERIFIED if not; otherwise as it was. */
  predicate Outcome(c: Command, settled: Command, written: bool)
  {
    && settled.state == (if written then Verified else CommandState.Failed)
    && settled.message == (if written then "simulator readback verified" else "adapter write failed")
    && settled.id == c.id && settled.createdMs == c.createdMs && settled.target == c.target
    && settled.pointId == c.pointId && settled.value == c.value && settled.maxRetries == c.maxRetries
  }

  lemma SettleOutcome(c: Command, ok: bool)
    ensures Outcome(c, Settle(c, ok), ok)
  {
  }

  function SettleAll(q: seq<Command>, oks: seq<bool>): (r: seq<Command>)
    requires |q| <= |oks|
    ensures |r| == |q| && forall i :: 0 <= i < |q| ==> r[i] == Settle(q[i], oks[i])
  {
    seq(|q|, i requires 0 <= i < |q| => Settle(q[i], oks[i]))
  }

  /** command_scheduler_tick: the emptied queue and the settled commands, in order. */
  function Tick(s: Scheduler, oks: seq<bool>): (Scheduler, seq<Command>)
    requires |s.queue| <= |oks|
  {
    (s.(queue := []), SettleAll(PendingOnly(s.queue), oks))
  }

  class CommandScheduler {
    const queue: array<Command>
    var count: nat
    var nextCommandId: nat

    constructor ()
      ensures Valid() && fresh(queue) && State() == EMPTY
    {
      queue := new Command[QUEUE_MAX](i => Command(0, 0, "", "", 0.0, Pending, 0, ""));
      count, nextCommandId := 0, 1;
    }

    ghost predicate Valid()
      reads this
    {
      queue.Length == QUEUE_MAX && count <= QUEUE_MAX
    }

    ghost function State(): Scheduler
      reads this, queue
      requires Valid()
    {
      Scheduler(queue[..count], nextCommandId)
    }

    method SubmitCommand(c: Command) returns (rc: int, command: Command)
      requires Valid()
      modifies this, queue
      ensures Valid()
      ensures (State(), if rc == 0 then Some(command) else None) == Submit(old(State()), c)
      ensures rc == 0 || (rc == -1 && command == c)
      ensures rc == 0 <==> old(count) < QUEUE_MAX
      ensures rc == 0 ==>
        && command.(id := c.id, state := c.state) == c && command.state == Pending
        && command.id == (if c.id == 0 then old(nextCommandId) else c.id)
        && count == old(count) + 1 && queue[old(count)] == command
    {
      command := c;
      if count >= QUEUE_MAX {
        return -1, c;
      }
      if command.id == 0 {
        command := command.(id := nextCommandId);
        nextCommandId := nextCommandId + 1;
      } else if command.id >= nextCommandId {
        nextCommandId := command.id + 1;
      }
      command := command.(state := Pending);
      queue[count] := command;
      count := count + 1;
      assert queue[..count] == old(queue[..count]) + [command];
      return 0, command;
    }

    /** The first loop of the tick: copy out what is pending. */
    method CollectPending(pending: array<Command>) returns (n: nat)
      requires Valid() && pending.Length == QUEUE_MAX && pending != queue
      modifies pending
      ensures n <= count && pending[..n] == PendingOnly(queue[..count])
    {
      n := 0;
      for i := 0 to count
        invariant n <= i
        invariant pending[..n] == PendingOnly(queue[..i])
      {
        assert queue[..i + 1][..i] == queue[..i];
        if queue[i].state == Pending {
          pending[n] := queue[i];
          n := n + 1;
        }
      }
    }

    /** adapter is whether there is one, hasWrite whether it has a write function, oks what each
        write returns. settled is what goes to storage and the log. */
    method TickQueue(adapter: bool, hasWrite: bool, oks: seq<bool>) returns (processed: nat, settled: seq<Command>)
      requires Valid() && |oks| == QUEUE_MAX
      modifies this`count
      ensures Valid()
      ensures !adapter ==> processed == 0 && settled == [] && State() == old(State())
      ensures adapter ==>
        && (State(), settled) == Tick(old(State()), Answers(hasWrite, oks))
        && processed == |settled| == |PendingOnly(old(State()).queue)|
        && forall i :: 0 <= i < processed ==>
             Outcome(PendingOnly(old(State()).queue)[i], settled[i], !(hasWrite && !oks[i]))
    {
      processed, settled := 0, [];
      if !adapter {
        return;
      }
      var pending := new Command[QUEUE_MAX](i => Command(0, 0, "", "", 0.0, Pending, 0, ""));
      var pendingCount := CollectPending(pending);
      count := 0;
      settled := SettlePending(pending, pendingCount, hasWrite, oks);
      processed := |settled|;
    }
  }

  /** An adapter without a write function accepts everything. */
  function Answers(hasWrite: bool, oks: seq<bool>): (r: seq<bool>)
    ensures |r| == |oks| && forall i :: 0 <= i < |r| ==> r[i] == (!hasWrite || oks[i])
  {
    seq(|oks|, i requires 0 <= i < |oks| => !hasWrite || oks[i])
  }

  /** The second loop of the tick: send each command and record what became of it. */
  method SettlePending(pending: array<Command>, n: nat, hasWrite: bool, oks: seq<bool>)
    returns (settled: seq<Command>)
    requires n <= pending.Length && n <= |oks|
    modifies pending
    ensures settled == SettleAll(old(pending[..n]), Answers(hasWrite, oks))
    ensures |settled| == n
    ensures forall i :: 0 <= i < n ==> Outcome(old(pending[i]), settled[i], !(hasWrite && !oks[i]))
  {
    settled := [];
    for i := 0 to n
      invariant |settled| == i
      invariant forall k :: i <= k < n ==> pending[k] == old(pending[k])
      invariant forall k :: 0 <= k < i ==> settled[k] == Settle(old(pending[k]), !hasWrite || oks[k])
    {
      pending[i] := pending[i].(state := Sent);
      if hasWrite && !oks[i] {
        pending[i] := pending[i].(state := Failed, message := "adapter write failed");
      } else {
        pending[i] := pending[i].(state := Acked);
        pending[i] := pending[i].(state := Verified, message := "simulator readback verified");
      }
      settled := settled + [pending[i]];
    }
  }

  // ----- runs -----

  datatype Event = SubmitEvent(command: Command) | TickEvent(oks: seq<bool>)

  /** accepted and settled record every command queued and every command settled, in order;
      regular is whether every accepted submission asked for id 0 or one not yet used up. */
  datatype Log = Log(sched: Scheduler, accepted: seq<Command>, settled: seq<Command>, regular: bool)

  const BEGIN: Log := Log(EMPTY, [], [], true)

  function Do(l: Log, e: Event): Log
    requires e.TickEvent? ==> |l.sched.queue| <= |e.oks|
  {
    match e
    case SubmitEvent(c) =>
      var (s, queued) := Submit(l.sched, c);
      if queued.None? then l.(sched := s)
      else l.(sched := s, accepted := l.accepted + [queued.value],
              regular := l.regular && (c.id == 0 || c.id >= l.sched.nextId))
    case TickEvent(oks) =>
      var (s, done) := Tick(l.sched, oks);
      l.(sched := s, settled := l.settled + done)
  }

  ghost predicate WellFormed(events: seq<Event>)
  {
    forall i :: 0 <= i < |events| ==> events[i].TickEvent? ==> |events[i].oks| >= QUEUE_MAX
  }

  /** settled is accepted up to some point, each entry settled once and otherwise unchanged; the
      queue is the rest, still pending. */
  ghost predicate AccountedOf(queue: seq<Command>, accepted: seq<Command>, settled: seq<Command>)
  {
    && |queue| <= QUEUE_MAX
    && |accepted| == |settled| + |queue|
    && queue == accepted[|settled|..]
    && (forall k :: 0 <= k < |accepted| ==> accepted[k].state == Pending)
    && forall k :: 0 <= k < |settled| ==> SettledFrom(accepted[k], settled[k])
  }

  ghost predicate Accounted(l: Log) { AccountedOf(l.sched.queue, l.accepted, l.settled) }

  ghost predicate SettledFrom(accepted: Command, settled: Command)
  {
    settled == Settle(accepted, true) || settled == Settle(accepted, false)
  }

  lemma SettledMeans(accepted: Command, settled: Command)
    requires SettledFrom(accepted, settled) && accepted.state == Pending
    ensures settled.state in {Verified, Failed}
    ensures settled.(state := Pending, message := accepted.message) == accepted
  {
  }

  ghost predicate IdsIncrease(cs: seq<Command>) { forall i, j :: 0 <= i < j < |cs| ==> cs[i].id < cs[j].id }

  /** The next id is one past the largest accepted so far. */
  ghost predicate IdsOk(l: Log)
  {
    && l.sched.nextId >= 1
    && (forall k :: 0 <= k < |l.accepted| ==> 1 <= l.accepted[k].id < l.sched.nextId)
    && (l.accepted == [] ==> l.sched.nextId == 1)
    && (l.accepted != [] ==> exists k :: 0 <= k < |l.accepted| && l.accepted[k].id == l.sched.nextId - 1)
    && (IdsIncrease(l.accepted) <==> l.regular)
  }

  lemma {:induction false} AllPending(q: seq<Command>)
    requires forall k :: 0 <= k < |q| ==> q[k].state == Pending
    ensures PendingOnly(q) == q
    decreases |q|
  {
    if q != [] {
      AllPending(q[..|q| - 1]);
      assert q == q[..|q| - 1] + [q[|q| - 1]];
    }
  }

  /** The pending commands of a queue, each as often as it is in there, and nothing else. */
  lemma {:induction false} PendingOnlyCounts(q: seq<Command>, c: Command)
    ensures multiset(PendingOnly(q))[c] == if c.state == Pending then multiset(q)[c] else 0
    decreases |q|
  {
    if q != [] {
      PendingOnlyCounts(q[..|q| - 1], c);
      assert q == q[..|q| - 1] + [q[|q| - 1]];
    }
  }

  lemma SubmitKeepsAccounts(l: Log, c: Command)
    requires Accounted(l)
    ensures Accounted(Do(l, SubmitEvent(c)))
  {
    var m := Do(l, SubmitEvent(c));
    if |m.accepted| > |l.accepted| {
      assert m.accepted[|m.settled|..] == l.accepted[|l.settled|..] + [m.accepted[|l.accepted|]];
    }
  }

  lemma SettledTail(accepted: seq<Command>, n: nat, oks: seq<bool>)
    requires n <= |accepted| && |accepted| - n <= |oks|
    ensures var done := SettleAll(accepted[n..], oks);
      forall k :: 0 <= k < |done| ==> SettledFrom(accepted[n + k], done[k])
  {
    var done := SettleAll(accepted[n..], oks);
    forall k | 0 <= k < |done| ensures SettledFrom(accepted[n + k], done[k]) {
      assert done[k] == Settle(accepted[n..][k], oks[k]);
      assert accepted[n..][k] == accepted[n + k];
    }
  }

  /** A tick of a fully accounted log settles the whole queue. */
  lemma TickSettlesQueue(l: Log, oks: seq<bool>)
    requires Accounted(l) && |oks| >= QUEUE_MAX
    ensures Do(l, TickEvent(oks)) ==
      l.(sched := Scheduler([], l.sched.nextId), settled := l.settled + SettleAll(l.accepted[|l.settled|..], oks))
  {
    AllPending(l.accepted[|l.settled|..]);
  }

  lemma AllAccounted(queue: seq<Command>, accepted: seq<Command>, settled: seq<Command>, done: seq<Command>)
    requires AccountedOf(queue, accepted, settled) && |done| == |queue|
    requires forall k :: 0 <= k < |done| ==> SettledFrom(accepted[|settled| + k], done[k])
    ensures AccountedOf([], accepted, settled + done)
  {
    SettledConcat(accepted, settled, done);
    assert accepted[|accepted|..] == [];
  }

  lemma SettledAccounted(queue: seq<Command>, accepted: seq<Command>, settled: seq<Command>, oks: seq<bool>)
    requires AccountedOf(queue, accepted, settled) && |oks| >= QUEUE_MAX
    ensures AccountedOf([], accepted, settled + SettleAll(accepted[|settled|..], oks))
  {
    SettledTail(accepted, |settled|, oks);
    AllAccounted(queue, accepted, settled, SettleAll(accepted[|settled|..], oks));
  }

  lemma TickKeepsAccounts(l: Log, oks: seq<bool>)
    requires Accounted(l) && |oks| >= QUEUE_MAX
    ensures Accounted(Do(l, TickEvent(oks)))
  {
    TickSettlesQueue(l, oks);
    SettledAccounted(l.sched.queue, l.accepted, l.settled, oks);
  }

  lemma SettledConcat(accepted: seq<Command>, a: seq<Command>, b: seq<Command>)
    requires |accepted| == |a| + |b|
    requires forall k :: 0 <= k < |a| ==> SettledFrom(accepted[k], a[k])
    requires forall k :: 0 <= k < |b| ==> SettledFrom(accepted[|a| + k], b[k])
    ensures forall k :: 0 <= k < |accepted| ==> SettledFrom(accepted[k], (a + b)[k])
  {
    forall k | 0 <= k < |accepted| ensures SettledFrom(accepted[k], (a + b)[k]) {
      if k >= |a| {
        assert SettledFrom(accepted[|a| + (k - |a|)], b[k - |a|]);
      }
    }
  }

  lemma DoKeepsAccounts(l: Log, e: Event)
    requires Accounted(l) && (e.TickEvent? ==> |e.oks| >= QUEUE_MAX)
    ensures Accounted(Do(l, e))
  {
    match e
    case SubmitEvent(c) => SubmitKeepsAccounts(l, c);
    case TickEvent(oks) => TickKeepsAccounts(l, oks);
  }

  lemma SubmitKeepsIds(l: Log, c: Command)
    requires IdsOk(l)
    ensures IdsOk(Do(l, SubmitEvent(c)))
  {
    var m := Do(l, SubmitEvent(c));
    if |m.accepted| > |l.accepted| {
      var n := |l.accepted|;
      var x := m.accepted[n];
      if l.accepted != [] {
        var k :| 0 <= k < n && l.accepted[k].id == l.sched.nextId - 1;
        assert m.accepted[k] == l.accepted[k];
        if x.id >= l.sched.nextId {
          assert m.accepted[n].id == m.sched.nextId - 1;
        }
      } else {
        assert m.accepted[0].id == m.sched.nextId - 1;
      }
      if IdsIncrease(m.accepted) {
        forall i, j | 0 <= i < j < n ensures l.accepted[i].id < l.accepted[j].id {
          assert m.accepted[i].id < m.accepted[j].id;
        }
      }
    }
  }

  function RunEvents(l: Log, events: seq<Event>): (r: Log)
    requires Accounted(l) && WellFormed(events)
    ensures Accounted(r)
    decreases |events|
  {
    if events == [] then l
    else
      DoKeepsAccounts(l, events[0]);
      RunEvents(Do(l, events[0]), events[1..])
  }

  lemma {:induction false} RunKeeps(l: Log, events: seq<Event>)
    requires Accounted(l) && IdsOk(l) && WellFormed(events)
    ensures Accounted(RunEvents(l, events)) && IdsOk(RunEvents(l, events))
    decreases |events|
  {
    if events != [] {
      DoKeepsAccounts(l, events[0]);
      if events[0].SubmitEvent? { SubmitKeepsIds(l, events[0].command); }
      RunKeeps(Do(l, events[0]), events[1..]);
    }
  }

  /** Over any submits and ticks: the queue holds at most 32 commands, all pending, and they are
      the accepted commands not yet settled; every other accepted command was settled exactly
      once, in submission order, as VERIFIED or FAILED and otherwise as it was submitted. */
  lemma EveryCommandSettledOnce(events: seq<Event>)
    requires WellFormed(events)
    ensures var l := RunEvents(BEGIN, events);
      && |l.sched.queue| <= QUEUE_MAX
      && |l.settled| <= |l.accepted| && l.sched.queue == l.accepted[|l.settled|..]
      && (forall k :: 0 <= k < |l.sched.queue| ==> l.sched.queue[k].state == Pending)
      && forall k :: 0 <= k < |l.settled| ==>
           && l.settled[k].state in {Verified, Failed}
           && l.settled[k].(state := Pending, message := l.accepted[k].message) == l.accepted[k]
  {
    assert IdsIncrease([]);
    RunKeeps(BEGIN, events);
    var l := RunEvents(BEGIN, events);
    forall k | 0 <= k < |l.sched.queue| ensures l.sched.queue[k].state == Pending {
      assert l.sched.queue[k] == l.accepted[|l.settled| + k];
    }
    forall k | 0 <= k < |l.settled|
      ensures l.settled[k].state in {Verified, Failed}
      ensures l.settled[k].(state := Pending, message := l.accepted[k].message) == l.accepted[k]
    {
      SettledMeans(l.accepted[k], l.settled[k]);
    }
  }

  /** Accepted ids increase strictly exactly when every accepted submission asked for id 0 or an
      id not below the next one; a smaller id is accepted too and breaks the order. */
  lemma IdsIncreaseIffRegular(events: seq<Event>)
    requires WellFormed(events)
    ensures var l := RunEvents(BEGIN, events);
      && (IdsIncrease(l.accepted) <==> l.regular)
      && forall k :: 0 <= k < |l.accepted| ==> 1 <= l.accepted[k].id < l.sched.nextId
  {
    assert IdsIncrease([]);
    RunKeeps(BEGIN, events);
  }

  // ----- what becomes of each command -----

  lemma {:induction false} RunEventsSplit(l: Log, a: seq<Event>, b: seq<Event>)
    requires Accounted(l) && WellFormed(a) && WellFormed(b)
    ensures WellFormed(a + b) && Accounted(RunEvents(l, a))
    ensures RunEvents(l, a + b) == RunEvents(RunEvents(l, a), b)
    decreases |a|
  {
    if a == [] {
      assert a + b == b;
    } else {
      assert (a + b)[1..] == a[1..] + b;
      DoKeepsAccounts(l, a[0]);
      RunEventsSplit(Do(l, a[0]), a[1..], b);
    }
  }

  /** No event touches what is already recorded. */
  lemma {:induction false} RecordsStay(l: Log, events: seq<Event>)
    requires Accounted(l) && WellFormed(events)
    ensures l.accepted <= RunEvents(l, events).accepted && l.settled <= RunEvents(l, events).settled
    decreases |events|
  {
    if events != [] {
      DoKeepsAccounts(l, events[0]);
      RecordsStay(Do(l, events[0]), events[1..]);
    }
  }

  lemma OneEvent(l: Log, e: Event)
    requires Accounted(l) && WellFormed([e])
    ensures RunEvents(l, [e]) == Do(l, e)
  {
    assert [e][0] == e && [e][1..] == [];
  }

  lemma RunAround(a: seq<Event>, e: Event, b: seq<Event>, all: seq<Event>)
    requires WellFormed(a) && (e.TickEvent? ==> |e.oks| >= QUEUE_MAX) && WellFormed(b) && all == a + [e] + b
    ensures WellFormed(all) && Accounted(Do(RunEvents(BEGIN, a), e))
    ensures RunEvents(BEGIN, all) == RunEvents(Do(RunEvents(BEGIN, a), e), b)
  {
    RunEventsSplit(BEGIN, a, [e]);
    RunEventsSplit(BEGIN, a + [e], b);
    OneEvent(RunEvents(BEGIN, a), e);
  }

  lemma OutcomesOf(accepted: seq<Command>, settled: seq<Command>, oks: seq<bool>, all: seq<Command>)
    requires |settled| <= |accepted| && |accepted| - |settled| <= |oks|
    requires all == settled + SettleAll(accepted[|settled|..], oks)
    ensures |all| == |accepted| && all[..|settled|] == settled
    ensures forall k :: |settled| <= k < |accepted| ==> Outcome(accepted[k], all[k], oks[k - |settled|])
  {
    var n := |settled|;
    forall k | n <= k < |accepted| ensures Outcome(accepted[k], all[k], oks[k - n]) {
      assert accepted[n..][k - n] == accepted[k];
      SettleOutcome(accepted[k], oks[k - n]);
    }
  }

  lemma TickOutcomes(at: Log, oks: seq<bool>, next: Log)
    requires Accounted(at) && |oks| >= QUEUE_MAX && next == Do(at, TickEvent(oks))
    ensures next.accepted == at.accepted && |next.settled| == |at.accepted| == |at.settled| + |at.sched.queue|
    ensures next.settled[..|at.settled|] == at.settled
    ensures forall k :: |at.settled| <= k < |at.accepted| ==>
              Outcome(at.accepted[k], next.settled[k], oks[k - |at.settled|])
  {
    TickSettlesQueue(at, oks);
    OutcomesOf(at.accepted, at.settled, oks, next.settled);
  }

  lemma TickThenMore(at: Log, oks: seq<bool>, b: seq<Event>, end: Log)
    requires Accounted(at) && |oks| >= QUEUE_MAX && WellFormed(b)
    requires Accounted(Do(at, TickEvent(oks))) && end == RunEvents(Do(at, TickEvent(oks)), b)
    ensures at.accepted <= end.accepted && |at.accepted| <= |end.settled|
    ensures |at.settled| + |at.sched.queue| == |at.accepted|
    ensures forall k :: |at.settled| <= k < |at.accepted| ==>
              Outcome(at.accepted[k], end.settled[k], oks[k - |at.settled|])
  {
    TickOutcomes(at, oks, Do(at, TickEvent(oks)));
    RecordsStay(Do(at, TickEvent(oks)), b);
  }

  /** In any run with a tick in it: the commands waiting at that tick are settled by it in order, each
      VERIFIED exactly when its own write in this tick succeeded, FAILED otherwise, with the message
      that goes with it and otherwise as accepted; and so they stay. */
  lemma TickVerdicts(a: seq<Event>, oks: seq<bool>, b: seq<Event>, at: Log, end: Log)
    requires WellFormed(a) && WellFormed(b) && |oks| >= QUEUE_MAX && at == RunEvents(BEGIN, a)
    requires var all := a + [TickEvent(oks)] + b; WellFormed(all) && end == RunEvents(BEGIN, all)
    ensures at.accepted <= end.accepted
    ensures |at.settled| + |at.sched.queue| == |at.accepted| <= |end.settled|
    ensures forall k :: |at.settled| <= k < |at.accepted| ==>
              Outcome(at.accepted[k], end.settled[k], oks[k - |at.settled|])
  {
    RunAround(a, TickEvent(oks), b, a + [TickEvent(oks)] + b);
    TickThenMore(at, oks, b, end);
  }

  /** A submission is refused exactly when 32 commands wait. Otherwise the command is accepted as it is,
      but PENDING, with the next id if it had none and its own if it had. */
  lemma SubmissionAccepted(a: seq<Event>, c: Command)
    requires WellFormed(a)
    ensures WellFormed(a + [SubmitEvent(c)])
    ensures var at := RunEvents(BEGIN, a);
      var end := RunEvents(BEGIN, a + [SubmitEvent(c)]);
      var id := if c.id == 0 then at.sched.nextId else c.id;
      && end.settled == at.settled
      && end.accepted == at.accepted +
           (if |at.sched.queue| >= 32 then []
            else [Command(id, c.createdMs, c.target, c.pointId, c.value, Pending, c.maxRetries, c.message)])
  {
    RunEventsSplit(BEGIN, a, [SubmitEvent(c)]);
    OneEvent(RunEvents(BEGIN, a), SubmitEvent(c));
  }
}
