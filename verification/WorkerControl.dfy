/** The control part of worker_main in src/runtime/app.c: quality rule, state engine, command
    submission and tick, one popped point at a time. Here the engine only sees points that the
    quality rule has been applied to, which changes what it can reach. */
module WorkerControl {
  import opened DeviceModel
  import E = StateEngine
  import S = CommandScheduler

  /** apply_quality_rules. */
  function ApplyQuality(lim: Limits, p: Telemetry): Telemetry
  {
    if p.pointId == CELL_TEMP && p.value > lim.tempHigh then p.(quality := Bad) else p
  }

  /** issued counts the commands the engine asked for, refused the submissions that found the
      queue full. */
  datatype Control = Control(engine: E.Engine, log: S.Log, alarms: seq<Alarm>, issued: nat, refused: nat)

  const BEGIN: Control := Control(E.START, S.BEGIN, [], 0, 0)

  /** Engine, submit and tick for one point the quality rule has seen. adapter is whether
      find_modbus_adapter finds one; oks what its writes return. */
  function Handle(c: Control, lim: Limits, p: Telemetry, adapter: bool, oks: seq<bool>): Control
    requires |c.log.sched.queue| <= S.QUEUE_MAX == |oks|
  {
    var (e, v) := E.Process(c.engine, lim, p, true, true, c.log.sched.nextId, p.tsMs);
    var alarms := if v.alarm.Some? then c.alarms + [v.alarm.value] else c.alarms;
    if v.command.None? then c.(engine := e, alarms := alarms)
    else
      var log := S.Do(c.log, S.SubmitEvent(v.command.value));
      if |log.accepted| == |c.log.accepted| then
        Control(e, c.log, alarms, c.issued + 1, c.refused + 1)
      else Control(e, if adapter then S.Do(log, S.TickEvent(oks)) else log, alarms, c.issued + 1, c.refused)
  }

  /** A popped point and what the adapter answers while it is handled. */
  datatype Item = Item(point: Telemetry, oks: seq<bool>)

  ghost predicate ItemsOk(items: seq<Item>)
  {
    forall i :: 0 <= i < |items| ==> |items[i].oks| == S.QUEUE_MAX
  }

  function RunItems(c: Control, lim: Limits, adapter: bool, items: seq<Item>): Control
    requires S.Accounted(c.log) && ItemsOk(items)
    decreases |items|
  {
    if items == [] then c
    else
      HandleKeepsAccounts(c, lim, ApplyQuality(lim, items[0].point), adapter, items[0].oks);
      RunItems(Handle(c, lim, ApplyQuality(lim, items[0].point), adapter, items[0].oks), lim, adapter, items[1..])
  }

  lemma HandleKeepsAccounts(c: Control, lim: Limits, p: Telemetry, adapter: bool, oks: seq<bool>)
    requires S.Accounted(c.log) && |oks| == S.QUEUE_MAX
    ensures S.Accounted(Handle(c, lim, p, adapter, oks).log)
  {
    var (e, v) := E.Process(c.engine, lim, p, true, true, c.log.sched.nextId, p.tsMs);
    if v.command.Some? {
      var log := S.Do(c.log, S.SubmitEvent(v.command.value));
      S.SubmitKeepsAccounts(c.log, v.command.value);
      if adapter { S.TickKeepsAccounts(log, oks); }
    }
  }

  // ----- temperature -----

  /** The engine has only ever seen temperatures within the limit. */
  ghost predicate Cool(c: Control, lim: Limits)
  {
    && c.engine.temp <= lim.tempHigh && c.engine.state != Fault
    && forall k :: 0 <= k < |c.alarms| ==> c.alarms[k].code == "BMS_SOC_LOW"
  }

  lemma HandleStaysCool(c: Control, lim: Limits, p: Telemetry, adapter: bool, oks: seq<bool>)
    requires Cool(c, lim) && |c.log.sched.queue| <= S.QUEUE_MAX == |oks|
    ensures Cool(Handle(c, lim, ApplyQuality(lim, p), adapter, oks), lim)
  {
  }

  lemma {:induction false} RunStaysCool(c: Control, lim: Limits, adapter: bool, items: seq<Item>)
    requires S.Accounted(c.log) && ItemsOk(items) && Cool(c, lim)
    ensures Cool(RunItems(c, lim, adapter, items), lim)
    decreases |items|
  {
    if items != [] {
      HandleStaysCool(c, lim, items[0].point, adapter, items[0].oks);
      HandleKeepsAccounts(c, lim, ApplyQuality(lim, items[0].point), adapter, items[0].oks);
      RunStaysCool(Handle(c, lim, ApplyQuality(lim, items[0].point), adapter, items[0].oks), lim, adapter, items[1..]);
    }
  }

  /** In the worker the over-temperature branch is dead: with a limit of at least zero no run ever
      has a temperature snapshot over the limit, is in FAULT or raises BMS_TEMP_HIGH. */
  lemma OverTemperatureUnreachable(lim: Limits, adapter: bool, items: seq<Item>)
    requires lim.tempHigh >= 0.0 && ItemsOk(items)
    ensures var c := RunItems(BEGIN, lim, adapter, items);
      && c.engine.temp <= lim.tempHigh && c.engine.state != Fault
      && forall k :: 0 <= k < |c.alarms| ==> c.alarms[k].code != "BMS_TEMP_HIGH"
  {
    RunStaysCool(BEGIN, lim, adapter, items);
  }

  function AllAccepted(): (oks: seq<bool>) ensures |oks| == S.QUEUE_MAX { seq(S.QUEUE_MAX, i => true) }

  /** Some run reaches FAULT exactly when the limit is negative. */
  lemma FaultReachableIffNegativeLimit(lim: Limits, adapter: bool)
    ensures (exists items :: ItemsOk(items) && RunItems(BEGIN, lim, adapter, items).engine.state == Fault)
       <==> lim.tempHigh < 0.0
  {
    if lim.tempHigh < 0.0 {
      var p := Telemetry(0, "", GRID_POWER, 0.0, "", Good, 0);
      var items := [Item(p, AllAccepted())];
      assert items[1..] == [];
      assert Handle(BEGIN, lim, ApplyQuality(lim, p), adapter, AllAccepted()).engine.state == Fault;
      assert ItemsOk(items) && RunItems(BEGIN, lim, adapter, items).engine.state == Fault;
    } else {
      forall items | ItemsOk(items) ensures RunItems(BEGIN, lim, adapter, items).engine.state != Fault {
        OverTemperatureUnreachable(lim, adapter, items);
      }
    }
  }

  // ----- commands -----

  ghost predicate Gapless(log: S.Log)
  {
    && log.sched.nextId == |log.accepted| + 1
    && forall k :: 0 <= k < |log.accepted| ==> log.accepted[k].id == k + 1
  }

  ghost predicate Flowing(c: Control)
  {
    c.log.sched.queue == [] && c.refused == 0 && |c.log.accepted| == c.issued && Gapless(c.log)
  }

  lemma SubmitGapless(c: Control, command: Command)
    requires Gapless(c.log) && command.id == c.log.sched.nextId
    ensures Gapless(S.Do(c.log, S.SubmitEvent(command)))
  {
  }

  lemma HandleKeepsFlowing(c: Control, lim: Limits, p: Telemetry, oks: seq<bool>)
    requires Flowing(c) && |oks| == S.QUEUE_MAX
    ensures Flowing(Handle(c, lim, p, true, oks))
  {
    var (e, v) := E.Process(c.engine, lim, p, true, true, c.log.sched.nextId, p.tsMs);
    if v.command.Some? { SubmitGapless(c, v.command.value); }
  }

  lemma {:induction false} RunKeepsFlowing(c: Control, lim: Limits, items: seq<Item>)
    requires S.Accounted(c.log) && ItemsOk(items) && Flowing(c)
    ensures Flowing(RunItems(c, lim, true, items)) && S.Accounted(RunItems(c, lim, true, items).log)
    decreases |items|
  {
    if items != [] {
      var p := ApplyQuality(lim, items[0].point);
      HandleKeepsFlowing(c, lim, p, items[0].oks);
      HandleKeepsAccounts(c, lim, p, true, items[0].oks);
      RunKeepsFlowing(Handle(c, lim, p, true, items[0].oks), lim, items[1..]);
    }
  }

  /** With an adapter registered, as gateway_app_init ensures, no submission ever finds the queue
      full, command ids are 1, 2, 3, ... without gaps, and every command has been settled by the
      time the next point is handled. */
  lemma CommandsFlow(lim: Limits, items: seq<Item>)
    requires ItemsOk(items)
    ensures var c := RunItems(BEGIN, lim, true, items);
      && c.refused == 0 && c.log.sched.queue == [] && |c.log.accepted| == c.issued
      && (forall k :: 0 <= k < |c.log.accepted| ==> c.log.accepted[k].id == k + 1)
      && |c.log.settled| == |c.log.accepted|
      && forall k :: 0 <= k < |c.log.settled| ==> S.SettledFrom(c.log.accepted[k], c.log.settled[k])
  {
    RunKeepsFlowing(BEGIN, lim, items);
  }

  /** Nothing is ever ticked: the first 32 commands stay queued, the rest are refused. */
  ghost predicate Filling(c: Control)
  {
    && c.log.settled == [] && c.log.sched.queue == c.log.accepted
    && |c.log.accepted| == (if c.issued <= S.QUEUE_MAX then c.issued else S.QUEUE_MAX)
    && c.refused == c.issued - |c.log.accepted|
  }

  lemma HandleKeepsFilling(c: Control, lim: Limits, p: Telemetry, oks: seq<bool>)
    requires Filling(c) && |oks| == S.QUEUE_MAX
    ensures Filling(Handle(c, lim, p, false, oks))
  {
  }

  lemma {:induction false} RunKeepsFilling(c: Control, lim: Limits, items: seq<Item>)
    requires S.Accounted(c.log) && ItemsOk(items) && Filling(c)
    ensures Filling(RunItems(c, lim, false, items))
    decreases |items|
  {
    if items != [] {
      var p := ApplyQuality(lim, items[0].point);
      HandleKeepsFilling(c, lim, p, items[0].oks);
      HandleKeepsAccounts(c, lim, p, false, items[0].oks);
      RunKeepsFilling(Handle(c, lim, p, false, items[0].oks), lim, items[1..]);
    }
  }

  /** The adapter is what keeps the queue from filling: without one, of all the commands any run
      issues the first 32 stay pending for ever and the rest are refused. */
  lemma WithoutAdapterQueueFills(lim: Limits, items: seq<Item>)
    requires ItemsOk(items)
    ensures var c := RunItems(BEGIN, lim, false, items);
      && |c.log.accepted| == (if c.issued <= 32 then c.issued else 32)
      && c.refused == c.issued - |c.log.accepted|
      && c.log.sched.queue == c.log.accepted && c.log.settled == []
  {
    RunKeepsFilling(BEGIN, lim, items);
  }

  // ----- the worker in terms of the readings -----

  lemma {:induction false} RunItemsNext(c: Control, lim: Limits, adapter: bool, items: seq<Item>, item: Item)
    requires S.Accounted(c.log) && ItemsOk(items) && |item.oks| == S.QUEUE_MAX
    ensures ItemsOk(items + [item])
    ensures var d := RunItems(c, lim, adapter, items);
      && S.Accounted(d.log)
      && RunItems(c, lim, adapter, items + [item])
      == Handle(d, lim, ApplyQuality(lim, item.point), adapter, item.oks)
    decreases |items|
  {
    if items == [] {
      assert (items + [item])[1..] == [];
    } else {
      assert (items + [item])[1..] == items[1..] + [item];
      var p := ApplyQuality(lim, items[0].point);
      HandleKeepsAccounts(c, lim, p, adapter, items[0].oks);
      RunItemsNext(Handle(c, lim, p, adapter, items[0].oks), lim, adapter, items[1..], item);
    }
  }

  /** The points the engine has seen. */
  function Judged(lim: Limits, items: seq<Item>): (points: seq<Telemetry>)
    ensures |points| == |items|
  {
    seq(|items|, i requires 0 <= i < |items| => ApplyQuality(lim, items[i].point))
  }

  ghost predicate Tracks(c: Control, points: seq<Telemetry>)
  {
    E.Reflects(c.engine, points) && c.engine.nextAlarmId == |c.alarms| + 1
  }

  lemma HandleTracks(c: Control, lim: Limits, points: seq<Telemetry>, p: Telemetry, adapter: bool, oks: seq<bool>)
    requires Tracks(c, points) && |c.log.sched.queue| <= S.QUEUE_MAX == |oks|
    ensures Tracks(Handle(c, lim, p, adapter, oks), points + [p])
  {
    E.ProcessReflects(c.engine, lim, points, p, true, true, c.log.sched.nextId, p.tsMs);
    E.VerdictOnReadings(c.engine, lim, points, p, true, true, c.log.sched.nextId, p.tsMs);
  }

  lemma {:induction false} RunTracks(c: Control, lim: Limits, before: seq<Telemetry>, adapter: bool, items: seq<Item>)
    requires S.Accounted(c.log) && ItemsOk(items) && Tracks(c, before)
    ensures Tracks(RunItems(c, lim, adapter, items), before + Judged(lim, items))
    decreases |items|
  {
    if items == [] {
      assert before + Judged(lim, items) == before;
    } else {
      var p := ApplyQuality(lim, items[0].point);
      HandleTracks(c, lim, before, p, adapter, items[0].oks);
      HandleKeepsAccounts(c, lim, p, adapter, items[0].oks);
      RunTracks(Handle(c, lim, p, adapter, items[0].oks), lim, before + [p], adapter, items[1..]);
      assert before + Judged(lim, items) == before + [p] + Judged(lim, items[1..]);
    }
  }

  /** The command a grid reading asks for. */
  function Asked(lim: Limits, id: nat, p: Telemetry): Command
  {
    var over := p.value - lim.peakThreshold;
    Command(id, p.tsMs, "pcs_001", "target_power_kw",
            if over <= lim.maxDischarge then -over else -lim.maxDischarge, Pending, 3, "")
  }

  /** The readings, this point included, make the engine command a discharge. */
  predicate Commands(lim: Limits, points: seq<Telemetry>, p: Telemetry)
  {
    E.WantsPower(lim, points, p) && !E.TooHot(lim, points, p)
  }

  lemma HandleVerdict(c: Control, lim: Limits, points: seq<Telemetry>, p: Telemetry, adapter: bool, oks: seq<bool>)
    requires Tracks(c, points) && |c.log.sched.queue| <= S.QUEUE_MAX == |oks|
    ensures var d := Handle(c, lim, p, adapter, oks);
      && d.alarms == c.alarms +
           (if E.TooHot(lim, points, p) then [Alarm(|c.alarms| + 1, p.tsMs, "bms_001", "BMS_TEMP_HIGH")]
            else if E.ChargeLow(lim, p) then [Alarm(|c.alarms| + 1, p.tsMs, "bms_001", "BMS_SOC_LOW")]
            else [])
      && d.issued == (if Commands(lim, points, p) then c.issued + 1 else c.issued)
      && (!Commands(lim, points, p) ==> d.log == c.log)
  {
    E.VerdictOnReadings(c.engine, lim, points, p, true, true, c.log.sched.nextId, p.tsMs);
  }

  lemma SubmittedAlone(log: S.Log, x: Command, next: S.Log)
    requires S.Accounted(log) && log.sched.queue == []
    requires x.state == Pending && x.id == log.sched.nextId > 0 && next == S.Do(log, S.SubmitEvent(x))
    ensures S.Accounted(next) && |log.settled| == |log.accepted|
    ensures next.accepted == log.accepted + [x] && next.settled == log.settled && next.sched.queue == [x]
  {
    S.SubmitKeepsAccounts(log, x);
  }

  /** A command with the next id, submitted to an empty queue and settled at once. */
  lemma SubmittedAndSettled(log: S.Log, x: Command, oks: seq<bool>, mid: S.Log, d: S.Log, n: nat)
    requires S.Accounted(log) && log.sched.queue == [] && |oks| == S.QUEUE_MAX && n == |log.accepted|
    requires x.state == Pending && x.id == log.sched.nextId > 0
    requires mid == S.Do(log, S.SubmitEvent(x)) && S.Accounted(mid) && d == S.Do(mid, S.TickEvent(oks))
    ensures |log.settled| == n && d.accepted == log.accepted + [x]
    ensures |d.settled| == n + 1 && d.settled[..n] == log.settled && S.Outcome(x, d.settled[n], oks[0])
  {
    SubmittedAlone(log, x, mid);
    S.TickOutcomes(mid, oks, d);
  }

  lemma AskedFor(c: Control, lim: Limits, points: seq<Telemetry>, p: Telemetry)
    requires Tracks(c, points) && Commands(lim, points, p)
    ensures E.Process(c.engine, lim, p, true, true, c.log.sched.nextId, p.tsMs).1.command
         == Some(Asked(lim, c.log.sched.nextId, p))
  {
    E.VerdictOnReadings(c.engine, lim, points, p, true, true, c.log.sched.nextId, p.tsMs);
  }

  /** A call that commands a discharge submits it and ticks. */
  lemma HandleSubmits(c: Control, lim: Limits, p: Telemetry, oks: seq<bool>, x: Command)
    requires c.log.sched.queue == [] && |oks| == S.QUEUE_MAX
    requires E.Process(c.engine, lim, p, true, true, c.log.sched.nextId, p.tsMs).1.command == Some(x)
    ensures Handle(c, lim, p, true, oks).log == S.Do(S.Do(c.log, S.SubmitEvent(x)), S.TickEvent(oks))
  {
  }

  lemma HandleSettles(c: Control, lim: Limits, points: seq<Telemetry>, p: Telemetry, oks: seq<bool>, d: S.Log)
    requires Tracks(c, points) && S.Accounted(c.log) && Flowing(c) && |oks| == S.QUEUE_MAX
    requires Commands(lim, points, p) && d == Handle(c, lim, p, true, oks).log
    ensures var n := |c.log.accepted|;
      && |c.log.settled| == n
      && d.accepted == c.log.accepted + [Asked(lim, n + 1, p)]
      && |d.settled| == n + 1 && d.settled[..n] == c.log.settled
      && S.Outcome(Asked(lim, n + 1, p), d.settled[n], oks[0])
  {
    var x := Asked(lim, |c.log.accepted| + 1, p);
    AskedFor(c, lim, points, p);
    HandleSubmits(c, lim, p, oks, x);
    var mid := S.Do(c.log, S.SubmitEvent(x));
    SubmittedAlone(c.log, x, mid);
    SubmittedAndSettled(c.log, x, oks, mid, d, |c.log.accepted|);
  }

  /** The worker, over any points: which alarm the next point raises and whether it makes the engine
      command a discharge, by the last readings that passed the quality rule. */
  lemma NextItemOnReadings(lim: Limits, adapter: bool, items: seq<Item>, item: Item)
    requires ItemsOk(items) && |item.oks| == S.QUEUE_MAX
    ensures ItemsOk(items + [item])
    ensures var c := RunItems(BEGIN, lim, adapter, items);
      var d := RunItems(BEGIN, lim, adapter, items + [item]);
      var points, p := Judged(lim, items), ApplyQuality(lim, item.point);
      && d.alarms == c.alarms +
           (if E.TooHot(lim, points, p) then [Alarm(|c.alarms| + 1, p.tsMs, "bms_001", "BMS_TEMP_HIGH")]
            else if E.ChargeLow(lim, p) then [Alarm(|c.alarms| + 1, p.tsMs, "bms_001", "BMS_SOC_LOW")]
            else [])
      && d.issued == (if Commands(lim, points, p) then c.issued + 1 else c.issued)
  {
    RunItemsNext(BEGIN, lim, adapter, items, item);
    TracksAll(lim, adapter, items);
    HandleVerdict(RunItems(BEGIN, lim, adapter, items), lim, Judged(lim, items), ApplyQuality(lim, item.point),
                  adapter, item.oks);
  }

  lemma TracksAll(lim: Limits, adapter: bool, items: seq<Item>)
    requires ItemsOk(items)
    ensures Tracks(RunItems(BEGIN, lim, adapter, items), Judged(lim, items))
  {
    RunTracks(BEGIN, lim, [], adapter, items);
    assert [] + Judged(lim, items) == Judged(lim, items);
  }

  /** And with an adapter, what becomes of that command: it gets the next id and is settled at once,
      VERIFIED exactly when the adapter took the write made for this very point. */
  lemma NextItemSettled(lim: Limits, items: seq<Item>, item: Item)
    requires ItemsOk(items) && |item.oks| == S.QUEUE_MAX
    ensures ItemsOk(items + [item])
    ensures var c := RunItems(BEGIN, lim, true, items);
      var d := RunItems(BEGIN, lim, true, items + [item]);
      var points, p, n := Judged(lim, items), ApplyQuality(lim, item.point), |c.log.accepted|;
      if Commands(lim, points, p) then
        && |c.log.settled| == n
        && d.log.accepted == c.log.accepted + [Asked(lim, n + 1, p)]
        && |d.log.settled| == n + 1 && d.log.settled[..n] == c.log.settled
        && S.Outcome(Asked(lim, n + 1, p), d.log.settled[n], item.oks[0])
      else d.log == c.log
  {
    RunItemsNext(BEGIN, lim, true, items, item);
    TracksAll(lim, true, items);
    RunKeepsFlowing(BEGIN, lim, items);
    var c, points, p := RunItems(BEGIN, lim, true, items), Judged(lim, items), ApplyQuality(lim, item.point);
    if Commands(lim, points, p) {
      HandleSettles(c, lim, points, p, item.oks, Handle(c, lim, p, true, item.oks).log);
    } else {
      HandleVerdict(c, lim, points, p, true, item.oks);
    }
  }

  // ----- the objects -----

  /** apply_quality_rules on the popped point. */
  method Judge(lim: Limits, raw: Telemetry) returns (point: Telemetry)
    ensures point == ApplyQuality(lim, raw)
    ensures point.(quality := raw.quality) == raw
    ensures point.quality == Bad <==> raw.quality == Bad || (raw.pointId == CELL_TEMP && raw.value > lim.tempHigh)
    ensures point.quality != Bad ==> point == raw
  {
    point := raw;
    if point.pointId == CELL_TEMP && point.value > lim.tempHigh {
      point := point.(quality := Bad);
    }
  }

  /** The worker's engine and scheduler. */
  class Worker {
    const engine: E.StateEngine
    const scheduler: S.CommandScheduler

    constructor ()
      ensures Valid() && fresh(engine) && fresh(scheduler) && fresh(scheduler.queue)
      ensures engine.State() == E.START && scheduler.State() == S.EMPTY
    {
      engine := new E.StateEngine();
      scheduler := new S.CommandScheduler();
    }

    ghost predicate Valid()
      reads scheduler
    {
      scheduler.Valid()
    }

    /** The engine, the submission and the tick for one point the quality rule has seen. */
    method HandlePoint(lim: Limits, point: Telemetry, adapter: bool, oks: seq<bool>)
      returns (alarm: Option<Alarm>, settled: seq<Command>)
      requires Valid() && |oks| == S.QUEUE_MAX
      modifies engine, scheduler, scheduler.queue
      ensures Valid()
      ensures
        var before := Control(old(engine.State()), S.Log(old(scheduler.State()), [], [], true), [], 0, 0);
        var c := Handle(before, lim, point, adapter, oks);
        && engine.State() == c.engine && scheduler.State() == c.log.sched
        && settled == c.log.settled
        && (if alarm.Some? then [alarm.value] else []) == c.alarms
    {
      settled := [];
      var valid, command;
      valid, alarm, command := engine.ProcessTelemetry(lim, point, true, true, scheduler.nextCommandId, point.tsMs);
      if valid && command.Some? {
        var rc, _ := scheduler.SubmitCommand(command.value);
        if rc == 0 && adapter {
          var processed;
          processed, settled := scheduler.TickQueue(true, true, oks);
          assert Answered(oks);
        }
      }
    }
  }

  ghost predicate Answered(oks: seq<bool>) { S.Answers(true, oks) == oks }
}
