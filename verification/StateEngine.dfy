/** The control state machine of src/runtime/state_engine.c: device snapshot, alarms and the
    peak-shaving rule. Process is one call on values; the class does the same in place. */
module StateEngine {
  import opened DeviceModel

  datatype Engine = Engine(state: SystemState, soc: real, temp: real, grid: real, nextAlarmId: nat)

  /** state_engine_init. */
  const START: Engine := Engine(Init, 80.0, 0.0, 0.0, 1)

  /** The return value, and the alarm and command slots when they are filled. */
  datatype Verdict = Verdict(valid: bool, alarm: Option<Alarm>, command: Option<Command>)

  const NOTHING: Verdict := Verdict(false, None, None)

  /** update_snapshot. */
  function Update(e: Engine, p: Telemetry): Engine
  {
    if p.pointId == SOC then e.(soc := p.value)
    else if p.pointId == CELL_TEMP then e.(temp := p.value)
    else if p.pointId == GRID_POWER then e.(grid := p.value)
    else e
  }

  function Clamp(kw: real, max: real): (r: real)
  {
    if kw < 0.0 then 0.0 else if kw > max then max else kw
  }

  function Setpoint(id: nat, ts: nat, value: real): Command
  {
    Command(id, ts, "pcs_001", "target_power_kw", value, Pending, 3, "")
  }

  /** state_engine_process_telemetry. alarmSlot and commandSlot are whether the caller passed a
      place to put an alarm and a command. */
  function Process(e: Engine, lim: Limits, p: Telemetry, alarmSlot: bool, commandSlot: bool,
                   commandId: nat, ts: nat): (Engine, Verdict)
  {
    if p.quality != Good then (e, NOTHING)
    else
      var s := Update(e, p);
      if s.temp > lim.tempHigh && alarmSlot then
        (s.(state := Fault, nextAlarmId := s.nextAlarmId + 1),
         Verdict(true, Some(Alarm(s.nextAlarmId, ts, "bms_001", "BMS_TEMP_HIGH")), None))
      else
        var f := if s.temp > lim.tempHigh then s.(state := Fault) else s;
        if f.soc <= lim.minSoc && alarmSlot && p.pointId == SOC then
          (f.(nextAlarmId := f.nextAlarmId + 1),
           Verdict(true, Some(Alarm(f.nextAlarmId, ts, "bms_001", "BMS_SOC_LOW")), None))
        else
          var r := f.(state := Running);
          if p.pointId != GRID_POWER || r.soc <= lim.minSoc || r.grid <= lim.peakThreshold then (r, NOTHING)
          else
            var kw := Clamp(r.grid - lim.peakThreshold, lim.maxDischarge);
            if !commandSlot || kw <= 0.0 then (r, NOTHING)
            else (r, Verdict(true, None, Some(Setpoint(commandId, ts, -kw))))
  }

  class StateEngine {
    var state: SystemState
    var soc: real
    var temp: real
    var grid: real
    var nextAlarmId: nat

    constructor ()
      ensures State() == START
    {
      state, soc, temp, grid, nextAlarmId := Init, 80.0, 0.0, 0.0, 1;
    }

    ghost function State(): Engine
      reads this
    {
      Engine(state, soc, temp, grid, nextAlarmId)
    }

    method UpdateSnapshot(p: Telemetry) returns (known: bool)
      modifies this`soc, this`temp, this`grid
      ensures State() == Update(old(State()), p)
      ensures soc == if p.pointId == SOC then p.value else old(soc)
      ensures temp == if p.pointId == CELL_TEMP then p.value else old(temp)
      ensures grid == if p.pointId == GRID_POWER then p.value else old(grid)
      ensures known <==> p.pointId in {SOC, CELL_TEMP, GRID_POWER}
    {
      if p.pointId == SOC {
        soc := p.value;
        return true;
      }
      if p.pointId == CELL_TEMP {
        temp := p.value;
        return true;
      }
      if p.pointId == GRID_POWER {
        grid := p.value;
        return true;
      }
      return false;
    }

    method ProcessTelemetry(lim: Limits, p: Telemetry, alarmSlot: bool, commandSlot: bool,
                            commandId: nat, ts: nat)
      returns (valid: bool, alarm: Option<Alarm>, command: Option<Command>)
      modifies this
      ensures (State(), Verdict(valid, alarm, command))
           == Process(old(State()), lim, p, alarmSlot, commandSlot, commandId, ts)
    {
      alarm, command := None, None;
      if p.quality != Good {
        return false, None, None;
      }
      var _ := UpdateSnapshot(p);
      if temp > lim.tempHigh {
        state := Fault;
        if alarmSlot {
          alarm := Some(Alarm(nextAlarmId, ts, "bms_001", "BMS_TEMP_HIGH"));
          nextAlarmId := nextAlarmId + 1;
          return true, alarm, None;
        }
      }
      if soc <= lim.minSoc {
        if alarmSlot && p.pointId == SOC {
          alarm := Some(Alarm(nextAlarmId, ts, "bms_001", "BMS_SOC_LOW"));
          nextAlarmId := nextAlarmId + 1;
          return true, alarm, None;
        }
      }
      state := Running;
      if p.pointId != GRID_POWER {
        return false, None, None;
      }
      if soc <= lim.minSoc {
        return false, None, None;
      }
      if grid <= lim.peakThreshold {
        return false, None, None;
      }
      var kw := Clamp(grid - lim.peakThreshold, lim.maxDischarge);
      if !commandSlot || kw <= 0.0 {
        return false, None, None;
      }
      return true, None, Some(Setpoint(commandId, ts, -kw));
    }
  }

  // ----- runs of the engine alone -----

  /** One call: a point, the id offered for a command, whether there is a slot for one. */
  datatype Call = Call(point: Telemetry, commandSlot: bool, commandId: nat, ts: nat)

  /** issued pairs every command with the engine state that issued it. */
  datatype History = History(engine: Engine, alarms: seq<Alarm>, issued: seq<(Engine, Command)>)

  function Feed(h: History, lim: Limits, call: Call, alarmSlot: bool): History
  {
    var (e, v) := Process(h.engine, lim, call.point, alarmSlot, call.commandSlot, call.commandId, call.ts);
    History(e, if v.alarm.Some? then h.alarms + [v.alarm.value] else h.alarms,
               if v.command.Some? then h.issued + [(e, v.command.value)] else h.issued)
  }

  function RunCalls(h: History, lim: Limits, calls: seq<Call>, alarmSlot: bool): History
    decreases |calls|
  {
    if calls == [] then h else RunCalls(Feed(h, lim, calls[0], alarmSlot), lim, calls[1..], alarmSlot)
  }

  const BEGIN: History := History(START, [], [])

  /** The state is FAULT exactly when the engine has left INIT and the temperature snapshot is
      over the limit; in INIT the snapshot is still the initial zero. */
  ghost predicate FaultMeansHot(e: Engine, lim: Limits)
  {
    && (e.state == Fault <==> e.state != Init && e.temp > lim.tempHigh)
    && (e.state == Init ==> e.temp == 0.0)
    && (e.state == Init || e.state == Running || e.state == Fault)
  }

  ghost predicate AlarmsGapless(h: History)
  {
    && h.engine.nextAlarmId == |h.alarms| + 1
    && forall k :: 0 <= k < |h.alarms| ==> h.alarms[k].id == k + 1
  }

  /** What holds of the engine whenever it issues a command. */
  ghost predicate SafeCommand(e: Engine, c: Command, lim: Limits)
  {
    && -lim.maxDischarge <= c.value < 0.0
    && e.grid + c.value >= lim.peakThreshold
    && (e.grid - lim.peakThreshold <= lim.maxDischarge ==> e.grid + c.value == lim.peakThreshold)
    && (e.grid - lim.peakThreshold > lim.maxDischarge ==> c.value == -lim.maxDischarge)
    && e.soc > lim.minSoc && e.temp <= lim.tempHigh && e.state == Running
  }

  ghost predicate HistoryOk(h: History, lim: Limits)
  {
    && FaultMeansHot(h.engine, lim) && AlarmsGapless(h)
    && forall k :: 0 <= k < |h.issued| ==> SafeCommand(h.issued[k].0, h.issued[k].1, lim)
  }

  lemma FeedKeeps(h: History, lim: Limits, call: Call)
    requires HistoryOk(h, lim)
    ensures HistoryOk(Feed(h, lim, call, true), lim)
    ensures h.engine.state != Init ==> Feed(h, lim, call, true).engine.state != Init
  {
  }

  lemma {:induction false} RunKeeps(h: History, lim: Limits, calls: seq<Call>)
    requires HistoryOk(h, lim)
    ensures HistoryOk(RunCalls(h, lim, calls, true), lim)
    ensures h.engine.state != Init ==> RunCalls(h, lim, calls, true).engine.state != Init
    decreases |calls|
  {
    if calls != [] {
      FeedKeeps(h, lim, calls[0]);
      RunKeeps(Feed(h, lim, calls[0], true), lim, calls[1..]);
    }
  }

  lemma {:induction false} RunSplit(h: History, lim: Limits, a: seq<Call>, b: seq<Call>, alarmSlot: bool)
    ensures RunCalls(h, lim, a + b, alarmSlot) == RunCalls(RunCalls(h, lim, a, alarmSlot), lim, b, alarmSlot)
    decreases |a|
  {
    if a == [] {
      assert a + b == b;
    } else {
      assert (a + b)[1..] == a[1..] + b;
      RunSplit(Feed(h, lim, a[0], alarmSlot), lim, a[1..], b, alarmSlot);
    }
  }

  /** The engine alone, called with an alarm slot and a limit of at least zero: after any calls it
      is in FAULT exactly when the temperature snapshot is over the limit. With a negative limit
      the same holds as soon as it has left INIT, where zero already exceeds the limit. */
  lemma FaultIffOverTemperature(lim: Limits, calls: seq<Call>)
    ensures var e := RunCalls(BEGIN, lim, calls, true).engine;
      && (lim.tempHigh >= 0.0 ==> (e.state == Fault <==> e.temp > lim.tempHigh))
      && (lim.tempHigh < 0.0 ==> (e.state == Fault <==> e.temp > lim.tempHigh) || e.state == Init)
  {
    RunKeeps(BEGIN, lim, calls);
  }

  /** INIT is never entered again, at any later point of any run. */
  lemma InitNeverReentered(lim: Limits, before: seq<Call>, after: seq<Call>)
    requires RunCalls(BEGIN, lim, before, true).engine.state != Init
    ensures RunCalls(BEGIN, lim, before + after, true).engine.state != Init
  {
    RunKeeps(BEGIN, lim, before);
    RunKeeps(RunCalls(BEGIN, lim, before, true), lim, after);
    RunSplit(BEGIN, lim, before, after, true);
  }

  /** Alarm ids count up from one without gaps. */
  lemma AlarmIdsGapless(lim: Limits, calls: seq<Call>, k: nat)
    requires k < |RunCalls(BEGIN, lim, calls, true).alarms|
    ensures RunCalls(BEGIN, lim, calls, true).alarms[k].id == k + 1
  {
    RunKeeps(BEGIN, lim, calls);
  }

  /** Every command of every run discharges, by at most the maximum, never pulls the grid below
      the shaving threshold, meets it exactly when not clamped, and comes from a running engine
      with charge above the minimum and temperature within the limit. */
  lemma CommandsSafe(lim: Limits, calls: seq<Call>, k: nat)
    requires k < |RunCalls(BEGIN, lim, calls, true).issued|
    ensures var (e, c) := RunCalls(BEGIN, lim, calls, true).issued[k]; SafeCommand(e, c, lim)
  {
    RunKeeps(BEGIN, lim, calls);
  }

  /** Without an alarm slot the over-temperature branch falls through and RUNNING overwrites
      FAULT: no run ever ends in FAULT. */
  lemma {:induction false} NoSlotNoFault(h: History, lim: Limits, calls: seq<Call>)
    requires h.engine.state != Fault
    ensures RunCalls(h, lim, calls, false).engine.state != Fault
    decreases |calls|
  {
    if calls != [] {
      NoSlotNoFault(Feed(h, lim, calls[0], false), lim, calls[1..]);
    }
  }

  /** Charge the battery, overheat it, then ask for power. */
  function HotCalls(lim: Limits): seq<Call>
  {
    [Call(Telemetry(0, "", SOC, lim.minSoc + 1.0, "", Good, 0), true, 1, 0),
     Call(Telemetry(0, "", CELL_TEMP, lim.tempHigh + 1.0, "", Good, 0), true, 1, 0),
     Call(Telemetry(0, "", GRID_POWER, lim.peakThreshold + 1.0, "", Good, 0), true, 1, 0)]
  }

  /** So without a slot, whatever the other limits are, a command can go out over temperature. */
  lemma NoSlotCommandsWhileHot(lim: Limits)
    requires lim.maxDischarge > 0.0
    ensures var h := RunCalls(BEGIN, lim, HotCalls(lim), false);
      |h.issued| == 1 && h.issued[0].0.temp > lim.tempHigh && h.engine.state == Running
  {
    var calls := HotCalls(lim);
    var h1 := Feed(BEGIN, lim, calls[0], false);
    var h2 := Feed(h1, lim, calls[1], false);
    var h3 := Feed(h2, lim, calls[2], false);
    assert h2.engine == Engine(Running, lim.minSoc + 1.0, lim.tempHigh + 1.0, 0.0, 1);
    assert calls[1..] == [calls[1], calls[2]] && calls[1..][1..] == [calls[2]] && calls[1..][1..][1..] == [];
    assert RunCalls(h2, lim, [calls[2]], false) == h3;
  }

  lemma {:induction false} NoPowerNoCommands(h: History, lim: Limits, calls: seq<Call>)
    requires lim.maxDischarge <= 0.0
    ensures RunCalls(h, lim, calls, false).issued == h.issued
    decreases |calls|
  {
    if calls != [] {
      NoPowerNoCommands(Feed(h, lim, calls[0], false), lim, calls[1..]);
    }
  }

  ghost predicate CommandsCool(lim: Limits, h: History)
  {
    forall k :: 0 <= k < |h.issued| ==> h.issued[k].0.temp <= lim.tempHigh
  }

  /** Without an alarm slot the temperature limit holds for the commands of all runs exactly when
      no discharge is allowed at all; with a slot it always does (CommandsSafe). */
  lemma NoSlotCoolIffNoDischarge(lim: Limits)
    ensures (forall calls :: CommandsCool(lim, RunCalls(BEGIN, lim, calls, false))) <==> lim.maxDischarge <= 0.0
  {
    if lim.maxDischarge <= 0.0 {
      forall calls ensures CommandsCool(lim, RunCalls(BEGIN, lim, calls, false)) {
        NoPowerNoCommands(BEGIN, lim, calls);
      }
    } else {
      NoSlotCommandsWhileHot(lim);
      assert !CommandsCool(lim, RunCalls(BEGIN, lim, HotCalls(lim), false));
    }
  }

  // ----- when the engine stays in INIT -----

  /** The call does not take an engine in INIT out of it: the point is ignored, or it reports a
      charge at or below the minimum while zero degrees is within the limit. */
  predicate KeepsInit(lim: Limits, call: Call)
  {
    || call.point.quality != Good
    || (lim.tempHigh >= 0.0 && call.point.pointId == SOC && call.point.value <= lim.minSoc)
  }

  lemma FeedInInit(h: History, lim: Limits, call: Call)
    requires h.engine.state == Init && h.engine.temp == 0.0
    ensures var e := Feed(h, lim, call, true).engine;
      if KeepsInit(lim, call) then e.state == Init && e.temp == 0.0 else e.state != Init
  {
  }

  lemma {:induction false} InitIff(h: History, lim: Limits, calls: seq<Call>)
    requires HistoryOk(h, lim) && h.engine.state == Init
    ensures RunCalls(h, lim, calls, true).engine.state == Init
       <==> forall i :: 0 <= i < |calls| ==> KeepsInit(lim, calls[i])
    decreases |calls|
  {
    if calls != [] {
      var h1, rest := Feed(h, lim, calls[0], true), calls[1..];
      FeedInInit(h, lim, calls[0]);
      FeedKeeps(h, lim, calls[0]);
      assert calls == [calls[0]] + rest;
      if KeepsInit(lim, calls[0]) {
        InitIff(h1, lim, rest);
      } else {
        RunKeeps(h1, lim, rest);
      }
    }
  }

  /** The engine alone, over any calls with an alarm slot, is still in INIT exactly when every
      GOOD point so far was a charge at or below the minimum, which raises its alarm and returns
      before RUNNING is set; with a negative temperature limit, exactly when there was no GOOD
      point at all. */
  lemma InitIffOnlyLowCharges(lim: Limits, calls: seq<Call>)
    ensures var init := RunCalls(BEGIN, lim, calls, true).engine.state == Init;
      && (lim.tempHigh >= 0.0 ==>
            (init <==> forall i :: 0 <= i < |calls| && calls[i].point.quality == Good ==>
                         calls[i].point.pointId == SOC && calls[i].point.value <= lim.minSoc))
      && (lim.tempHigh < 0.0 ==>
            (init <==> forall i :: 0 <= i < |calls| ==> calls[i].point.quality != Good))
  {
    InitIff(BEGIN, lim, calls);
  }

  // ----- the engine in terms of the readings -----

  /** The last GOOD reading with this id, or the value before there was one. */
  function Last(points: seq<Telemetry>, id: string, initial: real): real
  {
    if points == [] then initial
    else
      var p := points[|points| - 1];
      if p.quality == Good && p.pointId == id then p.value else Last(points[..|points| - 1], id, initial)
  }

  lemma LastNext(points: seq<Telemetry>, p: Telemetry, id: string, initial: real)
    ensures Last(points + [p], id, initial) ==
      if p.quality == Good && p.pointId == id then p.value else Last(points, id, initial)
  {
    assert (points + [p])[..|points|] == points;
  }

  /** The snapshot holds the last readings; 80 percent, 0 degrees and 0 kW before there are any. */
  ghost predicate Reflects(e: Engine, points: seq<Telemetry>)
  {
    && e.soc == Last(points, SOC, 80.0)
    && e.temp == Last(points, CELL_TEMP, 0.0)
    && e.grid == Last(points, GRID_POWER, 0.0)
  }

  lemma ProcessReflects(e: Engine, lim: Limits, points: seq<Telemetry>, p: Telemetry, alarmSlot: bool,
                        commandSlot: bool, commandId: nat, ts: nat)
    requires Reflects(e, points)
    ensures Reflects(Process(e, lim, p, alarmSlot, commandSlot, commandId, ts).0, points + [p])
  {
    LastNext(points, p, SOC, 80.0);
    LastNext(points, p, CELL_TEMP, 0.0);
    LastNext(points, p, GRID_POWER, 0.0);
  }

  function PointsOf(calls: seq<Call>): (points: seq<Telemetry>)
    ensures |points| == |calls|
  {
    seq(|calls|, i requires 0 <= i < |calls| => calls[i].point)
  }

  lemma {:induction false} RunReflects(h: History, lim: Limits, before: seq<Telemetry>, calls: seq<Call>,
                                       alarmSlot: bool)
    requires Reflects(h.engine, before)
    ensures Reflects(RunCalls(h, lim, calls, alarmSlot).engine, before + PointsOf(calls))
    decreases |calls|
  {
    if calls == [] {
      assert before + PointsOf(calls) == before;
    } else {
      var c := calls[0];
      ProcessReflects(h.engine, lim, before, c.point, alarmSlot, c.commandSlot, c.commandId, c.ts);
      RunReflects(Feed(h, lim, c, alarmSlot), lim, before + [c.point], calls[1..], alarmSlot);
      assert before + PointsOf(calls) == before + [c.point] + PointsOf(calls[1..]);
    }
  }

  /** After any calls, with or without slots, each snapshot field is the value of the last GOOD point
      with its id. */
  lemma SnapshotIsLastReading(lim: Limits, calls: seq<Call>, alarmSlot: bool)
    ensures Reflects(RunCalls(BEGIN, lim, calls, alarmSlot).engine, PointsOf(calls))
  {
    assert Reflects(START, []);
    RunReflects(BEGIN, lim, [], calls, alarmSlot);
    assert [] + PointsOf(calls) == PointsOf(calls);
  }

  /** The last readings, this point included, ask for the temperature alarm. */
  predicate TooHot(lim: Limits, points: seq<Telemetry>, p: Telemetry)
  {
    p.quality == Good && Last(points + [p], CELL_TEMP, 0.0) > lim.tempHigh
  }

  /** The point is a charge at or below the minimum. */
  predicate ChargeLow(lim: Limits, p: Telemetry)
  {
    p.quality == Good && p.pointId == SOC && p.value <= lim.minSoc
  }

  /** The point is a grid reading above the threshold while the last charge allows discharging. */
  predicate WantsPower(lim: Limits, points: seq<Telemetry>, p: Telemetry)
  {
    && p.quality == Good && p.pointId == GRID_POWER && p.value > lim.peakThreshold
    && Last(points, SOC, 80.0) > lim.minSoc && lim.maxDischarge > 0.0
  }

  /** One call on an engine that has seen these points, as verdict and new alarm count. */
  lemma VerdictOnReadings(e: Engine, lim: Limits, points: seq<Telemetry>, p: Telemetry, alarmSlot: bool,
                          commandSlot: bool, commandId: nat, ts: nat)
    requires Reflects(e, points)
    ensures var (e', v) := Process(e, lim, p, alarmSlot, commandSlot, commandId, ts);
      var id := e.nextAlarmId;
      && (v.alarm == if alarmSlot && TooHot(lim, points, p) then Some(Alarm(id, ts, "bms_001", "BMS_TEMP_HIGH"))
                     else if alarmSlot && ChargeLow(lim, p) then Some(Alarm(id, ts, "bms_001", "BMS_SOC_LOW"))
                     else None)
      && e'.nextAlarmId == (if v.alarm.Some? then id + 1 else id)
      && (v.command.Some? <==> commandSlot && WantsPower(lim, points, p) && !(alarmSlot && TooHot(lim, points, p)))
      && (v.command.Some? ==>
            var over := p.value - lim.peakThreshold;
            v.command.value == Command(commandId, ts, "pcs_001", "target_power_kw",
              if over <= lim.maxDischarge then -over else -lim.maxDischarge, Pending, 3, ""))
      && (v.valid <==> v.alarm.Some? || v.command.Some?)
      && (p.quality != Good ==> e' == e)
      && (p.quality == Good && !v.alarm.Some? ==> e'.state == Running)
      && (alarmSlot && TooHot(lim, points, p) ==> e'.state == Fault)
      && (alarmSlot && ChargeLow(lim, p) && !TooHot(lim, points, p) ==> e'.state == e.state)
  {
    LastNext(points, p, SOC, 80.0);
    LastNext(points, p, CELL_TEMP, 0.0);
    LastNext(points, p, GRID_POWER, 0.0);
  }

  /** The next call after any calls, in terms of the readings alone: which alarm it raises, and exactly
      when it commands a discharge and of how much. */
  lemma NextCallOnReadings(lim: Limits, calls: seq<Call>, call: Call)
    ensures var h := RunCalls(BEGIN, lim, calls, true);
      var g := RunCalls(BEGIN, lim, calls + [call], true);
      var points, p := PointsOf(calls), call.point;
      && g.alarms == h.alarms +
           (if TooHot(lim, points, p) then [Alarm(|h.alarms| + 1, call.ts, "bms_001", "BMS_TEMP_HIGH")]
            else if ChargeLow(lim, p) then [Alarm(|h.alarms| + 1, call.ts, "bms_001", "BMS_SOC_LOW")]
            else [])
      && (|g.issued| == |h.issued| + 1 || |g.issued| == |h.issued|)
      && (|g.issued| == |h.issued| + 1 <==>
            call.commandSlot && WantsPower(lim, points, p) && !TooHot(lim, points, p))
      && (|g.issued| == |h.issued| + 1 ==>
            var over := p.value - lim.peakThreshold;
            g.issued[|h.issued|].1.value == if over <= lim.maxDischarge then -over else -lim.maxDischarge)
  {
    var h := RunCalls(BEGIN, lim, calls, true);
    SnapshotIsLastReading(lim, calls, true);
    VerdictOnReadings(h.engine, lim, PointsOf(calls), call.point, true, call.commandSlot, call.commandId, call.ts);
    RunKeeps(BEGIN, lim, calls);
    RunSplit(BEGIN, lim, calls, [call], true);
    assert [call][1..] == [];
    assert RunCalls(h, lim, [call], true) == Feed(h, lim, call, true);
  }
}
