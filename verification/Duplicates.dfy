/** When a stored row reaches a broker twice. A row is pending from its append until its live mark,
    so a replay round can fetch it while the worker still has it in hand, or after its live mark
    failed. These are the only two ways, and the first needs no failure at all. */
module Duplicates {
  import opened DeviceModel
  import opened MqttCodec
  import opened MqttLink
  import opened Storage
  import opened Delivery
  import opened ReplayLog

  /** The worker has stored this row and not yet tried to mark it. */
  predicate Holds(w: Worker, id: nat)
  {
    id > 0 && ((w.Stored? && w.row == id) || (w.Marking? && w.row == id))
  }

  /** The row is in the monitor's snapshot and still to be sent in this round. */
  ghost predicate Unsent(m: Monitor, id: nat)
  {
    !m.Resting? && exists j :: NextUnsent(m) <= j < |m.rows| && m.rows[j].id == id
  }

  ghost predicate InBoth(s: State, id: nat) { id in s.live && id in s.replayed }

  // ----- the two ways -----

  /** The step fetches the row while the worker holds it, or fails to mark it after its live publish. */
  ghost predicate LoosenedBy(setup: Setup, s: State, step: Step, id: nat)
  {
    match step
    case FetchRows(answers) => Holds(s.worker, id) && IdIn(Fetchable(setup, setup.sqlite, s.table, answers), id)
    case MarkLive(ok) => !ok && Holds(s.worker, id)
    case _ => false
  }

  ghost predicate Loosened(setup: Setup, s: State, steps: seq<Step>, id: nat)
    requires CanRun(setup, s, steps)
    decreases |steps|
  {
    steps != [] && (LoosenedBy(setup, s, steps[0], id) || Loosened(setup, Next(setup, s, steps[0]), steps[1..], id))
  }

  /** What keeps a row from being written by both threads. */
  ghost predicate Apart(s: State, id: nat)
  {
    && !InBoth(s, id)
    && (id in s.live ==> Uploaded(s.table, id) || Holds(s.worker, id))
    && (id in s.replayed ==> !Holds(s.worker, id))
    && (Unsent(s.monitor, id) ==> id !in s.live && !Holds(s.worker, id))
  }

  lemma ApartFetch(setup: Setup, s: State, answers: nat, id: nat)
    requires Apart(s, id) && TableInv(s) && Enabled(s, FetchRows(answers))
    requires !LoosenedBy(setup, s, FetchRows(answers), id)
    ensures Apart(Next(setup, s, FetchRows(answers)), id)
  {
    var rows := Fetchable(setup, setup.sqlite, s.table, answers);
    if Unsent(Snapshot(rows), id) {
      var j :| 0 <= j < |rows| && rows[j].id == id;
      PendingNotUploaded(s.table, FetchLimit(setup, answers), j);
    }
  }

  /** A row in the live log is in the table. */
  lemma LiveHasRow(setup: Setup, s: State, id: nat)
    requires LogsInv(setup, s) && id in s.live
    ensures Uploaded(Mark(s.table, id), id)
  {
    var i :| 0 <= i < |s.live| && s.live[i] == id;
    assert WrittenLive(setup, s.table, s.link, s.live[i]);
    var k :| 0 <= k < |s.table| && s.table[k].id == id && OnWire(s.link, Message(setup, s.table[k].point));
    MarkedIsUploaded(s.table, id, s.table[k].point);
  }

  lemma ApartMarked(setup: Setup, s: State, ok: bool, id: nat)
    requires Apart(s, id) && LogsInv(setup, s) && Enabled(s, MarkLive(ok))
    requires !LoosenedBy(setup, s, MarkLive(ok), id)
    ensures Apart(Next(setup, s, MarkLive(ok)), id)
  {
    TableGrows(setup, s, MarkLive(ok));
    if id in s.live {
      if Uploaded(s.table, id) {
        UploadedStays(s.table, s.lastId, Next(setup, s, MarkLive(ok)).table, s.lastId, id);
      } else {
        LiveHasRow(setup, s, id);
      }
    }
  }

  lemma ApartAppend(setup: Setup, s: State, point: Telemetry, ok: bool, id: nat)
    requires Apart(s, id) && TableInv(s) && LiveInv(s) && OrderInv(s) && Enabled(s, Append(point, ok))
    ensures Apart(Next(setup, s, Append(point, ok)), id)
  {
    var s' := Next(setup, s, Append(point, ok));
    TableGrows(setup, s, Append(point, ok));
    if Uploaded(s.table, id) { UploadedStays(s.table, s.lastId, s'.table, s'.lastId, id); }
    if id == s.lastId + 1 {
      assert id !in s.live && id !in s.replayed;
    }
  }

  lemma ApartPublish(setup: Setup, s: State, opening: Opening, replies: seq<Reply>, id: nat)
    requires Apart(s, id) && LiveInv(s) && Enabled(s, PublishLive(opening, replies))
    ensures Apart(Next(setup, s, PublishLive(opening, replies)), id)
  {
    var s' := Next(setup, s, PublishLive(opening, replies));
    InLonger(s.live, s.worker.row, id);
  }

  lemma ApartReplay(setup: Setup, s: State, replies: seq<Reply>, id: nat)
    requires Apart(s, id) && Enabled(s, ReplaySend(replies))
    ensures Apart(Next(setup, s, ReplaySend(replies)), id)
  {
    var s' := Next(setup, s, ReplaySend(replies));
    InLonger(s.replayed, s.monitor.rows[s.monitor.at].id, id);
    if Unsent(s'.monitor, id) {
      var j :| NextUnsent(s'.monitor) <= j < |s'.monitor.rows| && s'.monitor.rows[j].id == id;
      assert Unsent(s.monitor, id);
    }
    if s.monitor.rows[s.monitor.at].id == id { assert Unsent(s.monitor, id); }
  }

  lemma ApartOtherwise(setup: Setup, s: State, step: Step, id: nat)
    requires Apart(s, id) && Enabled(s, step)
    requires step.TakeLock? || step.ReplayMark? || step.Ping? || step.Heartbeat?
    ensures Apart(Next(setup, s, step), id)
  {
    var s' := Next(setup, s, step);
    TableGrows(setup, s, step);
    if Uploaded(s.table, id) { UploadedStays(s.table, s.lastId, s'.table, s'.lastId, id); }
    if Unsent(s'.monitor, id) {
      var j :| NextUnsent(s'.monitor) <= j < |s'.monitor.rows| && s'.monitor.rows[j].id == id;
      assert Unsent(s.monitor, id);
    }
  }

  lemma ApartKept(setup: Setup, s: State, step: Step, before: set<nat>, id: nat)
    requires Apart(s, id) && Inv(setup, s, before) && Enabled(s, step) && id > 0
    requires !LoosenedBy(setup, s, step, id)
    ensures Apart(Next(setup, s, step), id)
  {
    match step
    case Append(point, ok) => ApartAppend(setup, s, point, ok, id);
    case PublishLive(opening, replies) => ApartPublish(setup, s, opening, replies, id);
    case MarkLive(ok) => ApartMarked(setup, s, ok, id);
    case FetchRows(answers) => ApartFetch(setup, s, answers, id);
    case ReplaySend(replies) => ApartReplay(setup, s, replies, id);
    case _ => ApartOtherwise(setup, s, step, id);
  }

  lemma {:induction false} RunApart(setup: Setup, s: State, steps: seq<Step>, before: set<nat>, id: nat)
    requires Apart(s, id) && Inv(setup, s, before) && CanRun(setup, s, steps) && id > 0
    requires !Loosened(setup, s, steps, id)
    ensures Apart(Run(setup, s, steps), id)
    decreases |steps|
  {
    if steps != [] {
      ApartKept(setup, s, steps[0], before, id);
      StepInv(setup, s, steps[0], before);
      RunApart(setup, Next(setup, s, steps[0]), steps[1..], before, id);
    }
  }

  /** The only causes, over every run: a row written by both threads was fetched for replay while
      the worker held it, or its live mark failed. */
  lemma BothOnlyIfLoosened(setup: Setup, start: State, steps: seq<Step>, id: nat)
    requires Start(start) && CanRun(setup, start, steps)
    requires InBoth(Run(setup, start, steps), id)
    ensures Loosened(setup, start, steps, id)
  {
    StartInv(setup, start);
    if id == 0 {
      NoRowZero(setup, start, steps);
    } else if !Loosened(setup, start, steps, id) {
      RunApart(setup, start, steps, UploadedIds(start.table), id);
    }
  }

  lemma WrittenPositive(setup: Setup, t: Table, l: Link, id: nat)
    requires Sorted(t) && WrittenLive(setup, t, l, id)
    ensures id > 0
  {
    var k :| 0 <= k < |t| && t[k].id == id && OnWire(l, Message(setup, t[k].point));
  }

  lemma NoRowZero(setup: Setup, start: State, steps: seq<Step>)
    requires Start(start) && CanRun(setup, start, steps)
    ensures 0 !in Run(setup, start, steps).live
  {
    StartInv(setup, start);
    RunInv(setup, start, steps, UploadedIds(start.table));
    var s := Run(setup, start, steps);
    forall i | 0 <= i < |s.live| ensures s.live[i] != 0 {
      WrittenPositive(setup, s.table, s.link, s.live[i]);
    }
  }

  /** Every fetch finds the worker with no row in hand, and every live mark succeeds. */
  ghost predicate Calm(setup: Setup, s: State, steps: seq<Step>)
    requires CanRun(setup, s, steps)
    decreases |steps|
  {
    steps != [] ==>
    && (steps[0].FetchRows? ==> !s.worker.Marking? && (s.worker.Stored? ==> s.worker.row == 0))
    && (steps[0].MarkLive? ==> steps[0].ok)
    && Calm(setup, Next(setup, s, steps[0]), steps[1..])
  }

  lemma {:induction false} CalmLoosensNothing(setup: Setup, s: State, steps: seq<Step>, id: nat)
    requires CanRun(setup, s, steps) && Calm(setup, s, steps)
    ensures !Loosened(setup, s, steps, id)
    decreases |steps|
  {
    if steps != [] {
      CalmLoosensNothing(setup, Next(setup, s, steps[0]), steps[1..], id);
    }
  }

  lemma AbsentOrCounted(log: seq<nat>, id: nat)
    ensures Count(log, id) > 0 <==> id in log
  {
  }

  /** So if the fetches keep clear of the row in hand and live marks succeed, a row is written in
      full at most once more than its replay marks failed. */
  lemma OnceIfCalm(setup: Setup, start: State, steps: seq<Step>, id: nat)
    requires Start(start) && CanRun(setup, start, steps) && Calm(setup, start, steps)
    ensures var s := Run(setup, start, steps);
      Count(s.live, id) + Count(s.replayed, id) <= 1 + Count(s.failed, id)
  {
    var s := Run(setup, start, steps);
    AtMostTwicePlusFailedMarks(setup, start, steps, id);
    CalmLoosensNothing(setup, start, steps, id);
    if InBoth(s, id) { BothOnlyIfLoosened(setup, start, steps, id); }
    AbsentOrCounted(s.live, id);
    AbsentOrCounted(s.replayed, id);
  }

  // ----- when a second write can still be prevented -----

  /** Each thread has written the row or still will, with the row in hand or in the snapshot. */
  ghost predicate Doomed(s: State, id: nat)
  {
    && (id in s.live || (s.worker.Stored? && s.worker.row == id))
    && (id in s.replayed || Unsent(s.monitor, id))
  }

  lemma UnsentBounded(s: State, id: nat)
    requires TableInv(s) && Unsent(s.monitor, id)
    ensures id <= s.lastId
  {
  }

  lemma DoomedBeforeAppend(setup: Setup, s: State, point: Telemetry, ok: bool, id: nat)
    requires TableInv(s) && LiveInv(s) && OrderInv(s) && Enabled(s, Append(point, ok)) && id > 0
    requires Doomed(Next(setup, s, Append(point, ok)), id)
    ensures Doomed(s, id)
  {
    if Unsent(s.monitor, id) { UnsentBounded(s, id); }
  }

  lemma DoomedBeforeReplay(setup: Setup, s: State, replies: seq<Reply>, id: nat)
    requires Enabled(s, ReplaySend(replies)) && Doomed(Next(setup, s, ReplaySend(replies)), id)
    ensures Doomed(s, id)
  {
    var s' := Next(setup, s, ReplaySend(replies));
    InLonger(s.replayed, s.monitor.rows[s.monitor.at].id, id);
    if Unsent(s'.monitor, id) { UnsentBefore(s.monitor, s'.monitor, id); }
    if s.monitor.rows[s.monitor.at].id == id { assert Unsent(s.monitor, id); }
  }

  /** A later place in the same snapshot leaves fewer rows to send. */
  lemma UnsentBefore(m: Monitor, m': Monitor, id: nat)
    requires !m.Resting? && !m'.Resting? && m'.rows == m.rows && NextUnsent(m) <= NextUnsent(m')
    requires Unsent(m', id)
    ensures Unsent(m, id)
  {
    var j :| NextUnsent(m') <= j < |m'.rows| && m'.rows[j].id == id;
    assert m.rows[j].id == id;
  }

  lemma DoomedBeforePublish(setup: Setup, s: State, opening: Opening, replies: seq<Reply>, id: nat)
    requires Enabled(s, PublishLive(opening, replies)) && Doomed(Next(setup, s, PublishLive(opening, replies)), id)
    ensures Doomed(s, id)
  {
    InLonger(s.live, s.worker.row, id);
  }

  lemma DoomedBeforeOthers(setup: Setup, s: State, step: Step, id: nat)
    requires Enabled(s, step) && Doomed(Next(setup, s, step), id)
    requires step.MarkLive? || step.TakeLock? || step.ReplayMark? || step.Ping? || step.Heartbeat?
    ensures Doomed(s, id)
  {
    var m' := Next(setup, s, step).monitor;
    if Unsent(m', id) { UnsentBefore(s.monitor, m', id); }
  }

  lemma DoomedBefore(setup: Setup, s: State, step: Step, id: nat)
    requires TableInv(s) && LiveInv(s) && OrderInv(s) && Enabled(s, step) && !step.FetchRows? && id > 0
    requires Doomed(Next(setup, s, step), id)
    ensures Doomed(s, id)
  {
    match step
    case Append(point, ok) => DoomedBeforeAppend(setup, s, point, ok, id);
    case PublishLive(opening, replies) => DoomedBeforePublish(setup, s, opening, replies, id);
    case ReplaySend(replies) => DoomedBeforeReplay(setup, s, replies, id);
    case _ => DoomedBeforeOthers(setup, s, step, id);
  }

  ghost predicate NoFetch(steps: seq<Step>) { forall i :: 0 <= i < |steps| ==> !steps[i].FetchRows? }

  lemma {:induction false} BothOnlyIfDoomed(setup: Setup, s: State, steps: seq<Step>, before: set<nat>, id: nat)
    requires Inv(setup, s, before) && CanRun(setup, s, steps) && NoFetch(steps) && id > 0
    requires Doomed(Run(setup, s, steps), id)
    ensures Doomed(s, id)
    decreases |steps|
  {
    if steps != [] {
      StepInv(setup, s, steps[0], before);
      BothOnlyIfDoomed(setup, Next(setup, s, steps[0]), steps[1..], before, id);
      DoomedBefore(setup, s, steps[0], id);
    }
  }

  // ----- and when it cannot -----

  /** A step of either thread that succeeds in everything it tries. */
  ghost predicate Smooth(step: Step)
  {
    match step
    case PublishLive(opening, replies) => opening == UP && replies == GO
    case TakeLock(opening) => opening == UP
    case ReplaySend(replies) => replies == GO
    case ReplayMark(ok) => ok
    case _ => false
  }

  /** Smooth steps from s to e, which only add to the replay log and rest the monitor. */
  ghost predicate RestedBy(setup: Setup, s: State, steps: seq<Step>, e: State)
  {
    && (forall i :: 0 <= i < |steps| ==> Smooth(steps[i]))
    && CanRun(setup, s, steps) && Run(setup, s, steps) == e
    && e.monitor == Resting && LinkShape(e.link)
    && e.worker == s.worker && e.live == s.live && e.failed == s.failed
    && forall id :: id in s.replayed || Unsent(s.monitor, id) ==> id in e.replayed
  }

  lemma RestedCons(setup: Setup, s: State, step: Step, steps: seq<Step>, e: State)
    requires Smooth(step) && Enabled(s, step)
    requires var s1 := Next(setup, s, step);
      && RestedBy(setup, s1, steps, e)
      && s1.worker == s.worker && s1.live == s.live && s1.failed == s.failed
      && forall id :: id in s.replayed || Unsent(s.monitor, id) ==> id in s1.replayed || Unsent(s1.monitor, id)
    ensures RestedBy(setup, s, [step] + steps, e)
  {
    RunCons(setup, s, step, steps);
  }

  /** The send of the next snapshot row goes through. */
  lemma SendsNext(setup: Setup, s: State, rows: Table, at: nat)
    requires |setup.topic| <= 127 && Usable(s.link) && at < |rows| && s.monitor == Ready(rows, at)
    ensures Enabled(s, ReplaySend(GO))
    ensures var s1 := Next(setup, s, ReplaySend(GO));
      && s1.monitor == MarkingAt(rows, at) && Usable(s1.link) && s1.replayed == s.replayed + [rows[at].id]
      && s1.worker == s.worker && s1.live == s.live && s1.failed == s.failed
  {
    MessageFits(setup, Fetched(rows[at]).point);
    SendGoes(s.link, Message(setup, Fetched(rows[at]).point));
  }

  lemma SendLosesNothing(rows: Table, at: nat, replayed: seq<nat>, id: nat)
    requires at < |rows| && (id in replayed || Unsent(Ready(rows, at), id))
    ensures id in replayed + [rows[at].id] || Unsent(MarkingAt(rows, at), id)
  {
    InLonger(replayed, rows[at].id, id);
    if id !in replayed && id != rows[at].id {
      var j :| at <= j < |rows| && rows[j].id == id;
      assert at + 1 <= j;
    }
  }

  lemma FinishMark(setup: Setup, s: State, rows: Table, at: nat) returns (steps: seq<Step>, e: State)
    requires |setup.topic| <= 127 && Usable(s.link) && at < |rows| && s.monitor == MarkingAt(rows, at)
    ensures RestedBy(setup, s, steps, e)
    decreases |rows| - at, 0
  {
    var s1 := Next(setup, s, ReplayMark(true));
    if at + 1 < |rows| {
      steps, e := FinishRows(setup, s1, rows, at + 1);
    } else {
      steps, e := [], s1;
    }
    forall id | Unsent(s.monitor, id) ensures Unsent(s1.monitor, id) {
      var j :| at + 1 <= j < |rows| && rows[j].id == id;
    }
    RestedCons(setup, s, ReplayMark(true), steps, e);
    steps := [ReplayMark(true)] + steps;
  }

  lemma FinishRows(setup: Setup, s: State, rows: Table, at: nat) returns (steps: seq<Step>, e: State)
    requires |setup.topic| <= 127 && Usable(s.link) && at < |rows| && s.monitor == Ready(rows, at)
    ensures RestedBy(setup, s, steps, e)
    decreases |rows| - at, 1
  {
    SendsNext(setup, s, rows, at);
    var s1 := Next(setup, s, ReplaySend(GO));
    steps, e := FinishMark(setup, s1, rows, at);
    forall id | id in s.replayed || Unsent(s.monitor, id) ensures id in s1.replayed || Unsent(s1.monitor, id) {
      SendLosesNothing(rows, at, s.replayed, id);
    }
    RestedCons(setup, s, ReplaySend(GO), steps, e);
    steps := [ReplaySend(GO)] + steps;
  }

  lemma FinishSnapshot(setup: Setup, s: State, rows: Table) returns (steps: seq<Step>, e: State)
    requires |setup.topic| <= 127 && |setup.who.clientId| <= 63
    requires LinkShape(s.link) && s.monitor == Snapshot(rows)
    ensures RestedBy(setup, s, steps, e)
  {
    EnsureGoes(s.link, setup.who);
    var s1 := Next(setup, s, TakeLock(UP));
    if rows == [] {
      steps, e := [], s1;
    } else {
      steps, e := FinishRows(setup, s1, rows, 0);
    }
    forall id | Unsent(s.monitor, id) ensures Unsent(s1.monitor, id) {
      var j :| 0 <= j < |rows| && rows[j].id == id;
    }
    RestedCons(setup, s, TakeLock(UP), steps, e);
    steps := [TakeLock(UP)] + steps;
  }

  /** The monitor can finish its round without a failure. */
  lemma FinishRound(setup: Setup, s: State) returns (steps: seq<Step>, e: State)
    requires |setup.topic| <= 127 && |setup.who.clientId| <= 63 && LinkInv(s)
    ensures RestedBy(setup, s, steps, e)
  {
    match s.monitor
    case Resting => steps, e := [], s;
    case Snapshot(rows) => steps, e := FinishSnapshot(setup, s, rows);
    case Ready(rows, at) => steps, e := FinishRows(setup, s, rows, at);
    case MarkingAt(rows, at) => steps, e := FinishMark(setup, s, rows, at);
  }

  /** The steps all succeed and end with the row in both logs. */
  ghost predicate DoublesSmoothly(setup: Setup, s: State, steps: seq<Step>, id: nat)
  {
    && (forall i :: 0 <= i < |steps| ==> Smooth(steps[i]))
    && CanRun(setup, s, steps)
    && InBoth(Run(setup, s, steps), id) && Run(setup, s, steps).failed == s.failed
  }

  lemma {:induction false} RunAppend(setup: Setup, s: State, a: seq<Step>, b: seq<Step>)
    requires CanRun(setup, s, a) && CanRun(setup, Run(setup, s, a), b)
    ensures CanRun(setup, s, a + b) && Run(setup, s, a + b) == Run(setup, Run(setup, s, a), b)
    decreases |a|
  {
    if a == [] {
      assert a + b == b;
    } else {
      assert (a + b)[1..] == a[1..] + b;
      RunAppend(setup, Next(setup, s, a[0]), a[1..], b);
    }
  }

  lemma PublishesLast(setup: Setup, e: State, id: nat)
    requires |setup.topic| <= 127 && |setup.who.clientId| <= 63 && LinkShape(e.link)
    requires e.worker.Stored? && e.worker.row == id > 0 && e.monitor == Resting
    ensures CanRun(setup, e, [PublishLive(UP, GO)])
    ensures var f := Run(setup, e, [PublishLive(UP, GO)]);
      f.live == e.live + [id] && f.replayed == e.replayed && f.failed == e.failed
  {
    PublishGoes(setup, e.link, e.worker.point);
    RunCons(setup, e, PublishLive(UP, GO), []);
  }

  lemma DoomedDoubles(setup: Setup, s: State, id: nat) returns (steps: seq<Step>)
    requires |setup.topic| <= 127 && |setup.who.clientId| <= 63
    requires LinkInv(s) && id > 0 && Doomed(s, id)
    ensures DoublesSmoothly(setup, s, steps, id)
  {
    var e;
    steps, e := FinishRound(setup, s);
    if id !in s.live {
      PublishesLast(setup, e, id);
      InLonger(e.live, id, id);
      RunAppend(setup, s, steps, [PublishLive(UP, GO)]);
      steps := steps + [PublishLive(UP, GO)];
    }
  }

  /** Exactly when a row will not be kept from a second write, at any point of any run: within the
      current replay round the row can end up written by both threads if and only if each thread has
      written it or has it in hand or in its snapshot; and then it can without a single failure. */
  lemma DoubledIffDoomed(setup: Setup, start: State, past: seq<Step>, id: nat)
    requires |setup.topic| <= 127 && |setup.who.clientId| <= 63
    requires Start(start) && CanRun(setup, start, past) && id > 0
    ensures var s := Run(setup, start, past);
      && ((exists steps :: CanRun(setup, s, steps) && NoFetch(steps) && InBoth(Run(setup, s, steps), id))
          <==> Doomed(s, id))
      && (Doomed(s, id) ==> exists steps :: DoublesSmoothly(setup, s, steps, id))
  {
    var s, before := Run(setup, start, past), UploadedIds(start.table);
    StartInv(setup, start);
    RunInv(setup, start, past, before);
    if steps :| CanRun(setup, s, steps) && NoFetch(steps) && InBoth(Run(setup, s, steps), id) {
      BothOnlyIfDoomed(setup, s, steps, before, id);
    }
    if Doomed(s, id) {
      var steps := DoomedDoubles(setup, s, id);
      assert NoFetch(steps);
    }
  }
}
