/** Store and forward across the worker and monitor threads of src/runtime/app.c: the worker
    stores a row, publishes it live and marks it; the monitor fetches a batch of pending rows
    without holding the MQTT lock, then takes the lock, publishes and marks them one by one.
    Each storage statement and each locked write is one step; the steps of the two threads
    interleave freely except where the lock forbids it, and each may fail. */
module Delivery {
  import opened DeviceModel
  import opened MqttCodec
  import opened MqttLink
  import opened Storage
  import opened ReplayLog

  /** The configuration both threads share. render is telemetry_to_json before it is cut to its
      buffer; it does not show the source id. */
  datatype Setup = Setup(who: Identity, topic: Bytes, heartbeatTopic: Bytes, replayBatch: nat,
                         sqlite: bool, render: Telemetry -> Bytes)

  /** The batch size mqtt_session_replay_pending really uses. */
  function Batch(configured: nat): (b: nat)
    ensures 1 <= b <= 64
  {
    if configured == 0 then 50 else if configured > 64 then 64 else configured
  }

  /** What mqtt_session_replay_pending fetches from a table; answers is how many rows the
      database yields before it stops. Without a database there are none. */
  function Fetchable(setup: Setup, open: bool, t: Table, answers: nat): Table
  {
    if open then First(PendingRows(t), FetchLimit(setup, answers)) else []
  }

  function FetchLimit(setup: Setup, answers: nat): (n: nat)
    ensures n <= 64
  {
    if answers < Batch(setup.replayBatch) then answers else Batch(setup.replayBatch)
  }

  function Payload(setup: Setup, point: Telemetry): (s: Bytes)
    ensures |s| <= 383
  {
    var json := setup.render(point.(sourceId := 0));
    if |json| <= 383 then json else json[..383]
  }

  function Message(setup: Setup, point: Telemetry): (p: Packet)
    ensures p.Publish?
  {
    Publish(setup.topic, Payload(setup, point))
  }

  /** body is the whole JSON text of the point, or its first 383 bytes if it is longer. */
  ghost predicate Renders(setup: Setup, point: Telemetry, body: Bytes)
  {
    var json := setup.render(point.(sourceId := 0));
    && (|json| <= 383 ==> body == json)
    && (|json| > 383 ==> body == json[..383])
  }

  /** The message of a point is its text, on the telemetry topic. */
  lemma MessageCarries(setup: Setup, point: Telemetry)
    ensures Message(setup, point) == Publish(setup.topic, Payload(setup, point))
    ensures Renders(setup, point, Payload(setup, point))
  {
  }

  /** Where the worker is after popping a point: nothing in hand, stored under a row (0 if there
      is none), or published and about to mark the row. */
  datatype Worker = Idle | Stored(point: Telemetry, row: nat) | Marking(row: nat)

  /** Where the monitor is in mqtt_session_replay_pending. In the last two it holds the lock. */
  datatype Monitor =
    | Resting
    | Snapshot(rows: Table)
    | Ready(rows: Table, at: nat)
    | MarkingAt(rows: Table, at: nat)

  /** live, replayed: ids of the rows written to the broker in full, in order, by the worker and
      by the replay loop. failed: ids whose replay mark failed. rowless, beats: the other PUBLISH
      packets written in full, of points that have no row and heartbeats. No step reads these five. */
  datatype State = State(
    table: Table, lastId: nat, link: Link, worker: Worker, monitor: Monitor,
    live: seq<nat>, replayed: seq<nat>, failed: seq<nat>,
    rowless: seq<Packet>, beats: seq<Packet>)

  function Others(s: State): seq<Packet> { s.rowless + s.beats }

  datatype Step =
    | Append(point: Telemetry, ok: bool)
    | PublishLive(opening: Opening, replies: seq<Reply>)
    | MarkLive(ok: bool)
    | FetchRows(answers: nat)
    | TakeLock(opening: Opening)
    | ReplaySend(replies: seq<Reply>)
    | ReplayMark(ok: bool)
    | Ping(replies: seq<Reply>)
    | Heartbeat(opening: Opening, payload: Bytes, replies: seq<Reply>)

  predicate LockHeld(s: State) { s.monitor.Ready? || s.monitor.MarkingAt? }

  predicate Enabled(s: State, step: Step)
  {
    && LinkShape(s.link)
    && match step
       case Append(_, _) => s.worker.Idle?
       case PublishLive(_, _) => s.worker.Stored? && !LockHeld(s)
       case MarkLive(_) => s.worker.Marking?
       case FetchRows(_) => s.monitor.Resting?
       case TakeLock(_) => s.monitor.Snapshot?
       case ReplaySend(_) => s.monitor.Ready? && s.monitor.at < |s.monitor.rows| && Usable(s.link)
       case ReplayMark(_) => s.monitor.MarkingAt? && s.monitor.at < |s.monitor.rows|
       case Ping(_) => s.monitor.Resting?
       case Heartbeat(_, _, _) => s.monitor.Resting?
  }

  function Next(setup: Setup, s: State, step: Step): State
    requires Enabled(s, step)
  {
    match step
    case Append(point, ok) =>
      if setup.sqlite && ok then
        s.(table := Insert(s.table, s.lastId, point), lastId := s.lastId + 1,
           worker := Stored(point, s.lastId + 1))
      else s.(worker := Stored(point, 0))
    case PublishLive(opening, replies) =>
      var (l, ok) := PublishLocked(s.link, setup.who, opening, Message(setup, s.worker.point), replies);
      if !ok then s.(link := l, worker := Idle)
      else if s.worker.row > 0 then
        s.(link := l, worker := Marking(s.worker.row), live := s.live + [s.worker.row])
      else s.(link := l, worker := Idle, rowless := s.rowless + [Message(setup, s.worker.point)])
    case MarkLive(ok) =>
      s.(table := if ok then Mark(s.table, s.worker.row) else s.table, worker := Idle)
    case FetchRows(answers) =>
      s.(monitor := Snapshot(Fetchable(setup, setup.sqlite, s.table, answers)))
    case TakeLock(opening) =>
      var (l, up) := Ensure(s.link, setup.who, opening);
      s.(link := l, monitor := if up && s.monitor.rows != [] then Ready(s.monitor.rows, 0) else Resting)
    case ReplaySend(replies) =>
      var row := s.monitor.rows[s.monitor.at];
      var (l, ok) := Send(s.link, Message(setup, Fetched(row).point), replies);
      if ok then
        s.(link := l, monitor := MarkingAt(s.monitor.rows, s.monitor.at), replayed := s.replayed + [row.id])
      else s.(link := Shutdown(l), monitor := Resting)
    case ReplayMark(ok) =>
      var id := s.monitor.rows[s.monitor.at].id;
      var monitor := if s.monitor.at + 1 < |s.monitor.rows| then Ready(s.monitor.rows, s.monitor.at + 1)
                     else Resting;
      if ok then s.(table := Mark(s.table, id), monitor := monitor)
      else s.(failed := s.failed + [id], monitor := monitor)
    case Ping(replies) => s.(link := PingLocked(s.link, replies).0)
    case Heartbeat(opening, payload, replies) =>
      var beat := Publish(setup.heartbeatTopic, payload);
      var (l, ok) := PublishLocked(s.link, setup.who, opening, beat, replies);
      s.(link := l, beats := if ok then s.beats + [beat] else s.beats)
  }

  ghost predicate CanRun(setup: Setup, s: State, steps: seq<Step>)
    decreases |steps|
  {
    steps == [] || (Enabled(s, steps[0]) && CanRun(setup, Next(setup, s, steps[0]), steps[1..]))
  }

  ghost function Run(setup: Setup, s: State, steps: seq<Step>): State
    requires CanRun(setup, s, steps)
    decreases |steps|
  {
    if steps == [] then s else Run(setup, Next(setup, s, steps[0]), steps[1..])
  }

  /** Start-up: whatever table earlier runs left, no connection, both threads at rest. */
  ghost predicate Start(s: State)
  {
    && Sorted(s.table) && Bounded(s.table, s.lastId)
    && s == State(s.table, s.lastId, FRESH, Idle, Resting, [], [], [], [], [])
  }

  // ----- the connection -----

  /** The lock is held only with a connection up, at a row of the snapshot. */
  ghost predicate LinkInv(s: State)
  {
    LinkOk(s.link) && (LockHeld(s) ==> s.link.connected && s.monitor.at < |s.monitor.rows|)
  }

  lemma LinkKept(setup: Setup, s: State, step: Step)
    requires LinkInv(s) && Enabled(s, step)
    ensures LinkInv(Next(setup, s, step))
  {
    match step
    case PublishLive(opening, replies) =>
      PublishGood(s.link, setup.who, opening, Message(setup, s.worker.point), replies);
    case TakeLock(opening) => EnsureGood(s.link, setup.who, opening);
    case ReplaySend(replies) =>
      SendConnectedGood(s.link, Message(setup, Fetched(s.monitor.rows[s.monitor.at]).point), replies);
    case Ping(replies) => PingGood(s.link, replies);
    case Heartbeat(opening, payload, replies) =>
      PublishGood(s.link, setup.who, opening, Publish(setup.heartbeatTopic, payload), replies);
    case _ =>
  }

  lemma LinkGrows(setup: Setup, s: State, step: Step)
    requires LinkInv(s) && Enabled(s, step)
    ensures Extends(s.link, Next(setup, s, step).link)
  {
    match step
    case PublishLive(opening, replies) =>
      PublishExtends(s.link, setup.who, opening, Message(setup, s.worker.point), replies);
    case TakeLock(opening) => EnsureExtends(s.link, setup.who, opening);
    case ReplaySend(replies) =>
      SendExtends(s.link, Message(setup, Fetched(s.monitor.rows[s.monitor.at]).point), replies);
    case Ping(replies) =>
      if s.link.connected { SendExtends(s.link, PingReq, replies); }
    case Heartbeat(opening, payload, replies) =>
      PublishExtends(s.link, setup.who, opening, Publish(setup.heartbeatTopic, payload), replies);
    case _ =>
  }

  // ----- the table and the snapshot -----

  ghost predicate HasRow(t: Table, id: nat, point: Telemetry)
  {
    exists k :: 0 <= k < |t| && t[k].id == id && t[k].point == point
  }

  ghost predicate SnapshotOk(t: Table, lastId: nat, rows: Table)
  {
    && Sorted(rows) && Bounded(rows, lastId)
    && forall j :: 0 <= j < |rows| ==> HasRow(t, rows[j].id, rows[j].point)
  }

  ghost predicate TableInv(s: State)
  {
    && Sorted(s.table) && Bounded(s.table, s.lastId)
    && (!s.monitor.Resting? ==> SnapshotOk(s.table, s.lastId, s.monitor.rows))
  }

  lemma TableGrows(setup: Setup, s: State, step: Step)
    requires Enabled(s, step)
    ensures var s' := Next(setup, s, step); Grows(s.table, s.lastId, s'.table, s'.lastId)
  {
  }

  lemma RowStays(t: Table, u: Table, id: nat, point: Telemetry)
    requires HasRow(t, id, point) && |t| <= |u|
    requires forall k :: 0 <= k < |t| ==> u[k].id == t[k].id && u[k].point == t[k].point
    ensures HasRow(u, id, point)
  {
    var k :| 0 <= k < |t| && t[k].id == id && t[k].point == point;
    assert u[k].id == id && u[k].point == point;
  }

  lemma SnapshotStays(t: Table, lastId: nat, u: Table, newLast: nat, rows: Table)
    requires SnapshotOk(t, lastId, rows) && Grows(t, lastId, u, newLast)
    ensures SnapshotOk(u, newLast, rows)
  {
    forall j | 0 <= j < |rows| ensures HasRow(u, rows[j].id, rows[j].point) {
      RowStays(t, u, rows[j].id, rows[j].point);
    }
  }

  lemma PendingSnapshotOk(t: Table, lastId: nat)
    requires Sorted(t) && Bounded(t, lastId)
    ensures SnapshotOk(t, lastId, PendingRows(t))
  {
    var p := PendingRows(t);
    PendingMembers(t);
    PendingSorted(t);
    forall j | 0 <= j < |p| ensures HasRow(t, p[j].id, p[j].point) && p[j].id <= lastId {
      assert p[j] in t;
      var k :| 0 <= k < |t| && t[k] == p[j];
    }
  }

  lemma PrefixSnapshotOk(t: Table, lastId: nat, rows: Table, n: nat)
    requires SnapshotOk(t, lastId, rows)
    ensures SnapshotOk(t, lastId, First(rows, n))
  {
    var f := First(rows, n);
    forall j | 0 <= j < |f| ensures HasRow(t, f[j].id, f[j].point) {
      assert f[j] == rows[j];
    }
  }

  lemma TableKept(setup: Setup, s: State, step: Step)
    requires TableInv(s) && Enabled(s, step)
    ensures TableInv(Next(setup, s, step))
  {
    var s' := Next(setup, s, step);
    TableGrows(setup, s, step);
    match step
    case FetchRows(answers) =>
      PendingSnapshotOk(s.table, s.lastId);
      PrefixSnapshotOk(s.table, s.lastId, PendingRows(s.table), FetchLimit(setup, answers));
    case _ =>
      if !s.monitor.Resting? {
        SnapshotStays(s.table, s.lastId, s'.table, s'.lastId, s.monitor.rows);
      }
  }

  // ----- every id in the logs was written, every mark follows a write -----

  /** The row with this id was written as the worker writes it. */
  ghost predicate WrittenLive(setup: Setup, t: Table, l: Link, id: nat)
  {
    exists k :: 0 <= k < |t| && t[k].id == id && OnWire(l, Message(setup, t[k].point))
  }

  /** The row with this id was written as the replay loop writes it. */
  ghost predicate WrittenByReplay(setup: Setup, t: Table, l: Link, id: nat)
  {
    exists k :: 0 <= k < |t| && t[k].id == id && OnWire(l, Message(setup, Fetched(t[k]).point))
  }

  ghost predicate AllLive(setup: Setup, t: Table, l: Link, log: seq<nat>)
  {
    forall i :: 0 <= i < |log| ==> WrittenLive(setup, t, l, log[i])
  }

  ghost predicate AllByReplay(setup: Setup, t: Table, l: Link, log: seq<nat>)
  {
    forall i :: 0 <= i < |log| ==> WrittenByReplay(setup, t, l, log[i])
  }

  ghost predicate LogsInv(setup: Setup, s: State)
  {
    && AllLive(setup, s.table, s.link, s.live)
    && AllByReplay(setup, s.table, s.link, s.replayed)
    && (s.worker.Stored? && s.worker.row > 0 ==> StoredRow(s))
  }

  ghost predicate StoredRow(s: State)
    requires s.worker.Stored?
  {
    HasRow(s.table, s.worker.row, s.worker.point.(sourceId := 0))
  }

  lemma WrittenStays(setup: Setup, t: Table, l: Link, lastId: nat, u: Table, m: Link, newLast: nat, id: nat)
    requires Grows(t, lastId, u, newLast) && Extends(l, m)
    ensures WrittenLive(setup, t, l, id) ==> WrittenLive(setup, u, m, id)
    ensures WrittenByReplay(setup, t, l, id) ==> WrittenByReplay(setup, u, m, id)
  {
    if WrittenLive(setup, t, l, id) {
      var k :| 0 <= k < |t| && t[k].id == id && OnWire(l, Message(setup, t[k].point));
      OnWireStays(l, m, Message(setup, t[k].point));
      assert u[k].id == id && OnWire(m, Message(setup, u[k].point));
    }
    if WrittenByReplay(setup, t, l, id) {
      var k :| 0 <= k < |t| && t[k].id == id && OnWire(l, Message(setup, Fetched(t[k]).point));
      OnWireStays(l, m, Message(setup, Fetched(t[k]).point));
      assert u[k].id == id && OnWire(m, Message(setup, Fetched(u[k]).point));
    }
  }

  /** What the live publish put on the wire is the message of the stored row. */
  lemma LiveWrites(setup: Setup, s: State, opening: Opening, replies: seq<Reply>)
    requires LogsInv(setup, s) && Enabled(s, PublishLive(opening, replies)) && s.worker.row > 0
    requires PublishLocked(s.link, setup.who, opening, Message(setup, s.worker.point), replies).1
    ensures WrittenLive(setup, s.table,
              PublishLocked(s.link, setup.who, opening, Message(setup, s.worker.point), replies).0, s.worker.row)
  {
    var p := s.worker.point;
    PublishedIsOnWire(s.link, setup.who, opening, Message(setup, p), replies);
    var k :| 0 <= k < |s.table| && s.table[k].id == s.worker.row && s.table[k].point == p.(sourceId := 0);
    assert Message(setup, s.table[k].point) == Message(setup, p);
  }

  lemma ReplayWrites(setup: Setup, s: State, replies: seq<Reply>)
    requires TableInv(s) && Enabled(s, ReplaySend(replies))
    requires Send(s.link, Message(setup, Fetched(s.monitor.rows[s.monitor.at]).point), replies).1
    ensures WrittenByReplay(setup, s.table,
              Send(s.link, Message(setup, Fetched(s.monitor.rows[s.monitor.at]).point), replies).0,
              s.monitor.rows[s.monitor.at].id)
  {
    var row := s.monitor.rows[s.monitor.at];
    SentIsOnWire(s.link, Message(setup, Fetched(row).point), replies);
    assert HasRow(s.table, row.id, row.point);
    var k :| 0 <= k < |s.table| && s.table[k].id == row.id && s.table[k].point == row.point;
    assert Fetched(s.table[k]) == Fetched(row);
  }

  lemma OldLogsKept(setup: Setup, s: State, step: Step)
    requires LogsInv(setup, s) && LinkInv(s) && Enabled(s, step)
    ensures var s' := Next(setup, s, step);
      AllLive(setup, s'.table, s'.link, s.live) && AllByReplay(setup, s'.table, s'.link, s.replayed)
  {
    var s' := Next(setup, s, step);
    LinkGrows(setup, s, step);
    TableGrows(setup, s, step);
    forall i | 0 <= i < |s.live| ensures WrittenLive(setup, s'.table, s'.link, s.live[i]) {
      WrittenStays(setup, s.table, s.link, s.lastId, s'.table, s'.link, s'.lastId, s.live[i]);
    }
    forall i | 0 <= i < |s.replayed| ensures WrittenByReplay(setup, s'.table, s'.link, s.replayed[i]) {
      WrittenStays(setup, s.table, s.link, s.lastId, s'.table, s'.link, s'.lastId, s.replayed[i]);
    }
  }

  lemma StoredRowKept(setup: Setup, s: State, step: Step)
    requires LogsInv(setup, s) && Enabled(s, step)
    ensures var s' := Next(setup, s, step); s'.worker.Stored? && s'.worker.row > 0 ==> StoredRow(s')
  {
    var s' := Next(setup, s, step);
    TableGrows(setup, s, step);
    if step.Append? {
      if s'.worker.row > 0 {
        assert s'.table[|s.table|].id == s'.worker.row;
      }
    } else if s.worker.Stored? && s.worker.row > 0 {
      RowStays(s.table, s'.table, s.worker.row, s.worker.point.(sourceId := 0));
    }
  }

  lemma LogsAfterPublish(setup: Setup, s: State, opening: Opening, replies: seq<Reply>)
    requires LogsInv(setup, s) && LinkInv(s) && Enabled(s, PublishLive(opening, replies))
    ensures LogsInv(setup, Next(setup, s, PublishLive(opening, replies)))
  {
    var s' := Next(setup, s, PublishLive(opening, replies));
    OldLogsKept(setup, s, PublishLive(opening, replies));
    if s'.worker.Marking? { LiveWrites(setup, s, opening, replies); }
  }

  lemma LogsAfterReplay(setup: Setup, s: State, replies: seq<Reply>)
    requires LogsInv(setup, s) && LinkInv(s) && TableInv(s) && Enabled(s, ReplaySend(replies))
    ensures LogsInv(setup, Next(setup, s, ReplaySend(replies)))
  {
    var s' := Next(setup, s, ReplaySend(replies));
    OldLogsKept(setup, s, ReplaySend(replies));
    StoredRowKept(setup, s, ReplaySend(replies));
    if s'.monitor.MarkingAt? { ReplayWrites(setup, s, replies); }
  }

  lemma LogsOtherwise(setup: Setup, s: State, step: Step)
    requires LogsInv(setup, s) && LinkInv(s) && Enabled(s, step) && !step.PublishLive? && !step.ReplaySend?
    ensures LogsInv(setup, Next(setup, s, step))
  {
    OldLogsKept(setup, s, step);
    StoredRowKept(setup, s, step);
  }

  lemma LogsKept(setup: Setup, s: State, step: Step)
    requires LogsInv(setup, s) && LinkInv(s) && TableInv(s) && Enabled(s, step)
    ensures LogsInv(setup, Next(setup, s, step))
  {
    match step
    case PublishLive(opening, replies) => LogsAfterPublish(setup, s, opening, replies);
    case ReplaySend(replies) => LogsAfterReplay(setup, s, replies);
    case _ => LogsOtherwise(setup, s, step);
  }

  /** A row is marked only once it is in a log; before holds the rows uploaded at start-up. */
  ghost predicate MarksInv(s: State, before: set<nat>)
  {
    && (forall k :: 0 <= k < |s.table| && s.table[k].uploaded ==>
          s.table[k].id in before || s.table[k].id in s.live || s.table[k].id in s.replayed)
    && (s.worker.Marking? ==> s.worker.row in s.live)
    && (s.monitor.MarkingAt? ==> s.monitor.at < |s.monitor.rows| && s.monitor.rows[s.monitor.at].id in s.replayed)
  }

  lemma MarksKept(setup: Setup, s: State, step: Step, before: set<nat>)
    requires MarksInv(s, before) && Enabled(s, step)
    ensures MarksInv(Next(setup, s, step), before)
  {
    var s' := Next(setup, s, step);
    forall id | id in s.live ensures id in s'.live {}
    forall id | id in s.replayed ensures id in s'.replayed {}
    match step
    case PublishLive(_, _) =>
      if s'.worker.Marking? { assert s'.live[|s.live|] == s.worker.row; }
    case ReplaySend(_) =>
      if s'.monitor.MarkingAt? { assert s'.replayed[|s.replayed|] == s.monitor.rows[s.monitor.at].id; }
    case _ =>
  }

  // ----- how often a row is written -----

  function Count(log: seq<nat>, id: nat): nat { multiset(log)[id] }

  lemma CountNext(log: seq<nat>, x: nat)
    ensures forall id :: Count(log + [x], id) == Count(log, id) + if id == x then 1 else 0
  {
    assert multiset(log + [x]) == multiset(log) + multiset{x};
  }

  lemma InLonger(log: seq<nat>, x: nat, id: nat)
    ensures id in log + [x] <==> id in log || id == x
  {
  }

  lemma CountAbsent(log: seq<nat>, id: nat)
    requires id !in log
    ensures Count(log, id) == 0
  {
  }

  ghost predicate Uploaded(t: Table, id: nat)
  {
    exists k :: 0 <= k < |t| && t[k].id == id && t[k].uploaded
  }

  /** Live: an id at most once, and not yet while its point waits in hand. */
  ghost predicate LiveInv(s: State)
  {
    && (forall i :: 0 <= i < |s.live| ==> s.live[i] <= s.lastId)
    && (forall id :: Count(s.live, id) <= 1)
    && (s.worker.Stored? && s.worker.row > 0 ==> s.worker.row <= s.lastId && s.worker.row !in s.live)
  }

  lemma LiveKept(setup: Setup, s: State, step: Step)
    requires LiveInv(s) && Enabled(s, step)
    ensures LiveInv(Next(setup, s, step))
  {
    var s' := Next(setup, s, step);
    if step.PublishLive? && s'.worker.Marking? {
      CountNext(s.live, s.worker.row);
      CountAbsent(s.live, s.worker.row);
    }
  }

  /** The first snapshot row that has not been sent in this round. */
  function NextUnsent(m: Monitor): nat
    requires !m.Resting?
  {
    match m case Snapshot(_) => 0 case Ready(_, at) => at case MarkingAt(_, at) => at + 1
  }

  /** Replay: as many writes of an id as failed marks, plus at most one; the extra one means the
      row is uploaded or its mark is being attempted, so no row still to be sent has it. */
  ghost predicate ReplayInv(s: State)
  {
    && (forall id :: Count(s.failed, id) <= Count(s.replayed, id) <= Count(s.failed, id) + 1)
    && (forall id :: Count(s.replayed, id) > Count(s.failed, id) ==> Uploaded(s.table, id) || BeingMarked(s, id))
    && (s.monitor.MarkingAt? ==>
          && s.monitor.at < |s.monitor.rows|
          && Count(s.replayed, s.monitor.rows[s.monitor.at].id) > Count(s.failed, s.monitor.rows[s.monitor.at].id))
    && (!s.monitor.Resting? ==> forall j :: NextUnsent(s.monitor) <= j < |s.monitor.rows| ==>
          Count(s.replayed, s.monitor.rows[j].id) == Count(s.failed, s.monitor.rows[j].id))
  }

  ghost predicate BeingMarked(s: State, id: nat)
  {
    s.monitor.MarkingAt? && s.monitor.at < |s.monitor.rows| && s.monitor.rows[s.monitor.at].id == id
  }

  lemma UploadedStays(t: Table, lastId: nat, u: Table, newLast: nat, id: nat)
    requires Grows(t, lastId, u, newLast) && Uploaded(t, id)
    ensures Uploaded(u, id)
  {
    var k :| 0 <= k < |t| && t[k].id == id && t[k].uploaded;
    assert u[k].id == id && u[k].uploaded;
  }

  lemma MarkedIsUploaded(t: Table, id: nat, point: Telemetry)
    requires HasRow(t, id, point)
    ensures Uploaded(Mark(t, id), id)
  {
    var k :| 0 <= k < |t| && t[k].id == id && t[k].point == point;
    assert Mark(t, id)[k].uploaded;
  }

  lemma PendingNotUploaded(t: Table, n: nat, j: nat)
    requires Sorted(t) && j < |First(PendingRows(t), n)|
    ensures !Uploaded(t, First(PendingRows(t), n)[j].id)
    ensures First(PendingRows(t), n)[j] in t && !First(PendingRows(t), n)[j].uploaded
  {
    PendingMembers(t);
    var r := First(PendingRows(t), n)[j];
    assert r == PendingRows(t)[j];
    assert r in PendingRows(t);
    var k :| 0 <= k < |t| && t[k] == r;
  }

  lemma ReplaySendKept(setup: Setup, s: State, replies: seq<Reply>)
    requires ReplayInv(s) && TableInv(s) && Enabled(s, ReplaySend(replies))
    ensures ReplayInv(Next(setup, s, ReplaySend(replies)))
  {
    var s' := Next(setup, s, ReplaySend(replies));
    if s'.monitor.MarkingAt? {
      CountNext(s.replayed, s.monitor.rows[s.monitor.at].id);
    }
  }

  lemma ReplayMarkKept(setup: Setup, s: State, ok: bool)
    requires ReplayInv(s) && TableInv(s) && Enabled(s, ReplayMark(ok))
    ensures ReplayInv(Next(setup, s, ReplayMark(ok)))
  {
    var s' := Next(setup, s, ReplayMark(ok));
    var row := s.monitor.rows[s.monitor.at];
    TableGrows(setup, s, ReplayMark(ok));
    if ok {
      MarkedIsUploaded(s.table, row.id, row.point);
    } else {
      CountNext(s.failed, row.id);
    }
    forall id | Count(s'.replayed, id) > Count(s'.failed, id) ensures Uploaded(s'.table, id) {
      if Uploaded(s.table, id) { UploadedStays(s.table, s.lastId, s'.table, s'.lastId, id); }
    }
  }

  lemma FetchKept(setup: Setup, s: State, answers: nat)
    requires ReplayInv(s) && TableInv(s) && Enabled(s, FetchRows(answers))
    ensures ReplayInv(Next(setup, s, FetchRows(answers)))
  {
    var s' := Next(setup, s, FetchRows(answers));
    forall j | 0 <= j < |s'.monitor.rows|
      ensures Count(s.replayed, s'.monitor.rows[j].id) == Count(s.failed, s'.monitor.rows[j].id)
    {
      PendingNotUploaded(s.table, FetchLimit(setup, answers), j);
    }
  }

  /** Nothing about replay changes but the table growing and the monitor taking the lock. */
  lemma ReplayStays(s: State, s': State)
    requires ReplayInv(s) && s'.replayed == s.replayed && s'.failed == s.failed
    requires Grows(s.table, s.lastId, s'.table, s'.lastId) && SamePlace(s.monitor, s'.monitor)
    requires s.monitor.MarkingAt? || s'.monitor.MarkingAt? ==> s'.monitor == s.monitor
    ensures ReplayInv(s')
  {
    forall id | Count(s.replayed, id) > Count(s.failed, id)
      ensures Uploaded(s'.table, id) || BeingMarked(s', id)
    {
      if Uploaded(s.table, id) { UploadedStays(s.table, s.lastId, s'.table, s'.lastId, id); }
    }
  }

  lemma OthersLeaveReplay(setup: Setup, s: State, step: Step)
    requires Enabled(s, step) && !step.ReplaySend? && !step.ReplayMark? && !step.FetchRows?
    ensures var s' := Next(setup, s, step);
      && s'.replayed == s.replayed && s'.failed == s.failed && SamePlace(s.monitor, s'.monitor)
      && (s.monitor.MarkingAt? || s'.monitor.MarkingAt? ==> s'.monitor == s.monitor)
  {
  }

  lemma OthersKeepReplay(setup: Setup, s: State, step: Step)
    requires ReplayInv(s) && Enabled(s, step)
    requires !step.ReplaySend? && !step.ReplayMark? && !step.FetchRows?
    ensures ReplayInv(Next(setup, s, step))
  {
    TableGrows(setup, s, step);
    OthersLeaveReplay(setup, s, step);
    ReplayStays(s, Next(setup, s, step));
  }

  lemma ReplayKept(setup: Setup, s: State, step: Step)
    requires ReplayInv(s) && TableInv(s) && Enabled(s, step)
    ensures ReplayInv(Next(setup, s, step))
  {
    match step
    case ReplaySend(replies) => ReplaySendKept(setup, s, replies);
    case ReplayMark(ok) => ReplayMarkKept(setup, s, ok);
    case FetchRows(answers) => FetchKept(setup, s, answers);
    case _ => OthersKeepReplay(setup, s, step);
  }

  // ----- in which order rows are replayed -----

  ghost predicate OrderOf(t: Table, lastId: nat, log: seq<nat>, monitor: Monitor)
  {
    && (forall a :: 0 <= a < |log| ==> log[a] <= lastId)
    && (forall a :: 0 <= a < |log| ==> Covered(t, log, a))
    && (forall b :: 0 <= b < |log| ==> InOrder(log[..b], log[b]))
    && (!monitor.Resting? ==> Ahead(t, log, monitor.rows, NextUnsent(monitor)))
  }

  ghost predicate OrderInv(s: State) { OrderOf(s.table, s.lastId, s.replayed, s.monitor) }

  lemma OrderFetch(setup: Setup, s: State, answers: nat)
    requires OrderInv(s) && TableInv(s) && Enabled(s, FetchRows(answers))
    ensures OrderInv(Next(setup, s, FetchRows(answers)))
  {
    var n := FetchLimit(setup, answers);
    var rows := Fetchable(setup, setup.sqlite, s.table, answers);
    forall j | 0 <= j < |rows| ensures Lowest(s.table, rows, j) && InOrder(s.replayed, rows[j].id) {
      PendingNotUploaded(s.table, n, j);
      FetchedLowest(s.table, n, j);
      FetchedInOrder(s.table, s.replayed, rows[j]);
    }
  }

  lemma OrderOfSend(t: Table, lastId: nat, log: seq<nat>, rows: Table, at: nat)
    requires OrderOf(t, lastId, log, Ready(rows, at)) && at < |rows|
    requires Sorted(rows) && Bounded(rows, lastId)
    ensures OrderOf(t, lastId, log + [rows[at].id], MarkingAt(rows, at))
  {
    LogNext(t, rows, log, at);
    AheadNext(t, log, rows, at);
  }

  lemma OrderSend(setup: Setup, s: State, replies: seq<Reply>)
    requires OrderInv(s) && TableInv(s) && Enabled(s, ReplaySend(replies))
    ensures OrderInv(Next(setup, s, ReplaySend(replies)))
  {
    OrderOfSend(s.table, s.lastId, s.replayed, s.monitor.rows, s.monitor.at);
  }

  lemma OrderStays(t: Table, lastId: nat, u: Table, newLast: nat, log: seq<nat>, monitor: Monitor)
    requires OrderOf(t, lastId, log, monitor) && Grows(t, lastId, u, newLast)
    requires !monitor.Resting? ==> Bounded(monitor.rows, lastId)
    ensures OrderOf(u, newLast, log, monitor)
  {
    forall a | 0 <= a < |log| ensures Covered(u, log, a) {
      CoveredStays(t, lastId, u, newLast, log, a);
    }
    if !monitor.Resting? {
      forall j | NextUnsent(monitor) <= j < |monitor.rows| ensures Lowest(u, monitor.rows, j) {
        LowestStays(t, lastId, u, newLast, monitor.rows, j);
      }
    }
  }

  /** The monitor resting, or at the same row of the same snapshot. */
  predicate SamePlace(m: Monitor, m': Monitor)
  {
    m'.Resting? || (!m.Resting? && m'.rows == m.rows && NextUnsent(m') == NextUnsent(m))
  }

  lemma OrderInPlace(t: Table, lastId: nat, log: seq<nat>, m: Monitor, m': Monitor)
    requires OrderOf(t, lastId, log, m) && SamePlace(m, m')
    ensures OrderOf(t, lastId, log, m')
  {
  }

  lemma OthersStayInPlace(setup: Setup, s: State, step: Step)
    requires Enabled(s, step) && !step.FetchRows? && !step.ReplaySend?
    ensures SamePlace(s.monitor, Next(setup, s, step).monitor) && Next(setup, s, step).replayed == s.replayed
  {
  }

  lemma OthersKeepOrder(setup: Setup, s: State, step: Step)
    requires OrderInv(s) && TableInv(s) && Enabled(s, step) && !step.FetchRows? && !step.ReplaySend?
    ensures OrderInv(Next(setup, s, step))
  {
    var s' := Next(setup, s, step);
    TableGrows(setup, s, step);
    OthersStayInPlace(setup, s, step);
    OrderStays(s.table, s.lastId, s'.table, s'.lastId, s.replayed, s.monitor);
    OrderInPlace(s'.table, s'.lastId, s.replayed, s.monitor, s'.monitor);
  }

  lemma OrderKept(setup: Setup, s: State, step: Step)
    requires OrderInv(s) && TableInv(s) && Enabled(s, step)
    ensures OrderInv(Next(setup, s, step))
  {
    match step
    case FetchRows(answers) => OrderFetch(setup, s, answers);
    case ReplaySend(replies) => OrderSend(setup, s, replies);
    case _ => OthersKeepOrder(setup, s, step);
  }

  // ----- every run -----

  ghost predicate Inv(setup: Setup, s: State, before: set<nat>)
  {
    && LinkInv(s) && TableInv(s) && LogsInv(setup, s) && MarksInv(s, before)
    && LiveInv(s) && ReplayInv(s) && OrderInv(s)
  }

  ghost function UploadedIds(t: Table): set<nat> { set r | r in t && r.uploaded :: r.id }

  lemma StartInv(setup: Setup, s: State)
    requires Start(s)
    ensures Inv(setup, s, UploadedIds(s.table))
  {
  }

  lemma {:induction false} RunInv(setup: Setup, s: State, steps: seq<Step>, before: set<nat>)
    requires Inv(setup, s, before) && CanRun(setup, s, steps)
    ensures Inv(setup, Run(setup, s, steps), before)
    decreases |steps|
  {
    if steps != [] {
      StepInv(setup, s, steps[0], before);
      RunInv(setup, Next(setup, s, steps[0]), steps[1..], before);
    }
  }

  /** One step of either thread keeps every invariant. */
  lemma StepInv(setup: Setup, s: State, step: Step, before: set<nat>)
    requires Inv(setup, s, before) && Enabled(s, step)
    ensures Inv(setup, Next(setup, s, step), before)
  {
    LinkKept(setup, s, step);
    TableKept(setup, s, step);
    LogsKept(setup, s, step);
    MarksKept(setup, s, step, before);
    LiveKept(setup, s, step);
    ReplayKept(setup, s, step);
    OrderKept(setup, s, step);
  }

  /** The bytes on the connections contain the packet, as the standard's decoder reads them. */
  ghost predicate Readable(l: Link, p: Packet)
  {
    exists i :: 0 <= i < |l.streams| && p in DecodeStream(l.streams[i]).packets
  }

  lemma OnWireIsReadable(l: Link, p: Packet)
    requires LinkOk(l) && OnWire(l, p)
    ensures Readable(l, p)
  {
    var i :| 0 <= i < |l.sent| && p in l.sent[i];
    StreamReads(l.streams[i], l.sent[i], i == l.fd);
  }

  ghost predicate SentOrPending(setup: Setup, l: Link, r: Row, before: set<nat>)
  {
    || !r.uploaded || r.id in before
    || Readable(l, Message(setup, r.point)) || Readable(l, Message(setup, Fetched(r).point))
  }

  lemma LoggedIsReadable(setup: Setup, t: Table, l: Link, k: nat)
    requires LinkOk(l) && Sorted(t) && k < |t|
    requires WrittenLive(setup, t, l, t[k].id) || WrittenByReplay(setup, t, l, t[k].id)
    ensures Readable(l, Message(setup, t[k].point)) || Readable(l, Message(setup, Fetched(t[k]).point))
  {
    if WrittenLive(setup, t, l, t[k].id) {
      var i :| 0 <= i < |t| && t[i].id == t[k].id && OnWire(l, Message(setup, t[i].point));
      assert i == k;
      OnWireIsReadable(l, Message(setup, t[k].point));
    } else {
      var i :| 0 <= i < |t| && t[i].id == t[k].id && OnWire(l, Message(setup, Fetched(t[i]).point));
      assert i == k;
      OnWireIsReadable(l, Message(setup, Fetched(t[k]).point));
    }
  }

  lemma InvSentOrPending(setup: Setup, s: State, before: set<nat>, k: nat)
    requires LinkInv(s) && TableInv(s) && LogsInv(setup, s) && MarksInv(s, before) && k < |s.table|
    ensures SentOrPending(setup, s.link, s.table[k], before)
  {
    var r := s.table[k];
    if r.uploaded && r.id !in before {
      if r.id in s.live {
        var i :| 0 <= i < |s.live| && s.live[i] == r.id;
        assert WrittenLive(setup, s.table, s.link, s.live[i]);
      } else {
        var i :| 0 <= i < |s.replayed| && s.replayed[i] == r.id;
        assert WrittenByReplay(setup, s.table, s.link, s.replayed[i]);
      }
      LoggedIsReadable(setup, s.table, s.link, k);
    }
  }

  /** The row is pending, was uploaded at start-up, or a step wrote it in full. */
  ghost predicate LoggedOrPending(s: State, r: Row, before: set<nat>)
  {
    r.uploaded ==> r.id in before || r.id in s.live || r.id in s.replayed
  }

  /** No row is lost: in every reachable state each row that was not already uploaded at start-up
      is still pending, or one of the two threads wrote that very row in full, and its PUBLISH
      packet can be decoded from the bytes of some connection, as the worker or as the replay loop
      words it. That rows worded alike each have a packet of their own is
      WireLedger.MarkedRowsAreOnTheWire. */
  lemma NoRowMarkedUnpublished(setup: Setup, start: State, steps: seq<Step>, k: nat)
    requires Start(start) && CanRun(setup, start, steps)
    requires k < |Run(setup, start, steps).table|
    ensures var s := Run(setup, start, steps);
      && LoggedOrPending(s, s.table[k], UploadedIds(start.table))
      && SentOrPending(setup, s.link, s.table[k], UploadedIds(start.table))
  {
    StartInv(setup, start);
    RunInv(setup, start, steps, UploadedIds(start.table));
    InvSentOrPending(setup, Run(setup, start, steps), UploadedIds(start.table), k);
  }

  /** Bounded duplicates: over every run a row is written in full at most once by the worker and
      at most once more than its replay marks failed by the replay loop, although the replay
      snapshot is taken before the lock. */
  lemma AtMostTwicePlusFailedMarks(setup: Setup, start: State, steps: seq<Step>, id: nat)
    requires Start(start) && CanRun(setup, start, steps)
    ensures var s := Run(setup, start, steps);
      && Count(s.live, id) <= 1
      && Count(s.replayed, id) <= 1 + Count(s.failed, id)
      && Count(s.live, id) + Count(s.replayed, id) <= 2 + Count(s.failed, id)
  {
    StartInv(setup, start);
    RunInv(setup, start, steps, UploadedIds(start.table));
  }

  ghost predicate Increasing(log: seq<nat>)
  {
    forall a, b :: 0 <= a < b < |log| ==> log[a] < log[b]
  }

  ghost predicate Distinct(log: seq<nat>)
  {
    forall a, b :: 0 <= a < b < |log| ==> log[a] != log[b]
  }

  /** Replay order over a whole run, with rounds cut short and rounds racing with live marks: an
      id is above all replayed before it unless that same id was already replayed, and an id is
      replayed again only if its mark failed. So the replayed ids increase strictly exactly when
      none is replayed twice, and that is so whenever no replay mark fails. */
  lemma ReplayOrder(setup: Setup, start: State, steps: seq<Step>)
    requires Start(start) && CanRun(setup, start, steps)
    ensures var s := Run(setup, start, steps);
      && (forall b :: 0 <= b < |s.replayed| ==> InOrder(s.replayed[..b], s.replayed[b]))
      && (forall b :: 0 <= b < |s.replayed| && s.replayed[b] in s.replayed[..b] ==> s.replayed[b] in s.failed)
      && (Increasing(s.replayed) <==> Distinct(s.replayed))
      && (s.failed == [] ==> Increasing(s.replayed))
  {
    StartInv(setup, start);
    RunInv(setup, start, steps, UploadedIds(start.table));
    OrderOfLog(Run(setup, start, steps).replayed, Run(setup, start, steps).failed);
  }

  lemma OrderOfLog(log: seq<nat>, failed: seq<nat>)
    requires forall b :: 0 <= b < |log| ==> InOrder(log[..b], log[b])
    requires forall id :: Count(log, id) <= Count(failed, id) + 1
    ensures forall b :: 0 <= b < |log| && log[b] in log[..b] ==> log[b] in failed
    ensures Increasing(log) <==> Distinct(log)
    ensures failed == [] ==> Increasing(log)
  {
    if Distinct(log) { DistinctIncreases(log); }
    forall b | 0 <= b < |log| && log[b] in log[..b] ensures log[b] in failed {
      RepeatFailed(log, failed, b);
    }
    if failed == [] {
      forall a, b | 0 <= a < b < |log| ensures log[a] != log[b] {
        assert log[..b][a] == log[a];
      }
      DistinctIncreases(log);
    }
  }

  lemma RepeatFailed(log: seq<nat>, failed: seq<nat>, b: nat)
    requires b < |log| && log[b] in log[..b] && Count(log, log[b]) <= Count(failed, log[b]) + 1
    ensures log[b] in failed
  {
    var a :| 0 <= a < b && log[..b][a] == log[b];
    TwiceCounts(log, a, b);
  }

  lemma DistinctIncreases(log: seq<nat>)
    requires Distinct(log)
    requires forall b :: 0 <= b < |log| ==> InOrder(log[..b], log[b])
    ensures Increasing(log)
  {
    forall a, b | 0 <= a < b < |log| ensures log[a] < log[b] {
      assert InOrder(log[..b], log[b]);
      assert log[..b][a] == log[a];
      assert forall c :: 0 <= c < a + 1 ==> log[..b][..a + 1][c] == log[c];
    }
  }

  lemma TwiceCounts(log: seq<nat>, a: nat, b: nat)
    requires a < b < |log| && log[a] == log[b]
    ensures Count(log, log[a]) >= 2
  {
    assert log == log[..a] + [log[a]] + log[a + 1..b] + [log[b]] + log[b + 1..];
  }

  // ----- twice does happen -----

  lemma RunCons(setup: Setup, s: State, step: Step, rest: seq<Step>)
    requires Enabled(s, step) && CanRun(setup, Next(setup, s, step), rest)
    ensures CanRun(setup, s, [step] + rest)
    ensures Run(setup, s, [step] + rest) == Run(setup, Next(setup, s, step), rest)
  {
    assert ([step] + rest)[1..] == rest;
  }

  const GO: seq<Reply> := [Wrote(1024)]
  const UP: Opening := Opening(true, GO, true)

  lemma SendGoes(l: Link, p: Packet)
    requires Usable(l) && Fits(p)
    ensures Send(l, p, GO).1
  {
    assert Reach(|Encode(p)|, 0, GO) == |Encode(p)|;
  }

  lemma EnsureGoes(l: Link, who: Identity)
    requires LinkShape(l) && |who.clientId| <= 63
    ensures Ensure(l, who, UP).1 && Ensure(l, who, UP).0.connected
  {
    ConfiguredPacketsFit([], [], who.clientId, who.keepalive);
    if !(l.connected && l.fd >= 0) {
      SendGoes(Open(Shutdown(l)), Connect(who.clientId, who.keepalive % 0x1_0000));
    }
  }

  lemma MessageFits(setup: Setup, p: Telemetry)
    requires |setup.topic| <= 127
    ensures Fits(Message(setup, p))
  {
    ConfiguredPacketsFit(setup.topic, Payload(setup, p), [], 0);
  }

  lemma PublishGoes(setup: Setup, l: Link, p: Telemetry)
    requires LinkShape(l) && |setup.who.clientId| <= 63 && |setup.topic| <= 127
    ensures var (m, ok) := PublishLocked(l, setup.who, UP, Message(setup, p), GO);
      ok && m.connected && Usable(m)
  {
    EnsureGoes(l, setup.who);
    MessageFits(setup, p);
    SendGoes(Ensure(l, setup.who, UP).0, Message(setup, p));
  }

  /** The fetch between the worker's append and its publish sees the row. */
  lemma RaceFetch(setup: Setup, p: Telemetry)
    requires setup.sqlite
    ensures var start := State([], 0, FRESH, Idle, Resting, [], [], [], [], []);
      var rows := [Row(1, p.(sourceId := 0), false)];
      && Enabled(start, Append(p, true))
      && var s1 := Next(setup, start, Append(p, true));
      && Enabled(s1, FetchRows(1))
      && Next(setup, s1, FetchRows(1)) == State(rows, 1, FRESH, Stored(p, 1), Snapshot(rows), [], [], [], [], [])
  {
    var row := Row(1, p.(sourceId := 0), false);
    assert Insert([], 0, p) == [row];
    assert PendingRows([row]) == [row] by { assert [row][1..] == []; }
  }

  lemma RacePublish(setup: Setup, s: State, p: Telemetry)
    requires |setup.who.clientId| <= 63 && |setup.topic| <= 127
    requires s.worker == Stored(p, 1) && s.monitor.Snapshot? && LinkShape(s.link)
    ensures Enabled(s, PublishLive(UP, GO))
    ensures var s' := Next(setup, s, PublishLive(UP, GO));
      && LinkShape(s'.link) && s'.live == s.live + [1]
      && s'.monitor == s.monitor && s'.replayed == s.replayed && s'.failed == s.failed
  {
    PublishGoes(setup, s.link, p);
  }

  lemma RaceReplay(setup: Setup, s: State, row: Row)
    requires |setup.who.clientId| <= 63 && |setup.topic| <= 127
    requires s.monitor == Snapshot([row]) && LinkShape(s.link)
    ensures CanRun(setup, s, [TakeLock(UP), ReplaySend(GO)])
    ensures var s' := Run(setup, s, [TakeLock(UP), ReplaySend(GO)]);
      s'.replayed == s.replayed + [row.id] && s'.live == s.live && s'.failed == s.failed
  {
    EnsureGoes(s.link, setup.who);
    var s1 := Next(setup, s, TakeLock(UP));
    MessageFits(setup, Fetched(row).point);
    SendGoes(s1.link, Message(setup, Fetched(row).point));
    RunCons(setup, s1, ReplaySend(GO), []);
    RunCons(setup, s, TakeLock(UP), [ReplaySend(GO)]);
  }

  /** A row is pending from its append until its live mark. If the monitor fetches in between, the
      row goes out twice although nothing failed. Duplicates says exactly when this can happen. */
  lemma TwiceWithoutFailure(setup: Setup, p: Telemetry)
    requires setup.sqlite && |setup.who.clientId| <= 63 && |setup.topic| <= 127
    ensures var start := State([], 0, FRESH, Idle, Resting, [], [], [], [], []);
      var steps := [Append(p, true), FetchRows(1), PublishLive(UP, GO), TakeLock(UP), ReplaySend(GO)];
      && Start(start) && CanRun(setup, start, steps)
      && var s := Run(setup, start, steps);
      s.failed == [] && Count(s.live, 1) == 1 && Count(s.replayed, 1) == 1
  {
    var s0 := State([], 0, FRESH, Idle, Resting, [], [], [], [], []);
    RaceFetch(setup, p);
    var s1 := Next(setup, s0, Append(p, true));
    var s2 := Next(setup, s1, FetchRows(1));
    RacePublish(setup, s2, p);
    var s3 := Next(setup, s2, PublishLive(UP, GO));
    RaceReplay(setup, s3, Row(1, p.(sourceId := 0), false));
    var tail := [TakeLock(UP), ReplaySend(GO)];
    RunCons(setup, s2, PublishLive(UP, GO), tail);
    RunCons(setup, s1, FetchRows(1), [PublishLive(UP, GO)] + tail);
    RunCons(setup, s0, Append(p, true), [FetchRows(1)] + ([PublishLive(UP, GO)] + tail));
    assert [Append(p, true)] + ([FetchRows(1)] + ([PublishLive(UP, GO)] + tail)) ==
      [Append(p, true), FetchRows(1), PublishLive(UP, GO), TakeLock(UP), ReplaySend(GO)];
  }
}
