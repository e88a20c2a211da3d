/** Every PUBLISH packet that can be decoded from the connections, counted against the logs of
    Delivery: the logs record every packet that reached a broker in full, and nothing else. */
module WireLedger {
  import opened DeviceModel
  import opened MqttCodec
  import opened MqttLink
  import opened Storage
  import opened Delivery
  import opened ReplayLog

  // ----- the PUBLISH packets on the wire -----

  ghost function One(p: Packet): multiset<Packet> { if p.Publish? then multiset{p} else multiset{} }

  ghost function Published(packets: seq<Packet>): multiset<Packet>
  {
    if packets == [] then multiset{}
    else Published(packets[..|packets| - 1]) + One(packets[|packets| - 1])
  }

  ghost function AllPublished(connections: seq<seq<Packet>>): multiset<Packet>
  {
    if connections == [] then multiset{}
    else AllPublished(connections[..|connections| - 1]) + Published(connections[|connections| - 1])
  }

  lemma PublishedNext(packets: seq<Packet>, p: Packet)
    ensures Published(packets + [p]) == Published(packets) + One(p)
  {
    assert (packets + [p])[..|packets|] == packets;
  }

  lemma LastConnectionNext(connections: seq<seq<Packet>>, p: Packet)
    requires connections != []
    ensures var n := |connections| - 1;
      AllPublished(connections[n := connections[n] + [p]]) == AllPublished(connections) + One(p)
  {
    var n := |connections| - 1;
    assert connections[n := connections[n] + [p]][..n] == connections[..n];
    PublishedNext(connections[n], p);
  }

  lemma NewConnection(connections: seq<seq<Packet>>)
    ensures AllPublished(connections + [[]]) == AllPublished(connections)
  {
    assert (connections + [[]])[..|connections|] == connections;
  }

  // ----- what each locked operation adds -----

  predicate Newest(l: Link) { Usable(l) && l.fd == |l.sent| - 1 }

  lemma SendRecords(l: Link, p: Packet, replies: seq<Reply>)
    requires Usable(l)
    ensures var (m, ok) := Send(l, p, replies);
      m.fd == l.fd && m.sent == if ok then l.sent[l.fd := l.sent[l.fd] + [p]] else l.sent
  {
  }

  lemma SendAdds(l: Link, p: Packet, replies: seq<Reply>)
    requires Newest(l)
    ensures var (m, ok) := Send(l, p, replies);
      AllPublished(m.sent) == AllPublished(l.sent) + if ok then One(p) else multiset{}
  {
    SendRecords(l, p, replies);
    LastConnectionNext(l.sent, p);
  }

  lemma EnsureAdds(l: Link, who: Identity, opening: Opening)
    requires LinkOk(l)
    ensures var (m, up) := Ensure(l, who, opening);
      AllPublished(m.sent) == AllPublished(l.sent) && (up ==> Newest(m))
  {
    if !(l.connected && l.fd >= 0) && opening.tcp {
      var anew := Open(Shutdown(l));
      assert Newest(anew) && anew.sent == l.sent + [[]];
      NewConnection(l.sent);
      SendAdds(anew, Connect(who.clientId, who.keepalive % 0x1_0000), opening.writes);
    }
  }

  lemma PublishAdds(l: Link, who: Identity, opening: Opening, p: Packet, replies: seq<Reply>)
    requires LinkOk(l)
    ensures var (m, ok) := PublishLocked(l, who, opening, p, replies);
      AllPublished(m.sent) == AllPublished(l.sent) + if ok then One(p) else multiset{}
  {
    EnsureAdds(l, who, opening);
    var (m, up) := Ensure(l, who, opening);
    if up { SendAdds(m, p, replies); }
  }

  lemma PingAdds(l: Link, replies: seq<Reply>)
    requires LinkOk(l)
    ensures AllPublished(PingLocked(l, replies).0.sent) == AllPublished(l.sent)
  {
    if l.connected { SendAdds(l, PingReq, replies); }
  }

  // ----- what the logs stand for -----

  const NOWHERE: Telemetry := Telemetry(0, "", "", 0.0, "", Good, 0)

  /** The point of the row with this id. */
  function PointOf(t: Table, id: nat): Telemetry
  {
    if t == [] then NOWHERE
    else if t[|t| - 1].id == id then t[|t| - 1].point
    else PointOf(t[..|t| - 1], id)
  }

  lemma {:induction false} PointOfRow(t: Table, k: nat)
    requires Sorted(t) && k < |t|
    ensures PointOf(t, t[k].id) == t[k].point
    decreases |t|
  {
    if k < |t| - 1 { PointOfRow(t[..|t| - 1], k); }
  }

  /** Rows that are added have new ids, and rows that are there keep their points. */
  lemma {:induction false} PointStays(t: Table, u: Table, id: nat)
    requires |t| <= |u|
    requires forall k :: 0 <= k < |t| ==> u[k].id == t[k].id && u[k].point == t[k].point
    requires forall k :: |t| <= k < |u| ==> u[k].id != id
    ensures PointOf(u, id) == PointOf(t, id)
    decreases |u|
  {
    if |t| < |u| {
      PointStays(t, u[..|u| - 1], id);
    } else if t != [] {
      PointStays(t[..|t| - 1], u[..|u| - 1], id);
    }
  }

  /** As the worker words it, and as the replay loop does: always GOOD. */
  function LiveMessage(setup: Setup, t: Table, id: nat): Packet { Message(setup, PointOf(t, id)) }

  function ReplayMessage(setup: Setup, t: Table, id: nat): Packet
  {
    Message(setup, PointOf(t, id).(quality := Good))
  }

  ghost function LiveMessages(setup: Setup, t: Table, log: seq<nat>): multiset<Packet>
  {
    if log == [] then multiset{}
    else LiveMessages(setup, t, log[..|log| - 1]) + multiset{LiveMessage(setup, t, log[|log| - 1])}
  }

  ghost function ReplayMessages(setup: Setup, t: Table, log: seq<nat>): multiset<Packet>
  {
    if log == [] then multiset{}
    else ReplayMessages(setup, t, log[..|log| - 1]) + multiset{ReplayMessage(setup, t, log[|log| - 1])}
  }

  lemma {:induction false} MessagesStay(setup: Setup, t: Table, lastId: nat, u: Table, newLast: nat, log: seq<nat>)
    requires Grows(t, lastId, u, newLast) && forall i :: 0 <= i < |log| ==> log[i] <= lastId
    ensures LiveMessages(setup, u, log) == LiveMessages(setup, t, log)
    ensures ReplayMessages(setup, u, log) == ReplayMessages(setup, t, log)
    decreases |log|
  {
    if log != [] {
      MessagesStay(setup, t, lastId, u, newLast, log[..|log| - 1]);
      PointStays(t, u, log[|log| - 1]);
    }
  }

  // ----- the ledger -----

  ghost function LedgerOf(setup: Setup, t: Table, live: seq<nat>, replayed: seq<nat>, others: seq<Packet>)
    : multiset<Packet>
  {
    LiveMessages(setup, t, live) + ReplayMessages(setup, t, replayed) + multiset(others)
  }

  ghost function Ledger(setup: Setup, s: State): multiset<Packet>
  {
    LedgerOf(setup, s.table, s.live, s.replayed, Others(s))
  }

  ghost predicate Balanced(setup: Setup, s: State) { AllPublished(s.link.sent) == Ledger(setup, s) }

  lemma LedgerLive(setup: Setup, t: Table, live: seq<nat>, replayed: seq<nat>, others: seq<Packet>, id: nat,
                   p: Packet)
    requires p == LiveMessage(setup, t, id)
    ensures LedgerOf(setup, t, live + [id], replayed, others) == LedgerOf(setup, t, live, replayed, others) + One(p)
  {
    assert (live + [id])[..|live|] == live;
  }

  lemma LedgerReplay(setup: Setup, t: Table, live: seq<nat>, replayed: seq<nat>, others: seq<Packet>, id: nat,
                     p: Packet)
    requires p == ReplayMessage(setup, t, id)
    ensures LedgerOf(setup, t, live, replayed + [id], others) == LedgerOf(setup, t, live, replayed, others) + One(p)
  {
    assert (replayed + [id])[..|replayed|] == replayed;
  }

  lemma LedgerOther(setup: Setup, t: Table, live: seq<nat>, replayed: seq<nat>, others: seq<Packet>, p: Packet,
                    more: seq<Packet>)
    requires p.Publish? && multiset(more) == multiset(others) + multiset{p}
    ensures LedgerOf(setup, t, live, replayed, more) == LedgerOf(setup, t, live, replayed, others) + One(p)
  {
  }

  lemma OneMore(a: seq<Packet>, b: seq<Packet>, p: Packet)
    ensures multiset(a + [p] + b) == multiset(a + b) + multiset{p}
    ensures multiset(a + (b + [p])) == multiset(a + b) + multiset{p}
  {
    assert a + (b + [p]) == a + b + [p];
  }

  lemma RowsStay(setup: Setup, s: State, step: Step)
    requires LiveInv(s) && OrderInv(s) && Enabled(s, step)
    ensures var u := Next(setup, s, step).table;
      && LiveMessages(setup, u, s.live) == LiveMessages(setup, s.table, s.live)
      && ReplayMessages(setup, u, s.replayed) == ReplayMessages(setup, s.table, s.replayed)
  {
    var s' := Next(setup, s, step);
    TableGrows(setup, s, step);
    MessagesStay(setup, s.table, s.lastId, s'.table, s'.lastId, s.live);
    MessagesStay(setup, s.table, s.lastId, s'.table, s'.lastId, s.replayed);
  }

  lemma StoredMessage(setup: Setup, s: State)
    requires TableInv(s) && LogsInv(setup, s) && s.worker.Stored? && s.worker.row > 0
    ensures LiveMessage(setup, s.table, s.worker.row) == Message(setup, s.worker.point)
  {
    var point := s.worker.point.(sourceId := 0);
    var k :| 0 <= k < |s.table| && s.table[k].id == s.worker.row && s.table[k].point == point;
    PointOfRow(s.table, k);
    assert Payload(setup, point) == Payload(setup, s.worker.point);
  }

  lemma BalancedPublish(setup: Setup, s: State, opening: Opening, replies: seq<Reply>)
    requires Balanced(setup, s) && LinkInv(s) && TableInv(s) && LogsInv(setup, s)
    requires Enabled(s, PublishLive(opening, replies))
    ensures Balanced(setup, Next(setup, s, PublishLive(opening, replies)))
  {
    var p := Message(setup, s.worker.point);
    PublishAdds(s.link, setup.who, opening, p, replies);
    if s.worker.row > 0 {
      StoredMessage(setup, s);
      LedgerLive(setup, s.table, s.live, s.replayed, Others(s), s.worker.row, p);
    } else {
      OneMore(s.rowless, s.beats, p);
      LedgerOther(setup, s.table, s.live, s.replayed, Others(s), p, s.rowless + [p] + s.beats);
    }
  }

  lemma SnapshotMessage(setup: Setup, t: Table, row: Row)
    requires Sorted(t) && HasRow(t, row.id, row.point)
    ensures ReplayMessage(setup, t, row.id) == Message(setup, Fetched(row).point)
  {
    var k :| 0 <= k < |t| && t[k].id == row.id && t[k].point == row.point;
    PointOfRow(t, k);
  }

  lemma BalancedReplay(setup: Setup, s: State, replies: seq<Reply>)
    requires Balanced(setup, s) && LinkInv(s) && TableInv(s) && Enabled(s, ReplaySend(replies))
    ensures Balanced(setup, Next(setup, s, ReplaySend(replies)))
  {
    var row := s.monitor.rows[s.monitor.at];
    var p := Message(setup, Fetched(row).point);
    SnapshotMessage(setup, s.table, row);
    SendAdds(s.link, p, replies);
    LedgerReplay(setup, s.table, s.live, s.replayed, Others(s), row.id, p);
  }

  lemma BalancedHeartbeat(setup: Setup, s: State, opening: Opening, payload: Bytes, replies: seq<Reply>)
    requires Balanced(setup, s) && LinkInv(s) && Enabled(s, Heartbeat(opening, payload, replies))
    ensures Balanced(setup, Next(setup, s, Heartbeat(opening, payload, replies)))
  {
    PublishAdds(s.link, setup.who, opening, Publish(setup.heartbeatTopic, payload), replies);
    var p := Publish(setup.heartbeatTopic, payload);
    OneMore(s.rowless, s.beats, p);
    LedgerOther(setup, s.table, s.live, s.replayed, Others(s), p, s.rowless + (s.beats + [p]));
  }

  lemma QuietSteps(setup: Setup, s: State, step: Step)
    requires LinkInv(s) && Enabled(s, step) && !step.PublishLive? && !step.ReplaySend? && !step.Heartbeat?
    ensures var s' := Next(setup, s, step);
      && AllPublished(s'.link.sent) == AllPublished(s.link.sent)
      && s'.live == s.live && s'.replayed == s.replayed && s'.rowless == s.rowless && s'.beats == s.beats
  {
    match step
    case TakeLock(opening) => EnsureAdds(s.link, setup.who, opening);
    case Ping(replies) => PingAdds(s.link, replies);
    case _ =>
  }

  lemma BalancedOtherwise(setup: Setup, s: State, step: Step)
    requires Balanced(setup, s) && LinkInv(s) && LiveInv(s) && OrderInv(s) && Enabled(s, step)
    requires !step.PublishLive? && !step.ReplaySend? && !step.Heartbeat?
    ensures Balanced(setup, Next(setup, s, step))
  {
    QuietSteps(setup, s, step);
    RowsStay(setup, s, step);
  }

  lemma BalancedKept(setup: Setup, s: State, step: Step)
    requires Balanced(setup, s) && Enabled(s, step)
    requires LinkInv(s) && TableInv(s) && LogsInv(setup, s) && LiveInv(s) && OrderInv(s)
    ensures Balanced(setup, Next(setup, s, step))
  {
    match step
    case PublishLive(opening, replies) => BalancedPublish(setup, s, opening, replies);
    case ReplaySend(replies) => BalancedReplay(setup, s, replies);
    case Heartbeat(opening, payload, replies) => BalancedHeartbeat(setup, s, opening, payload, replies);
    case _ => BalancedOtherwise(setup, s, step);
  }

  lemma {:induction false} RunBalanced(setup: Setup, s: State, steps: seq<Step>, before: set<nat>)
    requires Balanced(setup, s) && Inv(setup, s, before) && CanRun(setup, s, steps)
    ensures Balanced(setup, Run(setup, s, steps))
    decreases |steps|
  {
    if steps != [] {
      BalancedKept(setup, s, steps[0]);
      StepInv(setup, s, steps[0], before);
      RunBalanced(setup, Next(setup, s, steps[0]), steps[1..], before);
    }
  }

  /** What the standard's decoder makes of every connection's bytes. */
  ghost function Decoded(l: Link): seq<seq<Packet>>
  {
    seq(|l.streams|, i requires 0 <= i < |l.streams| => DecodeStream(l.streams[i]).packets)
  }

  lemma DecodedIsSent(l: Link)
    requires LinkOk(l)
    ensures Decoded(l) == l.sent
  {
    forall i | 0 <= i < |l.streams| ensures DecodeStream(l.streams[i]).packets == l.sent[i] {
      StreamReads(l.streams[i], l.sent[i], i == l.fd);
    }
  }

  /** Conservation on the wire, over every run: the PUBLISH packets decoded from the bytes of all
      connections are, with multiplicity, one live message for every id in the live log, one
      replay message for every id in the replay log, and the packets logged as rowless and beats. With the
      bounds that Delivery proves on the two logs, this limits how often a row reaches a broker. */
  lemma WireIsAccounted(setup: Setup, start: State, steps: seq<Step>)
    requires Start(start) && CanRun(setup, start, steps)
    ensures var s := Run(setup, start, steps);
      AllPublished(Decoded(s.link)) == Ledger(setup, s)
  {
    StartInv(setup, start);
    RunBalanced(setup, start, steps, UploadedIds(start.table));
    RunInv(setup, start, steps, UploadedIds(start.table));
    DecodedIsSent(Run(setup, start, steps).link);
  }

  // ----- how often one message reaches a broker -----

  /** Only the row with this id is worded as p. */
  ghost predicate OnlyRow(setup: Setup, t: Table, log: seq<nat>, id: nat, p: Packet)
  {
    forall i :: 0 <= i < |log| && log[i] != id ==>
      LiveMessage(setup, t, log[i]) != p && ReplayMessage(setup, t, log[i]) != p
  }

  lemma {:induction false} MessagesCount(setup: Setup, t: Table, log: seq<nat>, id: nat, p: Packet)
    requires OnlyRow(setup, t, log, id, p)
    ensures LiveMessages(setup, t, log)[p] <= Count(log, id)
    ensures ReplayMessages(setup, t, log)[p] <= Count(log, id)
    decreases |log|
  {
    if log != [] {
      var init, last := log[..|log| - 1], log[|log| - 1];
      assert log == init + [last];
      MessagesCount(setup, t, init, id, p);
      CountNext(init, last);
    }
  }

  /** The duplicate bound in terms of bytes: a message that no other row has, and that is not a
      heartbeat or a point without a row, is decoded from all connections together at most twice
      plus once for every failed replay mark of its row. */
  lemma DecodedAtMostTwicePlusFailedMarks(setup: Setup, start: State, steps: seq<Step>, id: nat, p: Packet)
    requires Start(start) && CanRun(setup, start, steps)
    requires var s := Run(setup, start, steps);
      p !in Others(s) && OnlyRow(setup, s.table, s.live, id, p) && OnlyRow(setup, s.table, s.replayed, id, p)
    ensures var s := Run(setup, start, steps);
      AllPublished(Decoded(s.link))[p] <= 2 + Count(s.failed, id)
  {
    var s := Run(setup, start, steps);
    WireIsAccounted(setup, start, steps);
    MessagesCount(setup, s.table, s.live, id, p);
    MessagesCount(setup, s.table, s.replayed, id, p);
    AtMostTwicePlusFailedMarks(setup, start, steps, id);
  }

  // ----- at least as many packets as marked rows -----

  /** A row marked since start-up whose log entry is worded as p. */
  ghost predicate MarkedAs(setup: Setup, s: State, before: set<nat>, r: Row, p: Packet)
  {
    && r.uploaded && r.id !in before
    && if r.id in s.live then LiveMessage(setup, s.table, r.id) == p
       else ReplayMessage(setup, s.table, r.id) == p
  }

  ghost function RowsMarkedAs(setup: Setup, s: State, before: set<nat>, rows: Table, p: Packet): nat
  {
    if rows == [] then 0
    else
      var rest := RowsMarkedAs(setup, s, before, rows[..|rows| - 1], p);
      if MarkedAs(setup, s, before, rows[|rows| - 1], p) then rest + 1 else rest
  }

  /** How many rows have an id that the log has and that is in ids. */
  function RowsIn(rows: Table, log: seq<nat>, ids: set<nat>): nat
  {
    if rows == [] then 0
    else
      var rest, id := RowsIn(rows[..|rows| - 1], log, ids), rows[|rows| - 1].id;
      if id in log && id in ids then rest + 1 else rest
  }

  lemma {:induction false} NoRowsIn(rows: Table, ids: set<nat>)
    ensures RowsIn(rows, [], ids) == 0
  {
    if rows != [] { NoRowsIn(rows[..|rows| - 1], ids); }
  }

  /** A longer log has at most the one row more that its last entry names. */
  lemma {:induction false} OneEntryOneRow(rows: Table, log: seq<nat>, x: nat, ids: set<nat>)
    requires Sorted(rows)
    ensures RowsIn(rows, log + [x], ids) <= RowsIn(rows, log, ids) + if x in ids then 1 else 0
    ensures (forall k :: 0 <= k < |rows| ==> rows[k].id < x) ==> RowsIn(rows, log + [x], ids) == RowsIn(rows, log, ids)
    decreases |rows|
  {
    if rows != [] {
      OneEntryOneRow(rows[..|rows| - 1], log, x, ids);
      InLonger(log, x, rows[|rows| - 1].id);
    }
  }

  /** The ids of the log that are worded as p by the worker, and by the replay loop. */
  ghost function WordedLive(setup: Setup, t: Table, log: seq<nat>, p: Packet): set<nat>
  {
    set id | id in log && LiveMessage(setup, t, id) == p
  }

  ghost function WordedReplay(setup: Setup, t: Table, log: seq<nat>, p: Packet): set<nat>
  {
    set id | id in log && ReplayMessage(setup, t, id) == p
  }

  lemma {:induction false} RowsLive(setup: Setup, t: Table, rows: Table, log: seq<nat>, p: Packet, ids: set<nat>)
    requires Sorted(rows) && forall id :: id in ids ==> LiveMessage(setup, t, id) == p
    ensures RowsIn(rows, log, ids) <= LiveMessages(setup, t, log)[p]
    decreases |log|
  {
    if log == [] {
      NoRowsIn(rows, ids);
    } else {
      var init := log[..|log| - 1];
      assert log == init + [log[|log| - 1]];
      RowsLive(setup, t, rows, init, p, ids);
      OneEntryOneRow(rows, init, log[|log| - 1], ids);
    }
  }

  lemma {:induction false} RowsReplay(setup: Setup, t: Table, rows: Table, log: seq<nat>, p: Packet, ids: set<nat>)
    requires Sorted(rows) && forall id :: id in ids ==> ReplayMessage(setup, t, id) == p
    ensures RowsIn(rows, log, ids) <= ReplayMessages(setup, t, log)[p]
    decreases |log|
  {
    if log == [] {
      NoRowsIn(rows, ids);
    } else {
      var init := log[..|log| - 1];
      assert log == init + [log[|log| - 1]];
      RowsReplay(setup, t, rows, init, p, ids);
      OneEntryOneRow(rows, init, log[|log| - 1], ids);
    }
  }

  lemma {:induction false} MarkedRowsLogged(setup: Setup, s: State, before: set<nat>, rows: Table, p: Packet)
    requires forall k :: 0 <= k < |rows| ==> LoggedOrPending(s, rows[k], before)
    ensures RowsMarkedAs(setup, s, before, rows, p) <=
              RowsIn(rows, s.live, WordedLive(setup, s.table, s.live, p))
            + RowsIn(rows, s.replayed, WordedReplay(setup, s.table, s.replayed, p))
    decreases |rows|
  {
    if rows != [] {
      assert LoggedOrPending(s, rows[|rows| - 1], before);
      MarkedRowsLogged(setup, s, before, rows[..|rows| - 1], p);
    }
  }

  /** A packet for every marked row, over every run: whatever p is, at least as many copies of p are
      decoded from the connections as there are rows marked since start-up that were written as p.
      So no two rows, even if worded alike, are marked on the strength of one packet. */
  lemma MarkedRowsAreOnTheWire(setup: Setup, start: State, steps: seq<Step>, p: Packet)
    requires Start(start) && CanRun(setup, start, steps)
    ensures var s := Run(setup, start, steps);
      RowsMarkedAs(setup, s, UploadedIds(start.table), s.table, p) <= AllPublished(Decoded(s.link))[p]
  {
    var s, before := Run(setup, start, steps), UploadedIds(start.table);
    StartInv(setup, start);
    RunInv(setup, start, steps, before);
    WireIsAccounted(setup, start, steps);
    MarkedRowsLogged(setup, s, before, s.table, p);
    RowsLive(setup, s.table, s.table, s.live, p, WordedLive(setup, s.table, s.live, p));
    RowsReplay(setup, s.table, s.table, s.replayed, p, WordedReplay(setup, s.table, s.replayed, p));
  }

  // ----- what the packets say -----

  /** The record mqtt_session_replay_pending rebuilds from a stored one. */
  function Rebuilt(p: Telemetry): Telemetry
  {
    Telemetry(p.tsMs, p.deviceId, p.pointId, p.value, p.unit, Good, 0)
  }

  /** Row k has this id, and some connection's bytes hold a PUBLISH of what is shown of it. */
  ghost predicate Carried(setup: Setup, s: State, k: nat, id: nat, shown: Telemetry, body: Bytes)
  {
    && k < |s.table| && s.table[k].id == id
    && Renders(setup, shown, body) && Readable(s.link, Publish(setup.topic, body))
  }

  /** Over every run, each id in the live log has a packet decoded from a connection whose payload is
      the text of the stored record of that row. */
  lemma LiveCarriesRecord(setup: Setup, start: State, steps: seq<Step>, i: nat)
    requires Start(start) && CanRun(setup, start, steps)
    requires i < |Run(setup, start, steps).live|
    ensures var s := Run(setup, start, steps);
      exists k: nat, body: Bytes :: k < |s.table| && Carried(setup, s, k, s.live[i], s.table[k].point, body)
  {
    var s := Run(setup, start, steps);
    StartInv(setup, start);
    RunInv(setup, start, steps, UploadedIds(start.table));
    assert WrittenLive(setup, s.table, s.link, s.live[i]);
    var k: nat :| k < |s.table| && s.table[k].id == s.live[i] && OnWire(s.link, Message(setup, s.table[k].point));
    MessageCarries(setup, s.table[k].point);
    OnWireIsReadable(s.link, Message(setup, s.table[k].point));
    assert Carried(setup, s, k, s.live[i], s.table[k].point, Payload(setup, s.table[k].point));
  }

  /** Likewise each id in the replay log, with the record as the fetch rebuilds it. */
  lemma ReplayCarriesRecord(setup: Setup, start: State, steps: seq<Step>, i: nat)
    requires Start(start) && CanRun(setup, start, steps)
    requires i < |Run(setup, start, steps).replayed|
    ensures var s := Run(setup, start, steps);
      exists k: nat, body: Bytes ::
        k < |s.table| && Carried(setup, s, k, s.replayed[i], Rebuilt(s.table[k].point), body)
  {
    var s := Run(setup, start, steps);
    StartInv(setup, start);
    RunInv(setup, start, steps, UploadedIds(start.table));
    assert WrittenByReplay(setup, s.table, s.link, s.replayed[i]);
    var k: nat :| k < |s.table| && s.table[k].id == s.replayed[i]
                  && OnWire(s.link, Message(setup, Fetched(s.table[k]).point));
    var shown := Fetched(s.table[k]).point;
    assert shown == Rebuilt(s.table[k].point);
    MessageCarries(setup, shown);
    OnWireIsReadable(s.link, Message(setup, shown));
    assert Carried(setup, s, k, s.replayed[i], Rebuilt(s.table[k].point), Payload(setup, shown));
  }
}
