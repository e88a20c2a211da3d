/** The session object of src/egress/mqtt_session.c: packet buffers filled by position, the
    partial-write loop, the locked helpers and the replay loop. Every method is proved to have
    the effect that MqttLink and Replay describe on values. */
module MqttSession {
  import opened MqttCodec
  import opened MqttLink

  import D = Delivery
  import DeviceModel
  import P = Replay
  import T = Storage

  /** memcpy to position pos of a buffer; done is what is in front of it. */
  method CopyInto(buf: array<Byte>, pos: nat, src: Bytes, ghost done: Bytes) returns (end: nat)
    requires pos + |src| <= buf.Length && buf[..pos] == done
    modifies buf
    ensures end == pos + |src| && buf[..end] == done + src
  {
    for i := 0 to |src|
      invariant buf[..pos] == done
      invariant buf[pos..pos + i] == src[..i]
    {
      buf[pos + i] := src[i];
    }
    end := pos + |src|;
    assert buf[..end] == buf[..pos] + buf[pos..end];
  }

  /** buf[pos++] = a; buf[pos++] = b. */
  method PutTwo(buf: array<Byte>, pos: nat, a: Byte, b: Byte, ghost done: Bytes) returns (end: nat)
    requires pos + 2 <= buf.Length && buf[..pos] == done
    modifies buf
    ensures end == pos + 2 && buf[..end] == done + [a, b]
  {
    buf[pos], buf[pos + 1] := a, b;
    end := pos + 2;
    assert buf[..end] == buf[..pos] + [a, b];
  }

  /** The packet type and its length field. */
  method PutHeader(buf: array<Byte>, header: Byte, lenBuf: array<Byte>, lenBytes: nat) returns (end: nat)
    requires buf != lenBuf && lenBytes <= lenBuf.Length && 1 + lenBytes <= buf.Length
    modifies buf
    ensures end == 1 + lenBytes && buf[..end] == [header] + lenBuf[..lenBytes]
  {
    buf[0] := header;
    end := CopyInto(buf, 1, lenBuf[..lenBytes], [header]);
  }

  lemma ConnectParts(head: Bytes, keepalive: Bytes, length: Bytes, id: Bytes)
    ensures head + [0, 4] + [77, 81, 84, 84] + [4, 2] + keepalive + length + id
         == head + (PROTOCOL + keepalive + length + id)
  {
    assert PROTOCOL == [0, 4] + [77, 81, 84, 84] + [4, 2];
  }

  lemma PublishParts(head: Bytes, length: Bytes, topic: Bytes, payload: Bytes)
    ensures head + length + topic + payload == head + (length + topic + payload)
  {
  }

  /** Variable header and payload of CONNECT, field by field. */
  method FillConnect(buf: array<Byte>, start: nat, clientId: Bytes, keepalive: nat, ghost done: Bytes)
    returns (pos: nat)
    requires keepalive < 0x1_0000 && start + 12 + |clientId| <= buf.Length && buf[..start] == done
    modifies buf
    ensures pos == start + 12 + |clientId| && buf[..pos] == done + Body(Connect(clientId, keepalive))
  {
    pos := PutTwo(buf, start, 0x00, 0x04, done);
    pos := CopyInto(buf, pos, [77, 81, 84, 84], done + [0, 4]);
    pos := PutTwo(buf, pos, 0x04, 0x02, done + [0, 4] + [77, 81, 84, 84]);
    ghost var fixed := done + [0, 4] + [77, 81, 84, 84] + [4, 2];
    pos := PutTwo(buf, pos, keepalive / 256, keepalive % 256, fixed);
    assert Word(keepalive) == [keepalive / 256, keepalive % 256];
    pos := PutTwo(buf, pos, (|clientId| / 256) % 256, |clientId| % 256, fixed + Word(keepalive));
    pos := CopyInto(buf, pos, clientId, fixed + Word(keepalive) + Word(|clientId|));
    ConnectParts(done, Word(keepalive), Word(|clientId|), clientId);
  }

  /** Topic and payload of PUBLISH. */
  method FillPublish(buf: array<Byte>, start: nat, topic: Bytes, payload: Bytes, ghost done: Bytes)
    returns (pos: nat)
    requires start + 2 + |topic| + |payload| <= buf.Length && buf[..start] == done
    modifies buf
    ensures pos == start + 2 + |topic| + |payload| && buf[..pos] == done + Body(Publish(topic, payload))
  {
    pos := PutTwo(buf, start, (|topic| / 256) % 256, |topic| % 256, done);
    pos := CopyInto(buf, pos, topic, done + Word(|topic|));
    pos := CopyInto(buf, pos, payload, done + Word(|topic|) + topic);
    PublishParts(done, Word(|topic|), topic, payload);
  }

  class Session {
    const setup: D.Setup
    var fd: int
    var connected: bool
    /** The next descriptor the kernel hands out. */
    var nextFd: nat
    /** The bytes on each connection and the packets completed on it. */
    ghost var streams: seq<Bytes>
    ghost var sent: seq<seq<Packet>>

    constructor (setup: D.Setup)
      ensures this.setup == setup && Valid() && State() == FRESH
    {
      this.setup := setup;
      fd, connected, nextFd := -1, false, 0;
      streams, sent := [], [];
    }

    ghost function State(): Link
      reads this
    {
      Link(fd, connected, streams, sent)
    }

    ghost predicate Valid()
      reads this
    {
      fd >= -1 && LinkShape(State()) && nextFd == |streams|
    }

    /** mqtt_write_all: write until len bytes are out, through partial writes and EINTR. */
    method WriteAll(buf: array<Byte>, len: nat, replies: seq<Reply>) returns (rc: int)
      requires len <= buf.Length && 0 <= fd < |streams|
      modifies this`streams
      ensures streams == old(streams)[fd := old(streams)[fd] + buf[..Least(len, Accepted(replies))]]
      ensures rc == if Accepted(replies) >= len then 0 else -1
    {
      ReachIsAccepted(len, 0, replies);
      var off: nat, at: nat := 0, 0;
      ghost var before := streams[fd];
      assert before + buf[..0] == before;
      while off < len && at < |replies|
        invariant off <= len && at <= |replies|
        invariant Reach(len, off, replies[at..]) == Reach(len, 0, replies)
        invariant streams == old(streams)[fd := before + buf[..off]]
        decreases |replies| - at
      {
        var reply := replies[at];
        assert replies[at..][1..] == replies[at + 1..];
        at := at + 1;
        match reply
        case Failed => return -1;
        case Interrupted => continue;
        case Wrote(n) =>
          var count := if off + n <= len then n else len - off;
          assert before + buf[..off] + buf[off..off + count] == before + buf[..off + count];
          streams := streams[fd := streams[fd] + buf[off..off + count]];
          off := off + count;
      }
      rc := if off == len then 0 else -1;
    }

    /** The first half of mqtt_send_connect: CONNECT field by field into its 160-byte buffer; -1
        when it would not fit. */
    method AssembleConnect(clientId: Bytes, keepalive: nat) returns (buf: array<Byte>, pos: int)
      requires keepalive < 0x1_0000
      ensures fresh(buf)
      ensures var code := Encode(Connect(clientId, keepalive));
              if |code| > 160 then pos == -1 else pos == |code| <= buf.Length && buf[..pos] == code
    {
      buf := new Byte[160];
      var lenBuf := new Byte[4];
      var remaining := 10 + 2 + |clientId|;
      CodeIs(Connect(clientId, keepalive), remaining);
      var lenBytes := EncodeRemainingLength(lenBuf, remaining);
      if 1 + lenBytes + remaining > 160 {
        return buf, -1;
      }
      ghost var head := [0x10] + EncodeLength(remaining, 4);
      var at := PutHeader(buf, 0x10, lenBuf, lenBytes);
      pos := FillConnect(buf, at, clientId, keepalive, head);
    }

    /** The first half of mqtt_send_publish, into its 1024-byte buffer. */
    method AssemblePublish(topic: Bytes, payload: Bytes) returns (buf: array<Byte>, pos: int)
      ensures fresh(buf)
      ensures var code := Encode(Publish(topic, payload));
              if |code| > 1024 then pos == -1 else pos == |code| <= buf.Length && buf[..pos] == code
    {
      buf := new Byte[1024];
      var lenBuf := new Byte[4];
      var remaining := 2 + |topic| + |payload|;
      CodeIs(Publish(topic, payload), remaining);
      var lenBytes := EncodeRemainingLength(lenBuf, remaining);
      if 1 + lenBytes + remaining > 1024 {
        return buf, -1;
      }
      ghost var head := [0x30] + EncodeLength(remaining, 4);
      var at := PutHeader(buf, 0x30, lenBuf, lenBytes);
      pos := FillPublish(buf, at, topic, payload, head);
    }

    /** Write an assembled packet and record it if it went out whole. */
    method SendPacket(ghost p: Packet, buf: array<Byte>, pos: nat, replies: seq<Reply>) returns (rc: int)
      requires Usable(State()) && Fits(p) && pos <= buf.Length && buf[..pos] == Encode(p)
      modifies this`streams, this`sent
      ensures (State(), rc == 0) == Send(old(State()), p, replies) && (rc == 0 || rc == -1)
    {
      rc := WriteAll(buf, pos, replies);
      var k := Least(pos, Accepted(replies));
      ReachIsAccepted(pos, 0, replies);
      assert buf[..k] == Encode(p)[..k];
      if rc == 0 {
        sent := sent[fd := sent[fd] + [p]];
      }
    }

    /** mqtt_send_connect: the CONNECT packet, then the broker's answer. */
    method SendConnect(opening: Opening) returns (rc: int)
      requires Usable(State())
      modifies this`streams, this`sent
      ensures var p := Connect(setup.who.clientId, setup.who.keepalive % 0x1_0000);
              var (m, ok) := Send(old(State()), p, opening.writes);
              State() == m && (rc == 0 <==> ok && opening.connack) && (rc == 0 || rc == -1)
    {
      var keepalive := setup.who.keepalive % 0x1_0000;
      var buf, pos := AssembleConnect(setup.who.clientId, keepalive);
      if pos < 0 {
        return -1;
      }
      rc := SendPacket(Connect(setup.who.clientId, keepalive), buf, pos, opening.writes);
      if rc == 0 && !opening.connack {
        rc := -1;
      }
    }

    /** mqtt_send_publish. */
    method SendPublish(topic: Bytes, payload: Bytes, replies: seq<Reply>) returns (rc: int)
      requires Usable(State())
      modifies this`streams, this`sent
      ensures (State(), rc == 0) == Send(old(State()), Publish(topic, payload), replies) && (rc == 0 || rc == -1)
    {
      var buf, pos := AssemblePublish(topic, payload);
      if pos < 0 {
        return -1;
      }
      rc := SendPacket(Publish(topic, payload), buf, pos, replies);
    }

    /** mqtt_send_ping. */
    method SendPing(replies: seq<Reply>) returns (rc: int)
      requires Usable(State())
      modifies this`streams, this`sent
      ensures (State(), rc == 0) == Send(old(State()), PingReq, replies) && (rc == 0 || rc == -1)
    {
      var ping := new Byte[2] [0xC0, 0x00];
      assert ping[..2] == Encode(PingReq);
      rc := SendPacket(PingReq, ping, 2, replies);
    }

    /** mqtt_shutdown_locked. */
    method ShutdownLocked()
      requires fd >= -1
      modifies this`fd, this`connected
      ensures State() == Shutdown(old(State()))
    {
      if fd >= 0 {
        fd := -1;
      }
      connected := false;
    }

    /** mqtt_ensure_connected_locked. */
    method EnsureConnectedLocked(opening: Opening) returns (rc: int)
      requires Valid()
      modifies this
      ensures Valid()
      ensures (State(), rc == 0) == Ensure(old(State()), setup.who, opening) && (rc == 0 || rc == -1)
    {
      if connected && fd >= 0 {
        return 0;
      }
      ShutdownLocked();
      if !opening.tcp {
        connected := false;
        return -1;
      }
      fd := nextFd;
      nextFd := nextFd + 1;
      streams, sent := streams + [[]], sent + [[]];
      rc := SendConnect(opening);
      if rc != 0 {
        ShutdownLocked();
        return -1;
      }
      connected := true;
    }

    /** mqtt_session_publish_telemetry, with the lock held around it. */
    method PublishTelemetry(point: DeviceModel.Telemetry, opening: Opening, replies: seq<Reply>) returns (rc: int)
      requires Valid()
      modifies this
      ensures Valid()
      ensures (State(), rc == 0) == PublishLocked(old(State()), setup.who, opening, D.Message(setup, point), replies)
      ensures rc == 0 ==>
        exists body: Bytes :: D.Renders(setup, point, body) && EndsWith(State(), Publish(setup.topic, body))
    {
      PublishOutcome(State(), setup.who, opening, D.Message(setup, point), replies);
      D.MessageCarries(setup, point);
      rc := -1;
      var up := EnsureConnectedLocked(opening);
      if up == 0 {
        var result := SendPublish(setup.topic, D.Payload(setup, point), replies);
        if result == 0 {
          rc := 0;
        } else {
          ShutdownLocked();
        }
      }
    }

    /** mqtt_session_publish_heartbeat. */
    method PublishHeartbeat(payload: Bytes, opening: Opening, replies: seq<Reply>) returns (rc: int)
      requires Valid()
      modifies this
      ensures Valid()
      ensures (State(), rc == 0) ==
        PublishLocked(old(State()), setup.who, opening, Publish(setup.heartbeatTopic, payload), replies)
      ensures rc == 0 ==> EndsWith(State(), Publish(setup.heartbeatTopic, payload))
    {
      PublishOutcome(State(), setup.who, opening, Publish(setup.heartbeatTopic, payload), replies);
      rc := -1;
      var up := EnsureConnectedLocked(opening);
      if up == 0 {
        var result := SendPublish(setup.heartbeatTopic, payload, replies);
        if result == 0 {
          rc := 0;
        } else {
          ShutdownLocked();
        }
      }
    }

    /** mqtt_session_ping. */
    method PingBroker(replies: seq<Reply>) returns (rc: int)
      requires Valid()
      modifies this
      ensures Valid()
      ensures (State(), rc == 0) == PingLocked(old(State()), replies)
    {
      rc := -1;
      if connected && fd >= 0 {
        var result := SendPing(replies);
        if result == 0 {
          rc := 0;
        } else {
          ShutdownLocked();
        }
      }
    }

    /** One pass of the replay loop: write the row, mark it if it went out. */
    method ReplayRow(storage: T.StorageContext, row: T.FetchedRow, oneTry: P.Try) returns (written: bool, marked: bool)
      requires Valid() && Usable(State()) && storage.Valid() && storage.open
      modifies this`streams, this`sent, this`fd, this`connected, storage`rows
      ensures Valid() && storage.Valid()
      ensures var (m, ok) := Send(old(State()), D.Message(setup, row.point), oneTry.replies);
              written == ok && State() == if ok then m else Shutdown(m)
      ensures marked <==> written && oneTry.mark && row.id > 0
      ensures storage.rows == if marked then T.Mark(old(storage.rows), row.id) else old(storage.rows)
    {
      marked := false;
      var rc := SendPublish(setup.topic, D.Payload(setup, row.point), oneTry.replies);
      written := rc == 0;
      if !written {
        ShutdownLocked();
        return;
      }
      rc := storage.MarkUploaded(row.id, oneTry.mark);
      marked := rc == 0;
    }

    /** The locked loop of mqtt_session_replay_pending; found are the table rows fetched. */
    method ReplayRows(storage: T.StorageContext, rows: array<T.FetchedRow>, count: nat, tries: seq<P.Try>,
                      ghost found: T.Table)
      returns (replayed: nat)
      requires Valid() && Usable(State()) && storage.Valid() && (storage.open || count == 0)
      requires count == |found| == |tries| <= rows.Length
      requires forall j :: 0 <= j < count ==> rows[j] == T.Fetched(found[j])
      modifies this, storage`rows
      ensures Valid() && storage.Valid()
      ensures var r := P.Loop(setup, old(State()), old(storage.rows), found, tries, 0);
              State() == r.link && storage.rows == r.table && replayed == r.marked
    {
      replayed := 0;
      ghost var all := P.Loop(setup, State(), storage.rows, found, tries, 0);
      for i := 0 to count
        invariant Valid() && Usable(State()) && storage.Valid()
        invariant var q := P.Loop(setup, State(), storage.rows, found[i..], tries[i..], replayed);
          all.link == q.link && all.table == q.table && all.marked == q.marked
      {
        assert found[i..][1..] == found[i + 1..] && tries[i..][1..] == tries[i + 1..];
        assert found[i..][0] == found[i] && tries[i..][0] == tries[i];
        var written, marked := ReplayRow(storage, rows[i], tries[i]);
        if !written {
          return;
        }
        if marked {
          replayed := replayed + 1;
        }
      }
    }

    /** mqtt_session_replay_pending, no other thread intervening: fetch a batch, take the lock,
        publish and mark row by row until one cannot be sent. */
    method ReplayPending(storage: T.StorageContext, prepared: bool, answers: nat, opening: Opening,
                         tries: seq<P.Try>)
      returns (replayed: nat)
      requires Valid() && storage.Valid() && |tries| == 64
      modifies this, storage`rows
      ensures Valid() && storage.Valid()
      ensures prepared || !storage.open ==>
        var r := P.Round(setup, storage.open, old(State()), old(storage.rows), answers, opening, tries);
        State() == r.link && storage.rows == r.table && replayed == r.marked
      ensures storage.open && !prepared ==>
        State() == old(State()) && storage.rows == old(storage.rows) && replayed == 0
    {
      replayed := 0;
      var batch := setup.replayBatch;
      if batch == 0 {
        batch := 50;
      }
      if batch > 64 {
        batch := 64;
      }
      var rows := new T.FetchedRow[64](i => T.FetchedRow(0, P.EMPTY));
      var rc, count := storage.FetchPending(rows, batch, prepared, answers);
      if rc < 0 {
        return;
      }
      ghost var found := D.Fetchable(setup, storage.open, storage.rows, answers);
      var up := EnsureConnectedLocked(opening);
      if up == 0 {
        replayed := ReplayRows(storage, rows, count, tries[..count], found);
      }
    }
  }
}
