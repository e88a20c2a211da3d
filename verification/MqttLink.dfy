/** The MQTT session of src/egress/mqtt_session.c as a value: the descriptor, the connected flag,
    and every byte ever written, one stream per TCP connection. Each function here is one of the
    *_locked helpers; the mutex makes them the atomic steps of the two threads. What the kernel
    and the broker answer is given as a script. */
module MqttLink {
  import opened MqttCodec

  /** What one write call returned. */
  datatype Reply = Wrote(n: nat) | Interrupted | Failed

  /** How far mqtt_write_all gets through len bytes, off of them already written. A script that
      ends early is a write that never completes. */
  function Reach(len: nat, off: nat, replies: seq<Reply>): (r: nat)
    requires off <= len
    ensures off <= r <= len
    decreases |replies|
  {
    if off == len || replies == [] then off
    else match replies[0]
      case Wrote(n) => Reach(len, if off + n <= len then off + n else len, replies[1..])
      case Interrupted => Reach(len, off, replies[1..])
      case Failed => off
  }

  /** fd is -1 or the index of the open connection. sent records, per connection, the packets
      that were written completely. */
  datatype Link = Link(fd: int, connected: bool, streams: seq<Bytes>, sent: seq<seq<Packet>>)

  /** The identity the session announces. */
  datatype Identity = Identity(clientId: Bytes, keepalive: nat)

  /** The outcome of opening a connection: the TCP connect, the CONNECT write, the CONNACK. */
  datatype Opening = Opening(tcp: bool, writes: seq<Reply>, connack: bool)

  const FRESH: Link := Link(-1, false, [], [])

  predicate LinkShape(l: Link) { |l.streams| == |l.sent| && l.fd < |l.streams| }

  predicate Usable(l: Link) { 0 <= l.fd < |l.streams| == |l.sent| }

  function Send(l: Link, p: Packet, replies: seq<Reply>): (r: (Link, bool))
    requires Usable(l)
    ensures Usable(r.0) && r.0.fd == l.fd && |r.0.streams| == |l.streams|
  {
    if !Fits(p) then (l, false)
    else
      var code := Encode(p);
      var k := Reach(|code|, 0, replies);
      var streams := l.streams[l.fd := l.streams[l.fd] + code[..k]];
      if k == |code| then (l.(streams := streams, sent := l.sent[l.fd := l.sent[l.fd] + [p]]), true)
      else (l.(streams := streams), false)
  }

  /** mqtt_shutdown_locked. */
  function Shutdown(l: Link): Link { l.(fd := -1, connected := false) }

  /** mqtt_open_tcp succeeding: a new, empty stream. */
  function Open(l: Link): Link
  {
    l.(fd := |l.streams|, streams := l.streams + [[]], sent := l.sent + [[]])
  }

  /** mqtt_ensure_connected_locked. */
  function Ensure(l: Link, who: Identity, opening: Opening): (r: (Link, bool))
    requires LinkShape(l)
    ensures r.1 ==> Usable(r.0)
    ensures LinkShape(r.0)
  {
    if l.connected && l.fd >= 0 then (l, true)
    else if !opening.tcp then (Shutdown(l), false)
    else
      var (m, ok) := Send(Open(Shutdown(l)), Connect(who.clientId, who.keepalive % 0x1_0000), opening.writes);
      if ok && opening.connack then (m.(connected := true), true) else (Shutdown(m), false)
  }

  /** The critical section of mqtt_session_publish_telemetry and _heartbeat. */
  function PublishLocked(l: Link, who: Identity, opening: Opening, p: Packet, replies: seq<Reply>): (r: (Link, bool))
    requires LinkShape(l)
    ensures LinkShape(r.0)
  {
    var (m, up) := Ensure(l, who, opening);
    if !up then (m, false)
    else
      var (n, ok) := Send(m, p, replies);
      if ok then (n, true) else (Shutdown(n), false)
  }

  /** The critical section of mqtt_session_ping. */
  function PingLocked(l: Link, replies: seq<Reply>): (r: (Link, bool))
    requires LinkShape(l)
    ensures LinkShape(r.0)
  {
    if !(l.connected && l.fd >= 0) then (l, false)
    else
      var (n, ok) := Send(l, PingReq, replies);
      if ok then (n, true) else (Shutdown(n), false)
  }

  // ----- what each operation puts on the wire -----

  /** All the kernel takes before its first refusal; an interrupted call takes nothing. */
  function Accepted(replies: seq<Reply>): nat
  {
    if replies == [] then 0
    else match replies[0]
      case Wrote(n) => n + Accepted(replies[1..])
      case Interrupted => Accepted(replies[1..])
      case Failed => 0
  }

  function Least(a: nat, b: nat): nat { if a <= b then a else b }

  /** The loop gets exactly as far as the kernel lets it, through any number of partial and
      interrupted writes. */
  lemma {:induction false} ReachIsAccepted(len: nat, off: nat, replies: seq<Reply>)
    requires off <= len
    ensures Reach(len, off, replies) == Least(len, off + Accepted(replies))
    decreases |replies|
  {
    if off < len && replies != [] {
      match replies[0]
      case Wrote(n) => ReachIsAccepted(len, if off + n <= len then off + n else len, replies[1..]);
      case Interrupted => ReachIsAccepted(len, off, replies[1..]);
      case Failed =>
    }
  }

  /** What the kernel takes does not depend on how it is cut up: an interruption or the split of a
      write anywhere in the script changes nothing. */
  lemma {:induction false} SplitAccepted(a: seq<Reply>, m: nat, n: nat, b: seq<Reply>)
    ensures Accepted(a + [Wrote(m), Wrote(n)] + b) == Accepted(a + [Wrote(m + n)] + b)
    ensures Accepted(a + [Interrupted] + b) == Accepted(a + b)
    decreases |a|
  {
    if a == [] {
      assert ([] + [Wrote(m), Wrote(n)] + b)[1..] == [Wrote(n)] + b;
      assert ([Wrote(n)] + b)[1..] == b;
      assert ([] + [Wrote(m + n)] + b)[1..] == b;
      assert ([] + [Interrupted] + b)[1..] == b && [] + b == b;
    } else {
      SplitAccepted(a[1..], m, n, b);
      assert (a + [Wrote(m), Wrote(n)] + b)[1..] == a[1..] + [Wrote(m), Wrote(n)] + b;
      assert (a + [Wrote(m + n)] + b)[1..] == a[1..] + [Wrote(m + n)] + b;
      assert (a + [Interrupted] + b)[1..] == a[1..] + [Interrupted] + b && (a + b)[1..] == a[1..] + b;
    }
  }

  /** Sending adds as much of the packet as the kernel takes to the open connection, and to no
      other; it succeeds exactly when that is all of it. A packet too large for its buffer adds
      nothing. */
  lemma SendAddsAccepted(l: Link, p: Packet, replies: seq<Reply>)
    requires Usable(l)
    ensures var (m, ok) := Send(l, p, replies);
      var code := Encode(p);
      && (Fits(p) ==> m.streams == l.streams[l.fd := l.streams[l.fd] + code[..Least(|code|, Accepted(replies))]])
      && (!Fits(p) ==> m.streams == l.streams)
      && (ok <==> Fits(p) && Accepted(replies) >= |code|)
      && m.sent == (if ok then l.sent[l.fd := l.sent[l.fd] + [p]] else l.sent)
      && m.fd == l.fd && m.connected == l.connected
  {
    ReachIsAccepted(|Encode(p)|, 0, replies);
  }

  lemma SendSeesAccepted(l: Link, p: Packet, first: seq<Reply>, second: seq<Reply>)
    requires Usable(l) && Accepted(first) == Accepted(second)
    ensures Send(l, p, first) == Send(l, p, second)
  {
    ReachIsAccepted(|Encode(p)|, 0, first);
    ReachIsAccepted(|Encode(p)|, 0, second);
  }

  /** Splitting a write in two, or interrupting it, anywhere in the script, is not visible. */
  lemma SendIgnoresSplits(l: Link, p: Packet, a: seq<Reply>, m: nat, n: nat, b: seq<Reply>)
    requires Usable(l)
    ensures Send(l, p, a + [Wrote(m), Wrote(n)] + b) == Send(l, p, a + [Wrote(m + n)] + b)
    ensures Send(l, p, a + [Interrupted] + b) == Send(l, p, a + b)
  {
    SplitAccepted(a, m, n, b);
    SendSeesAccepted(l, p, a + [Wrote(m), Wrote(n)] + b, a + [Wrote(m + n)] + b);
    SendSeesAccepted(l, p, a + [Interrupted] + b, a + b);
  }

  /** What has been written when all of p went out on the connection that is open. */
  ghost predicate EndsWith(l: Link, p: Packet)
  {
    && Usable(l) && l.sent[l.fd] != [] && l.sent[l.fd][|l.sent[l.fd]| - 1] == p
    && |Encode(p)| <= |l.streams[l.fd]|
    && l.streams[l.fd][|l.streams[l.fd]| - |Encode(p)|..] == Encode(p)
  }

  lemma SentEnds(l: Link, p: Packet, replies: seq<Reply>)
    requires Usable(l) && Send(l, p, replies).1
    ensures EndsWith(Send(l, p, replies).0, p)
  {
    SendAddsAccepted(l, p, replies);
    var code := Encode(p);
    assert code[..|code|] == code;
    assert (l.streams[l.fd] + code)[|l.streams[l.fd]|..] == code;
  }

  /** A live connection is used as it is. Otherwise the session is reset, and a new stream begins
      with as much of CONNECT as the kernel takes; the session is up exactly when that was all of it
      and the broker accepted. */
  lemma EnsureOutcome(l: Link, who: Identity, opening: Opening)
    requires LinkShape(l)
    ensures var (m, up) := Ensure(l, who, opening);
      var code := Encode(Connect(who.clientId, who.keepalive % 0x1_0000));
      var part := if |code| <= 160 then code[..Least(|code|, Accepted(opening.writes))] else [];
      && (l.connected && l.fd >= 0 ==> m == l && up)
      && (!(l.connected && l.fd >= 0) ==>
            && (up <==> opening.tcp && |code| <= 160 && Accepted(opening.writes) >= |code| && opening.connack)
            && m.streams == (if opening.tcp then l.streams + [part] else l.streams)
            && (up ==> m.connected && m.fd == |l.streams|)
            && (!up ==> !m.connected && m.fd == -1))
  {
    if !(l.connected && l.fd >= 0) && opening.tcp {
      var anew := Open(Shutdown(l));
      var p := Connect(who.clientId, who.keepalive % 0x1_0000);
      var part := Encode(p)[..Least(|Encode(p)|, Accepted(opening.writes))];
      SendAddsAccepted(anew, p, opening.writes);
      assert anew.streams == l.streams + [[]] && [] + part == part;
      assert (l.streams + [[]])[|l.streams| := part] == l.streams + [part];
    }
  }

  /** A publish goes out whole on the live or new connection and leaves it open, or leaves no
      connection; which, depends on the connection, the kernel and the buffer alone. */
  lemma PublishOutcome(l: Link, who: Identity, opening: Opening, p: Packet, replies: seq<Reply>)
    requires LinkShape(l)
    ensures var (m, ok) := PublishLocked(l, who, opening, p, replies);
      && (ok <==> Ensure(l, who, opening).1 && Fits(p) && Accepted(replies) >= |Encode(p)|)
      && (ok ==> EndsWith(m, p) && m.connected == Ensure(l, who, opening).0.connected)
      && (!ok ==> !m.connected && m.fd == -1)
  {
    var (m, up) := Ensure(l, who, opening);
    EnsureOutcome(l, who, opening);
    if up {
      SendAddsAccepted(m, p, replies);
      if Send(m, p, replies).1 { SentEnds(m, p, replies); }
    }
  }

  /** A ping puts the bytes C0 00 on a live connection, as far as the kernel takes them, and closes it
      if that is not both; without one it does nothing. */
  lemma PingOutcome(l: Link, replies: seq<Reply>)
    requires LinkShape(l)
    ensures var (m, ok) := PingLocked(l, replies);
      var live := l.connected && l.fd >= 0;
      var part := [0xC0, 0x00][..Least(2, Accepted(replies))];
      && (ok <==> live && Accepted(replies) >= 2)
      && (live ==> m.streams == l.streams[l.fd := l.streams[l.fd] + part])
      && (live && !ok ==> !m.connected && m.fd == -1)
      && (ok ==> m.connected && m.fd == l.fd)
      && (!live ==> m == l)
  {
    if l.connected && l.fd >= 0 {
      assert Encode(PingReq) == [0xC0, 0x00];
      SendAddsAccepted(l, PingReq, replies);
    }
  }

  /** Which packets the stack buffers refuse, by the lengths of their parts. */
  lemma RefusedExactly(topic: Bytes, payload: Bytes, clientId: Bytes, keepalive: nat)
    ensures Fits(Publish(topic, payload)) <==> |topic| + |payload| <= 1019
    ensures Fits(Connect(clientId, keepalive)) <==> |clientId| <= 145 && keepalive < 0x1_0000
  {
    LengthSize(2 + |topic| + |payload|);
    LengthSize(12 + |clientId|);
  }

  // ----- what every connection's bytes look like -----

  /** Exactly one CONNECT, first. */
  ghost predicate SessionOrder(packets: seq<Packet>)
  {
    && (packets != [] ==> packets[0].Connect?)
    && forall k :: 1 <= k < |packets| ==> !packets[k].Connect?
  }

  /** Nothing, or the cut-off start of a packet the session could have sent next: a CONNECT if
      there was no packet before, another packet if there was. */
  ghost predicate Begun(rest: Bytes, first: bool)
  {
    rest == [] || exists q: Packet :: BegunBy(rest, q, first)
  }

  ghost predicate BegunBy(rest: Bytes, q: Packet, first: bool)
  {
    Fits(q) && rest < Encode(q) && (q.Connect? <==> first)
  }

  /** The stream is the packets sent on it back to back, then at most the start of one more,
      and nothing more if the connection is open. */
  ghost predicate StreamOk(s: Bytes, packets: seq<Packet>, open: bool)
  {
    && AllFit(packets) && SessionOrder(packets)
    && |Wire(packets)| <= |s| && s[..|Wire(packets)|] == Wire(packets)
    && Begun(s[|Wire(packets)|..], packets == [])
    && (open ==> packets != [] && s == Wire(packets))
  }

  lemma BegunIsIncomplete(rest: Bytes, first: bool)
    requires Begun(rest, first)
    ensures Parse(rest) == Incomplete
  {
    if rest != [] {
      var q: Packet :| BegunBy(rest, q, first);
      CutPacketIncomplete(q, |rest|);
      assert rest == Encode(q)[..|rest|];
    }
  }

  ghost predicate LinkOk(l: Link)
  {
    && |l.streams| == |l.sent| && -1 <= l.fd < |l.streams|
    && (l.connected <==> l.fd >= 0)
    && (l.fd >= 0 ==> l.fd == |l.streams| - 1)
    && forall i :: 0 <= i < |l.streams| ==> StreamOk(l.streams[i], l.sent[i], i == l.fd)
  }

  lemma WholePacketAdded(packets: seq<Packet>, p: Packet)
    requires AllFit(packets) && Fits(p) && SessionOrder(packets + [p])
    ensures StreamOk(Wire(packets) + Encode(p), packets + [p], true)
  {
    var s := Wire(packets) + Encode(p);
    WireAppend(packets, p);
    assert s[..|s|] == s && s[|s|..] == [];
  }

  lemma PartOfPacketAdded(packets: seq<Packet>, p: Packet, k: nat)
    requires AllFit(packets) && Fits(p) && SessionOrder(packets) && SessionOrder(packets + [p])
    requires k < |Encode(p)|
    ensures StreamOk(Wire(packets) + Encode(p)[..k], packets, false)
  {
    var s := Wire(packets) + Encode(p)[..k];
    assert s[|Wire(packets)|..] == Encode(p)[..k];
    assert (packets + [p])[|packets|] == p;
    assert BegunBy(Encode(p)[..k], p, packets == []);
  }

  /** Adding the first k bytes of a packet that may follow to a stream of whole packets. */
  lemma ExtendStream(packets: seq<Packet>, p: Packet, k: nat)
    requires AllFit(packets) && Fits(p) && SessionOrder(packets) && SessionOrder(packets + [p])
    requires k <= |Encode(p)|
    ensures var s := Wire(packets) + Encode(p)[..k];
      if k == |Encode(p)| then StreamOk(s, packets + [p], true) else StreamOk(s, packets, false)
  {
    if k == |Encode(p)| {
      assert Encode(p)[..k] == Encode(p);
      WholePacketAdded(packets, p);
    } else {
      PartOfPacketAdded(packets, p, k);
    }
  }

  lemma ClosedStillOk(s: Bytes, packets: seq<Packet>)
    requires StreamOk(s, packets, true)
    ensures StreamOk(s, packets, false)
  {
  }

  lemma ShutdownGood(l: Link)
    requires LinkOk(l)
    ensures LinkOk(Shutdown(l))
  {
    forall i | 0 <= i < |l.streams| ensures StreamOk(l.streams[i], l.sent[i], false) {
      if i == l.fd { ClosedStillOk(l.streams[i], l.sent[i]); }
    }
  }

  /** A stream of whole packets, written to or not, is a stream with no packet begun. */
  lemma WholeStreamOk(s: Bytes, packets: seq<Packet>)
    requires s == Wire(packets) && AllFit(packets) && SessionOrder(packets)
    ensures StreamOk(s, packets, false)
  {
    assert s[|Wire(packets)|..] == [];
  }

  /** What sending does to the stream it writes to. */
  lemma SendWrites(l: Link, p: Packet, replies: seq<Reply>)
    requires Usable(l) && l.streams[l.fd] == Wire(l.sent[l.fd]) && AllFit(l.sent[l.fd])
    requires SessionOrder(l.sent[l.fd]) && SessionOrder(l.sent[l.fd] + [p])
    ensures var (m, ok) := Send(l, p, replies);
      && StreamOk(m.streams[l.fd], m.sent[l.fd], false)
      && (ok ==> StreamOk(m.streams[l.fd], m.sent[l.fd], true))
  {
    var (m, ok) := Send(l, p, replies);
    if Fits(p) {
      ExtendStream(l.sent[l.fd], p, Reach(|Encode(p)|, 0, replies));
      if ok { ClosedStillOk(m.streams[l.fd], m.sent[l.fd]); }
    } else {
      WholeStreamOk(l.streams[l.fd], l.sent[l.fd]);
    }
  }

  lemma SendLeavesOthers(l: Link, p: Packet, replies: seq<Reply>)
    requires Usable(l)
    ensures var (m, ok) := Send(l, p, replies);
      && m.fd == l.fd && |m.streams| == |m.sent| == |l.streams|
      && forall i :: 0 <= i < |l.streams| && i != l.fd ==> m.streams[i] == l.streams[i] && m.sent[i] == l.sent[i]
  {
  }

  /** Sending on the newest stream, which holds only whole packets. */
  lemma SendGood(l: Link, p: Packet, replies: seq<Reply>)
    requires Usable(l) && l.fd == |l.streams| - 1
    requires forall i :: 0 <= i < l.fd ==> StreamOk(l.streams[i], l.sent[i], false)
    requires l.streams[l.fd] == Wire(l.sent[l.fd]) && AllFit(l.sent[l.fd])
    requires SessionOrder(l.sent[l.fd]) && SessionOrder(l.sent[l.fd] + [p])
    ensures var (m, ok) := Send(l, p, replies);
      && LinkOk(Shutdown(m))
      && (ok ==> LinkOk(m.(connected := true)))
  {
    var (m, ok) := Send(l, p, replies);
    SendWrites(l, p, replies);
    SendLeavesOthers(l, p, replies);
    forall i | 0 <= i < |m.streams|
      ensures StreamOk(m.streams[i], m.sent[i], false)
      ensures ok ==> StreamOk(m.streams[i], m.sent[i], i == m.fd)
    {
      if i < l.fd {
        assert m.streams[i] == l.streams[i] && m.sent[i] == l.sent[i];
      }
    }
  }

  lemma EnsureGood(l: Link, who: Identity, opening: Opening)
    requires LinkOk(l)
    ensures var (m, up) := Ensure(l, who, opening);
      LinkOk(m) && (up ==> m.connected)
  {
    if !(l.connected && l.fd >= 0) {
      ShutdownGood(l);
      if opening.tcp {
        var anew := Open(Shutdown(l));
        var connect := Connect(who.clientId, who.keepalive % 0x1_0000);
        assert anew.sent[anew.fd] + [connect] == [connect];
        SendGood(anew, connect, opening.writes);
      }
    }
  }

  lemma SendConnectedGood(l: Link, p: Packet, replies: seq<Reply>)
    requires LinkOk(l) && l.connected && !p.Connect?
    ensures var (m, ok) := Send(l, p, replies);
      if ok then LinkOk(m) && m.connected else LinkOk(Shutdown(m))
  {
    var packets := l.sent[l.fd];
    assert StreamOk(l.streams[l.fd], packets, true);
    assert SessionOrder(packets + [p]);
    SendGood(l, p, replies);
  }

  lemma PublishGood(l: Link, who: Identity, opening: Opening, p: Packet, replies: seq<Reply>)
    requires LinkOk(l) && !p.Connect?
    ensures LinkOk(PublishLocked(l, who, opening, p, replies).0)
  {
    EnsureGood(l, who, opening);
    var (m, up) := Ensure(l, who, opening);
    if up { SendConnectedGood(m, p, replies); }
  }

  lemma PingGood(l: Link, replies: seq<Reply>)
    requires LinkOk(l)
    ensures LinkOk(PingLocked(l, replies).0)
  {
    if l.connected { SendConnectedGood(l, PingReq, replies); }
  }

  // ----- closed connections stay as they are, sent packets stay sent -----

  /** What any locked operation may do to the streams: extend the open one, add new ones. */
  ghost predicate Extends(l: Link, m: Link)
  {
    && |l.streams| == |l.sent| <= |m.streams| == |m.sent|
    && (m.fd == l.fd || m.fd == -1 || m.fd >= |l.streams|)
    && (forall i :: 0 <= i < |l.streams| && i != l.fd ==> m.streams[i] == l.streams[i])
    && (forall i :: 0 <= i < |l.streams| && i != l.fd ==> m.sent[i] == l.sent[i])
    && (forall i :: 0 <= i < |l.streams| ==> l.streams[i] <= m.streams[i])
    && (forall i :: 0 <= i < |l.sent| ==> l.sent[i] <= m.sent[i])
  }

  lemma SendExtends(l: Link, p: Packet, replies: seq<Reply>)
    requires Usable(l)
    ensures Extends(l, Send(l, p, replies).0)
    ensures Extends(l, Shutdown(Send(l, p, replies).0))
  {
  }

  lemma EnsureExtends(l: Link, who: Identity, opening: Opening)
    requires LinkShape(l)
    ensures Extends(l, Ensure(l, who, opening).0)
  {
  }

  lemma ExtendsTransitive(a: Link, b: Link, c: Link)
    requires Extends(a, b) && Extends(b, c)
    ensures Extends(a, c)
  {
    forall i | 0 <= i < |a.streams| ensures a.streams[i] <= c.streams[i] {
      assert a.streams[i] <= b.streams[i] <= c.streams[i];
    }
    forall i | 0 <= i < |a.sent| ensures a.sent[i] <= c.sent[i] {
      assert a.sent[i] <= b.sent[i] <= c.sent[i];
    }
  }

  lemma PublishExtends(l: Link, who: Identity, opening: Opening, p: Packet, replies: seq<Reply>)
    requires LinkShape(l)
    ensures Extends(l, PublishLocked(l, who, opening, p, replies).0)
  {
    EnsureExtends(l, who, opening);
    var (m, up) := Ensure(l, who, opening);
    if up {
      SendExtends(m, p, replies);
      var (n, ok) := Send(m, p, replies);
      ExtendsTransitive(l, m, if ok then n else Shutdown(n));
    }
  }

  /** The packet was written in full on some connection. */
  ghost predicate OnWire(l: Link, p: Packet)
  {
    exists i :: 0 <= i < |l.sent| && p in l.sent[i]
  }

  lemma OnWireStays(l: Link, m: Link, p: Packet)
    requires Extends(l, m) && OnWire(l, p)
    ensures OnWire(m, p)
  {
    var i :| 0 <= i < |l.sent| && p in l.sent[i];
    assert l.sent[i] <= m.sent[i];
    var k :| 0 <= k < |l.sent[i]| && l.sent[i][k] == p;
    assert m.sent[i][k] == p;
  }

  lemma SentIsOnWire(l: Link, p: Packet, replies: seq<Reply>)
    requires Usable(l) && Send(l, p, replies).1
    ensures OnWire(Send(l, p, replies).0, p)
  {
    var m := Send(l, p, replies).0;
    assert m.sent[l.fd][|l.sent[l.fd]|] == p;
    assert p in m.sent[l.fd];
  }

  lemma PublishedIsOnWire(l: Link, who: Identity, opening: Opening, p: Packet, replies: seq<Reply>)
    requires LinkShape(l)
    requires PublishLocked(l, who, opening, p, replies).1
    ensures OnWire(PublishLocked(l, who, opening, p, replies).0, p)
  {
    SentIsOnWire(Ensure(l, who, opening).0, p, replies);
  }

  // ----- runs -----

  /** One critical section of either thread. */
  datatype Op =
    | PublishOp(opening: Opening, topic: Bytes, payload: Bytes, replies: seq<Reply>)
    | PingOp(replies: seq<Reply>)
    | EnsureOp(opening: Opening)
    | ShutdownOp

  ghost function Do(l: Link, who: Identity, op: Op): (m: Link)
    requires LinkOk(l)
    ensures LinkOk(m) && Extends(l, m)
  {
    match op
    case PublishOp(opening, topic, payload, replies) =>
      PublishGood(l, who, opening, Publish(topic, payload), replies);
      PublishExtends(l, who, opening, Publish(topic, payload), replies);
      PublishLocked(l, who, opening, Publish(topic, payload), replies).0
    case PingOp(replies) =>
      PingGood(l, replies);
      if l.connected then SendExtends(l, PingReq, replies); PingLocked(l, replies).0
      else PingLocked(l, replies).0
    case EnsureOp(opening) =>
      EnsureGood(l, who, opening);
      EnsureExtends(l, who, opening);
      Ensure(l, who, opening).0
    case ShutdownOp =>
      ShutdownGood(l);
      Shutdown(l)
  }

  ghost function DoAll(l: Link, who: Identity, ops: seq<Op>): (m: Link)
    requires LinkOk(l)
    ensures LinkOk(m)
    decreases |ops|
  {
    if ops == [] then l else DoAll(Do(l, who, ops[0]), who, ops[1..])
  }

  lemma StreamReads(s: Bytes, packets: seq<Packet>, open: bool)
    requires StreamOk(s, packets, open)
    ensures DecodeStream(s) == Stream(packets, s[|Wire(packets)|..], false)
  {
    var rest := s[|Wire(packets)|..];
    assert s == Wire(packets) + rest;
    BegunIsIncomplete(rest, packets == []);
    StreamRoundTrip(packets, rest);
  }

  /** Every byte stream of every run, whatever the partial writes and however the two threads'
      critical sections interleave, decodes to exactly the packets sent on it: one CONNECT, then
      PUBLISH and PINGREQ packets, then nothing or the cut-off start of one more packet that the
      session could have sent there, which only a connection that is closed can have. */
  lemma StreamsDecode(who: Identity, ops: seq<Op>, i: nat)
    requires i < |DoAll(FRESH, who, ops).streams|
    ensures var l := DoAll(FRESH, who, ops);
      var d := DecodeStream(l.streams[i]);
      && d.packets == l.sent[i] && !d.malformed
      && SessionOrder(d.packets)
      && Begun(d.rest, d.packets == [])
      && (i == l.fd ==> d.rest == [] && d.packets != [])
  {
    var l := DoAll(FRESH, who, ops);
    StreamReads(l.streams[i], l.sent[i], i == l.fd);
  }

  /** Once a connection is not the open one, no run ever writes to it or reopens it. */
  lemma {:induction false} ClosedIsFrozen(l: Link, who: Identity, ops: seq<Op>, i: nat)
    requires LinkOk(l) && i < |l.streams| && i != l.fd
    ensures var m := DoAll(l, who, ops);
      && i < |m.streams| && i != m.fd
      && m.streams[i] == l.streams[i] && m.sent[i] == l.sent[i]
    decreases |ops|
  {
    if ops != [] {
      ClosedIsFrozen(Do(l, who, ops[0]), who, ops[1..], i);
    }
  }

  /** mqtt_write_all's verdict: success means every byte went out, failure that some did not. */
  lemma SendVerdict(l: Link, p: Packet, replies: seq<Reply>)
    requires Usable(l)
    ensures var (m, ok) := Send(l, p, replies);
      var added := m.streams[l.fd][|l.streams[l.fd]|..];
      && l.streams[l.fd] <= m.streams[l.fd]
      && (ok ==> added == Encode(p))
      && (!ok ==> added < Encode(p))
  {
    var (m, ok) := Send(l, p, replies);
    if Fits(p) {
      var k := Reach(|Encode(p)|, 0, replies);
      assert m.streams[l.fd][|l.streams[l.fd]|..] == Encode(p)[..k];
    }
  }

  /** With the sizes the configuration allows (topics of at most 127 bytes, payloads cut to 383,
      client ids to 63), the buffer guards never refuse a packet. */
  lemma ConfiguredPacketsFit(topic: Bytes, payload: Bytes, clientId: Bytes, keepalive: nat)
    requires |topic| <= 127 && |payload| <= 383 && |clientId| <= 63
    ensures Fits(Publish(topic, payload)) && Fits(Connect(clientId, keepalive % 0x1_0000))
  {
  }
}
