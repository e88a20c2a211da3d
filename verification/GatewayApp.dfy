/** The application object of src/runtime/app.c: one pass of each thread's loop over the shared
    ring, table, session and control objects. Gateway has the same passes cut into steps that
    interleave; here each runs by itself and is shown to be a chain of those steps. */
module GatewayApp {
  import opened DeviceModel
  import C = MqttCodec
  import D = Delivery
  import E = StateEngine
  import M = MqttLink
  import N = MqttSession
  import R = SpscRing
  import P = Replay
  import S = CommandScheduler
  import T = Storage
  import W = WorkerControl

  /** How many of offered points go into a queue with room places left. */
  function Taken(offered: nat, room: nat): nat { if offered <= room then offered else room }

  lemma TakenNext(points: seq<Telemetry>, i: nat, room: nat)
    requires i < |points|
    ensures points[..Taken(i + 1, room)] == points[..Taken(i, room)] + if i < room then [points[i]] else []
    ensures Taken(i + 1, room) == Taken(i, room) + if i < room then 1 else 0
  {
  }

  /** A delivery state with both threads at rest and empty logs. */
  function AtRest(t: T.Table, lastId: nat, l: M.Link): D.State
  {
    D.State(t, lastId, l, D.Idle, D.Resting, [], [], [], [], [])
  }

  /** A control state with empty logs. */
  function Before(engine: E.Engine, sched: S.Scheduler): W.Control
  {
    W.Control(engine, S.Log(sched, [], [], true), [], 0, 0)
  }

  /** The worker's append, publish and, if there is a row to mark, mark. */
  function WorkerSteps(setup: D.Setup, s: D.State, point: Telemetry, stored: bool, opening: M.Opening,
                       replies: seq<M.Reply>, marked: bool): D.State
    requires s.worker.Idle? && s.monitor.Resting? && M.LinkShape(s.link)
  {
    var s1 := D.Next(setup, s, D.Append(point, stored));
    var s2 := D.Next(setup, s1, D.PublishLive(opening, replies));
    if s2.worker.Marking? then D.Next(setup, s2, D.MarkLive(marked)) else s2
  }

  lemma WorkerStepsAre(setup: D.Setup, t: T.Table, lastId: nat, l: M.Link, point: Telemetry, stored: bool,
                       opening: M.Opening, replies: seq<M.Reply>, marked: bool)
    requires M.LinkShape(l)
    ensures
      var e := WorkerSteps(setup, AtRest(t, lastId, l), point, stored, opening, replies, marked);
      var (m, ok) := M.PublishLocked(l, setup.who, opening, D.Message(setup, point), replies);
      var kept := setup.sqlite && stored;
      var u := if kept then T.Insert(t, lastId, point) else t;
      && e.link == m && e.lastId == (if kept then lastId + 1 else lastId) && e.worker.Idle?
      && e.table == if ok && kept && marked then T.Mark(u, lastId + 1) else u
  {
  }

  class App {
    const limits: Limits
    const ring: R.SpscRing<Telemetry>
    const storage: T.StorageContext
    const session: N.Session
    const worker: W.Worker
    var ingressPoints: nat
    var processed: nat
    var publishOk: nat
    var publishFail: nat

    /** gateway_app_init with everything it opens at hand. */
    constructor (limits: Limits, setup: D.Setup, queueSize: nat)
      requires 2 <= queueSize < 0x1_0000_0000
      ensures Valid() && this.limits == limits && session.setup == setup
      ensures ring.Contents() == [] && ring.size == queueSize && storage.rows == [] && session.State() == M.FRESH
      ensures ingressPoints == processed == publishOk == publishFail == ring.dropped == 0
    {
      this.limits := limits;
      var ring := new R.SpscRing<Telemetry>();
      var rc := ring.Init(queueSize, true);
      this.ring := ring;
      storage := new T.StorageContext(setup.sqlite);
      session := new N.Session(setup);
      worker := new W.Worker();
      ingressPoints, processed, publishOk, publishFail := 0, 0, 0, 0;
    }

    ghost predicate Valid()
      reads this, ring, storage, session, worker.scheduler
    {
      && ring.Valid() && ring.Ready() && storage.Valid() && session.Valid() && worker.Valid()
      && storage.open == session.setup.sqlite
    }

    /** The push loop of ingress_main: the points that fit go in, in order; the rest are dropped
        and counted. */
    method PushPoints(points: seq<Telemetry>)
      requires Valid()
      modifies this`ingressPoints, ring, ring.buf
      ensures Valid() && ring.buf == old(ring.buf) && ring.size == old(ring.size)
      ensures
        var k := Taken(|points|, old(ring.size - 1 - |ring.Contents()|));
        && ring.Contents() == old(ring.Contents()) + points[..k]
        && ingressPoints == old(ingressPoints) + k
        && ring.dropped == old(ring.dropped) + |points| - k
    {
      ghost var before, room := ring.Contents(), ring.size - 1 - |ring.Contents()|;
      for i := 0 to |points|
        invariant Valid() && ring.buf == old(ring.buf) && ring.size == old(ring.size)
        invariant ring.Contents() == before + points[..Taken(i, room)]
        invariant ingressPoints == old(ingressPoints) + Taken(i, room)
        invariant ring.dropped == old(ring.dropped) + i - Taken(i, room)
      {
        TakenNext(points, i, room);
        var ok := ring.Push(points[i]);
        if ok {
          ingressPoints := ingressPoints + 1;
        }
      }
    }

    /** The middle of the pass: store the point, count it, let the control objects see it. */
    method StoreAndControl(point: Telemetry, stored: bool, adapter: bool, oks: seq<bool>) returns (rowId: nat)
      requires Valid() && |oks| == S.QUEUE_MAX
      modifies this`processed, storage, worker.engine, worker.scheduler, worker.scheduler.queue
      ensures Valid() && processed == old(processed) + 1
      ensures
        var kept := session.setup.sqlite && stored;
        && storage.lastId == old(storage.lastId) + (if kept then 1 else 0)
        && rowId == (if kept then storage.lastId else 0)
        && storage.rows == if kept then T.Insert(old(storage.rows), old(storage.lastId), point) else old(storage.rows)
      ensures
        var before := Before(old(worker.engine.State()), old(worker.scheduler.State()));
        var c := W.Handle(before, limits, point, adapter, oks);
        worker.engine.State() == c.engine && worker.scheduler.State() == c.log.sched
    {
      var rc;
      rc, rowId := storage.Append(point, stored);
      processed := processed + 1;
      var _, _ := worker.HandlePoint(limits, point, adapter, oks);
    }

    /** The end of the pass: publish the point, mark its row if it has one. */
    method PublishAndMark(point: Telemetry, rowId: nat, opening: M.Opening, replies: seq<M.Reply>, marked: bool)
      requires Valid()
      modifies this`publishOk, this`publishFail, storage`rows, session
      ensures Valid()
      ensures
        var (m, ok) := M.PublishLocked(old(session.State()), session.setup.who, opening,
                                     D.Message(session.setup, point), replies);
        && session.State() == m
        && publishOk == old(publishOk) + (if ok then 1 else 0)
        && publishFail == old(publishFail) + (if ok then 0 else 1)
        && storage.rows == if ok && rowId > 0 && storage.open && marked then T.Mark(old(storage.rows), rowId)
                           else old(storage.rows)
    {
      var rc := session.PublishTelemetry(point, opening, replies);
      if rc == 0 {
        publishOk := publishOk + 1;
        if rowId > 0 {
          var _ := storage.MarkUploaded(rowId, marked);
        }
      } else {
        publishFail := publishFail + 1;
      }
    }

    /** One pass of worker_main. stored, marked: whether the INSERT and the UPDATE succeed; oks:
        what the adapter answers. */
    method WorkerPass(stored: bool, adapter: bool, oks: seq<bool>, opening: M.Opening, replies: seq<M.Reply>,
                      marked: bool)
      returns (point: Option<Telemetry>)
      requires Valid() && |oks| == S.QUEUE_MAX
      modifies this`processed, this`publishOk, this`publishFail, ring`tail, storage, session,
               worker.engine, worker.scheduler, worker.scheduler.queue
      ensures Valid()
      ensures point.Some? <==> old(ring.Contents()) != []
      ensures point.None? ==>
        && ring.Contents() == [] && storage.rows == old(storage.rows) && session.State() == old(session.State())
        && processed == old(processed) && publishOk == old(publishOk) && publishFail == old(publishFail)
      ensures point.Some? ==>
        && [old(ring.Contents())[0]] + ring.Contents() == old(ring.Contents())
        && point.value == W.ApplyQuality(limits, old(ring.Contents())[0])
      ensures point.Some? ==>
        var s := AtRest(old(storage.rows), old(storage.lastId), old(session.State()));
        var e := WorkerSteps(session.setup, s, point.value, stored, opening, replies, marked);
        && storage.rows == e.table && storage.lastId == e.lastId && session.State() == e.link && e.worker.Idle?
      ensures point.Some? ==>
        && processed == old(processed) + 1
        && publishOk + publishFail == old(publishOk + publishFail) + 1
        && (publishOk == old(publishOk) + 1 <==>
              M.PublishLocked(old(session.State()), session.setup.who, opening,
                            D.Message(session.setup, point.value), replies).1)
      ensures point.Some? ==>
        var before := Before(old(worker.engine.State()), old(worker.scheduler.State()));
        var c := W.Handle(before, limits, point.value, adapter, oks);
        worker.engine.State() == c.engine && worker.scheduler.State() == c.log.sched
    {
      point := ring.Pop();
      if point.None? {
        return;
      }
      var judged := W.Judge(limits, point.value);
      var rowId := StoreAndControl(judged, stored, adapter, oks);
      PublishAndMark(judged, rowId, opening, replies, marked);
      WorkerStepsAre(session.setup, old(storage.rows), old(storage.lastId), old(session.State()), judged, stored,
                     opening, replies, marked);
      point := Some(judged);
    }

    /** The MQTT part of monitor_on_timer: replay, ping, heartbeat. */
    method TimerPass(prepared: bool, answers: nat, tries: seq<P.Try>, first: M.Opening, pong: seq<M.Reply>,
                     second: M.Opening, beat: C.Bytes, replies: seq<M.Reply>)
      returns (replayed: nat)
      requires Valid() && |tries| == 64
      modifies session, storage`rows
      ensures Valid()
      ensures prepared || !storage.open ==>
        var r := P.Round(session.setup, storage.open, old(session.State()), old(storage.rows), answers, first, tries);
        && storage.rows == r.table && replayed == r.marked
        && M.LinkShape(r.link) && session.State() == AfterReplay(r.link, session.setup, pong, second, beat, replies)
      ensures storage.open && !prepared ==>
        && storage.rows == old(storage.rows) && replayed == 0
        && session.State() == AfterReplay(old(session.State()), session.setup, pong, second, beat, replies)
    {
      replayed := session.ReplayPending(storage, prepared, answers, first, tries);
      var _ := session.PingBroker(pong);
      var _ := session.PublishHeartbeat(beat, second, replies);
    }
  }

  /** Ping, then heartbeat. */
  function AfterReplay(l: M.Link, setup: D.Setup, pong: seq<M.Reply>, opening: M.Opening, beat: C.Bytes,
                       replies: seq<M.Reply>): M.Link
    requires M.LinkShape(l)
  {
    M.PublishLocked(M.PingLocked(l, pong).0, setup.who, opening, C.Publish(setup.heartbeatTopic, beat), replies).0
  }

  /** On a live connection that takes them, the callback adds the two ping bytes and the heartbeat
      packet, in this order. */
  lemma LiveCallback(l: M.Link, setup: D.Setup, pong: seq<M.Reply>, opening: M.Opening, beat: C.Bytes,
                     replies: seq<M.Reply>)
    requires M.LinkShape(l) && l.connected && l.fd >= 0 && M.Accepted(pong) >= 2
    requires |setup.heartbeatTopic| + |beat| <= 1019 && M.Accepted(replies) >= 1024
    ensures AfterReplay(l, setup, pong, opening, beat, replies).streams ==
      l.streams[l.fd := l.streams[l.fd] + [0xC0, 0x00] + C.Encode(C.Publish(setup.heartbeatTopic, beat))]
  {
    var p := C.Publish(setup.heartbeatTopic, beat);
    var l1 := M.PingLocked(l, pong).0;
    M.PingOutcome(l, pong);
    assert [0xC0, 0x00][..2] == [0xC0, 0x00];
    M.EnsureOutcome(l1, setup.who, opening);
    M.RefusedExactly(setup.heartbeatTopic, beat, [], 0);
    M.SendAddsAccepted(l1, p, replies);
    assert C.Encode(p)[..|C.Encode(p)|] == C.Encode(p);
  }

  /** Whatever the connection was: if it is up after the callback, the heartbeat is the last thing on
      it, and it is up whenever the broker can be reached and takes what is written. */
  lemma CallbackEndsWithBeat(l: M.Link, setup: D.Setup, pong: seq<M.Reply>, opening: M.Opening, beat: C.Bytes,
                             replies: seq<M.Reply>)
    requires M.LinkShape(l)
    ensures var m := AfterReplay(l, setup, pong, opening, beat, replies);
      && (m.connected && m.fd >= 0 ==> M.EndsWith(m, C.Publish(setup.heartbeatTopic, beat)))
      && (opening.tcp && opening.connack && M.Accepted(opening.writes) >= 160 && M.Accepted(replies) >= 1024
          && |setup.who.clientId| <= 145 && |setup.heartbeatTopic| + |beat| <= 1019 ==>
            m.connected && m.fd >= 0)
  {
    var p := C.Publish(setup.heartbeatTopic, beat);
    var l1 := M.PingLocked(l, pong).0;
    M.EnsureOutcome(l1, setup.who, opening);
    M.RefusedExactly(setup.heartbeatTopic, beat, setup.who.clientId, setup.who.keepalive % 0x1_0000);
    M.PublishOutcome(l1, setup.who, opening, p, replies);
  }
}
