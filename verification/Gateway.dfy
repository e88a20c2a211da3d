/** The three threads of src/runtime/app.c as one machine: ingress polls and pushes, the worker
    pops, stores, controls, publishes and marks, the monitor replays, pings and beats. The ring is
    the bounded queue that RingSteps proves it to be; control and delivery are the machines of
    WorkerControl and Delivery, driven by the worker's progress. */
module Gateway {
  import opened DeviceModel
  import D = Delivery
  import M = MqttLink
  import T = Storage
  import W = WorkerControl
  import S = CommandScheduler
  import L = WireLedger

  /** Fixed settings: queue_size, the control limits, the delivery setup, the adapter. */
  datatype Config = Config(queueSize: nat, limits: Limits, setup: D.Setup, adapter: bool)

  /** How far the worker is with the point it popped. */
  datatype Phase = AtPop | Popped(raw: Telemetry) | Kept(point: Telemetry) | Controlled(point: Telemetry)

  /** hand is what ingress polled and has not pushed; ring the queue's contents. polled, fates,
      taken, items and appended record what was polled, which of it the ring took, what was
      popped, what was handed to control, and which appends succeeded. */
  datatype Pipe = Pipe(
    hand: seq<Telemetry>, ring: seq<Telemetry>, phase: Phase,
    dropped: nat, ingressPoints: nat, processed: nat, publishOk: nat, publishFail: nat,
    polled: seq<Telemetry>, fates: seq<bool>, taken: seq<Telemetry>, appended: seq<bool>)

  datatype State = State(pipe: Pipe, control: W.Control, items: seq<W.Item>, delivery: D.State)

  datatype Step =
    | Poll(points: seq<Telemetry>)
    | Push
    | Pop
    | Append(ok: bool)
    | Control(oks: seq<bool>)
    | Publish(opening: M.Opening, replies: seq<M.Reply>)
    | MarkLive(ok: bool)
    | Monitor(step: D.Step)

  predicate IsMonitorStep(step: D.Step)
  {
    !step.Append? && !step.PublishLive? && !step.MarkLive?
  }

  ghost predicate Enabled(cfg: Config, s: State, step: Step)
  {
    match step
    case Poll(points) => s.pipe.hand == [] && |points| <= 8
    case Push => s.pipe.hand != []
    case Pop => s.pipe.phase.AtPop? && s.delivery.worker.Idle? && s.pipe.ring != []
    case Append(ok) =>
      s.pipe.phase.Popped? && D.Enabled(s.delivery, D.Append(W.ApplyQuality(cfg.limits, s.pipe.phase.raw), ok))
    case Control(oks) => s.pipe.phase.Kept? && |s.control.log.sched.queue| <= S.QUEUE_MAX == |oks|
    case Publish(opening, replies) => s.pipe.phase.Controlled? && D.Enabled(s.delivery, D.PublishLive(opening, replies))
    case MarkLive(ok) => s.pipe.phase.AtPop? && D.Enabled(s.delivery, D.MarkLive(ok))
    case Monitor(m) => IsMonitorStep(m) && D.Enabled(s.delivery, m)
  }

  /** The delivery step a gateway step takes, if any. */
  function DeliveryStep(cfg: Config, s: State, step: Step): Option<D.Step>
    requires step.Append? ==> s.pipe.phase.Popped?
  {
    match step
    case Append(ok) => Some(D.Append(W.ApplyQuality(cfg.limits, s.pipe.phase.raw), ok))
    case Publish(opening, replies) => Some(D.PublishLive(opening, replies))
    case MarkLive(ok) => Some(D.MarkLive(ok))
    case Monitor(m) => Some(m)
    case _ => None
  }

  ghost function DeliveryNext(cfg: Config, s: State, step: Step): D.State
    requires Enabled(cfg, s, step)
  {
    match DeliveryStep(cfg, s, step)
    case Some(d) => D.Next(cfg.setup, s.delivery, d)
    case None => s.delivery
  }

  ghost function PipeNext(cfg: Config, s: State, step: Step): Pipe
    requires Enabled(cfg, s, step)
  {
    var p := s.pipe;
    match step
    case Poll(points) => p.(hand := points, polled := p.polled + points)
    case Push =>
      if |p.ring| + 1 < cfg.queueSize then
        p.(hand := p.hand[1..], ring := p.ring + [p.hand[0]], ingressPoints := p.ingressPoints + 1,
           fates := p.fates + [true])
      else p.(hand := p.hand[1..], dropped := p.dropped + 1, fates := p.fates + [false])
    case Pop => p.(phase := Popped(p.ring[0]), ring := p.ring[1..], taken := p.taken + [p.ring[0]])
    case Append(ok) =>
      p.(phase := Kept(W.ApplyQuality(cfg.limits, p.phase.raw)), processed := p.processed + 1,
         appended := p.appended + [cfg.setup.sqlite && ok])
    case Control(_) => p.(phase := Controlled(p.phase.point))
    case Publish(opening, replies) =>
      if M.PublishLocked(s.delivery.link, cfg.setup.who, opening,
                       D.Message(cfg.setup, s.delivery.worker.point), replies).1
      then p.(phase := AtPop, publishOk := p.publishOk + 1)
      else p.(phase := AtPop, publishFail := p.publishFail + 1)
    case _ => p
  }

  ghost function Next(cfg: Config, s: State, step: Step): State
    requires Enabled(cfg, s, step)
  {
    State(PipeNext(cfg, s, step),
          if step.Control? then W.Handle(s.control, cfg.limits, s.pipe.phase.point, cfg.adapter, step.oks)
          else s.control,
          if step.Control? then s.items + [W.Item(s.pipe.phase.point, step.oks)] else s.items,
          DeliveryNext(cfg, s, step))
  }

  ghost predicate CanRun(cfg: Config, s: State, steps: seq<Step>)
    decreases |steps|
  {
    steps == [] || (Enabled(cfg, s, steps[0]) && CanRun(cfg, Next(cfg, s, steps[0]), steps[1..]))
  }

  ghost function Run(cfg: Config, s: State, steps: seq<Step>): State
    requires CanRun(cfg, s, steps)
    decreases |steps|
  {
    if steps == [] then s else Run(cfg, Next(cfg, s, steps[0]), steps[1..])
  }

  const IDLE: Pipe := Pipe([], [], AtPop, 0, 0, 0, 0, 0, [], [], [], [])

  /** Start-up; gateway_app_init refuses a queue_size below two. */
  ghost predicate Start(cfg: Config, s: State)
  {
    cfg.queueSize >= 2 && s.pipe == IDLE && s.control == W.BEGIN && s.items == [] && D.Start(s.delivery)
  }

  // ----- conservation -----

  /** The points whose fate is true, in order. */
  function Select(points: seq<Telemetry>, fates: seq<bool>): seq<Telemetry>
    requires |fates| <= |points|
  {
    if fates == [] then []
    else Select(points, fates[..|fates| - 1]) + if fates[|fates| - 1] then [points[|fates| - 1]] else []
  }

  function Falses(fates: seq<bool>): nat
  {
    if fates == [] then 0 else Falses(fates[..|fates| - 1]) + if fates[|fates| - 1] then 0 else 1
  }

  lemma {:induction false} SelectMore(points: seq<Telemetry>, more: seq<Telemetry>, fates: seq<bool>)
    requires |fates| <= |points|
    ensures Select(points + more, fates) == Select(points, fates)
    decreases |fates|
  {
    if fates != [] { SelectMore(points, more, fates[..|fates| - 1]); }
  }

  lemma SelectNext(points: seq<Telemetry>, fates: seq<bool>, b: bool)
    requires |fates| < |points|
    ensures Select(points, fates + [b]) == Select(points, fates) + if b then [points[|fates|]] else []
    ensures Falses(fates + [b]) == Falses(fates) + if b then 0 else 1
  {
    assert (fates + [b])[..|fates|] == fates;
  }

  /** Polled points are taken by the ring in order or dropped; taken ones are popped in order. */
  ghost predicate Conserved(cfg: Config, p: Pipe)
  {
    && |p.fates| <= |p.polled| && p.hand == p.polled[|p.fates|..]
    && Select(p.polled, p.fates) == p.taken + p.ring
    && p.ingressPoints == |p.taken| + |p.ring|
    && p.dropped == Falses(p.fates)
    && |p.fates| == p.ingressPoints + p.dropped
    && |p.ring| < cfg.queueSize
    && |p.taken| == p.processed + (if p.phase.Popped? then 1 else 0)
    && p.processed == p.publishOk + p.publishFail + (if p.phase.Kept? || p.phase.Controlled? then 1 else 0)
    && |p.appended| == p.processed
    && (p.phase.Popped? ==> p.taken != [] && p.phase.raw == p.taken[|p.taken| - 1])
  }

  lemma PushConserves(cfg: Config, p: Pipe)
    requires Conserved(cfg, p) && p.hand != []
    ensures forall b :: Select(p.polled, p.fates + [b]) == Select(p.polled, p.fates) + if b then [p.hand[0]] else []
    ensures forall b :: Falses(p.fates + [b]) == Falses(p.fates) + if b then 0 else 1
    ensures p.hand[1..] == p.polled[|p.fates| + 1..]
  {
    SelectNext(p.polled, p.fates, true);
    SelectNext(p.polled, p.fates, false);
  }

  lemma PollKeeps(cfg: Config, s: State, points: seq<Telemetry>)
    requires Conserved(cfg, s.pipe) && Enabled(cfg, s, Poll(points))
    ensures Conserved(cfg, PipeNext(cfg, s, Poll(points)))
  {
    SelectMore(s.pipe.polled, points, s.pipe.fates);
    assert (s.pipe.polled + points)[|s.pipe.fates|..] == points;
  }

  lemma PushKeeps(cfg: Config, s: State)
    requires Conserved(cfg, s.pipe) && Enabled(cfg, s, Push)
    ensures Conserved(cfg, PipeNext(cfg, s, Push))
  {
    var p := s.pipe;
    PushConserves(cfg, p);
    assert p.taken + (p.ring + [p.hand[0]]) == p.taken + p.ring + [p.hand[0]];
    assert Select(p.polled, p.fates + [true]) == p.taken + p.ring + [p.hand[0]];
    assert Select(p.polled, p.fates + [false]) == p.taken + p.ring;
  }

  lemma PopKeeps(cfg: Config, s: State)
    requires Conserved(cfg, s.pipe) && Enabled(cfg, s, Pop)
    ensures Conserved(cfg, PipeNext(cfg, s, Pop))
  {
    var p := s.pipe;
    assert p.taken + [p.ring[0]] + p.ring[1..] == p.taken + p.ring;
  }

  lemma ConservedKept(cfg: Config, s: State, step: Step)
    requires Conserved(cfg, s.pipe) && Enabled(cfg, s, step)
    ensures Conserved(cfg, PipeNext(cfg, s, step))
  {
    match step
    case Poll(points) => PollKeeps(cfg, s, points);
    case Push => PushKeeps(cfg, s);
    case Pop => PopKeeps(cfg, s);
    case _ =>
  }

  lemma {:induction false} RunConserved(cfg: Config, s: State, steps: seq<Step>)
    requires Conserved(cfg, s.pipe) && CanRun(cfg, s, steps)
    ensures Conserved(cfg, Run(cfg, s, steps).pipe)
    decreases |steps|
  {
    if steps != [] {
      ConservedKept(cfg, s, steps[0]);
      RunConserved(cfg, Next(cfg, s, steps[0]), steps[1..]);
    }
  }

  /** Nothing disappears uncounted. At every point of every run: polled = in ingress's hand +
      dropped + in the ring + processed + just popped; processed = published + failed + in hand;
      and the points the worker popped followed by those in the ring are the polled ones that
      were not dropped, in their order. So when both threads have stopped between points, what is
      left in the ring is exactly the difference. */
  lemma PointsConserved(cfg: Config, start: State, steps: seq<Step>)
    requires Start(cfg, start) && CanRun(cfg, start, steps)
    ensures var p := Run(cfg, start, steps).pipe;
      && |p.polled| == |p.hand| + p.dropped + |p.ring| + p.processed + (if p.phase.Popped? then 1 else 0)
      && p.processed == p.publishOk + p.publishFail + (if p.phase.Kept? || p.phase.Controlled? then 1 else 0)
      && p.ingressPoints == |p.taken| + |p.ring|
      && |p.fates| <= |p.polled| && p.taken + p.ring == Select(p.polled, p.fates) && p.dropped == Falses(p.fates)
      && (p.hand == [] && p.phase.AtPop? ==>
            |p.ring| == |p.polled| - p.dropped - p.publishOk - p.publishFail)
  {
    RunConserved(cfg, start, steps);
  }

  // ----- what is stored -----

  function Points(t: T.Table): seq<Telemetry>
  {
    seq(|t|, i requires 0 <= i < |t| => t[i].point)
  }

  /** What the worker stores for a popped point. */
  function Storable(lim: Limits, raw: Telemetry): Telemetry { W.ApplyQuality(lim, raw).(sourceId := 0) }

  function StorableAll(lim: Limits, raws: seq<Telemetry>): (r: seq<Telemetry>)
    ensures |r| == |raws|
  {
    seq(|raws|, i requires 0 <= i < |raws| => Storable(lim, raws[i]))
  }

  /** The rows added since start-up are the popped points whose append succeeded, in order. */
  ghost predicate StoredInOrder(cfg: Config, s: State, first: T.Table)
  {
    && |first| <= |s.delivery.table|
    && |s.pipe.appended| <= |s.pipe.taken|
    && Points(s.delivery.table) == Points(first) + Select(StorableAll(cfg.limits, s.pipe.taken), s.pipe.appended)
  }

  lemma AppendStores(cfg: Config, s: State, ok: bool, first: T.Table)
    requires Conserved(cfg, s.pipe) && StoredInOrder(cfg, s, first) && Enabled(cfg, s, Append(ok))
    ensures StoredInOrder(cfg, Next(cfg, s, Append(ok)), first)
  {
    var p, t := s.pipe, s.delivery.table;
    var all := StorableAll(cfg.limits, p.taken);
    var stored := cfg.setup.sqlite && ok;
    SelectNext(all, p.appended, stored);
    assert all[|p.appended|] == Storable(cfg.limits, p.phase.raw);
    if stored {
      assert Points(T.Insert(t, s.delivery.lastId, W.ApplyQuality(cfg.limits, p.phase.raw)))
          == Points(t) + [Storable(cfg.limits, p.phase.raw)];
    }
  }

  lemma PopStores(cfg: Config, s: State, first: T.Table)
    requires Conserved(cfg, s.pipe) && StoredInOrder(cfg, s, first) && Enabled(cfg, s, Pop)
    ensures StoredInOrder(cfg, Next(cfg, s, Pop), first)
  {
    var p := s.pipe;
    SelectMore(StorableAll(cfg.limits, p.taken), [Storable(cfg.limits, p.ring[0])], p.appended);
    assert StorableAll(cfg.limits, p.taken + [p.ring[0]])
        == StorableAll(cfg.limits, p.taken) + [Storable(cfg.limits, p.ring[0])];
  }

  lemma OthersStore(cfg: Config, s: State, step: Step, first: T.Table)
    requires StoredInOrder(cfg, s, first) && Enabled(cfg, s, step) && !step.Append? && !step.Pop?
    ensures StoredInOrder(cfg, Next(cfg, s, step), first)
  {
    match DeliveryStep(cfg, s, step)
    case Some(d) =>
      D.TableGrows(cfg.setup, s.delivery, d);
      assert Points(DeliveryNext(cfg, s, step).table) == Points(s.delivery.table);
    case None =>
  }

  lemma {:induction false} RunStores(cfg: Config, s: State, steps: seq<Step>, first: T.Table)
    requires Conserved(cfg, s.pipe) && StoredInOrder(cfg, s, first) && CanRun(cfg, s, steps)
    ensures StoredInOrder(cfg, Run(cfg, s, steps), first)
    decreases |steps|
  {
    if steps != [] {
      ConservedKept(cfg, s, steps[0]);
      match steps[0] {
        case Append(ok) => AppendStores(cfg, s, ok, first);
        case Pop => PopStores(cfg, s, first);
        case _ => OthersStore(cfg, s, steps[0], first);
      }
      RunStores(cfg, Next(cfg, s, steps[0]), steps[1..], first);
    }
  }

  /** The table after any run is what it was at start-up plus, in the order they were polled, the
      points that were neither dropped nor failed to append, each after the quality rule. */
  lemma TableIsHistory(cfg: Config, start: State, steps: seq<Step>)
    requires Start(cfg, start) && CanRun(cfg, start, steps)
    ensures var s := Run(cfg, start, steps);
      && |s.pipe.fates| <= |s.pipe.polled|
      && s.pipe.taken <= Select(s.pipe.polled, s.pipe.fates)
      && StoredInOrder(cfg, s, start.delivery.table)
  {
    RunConserved(cfg, start, steps);
    RunStores(cfg, start, steps, start.delivery.table);
  }

  // ----- control and delivery are the machines proved elsewhere -----

  /** The delivery steps of a gateway run, in order. */
  ghost function DeliverySteps(cfg: Config, s: State, steps: seq<Step>): seq<D.Step>
    requires CanRun(cfg, s, steps)
    decreases |steps|
  {
    if steps == [] then []
    else
      var rest := DeliverySteps(cfg, Next(cfg, s, steps[0]), steps[1..]);
      match DeliveryStep(cfg, s, steps[0])
      case Some(d) => [d] + rest
      case None => rest
  }

  /** Every run of the gateway is, on its delivery part, a run of Delivery. */
  lemma {:induction false} DeliveryProjects(cfg: Config, s: State, steps: seq<Step>)
    requires CanRun(cfg, s, steps)
    ensures var ds := DeliverySteps(cfg, s, steps);
      && D.CanRun(cfg.setup, s.delivery, ds)
      && Run(cfg, s, steps).delivery == D.Run(cfg.setup, s.delivery, ds)
    decreases |steps|
  {
    if steps != [] {
      var rest := DeliverySteps(cfg, Next(cfg, s, steps[0]), steps[1..]);
      DeliveryProjects(cfg, Next(cfg, s, steps[0]), steps[1..]);
      match DeliveryStep(cfg, s, steps[0]) {
        case Some(d) => assert ([d] + rest)[1..] == rest;
        case None =>
      }
    }
  }

  /** What control has seen are popped points after the quality rule. */
  ghost predicate ControlOk(cfg: Config, s: State)
  {
    && W.ItemsOk(s.items) && S.Accounted(s.control.log)
    && s.control == W.RunItems(W.BEGIN, cfg.limits, cfg.adapter, s.items)
    && (s.pipe.phase.Kept? ==> W.ApplyQuality(cfg.limits, s.pipe.phase.point) == s.pipe.phase.point)
  }

  lemma ControlKept(cfg: Config, s: State, step: Step)
    requires ControlOk(cfg, s) && Enabled(cfg, s, step)
    ensures ControlOk(cfg, Next(cfg, s, step))
  {
    if step.Control? {
      var item := W.Item(s.pipe.phase.point, step.oks);
      W.RunItemsNext(W.BEGIN, cfg.limits, cfg.adapter, s.items, item);
      W.HandleKeepsAccounts(s.control, cfg.limits, item.point, cfg.adapter, item.oks);
    }
  }

  lemma {:induction false} RunControlOk(cfg: Config, s: State, steps: seq<Step>)
    requires ControlOk(cfg, s) && CanRun(cfg, s, steps)
    ensures ControlOk(cfg, Run(cfg, s, steps))
    decreases |steps|
  {
    if steps != [] {
      ControlKept(cfg, s, steps[0]);
      RunControlOk(cfg, Next(cfg, s, steps[0]), steps[1..]);
    }
  }

  /** In the running gateway, under every interleaving: the engine is never over temperature nor in
      FAULT, no submission is refused, and command ids are gapless. */
  lemma GatewayControlSafe(cfg: Config, start: State, steps: seq<Step>)
    requires Start(cfg, start) && CanRun(cfg, start, steps)
    requires cfg.limits.tempHigh >= 0.0 && cfg.adapter
    ensures var c := Run(cfg, start, steps).control;
      && c.engine.temp <= cfg.limits.tempHigh && c.engine.state != Fault
      && c.refused == 0 && c.log.sched.queue == []
      && forall k :: 0 <= k < |c.log.accepted| ==> c.log.accepted[k].id == k + 1
  {
    RunControlOk(cfg, start, steps);
    var s := Run(cfg, start, steps);
    W.OverTemperatureUnreachable(cfg.limits, cfg.adapter, s.items);
    W.CommandsFlow(cfg.limits, s.items);
  }

  /** In the running gateway, under every interleaving: each row is still pending, was uploaded at
      start-up, or was itself written in full and can be read back from a connection; and no row is written more
      than twice plus its failed replay marks. */
  lemma GatewayDelivers(cfg: Config, start: State, steps: seq<Step>, k: nat)
    requires Start(cfg, start) && CanRun(cfg, start, steps)
    requires k < |Run(cfg, start, steps).delivery.table|
    ensures var d := Run(cfg, start, steps).delivery;
      && D.LoggedOrPending(d, d.table[k], D.UploadedIds(start.delivery.table))
      && D.SentOrPending(cfg.setup, d.link, d.table[k], D.UploadedIds(start.delivery.table))
      && D.Count(d.live, d.table[k].id) + D.Count(d.replayed, d.table[k].id)
         <= 2 + D.Count(d.failed, d.table[k].id)
  {
    DeliveryProjects(cfg, start, steps);
    var ds := DeliverySteps(cfg, start, steps);
    D.NoRowMarkedUnpublished(cfg.setup, start.delivery, ds, k);
    D.AtMostTwicePlusFailedMarks(cfg.setup, start.delivery, ds, Run(cfg, start, steps).delivery.table[k].id);
  }

  /** And every PUBLISH packet that can be read back from the connections is one the logs name. */
  lemma GatewayWire(cfg: Config, start: State, steps: seq<Step>)
    requires Start(cfg, start) && CanRun(cfg, start, steps)
    ensures var d := Run(cfg, start, steps).delivery;
      L.AllPublished(L.Decoded(d.link)) == L.Ledger(cfg.setup, d)
  {
    DeliveryProjects(cfg, start, steps);
    L.WireIsAccounted(cfg.setup, start.delivery, DeliverySteps(cfg, start, steps));
  }

  // ----- what the counters count -----

  lemma DeliveryCounts(cfg: Config, s: State, step: Step)
    requires Enabled(cfg, s, step)
    ensures var d, n := s.delivery, Next(cfg, s, step).delivery;
      |n.live| + |n.rowless| - (|d.live| + |d.rowless|) ==
        Next(cfg, s, step).pipe.publishOk - s.pipe.publishOk
  {
  }

  lemma {:induction false} RunCounts(cfg: Config, s: State, steps: seq<Step>)
    requires CanRun(cfg, s, steps)
    ensures var d, n := s.delivery, Run(cfg, s, steps).delivery;
      |n.live| + |n.rowless| - (|d.live| + |d.rowless|) == Run(cfg, s, steps).pipe.publishOk - s.pipe.publishOk
    decreases |steps|
  {
    if steps != [] {
      DeliveryCounts(cfg, s, steps[0]);
      RunCounts(cfg, Next(cfg, s, steps[0]), steps[1..]);
    }
  }

  /** mqtt_publish_ok counts exactly the points the worker wrote in full, with a row or without, and
      mqtt_publish_fail exactly the other processed points but the one in hand. */
  lemma PublishCountersExact(cfg: Config, start: State, steps: seq<Step>)
    requires Start(cfg, start) && CanRun(cfg, start, steps)
    ensures var s := Run(cfg, start, steps);
      var written := |s.delivery.live| + |s.delivery.rowless|;
      && s.pipe.publishOk == written
      && s.pipe.publishFail ==
           s.pipe.processed - written - (if s.pipe.phase.Kept? || s.pipe.phase.Controlled? then 1 else 0)
  {
    RunCounts(cfg, start, steps);
    PointsConserved(cfg, start, steps);
  }

  /** A reading over the limit is stored as BAD and published live as BAD, but what the replay loop
      publishes for the same row says GOOD: the fetch does not restore the quality. */
  lemma ReplayReportsGood(cfg: Config, raw: Telemetry, id: nat, uploaded: bool)
    ensures var row := T.Row(id, Storable(cfg.limits, raw), uploaded);
      && T.Fetched(row).point.quality == Good
      && (T.Fetched(row).point == row.point <==> row.point.quality == Good)
      && (raw.pointId == CELL_TEMP && raw.value > cfg.limits.tempHigh ==>
            row.point.quality == Quality.Bad && T.Fetched(row).point != row.point)
  {
  }
}
