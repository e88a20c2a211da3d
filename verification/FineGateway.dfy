/** The gateway with the ring's real steps in it: ingress and worker push and pop one atomic load,
    store or copy at a time, interleaved with everything else the three threads do. Every such run
    is a run of Gateway, where a push and a pop are single steps of a bounded queue. */
module FineGateway {
  import opened DeviceModel
  import D = Delivery
  import G = Gateway
  import R = RingSteps
  import S = CommandScheduler
  import W = WorkerControl

  /** pipe is that of Gateway, its queue left empty: the points inside are in the ring. */
  datatype State = State(
    ring: R.Ring<Telemetry>, pipe: G.Pipe, control: W.Control, items: seq<W.Item>, delivery: D.State)

  datatype Step = RingStep(ring: R.Step<Telemetry>) | Other(step: G.Step)

  function Plain(f: State): G.State { G.State(f.pipe, f.control, f.items, f.delivery) }

  /** The gateway state this stands for: the queue is what has been pushed and not popped. */
  function Abs(f: State): G.State { Plain(f).(pipe := f.pipe.(ring := Inside(f.ring))) }

  function Inside(r: R.Ring<Telemetry>): seq<Telemetry>
  {
    if |r.popped| <= |r.pushed| then r.pushed[|r.popped|..] else []
  }

  predicate IsWorkerStep(g: G.Step) { g.Append? || g.Control? || g.Publish? || g.MarkLive? }

  /** Ingress pushes the next point it polled, the worker pops when it has nothing in hand, and
      neither does anything else in the middle of a ring operation. */
  ghost predicate Enabled(cfg: G.Config, f: State, step: Step)
  {
    match step
    case RingStep(r) =>
      && R.Enabled(f.ring, r)
      && (r.StartPush? ==> f.pipe.hand != [] && r.point == f.pipe.hand[0])
      && (r.StartPop? ==> f.pipe.phase.AtPop? && f.delivery.worker.Idle?)
    case Other(g) =>
      && !g.Push? && !g.Pop? && G.Enabled(cfg, Plain(f), g)
      && (g.Poll? ==> f.ring.producer.PIdle?)
      && (IsWorkerStep(g) ==> f.ring.consumer.CIdle?)
  }

  /** The push sees the ring full. */
  predicate Refuses(r: R.Ring<Telemetry>)
    requires r.size > 0
  {
    r.producer.PHead? && R.NextIndex(r.size, r.producer.head) == r.tail
  }

  /** The queue operation that takes effect at a ring step. */
  function Effect(f: State, r: R.Step<Telemetry>): Option<G.Step>
    requires f.ring.size > 0
  {
    if r.ProducerStep? && (Refuses(f.ring) || f.ring.producer.PStore?) then Some(G.Push)
    else if r.ConsumerStep? && f.ring.consumer.CStore? then Some(G.Pop)
    else None
  }

  /** What a ring step means for the two threads: ingress is done with its point, the worker has
      the point its pop copied out. */
  function PipeAfter(f: State, r: R.Step<Telemetry>): G.Pipe
    requires f.ring.size > 0
  {
    var p := f.pipe;
    if r.ProducerStep? && p.hand != [] && Refuses(f.ring) then
      p.(hand := p.hand[1..], dropped := p.dropped + 1, fates := p.fates + [false])
    else if r.ProducerStep? && p.hand != [] && f.ring.producer.PStore? then
      p.(hand := p.hand[1..], ingressPoints := p.ingressPoints + 1, fates := p.fates + [true])
    else if r.ConsumerStep? && f.ring.consumer.CStore? then
      p.(phase := G.Popped(f.ring.consumer.point), taken := p.taken + [f.ring.consumer.point])
    else p
  }

  ghost function Next(cfg: G.Config, f: State, step: Step): State
    requires Enabled(cfg, f, step)
  {
    match step
    case RingStep(r) => f.(ring := R.Next(f.ring, r), pipe := PipeAfter(f, r))
    case Other(g) =>
      var n := G.Next(cfg, Plain(f), g);
      State(f.ring, n.pipe, n.control, n.items, n.delivery)
  }

  ghost predicate CanRun(cfg: G.Config, f: State, steps: seq<Step>)
    decreases |steps|
  {
    steps == [] || (Enabled(cfg, f, steps[0]) && CanRun(cfg, Next(cfg, f, steps[0]), steps[1..]))
  }

  ghost function Run(cfg: G.Config, f: State, steps: seq<Step>): State
    requires CanRun(cfg, f, steps)
    decreases |steps|
  {
    if steps == [] then f else Run(cfg, Next(cfg, f, steps[0]), steps[1..])
  }

  ghost predicate Start(cfg: G.Config, f: State, buf: seq<Telemetry>)
  {
    && |buf| == cfg.queueSize < 0x1_0000_0000 && f.ring == R.Init(buf)
    && G.Start(cfg, Plain(f))
  }

  // ----- the invariant -----

  /** A push in progress is of the point at hand; a pop in progress leaves the worker waiting. */
  ghost predicate Busy(f: State)
  {
    && (match f.ring.producer
        case PHead(point, _) => f.pipe.hand != [] && point == f.pipe.hand[0]
        case PWrite(point, _, _) => f.pipe.hand != [] && point == f.pipe.hand[0]
        case PStore(point, _) => f.pipe.hand != [] && point == f.pipe.hand[0]
        case _ => true)
    && (f.ring.consumer.CTail? || f.ring.consumer.CRead? || f.ring.consumer.CStore? ==>
          f.pipe.phase.AtPop? && f.delivery.worker.Idle?)
  }

  ghost predicate Inv(cfg: G.Config, f: State)
  {
    && R.Inv(f.ring) && f.ring.size == cfg.queueSize && f.pipe.ring == [] && Busy(f)
  }

  lemma MoreInside(r: R.Ring<Telemetry>)
    requires R.Inv(r)
    ensures |r.popped| <= |r.pushed| && |Inside(r)| == R.Occupancy(r) < r.size
  {
  }

  /** A push that finds the ring full drops; the gateway's queue is full too. */
  lemma RefusalIsPush(cfg: G.Config, f: State)
    requires Inv(cfg, f) && Enabled(cfg, f, RingStep(R.ProducerStep)) && Refuses(f.ring)
    ensures Inv(cfg, Next(cfg, f, RingStep(R.ProducerStep)))
    ensures G.Enabled(cfg, Abs(f), G.Push)
    ensures Abs(Next(cfg, f, RingStep(R.ProducerStep))) == G.Next(cfg, Abs(f), G.Push)
  {
    R.StepKeepsInv(f.ring, R.ProducerStep);
    R.TailAheadIsFull(f.ring);
    MoreInside(f.ring);
  }

  lemma StoreIsPush(cfg: G.Config, f: State)
    requires Inv(cfg, f) && Enabled(cfg, f, RingStep(R.ProducerStep)) && f.ring.producer.PStore?
    ensures Inv(cfg, Next(cfg, f, RingStep(R.ProducerStep)))
    ensures G.Enabled(cfg, Abs(f), G.Push)
    ensures Abs(Next(cfg, f, RingStep(R.ProducerStep))) == G.Next(cfg, Abs(f), G.Push)
  {
    var r := f.ring;
    R.StepKeepsInv(r, R.ProducerStep);
    MoreInside(r);
    assert (r.pushed + [r.producer.point])[|r.popped|..] == r.pushed[|r.popped|..] + [r.producer.point];
  }

  lemma RetireIsPop(cfg: G.Config, f: State)
    requires Inv(cfg, f) && Enabled(cfg, f, RingStep(R.ConsumerStep)) && f.ring.consumer.CStore?
    ensures Inv(cfg, Next(cfg, f, RingStep(R.ConsumerStep)))
    ensures G.Enabled(cfg, Abs(f), G.Pop)
    ensures Abs(Next(cfg, f, RingStep(R.ConsumerStep))) == G.Next(cfg, Abs(f), G.Pop)
  {
    var r := f.ring;
    R.StepKeepsInv(r, R.ConsumerStep);
    MoreInside(r);
    assert r.pushed[|r.popped|..][1..] == r.pushed[|r.popped| + 1..];
  }

  lemma OtherRingSteps(cfg: G.Config, f: State, r: R.Step<Telemetry>)
    requires Inv(cfg, f) && Enabled(cfg, f, RingStep(r)) && Effect(f, r).None?
    ensures Inv(cfg, Next(cfg, f, RingStep(r)))
    ensures Abs(Next(cfg, f, RingStep(r))) == Abs(f)
  {
    R.StepKeepsInv(f.ring, r);
  }

  lemma OtherSteps(cfg: G.Config, f: State, g: G.Step)
    requires Inv(cfg, f) && Enabled(cfg, f, Other(g))
    ensures Inv(cfg, Next(cfg, f, Other(g)))
    ensures G.Enabled(cfg, Abs(f), g)
    ensures Abs(Next(cfg, f, Other(g))) == G.Next(cfg, Abs(f), g)
  {
  }

  /** The gateway steps of a fine run. */
  ghost function GatewaySteps(cfg: G.Config, f: State, steps: seq<Step>): seq<G.Step>
    requires Inv(cfg, f) && CanRun(cfg, f, steps)
    decreases |steps|
  {
    if steps == [] then []
    else
      StepProjects(cfg, f, steps[0]);
      var rest := GatewaySteps(cfg, Next(cfg, f, steps[0]), steps[1..]);
      match GatewayStep(f, steps[0])
      case Some(g) => [g] + rest
      case None => rest
  }

  function GatewayStep(f: State, step: Step): Option<G.Step>
    requires f.ring.size > 0
  {
    match step
    case RingStep(r) => Effect(f, r)
    case Other(g) => Some(g)
  }

  /** One fine step is one gateway step or none. */
  lemma StepProjects(cfg: G.Config, f: State, step: Step)
    requires Inv(cfg, f) && Enabled(cfg, f, step)
    ensures Inv(cfg, Next(cfg, f, step))
    ensures match GatewayStep(f, step)
            case Some(g) => G.Enabled(cfg, Abs(f), g) && Abs(Next(cfg, f, step)) == G.Next(cfg, Abs(f), g)
            case None => Abs(Next(cfg, f, step)) == Abs(f)
  {
    match step
    case Other(g) => OtherSteps(cfg, f, g);
    case RingStep(r) =>
      if Effect(f, r).None? {
        OtherRingSteps(cfg, f, r);
      } else if r.ConsumerStep? {
        RetireIsPop(cfg, f);
      } else if Refuses(f.ring) {
        RefusalIsPush(cfg, f);
      } else {
        StoreIsPush(cfg, f);
      }
  }

  lemma {:induction false} RunProjects(cfg: G.Config, f: State, steps: seq<Step>)
    requires Inv(cfg, f) && CanRun(cfg, f, steps)
    ensures var gs := GatewaySteps(cfg, f, steps);
      G.CanRun(cfg, Abs(f), gs) && G.Run(cfg, Abs(f), gs) == Abs(Run(cfg, f, steps))
    ensures Inv(cfg, Run(cfg, f, steps))
    decreases |steps|
  {
    if steps != [] {
      var n, rest := Next(cfg, f, steps[0]), steps[1..];
      StepProjects(cfg, f, steps[0]);
      RunProjects(cfg, n, rest);
      match GatewayStep(f, steps[0]) {
        case Some(g) => GatewayCons(cfg, Abs(f), g, GatewaySteps(cfg, n, rest));
        case None =>
      }
    }
  }

  lemma GatewayCons(cfg: G.Config, s: G.State, g: G.Step, rest: seq<G.Step>)
    requires G.Enabled(cfg, s, g) && G.CanRun(cfg, G.Next(cfg, s, g), rest)
    ensures G.CanRun(cfg, s, [g] + rest) && G.Run(cfg, s, [g] + rest) == G.Run(cfg, G.Next(cfg, s, g), rest)
  {
    assert ([g] + rest)[1..] == rest;
  }

  lemma StartInv(cfg: G.Config, start: State, buf: seq<Telemetry>)
    requires Start(cfg, start, buf)
    ensures Inv(cfg, start) && G.Start(cfg, Abs(start))
  {
    R.InitInv(buf);
  }

  /** Every interleaving of the three threads down to the ring's single loads and stores is a run of
      Gateway, ending in the same control, delivery and counters and with the points inside the
      ring as its queue; so what is proved of Gateway's runs holds of these. */
  lemma FineRunsAreGatewayRuns(cfg: G.Config, start: State, buf: seq<Telemetry>, steps: seq<Step>)
    requires Start(cfg, start, buf) && CanRun(cfg, start, steps)
    ensures Inv(cfg, start) && G.Start(cfg, Abs(start))
    ensures var gs := GatewaySteps(cfg, start, steps);
      G.CanRun(cfg, Abs(start), gs) && G.Run(cfg, Abs(start), gs) == Abs(Run(cfg, start, steps))
  {
    StartInv(cfg, start, buf);
    RunProjects(cfg, start, steps);
  }

  /** Conservation with the real ring: no point is lost or duplicated between the poll and the
      worker, whatever the ring's two threads do in between. */
  lemma FinePointsConserved(cfg: G.Config, start: State, buf: seq<Telemetry>, steps: seq<Step>)
    requires Start(cfg, start, buf) && CanRun(cfg, start, steps)
    ensures var f := Run(cfg, start, steps);
      var p := f.pipe;
      && |f.ring.popped| <= |f.ring.pushed|
      && |p.fates| <= |p.polled| && p.taken + f.ring.pushed[|f.ring.popped|..] == G.Select(p.polled, p.fates)
      && |p.polled| == |p.hand| + p.dropped + R.Occupancy(f.ring) + p.processed + (if p.phase.Popped? then 1 else 0)
      && p.processed == p.publishOk + p.publishFail + (if p.phase.Kept? || p.phase.Controlled? then 1 else 0)
  {
    StartInv(cfg, start, buf);
    RunProjects(cfg, start, steps);
    G.PointsConserved(cfg, Abs(start), GatewaySteps(cfg, start, steps));
    MoreInside(Run(cfg, start, steps).ring);
  }
}
