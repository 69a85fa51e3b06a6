/** Classifies the effect of an applied set point from the production facts of later
    heartbeats, over a bounded observation window. */
module CommandVerifier {
  import opened Basics
  import opened Models
  import opened Retention

  /** Window configuration; the constructor refuses any other pair. */
  datatype Window = Window(min: nat, max: nat) {
    predicate Valid() { 1 <= min <= max }
  }

  const DEFAULT_WINDOW := Window(3, 5)

  function DownstreamOf(node: Node): Option<Node> {
    match node
    case Turning => Some(Milling)
    case Milling => Some(Grinding)
    case _ => None
  }

  function Lookup(system: SystemProduction, node: Node): Option<Production> {
    if node in system then Some(system[node]) else None
  }

  function LookupDownstream(system: SystemProduction, node: Node): Option<Production> {
    var downstream := DownstreamOf(node);
    if downstream.Some? then Lookup(system, downstream.value) else None
  }

  function OrEmpty(p: Option<Production>): Production {
    if p.Some? then p.value else EMPTY_PRODUCTION
  }

  function Backlog(p: Option<Production>): Option<real> {
    if p.Some? && p.value.wipInput.Some? && p.value.wipOutput.Some?
    then Some(p.value.wipInput.value - p.value.wipOutput.value) else None
  }

  function KnownBacklogs(observations: seq<Observation>): seq<real> {
    if observations == [] then []
    else (if observations[0].downstreamBacklog.Some? then [observations[0].downstreamBacklog.value] else [])
         + KnownBacklogs(observations[1..])
  }

  function Abs(x: real): real { if x < 0.0 then -x else x }

  function DirectionOf(expected: Option<real>, requested: Option<real>): Direction {
    if expected.None? || requested.None? then Unchanged
    else if expected.value < requested.value - 0.001 then Decrease
    else if expected.value > requested.value + 0.001 then Increase
    else Unchanged
  }

  function OwnRateMoved(expected: Option<real>, requested: Option<real>,
                        baselineActual: Option<real>, actual: Option<real>): bool {
    if expected.None? || requested.None? || baselineActual.None? || actual.None? then false
    else if expected.value < requested.value then actual.value <= baselineActual.value - 0.02
    else if expected.value > requested.value then actual.value >= baselineActual.value + 0.02
    else false
  }

  /** A rate scaled by a requested change. */
  function Scaled(rate: real, expected: real, requested: real): real
    requires requested > 0.0
  {
    rate * expected / requested
  }

  /** For the sink station the expected rate scales with the requested change. */
  function SinkExpectedRate(node: Node, expected: Option<real>, requested: Option<real>,
                            baselineSink: Option<real>): Option<real> {
    if node == Grinding && expected.Some? && requested.Some? && requested.value > 0.0 && baselineSink.Some?
    then Some(Scaled(baselineSink.value, expected.value, requested.value)) else None
  }

  function ThroughputFloor(sinkExpected: Option<real>, baselineSink: Option<real>): Option<real> {
    if sinkExpected.Some? then Some(sinkExpected.value * 0.9)
    else if baselineSink.Some? then Some(baselineSink.value * 0.7)
    else None
  }

  function ThroughputOk(baselineSink: Option<real>, currentSink: Option<real>, floor: Option<real>): bool {
    || baselineSink.None?
    || baselineSink.value <= 0.0
    || (currentSink.Some? && floor.Some? && currentSink.value >= floor.value)
  }

  function SevereStarvation(downstream: Option<Production>): bool {
    && downstream.Some? && downstream.value.wipInput.Some? && downstream.value.utilization.Some?
    && downstream.value.wipInput.value <= 2.0 && downstream.value.utilization.value <= 0.45
  }

  function Observed(c: Command, system: SystemProduction, now: int): Observation {
    var downstream := LookupDownstream(system, c.node);
    Observation(
      now,
      OrEmpty(Lookup(system, c.node)).targetRate,
      OrEmpty(Lookup(system, c.node)).actualRate,
      DownstreamOf(c.node),
      Backlog(downstream),
      OrEmpty(downstream).wipInput,
      OrEmpty(downstream).utilization,
      OrEmpty(Lookup(system, Grinding)).actualRate)
  }

  function Extend(c: Command, system: SystemProduction, now: int, window: Window): seq<Observation> {
    LastN(c.evidence.observations + [Observed(c, system, now)], window.max)
  }

  /** Everything the observations establish, before any verdict. */
  function Assess(c: Command, system: SystemProduction, observations: seq<Observation>): Evidence {
    var expected := c.parameters.targetRate;
    var target := OrEmpty(Lookup(system, c.node));
    var downstreamNode := DownstreamOf(c.node);
    var downstream := LookupDownstream(system, c.node);
    var baselineTarget := OrEmpty(Lookup(c.baseline, c.node));
    var backlogs := KnownBacklogs(observations);
    var baselineBacklog := Backlog(LookupDownstream(c.baseline, c.node));
    var postDelta := if |backlogs| >= 2 then Some(backlogs[|backlogs| - 1] - backlogs[0]) else None;
    var delta := if backlogs != [] && baselineBacklog.Some?
                 then Some(backlogs[|backlogs| - 1] - baselineBacklog.value) else postDelta;
    var baselineSink := OrEmpty(Lookup(c.baseline, Grinding)).actualRate;
    var sinkExpected := SinkExpectedRate(c.node, expected, baselineTarget.targetRate, baselineSink);
    var floor := ThroughputFloor(sinkExpected, baselineSink);
    Evidence(
      expected,
      target.targetRate,
      expected.Some? && target.targetRate.Some? && Abs(target.targetRate.value - expected.value) <= 0.001,
      downstreamNode,
      baselineBacklog,
      delta,
      postDelta,
      delta.Some? && delta.value <= -0.5,
      DirectionOf(expected, baselineTarget.targetRate),
      OwnRateMoved(expected, baselineTarget.targetRate, baselineTarget.actualRate, target.actualRate),
      SevereStarvation(downstream),
      sinkExpected,
      floor,
      ThroughputOk(baselineSink, OrEmpty(Lookup(system, Grinding)).actualRate, floor),
      observations)
  }

  datatype Judgement = Wait | Finish(verdict: VerificationStatus, reason: Reason)

  function EffectProven(e: Evidence): bool {
    match e.direction
    case Increase => e.ownRateMoved
    case Unchanged => e.targetApplied
    case Decrease => if e.downstreamNode.Some? then e.flowImproved else e.ownRateMoved
  }

  function EffectReason(e: Evidence): Reason {
    match e.direction
    case Increase => RateIncreased
    case Unchanged => AlreadyAtTarget
    case Decrease => if e.downstreamNode.Some? then DownstreamImproved
                     else RateDecreased
  }

  function Judge(e: Evidence, downstreamSeen: bool, window: Window): Judgement {
    var count := |e.observations|;
    if count < window.min then Wait
    else if !e.targetApplied then
      if count < window.max then Wait
      else Finish(VerdictFailed, TargetNotApplied)
    else if e.severeStarvation || !e.throughputFloorOk then
      Finish(VerdictFailed, UnacceptableDownstreamEffect)
    else if EffectProven(e) then Finish(Effective, EffectReason(e))
    else if count < window.max then Wait
    else if e.downstreamNode.Some? && !downstreamSeen then
      Finish(Inconclusive, DownstreamUnavailable)
    else Finish(Partial, NoImprovement)
  }

  function FinishCommand(c: Command, verdict: VerificationStatus, reason: Reason, now: int): Command {
    c.(verification := verdict,
       verifiedAt := Some(now),
       updatedAt := now,
       message := VerdictReason(reason),
       status := match verdict
                 case Effective => Verified
                 case Partial => Verified
                 case VerdictFailed => Failed
                 case _ => Applied)
  }

  function Conclude(c: Command, evidence: Evidence, downstreamSeen: bool, now: int, window: Window): Command {
    var seen := c.(evidence := evidence, verification := Observing, updatedAt := now);
    match Judge(evidence, downstreamSeen, window)
    case Wait => seen
    case Finish(verdict, reason) => FinishCommand(seen, verdict, reason, now)
  }

  predicate Observable(c: Command) {
    !IsVerdict(c.verification) && c.kind == SetTargetRate && (c.status.Applied? || c.status.Executed?)
  }

  /** The command after one heartbeat was observed. */
  function Observe(c: Command, system: SystemProduction, now: int, window: Window): Command {
    if !Observable(c) then c
    else
      var evidence := Assess(c, system, Extend(c, system, now, window));
      Conclude(c, evidence, LookupDownstream(system, c.node).Some?, now, window)
  }

  datatype Heartbeat = Heartbeat(system: SystemProduction, now: int)

  /** The command after a run of heartbeats, oldest first. */
  function ObserveAll(c: Command, beats: seq<Heartbeat>, window: Window): Command {
    if beats == [] then c
    else
      var last := beats[|beats| - 1];
      Observe(ObserveAll(c, beats[..|beats| - 1], window), last.system, last.now, window)
  }

  /** What a verdict on a command says about its status. */
  predicate Coherent(c: Command) {
    && (c.verification.Effective? || c.verification.Partial? ==> c.status.Verified?)
    && (c.verification.VerdictFailed? ==> c.status.Failed?)
  }

  lemma ConcludeStep(c: Command, e: Evidence, downstreamSeen: bool, now: int, window: Window)
    requires Observable(c) && |e.observations| <= window.max
    ensures var r := Conclude(c, e, downstreamSeen, now, window);
            && r.evidence == e
            && (IsVerdict(r.verification) ==> |e.observations| >= window.min)
            && (|e.observations| == window.max >= window.min ==> IsVerdict(r.verification))
            && (IsVerdict(r.verification) <==> !Observable(r))
            && (!IsVerdict(r.verification) ==> r.verification.Observing? && r.status == c.status)
            && (r.verification.Inconclusive? ==> r.status.Applied?)
            && Coherent(r)
  {}

  /** One observation: the window stays bounded, no verdict below the minimum, always a
      verdict at the maximum, and the verdict fixes the status. */
  lemma ObserveStep(c: Command, system: SystemProduction, now: int, window: Window)
    requires window.Valid() && Observable(c)
    ensures var r := Observe(c, system, now, window);
            && |r.evidence.observations| == (if |c.evidence.observations| < window.max
                                             then |c.evidence.observations| + 1 else window.max)
            && r.evidence.observations[|r.evidence.observations| - 1] == Observed(c, system, now)
            && (IsVerdict(r.verification) ==> |r.evidence.observations| >= window.min)
            && (|r.evidence.observations| == window.max ==> IsVerdict(r.verification))
            && (IsVerdict(r.verification) <==> !Observable(r))
            && (!IsVerdict(r.verification) ==> r.verification.Observing? && r.status == c.status)
            && (r.verification.Inconclusive? ==> r.status.Applied?)
            && Coherent(r)
  {
    var observations := Extend(c, system, now, window);
    assert observations[|observations| - 1] == Observed(c, system, now);
    var evidence := Assess(c, system, observations);
    ConcludeStep(c, evidence, LookupDownstream(system, c.node).Some?, now, window);
  }

  /** Observing after a verdict changes nothing, however many heartbeats follow. */
  lemma {:induction false} VerdictIsStable(c: Command, beats: seq<Heartbeat>, window: Window)
    requires IsVerdict(c.verification)
    ensures ObserveAll(c, beats, window) == c
  {
    if beats == [] {
    } else {
      VerdictIsStable(c, beats[..|beats| - 1], window);
    }
  }

  lemma {:induction false} ObserveAllAppend(c: Command, first: seq<Heartbeat>, second: seq<Heartbeat>, window: Window)
    ensures ObserveAll(c, first + second, window) == ObserveAll(ObserveAll(c, first, window), second, window)
  {
    if second == [] {
      assert first + second == first;
    } else {
      var front := second[..|second| - 1];
      assert (first + second)[..|first + second| - 1] == first + front;
      ObserveAllAppend(c, first, front, window);
    }
  }

  /** The whole window: from any observable command that already holds `k` observations (a
      fresh command has none, a re-opened one may hold a full window), every run of heartbeats
      keeps at most `max` observations, reaches no verdict while the total is below `min`, and
      has reached one as soon as the total is `max`. */
  lemma {:induction false} VerificationWindow(c: Command, beats: seq<Heartbeat>, window: Window)
    requires window.Valid() && Observable(c) && |c.evidence.observations| <= window.max
    ensures var r := ObserveAll(c, beats, window);
            var k := |c.evidence.observations|;
            && |r.evidence.observations| <= window.max
            && (IsVerdict(r.verification) ==> |r.evidence.observations| >= window.min)
            && (k + |beats| < window.min ==> Observable(r) && |r.evidence.observations| == k + |beats|)
            && (beats != [] && k + |beats| >= window.max ==> IsVerdict(r.verification))
            && (Observable(r) ==> |r.evidence.observations| == k + |beats| || beats == [])
            && (Observable(r) || IsVerdict(r.verification))
            && r.id == c.id && r.node == c.node && r.kind == c.kind && r.parameters == c.parameters
            && r.baseline == c.baseline
            && (beats != [] ==> Coherent(r))
  {
    if beats == [] {
    } else {
      var front := beats[..|beats| - 1];
      VerificationWindow(c, front, window);
      var before := ObserveAll(c, front, window);
      var last := beats[|beats| - 1];
      if Observable(before) {
        ObserveStep(before, last.system, last.now, window);
      }
    }
  }

  /** With the default window a fresh command has no verdict before the third heartbeat and has one
      from the fifth on. */
  lemma DefaultWindow(c: Command, beats: seq<Heartbeat>)
    requires Observable(c) && c.evidence.observations == []
    ensures |beats| < 3 ==> !IsVerdict(ObserveAll(c, beats, DEFAULT_WINDOW).verification)
    ensures |beats| >= 5 ==> IsVerdict(ObserveAll(c, beats, DEFAULT_WINDOW).verification)
  {
    hide ObserveAll;
    VerificationWindow(c, beats, DEFAULT_WINDOW);
  }
}
