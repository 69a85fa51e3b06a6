/** Which verdict a set point gets, stated on the heartbeats that followed it and on the facts
    recorded when it was issued. */
module Verdicts {
  import opened Basics
  import opened Models
  import opened CommandVerifier

  // ------------------------------------------------------------------ the facts

  /** What a node has waiting, as the line shows it: input less output, when both are known. */
  function BacklogAt(line: SystemProduction, node: Node): Option<real> {
    if node in line && line[node].wipInput.Some? && line[node].wipOutput.Some?
    then Some(line[node].wipInput.value - line[node].wipOutput.value) else None
  }

  /** The first and the last backlog known along a run of heartbeats. */
  function FirstBacklog(beats: seq<Heartbeat>, node: Node): Option<real> {
    if beats == [] then None
    else
      var b := BacklogAt(beats[0].system, node);
      if b.Some? then b else FirstBacklog(beats[1..], node)
  }

  function LastBacklog(beats: seq<Heartbeat>, node: Node): Option<real> {
    if beats == [] then None
    else
      var b := BacklogAt(beats[|beats| - 1].system, node);
      if b.Some? then b else LastBacklog(beats[..|beats| - 1], node)
  }

  /** Stations that feed another one of the line. */
  predicate HasNext(node: Node) { node.Turning? || node.Milling? }

  function NextOf(node: Node): Node
    requires HasNext(node)
  {
    if node.Turning? then Milling else Grinding
  }

  function TargetAt(line: SystemProduction, node: Node): Option<real> { if node in line then line[node].targetRate else None }

  function ActualAt(line: SystemProduction, node: Node): Option<real> { if node in line then line[node].actualRate else None }

  // ------------------------------------------------------------------- the rules

  /** The node reports the commanded rate, within a thousandth. */
  predicate TargetShown(c: Command, line: SystemProduction) {
    var wanted, shown := c.parameters.targetRate, TargetAt(line, c.node);
    wanted.Some? && shown.Some? && wanted.value - 0.001 <= shown.value <= wanted.value + 0.001
  }

  predicate Lowered(c: Command) {
    var wanted, before := c.parameters.targetRate, TargetAt(c.baseline, c.node);
    wanted.Some? && before.Some? && wanted.value < before.value - 0.001
  }

  predicate Raised(c: Command) {
    var wanted, before := c.parameters.targetRate, TargetAt(c.baseline, c.node);
    wanted.Some? && before.Some? && wanted.value > before.value + 0.001
  }

  /** The next station runs empty: at most two parts waiting and at most 45 % utilized. */
  predicate NextIsStarved(c: Command, line: SystemProduction) {
    && HasNext(c.node) && NextOf(c.node) in line
    && var p := line[NextOf(c.node)];
       && p.wipInput.Some? && p.wipInput.value <= 2.0
       && p.utilization.Some? && p.utilization.value <= 0.45
  }

  /** The least the end of the line must still deliver: 70 % of what it did, or, for a set point of
      the last station itself, 90 % of that scaled by the change. */
  function SinkFloor(c: Command, sink: real): real {
    var wanted, before := c.parameters.targetRate, TargetAt(c.baseline, c.node);
    if c.node.Grinding? && wanted.Some? && before.Some? && before.value > 0.0
    then sink * wanted.value / before.value * 0.9
    else sink * 0.7
  }

  predicate SinkIsLow(c: Command, line: SystemProduction) {
    var sink, now := ActualAt(c.baseline, Grinding), ActualAt(line, Grinding);
    sink.Some? && sink.value > 0.0 && !(now.Some? && now.value >= SinkFloor(c, sink.value))
  }

  predicate OwnRateFell(c: Command, line: SystemProduction) {
    var before, now := ActualAt(c.baseline, c.node), ActualAt(line, c.node);
    before.Some? && now.Some? && now.value <= before.value - 0.02
  }

  predicate OwnRateRose(c: Command, line: SystemProduction) {
    var before, now := ActualAt(c.baseline, c.node), ActualAt(line, c.node);
    before.Some? && now.Some? && now.value >= before.value + 0.02
  }

  /** The last known backlog of the next station is at least 0.5 under the one at issue, or, when
      that is unknown, under the first one observed. */
  predicate BacklogFell(c: Command, beats: seq<Heartbeat>)
    requires HasNext(c.node)
  {
    var next := NextOf(c.node);
    var last := LastBacklog(beats, next);
    var reference := if BacklogAt(c.baseline, next).Some? then BacklogAt(c.baseline, next) else FirstBacklog(beats, next);
    last.Some? && reference.Some? && last.value <= reference.value - 0.5
  }

  /** The set point had the effect it was issued for. */
  predicate Worked(c: Command, beats: seq<Heartbeat>)
    requires beats != []
  {
    var line := beats[|beats| - 1].system;
    if Raised(c) then OwnRateRose(c, line)
    else if !Lowered(c) then true
    else if HasNext(c.node) then BacklogFell(c, beats)
    else OwnRateFell(c, line)
  }

  // ----------------------------------------------------------- the observed window

  function SeenAt(c: Command, beats: seq<Heartbeat>): seq<Observation> {
    seq(|beats|, k requires 0 <= k < |beats| => Observed(c, beats[k].system, beats[k].now))
  }

  /** An observation records the heartbeat's facts about the node, the next station and the sink. */
  predicate Records(o: Observation, c: Command, beat: Heartbeat) {
    var line := beat.system;
    && o.observedAt == beat.now
    && o.targetRate == TargetAt(line, c.node) && o.actualRate == ActualAt(line, c.node)
    && o.sinkActualRate == ActualAt(line, Grinding)
    && (if HasNext(c.node) then
          && o.downstreamNode == Some(NextOf(c.node)) && o.downstreamBacklog == BacklogAt(line, NextOf(c.node))
          && o.downstreamWipInput == (if NextOf(c.node) in line then line[NextOf(c.node)].wipInput else None)
          && o.downstreamUtilization == (if NextOf(c.node) in line then line[NextOf(c.node)].utilization else None)
        else
          o.downstreamNode.None? && o.downstreamBacklog.None? && o.downstreamWipInput.None? && o.downstreamUtilization.None?)
  }

  lemma ObservedRecords(c: Command, beat: Heartbeat)
    ensures Records(Observed(c, beat.system, beat.now), c, beat)
  {}

  /** The stored window of an undecided fresh command holds one faithful record per heartbeat. */
  lemma WindowRecordsBeats(c: Command, beats: seq<Heartbeat>, window: Window, k: nat)
    requires window.Valid() && Observable(c) && c.evidence.observations == [] && |beats| <= window.max
    requires Observable(ObserveAll(c, beats, window)) && k < |beats|
    ensures var seen := ObserveAll(c, beats, window).evidence.observations;
            |seen| == |beats| && Records(seen[k], c, beats[k])
  {
    hide Observed, ObserveAll, Observable, Records;
    WindowIsBeats(c, beats, window);
    ObservedRecords(c, beats[k]);
  }

  /** While a fresh command is undecided, its window is the heartbeats seen so far. */
  lemma {:induction false} WindowIsBeats(c: Command, beats: seq<Heartbeat>, window: Window)
    requires window.Valid() && Observable(c) && c.evidence.observations == [] && |beats| <= window.max
    requires Observable(ObserveAll(c, beats, window))
    ensures ObserveAll(c, beats, window).evidence.observations == SeenAt(c, beats)
  {
    hide Assess, Observed, Observable, Conclude;
    if beats == [] {
    } else {
      var front, last := beats[..|beats| - 1], beats[|beats| - 1];
      UndecidedBefore(c, beats, window);
      WindowIsBeats(c, front, window);
      VerificationWindow(c, front, window);
      ObserveWindow(ObserveAll(c, front, window), last, window);
      SeenBySame(c, ObserveAll(c, front, window), last);
      assert SeenAt(c, beats) == SeenAt(c, front) + [Observed(c, last.system, last.now)];
    }
  }

  lemma UndecidedBefore(c: Command, beats: seq<Heartbeat>, window: Window)
    requires beats != [] && Observable(ObserveAll(c, beats, window))
    ensures Observable(ObserveAll(c, beats[..|beats| - 1], window))
  {}

  lemma SeenBySame(c: Command, d: Command, beat: Heartbeat)
    requires c.node == d.node
    ensures Observed(c, beat.system, beat.now) == Observed(d, beat.system, beat.now)
  {}

  lemma ObserveWindow(c: Command, beat: Heartbeat, window: Window)
    requires window.Valid() && Observable(c) && |c.evidence.observations| < window.max
    ensures Observe(c, beat.system, beat.now, window).evidence.observations
            == c.evidence.observations + [Observed(c, beat.system, beat.now)]
  {
    hide Observed, Assess, Conclude;
    var seen := Extend(c, beat.system, beat.now, window);
    var e := Assess(c, beat.system, seen);
    EvidenceIs(c, beat.system, seen);
    ConcludeStep(c, e, LookupDownstream(beat.system, c.node).Some?, beat.now, window);
  }

  lemma EvidenceIs(c: Command, line: SystemProduction, seen: seq<Observation>)
    ensures Assess(c, line, seen).observations == seen
  {}

  // -------------------------------------------------------------- known backlogs

  lemma ObservedBacklog(c: Command, beat: Heartbeat)
    ensures Observed(c, beat.system, beat.now).downstreamBacklog
            == if HasNext(c.node) then BacklogAt(beat.system, NextOf(c.node)) else None
  {}

  lemma {:induction false} KnownAppend(a: seq<Observation>, b: seq<Observation>)
    ensures KnownBacklogs(a + b) == KnownBacklogs(a) + KnownBacklogs(b)
  {
    if a == [] {
      assert a + b == b;
    } else {
      KnownAppend(a[1..], b);
      var head := if a[0].downstreamBacklog.Some? then [a[0].downstreamBacklog.value] else [];
      assert (a + b)[0] == a[0] && (a + b)[1..] == a[1..] + b;
      assert KnownBacklogs(a + b) == head + (KnownBacklogs(a[1..]) + KnownBacklogs(b));
      assert KnownBacklogs(a) == head + KnownBacklogs(a[1..]);
    }
  }

  lemma {:induction false} FirstIsKnown(c: Command, beats: seq<Heartbeat>)
    requires HasNext(c.node)
    ensures var known := KnownBacklogs(SeenAt(c, beats));
            FirstBacklog(beats, NextOf(c.node)) == if known == [] then None else Some(known[0])
  {
    hide Observed;
    if beats == [] {
    } else {
      ObservedBacklog(c, beats[0]);
      FirstIsKnown(c, beats[1..]);
      assert SeenAt(c, beats)[1..] == SeenAt(c, beats[1..]);
    }
  }

  lemma {:induction false} LastIsKnown(c: Command, beats: seq<Heartbeat>)
    requires HasNext(c.node)
    ensures var known := KnownBacklogs(SeenAt(c, beats));
            LastBacklog(beats, NextOf(c.node)) == if known == [] then None else Some(known[|known| - 1])
  {
    hide Observed;
    if beats == [] {
    } else {
      var front, last := beats[..|beats| - 1], beats[|beats| - 1];
      var seen := Observed(c, last.system, last.now);
      ObservedBacklog(c, last);
      LastIsKnown(c, front);
      assert SeenAt(c, beats) == SeenAt(c, front) + [seen];
      KnownAppend(SeenAt(c, front), [seen]);
      assert [seen][1..] == [];
      assert KnownBacklogs([seen]) == if seen.downstreamBacklog.Some? then [seen.downstreamBacklog.value] else [];
    }
  }

  // -------------------------------------------------------------- the evidence

  lemma StationFacts(c: Command, line: SystemProduction)
    ensures DownstreamOf(c.node) == if HasNext(c.node) then Some(NextOf(c.node)) else None
    ensures Backlog(LookupDownstream(c.baseline, c.node)) == if HasNext(c.node) then BacklogAt(c.baseline, NextOf(c.node)) else None
    ensures OrEmpty(Lookup(c.baseline, c.node)).targetRate == TargetAt(c.baseline, c.node)
    ensures OrEmpty(Lookup(c.baseline, c.node)).actualRate == ActualAt(c.baseline, c.node)
    ensures OrEmpty(Lookup(line, c.node)).targetRate == TargetAt(line, c.node)
    ensures OrEmpty(Lookup(line, c.node)).actualRate == ActualAt(line, c.node)
    ensures OrEmpty(Lookup(c.baseline, Grinding)).actualRate == ActualAt(c.baseline, Grinding)
    ensures OrEmpty(Lookup(line, Grinding)).actualRate == ActualAt(line, Grinding)
    ensures SevereStarvation(LookupDownstream(line, c.node)) <==> NextIsStarved(c, line)
    ensures LookupDownstream(line, c.node).Some? <==> HasNext(c.node) && NextOf(c.node) in line
  {}

  lemma SinkRule(c: Command, line: SystemProduction)
    ensures var sink := ActualAt(c.baseline, Grinding);
            var expected := SinkExpectedRate(c.node, c.parameters.targetRate, TargetAt(c.baseline, c.node), sink);
            ThroughputOk(sink, ActualAt(line, Grinding), ThroughputFloor(expected, sink)) <==> !SinkIsLow(c, line)
  {
    var sink, wanted, before := ActualAt(c.baseline, Grinding), c.parameters.targetRate, TargetAt(c.baseline, c.node);
    if c.node.Grinding? && wanted.Some? && before.Some? && before.value > 0.0 && sink.Some? {
      assert Scaled(sink.value, wanted.value, before.value) == sink.value * wanted.value / before.value;
    }
    hide Scaled;
  }

  /** What the evidence of a window comes to, rule by rule. */
  lemma EvidenceFollowsRules(c: Command, line: SystemProduction, seen: seq<Observation>)
    ensures var e := Assess(c, line, seen);
            && (e.targetApplied <==> TargetShown(c, line))
            && (e.severeStarvation <==> NextIsStarved(c, line))
            && (e.throughputFloorOk <==> !SinkIsLow(c, line))
            && (e.direction.Increase? <==> Raised(c)) && (e.direction.Decrease? <==> Lowered(c))
            && (Lowered(c) ==> (e.ownRateMoved <==> OwnRateFell(c, line)))
            && (Raised(c) ==> (e.ownRateMoved <==> OwnRateRose(c, line)))
            && e.downstreamNode == (if HasNext(c.node) then Some(NextOf(c.node)) else None)
            && e.expectedTarget == c.parameters.targetRate && e.observedTarget == TargetAt(line, c.node)
            && e.baselineBacklog == (if HasNext(c.node) then BacklogAt(c.baseline, NextOf(c.node)) else None)
  {
    hide NextIsStarved, SinkIsLow, LookupDownstream, SevereStarvation, Lookup, ThroughputOk, ThroughputFloor, SinkExpectedRate,
      DownstreamOf, HasNext, TargetAt, ActualAt, Backlog, KnownBacklogs;
    StationFacts(c, line);
    SinkRule(c, line);
  }

  lemma FlowRule(c: Command, beats: seq<Heartbeat>, line: SystemProduction)
    requires HasNext(c.node)
    ensures Assess(c, line, SeenAt(c, beats)).flowImproved <==> BacklogFell(c, beats)
  {
    hide LookupDownstream, SevereStarvation, Lookup, ThroughputOk, ThroughputFloor, SinkExpectedRate, DirectionOf, OwnRateMoved,
      DownstreamOf, Backlog, KnownBacklogs, SeenAt, FirstBacklog, LastBacklog, BacklogAt, Abs;
    StationFacts(c, line);
    FirstIsKnown(c, beats);
    LastIsKnown(c, beats);
  }

  // ---------------------------------------------------------------- the verdict

  /** The verdict a window of n observations comes to. */
  function Ruling(c: Command, beats: seq<Heartbeat>, window: Window): VerificationStatus
    requires beats != []
  {
    var line, n := beats[|beats| - 1].system, |beats|;
    if n < window.min then Observing
    else if !TargetShown(c, line) then (if n < window.max then Observing else VerdictFailed)
    else if NextIsStarved(c, line) || SinkIsLow(c, line) then VerdictFailed
    else if Worked(c, beats) then Effective
    else if n < window.max then Observing
    else if HasNext(c.node) && NextOf(c.node) !in line then Inconclusive
    else Partial
  }

  /** The reason given with a verdict. */
  function RulingReason(c: Command, beats: seq<Heartbeat>): Reason
    requires beats != []
  {
    var line := beats[|beats| - 1].system;
    if !TargetShown(c, line) then TargetNotApplied
    else if NextIsStarved(c, line) || SinkIsLow(c, line) then UnacceptableDownstreamEffect
    else if Worked(c, beats) then
      if Raised(c) then RateIncreased
      else if !Lowered(c) then AlreadyAtTarget
      else if HasNext(c.node) then DownstreamImproved else RateDecreased
    else if HasNext(c.node) && NextOf(c.node) !in line then DownstreamUnavailable
    else NoImprovement
  }

  lemma JudgeRules(c: Command, e: Evidence, beats: seq<Heartbeat>, seen: bool, window: Window)
    requires beats != [] && |e.observations| == |beats|
    requires var line := beats[|beats| - 1].system;
             && (e.targetApplied <==> TargetShown(c, line)) && (e.severeStarvation <==> NextIsStarved(c, line))
             && (e.throughputFloorOk <==> !SinkIsLow(c, line)) && (e.targetApplied ==> (EffectProven(e) <==> Worked(c, beats)))
             && (e.direction.Increase? <==> Raised(c)) && (e.direction.Decrease? <==> Lowered(c))
             && (e.downstreamNode.Some? <==> HasNext(c.node)) && (seen <==> HasNext(c.node) && NextOf(c.node) in line)
    ensures var j := Judge(e, seen, window);
            && Ruling(c, beats, window) == (if j.Wait? then Observing else j.verdict)
            && (j.Finish? ==> IsVerdict(j.verdict) && j.reason == RulingReason(c, beats))
  {
    hide TargetShown, NextIsStarved, SinkIsLow, Worked, EffectProven, HasNext, Raised, Lowered;
    NotBoth(c);
  }

  /** For a fresh command of any station, undecided until the last heartbeat, the verdict and its
      reason are what the rules say of the heartbeats so far. */
  lemma VerdictFollowsRules(c: Command, beats: seq<Heartbeat>, window: Window)
    requires window.Valid() && Observable(c) && c.evidence.observations == [] && 1 <= |beats| <= window.max
    requires Observable(ObserveAll(c, beats[..|beats| - 1], window))
    ensures var r := ObserveAll(c, beats, window);
            && r.verification == Ruling(c, beats, window)
            && (IsVerdict(r.verification) ==>
                  r.message == VerdictReason(RulingReason(c, beats)) && r.verifiedAt == Some(beats[|beats| - 1].now))
            && r.evidence.expectedTarget == c.parameters.targetRate
            && r.evidence.observedTarget == TargetAt(beats[|beats| - 1].system, c.node)
            && (r.evidence.targetApplied <==> TargetShown(c, beats[|beats| - 1].system))
  {
    hide Assess, Observed, Ruling, RulingReason, Observable, Judge, EffectProven, TargetShown, NextIsStarved, SinkIsLow, Worked, HasNext;
    var front, last := beats[..|beats| - 1], beats[|beats| - 1];
    var before := ObserveAll(c, front, window);
    WindowIsBeats(c, front, window);
    VerificationWindow(c, front, window);
    var seen := Extend(before, last.system, last.now, window);
    SeenBySame(c, before, last);
    assert seen == SeenAt(c, beats);
    var e := Assess(before, last.system, seen);
    SameAssessment(c, before, last.system, seen);
    EvidenceIs(c, last.system, seen);
    EffectRule(c, beats, e);
    EvidenceFollowsRules(c, last.system, seen);
    StationFacts(c, last.system);
    JudgeRules(c, e, beats, LookupDownstream(last.system, c.node).Some?, window);
  }

  lemma SameAssessment(c: Command, d: Command, line: SystemProduction, seen: seq<Observation>)
    requires c.node == d.node && c.parameters == d.parameters && c.baseline == d.baseline
    ensures Assess(c, line, seen) == Assess(d, line, seen)
  {}

  lemma EffectRule(c: Command, beats: seq<Heartbeat>, e: Evidence)
    requires beats != [] && e == Assess(c, beats[|beats| - 1].system, SeenAt(c, beats))
    ensures e.targetApplied ==> (EffectProven(e) <==> Worked(c, beats))
  {
    hide Assess, SeenAt, BacklogFell, OwnRateFell, OwnRateRose, TargetShown, NextIsStarved, SinkIsLow, Lowered, Raised, HasNext;
    EvidenceFollowsRules(c, beats[|beats| - 1].system, SeenAt(c, beats));
    if HasNext(c.node) { FlowRule(c, beats, beats[|beats| - 1].system); }
    NotBoth(c);
  }

  lemma NotBoth(c: Command)
    ensures !(Lowered(c) && Raised(c))
  {}

  /** The verdict along a run of heartbeats: the first ruling that decides, or none yet. */
  function Outcome(c: Command, beats: seq<Heartbeat>, window: Window): VerificationStatus
    requires beats != []
  {
    if |beats| > 1 && IsVerdict(Outcome(c, beats[..|beats| - 1], window)) then Outcome(c, beats[..|beats| - 1], window)
    else Ruling(c, beats, window)
  }

  /** For every run of heartbeats, of any length, after a fresh set point of any station, the
      verifier's state is the outcome of the rules. */
  lemma {:induction false} OutcomeIsRuled(c: Command, beats: seq<Heartbeat>, window: Window)
    requires window.Valid() && Observable(c) && c.evidence.observations == [] && beats != []
    ensures ObserveAll(c, beats, window).verification == Outcome(c, beats, window)
  {
    hide Ruling, Observe, Observable;
    var front := beats[..|beats| - 1];
    VerificationWindow(c, front, window);
    if |beats| == 1 {
      assert front == [] && ObserveAll(c, front, window) == c;
      VerdictFollowsRules(c, beats, window);
    } else {
      OutcomeIsRuled(c, front, window);
      if IsVerdict(Outcome(c, front, window)) {
        VerdictIsStable(ObserveAll(c, front, window), [beats[|beats| - 1]], window);
        assert front + [beats[|beats| - 1]] == beats;
        ObserveAllAppend(c, front, [beats[|beats| - 1]], window);
      } else {
        VerdictFollowsRules(c, beats, window);
      }
    }
  }

  /** The verdict of a station that feeds another, once the minimum is reached and the commanded
      rate shows: `failed` exactly when the next station is starved or the end of the line fell
      under its floor; else, lowered, `effective` exactly when the next station's backlog fell,
      and, raised, exactly when the own rate rose; and at the maximum `inconclusive` exactly when
      the next station is not heard of. */
  lemma FeedingStationVerdict(c: Command, beats: seq<Heartbeat>, window: Window)
    requires window.Valid() && Observable(c) && c.evidence.observations == [] && window.min <= |beats| <= window.max
    requires HasNext(c.node) && TargetShown(c, beats[|beats| - 1].system)
    requires Observable(ObserveAll(c, beats[..|beats| - 1], window))
    ensures var v, line := ObserveAll(c, beats, window).verification, beats[|beats| - 1].system;
            && (v.VerdictFailed? <==> NextIsStarved(c, line) || SinkIsLow(c, line))
            && (!v.VerdictFailed? && Lowered(c) ==> (v.Effective? <==> BacklogFell(c, beats)))
            && (!v.VerdictFailed? && Raised(c) ==> (v.Effective? <==> OwnRateRose(c, line)))
            && (!v.VerdictFailed? && !v.Effective? ==>
                  if |beats| < window.max then v.Observing?
                  else if NextOf(c.node) in line then v.Partial? else v.Inconclusive?)
  {
    hide NextIsStarved, SinkIsLow, BacklogFell, OwnRateRose, OwnRateFell, TargetShown, Lowered, Raised, Observable, ObserveAll;
    VerdictFollowsRules(c, beats, window);
    NotBoth(c);
  }
}
