/** The verifier against the node's own plant model, on the last station. The node reports its
    set point and an actual rate proportional to it, both rounded to thousandths. */
module ClosedLoop {
  import opened Basics
  import opened Models
  import opened RealArithmetic
  import opened CommandVerifier

  function Clamp(x: real, low: real, high: real): real {
    if x < low then low else if x > high then high else x
  }

  /** The share of the set point that becomes good output: utilization times yield. */
  function Share(load: real, defectRate: real): (k: real)
    ensures 0.0 <= k <= 0.98
  {
    var utilization := Clamp(load, 0.0, 0.98);
    var yieldRate := 1.0 - Clamp(defectRate, 0.0, 1.0);
    assert 0.0 <= utilization * yieldRate <= utilization;
    utilization * yieldRate
  }

  /** Within its bounds the share is utilization times yield; above 98 % load it does not grow. */
  lemma ShareIsExact(load: real, defectRate: real)
    requires 0.0 <= load && 0.0 <= defectRate <= 1.0
    ensures load <= 0.98 ==> Share(load, defectRate) == load * (1.0 - defectRate)
    ensures load >= 0.98 ==> Share(load, defectRate) == 0.98 * (1.0 - defectRate)
  {}

  function Output(setPoint: real, k: real): real { setPoint * k }

  /** The rates a heartbeat reports; work-in-progress figures are left to the caller. */
  function PlantReport(setPoint: real, k: real, wipInput: Option<real>, wipOutput: Option<real>,
                       utilization: Option<real>): Production {
    Production(Some(Round3(setPoint)), Some(Round3(Output(setPoint, k))), wipInput, wipOutput, utilization)
  }

  predicate IsPlantReport(p: Production, setPoint: real, k: real) {
    p == PlantReport(setPoint, k, p.wipInput, p.wipOutput, p.utilization)
  }

  /** Heartbeats of a grinding station that holds `setPoint` at share k. */
  predicate SteadyBeats(beats: seq<Heartbeat>, setPoint: real, k: real) {
    forall i :: 0 <= i < |beats| ==>
      Grinding in beats[i].system && IsPlantReport(beats[i].system[Grinding], setPoint, k)
  }

  /** A set point of the grinding station just reported as applied: `target` was requested when
      the station ran at `before`, and the share has not changed since. */
  predicate FreshGrindingCommand(c: Command, target: real, before: real, k: real) {
    && c.node == Grinding && Observable(c) && c.evidence.observations == []
    && c.parameters.targetRate == Some(target)
    && Grinding in c.baseline && IsPlantReport(c.baseline[Grinding], before, k)
  }

  // ---------------------------------------------------- what decides the verdict

  /** The lowest sink rate the verifier accepts. */
  function Floor(target: real, before: real, k: real): real {
    var rate, sink := Round3(before), Round3(Output(before, k));
    if rate > 0.0 then Scaled(sink, target, rate) * 0.9 else sink * 0.7
  }

  predicate FloorBroken(target: real, before: real, k: real) {
    Round3(Output(before, k)) > 0.0 && Round3(Output(Round3(target), k)) < Floor(target, before, k)
  }

  predicate EffectVisible(target: real, before: real, k: real) {
    || DirectionOf(Some(target), Some(Round3(before))).Unchanged?
    || OwnRateMoved(Some(target), Some(Round3(before)), Some(Round3(Output(before, k))),
                    Some(Round3(Output(Round3(target), k))))
  }

  /** The verdict after n heartbeats, from the rates alone. */
  function Predicted(target: real, before: real, k: real, n: nat, window: Window): VerificationStatus {
    if n < window.min then Observing
    else if FloorBroken(target, before, k) then VerdictFailed
    else if EffectVisible(target, before, k) then Effective
    else if n < window.max then Observing
    else Partial
  }

  // ------------------------------------------------------------------ one heartbeat

  predicate SameCase(c: Command, target: real, before: real, k: real) {
    && c.node == Grinding && c.kind.SetTargetRate?
    && c.parameters.targetRate == Some(target)
    && Grinding in c.baseline && IsPlantReport(c.baseline[Grinding], before, k)
  }

  /** What the evidence takes from the two reports. */
  lemma AssessReports(c: Command, system: SystemProduction, observations: seq<Observation>, target: real, before: real, k: real)
    requires SameCase(c, target, before, k)
    requires Grinding in system && IsPlantReport(system[Grinding], Round3(target), k)
    ensures var e := Assess(c, system, observations);
            var rate, sink, now := Some(Round3(before)), Some(Round3(Output(before, k))), Some(Round3(Output(Round3(target), k)));
            && e.targetApplied == (Abs(Round3(Round3(target)) - target) <= 0.001)
            && !e.severeStarvation && e.downstreamNode.None? && e.observations == observations
            && e.direction == DirectionOf(Some(target), rate)
            && e.ownRateMoved == OwnRateMoved(Some(target), rate, sink, now)
            && e.throughputFloorOk
               == ThroughputOk(sink, now, ThroughputFloor(SinkExpectedRate(Grinding, Some(target), rate, sink), sink))
  {
    hide Round3, Output, DirectionOf, OwnRateMoved, ThroughputOk, ThroughputFloor, SinkExpectedRate, Abs;
  }

  lemma FloorComparison(target: real, before: real, k: real)
    ensures var rate, sink, now := Some(Round3(before)), Some(Round3(Output(before, k))), Some(Round3(Output(Round3(target), k)));
            ThroughputOk(sink, now, ThroughputFloor(SinkExpectedRate(Grinding, Some(target), rate, sink), sink))
            <==> !FloorBroken(target, before, k)
  {
    hide Round3, Output, Scaled;
  }

  lemma AssessSteady(c: Command, system: SystemProduction, observations: seq<Observation>, target: real, before: real, k: real)
    requires SameCase(c, target, before, k)
    requires Grinding in system && IsPlantReport(system[Grinding], Round3(target), k)
    ensures var e := Assess(c, system, observations);
            && e.targetApplied && !e.severeStarvation && e.downstreamNode.None? && e.observations == observations
            && (e.throughputFloorOk <==> !FloorBroken(target, before, k))
            && (EffectProven(e) <==> EffectVisible(target, before, k))
  {
    hide Assess, Round3, Output, OwnRateMoved, FloorBroken, SameCase, IsPlantReport, ThroughputOk, ThroughputFloor, SinkExpectedRate;
    AssessReports(c, system, observations, target, before, k);
    FloorComparison(target, before, k);
    Round3Error(target);
    Round3Idempotent(target);
  }

  lemma JudgeSteady(e: Evidence, broken: bool, visible: bool, seen: bool, window: Window)
    requires window.Valid() && e.targetApplied && !e.severeStarvation && e.downstreamNode.None?
    requires e.throughputFloorOk == !broken && EffectProven(e) == visible
    ensures var j := Judge(e, seen, window);
            var n := |e.observations|;
            if n < window.min then j.Wait?
            else if broken then j.Finish? && j.verdict.VerdictFailed?
            else if visible then j.Finish? && j.verdict.Effective?
            else if n < window.max then j.Wait?
            else j.Finish? && j.verdict.Partial?
  {}

  lemma ObserveSteady(c: Command, beat: Heartbeat, n: nat, window: Window, target: real, before: real, k: real)
    requires window.Valid() && Observable(c) && SameCase(c, target, before, k)
    requires |c.evidence.observations| == n < window.max
    requires Grinding in beat.system && IsPlantReport(beat.system[Grinding], Round3(target), k)
    ensures Observe(c, beat.system, beat.now, window).verification == Predicted(target, before, k, n + 1, window)
  {
    var observations := Extend(c, beat.system, beat.now, window);
    assert |observations| == n + 1;
    var e := Assess(c, beat.system, observations);
    AssessSteady(c, beat.system, observations, target, before, k);
    hide Assess, Extend, FloorBroken, EffectVisible, EffectProven, IsPlantReport;
    JudgeSteady(e, FloorBroken(target, before, k), EffectVisible(target, before, k),
                LookupDownstream(beat.system, c.node).Some?, window);
  }

  lemma PredictedIsStable(target: real, before: real, k: real, n: nat, window: Window)
    requires IsVerdict(Predicted(target, before, k, n, window))
    ensures Predicted(target, before, k, n + 1, window) == Predicted(target, before, k, n, window)
  {}

  // ---------------------------------------------------------------- the whole window

  /** For every run of heartbeats from a station that holds the commanded set point, the
      verifier's state is the predicted one: `failed` exactly when the reported sink rate lies
      below the floor, otherwise `effective` at the minimum count when the change is visible,
      otherwise `partial` at the maximum. */
  lemma {:induction false} ClosedLoopVerdict(c: Command, beats: seq<Heartbeat>, window: Window,
                                             target: real, before: real, k: real)
    requires window.Valid() && FreshGrindingCommand(c, target, before, k)
    requires beats != [] && SteadyBeats(beats, Round3(target), k)
    ensures ObserveAll(c, beats, window).verification == Predicted(target, before, k, |beats|, window)
  {
    hide FloorBroken, EffectVisible, Observe, IsPlantReport;
    var n := |beats| - 1;
    var front, last := beats[..n], beats[n];
    VerificationWindow(c, front, window);
    var earlier := ObserveAll(c, front, window);
    if front == [] {
      assert earlier == c;
      ObserveSteady(c, last, 0, window, target, before, k);
    } else {
      ClosedLoopVerdict(c, front, window, target, before, k);
      if IsVerdict(earlier.verification) {
        PredictedIsStable(target, before, k, n, window);
        VerdictIsStable(earlier, [last], window);
        ObserveAllAppend(c, front, [last], window);
        assert front + [last] == beats;
      } else {
        ObserveSteady(earlier, last, n, window, target, before, k);
      }
    }
  }

  // ------------------------------------------------------- when `failed` cannot happen

  /** The floor in terms of the true share: rounding moves it by less than 0.001*target/b. */
  lemma FloorUpperBound(target: real, b: real, a: real, k: real)
    requires 0.0 <= target && 0.0 < b && a <= b * k + 0.001
    ensures a * target / b <= target * k + 0.001 * (target / b)
  {
    ScaleBound(a, b * k + 0.001, target);
    DivideBound(a * target, (b * k + 0.001) * target, b);
    var y := target / b;
    assert y * b == target;
    assert (b * k + 0.001) * target == (k * target + 0.001 * y) * b;
  }

  lemma MarginAlgebra(target: real, b: real, k: real)
    requires 0.0 < b && 1000.0 * target * k * b >= 10.0 * b + 9.0 * target
    ensures target * k - 0.001 >= (target * k + 0.001 * (target / b)) * 0.9
  {
    var x, y := target * k, target / b;
    assert y * b == target;
    assert 1000.0 * target * k * b == 1000.0 * x * b;
    var slack := 1000.0 * x - 10.0 - 9.0 * y;
    assert slack * b == 1000.0 * x * b - 10.0 * b - 9.0 * (y * b);
    if slack < 0.0 {
      Positive(-slack, b);
    }
  }

  /** The floor test on numbers that differ from the true rates by at most 0.0005. */
  lemma RoundedFloorHolds(target: real, before: real, k: real, b: real, a: real, applied: real, reported: real)
    requires 0.0 < target && 0.0 <= k <= 1.0 && 0.0 < b
    requires before <= b + 0.0005 && a <= before * k + 0.0005
    requires target - 0.0005 <= applied && applied * k - 0.0005 <= reported
    requires 1000.0 * target * k * b >= 10.0 * b + 9.0 * target
    ensures reported >= a * target / b * 0.9
  {
    var u, v, w := before * k, b * k, target * k;
    ScaleBound(before, b + 0.0005, k);
    assert (b + 0.0005) * k == v + 0.0005 * k;
    assert u <= v + 0.0005 * k;
    assert a <= v + 0.001;
    FloorUpperBound(target, b, a, k);
    ScaleBound(target - 0.0005, applied, k);
    assert (target - 0.0005) * k == w - 0.0005 * k;
    assert applied * k >= w - 0.0005 * k;
    assert reported >= w - 0.001;
    MarginAlgebra(target, b, k);
    var floor, z := a * target / b, target / b;
    assert floor <= w + 0.001 * z;
    assert w - 0.001 >= (w + 0.001 * z) * 0.9 >= floor * 0.9;
  }

  /** The verdict cannot be `failed` while the set points are not tiny compared with the
      thousandths telemetry is rounded to: with b the reported rate before the command,
      1000*target*k*b >= 10*b + 9*target suffices. */
  lemma FloorHoldsWithMargin(target: real, before: real, k: real)
    requires 0.0 < target && 0.0 <= k <= 1.0 && Round3(before) > 0.0
    requires 1000.0 * target * k * Round3(before) >= 10.0 * Round3(before) + 9.0 * target
    ensures !FloorBroken(target, before, k)
  {
    hide Round3;
    Round3Error(before);
    Round3Error(Output(before, k));
    Round3Error(target);
    Round3Error(Output(Round3(target), k));
    RoundedFloorHolds(target, before, k, Round3(before), Round3(Output(before, k)), Round3(target), Round3(Output(Round3(target), k)));
  }

  /** With the margin, a held grinding set point is never judged `failed`: it is `effective` from
      the minimum count on, or `partial` from the maximum on. */
  lemma HeldSetPointNeverFails(c: Command, beats: seq<Heartbeat>, window: Window, target: real, before: real, k: real)
    requires window.Valid() && FreshGrindingCommand(c, target, before, k)
    requires beats != [] && SteadyBeats(beats, Round3(target), k)
    requires 0.0 < target && 0.0 <= k <= 1.0 && Round3(before) > 0.0
    requires 1000.0 * target * k * Round3(before) >= 10.0 * Round3(before) + 9.0 * target
    ensures ObserveAll(c, beats, window).verification
            == if |beats| >= window.min && EffectVisible(target, before, k) then Effective
               else if |beats| >= window.max then Partial
               else Observing
  {
    hide EffectVisible, Round3, FreshGrindingCommand, ObserveAll;
    ClosedLoopVerdict(c, beats, window, target, before, k);
    FloorHoldsWithMargin(target, before, k);
  }

  /** The margin is needed: from 1 part per minute at 90 % load and 1.8 % defects, a set point of
      0.0014 is applied as 0.001, and the loop ends in `failed`. */
  lemma TinySetPointIsFailed(c: Command, beats: seq<Heartbeat>)
    requires FreshGrindingCommand(c, 0.0014, 1.0, Share(0.9, 0.018))
    requires |beats| >= 3 && SteadyBeats(beats, Round3(0.0014), Share(0.9, 0.018))
    ensures ObserveAll(c, beats, DEFAULT_WINDOW).verification.VerdictFailed?
  {
    var k := Share(0.9, 0.018);
    assert k == 0.8838;
    assert Round3(1.0) == 1.0 by { Round3Thousandths(1000); }
    assert Round3(0.0014) == 0.001 by { assert (0.0014 * 1000.0).Floor == 1; }
    assert Round3(0.001 * k) == 0.001 by { assert (0.001 * k * 1000.0).Floor == 0; }
    assert Round3(1.0 * k) == 0.884 by { assert (1.0 * k * 1000.0).Floor == 883; }
    assert FloorBroken(0.0014, 1.0, k);
    ClosedLoopVerdict(c, beats, DEFAULT_WINDOW, 0.0014, 1.0, k);
  }
}
