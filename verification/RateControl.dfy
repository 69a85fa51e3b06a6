/** How a commanded rate acts on physical output: each heartbeat lets through only the share of
    the newly produced parts that the set point allows. */
module RateControl {
  import opened Basics
  import opened RealArithmetic
  import opened Machines

  /** Raw parts seen so far and the (fractional) parts let through. */
  datatype Control = Control(lastRaw: nat, controlled: real)

  /** One heartbeat's raw state. */
  datatype Sample = Sample(raw: nat, load: real, defectRate: real)

  function NominalPerMinute(p: Profile): (r: real)
    requires p.Valid()
    ensures r > 0.0
  {
    p.count as real * 60.0 / p.cycle as real
  }

  function Clamp01(x: real): real { if x < 0.0 then 0.0 else if x > 1.0 then 1.0 else x }

  function Min(x: real, y: real): real { if x <= y then x else y }

  function EffectiveTarget(setPoint: real, s: Sample): real {
    setPoint * Clamp01(s.load) * (1.0 - Clamp01(s.defectRate))
  }

  function Ratio(x: real, nominal: real): real
    requires nominal > 0.0
  {
    x / nominal
  }

  /** The share of new raw output a set point lets through; everything without one. */
  function PassShare(setPoint: Option<real>, s: Sample, nominal: real): real
    requires nominal > 0.0
  {
    if setPoint.None? then 1.0 else Min(1.0, Ratio(EffectiveTarget(setPoint.value, s), nominal))
  }

  function Through(amount: real, share: real): real { amount * share }

  /** A first sample, or a raw counter that went back, restarts the accumulation. */
  function Anchor(control: Option<Control>, s: Sample): Control {
    if control.None? || s.raw < control.value.lastRaw then Control(s.raw, s.raw as real) else control.value
  }

  function Advance(control: Option<Control>, s: Sample, setPoint: Option<real>, nominal: real): Control
    requires nominal > 0.0
  {
    var c := Anchor(control, s);
    Control(s.raw, c.controlled + Through((s.raw - c.lastRaw) as real, PassShare(setPoint, s, nominal)))
  }

  /** Python's round(x) to an integer, ties to even. */
  function RoundInt(x: real): int {
    var down := x.Floor;
    var part := x - down as real;
    if part > 0.5 || (part == 0.5 && down % 2 != 0) then down + 1 else down
  }

  function Truncate(x: real): int { if x >= 0.0 then x.Floor else -((-x).Floor) }

  lemma RoundIntIsNearest(x: real)
    ensures -0.5 <= RoundInt(x) as real - x <= 0.5
  {}

  /** Rounding an expected count and capping it stays within half a part. */
  lemma CappedRounding(most: int, expected: real)
    requires 0.0 <= expected <= most as real
    ensures var rounded := RoundInt(expected);
            -0.5 <= (if most <= rounded then most else rounded) as real - expected <= 0.5
  {
    RoundIntIsNearest(expected);
  }

  function Expected(finished: int, rate: real): real { finished as real * rate }

  lemma ExpectedBounds(finished: int, rate: real)
    requires 0 <= finished && 0.0 <= rate <= 1.0
    ensures 0.0 <= Expected(finished, rate) <= finished as real
  {
    var n := finished as real;
    ScaleBound(0.0, rate, n);
    ScaleBound(rate, 1.0, n);
    assert rate * n == Expected(finished, rate);
  }

  /** What a heartbeat reports of a controlled output: the whole parts in it, and defects within
      half a part of the expected share of them. */
  lemma ReportedCounts(controlled: real, rate: real)
    requires 0.0 <= controlled && 0.0 <= rate <= 1.0
    ensures var finished := Truncate(controlled);
            var rounded := RoundInt(Expected(finished, rate));
            var defects := if finished <= rounded then finished else rounded;
            && finished as real <= controlled < finished as real + 1.0
            && -0.5 <= defects as real - Expected(finished, rate) <= 0.5
  {
    hide Expected, RoundInt;
    ExpectedBounds(Truncate(controlled), rate);
    CappedRounding(Truncate(controlled), Expected(Truncate(controlled), rate));
  }

  predicate Sane(c: Control) { 0.0 <= c.controlled <= c.lastRaw as real }

  class RateController {
    const profile: Profile
    var control: Option<Control>
    var setPoint: Option<real>

    constructor (profile: Profile)
      requires profile.Valid()
      ensures this.profile == profile && control == None && setPoint == None
    {
      this.profile := profile;
      control := None;
      setPoint := None;
    }

    /** apply_rate_control_to_state: the adjusted quantities of one heartbeat. */
    method ApplyRateControl(s: Sample) returns (finished: int, defects: int)
      requires profile.Valid()
      modifies this`control
      ensures control == Some(Advance(old(control), s, setPoint, NominalPerMinute(profile)))
      ensures finished == Truncate(control.value.controlled)
      ensures defects == (var d := RoundInt(Expected(finished, s.defectRate)); if finished <= d then finished else d)
      ensures defects <= finished
    {
      hide RoundInt, Truncate, EffectiveTarget, Ratio, NominalPerMinute;
      var c: Control;
      if control.None? || s.raw < control.value.lastRaw {
        c := Control(s.raw, s.raw as real);
      } else {
        c := control.value;
      }
      var rawDelta := (s.raw - c.lastRaw) as real;
      var delta := rawDelta;
      if setPoint.Some? {
        var nominal := NominalPerMinute(profile);
        var effective := EffectiveTarget(setPoint.value, s);
        delta := Through(rawDelta, Min(1.0, Ratio(effective, nominal)));
      }
      control := Some(Control(s.raw, c.controlled + delta));
      finished := Truncate(c.controlled + delta);
      defects := RoundInt(Expected(finished, s.defectRate));
      if finished <= defects { defects := finished; }
    }
  }

  // ------------------------------------------------------------------- bounds

  lemma ThroughBounds(amount: real, share: real, most: real)
    requires 0.0 <= amount && 0.0 <= share <= most <= 1.0
    ensures 0.0 <= Through(amount, share) <= Through(amount, most) <= amount
  {}

  lemma ThroughSum(x: real, y: real, share: real)
    ensures Through(x, share) + Through(y, share) == Through(x + y, share)
  {}

  lemma EffectiveTargetBounds(setPoint: real, s: Sample)
    requires 0.0 <= setPoint
    ensures 0.0 <= EffectiveTarget(setPoint, s) <= setPoint
  {}

  /** The share lies between nothing and what the set point alone allows. */
  lemma PassShareBounds(setPoint: real, s: Sample, nominal: real)
    requires 0.0 <= setPoint && 0.0 < nominal
    ensures 0.0 <= PassShare(Some(setPoint), s, nominal) <= Min(1.0, Ratio(setPoint, nominal))
  {
    hide EffectiveTarget;
    EffectiveTargetBounds(setPoint, s);
    DivideBound(0.0, EffectiveTarget(setPoint, s), nominal);
    DivideBound(EffectiveTarget(setPoint, s), setPoint, nominal);
  }

  lemma ShareBounds(setPoint: Option<real>, s: Sample, nominal: real)
    requires 0.0 < nominal && (setPoint.Some? ==> 0.0 <= setPoint.value)
    ensures 0.0 <= PassShare(setPoint, s, nominal) <= 1.0
  {}

  /** Controlled output never exceeds raw output and never goes below zero, whatever set point
      is in force, and does not decrease while the raw counter does not. */
  lemma AdvanceIsSane(control: Option<Control>, s: Sample, setPoint: Option<real>, nominal: real)
    requires 0.0 < nominal && (setPoint.Some? ==> 0.0 <= setPoint.value)
    requires control.Some? ==> Sane(control.value)
    ensures Sane(Advance(control, s, setPoint, nominal))
    ensures control.Some? && control.value.lastRaw <= s.raw ==>
              control.value.controlled <= Advance(control, s, setPoint, nominal).controlled
  {
    hide PassShare, Through;
    ShareBounds(setPoint, s, nominal);
    var c := Anchor(control, s);
    var share := PassShare(setPoint, s, nominal);
    ThroughBounds((s.raw - c.lastRaw) as real, share, share);
  }

  // -------------------------------------------------------- a window of heartbeats

  /** The control state after a run of heartbeats under one set point or none, oldest first. */
  function AdvanceAll(control: Control, samples: seq<Sample>, setPoint: Option<real>, nominal: real): Control
    requires nominal > 0.0
  {
    if samples == [] then control
    else
      var last := |samples| - 1;
      Advance(Some(AdvanceAll(control, samples[..last], setPoint, nominal)), samples[last], setPoint, nominal)
  }

  predicate RawNonDecreasing(from: nat, samples: seq<Sample>) {
    && (samples != [] ==> from <= samples[0].raw)
    && forall i, j :: 0 <= i <= j < |samples| ==> samples[i].raw <= samples[j].raw
  }

  function LastRaw(from: nat, samples: seq<Sample>): nat {
    if samples == [] then from else samples[|samples| - 1].raw
  }

  /** Over a window, growth is at most the raw growth times the share of the set point. */
  lemma {:induction false} WindowGrowth(control: Control, samples: seq<Sample>, setPoint: real, nominal: real)
    requires 0.0 <= setPoint && 0.0 < nominal && Sane(control) && RawNonDecreasing(control.lastRaw, samples)
    ensures var after := AdvanceAll(control, samples, Some(setPoint), nominal);
            && after.lastRaw == LastRaw(control.lastRaw, samples) >= control.lastRaw
            && Sane(after)
            && control.controlled <= after.controlled
            && after.controlled - control.controlled
               <= Through((after.lastRaw - control.lastRaw) as real, Min(1.0, Ratio(setPoint, nominal)))
  {
    hide PassShare, Through, Ratio;
    var share := Min(1.0, Ratio(setPoint, nominal));
    if samples != [] {
      var last := |samples| - 1;
      var front, s := samples[..last], samples[last];
      WindowGrowth(control, front, setPoint, nominal);
      var mid := AdvanceAll(control, front, Some(setPoint), nominal);
      assert mid.lastRaw <= s.raw;
      AdvanceIsSane(Some(mid), s, Some(setPoint), nominal);
      PassShareBounds(setPoint, s, nominal);
      ThroughBounds((s.raw - mid.lastRaw) as real, PassShare(Some(setPoint), s, nominal), share);
      ThroughSum((s.raw - mid.lastRaw) as real, (mid.lastRaw - control.lastRaw) as real, share);
      assert (s.raw - mid.lastRaw) as real + (mid.lastRaw - control.lastRaw) as real == (s.raw - control.lastRaw) as real;
    } else {
      RatioNonNegative(setPoint, nominal);
      ThroughBounds(0.0, share, share);
    }
  }

  lemma RatioNonNegative(x: real, nominal: real)
    requires 0.0 <= x && 0.0 < nominal
    ensures 0.0 <= Ratio(x, nominal)
  {}

  /** Samples taken at given elapsed seconds by a workshop whose raw counter is the closed form
      (which both engines produce). */
  predicate TakenAt(p: Profile, samples: seq<Sample>, times: seq<nat>)
    requires p.Valid()
  {
    && |samples| == |times|
    && (forall i :: 0 <= i < |samples| ==> samples[i].raw == ClosedForm(p, times[i]))
    && (forall i, j :: 0 <= i <= j < |times| ==> times[i] <= times[j])
  }

  /** The output of a workshop before rounding down. */
  function Exact(t: real, count: real, cycle: real): real
    requires cycle > 0.0
  {
    t * count / cycle
  }

  lemma FloorOfQuotient(total: real, c: real, q: real, r: real)
    requires 0.0 <= r < c && total == q * c + r
    ensures q <= total / c < q + 1.0
  {
    var exact := total / c;
    assert exact * c == q * c + r;
    assert (q + 1.0) * c == q * c + c;
    if exact < q {
      StrictScale(exact, q, c);
    }
    if exact >= q + 1.0 {
      ScaleBound(q + 1.0, exact, c);
    }
  }

  lemma ClosedFormReal(p: Profile, elapsed: nat)
    requires p.Valid()
    ensures var exact := Exact(elapsed as real, p.count as real, p.cycle as real);
            ClosedForm(p, elapsed) as real <= exact < ClosedForm(p, elapsed) as real + 1.0
  {
    var total := elapsed * p.count;
    var q, r := total / p.cycle, total % p.cycle;
    assert total == q * p.cycle + r;
    assert (q * p.cycle) as real == q as real * p.cycle as real;
    assert total as real == elapsed as real * p.count as real;
    FloorOfQuotient(total as real, p.cycle as real, q as real, r as real);
  }

  lemma ClosedFormMonotone(p: Profile, t1: nat, t2: nat)
    requires p.Valid() && t1 <= t2
    ensures ClosedForm(p, t1) <= ClosedForm(p, t2)
  {
    FiredIff(p, t1, ClosedForm(p, t1));
    Monotone(t1, t2, p.count);
    FiredIff(p, t2, ClosedForm(p, t1));
  }

  lemma ExactGrowth(t1: real, t2: real, n: real, c: real)
    requires 0.0 < c
    ensures Exact(t2, n, c) - Exact(t1, n, c) == (n * 60.0 / c) * ((t2 - t1) / 60.0)
  {
    var q, minutes := n / c, (t2 - t1) / 60.0;
    ProductQuotient(t1, n, c);
    ProductQuotient(t2, n, c);
    ProductQuotient(60.0, n, c);
    assert n * 60.0 == 60.0 * n;
    SixtyMinutes(t1, t2, q);
  }

  lemma SixtyMinutes(t1: real, t2: real, q: real)
    ensures t2 * q - t1 * q == (60.0 * q) * ((t2 - t1) / 60.0)
  {}

  /** Raw output over a window exceeds the nominal capacity by less than one part. */
  lemma RawGrowth(p: Profile, t1: nat, t2: nat)
    requires p.Valid() && t1 <= t2
    ensures (ClosedForm(p, t2) - ClosedForm(p, t1)) as real
            < NominalPerMinute(p) * ((t2 - t1) as real / 60.0) + 1.0
  {
    hide ClosedForm, Exact;
    ClosedFormReal(p, t1);
    ClosedFormReal(p, t2);
    ExactGrowth(t1 as real, t2 as real, p.count as real, p.cycle as real);
    assert (t2 - t1) as real == t2 as real - t1 as real;
  }

  /** From raw growth to controlled growth: scaling by the set point's share keeps the bound
      below one part over the commanded amount. */
  lemma ShareOfGrowth(raw: real, minutes: real, setPoint: real, nominal: real)
    requires 0.0 <= raw < nominal * minutes + 1.0 && 0.0 <= minutes && 0.0 <= setPoint && 0.0 < nominal
    ensures Through(raw, Min(1.0, Ratio(setPoint, nominal))) < setPoint * minutes + 1.0
  {
    hide Ratio;
    var ratio := Ratio(setPoint, nominal);
    RatioFacts(setPoint, nominal);
    if setPoint >= nominal {
      ScaleBound(nominal, setPoint, minutes);
      assert Through(raw, 1.0) == raw;
    } else {
      ScaledGrowth(raw, minutes, nominal, ratio);
    }
  }

  lemma RatioFacts(setPoint: real, nominal: real)
    requires 0.0 <= setPoint && 0.0 < nominal
    ensures var ratio := Ratio(setPoint, nominal);
            && 0.0 <= ratio && ratio * nominal == setPoint
            && (if setPoint >= nominal then ratio >= 1.0 else ratio <= 1.0)
  {
    RatioNonNegative(setPoint, nominal);
    SelfQuotient(nominal);
    if setPoint >= nominal { DivideBound(nominal, setPoint, nominal); } else { DivideBound(setPoint, nominal, nominal); }
  }

  lemma ScaledGrowth(raw: real, minutes: real, nominal: real, ratio: real)
    requires 0.0 <= raw < nominal * minutes + 1.0 && 0.0 <= minutes && 0.0 <= ratio <= 1.0
    ensures raw * ratio < (ratio * nominal) * minutes + 1.0
  {
    ScaledStep(raw, nominal * minutes, ratio);
    assert (nominal * minutes) * ratio == (ratio * nominal) * minutes;
  }

  lemma ScaledStep(raw: real, x: real, ratio: real)
    requires 0.0 <= raw < x + 1.0 && 0.0 <= ratio <= 1.0
    ensures raw * ratio < x * ratio + 1.0
  {
    if ratio == 0.0 {
      assert raw * ratio == 0.0 && x * ratio == 0.0;
    } else {
      var gap := x + 1.0 - raw;
      Positive(gap, ratio);
      var scaledRaw, scaledX, scaledGap := raw * ratio, x * ratio, gap * ratio;
      assert scaledGap == scaledX + ratio - scaledRaw;
      assert 0.0 < scaledGap;
      assert scaledRaw < scaledX + 1.0;
    }
  }

  lemma TimesGiveNonDecreasing(p: Profile, from: nat, samples: seq<Sample>, times: seq<nat>)
    requires p.Valid() && TakenAt(p, samples, times)
    requires times != [] ==> from <= times[0]
    ensures RawNonDecreasing(ClosedForm(p, from), samples)
  {
    if samples != [] {
      ClosedFormMonotone(p, from, times[0]);
    }
    forall i, j | 0 <= i <= j < |samples|
      ensures samples[i].raw <= samples[j].raw
    {
      ClosedFormMonotone(p, times[i], times[j]);
    }
  }

  /** The commanded rate bounds physical output: while set point r is held over any window of
      heartbeats, controlled output grows by less than r times the minutes elapsed, plus one
      part; it never falls and never exceeds raw output. */
  lemma CommandedRateBoundsOutput(p: Profile, control: Control, from: nat, samples: seq<Sample>, times: seq<nat>, r: real)
    requires p.Valid() && 0.0 <= r && Sane(control) && control.lastRaw == ClosedForm(p, from)
    requires samples != [] && TakenAt(p, samples, times) && from <= times[0]
    ensures var after := AdvanceAll(control, samples, Some(r), NominalPerMinute(p));
            var minutes := (times[|times| - 1] - from) as real / 60.0;
            && control.controlled <= after.controlled < control.controlled + r * minutes + 1.0
            && after.controlled <= after.lastRaw as real
            && after.lastRaw == ClosedForm(p, times[|times| - 1])
  {
    hide ClosedForm, NominalPerMinute, Min, AdvanceAll, Through, Ratio;
    var nominal := NominalPerMinute(p);
    var to := times[|times| - 1];
    assert from <= times[0] <= to;
    TimesGiveNonDecreasing(p, from, samples, times);
    WindowGrowth(control, samples, r, nominal);
    ClosedFormMonotone(p, from, to);
    RawGrowth(p, from, to);
    ShareOfGrowth((ClosedForm(p, to) - ClosedForm(p, from)) as real, (to - from) as real / 60.0, r, nominal);
  }

  // ------------------------------------------------------------- the exact growth

  /** Heartbeats at one load and one defect rate. */
  predicate Steady(samples: seq<Sample>, load: real, defectRate: real) {
    forall i :: 0 <= i < |samples| ==> samples[i].load == load && samples[i].defectRate == defectRate
  }

  /** One heartbeat lets through what the given share allows, when that is the share in force. */
  lemma AdvanceByShare(control: Control, s: Sample, setPoint: Option<real>, nominal: real, share: real)
    requires nominal > 0.0 && control.lastRaw <= s.raw && PassShare(setPoint, s, nominal) == share
    ensures var after := Advance(Some(control), s, setPoint, nominal);
            after.lastRaw == s.raw && after.controlled == control.controlled + Through((s.raw - control.lastRaw) as real, share)
  {
    hide PassShare, Through;
  }

  lemma {:induction false} GrowthByShare(control: Control, samples: seq<Sample>, setPoint: Option<real>, nominal: real, share: real)
    requires nominal > 0.0 && RawNonDecreasing(control.lastRaw, samples)
    requires forall i :: 0 <= i < |samples| ==> PassShare(setPoint, samples[i], nominal) == share
    ensures var after := AdvanceAll(control, samples, setPoint, nominal);
            && after.lastRaw == LastRaw(control.lastRaw, samples) >= control.lastRaw
            && after.controlled == control.controlled + Through((after.lastRaw - control.lastRaw) as real, share)
  {
    hide PassShare, Advance, Through;
    if samples == [] {
      assert Through(0.0, share) == 0.0 by { NothingThrough(share); }
    } else {
      var last := |samples| - 1;
      var front, s := samples[..last], samples[last];
      GrowthByShare(control, front, setPoint, nominal, share);
      var mid := AdvanceAll(control, front, setPoint, nominal);
      AdvanceByShare(mid, s, setPoint, nominal, share);
      ThroughSum((mid.lastRaw - control.lastRaw) as real, (s.raw - mid.lastRaw) as real, share);
      assert (mid.lastRaw - control.lastRaw) as real + (s.raw - mid.lastRaw) as real == (s.raw - control.lastRaw) as real;
    }
  }

  lemma NothingThrough(share: real)
    ensures Through(0.0, share) == 0.0
  {}

  lemma SteadyShare(r: real, s: Sample, nominal: real)
    requires nominal > 0.0 && 0.0 <= s.load <= 1.0 && 0.0 <= s.defectRate <= 1.0
    ensures PassShare(Some(r), s, nominal) == Min(1.0, r * s.load * (1.0 - s.defectRate) / nominal)
  {}

  /** Output follows the set point exactly: at load u and defect rate d, growth over any window
      is raw growth times r*u*(1-d)/nominal, or all of it when the set point asks for more than
      the nominal rate, or when there is no set point. */
  lemma GrowthIsExact(control: Control, samples: seq<Sample>, r: real, u: real, d: real, nominal: real)
    requires nominal > 0.0 && RawNonDecreasing(control.lastRaw, samples)
    requires Steady(samples, u, d) && 0.0 <= u <= 1.0 && 0.0 <= d <= 1.0
    ensures var raw := (LastRaw(control.lastRaw, samples) - control.lastRaw) as real;
            && AdvanceAll(control, samples, None, nominal).controlled == control.controlled + raw
            && AdvanceAll(control, samples, Some(r), nominal).controlled
               == control.controlled + (if r * u * (1.0 - d) <= nominal then raw * (r * u * (1.0 - d) / nominal) else raw)
  {
    hide AdvanceAll, LastRaw;
    var wanted := r * u * (1.0 - d);
    var share := Min(1.0, wanted / nominal);
    forall i | 0 <= i < |samples|
      ensures PassShare(Some(r), samples[i], nominal) == share && PassShare(None, samples[i], nominal) == 1.0
    {
      SteadyShare(r, samples[i], nominal);
    }
    hide PassShare;
    GrowthByShare(control, samples, Some(r), nominal, share);
    GrowthByShare(control, samples, None, nominal, 1.0);
    SelfQuotient(nominal);
    if wanted <= nominal { DivideBound(wanted, nominal, nominal); } else { DivideBound(nominal, wanted, nominal); }
  }

  /** A raw counter that went back, or a first heartbeat, restarts the count at the raw value. */
  lemma RestartsAtRaw(control: Option<Control>, s: Sample, setPoint: Option<real>, nominal: real)
    requires nominal > 0.0 && (control.None? || s.raw < control.value.lastRaw)
    ensures Advance(control, s, setPoint, nominal) == Control(s.raw, s.raw as real)
  {
    NothingThrough(PassShare(setPoint, s, nominal));
  }

  /** Raw output over a window falls short of the nominal capacity by less than one part. */
  lemma RawGrowthAtLeast(p: Profile, t1: nat, t2: nat)
    requires p.Valid() && t1 <= t2
    ensures (ClosedForm(p, t2) - ClosedForm(p, t1)) as real
            > NominalPerMinute(p) * ((t2 - t1) as real / 60.0) - 1.0
  {
    hide ClosedForm, Exact;
    ClosedFormReal(p, t1);
    ClosedFormReal(p, t2);
    ExactGrowth(t1 as real, t2 as real, p.count as real, p.cycle as real);
    assert (t2 - t1) as real == t2 as real - t1 as real;
  }

  lemma ShareOfAtLeast(raw: real, minutes: real, wanted: real, nominal: real)
    requires raw > nominal * minutes - 1.0 && 0.0 <= wanted <= nominal && 0.0 < nominal
    ensures raw * (wanted / nominal) > wanted * minutes - 1.0
  {
    var share := wanted / nominal;
    RatioFacts(wanted, nominal);
    assert share * nominal == wanted;
    SelfQuotient(nominal);
    DivideBound(wanted, nominal, nominal);
    ScaledAtLeast(raw, nominal * minutes, share);
    assert (nominal * minutes) * share == (share * nominal) * minutes;
  }

  lemma ScaledAtLeast(raw: real, x: real, share: real)
    requires raw > x - 1.0 && 0.0 <= share <= 1.0
    ensures raw * share > x * share - 1.0
  {
    if share == 0.0 {
      assert raw * share == 0.0 && x * share == 0.0;
    } else {
      StrictScale(x - 1.0, raw, share);
      var scaledX, scaledRaw := x * share, raw * share;
      assert (x - 1.0) * share == scaledX - share;
      assert scaledRaw > scaledX - share;
    }
  }

  /** The commanded rate is met: while r is held at load u and defect rate d, output over any
      window grows by more than r*u*(1-d) times the minutes elapsed, less one part. */
  lemma CommandedRateIsMet(p: Profile, control: Control, from: nat, samples: seq<Sample>, times: seq<nat>, r: real, u: real, d: real)
    requires p.Valid() && control.lastRaw == ClosedForm(p, from)
    requires samples != [] && TakenAt(p, samples, times) && from <= times[0]
    requires Steady(samples, u, d) && 0.0 <= u <= 1.0 && 0.0 <= d <= 1.0
    requires 0.0 <= r * u * (1.0 - d) <= NominalPerMinute(p)
    ensures var minutes := (times[|times| - 1] - from) as real / 60.0;
            AdvanceAll(control, samples, Some(r), NominalPerMinute(p)).controlled
            > control.controlled + r * u * (1.0 - d) * minutes - 1.0
  {
    hide ClosedForm, NominalPerMinute, AdvanceAll;
    var nominal := NominalPerMinute(p);
    var to := times[|times| - 1];
    var wanted := r * u * (1.0 - d);
    assert from <= times[0] <= to;
    TimesGiveNonDecreasing(p, from, samples, times);
    GrowthIsExact(control, samples, r, u, d, nominal);
    ClosedFormMonotone(p, from, to);
    RawGrowthAtLeast(p, from, to);
    ShareOfAtLeast((ClosedForm(p, to) - ClosedForm(p, from)) as real, (to - from) as real / 60.0, wanted, nominal);
  }
}
