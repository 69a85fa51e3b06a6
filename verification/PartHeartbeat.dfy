/** Heartbeat-driven flow: how many parts a reported counter creates or completes. */
module PartHeartbeat {
  import opened Basics
  import opened Retention
  import opened PartQueue
  import M = Models
  import opened PartFlow
  import opened PartFlowSafety

  // ---------------------------------------------------------- consuming ready parts

  function Min(a: nat, b: nat): nat { if a <= b then a else b }

  function IsReady(node: M.Node, run: string): Part -> bool { (p: Part) => ReadyFor(p, node, run) }

  /** The parts a heartbeat can consume: ready for the node in the current run, once the claims
      that have expired by now are given back. */
  function ReadyCount(q: seq<Part>, node: M.Node, run: string, now: int): nat {
    Count(ReleaseAll(q, run, now), IsReady(node, run))
  }

  predicate Workstation(node: M.Node) { node == M.Milling || node == M.Grinding }

  /** A retained window: numbered without gaps, bounded, each part at the station of its step. */
  predicate Window(s: Queue) {
    && |s.parts| <= RETAINED_PARTS && |s.parts| <= s.issued
    && forall i :: 0 <= i < |s.parts| ==> s.parts[i].id == s.issued - |s.parts| + 1 + i && AtStation(s.parts[i])
  }

  predicate Settled(q: seq<Part>, run: string, now: int) {
    forall i :: 0 <= i < |q| ==> !ExpiredClaim(q[i], run, now)
  }

  lemma ReleaseSettles(q: seq<Part>, run: string, now: int)
    ensures Settled(ReleaseAll(q, run, now), run, now)
  {}

  lemma SettledStays(q: seq<Part>, run: string, now: int)
    requires Settled(q, run, now)
    ensures ReleaseAll(q, run, now) == q
  {}

  /** A part that a workstation completes never comes back to that workstation. */
  lemma DownstreamElsewhere(p: Part, node: M.Node, id: nat)
    requires AtStation(p) && p.target == node && Workstation(node)
    ensures var child := Downstream(p, node, id);
            |child| <= 1 && (child != [] ==> child[0].target != node && child[0].status.Ready? && child[0].id == id && AtStation(child[0]))
  {
    hide Remaining, NextStep;
    if Downstream(p, node, id) != [] {
      DownstreamShrinks(p, node, id);
      if node == M.Grinding { GrindingIsLast(p); } else { MillingLeaves(p); }
    }
  }

  lemma MillingLeaves(p: Part)
    ensures NextStep(p, M.Milling).Some? ==> NextStep(p, M.Milling).value.1 == M.Grinding
  {
    var at := PlaceInRoute(p.product, p.step);
    if at.Some? { TakeOverLeavesMilling(Route(p.product)[at.value + 1..]); }
  }

  lemma {:induction false} TakeOverLeavesMilling(rest: seq<Operation>)
    ensures TakeOver(rest, M.Milling).Some? ==> TakeOver(rest, M.Milling).value.1 == M.Grinding
  {
    if rest == [] {
    } else {
      TakeOverLeavesMilling(rest[1..]);
    }
  }

  /** One round of the loop: claim the first ready part and complete it. */
  function Round(s: Queue, node: M.Node, run: string, now: int, token: nat): Option<Queue> {
    var at := NextReady(ReleaseAll(s.parts, run, now), node, run);
    var claimed := s.(parts := ClaimNext(s.parts, node, run, 30, now, token));
    if at.None? || at.value >= |claimed.parts|
       || CompletionError(claimed.parts, node, claimed.parts[at.value].id, token).Some? then None
    else Some(CompleteStep(claimed, node, claimed.parts[at.value].id, token))
  }

  /** The first ready part, claimed and completed. */
  function Consumed(p: Part, node: M.Node, token: nat, now: int): Part {
    CompleteOne(ClaimOne(p, node, token, 30, now))
  }

  lemma ConsumedFacts(p: Part, node: M.Node, token: nat, run: string, now: int)
    ensures var c := Consumed(p, node, token, now);
            && c.id == p.id && (AtStation(p) ==> AtStation(c))
            && !ReadyFor(c, node, run) && !ExpiredClaim(c, run, now)
  {}

  lemma ReleaseFacts(q: seq<Part>, run: string, now: int)
    ensures |ReleaseAll(q, run, now)| == |q|
    ensures forall i :: 0 <= i < |q| ==> ReleaseAll(q, run, now)[i].id == q[i].id
    ensures forall i :: 0 <= i < |q| && AtStation(q[i]) ==> AtStation(ReleaseAll(q, run, now)[i])
  {}

  /** With a ready part and a real token both calls succeed, on the first ready part. */
  lemma RoundSucceeds(s: Queue, node: M.Node, run: string, now: int, token: nat)
    requires Window(s) && token != 0
    requires NextReady(ReleaseAll(s.parts, run, now), node, run).Some?
    ensures var released := ReleaseAll(s.parts, run, now);
            var at := NextReady(released, node, run).value;
            var p := ClaimOne(released[at], node, token, 30, now);
            var t := Round(s, node, run, now, token);
            && t.Some? && t.value.parts == LastN(released[at := CompleteOne(p)] + Downstream(p, node, s.issued + 1), RETAINED_PARTS)
            && t.value.issued == s.issued + |Downstream(p, node, s.issued + 1)|
  {
    hide Downstream, AtStation, LastN, NextReady, ReleaseAll, CompleteOne;
    ReleaseFacts(s.parts, run, now);
    var released := ReleaseAll(s.parts, run, now);
    var at := NextReady(released, node, run).value;
    var p := ClaimOne(released[at], node, token, 30, now);
    var claimed := released[at := p];
    assert ClaimNext(s.parts, node, run, 30, now, token) == claimed;
    assert forall i :: 0 <= i < |claimed| ==> claimed[i].id == s.parts[i].id;
    assert ById(claimed, p.id) == Some(at);
    DownstreamIsShort(p, node, s.issued + 1);
    assert claimed[at := CompleteOne(p)] == released[at := CompleteOne(p)];
    ShortListStays(released[at := CompleteOne(p)] + Downstream(p, node, s.issued + 1), |s.parts|);
  }

  lemma ShortListStays(q: seq<Part>, n: nat)
    requires n <= RETAINED_PARTS
    ensures |q| == n ==> LastN(q, RETAINED_PARTS) == q
  {}

  /** Appending at most one part, then trimming, keeps the window a window. */
  lemma TrimKeepsWindow(q: seq<Part>, last: nat)
    requires |q| <= last && forall i :: 0 <= i < |q| ==> q[i].id == last - |q| + 1 + i && AtStation(q[i])
    ensures Window(Queue(LastN(q, RETAINED_PARTS), last))
  {}

  /** What falls out of the queue was not ready, so the ready count survives the trim. */
  lemma TrimKeepsReady(q: seq<Part>, node: M.Node, run: string)
    requires |q| <= RETAINED_PARTS + 1 && (|q| > RETAINED_PARTS ==> !ReadyFor(q[0], node, run))
    ensures Count(LastN(q, RETAINED_PARTS), IsReady(node, run)) == Count(q, IsReady(node, run))
  {}

  /** One round: the window stays a window, with one ready part less. */
  lemma RoundConsumesOne(s: Queue, node: M.Node, run: string, now: int, token: nat)
    requires Window(s) && Workstation(node) && token != 0
    requires NextReady(ReleaseAll(s.parts, run, now), node, run).Some?
    ensures var t := Round(s, node, run, now, token);
            && t.Some? && Window(t.value)
            && ReadyCount(t.value.parts, node, run, now) + 1 == ReadyCount(s.parts, node, run, now)
  {
    hide ReleaseAll, Downstream, CompleteOne, ClaimOne, AtStation, LastN, Round, ExpiredClaim, Settled, ReadyFor, RETAINED_PARTS;
    RoundSucceeds(s, node, run, now, token);
    ReleaseFacts(s.parts, run, now);
    ReleaseSettles(s.parts, run, now);
    var released := ReleaseAll(s.parts, run, now);
    var at := NextReady(released, node, run).value;
    var p := ClaimOne(released[at], node, token, 30, now);
    var child := Downstream(p, node, s.issued + 1);
    ChildFacts(released[at], node, token, run, now, s.issued + 1);
    ConsumedFacts(released[at], node, token, run, now);
    var marked := released[at := CompleteOne(p)];
    var list := marked + child;
    CountUpdate(released, at, CompleteOne(p), IsReady(node, run));
    CountAppend(marked, child, IsReady(node, run));
    TrimKeepsWindow(list, s.issued + |child|);
    TrimKeepsReady(list, node, run);
    SettledList(released, at, CompleteOne(p), child, run, now);
    SettledStays(LastN(list, RETAINED_PARTS), run, now);
  }

  lemma ChildFacts(ready: Part, node: M.Node, token: nat, run: string, now: int, id: nat)
    requires AtStation(ready) && ReadyFor(ready, node, run) && Workstation(node)
    ensures var child := Downstream(ClaimOne(ready, node, token, 30, now), node, id);
            && |child| <= 1 && Settled(child, run, now) && Count(child, IsReady(node, run)) == 0
            && (child != [] ==> child[0].id == id && AtStation(child[0]))
  {
    hide Downstream;
    DownstreamElsewhere(ClaimOne(ready, node, token, 30, now), node, id);
  }

  lemma SettledList(q: seq<Part>, at: nat, x: Part, child: seq<Part>, run: string, now: int)
    requires Settled(q, run, now) && at < |q| && !ExpiredClaim(x, run, now) && Settled(child, run, now)
    ensures Settled(LastN(q[at := x] + child, RETAINED_PARTS), run, now)
  {}

  lemma {:induction false} NoneReady(q: seq<Part>, node: M.Node, run: string)
    ensures NextReady(q, node, run).None? <==> Count(q, IsReady(node, run)) == 0
  {
    CountIsZeroIff(q, IsReady(node, run));
  }

  lemma {:induction false} CountIsZeroIff(q: seq<Part>, p: Part -> bool)
    ensures Count(q, p) == 0 <==> forall i :: 0 <= i < |q| ==> !p(q[i])
  {
    if q == [] {
    } else {
      CountIsZeroIff(q[1..], p);
      assert forall i :: 1 <= i < |q| ==> q[i] == q[1..][i - 1];
    }
  }

  /** A milling or grinding heartbeat completes exactly as many parts as were reported or were
      ready, whichever is less. */
  lemma {:induction false} DrainCompletesMin(s: Queue, node: M.Node, run: string, now: int, tokens: seq<nat>, n: nat)
    requires Window(s) && Workstation(node) && n <= |tokens|
    requires forall k :: 0 <= k < n ==> tokens[k] != 0
    ensures Drain(s, node, run, now, tokens, n).1 == Min(n, ReadyCount(s.parts, node, run, now))
    ensures Window(Drain(s, node, run, now, tokens, n).0)
    decreases n
  {
    hide Window, CompletionError, ClaimNext, CompleteStep, ReleaseAll;
    if n == 0 {
    } else {
      NoneReady(ReleaseAll(s.parts, run, now), node, run);
      if NextReady(ReleaseAll(s.parts, run, now), node, run).Some? {
        RoundConsumesOne(s, node, run, now, tokens[0]);
        var t := Round(s, node, run, now, tokens[0]).value;
        DrainCompletesMin(t, node, run, now, tokens[1..], n - 1);
      } else {
        EmptyClaimKeepsWindow(s, node, run, now, tokens[0]);
      }
    }
  }

  lemma EmptyClaimKeepsWindow(s: Queue, node: M.Node, run: string, now: int, token: nat)
    requires Window(s) && NextReady(ReleaseAll(s.parts, run, now), node, run).None?
    ensures Window(s.(parts := ClaimNext(s.parts, node, run, 30, now, token)))
  {}

  /** In every run of the queue the retained list is such a window, so the statement holds of
      every heartbeat that can arrive; input ran out exactly when fewer were ready. */
  lemma HeartbeatCompletesMin(actions: seq<Action>, node: M.Node, run: string, now: int, tokens: seq<nat>, delta: nat)
    requires Workstation(node) && delta <= |tokens| && forall k :: 0 <= k < delta ==> tokens[k] != 0
    ensures var s := Run(actions);
            var completed := Drain(Queue(Live(s), |s.all|), node, run, now, tokens, delta).1;
            && completed == Min(delta, ReadyCount(Live(s), node, run, now))
            && (completed < delta <==> ReadyCount(Live(s), node, run, now) < delta)
  {
    hide Run, Drain, ReadyCount, LogOk, AtStation, ParentOk;
    RunKeepsInv(actions);
    var s := Run(actions);
    WindowIsSuffix(s.all, RETAINED_PARTS);
    DrainCompletesMin(Queue(Live(s), |s.all|), node, run, now, tokens, delta);
  }

  // -------------------------------------------------- heartbeats are runs of the queue

  function QueueOf(s: Flow): Queue { Queue(Live(s), |s.all|) }

  /** Random tokens: never handed out before, and not repeated. */
  predicate FreshTokens(log: seq<Event>, tokens: seq<nat>) {
    && (forall k :: 0 <= k < |tokens| ==> Fresh(log, tokens[k]))
    && (forall j, k :: 0 <= j < k < |tokens| ==> tokens[j] != tokens[k])
  }

  lemma ClaimOnlyUsesItsToken(s: Flow, node: M.Node, run: string, now: int, token: nat, other: nat)
    requires Fresh(s.log, other) && other != token
    ensures Fresh(Next(s, Claim(node, run, 30, now, token)).log, other)
  {
    hide ReleaseUpTo, NextReady;
    ReleaseAddsNoClaim(s, run, now, |s.all|, other);
  }

  lemma CompletionUsesNoToken(s: Flow, node: M.Node, id: nat, token: nat, other: nat)
    requires Fresh(s.log, other)
    ensures Fresh(Next(s, Complete(node, id, token)).log, other)
  {}

  lemma ClaimAddsNoPart(s: Flow, node: M.Node, run: string, now: int, token: nat)
    ensures |Next(s, Claim(node, run, 30, now, token)).all| == |s.all|
  {}

  lemma RunStep(actions: seq<Action>, a: Action)
    ensures Run(actions + [a]) == Next(Run(actions), a)
  {}

  lemma ClaimStep(actions: seq<Action>, node: M.Node, run: string, now: int, tokens: seq<nat>)
    requires tokens != [] && FreshTokens(Run(actions).log, tokens)
    ensures var s := Run(actions);
            var t := Run(actions + [Claim(node, run, 30, now, tokens[0])]);
            && QueueOf(t) == QueueOf(s).(parts := ClaimNext(Live(s), node, run, 30, now, tokens[0]))
            && FreshTokens(t.log, tokens[1..])
  {
    hide Run, Next, Fresh, ClaimNext;
    var s := Run(actions);
    RunStep(actions, Claim(node, run, 30, now, tokens[0]));
    ClaimOnHistory(s, node, run, 30, now, tokens[0]);
    ClaimAddsNoPart(s, node, run, now, tokens[0]);
    forall k | 0 <= k < |tokens[1..]|
      ensures Fresh(Next(s, Claim(node, run, 30, now, tokens[0])).log, tokens[1..][k])
    {
      ClaimOnlyUsesItsToken(s, node, run, now, tokens[0], tokens[k + 1]);
    }
  }

  lemma CompletionStep(actions: seq<Action>, node: M.Node, id: nat, token: nat, tokens: seq<nat>)
    requires FreshTokens(Run(actions).log, tokens)
    requires CompletionError(Live(Run(actions)), node, id, token).None?
    ensures var t := Run(actions + [Complete(node, id, token)]);
            && QueueOf(t) == CompleteStep(QueueOf(Run(actions)), node, id, token)
            && FreshTokens(t.log, tokens)
  {
    hide Run, Next, Fresh, CompletionError, CompleteStep;
    var s := Run(actions);
    RunStep(actions, Complete(node, id, token));
    CompleteOnHistory(s, node, id, token);
    forall k | 0 <= k < |tokens|
      ensures Fresh(Next(s, Complete(node, id, token)).log, tokens[k])
    {
      CompletionUsesNoToken(s, node, id, token, tokens[k]);
    }
  }

  /** A consuming heartbeat takes the queue where some run of claims and completions takes it,
      so everything proved of runs holds after heartbeats too. */
  lemma {:induction false} DrainIsRun(actions: seq<Action>, node: M.Node, run: string, now: int, tokens: seq<nat>, n: nat)
    returns (longer: seq<Action>)
    requires n <= |tokens| && FreshTokens(Run(actions).log, tokens)
    ensures actions <= longer
    ensures QueueOf(Run(longer)) == Drain(QueueOf(Run(actions)), node, run, now, tokens, n).0
    decreases n
  {
    hide Run, FreshTokens, CompletionError, ClaimNext, CompleteStep, ReleaseAll, NextReady, Live;
    longer := actions;
    if n == 0 {
    } else {
      var s := Run(actions);
      ClaimStep(actions, node, run, now, tokens);
      longer := actions + [Claim(node, run, 30, now, tokens[0])];
      var claimed := QueueOf(Run(longer));
      var at := NextReady(ReleaseAll(Live(s), run, now), node, run);
      if at.Some? {
        ClaimedInRange(Live(s), node, run, now, tokens[0]);
        var id := claimed.parts[at.value].id;
        if CompletionError(claimed.parts, node, id, tokens[0]).None? {
          CompletionStep(longer, node, id, tokens[0], tokens[1..]);
          longer := DrainIsRun(longer + [Complete(node, id, tokens[0])], node, run, now, tokens[1..], n - 1);
        }
      }
    }
  }

  lemma ClaimedInRange(q: seq<Part>, node: M.Node, run: string, now: int, token: nat)
    requires NextReady(ReleaseAll(q, run, now), node, run).Some?
    ensures NextReady(ReleaseAll(q, run, now), node, run).value < |ClaimNext(q, node, run, 30, now, token)|
  {}

  lemma {:induction false} CreateRootsIsRun(actions: seq<Action>, run: string, order: string, product: Product, n: nat)
    returns (longer: seq<Action>)
    ensures actions <= longer
    ensures QueueOf(Run(longer)) == CreateRoots(QueueOf(Run(actions)), run, order, product, n)
    decreases n
  {
    hide Run, Next, CreateRoot;
    longer := actions;
    if n == 0 {
    } else {
      longer := CreateRootsIsRun(actions, run, order, product, n - 1);
      RunStep(longer, CreatePart(run, order, product));
      CreateOnHistory(Run(longer), run, order, product);
      longer := longer + [CreatePart(run, order, product)];
    }
  }

  // ------------------------------------------------------------- creating root parts

  /** The queue after the turning workshop reported these counters one after the other. */
  function TurningRun(s: Queue, watermark: Option<int>, counters: seq<int>, run: string, order: string, product: Product): Queue
    decreases |counters|
  {
    if counters == [] then s
    else TurningRun(CreateRoots(s, run, order, product, ReportedDelta(watermark, counters[0])),
                    Some(counters[0]), counters[1..], run, order, product)
  }

  predicate Nondecreasing(c: seq<int>) { forall i, j :: 0 <= i <= j < |c| ==> c[i] <= c[j] }

  /** No report is more than 20 above the one before it. */
  predicate NoLongJump(c: seq<int>) { |c| < 2 || (c[1] - c[0] <= 20 && NoLongJump(c[1..])) }

  lemma {:induction false} CreateRootsIssues(s: Queue, run: string, order: string, product: Product, n: nat)
    ensures CreateRoots(s, run, order, product, n).issued == s.issued + n
    decreases n
  {
    if n == 0 {
    } else {
      CreateRootsIssues(s, run, order, product, n - 1);
    }
  }

  lemma {:induction false} TurningFrom(s: Queue, from: int, counters: seq<int>, run: string, order: string, product: Product)
    requires Nondecreasing([from] + counters)
    ensures var made := TurningRun(s, Some(from), counters, run, order, product).issued - s.issued;
            var all := [from] + counters;
            && made <= all[|all| - 1] - from
            && (made == all[|all| - 1] - from <==> NoLongJump(all))
    decreases |counters|
  {
    if counters == [] {
    } else {
      var all := [from] + counters;
      assert all[1..] == [counters[0]] + counters[1..] == counters;
      assert all[0] == from && forall i :: 0 <= i < |counters| ==> counters[i] == all[i + 1];
      var delta := ReportedDelta(Some(from), counters[0]);
      CreateRootsIssues(s, run, order, product, delta);
      TurningFrom(CreateRoots(s, run, order, product, delta), counters[0], counters[1..], run, order, product);
    }
  }

  /** From the first report on, turning creates at most last - first parts, and exactly that
      many when and only when no single report jumps by more than 20. */
  lemma TurningCreatesAtMost(s: Queue, counters: seq<int>, run: string, order: string, product: Product)
    requires counters != [] && Nondecreasing(counters)
    ensures var made := TurningRun(s, None, counters, run, order, product).issued - s.issued;
            && 0 <= made <= counters[|counters| - 1] - counters[0]
            && (made == counters[|counters| - 1] - counters[0] <==> NoLongJump(counters))
  {
    assert counters == [counters[0]] + counters[1..];
    assert CreateRoots(s, run, order, product, ReportedDelta(None, counters[0])) == s;
    TurningFrom(s, counters[0], counters[1..], run, order, product);
    TurningOnlyCreates(s, None, counters, run, order, product);
  }

  lemma {:induction false} TurningOnlyCreates(s: Queue, watermark: Option<int>, counters: seq<int>, run: string, order: string, product: Product)
    ensures TurningRun(s, watermark, counters, run, order, product).issued >= s.issued
    decreases |counters|
  {
    if counters == [] {
    } else {
      var delta := ReportedDelta(watermark, counters[0]);
      CreateRootsIssues(s, run, order, product, delta);
      TurningOnlyCreates(CreateRoots(s, run, order, product, delta), Some(counters[0]), counters[1..], run, order, product);
    }
  }

  // -------------------------------------------------------------- any counter at all

  /** What a counter counts for: each rise, up to 20 at a time; falls count for nothing. */
  function CappedGrowth(c: seq<int>): nat {
    if |c| < 2 then 0
    else (if c[1] <= c[0] then 0 else if c[1] - c[0] < 20 then c[1] - c[0] else 20) + CappedGrowth(c[1..])
  }

  lemma {:induction false} TurningCreatesFrom(s: Queue, from: int, counters: seq<int>, run: string, order: string, product: Product)
    ensures TurningRun(s, Some(from), counters, run, order, product).issued == s.issued + CappedGrowth([from] + counters)
    decreases |counters|
  {
    if counters == [] {
    } else {
      var all := [from] + counters;
      assert all[1..] == [counters[0]] + counters[1..];
      var delta := ReportedDelta(Some(from), counters[0]);
      CreateRootsIssues(s, run, order, product, delta);
      TurningCreatesFrom(CreateRoots(s, run, order, product, delta), counters[0], counters[1..], run, order, product);
    }
  }

  /** For every sequence of reports, also with restarts of the counter, turning creates exactly the
      capped growth. */
  lemma TurningCreatesExactly(s: Queue, counters: seq<int>, run: string, order: string, product: Product)
    requires counters != []
    ensures TurningRun(s, None, counters, run, order, product).issued == s.issued + CappedGrowth(counters)
  {
    assert counters == [counters[0]] + counters[1..];
    assert CreateRoots(s, run, order, product, ReportedDelta(None, counters[0])) == s;
    TurningCreatesFrom(s, counters[0], counters[1..], run, order, product);
  }

  /** A milling or grinding heartbeat that moves the counter from one report to the next completes
      the growth, capped at 20, or what is ready, whichever is less. */
  lemma StationCompletesExactly(actions: seq<Action>, node: M.Node, run: string, now: int, tokens: seq<nat>, previous: int, finished: int)
    requires Workstation(node) && |tokens| >= 20 && forall k :: 0 <= k < |tokens| ==> tokens[k] != 0
    ensures ReportedDelta(Some(previous), finished) <= |tokens|
    ensures var s := Run(actions);
            Drain(Queue(Live(s), |s.all|), node, run, now, tokens, ReportedDelta(Some(previous), finished)).1
            == Min(CappedGrowth([previous, finished]), ReadyCount(Live(s), node, run, now))
  {
    hide Run, Drain, ReadyCount;
    assert [previous, finished][1..] == [finished];
    HeartbeatCompletesMin(actions, node, run, now, tokens, ReportedDelta(Some(previous), finished));
  }
}
