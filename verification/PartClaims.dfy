/** How long a claim lives: from the time and time-to-live of the claim on record to the release
    that frees the part. */
module PartClaims {
  import opened Basics
  import opened Retention
  import opened PartQueue
  import M = Models
  import opened PartFlow
  import opened PartFlowSafety
  import opened PartFlowTheorems
  import opened PartHeartbeat

  /** The deadline of the claim a part is under. */
  function ClaimDeadline(s: Flow, id: nat, token: nat): int
    requires HoldsClaim(s, id, token)
  {
    Deadline(s.log[LastOn(s.log, id).value])
  }

  /** A held claim, read off the part. */
  lemma HeldPart(s: Flow, id: nat, token: nat)
    requires Inv(s) && 1 <= id <= |s.all|
    ensures var p := s.all[id - 1];
            && p.id == id
            && (HoldsClaim(s, id, token) <==> p.status.Claimed? && p.token == token && token != 0)
            && (HoldsClaim(s, id, token) ==> p.expiresAt == Some(ClaimDeadline(s, id, token)))
  {
    hide AtStation, ParentOk, TokensOnce, CompletionsFenced, CompletionIsFinal, LastOn, Deadline;
    assert StatusFromLog(s.all[id - 1], s.log);
    ClaimedIffHeld(s.all[id - 1], s.log, token);
  }

  /** A part a release leaves as it was, or frees. */
  lemma ReleaseEffect(s: Flow, run: string, now: int, id: nat, token: nat)
    requires Inv(s) && Retained(s, id) && HoldsClaim(s, id, token)
    ensures var p, t := s.all[id - 1], ReleaseStep(s, run, now);
            && |t.all| == |s.all|
            && if InRun(p, run) && now >= ClaimDeadline(s, id, token) then t.all[id - 1].status.Ready?
               else t.all[id - 1] == p
  {
    hide Inv, ReleaseUpTo, HoldsClaim, InRun, ClaimDeadline;
    HeldPart(s, id, token);
    ReleaseUpToList(s, run, now, |s.all|);
  }

  /** What a release or a claim at `now` for a run leaves of a claim: it ends exactly when the
      part is in that run and the time and time-to-live of the claim have passed. */
  lemma ReleaseEndsClaimIff(actions: seq<Action>, run: string, now: int, id: nat, token: nat)
    requires Retained(Run(actions), id) && HoldsClaim(Run(actions), id, token)
    ensures var s, t := Run(actions), Run(actions + [Release(run, now)]);
            && |t.all| == |s.all|
            && (!HoldsClaim(t, id, token)
                <==> (run == "" || s.all[id - 1].run == run) && now >= ClaimDeadline(s, id, token))
            && (t.all[id - 1].status.Ready? <==> !HoldsClaim(t, id, token))
  {
    hide Run, Inv, Next, ReleaseStep, HoldsClaim, ClaimDeadline;
    var s := Run(actions);
    RunKeepsInv(actions);
    RunKeepsInv(actions + [Release(run, now)]);
    RunStep(actions, Release(run, now));
    ReleaseIsStep(s, run, now);
    ReleaseEffect(s, run, now, id, token);
    HeldPart(s, id, token);
    HeldPart(Run(actions + [Release(run, now)]), id, token);
  }

  lemma ReleaseIsStep(s: Flow, run: string, now: int)
    ensures Next(s, Release(run, now)) == ReleaseStep(s, run, now)
  {}

  /** A claim either leaves the released queue as it is or takes over one ready part of it. */
  lemma ClaimTakesOneReady(s: Flow, node: M.Node, run: string, ttl: int, now: int, token: nat, j: nat)
    requires Fresh(s.log, token) && j < |s.all|
    ensures |ReleaseStep(s, run, now).all| == |s.all|
    ensures var t, u := ReleaseStep(s, run, now), Next(s, Claim(node, run, ttl, now, token));
            && |u.all| == |s.all|
            && (u.all[j] == t.all[j] || (t.all[j].status.Ready? && u.all[j] == ClaimOne(t.all[j], node, token, ttl, now)))
  {
    hide ReleaseStep, Fresh;
    ReleaseKeepsLength(s, run, now);
    var t := ReleaseStep(s, run, now);
    WindowIsSuffix(t.all, RETAINED_PARTS);
  }

  lemma ReleaseKeepsLength(s: Flow, run: string, now: int)
    ensures |ReleaseStep(s, run, now).all| == |s.all|
  {}

  lemma ClaimEndsClaimIff(actions: seq<Action>, node: M.Node, run: string, ttl: int, now: int, newToken: nat, id: nat, token: nat)
    requires Retained(Run(actions), id) && HoldsClaim(Run(actions), id, token) && Fresh(Run(actions).log, newToken)
    ensures var s, t := Run(actions), Run(actions + [Claim(node, run, ttl, now, newToken)]);
            && |t.all| == |s.all|
            && (!HoldsClaim(t, id, token)
                <==> (run == "" || s.all[id - 1].run == run) && now >= ClaimDeadline(s, id, token))
  {
    hide Run, Inv, Next, ReleaseStep, HoldsClaim, ClaimDeadline;
    var s, a := Run(actions), Claim(node, run, ttl, now, newToken);
    RunKeepsInv(actions);
    RunKeepsInv(actions + [a]);
    RunStep(actions, a);
    ReleaseEffect(s, run, now, id, token);
    ClaimTakesOneReady(s, node, run, ttl, now, newToken, id - 1);
    HeldPart(s, id, token);
    HeldPart(Run(actions + [a]), id, token);
    HeldIsNotFresh(s, id, token, newToken);
  }

  lemma HeldIsNotFresh(s: Flow, id: nat, token: nat, newToken: nat)
    requires HoldsClaim(s, id, token) && Fresh(s.log, newToken)
    ensures newToken != token
  {}

  // ------------------------------------------------------------- the oldest is taken

  /** A part the node may take: ready, at its station, of the run in question. */
  predicate CanTake(p: Part, node: M.Node, run: string) { p.status.Ready? && p.target == node && (run == "" || p.run == run) }

  /** In every run a claim takes, under its token, the oldest retained part that is ready for the
      node once overdue claims are given back, and changes nothing else; it takes none exactly when
      there is none. */
  lemma ClaimTakesOldest(actions: seq<Action>, node: M.Node, run: string, ttl: int, now: int, token: nat)
    requires Fresh(Run(actions).log, token)
    ensures var t, u := Run(actions + [Release(run, now)]), Run(actions + [Claim(node, run, ttl, now, token)]);
            && |u.all| == |t.all|
            && (u.all == t.all || exists j: nat :: IsTaken(t, u, j, node, run, token))
            && (u.all == t.all <==> forall j :: Start(t) <= j < |t.all| ==> !CanTake(t.all[j], node, run))
  {
    hide Run, Inv, ReleaseStep, ReadyFor, NextReady;
    var s := Run(actions);
    RunStep(actions, Release(run, now));
    RunStep(actions, Claim(node, run, ttl, now, token));
    var t := ReleaseStep(s, run, now);
    var at := NextReady(Live(t), node, run);
    WindowIsSuffix(t.all, RETAINED_PARTS);
    ReadyIsTakable(t, node, run);
    if at.Some? {
      var j := Start(t) + at.value;
      ClaimIsTaking(t, j, node, run, ttl, now, token);
    }
  }

  predicate IsTaken(t: Flow, u: Flow, j: nat, node: M.Node, run: string, token: nat) {
    && Start(t) <= j < |t.all| == |u.all| && CanTake(t.all[j], node, run)
    && (forall k :: Start(t) <= k < j ==> !CanTake(t.all[k], node, run))
    && u.all[j].status.Claimed? && u.all[j].token == token && u.all[j].claimedBy == Some(node)
    && u.all == t.all[j := u.all[j]]
  }

  lemma ReadyIsTakable(t: Flow, node: M.Node, run: string)
    ensures var at := NextReady(Live(t), node, run);
            && (at.Some? ==> && Start(t) + at.value < |t.all| && CanTake(t.all[Start(t) + at.value], node, run)
                             && forall k :: Start(t) <= k < Start(t) + at.value ==> !CanTake(t.all[k], node, run))
            && (at.None? ==> forall k :: Start(t) <= k < |t.all| ==> !CanTake(t.all[k], node, run))
  {
    WindowIsSuffix(t.all, RETAINED_PARTS);
    var at := NextReady(Live(t), node, run);
    var limit := if at.Some? then at.value else |Live(t)|;
    forall k | Start(t) <= k < Start(t) + limit
      ensures !CanTake(t.all[k], node, run)
    {
      assert !ReadyFor(Live(t)[k - Start(t)], node, run);
    }
    if at.Some? { assert t.all[Start(t) + at.value] == Live(t)[at.value]; }
  }

  lemma ClaimIsTaking(t: Flow, j: nat, node: M.Node, run: string, ttl: int, now: int, token: nat)
    requires Start(t) <= j < |t.all| && CanTake(t.all[j], node, run)
    requires forall k :: Start(t) <= k < j ==> !CanTake(t.all[k], node, run)
    ensures IsTaken(t, ClaimAt(t, j, node, ttl, now, token), j, node, run, token)
    ensures ClaimAt(t, j, node, ttl, now, token).all != t.all
  {
    var u := ClaimAt(t, j, node, ttl, now, token);
    assert u.all[j] != t.all[j];
  }

  // ------------------------------------------------------------ a live token is good

  /** The action comes before a time, as far as it looks at the clock. */
  predicate Before(a: Action, time: int) {
    (a.Release? ==> a.now < time) && (a.Claim? ==> a.now < time)
  }

  predicate AllBefore(actions: seq<Action>, time: int) { forall i :: 0 <= i < |actions| ==> Before(actions[i], time) }

  /** Under its claim still, with the same deadline, or completed. */
  predicate HeldOrDone(s: Flow, id: nat, token: nat, deadline: int) {
    && 1 <= id <= |s.all|
    && (|| (HoldsClaim(s, id, token) && ClaimDeadline(s, id, token) == deadline)
        || s.all[id - 1].status.Completed?)
  }

  /** A step before the deadline neither frees the part nor changes its claim. */
  lemma StepKeepsPart(s: Flow, a: Action, id: nat, token: nat, deadline: int)
    requires Inv(s) && HeldOrDone(s, id, token, deadline) && Before(a, deadline)
    ensures var t := Next(s, a);
            && id <= |t.all|
            && (t.all[id - 1] == s.all[id - 1] || t.all[id - 1].status.Completed?)
  {
    hide Inv, HoldsClaim, ClaimDeadline, InRun;
    HeldPart(s, id, token);
    match a
    case CreatePart(_, _, _) =>
    case Release(run, now) => ReleaseLeaves(s, run, now, id);
    case Claim(node, run, ttl, now, newToken) =>
      if Fresh(s.log, newToken) {
        ReleaseLeaves(s, run, now, id);
        ClaimTakesOneReady(s, node, run, ttl, now, newToken, id - 1);
      }
    case Complete(node, part, tok) => CompleteLeaves(s, node, part, tok, id);
  }

  lemma ReleaseLeaves(s: Flow, run: string, now: int, id: nat)
    requires 1 <= id <= |s.all|
    requires s.all[id - 1].status.Completed? || (s.all[id - 1].expiresAt.Some? && now < s.all[id - 1].expiresAt.value)
    ensures |ReleaseStep(s, run, now).all| == |s.all| && ReleaseStep(s, run, now).all[id - 1] == s.all[id - 1]
  {
    hide ReleaseUpTo;
    ReleaseUpToList(s, run, now, |s.all|);
  }

  lemma CompleteLeaves(s: Flow, node: M.Node, part: nat, token: nat, id: nat)
    requires 1 <= id <= |s.all|
    ensures var t := Next(s, Complete(node, part, token));
            id <= |t.all| && (t.all[id - 1] == s.all[id - 1] || t.all[id - 1].status.Completed?)
  {
    hide CompletionError, ById, Downstream, Next, Start, Live;
    if CompletionError(Live(s), node, part, token).None? {
      CompletedHistory(s, node, part, token);
    } else {
      RefusedCompletion(s, node, part, token);
    }
  }

  /** A claim's token is accepted in every continuation in which each release and claim comes
      before its deadline, until the part is completed or evicted. */
  lemma {:induction false} TokenHeldUntilDeadline(past: seq<Action>, future: seq<Action>, id: nat, token: nat, deadline: int)
    requires HeldOrDone(Run(past), id, token, deadline) && AllBefore(future, deadline)
    ensures HeldOrDone(Run(past + future), id, token, deadline)
  {
    hide Run, HeldOrDone, Inv, Next, Before;
    if future == [] {
      assert past + future == past;
    } else {
      var front, a := future[..|future| - 1], future[|future| - 1];
      TokenHeldUntilDeadline(past, front, id, token, deadline);
      assert past + future == (past + front) + [a];
      RunStep(past + front, a);
      RunKeepsInv(past + front);
      RunKeepsInv(past + future);
      StepKeepsPart(Run(past + front), a, id, token, deadline);
      SamePartSameClaim(Run(past + front), Run(past + future), id, token, deadline);
    }
  }

  lemma SamePartSameClaim(s: Flow, t: Flow, id: nat, token: nat, deadline: int)
    requires Inv(s) && Inv(t) && HeldOrDone(s, id, token, deadline) && id <= |t.all|
    requires t.all[id - 1] == s.all[id - 1] || t.all[id - 1].status.Completed?
    ensures HeldOrDone(t, id, token, deadline)
  {
    hide Inv, HoldsClaim, ClaimDeadline;
    HeldPart(s, id, token);
    HeldPart(t, id, token);
  }

  lemma LiveTokenIsAccepted(past: seq<Action>, future: seq<Action>, id: nat, token: nat)
    requires 1 <= id <= |Run(past).all| && HoldsClaim(Run(past), id, token)
    requires AllBefore(future, ClaimDeadline(Run(past), id, token))
    ensures var t := Run(past + future);
            && id <= |t.all|
            && (Retained(t, id) && !t.all[id - 1].status.Completed? ==>
                  CompletionError(Live(t), t.all[id - 1].target, id, token).None?)
  {
    hide Run, Inv, CompletionError;
    TokenHeldUntilDeadline(past, future, id, token, ClaimDeadline(Run(past), id, token));
    CompletionAcceptedIff(past + future, Run(past + future).all[id - 1].target, id, token);
  }
}
