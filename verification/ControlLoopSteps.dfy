/** Every action of the control loop moves the command history along `Evolved`. */
module ControlLoopSteps {
  import opened Models
  import opened Retention
  import opened SafetyGovernor
  import opened CommandVerifier
  import opened CommandLifecycle
  import opened CommandControl
  import opened ControlLoop

  lemma RecordIsTransition(c: Command, report: ReportStatus, message: Message, now: int)
    ensures var r := RecordOne(c, report, message, now);
            r.Ok? ==> Transition(c, r.value, NodeResult)
                      && (r.value.status.Applied? && !c.status.Applied? ==> !report.ReportFailed?)
  {}

  lemma OperatorEditsAreTransitions(c: Command, actor: string, reason: string, now: int)
    ensures !c.parameters.workflow.AiSuggestionReview? && ApproveOne(c, actor, now).Ok? ==>
              Transition(c, ApproveOne(c, actor, now).value, Approval)
    ensures ApproveHumanReviewOne(c, actor, now).Ok? ==> Transition(c, ApproveHumanReviewOne(c, actor, now).value, Approval)
    ensures RejectOne(c, actor, now).Ok? ==> Transition(c, RejectOne(c, actor, now).value, Routine)
    ensures CancelOne(c, actor, reason, now).Ok? ==> Transition(c, CancelOne(c, actor, reason, now).value, Routine)
  {}

  lemma ClaimIsTransition(c: Command, node: Node, ttlSeconds: int, now: int)
    ensures Transition(c, ExpireOne(c, ttlSeconds, now), Routine)
    ensures Transition(c, ClaimOne(ExpireOne(c, ttlSeconds, now), node, "", now), Routine)
  {}

  lemma ObserveIsTransition(c: Command, node: Node, beat: Heartbeat, window: Window)
    ensures Transition(c, ObserveOne(c, node, beat, window), Routine)
  {
    if c.node == node && Observable(c) {
      var e := Assess(c, beat.system, Extend(c, beat.system, beat.now, window));
      ConcludeStep(c, e, LookupDownstream(beat.system, c.node).Some?, beat.now, window);
    }
  }

  lemma VerifyRateIsTransition(c: Command, node: Node, rate: real, now: int)
    ensures Transition(c, VerifyRateOne(c, node, rate, now), Routine)
  {}

  /** Requests the service and the store's own rules can make. */
  predicate WellFormedRequest(q: Request, cause: Cause) {
    && (q.status.WaitingApproval? || q.status.Pending? || (q.status.Executed? && !q.kind.SetTargetRate?))
    && (q.parameters.workflow.AiSuggestionReview? ==> q.kind.ReviewAiRecommendation? && q.status.WaitingApproval?)
    && (q.parameters.workflow.DispatchTargetRate? ==>
          && q.kind.SetTargetRate? && MeansHigh(q.risk)
          && (q.status.WaitingApproval? || cause.Retrial?))
  }

  lemma RequestIsNewborn(id: nat, q: Request, now: int, cause: Cause)
    requires WellFormedRequest(q, cause)
    ensures Newborn(NewCommand(id, q, now), cause)
  {}

  lemma IssueEvolves(s: State, q: Request, now: int, cause: Cause)
    requires Structure(s.all) && WellFormedRequest(q, cause)
    ensures Evolved(s.all, CommitCreate(s, q, now).all, cause)
  {
    RequestIsNewborn(|s.all| + 1, q, now, cause);
    CreateEvolves(s, q, now, cause);
  }

  lemma NothingEvolves(s: State, cause: Cause)
    ensures Evolved(s.all, s.all, cause)
  {}

  lemma ApproveEvolves(s: State, id: nat, actor: Actor, known: set<string>, code: string, now: int)
    ensures Evolved(s.all, ApproveStep(s, id, actor, known, code, now).all, Approval)
  {
    var answer := ServiceApprove(Live(s), id, actor, known, code, now);
    var at := ById(Live(s), id);
    if answer.Ok? {
      var c := Live(s)[at.value];
      OperatorEditsAreTransitions(c, actor.id, "", now);
      if c.parameters.workflow.AiSuggestionReview? {
        ReplaceEvolves(s, at.value, ApproveHumanReviewOne(c, actor.id, now).value, Approval);
      } else {
        ReplaceEvolves(s, at.value, ApproveOne(c, actor.id, now).value, Approval);
      }
    } else {
      NothingEvolves(s, Approval);
    }
  }

  lemma RejectEvolves(s: State, id: nat, actor: Actor, now: int)
    ensures Evolved(s.all, CommitAnswer(s, ServiceReject(Live(s), id, actor, now)).all, Routine)
  {
    var at := ById(Live(s), id);
    if ServiceReject(Live(s), id, actor, now).Ok? {
      OperatorEditsAreTransitions(Live(s)[at.value], actor.id, "", now);
      ReplaceEvolves(s, at.value, RejectOne(Live(s)[at.value], actor.id, now).value, Routine);
    } else {
      NothingEvolves(s, Routine);
    }
  }

  lemma CancelEvolves(s: State, id: nat, actor: Actor, reason: string, now: int)
    ensures Evolved(s.all, CommitAnswer(s, ServiceCancel(Live(s), id, actor, reason, now)).all, Routine)
  {
    var at := ById(Live(s), id);
    if ServiceCancel(Live(s), id, actor, reason, now).Ok? {
      OperatorEditsAreTransitions(Live(s)[at.value], actor.id, reason, now);
      ReplaceEvolves(s, at.value, CancelOne(Live(s)[at.value], actor.id, reason, now).value, Routine);
    } else {
      NothingEvolves(s, Routine);
    }
  }

  lemma RetryEvolves(s: State, id: nat, actor: Actor, known: set<string>, code: string, now: int)
    requires Structure(s.all)
    ensures Evolved(s.all, RetryStep(s, id, actor, known, code, now).all, Retrial)
  {
    var at := ById(Live(s), id);
    if at.None? || RetryError(Live(s), id, actor, known, code).Some? {
      NothingEvolves(s, Retrial);
    } else {
      WindowIsSuffix(s.all, RETAINED_COMMANDS);
      assert Sound(s.all[Base(s.all, RETAINED_COMMANDS) + at.value]);
      IssueEvolves(s, RetryRequest(Live(s)[at.value], actor.id), now, Retrial);
    }
  }

  lemma RecordEvolves(s: State, node: Node, id: nat, report: ReportStatus, message: Message, now: int)
    ensures var answer := RecordResult(Live(s), node, id, report, message, now);
            answer.Ok? ==> Evolved(s.all, Commit(s, answer.value).all, NodeResult)
  {
    var at := ByIdForNode(Live(s), node, id);
    if RecordResult(Live(s), node, id, report, message, now).Ok? {
      RecordIsTransition(Live(s)[at.value], report, message, now);
      ReplaceEvolves(s, at.value, RecordOne(Live(s)[at.value], report, message, now).value, NodeResult);
    }
  }

  lemma ExpireEvolves(s: State, ttlSeconds: int, now: int)
    ensures Evolved(s.all, Commit(s, ExpireAll(Live(s), ttlSeconds, now)).all, Routine)
  {
    forall i | 0 <= i < |Live(s)|
      ensures Transition(Live(s)[i], ExpireOne(Live(s)[i], ttlSeconds, now), Routine)
    {
      ClaimIsTransition(Live(s)[i], Turning, ttlSeconds, now);
    }
    CommitEvolves(s, ExpireAll(Live(s), ttlSeconds, now), Routine);
  }

  lemma PollEvolves(s: State, node: Node, ttlSeconds: int, now: int)
    ensures Evolved(s.all, Commit(s, PollList(s, node, ttlSeconds, now)).all, Routine)
    ensures |Commit(s, PollList(s, node, ttlSeconds, now)).all| == |s.all|
  {
    var list := PollList(s, node, ttlSeconds, now);
    forall i | 0 <= i < |Live(s)|
      ensures Transition(Live(s)[i], list[i], Routine)
    {
      ClaimIsTransition(Live(s)[i], node, ttlSeconds, now);
    }
    CommitEvolves(s, list, Routine);
  }

  lemma ObserveEvolves(s: State, node: Node, beat: Heartbeat, window: Window)
    ensures Evolved(s.all, Commit(s, ObserveEffects(Live(s), node, beat, window)).all, Routine)
  {
    var list := ObserveEffects(Live(s), node, beat, window);
    forall i | 0 <= i < |Live(s)|
      ensures Transition(Live(s)[i], list[i], Routine)
    {
      ObserveIsTransition(Live(s)[i], node, beat, window);
    }
    CommitEvolves(s, list, Routine);
  }

  lemma VerifyRateEvolves(s: State, node: Node, rate: real, now: int)
    ensures Evolved(s.all, Commit(s, VerifyRateAll(Live(s), node, rate, now)).all, Routine)
  {
    var list := VerifyRateAll(Live(s), node, rate, now);
    forall i | 0 <= i < |Live(s)|
      ensures Transition(Live(s)[i], list[i], Routine)
    {
      VerifyRateIsTransition(Live(s)[i], node, rate, now);
    }
    CommitEvolves(s, list, Routine);
  }

  lemma IssueActionEvolves(cfg: Config, s: State, a: Action)
    requires Structure(s.all)
    requires a.IssueTargetRate? || a.IssueDispatch? || a.IssueReview? || a.IssuePolicy?
    ensures Evolved(s.all, Next(cfg, s, a).all, Routine)
  {
    hide Evolved, Structure, IssueError;
    NothingEvolves(s, Routine);
    match a
    case IssueTargetRate(node, rate, actor, ctx, now) =>
      IssueEvolves(s, PlainRequest(node, rate, actor, ctx), now, Routine);
    case IssueDispatch(node, rate, key, actor, ctx, now) =>
      HighMeansHigh();
      IssueEvolves(s, DispatchRequest(node, rate, key, actor, ctx), now, Routine);
    case IssueReview(node, risk, key, actor, ctx, now) =>
      IssueEvolves(s, ReviewRequest(node, risk, key, actor, ctx), now, Routine);
    case IssuePolicy(node, name, risk, status, operator, now) =>
      if status.Pending? || status.WaitingApproval? || status.Executed? {
        IssueEvolves(s, PolicyRequest(node, name, risk, status, operator), now, Routine);
      }
  }

  /** Every action is a step of the history. */
  lemma StepEvolves(cfg: Config, s: State, a: Action)
    requires Structure(s.all)
    ensures Evolved(s.all, Next(cfg, s, a).all, CauseOf(a))
  {
    hide Evolved, Structure;
    NothingEvolves(s, CauseOf(a));
    match a
    case OperatorApprove(id, actor, known, code, now) => ApproveEvolves(s, id, actor, known, code, now);
    case OperatorReject(id, actor, now) => RejectEvolves(s, id, actor, now);
    case OperatorCancel(id, actor, reason, now) => CancelEvolves(s, id, actor, reason, now);
    case OperatorRetry(id, actor, known, code, now) => RetryEvolves(s, id, actor, known, code, now);
    case ExpireClaims(ttl, now) => ExpireEvolves(s, ttl, now);
    case HeartbeatArrives(node, beat) => ObserveEvolves(s, node, beat, cfg.window);
    case RateConfirmed(node, rate, now) => VerifyRateEvolves(s, node, rate, now);
    case OtherPoll(node, ttl, now) => PollEvolves(s, node, ttl, now);
    case OtherReport(node, id, report, message, now) => RecordEvolves(s, node, id, report, message, now);
    case Poll(ttl, arrives, now) => PollEvolves(s, cfg.me, ttl, now);
    case HandleNext(nodeNow) =>
    case ReportRow(i, acknowledged, now) =>
      if i < |s.node.ledger| {
        var row := s.node.ledger[i];
        RecordEvolves(s, cfg.me, row.id, ReportOf(row), row.message, now);
      }
    case CrashAndRestart =>
    case _ => IssueActionEvolves(cfg, s, a);
  }
}
