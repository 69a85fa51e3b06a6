/** The exact effect of what operators, planners and the clock do, in every run: which command
    changes or appears, under which condition, and that nothing else does. */
module ControlLoopOperators {
  import opened Basics
  import opened Models
  import opened Retention
  import opened SafetyGovernor
  import opened CommandVerifier
  import opened CommandLifecycle
  import opened CommandControl
  import opened NodeAgent
  import opened ControlLoop
  import opened ControlLoopSafety
  import opened ControlLoopTheorems
  import opened ControlLoopReports

  // ---------------------------------------------------------------- edits by id

  lemma IdInWindow(s: State, id: nat)
    requires Numbered(s.all)
    ensures ById(Live(s), id) == if IsRetained(s, id) then Some(id - 1 - Base(s.all, RETAINED_COMMANDS)) else None
    ensures IsRetained(s, id) ==>
              var at := id - 1 - Base(s.all, RETAINED_COMMANDS);
              at < |Live(s)| && Live(s)[at] == s.all[id - 1]
  {
    hide ById, Live, Base, Numbered, IsRetained;
    RetainedIsInWindow(s, id);
    WindowIds(s);
    var base := Base(s.all, RETAINED_COMMANDS);
    if IsRetained(s, id) {
      var at := id - 1 - base;
      assert Live(s)[at] == s.all[base + at];
      FindsId(Live(s), id, at);
    } else {
      FindsNoId(Live(s), id);
    }
  }

  lemma WindowIds(s: State)
    requires Numbered(s.all)
    ensures var base := Base(s.all, RETAINED_COMMANDS);
            && |Live(s)| == |s.all| - base
            && forall i :: 0 <= i < |Live(s)| ==> Live(s)[i] == s.all[base + i] && Live(s)[i].id == base + i + 1
  {
    WindowIsSuffix(s.all, RETAINED_COMMANDS);
  }

  lemma FindsId(cs: seq<Command>, id: nat, at: nat)
    requires at < |cs| && cs[at].id == id && forall i :: 0 <= i < |cs| && i != at ==> cs[i].id != id
    ensures ById(cs, id) == Some(at)
  {}

  lemma FindsNoId(cs: seq<Command>, id: nat)
    requires forall i :: 0 <= i < |cs| ==> cs[i].id != id
    ensures ById(cs, id).None?
  {}

  /** An edit of a retained command, on the history. */
  lemma EditOnHistory(s: State, id: nat, edit: Command -> Result<Command, Refusal>)
    requires Numbered(s.all)
    ensures IsRetained(s, id) ==> ById(Live(s), id).Some?
    ensures var answer := Replace(Live(s), ById(Live(s), id), edit);
            && (answer.Ok? <==> IsRetained(s, id) && edit(s.all[id - 1]).Ok?)
            && (answer.Ok? ==> Commit(s, answer.value) == s.(all := s.all[id - 1 := edit(s.all[id - 1]).value]))
  {
    hide ById, Live, Base, Commit;
    IdInWindow(s, id);
    if IsRetained(s, id) && edit(s.all[id - 1]).Ok? {
      CommitReplaces(s, id - 1 - Base(s.all, RETAINED_COMMANDS), edit(s.all[id - 1]).value);
    }
  }

  lemma CommitReplaces(s: State, at: nat, d: Command)
    requires at < |Live(s)|
    ensures Base(s.all, RETAINED_COMMANDS) + at < |s.all|
    ensures Commit(s, Live(s)[at := d]) == s.(all := s.all[Base(s.all, RETAINED_COMMANDS) + at := d])
  {
    ReplaceTouchesOne(s, at, d);
  }

  // --------------------------------------------------- reject, cancel and approve

  /** The lifecycle review of a rejection or cancellation never refuses. */
  lemma LifecycleIsAllowed(action: string, c: Command, actor: Actor)
    requires action == "reject_command" || action == "cancel_command"
    ensures LifecycleDecision(action, c, actor).allow
  {
    hide NodeCode, NormalizeRisk;
    assert Lower("low") == "low";
    NormalizedHighIff(action, "low");
  }

  lemma RejectEffect(s: State, id: nat, actor: Actor, now: int)
    requires Numbered(s.all)
    ensures CommitAnswer(s, ServiceReject(Live(s), id, actor, now))
            == if IsRetained(s, id) && s.all[id - 1].status.WaitingApproval?
               then s.(all := s.all[id - 1 := s.all[id - 1].(status := Rejected, operator := actor.id, updatedAt := now)])
               else s
  {
    hide ById, Live, Commit, LifecycleDecision, Base, Replace;
    IdInWindow(s, id);
    EditOnHistory(s, id, c => RejectOne(c, actor.id, now));
    if ById(Live(s), id).Some? { LifecycleIsAllowed("reject_command", Live(s)[ById(Live(s), id).value], actor); }
  }

  /** In every run a rejection takes effect exactly on a retained command that waits for approval. */
  lemma RejectIff(cfg: Config, actions: seq<Action>, id: nat, actor: Actor, now: int)
    ensures var s := Run(cfg, actions);
            Next(cfg, s, OperatorReject(id, actor, now))
            == if IsRetained(s, id) && s.all[id - 1].status.WaitingApproval?
               then s.(all := s.all[id - 1 := s.all[id - 1].(status := Rejected, operator := actor.id, updatedAt := now)])
               else s
  {
    hide Run, Structure, ServiceReject, CommitAnswer;
    RunIsNumbered(cfg, actions);
    RejectEffect(Run(cfg, actions), id, actor, now);
  }

  lemma RunIsNumbered(cfg: Config, actions: seq<Action>)
    ensures Numbered(Run(cfg, actions).all)
  {
    hide Run;
    RunHasStructure(cfg, actions);
  }

  /** Cancellable: not yet terminal, and not executed outright. */
  predicate CanBeCancelled(st: Status) {
    st.WaitingApproval? || st.Pending? || st.Queued? || st.Claimed? || st.Applied?
  }

  lemma CancelEffect(s: State, id: nat, actor: Actor, reason: string, now: int)
    requires Numbered(s.all)
    ensures CommitAnswer(s, ServiceCancel(Live(s), id, actor, reason, now))
            == if IsRetained(s, id) && CanBeCancelled(s.all[id - 1].status)
               then s.(all := s.all[id - 1 := s.all[id - 1].(status := Cancelled, operator := actor.id,
                                                             message := CancelledBy(actor.id, reason), updatedAt := now)])
               else s
  {
    hide ById, Live, Commit, LifecycleDecision, Base, Replace;
    IdInWindow(s, id);
    EditOnHistory(s, id, c => CancelOne(c, actor.id, reason, now));
    if ById(Live(s), id).Some? { LifecycleIsAllowed("cancel_command", Live(s)[ById(Live(s), id).value], actor); }
    if IsRetained(s, id) { assert s.all[id - 1 := s.all[id - 1]] == s.all; }
  }

  /** In every run a cancellation takes effect exactly on a retained command that is neither
      terminal nor executed outright. */
  lemma CancelIff(cfg: Config, actions: seq<Action>, id: nat, actor: Actor, reason: string, now: int)
    ensures var s := Run(cfg, actions);
            Next(cfg, s, OperatorCancel(id, actor, reason, now))
            == if IsRetained(s, id) && CanBeCancelled(s.all[id - 1].status)
               then s.(all := s.all[id - 1 := s.all[id - 1].(status := Cancelled, operator := actor.id,
                                                             message := CancelledBy(actor.id, reason), updatedAt := now)])
               else s
  {
    hide Run, Structure, ServiceCancel, CommitAnswer, CanBeCancelled;
    RunIsNumbered(cfg, actions);
    CancelEffect(Run(cfg, actions), id, actor, reason, now);
  }

  /** Who may perform a reviewed action on a command: the node is registered, no control-plane
      node is isolated, and high risk is confirmed by a system administrator. */
  predicate MayAct(action: string, c: Command, actor: Actor, known: set<string>, code: string) {
    && (NodeCode(c.node) == "" || NodeCode(c.node) in known)
    && !(action == "isolate_node" && NodeCode(c.node) in CONTROL_PLANE_NODES)
    && (|| !(MeansHigh(c.risk) || action in HIGH_RISK_ACTIONS)
        || (code == CONFIRMATION_CODE && actor.role == SYSTEM_ADMIN))
  }

  lemma ActionAllowedIff(action: string, c: Command, actor: Actor, known: set<string>, code: string)
    ensures ActionDecision(action, c, actor, known, code).allow <==> MayAct(action, c, actor, known, code)
  {
    hide ReviewControlAction, NodeCode, MeansHigh, HIGH_RISK_ACTIONS, CONTROL_PLANE_NODES;
    GateAllowsIff(action, NodeCode(c.node), c.risk, actor.role, actor.id, known, code, "normal");
  }

  function Approved(c: Command, actor: Actor, now: int): Command {
    if c.parameters.workflow.AiSuggestionReview?
    then c.(status := Verified, operator := actor.id, message := SuggestionAccepted(actor.id),
            verification := HumanVerified, verifiedAt := Some(now), updatedAt := now)
    else c.(status := Pending, operator := actor.id, updatedAt := now)
  }

  lemma ApproveEffect(s: State, id: nat, actor: Actor, known: set<string>, code: string, now: int)
    requires Numbered(s.all)
    ensures ApproveStep(s, id, actor, known, code, now)
            == if && IsRetained(s, id) && s.all[id - 1].status.WaitingApproval?
                  && MayAct(KindName(s.all[id - 1].kind), s.all[id - 1], actor, known, code)
               then s.(all := s.all[id - 1 := Approved(s.all[id - 1], actor, now)])
               else s
  {
    hide ById, Live, Commit, ActionDecision, MayAct, KindName, Base, Replace;
    IdInWindow(s, id);
    if IsRetained(s, id) {
      ActionAllowedIff(KindName(s.all[id - 1].kind), s.all[id - 1], actor, known, code);
      EditOnHistory(s, id, c => ApproveOne(c, actor.id, now));
      EditOnHistory(s, id, c => ApproveHumanReviewOne(c, actor.id, now));
    }
  }

  /** In every run an approval takes effect exactly on a retained command that waits for it, from
      someone who may act; a review is then closed, anything else becomes deliverable. */
  lemma ApproveIff(cfg: Config, actions: seq<Action>, id: nat, actor: Actor, known: set<string>, code: string, now: int)
    ensures var s := Run(cfg, actions);
            Next(cfg, s, OperatorApprove(id, actor, known, code, now))
            == if && IsRetained(s, id) && s.all[id - 1].status.WaitingApproval?
                  && MayAct(KindName(s.all[id - 1].kind), s.all[id - 1], actor, known, code)
               then s.(all := s.all[id - 1 := Approved(s.all[id - 1], actor, now)])
               else s
  {
    hide Run, Structure, ApproveStep, MayAct, KindName, Approved;
    RunIsNumbered(cfg, actions);
    ApproveEffect(Run(cfg, actions), id, actor, known, code, now);
  }

  // -------------------------------------------------------------------- issuing

  /** A command was appended, superseding exactly the retained open ones of its node and type. */
  predicate Added(s: State, t: State, now: int) {
    && |t.all| == |s.all| + 1 && t.node == s.node && t.inbox == s.inbox && t.clock == s.clock
    && var born := t.all[|s.all|];
       forall i :: 0 <= i < |s.all| ==>
         t.all[i] == if IsRetained(s, i + 1) && SamePair(s.all[i], born) && IsOpen(s.all[i].status)
                     then s.all[i].(status := Superseded, message := SupersededBy(|s.all| + 1), updatedAt := now)
                     else s.all[i]
  }

  /** No retained command of this node and type carries the key. */
  predicate KeyIsFree(s: State, node: Node, kind: Kind, key: string) {
    key == "" || forall i :: 0 <= i < |s.all| && IsRetained(s, i + 1) && s.all[i].node == node && s.all[i].kind == kind ==>
                   s.all[i].parameters.idempotencyKey != Some(key)
  }

  lemma DuplicateIff(s: State, q: Request)
    ensures Duplicate(Live(s), q).None? <==> KeyIsFree(s, q.node, q.kind, ExplicitKey(q.parameters))
  {
    WindowIsSuffix(s.all, RETAINED_COMMANDS);
    var key := ExplicitKey(q.parameters);
    var base := Base(s.all, RETAINED_COMMANDS);
    if Duplicate(Live(s), q).Some? {
      var at := Duplicate(Live(s), q).value;
      assert MatchesKey(Live(s)[at], q.node, q.kind, key);
      assert s.all[base + at] == Live(s)[at] && IsRetained(s, base + at + 1);
    } else {
      forall i | 0 <= i < |s.all| && IsRetained(s, i + 1) && s.all[i].node == q.node && s.all[i].kind == q.kind && key != ""
        ensures s.all[i].parameters.idempotencyKey != Some(key)
      {
        assert !MatchesKey(Live(s)[i - base], q.node, q.kind, key);
      }
    }
  }

  lemma CreateEffect(s: State, q: Request, now: int)
    requires Numbered(s.all)
    ensures var t := CommitCreate(s, q, now);
            if KeyIsFree(s, q.node, q.kind, ExplicitKey(q.parameters))
            then Added(s, t, now) && t.all[|s.all|] == NewCommand(|s.all| + 1, q, now)
            else t == s
  {
    hide Duplicate, KeyIsFree, NewCommand, MaxId, Live, Rewrite, Appended, IsRetained, IsOpen;
    DuplicateIff(s, q);
    if Duplicate(Live(s), q).None? {
      NextIdIsFresh(s);
      NewCommandIsOfPair(|s.all| + 1, q, now);
      AppendedOnHistory(s, q, now);
    }
  }

  lemma NewCommandIsOfPair(id: nat, q: Request, now: int)
    ensures var c := NewCommand(id, q, now); c.node == q.node && c.kind == q.kind && c.id == id
  {}

  lemma AppendedOnHistory(s: State, q: Request, now: int)
    requires MaxId(Live(s)) == |s.all|
    ensures var t := Commit(s, Appended(Live(s), q, now));
            && |t.all| == |s.all| + 1 && t.all[|s.all|] == NewCommand(|s.all| + 1, q, now)
            && forall i :: 0 <= i < |s.all| ==>
                 t.all[i] == if IsRetained(s, i + 1) then SupersedeOne(s.all[i], q.node, q.kind, |s.all| + 1, now) else s.all[i]
  {
    hide NewCommand, SupersedeOne, LastN, Base, Rewrite, MaxId, Live;
    var list := Appended(Live(s), q, now);
    var t := Commit(s, list);
    LiveLength(s);
    RewriteIndex(s.all, RETAINED_COMMANDS, list, |s.all|);
    forall i | 0 <= i < |s.all|
      ensures t.all[i] == if IsRetained(s, i + 1) then SupersedeOne(s.all[i], q.node, q.kind, |s.all| + 1, now) else s.all[i]
    {
      RewriteIndex(s.all, RETAINED_COMMANDS, list, i);
      RetainedIsInWindow(s, i + 1);
      if IsRetained(s, i + 1) { LiveIs(s, i); }
    }
  }

  lemma RetainedIsInWindow(s: State, id: nat)
    ensures IsRetained(s, id) <==> Base(s.all, RETAINED_COMMANDS) < id <= |s.all|
  {}

  lemma LiveLength(s: State)
    ensures |Live(s)| == |s.all| - Base(s.all, RETAINED_COMMANDS) && Live(s) == LastN(s.all, RETAINED_COMMANDS)
  {}

  /** Control is enabled, the node is registered and the rate within its reported limit. */
  predicate CanIssue(node: Node, rate: Option<real>, ctx: Context) {
    && !ctx.readOnly && NodeCode(node) in ctx.known
    && (rate.Some? && ctx.limit.Some? ==> rate.value <= ctx.limit.value + 0.000000001)
  }

  /** A request that only proposes is refused for no reason but these. */
  lemma ProposalAllowedIff(q: Request, actor: Actor, ctx: Context)
    requires q.kind.SetTargetRate? || q.kind.ReviewAiRecommendation?
    requires q.kind.ReviewAiRecommendation? ==> q.parameters.targetRate.None?
    ensures IssueError(q, actor, ctx, true).None?
            <==> CanIssue(q.node, q.parameters.targetRate, ctx) && (q.kind.ReviewAiRecommendation? ==> actor.isAiAgent)
  {
    hide ReviewControlAction, NodeCode, MeansHigh;
    if NodeCode(q.node) in ctx.known {
      GateAllowsIff(KindName(q.kind), NodeCode(q.node), q.risk, actor.role, actor.id, ctx.known, "", "normal");
      GateReasonIff(KindName(q.kind), NodeCode(q.node), q.risk, actor.role, actor.id, ctx.known, "", "normal");
    }
  }

  lemma PlainAllowedIff(node: Node, rate: real, actor: Actor, ctx: Context)
    ensures IssueError(PlainRequest(node, rate, actor, ctx), actor, ctx, false).None? <==> CanIssue(node, Some(rate), ctx)
  {
    hide ReviewControlAction, NodeCode;
    assert Lower("low") == "low";
    if NodeCode(node) in ctx.known {
      GateAllowsIff("set_target_rate", NodeCode(node), "low", actor.role, actor.id, ctx.known, "", "normal");
    }
  }

  /** A set point as issued. */
  predicate IsSetPoint(c: Command, node: Node, rate: real, status: Status, workflow: Workflow, ttlSeconds: int, actor: Actor, baseline: SystemProduction, now: int) {
    && c.baseline == baseline && c.node == node && c.kind.SetTargetRate? && c.parameters.targetRate == Some(rate) && c.status == status
    && c.parameters.workflow == workflow && c.parameters.ttlSeconds == ttlSeconds && c.operator == actor.id && c.createdAt == now && c.attempts == 0
  }

  /** In every run a dispatch proposal becomes a command that waits for approval exactly when
      control is enabled, the node is registered, the rate is within its reported limit and the
      key is free; nobody needs to confirm it yet. */
  lemma DispatchIsProposedIff(cfg: Config, actions: seq<Action>, node: Node, rate: real, key: string, actor: Actor, ctx: Context, now: int)
    ensures var s := Run(cfg, actions);
            var t := Next(cfg, s, IssueDispatch(node, rate, key, actor, ctx, now));
            if CanIssue(node, Some(rate), ctx) && KeyIsFree(s, node, SetTargetRate, key)
            then Added(s, t, now) && IsSetPoint(t.all[|s.all|], node, rate, WaitingApproval, DispatchTargetRate, 1800, actor, ctx.baseline, now)
                 && t.all[|s.all|].parameters.idempotencyKey == Some(key)
            else t == s
  {
    hide Run, IssueError, CommitCreate, CanIssue, KeyIsFree, Added;
    RunIsNumbered(cfg, actions);
    ProposalAllowedIff(DispatchRequest(node, rate, key, actor, ctx), actor, ctx);
    CreateEffect(Run(cfg, actions), DispatchRequest(node, rate, key, actor, ctx), now);
    AddedIsLonger(Run(cfg, actions), CommitCreate(Run(cfg, actions), DispatchRequest(node, rate, key, actor, ctx), now), now);
  }

  lemma AddedIsLonger(s: State, t: State, now: int)
    ensures Added(s, t, now) ==> |t.all| == |s.all| + 1
  {}

  /** An operator's set point becomes deliverable at once, under the same conditions; it carries
      no key of its own, so it is never taken for a repeat. */
  lemma SetPointIsIssuedIff(cfg: Config, actions: seq<Action>, node: Node, rate: real, actor: Actor, ctx: Context, now: int)
    ensures var s := Run(cfg, actions);
            var t := Next(cfg, s, IssueTargetRate(node, rate, actor, ctx, now));
            if CanIssue(node, Some(rate), ctx)
            then Added(s, t, now) && IsSetPoint(t.all[|s.all|], node, rate, Pending, Plain, 0, actor, ctx.baseline, now)
                 && t.all[|s.all|].parameters.idempotencyKey == Some(AutoKey(|s.all| + 1))
            else t == s
  {
    hide Run, IssueError, CommitCreate, CanIssue, Added;
    RunIsNumbered(cfg, actions);
    PlainAllowedIff(node, rate, actor, ctx);
    CreateEffect(Run(cfg, actions), PlainRequest(node, rate, actor, ctx), now);
    AddedIsLonger(Run(cfg, actions), CommitCreate(Run(cfg, actions), PlainRequest(node, rate, actor, ctx), now), now);
  }

  /** An AI review becomes a waiting command whatever its risk, from an AI principal only. */
  lemma ReviewIsProposedIff(cfg: Config, actions: seq<Action>, node: Node, risk: string, key: string, actor: Actor, ctx: Context, now: int)
    ensures var s := Run(cfg, actions);
            var t := Next(cfg, s, IssueReview(node, risk, key, actor, ctx, now));
            if CanIssue(node, None, ctx) && actor.isAiAgent && KeyIsFree(s, node, ReviewAiRecommendation, key)
            then && Added(s, t, now)
                 && var c := t.all[|s.all|];
                    && c.node == node && c.kind.ReviewAiRecommendation? && c.risk == risk && c.status.WaitingApproval?
                    && c.parameters.workflow.AiSuggestionReview? && c.parameters.ttlSeconds == 86400
                    && c.parameters.idempotencyKey == Some(key) && c.createdAt == now
            else t == s
  {
    hide Run, IssueError, CommitCreate, CanIssue, KeyIsFree, Added;
    RunIsNumbered(cfg, actions);
    ProposalAllowedIff(ReviewRequest(node, risk, key, actor, ctx), actor, ctx);
    CreateEffect(Run(cfg, actions), ReviewRequest(node, risk, key, actor, ctx), now);
    AddedIsLonger(Run(cfg, actions), CommitCreate(Run(cfg, actions), ReviewRequest(node, risk, key, actor, ctx), now), now);
  }

  /** The successor of a command: the same order to the same node, pending, without the old key. */
  predicate IsSuccessorOf(d: Command, c: Command, actor: Actor, now: int) {
    && d.node == c.node && d.kind == c.kind && d.risk == c.risk && d.status.Pending? && d.operator == actor.id
    && d.parameters.targetRate == c.parameters.targetRate && d.parameters.workflow == c.parameters.workflow
    && d.parameters.ttlSeconds == c.parameters.ttlSeconds && d.parameters.retryOf == Some(c.id)
    && d.parameters.idempotencyKey == Some(AutoKey(d.id)) && d.createdAt == now && d.baseline == map[]
  }

  /** What can be tried again, by its status. */
  predicate CanBeRetried(st: Status) { st.Failed? || st.Rejected? || st.Expired? || st.Cancelled? }

  lemma RetryEffect(s: State, id: nat, actor: Actor, known: set<string>, code: string, now: int)
    requires Numbered(s.all)
    ensures var t := RetryStep(s, id, actor, known, code, now);
            if && IsRetained(s, id) && !s.all[id - 1].parameters.workflow.AiSuggestionReview?
               && CanBeRetried(s.all[id - 1].status)
               && MayAct("retry_" + KindName(s.all[id - 1].kind), s.all[id - 1], actor, known, code)
            then Added(s, t, now) && t.all[|s.all|] == NewCommand(|s.all| + 1, RetryRequest(s.all[id - 1], actor.id), now)
            else t == s
  {
    hide ById, Live, CommitCreate, ActionDecision, MayAct, KindName, Base, Added, NewCommand, KeyIsFree;
    IdInWindow(s, id);
    if IsRetained(s, id) {
      ActionAllowedIff("retry_" + KindName(s.all[id - 1].kind), s.all[id - 1], actor, known, code);
      CreateEffect(s, RetryRequest(s.all[id - 1], actor.id), now);
      BlankKeyIsFree(s, s.all[id - 1].node, s.all[id - 1].kind);
    }
  }

  lemma BlankKeyIsFree(s: State, node: Node, kind: Kind)
    ensures KeyIsFree(s, node, kind, "")
  {}

  /** In every run a retry creates a pending successor exactly for a retained command, not a
      review, that failed, was rejected, expired or was cancelled, from someone who may act. */
  lemma RetryIff(cfg: Config, actions: seq<Action>, id: nat, actor: Actor, known: set<string>, code: string, now: int)
    ensures var s := Run(cfg, actions);
            var t := Next(cfg, s, OperatorRetry(id, actor, known, code, now));
            if && IsRetained(s, id) && !s.all[id - 1].parameters.workflow.AiSuggestionReview?
               && CanBeRetried(s.all[id - 1].status)
               && MayAct("retry_" + KindName(s.all[id - 1].kind), s.all[id - 1], actor, known, code)
            then Added(s, t, now) && IsSuccessorOf(t.all[|s.all|], s.all[id - 1], actor, now)
            else t == s
  {
    hide Run, Structure, RetryStep, MayAct, KindName, Added, CanBeRetried, AutoKey;
    RunIsNumbered(cfg, actions);
    var s := Run(cfg, actions);
    RetryEffect(s, id, actor, known, code, now);
    AddedIsLonger(s, RetryStep(s, id, actor, known, code, now), now);
  }

  // ------------------------------------------------------- the clock and heartbeats

  /** Rewriting every retained command by one function. */
  lemma MapOnHistory(s: State, list: seq<Command>)
    requires |list| == |Live(s)|
    ensures var t := Commit(s, list);
            && |t.all| == |s.all| && t == s.(all := t.all)
            && |list| == |s.all| - Base(s.all, RETAINED_COMMANDS)
            && forall i :: 0 <= i < |s.all| ==>
                 t.all[i] == if IsRetained(s, i + 1) then list[i - Base(s.all, RETAINED_COMMANDS)] else s.all[i]
  {
    WindowIsSuffix(s.all, RETAINED_COMMANDS);
    RewriteThenTrim(s.all, RETAINED_COMMANDS, list);
  }

  /** Claimed more than this many seconds ago. */
  predicate IsOverdue(c: Command, ttlSeconds: int, now: int) {
    c.status.Claimed? && c.receivedAt.Some? && now > c.receivedAt.value + ttlSeconds * TICKS_PER_SECOND
  }

  function Lapsed(c: Command, ttlSeconds: int, now: int): Command {
    if IsOverdue(c, ttlSeconds, now) then c.(status := Expired, message := ClaimTimedOut(ttlSeconds), updatedAt := now) else c
  }

  lemma ExpireIsLapse(c: Command, ttlSeconds: int, now: int)
    requires c.status.Claimed? ==> c.receivedAt == Some(c.updatedAt)
    ensures ExpireOne(c, ttlSeconds, now) == Lapsed(c, ttlSeconds, now)
  {}

  /** In every run the expiry of claims hits exactly the retained commands claimed longer ago than
      the given time. */
  lemma ExpiresIff(cfg: Config, actions: seq<Action>, ttlSeconds: int, now: int, i: nat)
    requires i < |Run(cfg, actions).all|
    ensures var s := Run(cfg, actions);
            var t := Next(cfg, s, ExpireClaims(ttlSeconds, now));
            && |t.all| == |s.all| && t == s.(all := t.all)
            && t.all[i] == if IsRetained(s, i + 1) then Lapsed(s.all[i], ttlSeconds, now) else s.all[i]
  {
    hide Run, Live, Base, Commit, ExpireOne, Lapsed, Coherent;
    RunHasStructure(cfg, actions);
    var s := Run(cfg, actions);
    assert Sound(s.all[i]);
    ExpireIsLapse(s.all[i], ttlSeconds, now);
    MapOnHistory(s, ExpireAll(Live(s), ttlSeconds, now));
    if IsRetained(s, i + 1) { LiveIs(s, i); }
  }

  lemma LiveIs(s: State, i: nat)
    requires i < |s.all| && IsRetained(s, i + 1)
    ensures 0 <= i - Base(s.all, RETAINED_COMMANDS) < |Live(s)| && Live(s)[i - Base(s.all, RETAINED_COMMANDS)] == s.all[i]
  {}

  // ------------------------------------------------------------------- the poll

  /** Deliverable to the node. */
  predicate IsDeliverable(c: Command, node: Node) { c.node == node && (c.status.Pending? || c.status.Queued?) }

  /** In every run a poll hands out exactly the retained commands that are deliverable to the node:
      each becomes claimed now, for the first time, and a response that arrives contains it; claims
      that are overdue lapse, and nothing else changes. */
  lemma PollIff(cfg: Config, actions: seq<Action>, ttlSeconds: int, arrives: bool, now: int, i: nat)
    requires i < |Run(cfg, actions).all| && Run(cfg, actions).inbox == []
    ensures var s := Run(cfg, actions);
            var t := Next(cfg, s, Poll(ttlSeconds, arrives, now));
            && |t.all| == |s.all| && t.node == s.node && t.clock == s.clock
            && (if IsRetained(s, i + 1) && IsDeliverable(s.all[i], cfg.me)
                then && t.all[i].status.Claimed? && t.all[i].receivedAt == Some(now) && t.all[i].attempts == 1
                     && t.all[i].claimedBy == NodeCode(cfg.me) && SameIdentity(s.all[i], t.all[i])
                     && (arrives <==> t.all[i] in t.inbox)
                else if IsRetained(s, i + 1) then t.all[i] == Lapsed(s.all[i], ttlSeconds, now)
                else t.all[i] == s.all[i])
  {
    hide Run, Live, Base, Commit, ExpireOne, ClaimOne, Lapsed, Coherent, Delivered, Inv;
    RunHasStructure(cfg, actions);
    var s := Run(cfg, actions);
    var list := ExpireAll(Live(s), ttlSeconds, now);
    assert Sound(s.all[i]);
    ExpireIsLapse(s.all[i], ttlSeconds, now);
    MapOnHistory(s, PollList(s, cfg.me, ttlSeconds, now));
    if IsRetained(s, i + 1) {
      LiveIs(s, i);
      var at := i - Base(s.all, RETAINED_COMMANDS);
      assert list[at] == ExpireOne(s.all[i], ttlSeconds, now);
      PollOne(s.all[i], cfg.me, ttlSeconds, now);
      if IsDeliverable(s.all[i], cfg.me) { DeliveredHas(list, cfg.me, now, at); }
    }
  }

  lemma PollOne(c: Command, node: Node, ttlSeconds: int, now: int)
    requires Sound(c)
    ensures var e := ExpireOne(c, ttlSeconds, now);
            var d := ClaimOne(e, node, "", now);
            && (ClaimableBy(e, node) <==> IsDeliverable(c, node))
            && (if IsDeliverable(c, node)
                then && d.status.Claimed? && d.receivedAt == Some(now) && d.attempts == 1
                     && d.claimedBy == NodeCode(node) && SameIdentity(c, d)
                else d == e)
  {}

  lemma {:induction false} DeliveredHas(cs: seq<Command>, node: Node, now: int, at: nat)
    requires at < |cs| && ClaimableBy(cs[at], node)
    ensures ClaimOne(cs[at], node, "", now) in Delivered(cs, node, "", now)
    decreases |cs|
  {
    hide ClaimOne;
    if at == |cs| - 1 {
    } else {
      DeliveredHas(cs[..|cs| - 1], node, now, at);
    }
  }

  // ------------------------------------------------------ confirmation and results

  /** A reported rate within a thousandth of the set point. */
  predicate IsConfirmedBy(c: Command, rate: real) {
    c.parameters.targetRate.Some? && c.parameters.targetRate.value - 0.001 <= rate <= c.parameters.targetRate.value + 0.001
  }

  /** In every run a reported rate verifies exactly the node's retained applied set points within a
      thousandth of it. */
  lemma ConfirmsIff(cfg: Config, actions: seq<Action>, node: Node, rate: real, now: int, i: nat)
    requires i < |Run(cfg, actions).all|
    ensures var s := Run(cfg, actions);
            var t := Next(cfg, s, RateConfirmed(node, rate, now));
            var c := s.all[i];
            && |t.all| == |s.all| && t == s.(all := t.all)
            && t.all[i] == if IsRetained(s, i + 1) && IsSetPointOf(c, node) && c.status.Applied? && IsConfirmedBy(c, rate)
                           then c.(status := Verified, message := HeartbeatRateVerified(rate), updatedAt := now) else c
  {
    hide Run, Live, Base, Commit, Coherent;
    RunHasStructure(cfg, actions);
    var s := Run(cfg, actions);
    assert Sound(s.all[i]);
    MapOnHistory(s, VerifyRateAll(Live(s), node, rate, now));
    if IsRetained(s, i + 1) { LiveIs(s, i); }
  }

  /** The node's own report confirms it: once the newest set point of the node is applied, the rate
      in force at the node verifies it. */
  lemma InForceConfirms(cfg: Config, actions: seq<Action>, i: nat, now: int)
    requires i < |Run(cfg, actions).all| && ShownAsDone(cfg.me, Run(cfg, actions).all[i]) && IsRetained(Run(cfg, actions), i + 1)
    requires forall j :: i < j < |Run(cfg, actions).all| ==> !IsSetPointOf(Run(cfg, actions).all[j], cfg.me)
    ensures var s := Run(cfg, actions);
            && s.node.setPoint.Some?
            && i < |Next(cfg, s, RateConfirmed(cfg.me, s.node.setPoint.value, now)).all|
            && Next(cfg, s, RateConfirmed(cfg.me, s.node.setPoint.value, now)).all[i].status.Verified?
  {
    hide Run, Next, Round3;
    NewestAcknowledgedIsInForce(cfg, actions, i);
    var s := Run(cfg, actions);
    Round3Error(s.all[i].parameters.targetRate.value);
    ConfirmsIff(cfg, actions, cfg.me, s.node.setPoint.value, now, i);
  }

  /** A heartbeat observes exactly the node's retained commands. */
  lemma HeartbeatObserves(cfg: Config, actions: seq<Action>, node: Node, beat: Heartbeat, i: nat)
    requires i < |Run(cfg, actions).all|
    ensures var s := Run(cfg, actions);
            var t := Next(cfg, s, HeartbeatArrives(node, beat));
            && |t.all| == |s.all| && t == s.(all := t.all)
            && t.all[i] == if IsRetained(s, i + 1) && s.all[i].node == node
                           then Observe(s.all[i], beat.system, beat.now, cfg.window) else s.all[i]
  {
    hide Run, Live, Base, Commit, Observe;
    var s := Run(cfg, actions);
    MapOnHistory(s, ObserveEffects(Live(s), node, beat, cfg.window));
    if IsRetained(s, i + 1) { LiveIs(s, i); }
  }

  /** What a report leaves of a command that is open to results: nothing new when it is verified or
      the report is a repeat, else applied and under observation again, or failed. */
  function AfterReport(c: Command, row: Row, now: int): Command {
    if c.status.Verified? then c
    else if row.status.RowExecuted? then
      if c.status.Applied? && c.message == row.message then c
      else c.(status := Applied, message := row.message, appliedAt := Some(now), verification := Observing, updatedAt := now)
    else if c.status.Failed? && c.message == row.message then c
    else c.(status := Failed, message := row.message, updatedAt := now)
  }

  lemma RecordIsReport(c: Command, row: Row, now: int)
    ensures var r := RecordOne(c, ReportOf(row), row.message, now);
            r.Ok? ==> r.value == AfterReport(c, row, now)
  {}

  lemma ReportEffect(cfg: Config, s: State, r: nat, acknowledged: bool, now: int)
    requires Inv(cfg, s) && r < |s.node.ledger|
    ensures 1 <= s.node.ledger[r].id <= |s.all|
    ensures var row := s.node.ledger[r];
            ReportStep(cfg, s, r, acknowledged, now).all
            == if IsClosed(s, row.id) then s.all else s.all[row.id - 1 := AfterReport(s.all[row.id - 1], row, now)]
  {
    hide Structure, RowsOk, InboxOk, MemoryOk, Acknowledged, Commit, ByIdForNode, RecordOne, IsClosed, Live, ReportOf, AfterReport;
    ResultTakenIff(cfg, s, r, now);
    var row := s.node.ledger[r];
    var answer := RecordResult(Live(s), cfg.me, row.id, ReportOf(row), row.message, now);
    if answer.Ok? {
      var at := ByIdForNode(Live(s), cfg.me, row.id).value;
      RecordIsReport(Live(s)[at], row, now);
      CommitReplaces(s, at, RecordOne(Live(s)[at], ReportOf(row), row.message, now).value);
      InvIsNumbered(cfg, s);
      WindowHas(s, at);
    }
  }

  lemma WindowHas(s: State, at: nat)
    requires at < |Live(s)|
    ensures Base(s.all, RETAINED_COMMANDS) + at < |s.all| && s.all[Base(s.all, RETAINED_COMMANDS) + at] == Live(s)[at]
  {}

  /** In every run a report makes its command applied or failed, as its row says, unless the command
      is verified already, has heard the same before, or is closed to results; no other command
      changes. */
  lemma ReportOutcome(cfg: Config, actions: seq<Action>, r: nat, acknowledged: bool, now: int)
    requires r < |Run(cfg, actions).node.ledger|
    ensures 1 <= Run(cfg, actions).node.ledger[r].id <= |Run(cfg, actions).all|
    ensures var s := Run(cfg, actions);
            var row := s.node.ledger[r];
            Next(cfg, s, ReportRow(r, acknowledged, now)).all
            == if IsClosed(s, row.id) then s.all else s.all[row.id - 1 := AfterReport(s.all[row.id - 1], row, now)]
  {
    hide Run, Inv, ReportStep, IsClosed, AfterReport;
    RunKeepsInv(cfg, actions);
    ReportEffect(cfg, Run(cfg, actions), r, acknowledged, now);
  }
}
