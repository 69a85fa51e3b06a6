/** The guarantees of the control loop, for every sequence of actions. */
module ControlLoopTheorems {
  import opened Basics
  import opened Models
  import opened Retention
  import opened SafetyGovernor
  import opened CommandVerifier
  import opened CommandLifecycle
  import opened CommandControl
  import opened NodeAgent
  import opened ControlLoop
  import opened ControlLoopSteps
  import opened ControlLoopSafety

  lemma RunHasStructure(cfg: Config, actions: seq<Action>)
    ensures Structure(Run(cfg, actions).all)
  {
    hide Next;
    RunKeepsInv(cfg, actions);
  }

  lemma RunStep(cfg: Config, actions: seq<Action>, a: Action)
    ensures Run(cfg, actions + [a]) == Next(cfg, Run(cfg, actions), a)
  {
    hide Next;
    assert (actions + [a])[..|actions|] == actions;
  }

  // --------------------------------------------------------------- the node

  /** The set points a node executes have strictly increasing command ids: an older rate
      never overwrites a newer one. */
  lemma SetPointsOnlyAdvance(cfg: Config, actions: seq<Action>, j: nat, k: nat)
    requires j < k < |Run(cfg, actions).node.ledger|
    requires IsExecutedRate(Run(cfg, actions).node.ledger[j]) && IsExecutedRate(Run(cfg, actions).node.ledger[k])
    ensures Run(cfg, actions).node.ledger[j].id < Run(cfg, actions).node.ledger[k].id
  {
    hide Next;
    RunKeepsInv(cfg, actions);
  }

  /** A restart is invisible: whatever process memory held when it was lost (including a rate
      set but not yet written to the ledger), the restored set point is the one the last
      completed command left, which is that of the executed row with the highest id. */
  lemma RestartIsInvisible(cfg: Config, actions: seq<Action>, lostIds: set<nat>, lostSetPoint: Option<real>)
    ensures var n := Run(cfg, actions).node;
            var restored := Restart(NodeState(n.ledger, lostIds, lostSetPoint), cfg.limit).setPoint;
            && restored == n.setPoint
            && (restored.None? <==> forall k :: 0 <= k < |n.ledger| ==> !IsExecutedRate(n.ledger[k]))
            && (restored.Some? ==>
                  && 0.0 <= restored.value <= Round3(cfg.limit)
                  && exists k :: 0 <= k < |n.ledger| && IsExecutedRate(n.ledger[k])
                       && n.ledger[k].parameters.targetRate.Some?
                       && restored.value == Round3(n.ledger[k].parameters.targetRate.value)
                       && forall j :: 0 <= j < |n.ledger| && IsExecutedRate(n.ledger[j]) ==> n.ledger[j].id <= n.ledger[k].id)
  {
    hide Next;
    RunKeepsInv(cfg, actions);
    var s := Run(cfg, actions);
    RestoreFindsLast(cfg, s);
    var last := LastExecuted(s.node.ledger);
    if last.Some? {
      var rate := s.node.ledger[last.value].parameters.targetRate.value;
      Round3Monotone(rate, cfg.limit);
      Round3NonNegative(rate);
      forall j | 0 <= j < |s.node.ledger| && IsExecutedRate(s.node.ledger[j])
        ensures s.node.ledger[j].id <= s.node.ledger[last.value].id
      {
        assert j <= last.value;
      }
    }
  }

  /** No false acknowledgement: a set point shown as applied or verified was executed, by
      exactly one ledger row. */
  lemma HonestAcknowledgement(cfg: Config, actions: seq<Action>, i: nat)
    requires i < |Run(cfg, actions).all| && ShownAsDone(cfg.me, Run(cfg, actions).all[i])
    ensures var ledger := Run(cfg, actions).node.ledger;
            exists k :: && 0 <= k < |ledger| && ledger[k].id == i + 1 && IsExecutedRate(ledger[k])
                        && forall j :: 0 <= j < |ledger| && j != k ==> ledger[j].id != i + 1
  {
    hide Next;
    RunKeepsInv(cfg, actions);
    var ledger := Run(cfg, actions).node.ledger;
    var k :| 0 <= k < |ledger| && ledger[k].id == i + 1 && IsExecutedRate(ledger[k]);
    forall j | 0 <= j < |ledger| && j != k
      ensures ledger[j].id != i + 1
    {
      assert j < k || k < j;
    }
  }

  predicate LeftNoTrace(st: Status) { IsOpen(st) || st.Superseded? || st.Rejected? }

  /** Ledger row k stems from the one claim of the command it records. */
  predicate RowIsDue(cfg: Config, s: State, k: nat)
    requires k < |s.node.ledger|
  {
    var row := s.node.ledger[k];
    && HandedOut(s.all, cfg.me, row.id, row.kind, row.parameters)
    && !LeftNoTrace(s.all[row.id - 1].status)
    && !s.all[row.id - 1].parameters.workflow.AiSuggestionReview?
  }

  lemma InvGivesDueRows(cfg: Config, s: State, k: nat)
    requires Inv(cfg, s) && k < |s.node.ledger|
    ensures RowIsDue(cfg, s, k)
  {}

  /** No undue delivery: every ledger row stems from the one claim of the command it records,
      and a command that is waiting, pending, queued, superseded or rejected has left none. */
  lemma NoUndueDelivery(cfg: Config, actions: seq<Action>, k: nat)
    requires k < |Run(cfg, actions).node.ledger|
    ensures RowIsDue(cfg, Run(cfg, actions), k)
  {
    hide Next;
    RunKeepsInv(cfg, actions);
    InvGivesDueRows(cfg, Run(cfg, actions), k);
  }

  // ------------------------------------------------------------- the manager

  /** A retained open command is the newest of its pair in the whole history. */
  predicate RetainedOpenIsNewest(s: State) {
    forall i, j ::
      0 <= i < |Live(s)| && IsOpen(Live(s)[i].status) && 0 <= j < |s.all| && SamePair(Live(s)[i], s.all[j]) ==>
        s.all[j].id <= Live(s)[i].id
  }

  predicate OneOpenPerPair(s: State) {
    forall i, j ::
      0 <= i < |Live(s)| && 0 <= j < |Live(s)| && SamePair(Live(s)[i], Live(s)[j])
      && IsOpen(Live(s)[i].status) && IsOpen(Live(s)[j].status) ==>
        i == j
  }

  lemma NewestOfPair(s: State, i: nat, j: nat)
    requires Structure(s.all)
    requires i < |Live(s)| && IsOpen(Live(s)[i].status) && j < |s.all| && SamePair(Live(s)[i], s.all[j])
    ensures s.all[j].id <= Live(s)[i].id
  {}

  lemma OnlyOpenOfPair(s: State, i: nat, j: nat)
    requires Structure(s.all)
    requires i < |Live(s)| && IsOpen(Live(s)[i].status) && j < |Live(s)| && IsOpen(Live(s)[j].status)
    requires SamePair(Live(s)[i], Live(s)[j])
    ensures i == j
  {}

  lemma StructureGivesOneOpen(s: State)
    requires Structure(s.all)
    ensures RetainedOpenIsNewest(s) && OneOpenPerPair(s)
  {
    forall i, j | 0 <= i < |Live(s)| && IsOpen(Live(s)[i].status) && 0 <= j < |s.all| && SamePair(Live(s)[i], s.all[j])
      ensures s.all[j].id <= Live(s)[i].id
    {
      NewestOfPair(s, i, j);
    }
    forall i, j | 0 <= i < |Live(s)| && 0 <= j < |Live(s)| && SamePair(Live(s)[i], Live(s)[j])
                  && IsOpen(Live(s)[i].status) && IsOpen(Live(s)[j].status)
      ensures i == j
    {
      OnlyOpenOfPair(s, i, j);
    }
  }

  lemma ClaimedAtMostOnce(all: seq<Command>, i: nat)
    requires Structure(all) && i < |all|
    ensures all[i].attempts <= 1
  {}

  /** In every reachable state ids are consecutive from 1 (so never reused, although only the
      last 100 commands are retained), every command was claimed at most once, and a retained
      open command is the newest ever created for its node and kind, hence the only open one. */
  lemma OpenCommandIsNewest(cfg: Config, actions: seq<Action>)
    ensures Numbered(Run(cfg, actions).all)
    ensures MaxId(Live(Run(cfg, actions))) == |Run(cfg, actions).all|
    ensures forall i :: 0 <= i < |Run(cfg, actions).all| ==> Run(cfg, actions).all[i].attempts <= 1
    ensures RetainedOpenIsNewest(Run(cfg, actions)) && OneOpenPerPair(Run(cfg, actions))
  {
    hide Next;
    RunKeepsInv(cfg, actions);
    NextIdIsFresh(Run(cfg, actions));
    StructureGivesOneOpen(Run(cfg, actions));
    forall i | 0 <= i < |Run(cfg, actions).all|
      ensures Run(cfg, actions).all[i].attempts <= 1
    {
      ClaimedAtMostOnce(Run(cfg, actions).all, i);
    }
  }

  /** Along any continuation of a run every command keeps its identity, an absorbing status
      is kept for ever, and the claim count never falls. */
  lemma {:induction false} AbsorbingForEver(cfg: Config, past: seq<Action>, future: seq<Action>, i: nat)
    requires i < |Run(cfg, past).all|
    ensures var now, later := Run(cfg, past).all, Run(cfg, past + future).all;
            && i < |later|
            && SameIdentity(now[i], later[i])
            && now[i].attempts <= later[i].attempts
            && (IsAbsorbing(now[i].status) ==> later[i].status == now[i].status)
  {
    hide Next, Sound, StatusStep, Coherent;
    if future == [] {
      assert past + future == past;
    } else {
      var front := past + future[..|future| - 1];
      AbsorbingForEver(cfg, past, future[..|future| - 1], i);
      assert (past + future)[..|past + future| - 1] == front;
      var s := Run(cfg, front);
      var a := future[|future| - 1];
      RunHasStructure(cfg, front);
      StepEvolves(cfg, s, a);
      assert Transition(s.all[i], Next(cfg, s, a).all[i], CauseOf(a));
      TransitionKeepsSound(s.all[i], Next(cfg, s, a).all[i], CauseOf(a));
    }
  }

  /** `failed` is left only by a later node result, and only towards `applied`. */
  lemma FailedReopensOnlyByResult(cfg: Config, actions: seq<Action>, a: Action, i: nat)
    requires i < |Run(cfg, actions).all| && Run(cfg, actions).all[i].status.Failed?
    ensures var later := Next(cfg, Run(cfg, actions), a).all;
            i < |later| && (later[i].status.Failed? || (later[i].status.Applied? && CauseOf(a).NodeResult?))
  {
    hide Next;
    RunKeepsInv(cfg, actions);
    var s := Run(cfg, actions);
    StepEvolves(cfg, s, a);
    TransitionKeepsSound(s.all[i], Next(cfg, s, a).all[i], CauseOf(a));
  }

  /** A verdict and the status it set never disagree. */
  lemma VerdictMatchesStatus(cfg: Config, actions: seq<Action>, i: nat)
    requires i < |Run(cfg, actions).all|
    ensures var c := Run(cfg, actions).all[i];
            && (c.verification.Effective? || c.verification.Partial? ==> c.status.Verified?)
            && (c.verification.VerdictFailed? ==> c.status.Failed?)
  {
    hide Next;
    RunKeepsInv(cfg, actions);
    assert Sound(Run(cfg, actions).all[i]);
  }

  // -------------------------------------------------------------- the approval gate

  /** A dispatch command that was made deliverable, or went any further. */
  predicate PastTheGate(c: Command) {
    && c.parameters.workflow.DispatchTargetRate?
    && (|| c.attempts > 0
        || !(c.status.WaitingApproval? || c.status.Superseded? || c.status.Rejected? || c.status.Cancelled?))
  }

  predicate Confirmed(actor: Actor, code: string) { actor.role == SYSTEM_ADMIN && code == CONFIRMATION_CODE }

  /** Action `a` is a confirmed approval that made command `id` pending, or a confirmed retry
      that created it. */
  predicate AdmittingStep(a: Action, before: seq<Command>, after: seq<Command>, id: nat) {
    match a
    case OperatorApprove(target, actor, _, code, _) =>
      && target == id && Confirmed(actor, code)
      && 1 <= id <= |before| && |before| == |after|
      && before[id - 1].status.WaitingApproval? && after[id - 1].status.Pending?
    case OperatorRetry(_, actor, _, code, _) =>
      Confirmed(actor, code) && |before| + 1 == id == |after|
    case _ => false
  }

  predicate Admits(cfg: Config, actions: seq<Action>, k: nat, id: nat) {
    k < |actions| && AdmittingStep(actions[k], Run(cfg, actions[..k]).all, Run(cfg, actions[..k + 1]).all, id)
  }

  lemma AdmitsIsMonotone(cfg: Config, actions: seq<Action>, k: nat, id: nat)
    requires actions != [] && Admits(cfg, actions[..|actions| - 1], k, id)
    ensures Admits(cfg, actions, k, id)
  {
    hide Next;
    var front := actions[..|actions| - 1];
    assert front[..k] == actions[..k] && front[..k + 1] == actions[..k + 1];
  }

  lemma ApprovalIsConfirmed(s: State, id: nat, actor: Actor, known: set<string>, code: string, now: int, i: nat)
    requires Structure(s.all) && i < |s.all|
    requires var t := ApproveStep(s, id, actor, known, code, now);
             && i < |t.all| && s.all[i].parameters.workflow.DispatchTargetRate?
             && s.all[i].status.WaitingApproval? && !t.all[i].status.WaitingApproval?
    ensures s.all[i].id == id && Confirmed(actor, code)
    ensures |ApproveStep(s, id, actor, known, code, now).all| == |s.all|
  {
    hide ReviewControlAction, KindName, NodeCode, MeansHigh, LastN;
    assert ServiceApprove(Live(s), id, actor, known, code, now).Ok?;
    var at := ById(Live(s), id).value;
    var c := Live(s)[at];
    var d := if c.parameters.workflow.AiSuggestionReview? then ApproveHumanReviewOne(c, actor.id, now).value
             else ApproveOne(c, actor.id, now).value;
    ReplaceTouchesOne(s, at, d);
    assert Sound(s.all[i]);
    GateAllowsIff(KindName(c.kind), NodeCode(c.node), c.risk, actor.role, actor.id, known, code, "normal");
  }

  lemma RetryGate(c: Command, actor: Actor, known: set<string>, code: string)
    requires MeansHigh(c.risk) && RetryDecision(c, actor, known, code).allow
    ensures Confirmed(actor, code)
  {
    hide ReviewControlAction, KindName, NodeCode, MeansHigh;
    GateAllowsIff("retry_" + KindName(c.kind), NodeCode(c.node), c.risk, actor.role, actor.id, known, code, "normal");
  }

  /** The command a retry creates inherits the source's risk and workflow. */
  lemma RetryInherits(s: State, at: nat, actor: string, now: int)
    requires Structure(s.all) && at < |Live(s)| && !Live(s)[at].parameters.workflow.AiSuggestionReview?
    requires var t := CommitCreate(s, RetryRequest(Live(s)[at], actor), now); |t.all| == |s.all| + 1
    ensures var born := CommitCreate(s, RetryRequest(Live(s)[at], actor), now).all[|s.all|];
            born.risk == Live(s)[at].risk && born.parameters.workflow == Live(s)[at].parameters.workflow
  {}

  lemma RetrialIsConfirmed(s: State, id: nat, actor: Actor, known: set<string>, code: string, now: int)
    requires Structure(s.all)
    requires var t := RetryStep(s, id, actor, known, code, now);
             |t.all| == |s.all| + 1 && Sound(t.all[|s.all|]) && t.all[|s.all|].parameters.workflow.DispatchTargetRate?
    ensures Confirmed(actor, code)
  {
    hide RetryDecision, CommitCreate, MeansHigh, Structure;
    var at := ById(Live(s), id).value;
    RetryInherits(s, at, actor.id, now);
    RetryGate(Live(s)[at], actor, known, code);
  }

  /** The only statuses a dispatch command can pass the gate from: waiting, by approval. */
  lemma GateOpensByApproval(c: Command, d: Command, cause: Cause)
    requires Sound(c) && Transition(c, d, cause) && !PastTheGate(c) && PastTheGate(d)
    ensures cause.Approval? && c.status.WaitingApproval? && d.status.Pending?
  {}

  lemma GateIsPassedByAdmission(cfg: Config, s: State, a: Action, i: nat)
    requires Structure(s.all)
    requires i < |Next(cfg, s, a).all| && PastTheGate(Next(cfg, s, a).all[i])
    requires i < |s.all| ==> !PastTheGate(s.all[i])
    ensures AdmittingStep(a, s.all, Next(cfg, s, a).all, i + 1)
  {
    var t := Next(cfg, s, a);
    StepEvolves(cfg, s, a);
    if i < |s.all| {
      assert Sound(s.all[i]);
      GateOpensByApproval(s.all[i], t.all[i], CauseOf(a));
      ApprovalIsConfirmed(s, a.id, a.actor, a.known, a.code, a.now, i);
    } else {
      assert Newborn(t.all[i], CauseOf(a));
      RetrialIsConfirmed(s, a.id, a.actor, a.known, a.code, a.now);
    }
  }

  lemma LastActionAdmits(cfg: Config, front: seq<Action>, a: Action, id: nat)
    requires 1 <= id <= |Run(cfg, front + [a]).all| && PastTheGate(Run(cfg, front + [a]).all[id - 1])
    requires id <= |Run(cfg, front).all| ==> !PastTheGate(Run(cfg, front).all[id - 1])
    ensures AdmittingStep(a, Run(cfg, front).all, Run(cfg, front + [a]).all, id)
  {
    hide Next;
    RunHasStructure(cfg, front);
    RunStep(cfg, front, a);
    GateIsPassedByAdmission(cfg, Run(cfg, front), a, id - 1);
  }

  /** Approval before delivery: in every run, each dispatch set point that is pending, or was
      ever claimed, applied or verified, was admitted by an earlier approval or retry that
      carried the confirmation code from a system administrator. */
  lemma {:induction false} ApprovalBeforeDelivery(cfg: Config, actions: seq<Action>, id: nat)
    requires 1 <= id <= |Run(cfg, actions).all| && PastTheGate(Run(cfg, actions).all[id - 1])
    ensures exists k: nat :: Admits(cfg, actions, k, id)
  {
    hide Next;
    if actions == [] {
    } else {
      var front := actions[..|actions| - 1];
      if id <= |Run(cfg, front).all| && PastTheGate(Run(cfg, front).all[id - 1]) {
        ApprovalBeforeDelivery(cfg, front, id);
        var k: nat :| Admits(cfg, front, k, id);
        AdmitsIsMonotone(cfg, actions, k, id);
      } else {
        var a := actions[|actions| - 1];
        assert front + [a] == actions;
        LastActionAdmits(cfg, front, a, id);
        assert actions[..|front|] == front && actions[..|front| + 1] == actions;
        assert Admits(cfg, actions, |front|, id);
      }
    }
  }

  predicate NeverHandedOut(c: Command) {
    && c.attempts == 0
    && (c.status.WaitingApproval? || c.status.Verified? || c.status.Rejected? || c.status.Cancelled? || c.status.Superseded?)
  }

  lemma ReviewStaysInside(all: seq<Command>, i: nat)
    requires Structure(all) && i < |all| && all[i].parameters.workflow.AiSuggestionReview?
    ensures NeverHandedOut(all[i])
  {}

  /** An AI suggestion review is never deliverable: not pending, claimed, applied or failed in
      any run, never counted as a delivery attempt, and never in a node's ledger. */
  lemma ReviewsAreNeverDelivered(cfg: Config, actions: seq<Action>, i: nat)
    requires i < |Run(cfg, actions).all| && Run(cfg, actions).all[i].parameters.workflow.AiSuggestionReview?
    ensures NeverHandedOut(Run(cfg, actions).all[i])
    ensures forall k :: 0 <= k < |Run(cfg, actions).node.ledger| ==> Run(cfg, actions).node.ledger[k].id != i + 1
  {
    hide Next;
    RunKeepsInv(cfg, actions);
    ReviewStaysInside(Run(cfg, actions).all, i);
    forall k | 0 <= k < |Run(cfg, actions).node.ledger|
      ensures Run(cfg, actions).node.ledger[k].id != i + 1
    {
      NoUndueDelivery(cfg, actions, k);
    }
  }
}
