/** The authorization boundary over the command manager: every operator action is reviewed by
    the safety governor before it may change a command. */
module CommandControl {
  import opened Basics
  import opened Models
  import opened SafetyGovernor
  import opened CommandLifecycle

  datatype Actor = Actor(role: string, id: string, isAiAgent: bool)

  datatype ServiceError =
    | CommandNotFound
    | ControlReadOnly
    | NodeUnknown
    | ExceedsPhysicalCapacity
    | GateClosed(reasonCode: string)
    | AiPrincipalRequired
    | ReviewNotRetryable
    | ManagerRefused(refusal: Refusal)

  type Answer = Result<seq<Command>, ServiceError>

  function FromManager(r: Result<seq<Command>, Refusal>): Answer {
    match r
    case Ok(cs) => Ok(cs)
    case Err(e) => Err(ManagerRefused(e))
  }

  // ------------------------------------------------------------------ issuing

  /** What the caller's environment supplies: registered nodes, the node's reported physical
      limit, the control mode and the production facts used as baseline. */
  datatype Context = Context(known: set<string>, limit: Option<real>, readOnly: bool, baseline: SystemProduction)

  function PlainRate(rate: real): Parameters { Parameters(Some(rate), Plain, None, 0, None) }

  function DispatchRate(rate: real, key: string): Parameters {
    Parameters(Some(rate), DispatchTargetRate, Some(key), 1800, None)
  }

  function ReviewParameters(key: string): Parameters {
    Parameters(None, AiSuggestionReview, Some(key), 86400, None)
  }

  function PlainRequest(node: Node, rate: real, actor: Actor, ctx: Context): Request {
    Request(node, SetTargetRate, "low", Pending, actor.id, PlainRate(rate), ctx.baseline)
  }

  function DispatchRequest(node: Node, rate: real, key: string, actor: Actor, ctx: Context): Request {
    Request(node, SetTargetRate, "high", WaitingApproval, actor.id, DispatchRate(rate, key), ctx.baseline)
  }

  function ReviewRequest(node: Node, risk: string, key: string, actor: Actor, ctx: Context): Request {
    Request(node, ReviewAiRecommendation, risk, WaitingApproval, actor.id, ReviewParameters(key), ctx.baseline)
  }

  function IssueDecision(q: Request, actor: Actor, ctx: Context): Decision {
    ReviewControlAction(KindName(q.kind), NodeCode(q.node), q.risk, actor.role, actor.id, ctx.known, "")
  }

  /** Why a set point may not be issued. A dispatch proposal tolerates a missing confirmation,
      because it only creates a command that waits for approval. */
  function IssueError(q: Request, actor: Actor, ctx: Context, allowConfirmationPending: bool): Option<ServiceError> {
    var decision := IssueDecision(q, actor, ctx);
    if ctx.readOnly then Some(ControlReadOnly)
    else if NodeCode(q.node) !in ctx.known then Some(NodeUnknown)
    else if q.kind.SetTargetRate? && q.parameters.targetRate.Some? && ctx.limit.Some?
            && q.parameters.targetRate.value > ctx.limit.value + 0.000000001 then Some(ExceedsPhysicalCapacity)
    else if q.kind.ReviewAiRecommendation? && !actor.isAiAgent then Some(AiPrincipalRequired)
    else if !decision.allow && !(allowConfirmationPending && decision.reasonCode == "confirmation_code_required") then
      Some(GateClosed(decision.reasonCode))
    else None
  }

  // ----------------------------------------------------------------- lifecycle

  function ActionDecision(action: string, c: Command, actor: Actor, known: set<string>, code: string): Decision {
    ReviewControlAction(action, NodeCode(c.node), c.risk, actor.role, actor.id, known, code)
  }

  function ApproveDecision(c: Command, actor: Actor, known: set<string>, code: string): Decision {
    ActionDecision(KindName(c.kind), c, actor, known, code)
  }

  function RetryDecision(c: Command, actor: Actor, known: set<string>, code: string): Decision {
    ActionDecision("retry_" + KindName(c.kind), c, actor, known, code)
  }

  function LifecycleDecision(action: string, c: Command, actor: Actor): Decision {
    ReviewManualApproval(action, actor.role, actor.id, "", NodeCode(c.node), "low")
  }

  function ServiceApprove(cs: seq<Command>, id: nat, actor: Actor, known: set<string>, code: string, now: int): Answer {
    var at := ById(cs, id);
    if at.None? then Err(CommandNotFound)
    else if !ApproveDecision(cs[at.value], actor, known, code).allow then
      Err(GateClosed(ApproveDecision(cs[at.value], actor, known, code).reasonCode))
    else if cs[at.value].parameters.workflow.AiSuggestionReview? then
      FromManager(ApproveHumanReview(cs, id, actor.id, now))
    else FromManager(Approve(cs, id, actor.id, now))
  }

  function ServiceReject(cs: seq<Command>, id: nat, actor: Actor, now: int): Answer {
    var at := ById(cs, id);
    if at.None? then Err(CommandNotFound)
    else if !LifecycleDecision("reject_command", cs[at.value], actor).allow then
      Err(GateClosed(LifecycleDecision("reject_command", cs[at.value], actor).reasonCode))
    else FromManager(Reject(cs, id, actor.id, now))
  }

  function ServiceCancel(cs: seq<Command>, id: nat, actor: Actor, reason: string, now: int): Answer {
    var at := ById(cs, id);
    if at.None? then Err(CommandNotFound)
    else if !LifecycleDecision("cancel_command", cs[at.value], actor).allow then
      Err(GateClosed(LifecycleDecision("cancel_command", cs[at.value], actor).reasonCode))
    else FromManager(Cancel(cs, id, actor.id, reason, now))
  }

  /** Why a retry is refused; None when a new pending command will be created. */
  function RetryError(cs: seq<Command>, id: nat, actor: Actor, known: set<string>, code: string): Option<ServiceError> {
    var at := ById(cs, id);
    if at.None? then Some(CommandNotFound)
    else if cs[at.value].parameters.workflow.AiSuggestionReview? then Some(ReviewNotRetryable)
    else if !RetryDecision(cs[at.value], actor, known, code).allow then
      Some(GateClosed(RetryDecision(cs[at.value], actor, known, code).reasonCode))
    else if !IsRetryable(cs[at.value].status) then Some(ManagerRefused(CannotRetry(cs[at.value].status)))
    else None
  }

  // -------------------------------------------------------------- implementation

  predicate Answered(before: seq<Command>, after: seq<Command>, error: Option<ServiceError>, spec: Answer) {
    match spec
    case Ok(cs) => error.None? && after == cs
    case Err(e) => error == Some(e) && after == before
  }

  /** The service keeps the manager's list and the log of safety decisions. A decision is
      logged before it is acted on, whether or not it allows the action. */
  class ControlService {
    const manager: CommandManager
    var decisions: seq<Decision>

    constructor ()
      ensures fresh(manager) && manager.commands == [] && decisions == []
    {
      manager := new CommandManager();
      decisions := [];
    }

    method Issue(q: Request, actor: Actor, ctx: Context, allowConfirmationPending: bool, now: int)
      returns (error: Option<ServiceError>)
      modifies this`decisions, manager
      ensures error == IssueError(q, actor, ctx, allowConfirmationPending)
      ensures manager.commands == if error.None? then Create(old(manager.commands), q, now) else old(manager.commands)
      ensures decisions == if error.None? || error.value.GateClosed? then old(decisions) + [IssueDecision(q, actor, ctx)]
                           else old(decisions)
    {
      if ctx.readOnly { return Some(ControlReadOnly); }
      if NodeCode(q.node) !in ctx.known { return Some(NodeUnknown); }
      if q.kind.SetTargetRate? && q.parameters.targetRate.Some? && ctx.limit.Some?
         && q.parameters.targetRate.value > ctx.limit.value + 0.000000001 {
        return Some(ExceedsPhysicalCapacity);
      }
      if q.kind.ReviewAiRecommendation? && !actor.isAiAgent { return Some(AiPrincipalRequired); }
      var decision := IssueDecision(q, actor, ctx);
      decisions := decisions + [decision];
      if !decision.allow && !(allowConfirmationPending && decision.reasonCode == "confirmation_code_required") {
        return Some(GateClosed(decision.reasonCode));
      }
      var _, _, _ := manager.CreateCommand(q, now);
      return None;
    }

    method ApproveCommand(id: nat, actor: Actor, known: set<string>, code: string, now: int)
      returns (error: Option<ServiceError>)
      modifies this`decisions, manager
      ensures Answered(old(manager.commands), manager.commands, error,
                       ServiceApprove(old(manager.commands), id, actor, known, code, now))
      ensures ById(old(manager.commands), id).Some? ==>
                decisions == old(decisions)
                             + [ApproveDecision(old(manager.commands)[ById(old(manager.commands), id).value], actor, known, code)]
      ensures ById(old(manager.commands), id).None? ==> decisions == old(decisions)
    {
      var at := manager.Find(id);
      if at.None? { return Some(CommandNotFound); }
      var c := manager.commands[at.value];
      var decision := ApproveDecision(c, actor, known, code);
      decisions := decisions + [decision];
      if !decision.allow { return Some(GateClosed(decision.reasonCode)); }
      var refusal;
      if c.parameters.workflow.AiSuggestionReview? {
        refusal := manager.ApproveReview(id, actor.id, now);
      } else {
        refusal := manager.ApproveCommand(id, actor.id, now);
      }
      error := if refusal.None? then None else Some(ManagerRefused(refusal.value));
    }

    method RejectCommand(id: nat, actor: Actor, now: int) returns (error: Option<ServiceError>)
      modifies this`decisions, manager
      ensures Answered(old(manager.commands), manager.commands, error,
                       ServiceReject(old(manager.commands), id, actor, now))
      ensures decisions == if ById(old(manager.commands), id).None? then old(decisions)
                           else
                             var c := old(manager.commands)[ById(old(manager.commands), id).value];
                             old(decisions) + [LifecycleDecision("reject_command", c, actor)]
    {
      var at := manager.Find(id);
      if at.None? { return Some(CommandNotFound); }
      var decision := LifecycleDecision("reject_command", manager.commands[at.value], actor);
      decisions := decisions + [decision];
      if !decision.allow { return Some(GateClosed(decision.reasonCode)); }
      var refusal := manager.RejectCommand(id, actor.id, now);
      error := if refusal.None? then None else Some(ManagerRefused(refusal.value));
    }

    method CancelCommand(id: nat, actor: Actor, reason: string, now: int) returns (error: Option<ServiceError>)
      modifies this`decisions, manager
      ensures Answered(old(manager.commands), manager.commands, error,
                       ServiceCancel(old(manager.commands), id, actor, reason, now))
      ensures decisions == if ById(old(manager.commands), id).None? then old(decisions)
                           else
                             var c := old(manager.commands)[ById(old(manager.commands), id).value];
                             old(decisions) + [LifecycleDecision("cancel_command", c, actor)]
    {
      var at := manager.Find(id);
      if at.None? { return Some(CommandNotFound); }
      var decision := LifecycleDecision("cancel_command", manager.commands[at.value], actor);
      decisions := decisions + [decision];
      if !decision.allow { return Some(GateClosed(decision.reasonCode)); }
      var refusal, _ := manager.CancelCommand(id, actor.id, reason, now);
      error := if refusal.None? then None else Some(ManagerRefused(refusal.value));
    }

    method RetryCommand(id: nat, actor: Actor, known: set<string>, code: string, now: int)
      returns (error: Option<ServiceError>)
      modifies this`decisions, manager
      ensures error == RetryError(old(manager.commands), id, actor, known, code)
      ensures error.Some? ==> manager.commands == old(manager.commands)
      ensures decisions == if error == Some(CommandNotFound) || error == Some(ReviewNotRetryable) then old(decisions)
                           else
                             var c := old(manager.commands)[ById(old(manager.commands), id).value];
                             old(decisions) + [RetryDecision(c, actor, known, code)]
      ensures error.None? ==>
                var at := ById(old(manager.commands), id);
                && at.Some?
                && manager.commands
                   == Create(old(manager.commands), RetryRequest(old(manager.commands)[at.value], actor.id), now)
                && decisions[|decisions| - 1].allow
    {
      var at := manager.Find(id);
      if at.None? { return Some(CommandNotFound); }
      var c := manager.commands[at.value];
      if c.parameters.workflow.AiSuggestionReview? { return Some(ReviewNotRetryable); }
      var decision := RetryDecision(c, actor, known, code);
      decisions := decisions + [decision];
      if !decision.allow { return Some(GateClosed(decision.reasonCode)); }
      var refusal := manager.RetryCommand(id, actor.id, now);
      error := if refusal.None? then None else Some(ManagerRefused(refusal.value));
    }
  }
}
