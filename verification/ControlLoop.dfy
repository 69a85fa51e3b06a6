/** Central and one node as a single state machine. Central keeps the last 100 commands; the
    model also keeps the full history, of which that list is the window. The link is lossy: a
    poll response or a result acknowledgement may be lost, a result may be handled late or
    more than once, and the node may crash and restart at any point. Other nodes are
    unconstrained. A run is any sequence of actions; a refused action changes nothing. */
module ControlLoop {
  import opened Basics
  import opened Models
  import opened Retention
  import opened SafetyGovernor
  import opened CommandVerifier
  import opened CommandLifecycle
  import opened CommandControl
  import opened NodeAgent

  /** The node under consideration, its physical limit and the verification window. */
  datatype Config = Config(me: Node, limit: real, window: Window)

  datatype State = State(
    all: seq<Command>,
    node: NodeState,
    inbox: seq<Command>,
    clock: int)

  const INITIAL := State([], FRESH_NODE, [], 0)

  datatype Action =
    | IssueTargetRate(node: Node, rate: real, actor: Actor, ctx: Context, now: int)
    | IssueDispatch(node: Node, rate: real, key: string, actor: Actor, ctx: Context, now: int)
    | IssueReview(node: Node, risk: string, key: string, actor: Actor, ctx: Context, now: int)
    | IssuePolicy(node: Node, name: string, risk: string, status: Status, operator: string, now: int)
    | OperatorApprove(id: nat, actor: Actor, known: set<string>, code: string, now: int)
    | OperatorReject(id: nat, actor: Actor, now: int)
    | OperatorCancel(id: nat, actor: Actor, reason: string, now: int)
    | OperatorRetry(id: nat, actor: Actor, known: set<string>, code: string, now: int)
    | ExpireClaims(ttlSeconds: int, now: int)
    | HeartbeatArrives(node: Node, beat: Heartbeat)
    | RateConfirmed(node: Node, rate: real, now: int)
    | OtherPoll(node: Node, ttlSeconds: int, now: int)
    | OtherReport(node: Node, id: nat, report: ReportStatus, message: Message, now: int)
    | Poll(ttlSeconds: int, responseArrives: bool, now: int)
    | HandleNext(nodeNow: int)
    | ReportRow(row: nat, acknowledged: bool, now: int)
    | CrashAndRestart

  function Live(s: State): seq<Command> { LastN(s.all, RETAINED_COMMANDS) }

  function Commit(s: State, list: seq<Command>): State {
    s.(all := Rewrite(s.all, RETAINED_COMMANDS, list))
  }

  function CommitCreate(s: State, q: Request, now: int): State {
    if Duplicate(Live(s), q).Some? then s else Commit(s, Appended(Live(s), q, now))
  }

  function CommitAnswer(s: State, answer: Answer): State {
    if answer.Ok? then Commit(s, answer.value) else s
  }

  function IssueStep(s: State, q: Request, actor: Actor, ctx: Context, pending: bool, now: int): State {
    if IssueError(q, actor, ctx, pending).Some? then s else CommitCreate(s, q, now)
  }

  /** Commands the store's own rules create: cache cleaning, scheduler restart, isolation. */
  function PolicyRequest(node: Node, name: string, risk: string, status: Status, operator: string): Request {
    Request(node, OtherKind(name), risk, status, operator, Parameters(None, Plain, None, 0, None), map[])
  }

  function ApproveStep(s: State, id: nat, actor: Actor, known: set<string>, code: string, now: int): State {
    CommitAnswer(s, ServiceApprove(Live(s), id, actor, known, code, now))
  }

  function RetryStep(s: State, id: nat, actor: Actor, known: set<string>, code: string, now: int): State {
    var at := ById(Live(s), id);
    if at.None? || RetryError(Live(s), id, actor, known, code).Some? then s
    else CommitCreate(s, RetryRequest(Live(s)[at.value], actor.id), now)
  }

  function PollList(s: State, node: Node, ttlSeconds: int, now: int): seq<Command> {
    ClaimAll(ExpireAll(Live(s), ttlSeconds, now), node, "", now)
  }

  /** One synchronous poll; when the response is lost, what was claimed reaches nobody. */
  function PollStep(cfg: Config, s: State, ttlSeconds: int, responseArrives: bool, now: int): State {
    if s.inbox != [] then s
    else
      var claimed := Delivered(ExpireAll(Live(s), ttlSeconds, now), cfg.me, "", now);
      Commit(s, PollList(s, cfg.me, ttlSeconds, now)).(inbox := if responseArrives then claimed else [])
  }

  function HandleStep(cfg: Config, s: State, now: int): State {
    if s.inbox == [] || now < s.clock then s
    else s.(node := Process(s.node, s.inbox[0], cfg.limit, now), inbox := s.inbox[1..], clock := now)
  }

  function ReportOf(row: Row): ReportStatus { if row.status.RowExecuted? then ReportExecuted else ReportFailed }

  /** A report of any ledger row, first or repeated; the row is settled when central accepted
      the report and the acknowledgement came back. */
  function ReportStep(cfg: Config, s: State, i: nat, acknowledged: bool, now: int): State {
    if i >= |s.node.ledger| then s
    else
      var row := s.node.ledger[i];
      var answer := RecordResult(Live(s), cfg.me, row.id, ReportOf(row), row.message, now);
      var next := if answer.Ok? then Commit(s, answer.value) else s;
      next.(node := MarkReport(s.node, i, answer.Ok? && acknowledged))
  }

  function Next(cfg: Config, s: State, a: Action): State {
    match a
    case IssueTargetRate(node, rate, actor, ctx, now) =>
      IssueStep(s, PlainRequest(node, rate, actor, ctx), actor, ctx, false, now)
    case IssueDispatch(node, rate, key, actor, ctx, now) =>
      IssueStep(s, DispatchRequest(node, rate, key, actor, ctx), actor, ctx, true, now)
    case IssueReview(node, risk, key, actor, ctx, now) =>
      IssueStep(s, ReviewRequest(node, risk, key, actor, ctx), actor, ctx, true, now)
    case IssuePolicy(node, name, risk, status, operator, now) =>
      if status.Pending? || status.WaitingApproval? || status.Executed?
      then CommitCreate(s, PolicyRequest(node, name, risk, status, operator), now) else s
    case OperatorApprove(id, actor, known, code, now) => ApproveStep(s, id, actor, known, code, now)
    case OperatorReject(id, actor, now) => CommitAnswer(s, ServiceReject(Live(s), id, actor, now))
    case OperatorCancel(id, actor, reason, now) => CommitAnswer(s, ServiceCancel(Live(s), id, actor, reason, now))
    case OperatorRetry(id, actor, known, code, now) => RetryStep(s, id, actor, known, code, now)
    case ExpireClaims(ttl, now) => Commit(s, ExpireAll(Live(s), ttl, now))
    case HeartbeatArrives(node, beat) => Commit(s, ObserveEffects(Live(s), node, beat, cfg.window))
    case RateConfirmed(node, rate, now) => Commit(s, VerifyRateAll(Live(s), node, rate, now))
    case OtherPoll(node, ttl, now) => if node == cfg.me then s else Commit(s, PollList(s, node, ttl, now))
    case OtherReport(node, id, report, message, now) =>
      if node == cfg.me then s
      else CommitAnswer(s, FromManager(RecordResult(Live(s), node, id, report, message, now)))
    case Poll(ttl, arrives, now) => PollStep(cfg, s, ttl, arrives, now)
    case HandleNext(nodeNow) => HandleStep(cfg, s, nodeNow)
    case ReportRow(row, acknowledged, now) => ReportStep(cfg, s, row, acknowledged, now)
    case CrashAndRestart => s.(node := Restart(s.node, cfg.limit), inbox := [])
  }

  function Run(cfg: Config, actions: seq<Action>): State {
    if actions == [] then INITIAL
    else Next(cfg, Run(cfg, actions[..|actions| - 1]), actions[|actions| - 1])
  }

  /** The history is faithful: its window is the list the manager itself would hold. */
  lemma CreateOnHistory(s: State, q: Request, now: int)
    ensures Live(CommitCreate(s, q, now)) == Create(Live(s), q, now)
  {}

  lemma CommitOnHistory(s: State, list: seq<Command>)
    requires |list| == |Live(s)|
    ensures Live(Commit(s, list)) == list
  {}

  // ------------------------------------------------- one command, one step

  /** What kind of event drives a step. */
  datatype Cause = Routine | NodeResult | Approval | Retrial

  function CauseOf(a: Action): Cause {
    match a
    case OperatorApprove(_, _, _, _, _) => Approval
    case OperatorRetry(_, _, _, _, _) => Retrial
    case OtherReport(_, _, _, _, _) => NodeResult
    case ReportRow(_, _, _) => NodeResult
    case _ => Routine
  }

  /** Every status change any operation can make to one command. */
  predicate StatusStep(c: Command, d: Command, cause: Cause) {
    || d.status == c.status
    || (&& cause.Approval? && c.status.WaitingApproval?
        && (if c.parameters.workflow.AiSuggestionReview? then d.status.Verified? else d.status.Pending?))
    || (c.status.WaitingApproval? && d.status.Rejected?)
    || (IsOpen(c.status) && d.status.Superseded?)
    || (IsClaimable(c.status) && d.status.Claimed?)
    || (c.status.Claimed? && d.status.Expired?)
    || ((IsOpen(c.status) || c.status.Claimed? || c.status.Applied?) && d.status.Cancelled?)
    || (&& cause.NodeResult? && (d.status.Applied? || d.status.Failed?)
        && !c.status.WaitingApproval? && !IsAbsorbing(c.status))
    || ((c.status.Applied? || c.status.Executed?) && (d.status.Verified? || d.status.Applied? || d.status.Failed?))
  }

  predicate SameIdentity(c: Command, d: Command) {
    && d.id == c.id && d.node == c.node && d.kind == c.kind && d.risk == c.risk && d.parameters == c.parameters
    && d.createdAt == c.createdAt && d.expiresAt == c.expiresAt
  }

  /** A claim carries the time it was made, until the command leaves `claimed`. */
  predicate ClaimTimed(c: Command, d: Command) {
    d.status.Claimed? ==>
      || d.receivedAt == Some(d.updatedAt)
      || (c.status.Claimed? && d.receivedAt == c.receivedAt && d.updatedAt == c.updatedAt)
  }

  predicate Transition(c: Command, d: Command, cause: Cause) {
    && SameIdentity(c, d)
    && StatusStep(c, d, cause)
    && d.attempts == c.attempts + (if !c.status.Claimed? && d.status.Claimed? then 1 else 0)
    && ClaimTimed(c, d)
    && (Coherent(c) ==> Coherent(d))
  }

  /** When a command lapses: at least 1 and by default 300 seconds after its creation. */
  function LapsesAt(createdAt: int, ttlSeconds: int): int {
    var seconds := if ttlSeconds == 0 then 300 else ttlSeconds;
    if seconds >= 1 then createdAt + seconds * TICKS_PER_SECOND else createdAt + TICKS_PER_SECOND
  }

  /** What every command ever created satisfies at every moment. */
  predicate Sound(c: Command) {
    && c.attempts <= 1
    && (IsOpen(c.status) || c.status.Superseded? || c.status.Rejected? ==> c.attempts == 0)
    && (c.status.Claimed? ==> c.attempts == 1 && c.receivedAt == Some(c.updatedAt))
    && c.expiresAt == LapsesAt(c.createdAt, c.parameters.ttlSeconds)
    && (c.kind.SetTargetRate? ==> !c.status.Executed?)
    && (c.parameters.workflow.AiSuggestionReview? ==>
          && c.kind.ReviewAiRecommendation? && c.attempts == 0
          && (c.status.WaitingApproval? || c.status.Verified? || c.status.Rejected?
              || c.status.Cancelled? || c.status.Superseded?))
    && (c.parameters.workflow.DispatchTargetRate? ==> MeansHigh(c.risk) && c.kind.SetTargetRate?)
    && Coherent(c)
  }

  lemma TransitionKeepsSound(c: Command, d: Command, cause: Cause)
    requires Sound(c) && Transition(c, d, cause)
    ensures Sound(d)
    ensures IsOpen(d.status) ==> IsOpen(c.status)
    ensures IsAbsorbing(c.status) ==> d.status == c.status
    ensures c.status.Failed? && !d.status.Failed? ==> d.status.Applied? && cause.NodeResult?
    ensures c.attempts <= d.attempts
  {}

  // ----------------------------------------------------- the command history

  predicate Numbered(all: seq<Command>) { forall i :: 0 <= i < |all| ==> all[i].id == i + 1 }

  /** A retained open command is the newest ever created for its node and kind. */
  predicate OpenIsNewest(all: seq<Command>) {
    forall i, j :: Base(all, RETAINED_COMMANDS) <= i < j < |all| && SamePair(all[i], all[j]) ==> !IsOpen(all[i].status)
  }

  predicate Structure(all: seq<Command>) {
    && Numbered(all)
    && OpenIsNewest(all)
    && forall i :: 0 <= i < |all| ==> Sound(all[i])
  }

  /** A command as creation leaves it. */
  predicate Newborn(c: Command, cause: Cause) {
    && Sound(c) && c.attempts == 0 && (c.status.WaitingApproval? || c.status.Pending? || c.status.Executed?)
    && (c.parameters.workflow.DispatchTargetRate? && !c.status.WaitingApproval? ==> cause.Retrial?)
  }

  /** One step of the history: commands move along transitions, evicted ones are frozen, and
      at most one command is appended, superseding what was open for its pair. */
  predicate Evolved(all: seq<Command>, next: seq<Command>, cause: Cause) {
    && |all| <= |next| <= |all| + 1
    && (forall i :: 0 <= i < |all| ==> Transition(all[i], next[i], cause))
    && (forall i :: 0 <= i < Base(all, RETAINED_COMMANDS) ==> next[i] == all[i])
    && (|next| == |all| + 1 ==>
          && next[|all|].id == |all| + 1
          && Newborn(next[|all|], cause)
          && forall i :: Base(all, RETAINED_COMMANDS) <= i < |all| && SamePair(all[i], next[|all|]) ==>
                           !IsOpen(next[i].status))
  }

  lemma EvolvedKeepsStructure(all: seq<Command>, next: seq<Command>, cause: Cause)
    requires Structure(all) && Evolved(all, next, cause)
    ensures Structure(next)
  {
    forall i | 0 <= i < |all|
      ensures Sound(next[i]) && (IsOpen(next[i].status) ==> IsOpen(all[i].status))
    {
      TransitionKeepsSound(all[i], next[i], cause);
    }
    forall i, j | Base(next, RETAINED_COMMANDS) <= i < j < |next| && SamePair(next[i], next[j])
      ensures !IsOpen(next[i].status)
    {
      if j < |all| {
        assert SamePair(all[i], all[j]);
      } else {
        assert SamePair(all[i], next[|all|]);
      }
    }
  }

  lemma TransitionIsReflexive(cs: seq<Command>, cause: Cause)
    ensures forall i :: 0 <= i < |cs| ==> Transition(cs[i], cs[i], cause)
  {}

  /** Rewriting retained commands along transitions is a step of the history. */
  lemma CommitEvolves(s: State, list: seq<Command>, cause: Cause)
    requires |list| == |Live(s)|
    requires forall i :: 0 <= i < |list| ==> Transition(Live(s)[i], list[i], cause)
    ensures Evolved(s.all, Commit(s, list).all, cause)
    ensures |Commit(s, list).all| == |s.all|
  {
    hide Transition, LastN;
    WindowIsSuffix(s.all, RETAINED_COMMANDS);
    RewriteThenTrim(s.all, RETAINED_COMMANDS, list);
    TransitionIsReflexive(s.all, cause);
    RewritePointwise(s.all, RETAINED_COMMANDS, list, (c, d) => Transition(c, d, cause));
  }

  /** An edit of the one command with a given id. */
  lemma ReplaceEvolves(s: State, at: nat, d: Command, cause: Cause)
    requires at < |Live(s)| && Transition(Live(s)[at], d, cause)
    ensures Evolved(s.all, Commit(s, Live(s)[at := d]).all, cause)
    ensures |Commit(s, Live(s)[at := d]).all| == |s.all|
  {
    CommitEvolves(s, Live(s)[at := d], cause);
  }

  lemma {:induction false} MaxIdOfNumbered(all: seq<Command>, from: nat)
    requires Numbered(all) && from < |all|
    ensures MaxId(all[from..]) == |all|
  {
    var s := all[from..];
    var front := s[..|s| - 1];
    assert front == all[..|all| - 1][from..];
    if front == [] {
    } else {
      MaxIdOfNumbered(all[..|all| - 1], from);
    }
  }

  lemma NextIdIsFresh(s: State)
    requires Numbered(s.all)
    ensures MaxId(Live(s)) == |s.all|
  {
    if s.all != [] {
      MaxIdOfNumbered(s.all, Base(s.all, RETAINED_COMMANDS));
      assert Live(s) == s.all[Base(s.all, RETAINED_COMMANDS)..];
    }
  }

  lemma SupersedeIsTransition(c: Command, node: Node, kind: Kind, id: nat, now: int, cause: Cause)
    ensures Transition(c, SupersedeOne(c, node, kind, id, now), cause)
    ensures c.node == node && c.kind == kind ==> !IsOpen(SupersedeOne(c, node, kind, id, now).status)
  {}

  /** Appending one newborn command behind transitions is a step of the history. */
  lemma AppendEvolves(s: State, list: seq<Command>, born: Command, cause: Cause)
    requires |list| == |Live(s)|
    requires Newborn(born, cause) && born.id == |s.all| + 1
    requires forall i :: 0 <= i < |list| ==>
               Transition(Live(s)[i], list[i], cause) && (SamePair(Live(s)[i], born) ==> !IsOpen(list[i].status))
    ensures Evolved(s.all, Commit(s, list + [born]).all, cause)
    ensures |Commit(s, list + [born]).all| == |s.all| + 1
    ensures Commit(s, list + [born]).all[|s.all|] == born
  {
    hide Transition, Newborn, LastN, IsOpen;
    WindowIsSuffix(s.all, RETAINED_COMMANDS);
    RewriteThenTrim(s.all, RETAINED_COMMANDS, list + [born]);
    TransitionIsReflexive(s.all, cause);
    RewritePointwise(s.all, RETAINED_COMMANDS, list + [born], (c, d) => Transition(c, d, cause));
    var base := Base(s.all, RETAINED_COMMANDS);
    var next := Commit(s, list + [born]).all;
    assert next[|s.all|] == (list + [born])[|list|] == born;
    forall i | base <= i < |s.all| && SamePair(s.all[i], born)
      ensures !IsOpen(next[i].status)
    {
      assert s.all[i] == Live(s)[i - base] && next[i] == (list + [born])[i - base] == list[i - base];
    }
  }

  lemma CreateEvolves(s: State, q: Request, now: int, cause: Cause)
    requires Structure(s.all)
    requires Newborn(NewCommand(|s.all| + 1, q, now), cause)
    ensures Evolved(s.all, CommitCreate(s, q, now).all, cause)
    ensures Duplicate(Live(s), q).None? ==>
              && |CommitCreate(s, q, now).all| == |s.all| + 1
              && CommitCreate(s, q, now).all[|s.all|] == NewCommand(|s.all| + 1, q, now)
  {
    if Duplicate(Live(s), q).None? {
      NextIdIsFresh(s);
      var list := SupersedeAll(Live(s), q.node, q.kind, |s.all| + 1, now);
      forall i | 0 <= i < |list|
        ensures Transition(Live(s)[i], list[i], cause)
        ensures Live(s)[i].node == q.node && Live(s)[i].kind == q.kind ==> !IsOpen(list[i].status)
      {
        SupersedeIsTransition(Live(s)[i], q.node, q.kind, |s.all| + 1, now, cause);
      }
      AppendEvolves(s, list, NewCommand(|s.all| + 1, q, now), cause);
    } else {
      CommitEvolves(s, Live(s), cause);
    }
  }
}
