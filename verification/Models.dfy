/** Records shared by the command services: node commands, the production facts carried by
    heartbeats, and the evidence the verifier keeps on a command. Times are integer ticks. */
module Models {
  import opened Basics

  const TICKS_PER_SECOND := 1_000_000

  /** Node codes: the three workshops of the line, and any other registered node. */
  datatype Node = Turning | Milling | Grinding | OtherNode(code: string)

  function NodeCode(n: Node): string {
    match n
    case Turning => "turning-workshop-01"
    case Milling => "milling-workshop-01"
    case Grinding => "grinding-workshop-01"
    case OtherNode(code) => code
  }

  datatype Kind = SetTargetRate | ReviewAiRecommendation | OtherKind(name: string)

  function KindName(k: Kind): string {
    match k
    case SetTargetRate => "set_target_rate"
    case ReviewAiRecommendation => "review_ai_recommendation"
    case OtherKind(name) => name
  }

  datatype Status =
    | WaitingApproval | Pending | Queued | Claimed | Executed | Applied
    | Verified | Failed | Expired | Superseded | Rejected | Cancelled

  /** Not yet handed to a node: the statuses a newer command supersedes. */
  predicate IsOpen(s: Status) { s.WaitingApproval? || s.Pending? || s.Queued? }

  predicate IsClaimable(s: Status) { s.Pending? || s.Queued? }

  predicate IsTerminal(s: Status) {
    s.Failed? || s.Verified? || s.Rejected? || s.Expired? || s.Superseded? || s.Cancelled?
  }

  predicate IsRetryable(s: Status) { s.Failed? || s.Rejected? || s.Expired? || s.Cancelled? }

  /** Statuses no operation ever leaves. `Failed` is terminal but not among them. */
  predicate IsAbsorbing(s: Status) { IsTerminal(s) && !s.Failed? }

  /** parameters["workflow_kind"]; Plain when the key is absent. */
  datatype Workflow = Plain | DispatchTargetRate | AiSuggestionReview

  datatype Parameters = Parameters(
    targetRate: Option<real>,
    workflow: Workflow,
    idempotencyKey: Option<string>,
    ttlSeconds: int,
    retryOf: Option<nat>)

  /** Result messages: which wording, together with the values formatted into it. */
  datatype Message =
    | Blank
    | Reported(text: string)
    | SupersededBy(id: nat)
    | ClaimTimedOut(ttlSeconds: int)
    | SuggestionAccepted(actor: string)
    | CancelledBy(actor: string, reason: string)
    | HeartbeatRateVerified(rate: real)
    | VerdictReason(why: Reason)
    | RateApplied(rate: real)
    | RateOutOfRange(rate: real)
    | RateNotNumeric
    | UnsupportedKind(kind: Kind)
    | ExpiredBeforeExecution
    | MissingCommandId
    | AlreadyAppliedLocally
    | RepeatOf(original: Message)

  datatype Reason =
    | TargetNotApplied
    | UnacceptableDownstreamEffect
    | RateIncreased
    | AlreadyAtTarget
    | DownstreamImproved
    | RateDecreased
    | DownstreamUnavailable
    | NoImprovement

  datatype VerificationStatus =
    | NotStarted | Observing | Effective | Partial | VerdictFailed | Inconclusive | HumanVerified

  predicate IsVerdict(v: VerificationStatus) {
    v.Effective? || v.Partial? || v.VerdictFailed? || v.Inconclusive?
  }

  /** The numeric fields of a heartbeat's production section; None when missing or not a number. */
  datatype Production = Production(
    targetRate: Option<real>,
    actualRate: Option<real>,
    wipInput: Option<real>,
    wipOutput: Option<real>,
    utilization: Option<real>)

  const EMPTY_PRODUCTION := Production(None, None, None, None, None)

  type SystemProduction = map<Node, Production>

  datatype Direction = Unchanged | Decrease | Increase

  datatype Observation = Observation(
    observedAt: int,
    targetRate: Option<real>,
    actualRate: Option<real>,
    downstreamNode: Option<Node>,
    downstreamBacklog: Option<real>,
    downstreamWipInput: Option<real>,
    downstreamUtilization: Option<real>,
    sinkActualRate: Option<real>)

  datatype Evidence = Evidence(
    expectedTarget: Option<real>,
    observedTarget: Option<real>,
    targetApplied: bool,
    downstreamNode: Option<Node>,
    baselineBacklog: Option<real>,
    backlogDelta: Option<real>,
    postCommandDelta: Option<real>,
    flowImproved: bool,
    direction: Direction,
    ownRateMoved: bool,
    severeStarvation: bool,
    sinkExpectedRate: Option<real>,
    throughputFloorRate: Option<real>,
    throughputFloorOk: bool,
    observations: seq<Observation>)

  const NO_EVIDENCE := Evidence(
    None, None, false, None, None, None, None, false, Unchanged, false, false, None, None, false, [])

  datatype Command = Command(
    id: nat,
    node: Node,
    kind: Kind,
    risk: string,
    status: Status,
    operator: string,
    parameters: Parameters,
    claimedBy: string,
    message: Message,
    expiresAt: int,
    dispatchedAt: Option<int>,
    receivedAt: Option<int>,
    appliedAt: Option<int>,
    verifiedAt: Option<int>,
    attempts: nat,
    verification: VerificationStatus,
    baseline: SystemProduction,
    evidence: Evidence,
    createdAt: int,
    updatedAt: int)

  predicate SamePair(a: Command, b: Command) { a.node == b.node && a.kind == b.kind }
}
