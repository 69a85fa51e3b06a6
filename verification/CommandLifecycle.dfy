/** The lifecycle of node commands: creation with idempotency and superseding, claiming,
    results, approval, cancellation, retry and claim expiry. Each operation is specified on
    the list of retained commands and implemented by `CommandManager`, which updates the list
    in place. */
module CommandLifecycle {
  import opened Basics
  import opened Models
  import opened Retention
  import opened CommandVerifier

  const RETAINED_COMMANDS: nat := 100

  datatype Refusal =
    | NotFound
    | UnsupportedResult
    | NotExecutable(current: Status)
    | CannotAcceptResult(current: Status)
    | NotWaitingApproval(current: Status)
    | NotHumanReview
    | CannotCancel(current: Status)
    | CannotRetry(current: Status)

  datatype Request = Request(
    node: Node,
    kind: Kind,
    risk: string,
    status: Status,
    operator: string,
    parameters: Parameters,
    baseline: SystemProduction)

  // ---------------------------------------------------------------- creation

  function AutoKey(id: nat): string { "command-" + Decimal(id) }

  function ExplicitKey(p: Parameters): string {
    if p.idempotencyKey.Some? then p.idempotencyKey.value else ""
  }

  predicate MatchesKey(c: Command, node: Node, kind: Kind, key: string) {
    c.node == node && c.kind == kind && c.parameters.idempotencyKey == Some(key)
  }

  /** Index of the retained command a request repeats, if it carries an explicit key. */
  function Duplicate(cs: seq<Command>, q: Request): (r: Option<nat>)
    ensures r.Some? ==> r.value < |cs|
  {
    var key := ExplicitKey(q.parameters);
    if key == "" then None else First(cs, (c: Command) => MatchesKey(c, q.node, q.kind, key))
  }

  function MaxId(cs: seq<Command>): nat {
    if cs == [] then 0
    else
      var rest := MaxId(cs[..|cs| - 1]);
      if rest < cs[|cs| - 1].id then cs[|cs| - 1].id else rest
  }

  function NewCommand(id: nat, q: Request, now: int): Command {
    var parameters := if q.parameters.idempotencyKey.None?
                      then q.parameters.(idempotencyKey := Some(AutoKey(id))) else q.parameters;
    var ttl := if q.parameters.ttlSeconds == 0 then 300 else q.parameters.ttlSeconds;
    Command(id, q.node, q.kind, q.risk, q.status, q.operator, parameters, "", Blank,
            now + (if ttl < 1 then 1 else ttl) * TICKS_PER_SECOND,
            None, None, None, None, 0, NotStarted, q.baseline, NO_EVIDENCE, now, now)
  }

  predicate SupersededBy?(c: Command, node: Node, kind: Kind) {
    c.node == node && c.kind == kind && IsOpen(c.status)
  }

  function SupersedeOne(c: Command, node: Node, kind: Kind, replacement: nat, now: int): Command {
    if SupersededBy?(c, node, kind)
    then c.(status := Superseded, message := SupersededBy(replacement), updatedAt := now) else c
  }

  function SupersedeAll(cs: seq<Command>, node: Node, kind: Kind, replacement: nat, now: int): seq<Command> {
    seq(|cs|, i requires 0 <= i < |cs| => SupersedeOne(cs[i], node, kind, replacement, now))
  }

  function SupersededIds(cs: seq<Command>, node: Node, kind: Kind): seq<nat> {
    if cs == [] then []
    else
      var last := cs[|cs| - 1];
      SupersededIds(cs[..|cs| - 1], node, kind) + (if SupersededBy?(last, node, kind) then [last.id] else [])
  }

  /** The list after a new command was appended, before the retention cut. */
  function Appended(cs: seq<Command>, q: Request, now: int): seq<Command> {
    var id := MaxId(cs) + 1;
    SupersedeAll(cs, q.node, q.kind, id, now) + [NewCommand(id, q, now)]
  }

  function Create(cs: seq<Command>, q: Request, now: int): seq<Command> {
    if Duplicate(cs, q).Some? then cs else LastN(Appended(cs, q, now), RETAINED_COMMANDS)
  }

  // ------------------------------------------------------ claiming and expiry

  predicate ClaimableBy(c: Command, node: Node) { c.node == node && IsClaimable(c.status) }

  function Claimer(node: Node, agent: string): string { if agent == "" then NodeCode(node) else agent }

  function ClaimOne(c: Command, node: Node, agent: string, now: int): Command {
    if !ClaimableBy(c, node) then c
    else c.(status := Claimed,
            claimedBy := Claimer(node, agent),
            dispatchedAt := if c.dispatchedAt.Some? then c.dispatchedAt else Some(now),
            receivedAt := Some(now),
            attempts := c.attempts + 1,
            updatedAt := now)
  }

  function ClaimAll(cs: seq<Command>, node: Node, agent: string, now: int): seq<Command> {
    seq(|cs|, i requires 0 <= i < |cs| => ClaimOne(cs[i], node, agent, now))
  }

  /** The commands a claim hands out, in list order and already marked as claimed. */
  function Delivered(cs: seq<Command>, node: Node, agent: string, now: int): seq<Command> {
    if cs == [] then []
    else
      var last := cs[|cs| - 1];
      Delivered(cs[..|cs| - 1], node, agent, now)
      + (if ClaimableBy(last, node) then [ClaimOne(last, node, agent, now)] else [])
  }

  predicate StaleClaim(c: Command, ttlSeconds: int, now: int) {
    c.status.Claimed? && c.updatedAt < now - ttlSeconds * TICKS_PER_SECOND
  }

  function ExpireOne(c: Command, ttlSeconds: int, now: int): Command {
    if StaleClaim(c, ttlSeconds, now)
    then c.(status := Expired, message := ClaimTimedOut(ttlSeconds), updatedAt := now) else c
  }

  function ExpireAll(cs: seq<Command>, ttlSeconds: int, now: int): seq<Command> {
    seq(|cs|, i requires 0 <= i < |cs| => ExpireOne(cs[i], ttlSeconds, now))
  }

  // ------------------------------------------------------------------ results

  datatype ReportStatus = ReportExecuted | ReportApplied | ReportFailed | ReportOther(text: string)

  function RecordOne(c: Command, report: ReportStatus, message: Message, now: int): Result<Command, Refusal> {
    if report.ReportOther? then Err(UnsupportedResult)
    else
      var normalized := if report.ReportFailed? then Failed else Applied;
      if c.status.Verified? then Ok(c)
      else if c.status == normalized && c.message == message then Ok(c)
      else if c.status.Expired? || c.status.Superseded? || c.status.Rejected? || c.status.Cancelled? then
        Err(NotExecutable(c.status))
      else if c.status.WaitingApproval? then Err(CannotAcceptResult(c.status))
      else if normalized.Applied? then
        Ok(c.(status := Applied, message := message, appliedAt := Some(now),
              verification := Observing, updatedAt := now))
      else Ok(c.(status := Failed, message := message, updatedAt := now))
  }

  // ---------------------------------------------------------- operator actions

  function ApproveOne(c: Command, actor: string, now: int): Result<Command, Refusal> {
    if !c.status.WaitingApproval? then Err(NotWaitingApproval(c.status))
    else Ok(c.(status := Pending, operator := actor, updatedAt := now))
  }

  function ApproveHumanReviewOne(c: Command, actor: string, now: int): Result<Command, Refusal> {
    if !c.status.WaitingApproval? then Err(NotWaitingApproval(c.status))
    else if !c.parameters.workflow.AiSuggestionReview? then Err(NotHumanReview)
    else Ok(c.(status := Verified, operator := actor, message := SuggestionAccepted(actor),
               verification := HumanVerified, verifiedAt := Some(now), updatedAt := now))
  }

  function RejectOne(c: Command, actor: string, now: int): Result<Command, Refusal> {
    if !c.status.WaitingApproval? then Err(NotWaitingApproval(c.status))
    else Ok(c.(status := Rejected, operator := actor, updatedAt := now))
  }

  function CancelOne(c: Command, actor: string, reason: string, now: int): Result<Command, Refusal> {
    if c.status.Cancelled? then Ok(c)
    else if IsTerminal(c.status) || c.status.Executed? then Err(CannotCancel(c.status))
    else Ok(c.(status := Cancelled, operator := actor, message := CancelledBy(actor, reason), updatedAt := now))
  }

  function RetryRequest(source: Command, actor: string): Request {
    Request(source.node, source.kind, source.risk, Pending, actor,
            source.parameters.(idempotencyKey := None, retryOf := Some(source.id)), map[])
  }

  function VerifyRateOne(c: Command, node: Node, rate: real, now: int): Command {
    if && c.node == node && c.kind.SetTargetRate? && (c.status.Executed? || c.status.Applied?)
       && c.parameters.targetRate.Some? && Abs(rate - c.parameters.targetRate.value) <= 0.001
    then c.(status := Verified, message := HeartbeatRateVerified(rate), updatedAt := now)
    else c
  }

  function VerifyRateAll(cs: seq<Command>, node: Node, rate: real, now: int): seq<Command> {
    seq(|cs|, i requires 0 <= i < |cs| => VerifyRateOne(cs[i], node, rate, now))
  }

  function ObserveOne(c: Command, node: Node, beat: Heartbeat, window: Window): Command {
    if c.node == node then Observe(c, beat.system, beat.now, window) else c
  }

  function ObserveEffects(cs: seq<Command>, node: Node, beat: Heartbeat, window: Window): seq<Command> {
    seq(|cs|, i requires 0 <= i < |cs| => ObserveOne(cs[i], node, beat, window))
  }

  // ---------------------------------------------------- operations on the list

  function ById(cs: seq<Command>, id: nat): (r: Option<nat>)
    ensures r.Some? ==> r.value < |cs| && cs[r.value].id == id
  {
    First(cs, (c: Command) => c.id == id)
  }

  function ByIdForNode(cs: seq<Command>, node: Node, id: nat): (r: Option<nat>)
    ensures r.Some? ==> r.value < |cs| && cs[r.value].id == id && cs[r.value].node == node
  {
    First(cs, (c: Command) => c.id == id && c.node == node)
  }

  /** The list with the command at `at` replaced by the outcome of an edit. */
  function Replace(cs: seq<Command>, at: Option<nat>, edit: Command -> Result<Command, Refusal>)
    : Result<seq<Command>, Refusal>
    requires at.Some? ==> at.value < |cs|
  {
    if at.None? then Err(NotFound)
    else
      match edit(cs[at.value])
      case Err(e) => Err(e)
      case Ok(c) => Ok(cs[at.value := c])
  }

  function RecordResult(cs: seq<Command>, node: Node, id: nat, report: ReportStatus, message: Message, now: int)
    : Result<seq<Command>, Refusal>
  {
    Replace(cs, ByIdForNode(cs, node, id), c => RecordOne(c, report, message, now))
  }

  function Approve(cs: seq<Command>, id: nat, actor: string, now: int): Result<seq<Command>, Refusal> {
    Replace(cs, ById(cs, id), c => ApproveOne(c, actor, now))
  }

  function ApproveHumanReview(cs: seq<Command>, id: nat, actor: string, now: int): Result<seq<Command>, Refusal> {
    Replace(cs, ById(cs, id), c => ApproveHumanReviewOne(c, actor, now))
  }

  function Reject(cs: seq<Command>, id: nat, actor: string, now: int): Result<seq<Command>, Refusal> {
    Replace(cs, ById(cs, id), c => RejectOne(c, actor, now))
  }

  function Cancel(cs: seq<Command>, id: nat, actor: string, reason: string, now: int)
    : Result<seq<Command>, Refusal>
  {
    Replace(cs, ById(cs, id), c => CancelOne(c, actor, reason, now))
  }

  function Retry(cs: seq<Command>, id: nat, actor: string, now: int): Result<seq<Command>, Refusal> {
    var at := ById(cs, id);
    if at.None? then Err(NotFound)
    else if !IsRetryable(cs[at.value].status) then Err(CannotRetry(cs[at.value].status))
    else Ok(Create(cs, RetryRequest(cs[at.value], actor), now))
  }

  // ------------------------------------------------------------ implementation

  /** How a call that may refuse leaves the list: the specified list, or unchanged. */
  predicate Outcome(before: seq<Command>, after: seq<Command>, refusal: Option<Refusal>,
                    spec: Result<seq<Command>, Refusal>)
  {
    match spec
    case Ok(cs) => refusal.None? && after == cs
    case Err(e) => refusal == Some(e) && after == before
  }

  class CommandManager {
    var commands: seq<Command>

    constructor ()
      ensures commands == []
    {
      commands := [];
    }

    method FindDuplicate(q: Request) returns (at: Option<nat>)
      ensures at == Duplicate(commands, q)
    {
      var key := ExplicitKey(q.parameters);
      if key == "" { return None; }
      for i := 0 to |commands|
        invariant forall j :: 0 <= j < i ==> !MatchesKey(commands[j], q.node, q.kind, key)
      {
        if MatchesKey(commands[i], q.node, q.kind, key) { return Some(i); }
      }
      return None;
    }

    method NextId() returns (id: nat)
      ensures id == MaxId(commands) + 1
    {
      var greatest: nat := 0;
      for i := 0 to |commands|
        invariant greatest == MaxId(commands[..i])
      {
        assert commands[..i + 1][..i] == commands[..i];
        if greatest < commands[i].id { greatest := commands[i].id; }
      }
      assert commands[..|commands|] == commands;
      return greatest + 1;
    }

    method SupersedePending(node: Node, kind: Kind, replacement: nat, now: int) returns (superseded: seq<nat>)
      modifies this
      ensures commands == SupersedeAll(old(commands), node, kind, replacement, now)
      ensures superseded == SupersededIds(old(commands), node, kind)
    {
      hide SupersededBy?;
      superseded := [];
      for i := 0 to |commands|
        invariant |commands| == |old(commands)|
        invariant forall j :: 0 <= j < i ==>
                    commands[j] == SupersedeOne(old(commands)[j], node, kind, replacement, now)
        invariant forall j :: i <= j < |commands| ==> commands[j] == old(commands)[j]
        invariant superseded == SupersededIds(old(commands)[..i], node, kind)
      {
        var c := commands[i];
        assert old(commands)[..i + 1][..i] == old(commands)[..i];
        if SupersededBy?(c, node, kind) {
          commands := commands[i := c.(status := Superseded, message := SupersededBy(replacement), updatedAt := now)];
          superseded := superseded + [c.id];
        }
      }
      assert old(commands)[..|commands|] == old(commands);
    }

    method CreateCommand(q: Request, now: int) returns (command: Command, superseded: seq<nat>, created: bool)
      modifies this
      ensures commands == Create(old(commands), q, now)
      ensures created == Duplicate(old(commands), q).None?
      ensures created ==> && command == NewCommand(MaxId(old(commands)) + 1, q, now)
                          && commands[|commands| - 1] == command
                          && superseded == SupersededIds(old(commands), q.node, q.kind)
      ensures !created ==> && command == old(commands)[Duplicate(old(commands), q).value]
                           && superseded == []
    {
      var at := FindDuplicate(q);
      if at.Some? { return commands[at.value], [], false; }
      var id := NextId();
      command := NewCommand(id, q, now);
      superseded := SupersedePending(q.node, q.kind, id, now);
      commands := commands + [command];
      if |commands| > RETAINED_COMMANDS { commands := commands[|commands| - RETAINED_COMMANDS..]; }
      created := true;
    }

    method ClaimForNode(node: Node, agent: string, now: int) returns (claimed: seq<Command>)
      modifies this
      ensures commands == ClaimAll(old(commands), node, agent, now)
      ensures claimed == Delivered(old(commands), node, agent, now)
    {
      hide Claimer;
      claimed := [];
      for i := 0 to |commands|
        invariant |commands| == |old(commands)|
        invariant forall j :: 0 <= j < i ==> commands[j] == ClaimOne(old(commands)[j], node, agent, now)
        invariant forall j :: i <= j < |commands| ==> commands[j] == old(commands)[j]
        invariant claimed == Delivered(old(commands)[..i], node, agent, now)
      {
        var c := commands[i];
        assert old(commands)[..i + 1][..i] == old(commands)[..i];
        if ClaimableBy(c, node) {
          var dispatchedAt := if c.dispatchedAt.Some? then c.dispatchedAt else Some(now);
          c := c.(status := Claimed, claimedBy := Claimer(node, agent), dispatchedAt := dispatchedAt,
                  receivedAt := Some(now), attempts := c.attempts + 1, updatedAt := now);
          assert c == ClaimOne(old(commands)[i], node, agent, now);
          commands := commands[i := c];
          claimed := claimed + [c];
        }
      }
      assert old(commands)[..|commands|] == old(commands);
    }

    method ExpireStaleClaims(ttlSeconds: int, now: int) returns (expired: nat)
      modifies this
      ensures commands == ExpireAll(old(commands), ttlSeconds, now)
      ensures expired == Count(old(commands), (c: Command) => StaleClaim(c, ttlSeconds, now))
    {
      expired := 0;
      ghost var stale := (c: Command) => StaleClaim(c, ttlSeconds, now);
      for i := 0 to |commands|
        invariant |commands| == |old(commands)|
        invariant forall j :: 0 <= j < i ==> commands[j] == ExpireOne(old(commands)[j], ttlSeconds, now)
        invariant forall j :: i <= j < |commands| ==> commands[j] == old(commands)[j]
        invariant expired == Count(old(commands)[..i], stale)
      {
        var c := commands[i];
        assert old(commands)[..i + 1] == old(commands)[..i] + [c];
        CountAppend(old(commands)[..i], [c], stale);
        if StaleClaim(c, ttlSeconds, now) {
          commands := commands[i := c.(status := Expired, message := ClaimTimedOut(ttlSeconds), updatedAt := now)];
          expired := expired + 1;
        }
      }
      assert old(commands)[..|commands|] == old(commands);
    }

    method Find(id: nat) returns (at: Option<nat>)
      ensures at == ById(commands, id)
    {
      for i := 0 to |commands|
        invariant forall j :: 0 <= j < i ==> commands[j].id != id
      {
        if commands[i].id == id { return Some(i); }
      }
      return None;
    }

    method FindForNode(node: Node, id: nat) returns (at: Option<nat>)
      ensures at == ByIdForNode(commands, node, id)
    {
      for i := 0 to |commands|
        invariant forall j :: 0 <= j < i ==> !(commands[j].id == id && commands[j].node == node)
      {
        if commands[i].id == id && commands[i].node == node { return Some(i); }
      }
      return None;
    }

    method Record(node: Node, id: nat, report: ReportStatus, message: Message, now: int)
      returns (refusal: Option<Refusal>, changed: bool)
      modifies this
      ensures Outcome(old(commands), commands, refusal, RecordResult(old(commands), node, id, report, message, now))
      ensures changed <==> commands != old(commands)
    {
      var at := FindForNode(node, id);
      if at.None? { return Some(NotFound), false; }
      var c := commands[at.value];
      if report.ReportOther? { return Some(UnsupportedResult), false; }
      var normalized := if report.ReportFailed? then Failed else Applied;
      if c.status.Verified? || (c.status == normalized && c.message == message) { return None, false; }
      if c.status.Expired? || c.status.Superseded? || c.status.Rejected? || c.status.Cancelled? {
        return Some(NotExecutable(c.status)), false;
      }
      if c.status.WaitingApproval? { return Some(CannotAcceptResult(c.status)), false; }
      if normalized.Applied? {
        c := c.(status := Applied, message := message, appliedAt := Some(now), verification := Observing, updatedAt := now);
      } else {
        c := c.(status := Failed, message := message, updatedAt := now);
      }
      commands := commands[at.value := c];
      return None, true;
    }

    method ApproveCommand(id: nat, actor: string, now: int) returns (refusal: Option<Refusal>)
      modifies this
      ensures Outcome(old(commands), commands, refusal, Approve(old(commands), id, actor, now))
    {
      var at := Find(id);
      if at.None? { return Some(NotFound); }
      var c := commands[at.value];
      if !c.status.WaitingApproval? { return Some(NotWaitingApproval(c.status)); }
      commands := commands[at.value := c.(status := Pending, operator := actor, updatedAt := now)];
      return None;
    }

    method ApproveReview(id: nat, actor: string, now: int) returns (refusal: Option<Refusal>)
      modifies this
      ensures Outcome(old(commands), commands, refusal, ApproveHumanReview(old(commands), id, actor, now))
    {
      var at := Find(id);
      if at.None? { return Some(NotFound); }
      var c := commands[at.value];
      if !c.status.WaitingApproval? { return Some(NotWaitingApproval(c.status)); }
      if !c.parameters.workflow.AiSuggestionReview? { return Some(NotHumanReview); }
      c := c.(status := Verified, operator := actor, message := SuggestionAccepted(actor));
      commands := commands[at.value := c.(verification := HumanVerified, verifiedAt := Some(now), updatedAt := now)];
      return None;
    }

    method RejectCommand(id: nat, actor: string, now: int) returns (refusal: Option<Refusal>)
      modifies this
      ensures Outcome(old(commands), commands, refusal, Reject(old(commands), id, actor, now))
    {
      var at := Find(id);
      if at.None? { return Some(NotFound); }
      var c := commands[at.value];
      if !c.status.WaitingApproval? { return Some(NotWaitingApproval(c.status)); }
      commands := commands[at.value := c.(status := Rejected, operator := actor, updatedAt := now)];
      return None;
    }

    method CancelCommand(id: nat, actor: string, reason: string, now: int)
      returns (refusal: Option<Refusal>, changed: bool)
      modifies this
      ensures Outcome(old(commands), commands, refusal, Cancel(old(commands), id, actor, reason, now))
      ensures changed <==> commands != old(commands)
    {
      var at := Find(id);
      if at.None? { return Some(NotFound), false; }
      var c := commands[at.value];
      if c.status.Cancelled? { return None, false; }
      if IsTerminal(c.status) || c.status.Executed? { return Some(CannotCancel(c.status)), false; }
      c := c.(status := Cancelled, operator := actor, message := CancelledBy(actor, reason), updatedAt := now);
      commands := commands[at.value := c];
      return None, true;
    }

    method RetryCommand(id: nat, actor: string, now: int) returns (refusal: Option<Refusal>)
      modifies this
      ensures Outcome(old(commands), commands, refusal, Retry(old(commands), id, actor, now))
    {
      var at := Find(id);
      if at.None? { return Some(NotFound); }
      var source := commands[at.value];
      if !IsRetryable(source.status) { return Some(CannotRetry(source.status)); }
      var _, _, _ := CreateCommand(RetryRequest(source, actor), now);
      return None;
    }

    method VerifyTargetRate(node: Node, rate: real, now: int)
      modifies this
      ensures commands == VerifyRateAll(old(commands), node, rate, now)
    {
      for i := 0 to |commands|
        invariant |commands| == |old(commands)|
        invariant forall j :: 0 <= j < i ==> commands[j] == VerifyRateOne(old(commands)[j], node, rate, now)
        invariant forall j :: i <= j < |commands| ==> commands[j] == old(commands)[j]
      {
        commands := commands[i := VerifyRateOne(commands[i], node, rate, now)];
      }
    }

    /** The store's loop over the commands of a node whose heartbeat has just arrived. */
    method ObserveCommandEffects(node: Node, beat: Heartbeat, window: Window)
      modifies this
      ensures commands == ObserveEffects(old(commands), node, beat, window)
    {
      for i := 0 to |commands|
        invariant |commands| == |old(commands)|
        invariant forall j :: 0 <= j < i ==> commands[j] == ObserveOne(old(commands)[j], node, beat, window)
        invariant forall j :: i <= j < |commands| ==> commands[j] == old(commands)[j]
      {
        var c := commands[i];
        if c.node == node && (c.status.Applied? || c.status.Executed?) {
          commands := commands[i := Observe(c, beat.system, beat.now, window)];
        }
      }
    }
  }
}
