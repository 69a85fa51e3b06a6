/** The node end of the command protocol: the durable local ledger, application of
    `set_target_rate`, duplicate suppression, result reporting and the set point restored
    after a restart. */
module NodeAgent {
  import opened Basics
  import opened Models
  import opened CommandLifecycle

  datatype RowStatus = RowExecuted | RowFailed

  /** One row of the local_commands table. */
  datatype Row = Row(
    id: nat,
    key: string,
    kind: Kind,
    parameters: Parameters,
    status: RowStatus,
    message: Message,
    appliedAt: int,
    reported: bool,
    reportAttempts: nat)

  /** The ledger survives a crash; the other two fields are process memory. */
  datatype NodeState = NodeState(ledger: seq<Row>, appliedIds: set<nat>, setPoint: Option<real>)

  const FRESH_NODE := NodeState([], {}, None)

  /** The explicit key of a command, or the automatic one. */
  function KeyFor(id: nat, p: Parameters): string {
    if ExplicitKey(p) == "" then AutoKey(id) else ExplicitKey(p)
  }

  function NodeKey(c: Command): string { KeyFor(c.id, c.parameters) }

  predicate MatchesRow(row: Row, id: nat, key: string) { row.id == id || row.key == key }

  function LookupRow(ledger: seq<Row>, id: nat, key: string): (r: Option<nat>)
    ensures r.Some? ==> r.value < |ledger| && MatchesRow(ledger[r.value], id, key)
    ensures r.None? ==> forall j :: 0 <= j < |ledger| ==> ledger[j].id != id && ledger[j].key != key
  {
    First(ledger, (row: Row) => MatchesRow(row, id, key))
  }

  predicate SafeRate(rate: real, limit: real) { 0.0 < rate <= limit }

  function NewRow(c: Command, status: RowStatus, message: Message, now: int): Row {
    Row(c.id, NodeKey(c), c.kind, c.parameters, status, message, now, false, 0)
  }

  /** Why a command that is new to this node is refused; None when it will be executed. */
  function RefusalOf(c: Command, limit: real, now: int): Option<Message> {
    if c.id == 0 then Some(MissingCommandId)
    else if now >= c.expiresAt then Some(ExpiredBeforeExecution)
    else if !c.kind.SetTargetRate? then Some(UnsupportedKind(c.kind))
    else if c.parameters.targetRate.None? then Some(RateNotNumeric)
    else if !SafeRate(c.parameters.targetRate.value, limit) then Some(RateOutOfRange(c.parameters.targetRate.value))
    else None
  }

  /** One command of a poll response: ignored when the ledger knows it, otherwise executed or
      refused, and recorded. */
  function Process(n: NodeState, c: Command, limit: real, now: int): NodeState {
    if c.id == 0 || LookupRow(n.ledger, c.id, NodeKey(c)).Some? then n
    else if c.id in n.appliedIds then
      n.(ledger := n.ledger + [NewRow(c, RowExecuted, AlreadyAppliedLocally, now)])
    else
      var refusal := RefusalOf(c, limit, now);
      if refusal.Some? then n.(ledger := n.ledger + [NewRow(c, RowFailed, refusal.value, now)])
      else
        var rate := Round3(c.parameters.targetRate.value);
        NodeState(n.ledger + [NewRow(c, RowExecuted, RateApplied(rate), now)], n.appliedIds + {c.id}, Some(rate))
  }

  function MarkReport(n: NodeState, i: nat, accepted: bool): NodeState
    requires i < |n.ledger|
  {
    var row := n.ledger[i];
    n.(ledger := n.ledger[i := row.(reported := row.reported || accepted, reportAttempts := row.reportAttempts + 1)])
  }

  // ----------------------------------------------------------------- restart

  predicate IsExecutedRate(row: Row) { row.kind.SetTargetRate? && row.status.RowExecuted? }

  /** ORDER BY applied_at, command_id. */
  predicate NotAfter(a: Row, b: Row) { a.appliedAt < b.appliedAt || (a.appliedAt == b.appliedAt && a.id <= b.id) }

  /** The row the restore query returns: the executed set point that sorts last. */
  function RestoreRow(ledger: seq<Row>): (r: Option<nat>)
    ensures r.None? ==> forall j :: 0 <= j < |ledger| ==> !IsExecutedRate(ledger[j])
    ensures r.Some? ==> && r.value < |ledger| && IsExecutedRate(ledger[r.value])
                        && forall j :: 0 <= j < |ledger| && IsExecutedRate(ledger[j]) ==>
                             NotAfter(ledger[j], ledger[r.value])
  {
    if ledger == [] then None
    else
      var last := |ledger| - 1;
      var earlier := RestoreRow(ledger[..last]);
      if !IsExecutedRate(ledger[last]) then earlier
      else if earlier.Some? && !NotAfter(ledger[earlier.value], ledger[last]) then earlier
      else Some(last)
  }

  function RestoredSetPoint(ledger: seq<Row>, limit: real): Option<real> {
    var at := RestoreRow(ledger);
    if at.None? then None
    else
      var rate := ledger[at.value].parameters.targetRate;
      if rate.Some? && SafeRate(rate.value, limit) then Some(Round3(rate.value)) else None
  }

  function Restart(n: NodeState, limit: real): NodeState {
    NodeState(n.ledger, {}, RestoredSetPoint(n.ledger, limit))
  }

  // ---------------------------------------------------------- implementation

  class Agent {
    const limit: real
    var ledger: seq<Row>
    var appliedIds: set<nat>
    var setPoint: Option<real>

    function State(): NodeState
      reads this
    {
      NodeState(ledger, appliedIds, setPoint)
    }

    /** Process start on an existing local database. */
    constructor (limit: real, ledger: seq<Row>)
      ensures this.limit == limit
      ensures State() == Restart(NodeState(ledger, {}, None), limit)
    {
      this.limit := limit;
      this.ledger := ledger;
      this.appliedIds := {};
      this.setPoint := None;
      new;
      RestoreLocalCommandState();
    }

    method RestoreLocalCommandState()
      requires setPoint == None
      modifies this`setPoint
      ensures setPoint == RestoredSetPoint(ledger, limit)
    {
      var best: Option<nat> := None;
      for i := 0 to |ledger|
        invariant best == RestoreRow(ledger[..i])
      {
        assert ledger[..i + 1][..i] == ledger[..i];
        if IsExecutedRate(ledger[i]) && (best.None? || NotAfter(ledger[best.value], ledger[i])) {
          best := Some(i);
        }
      }
      assert ledger[..|ledger|] == ledger;
      if best.None? { return; }
      var rate := ledger[best.value].parameters.targetRate;
      if rate.Some? && 0.0 < rate.value <= limit {
        setPoint := Some(Round3(rate.value));
      }
    }

    method FindRow(id: nat, key: string) returns (at: Option<nat>)
      ensures at == LookupRow(ledger, id, key)
    {
      for i := 0 to |ledger|
        invariant forall j :: 0 <= j < i ==> !MatchesRow(ledger[j], id, key)
      {
        if MatchesRow(ledger[i], id, key) { return Some(i); }
      }
      return None;
    }

    /** apply_agent_command: the verdict for one command, executing it when it is safe. */
    method ApplyAgentCommand(c: Command, now: int) returns (status: RowStatus, message: Message)
      modifies this
      ensures var at := LookupRow(old(ledger), c.id, NodeKey(c));
              if c.id == 0 then
                status == RowFailed && message == MissingCommandId && State() == old(State())
              else if at.Some? then
                && status == old(ledger)[at.value].status && message == RepeatOf(old(ledger)[at.value].message)
                && State() == old(State())
              else if c.id in old(appliedIds) then
                status == RowExecuted && message == AlreadyAppliedLocally && State() == old(State())
              else if RefusalOf(c, limit, now).Some? then
                status == RowFailed && message == RefusalOf(c, limit, now).value && State() == old(State())
              else
                && status == RowExecuted && message == RateApplied(Round3(c.parameters.targetRate.value))
                && State() == Process(old(State()), c, limit, now)
    {
      if c.id == 0 { return RowFailed, MissingCommandId; }
      var at := FindRow(c.id, NodeKey(c));
      if at.Some? { return ledger[at.value].status, RepeatOf(ledger[at.value].message); }
      if c.id in appliedIds { return RowExecuted, AlreadyAppliedLocally; }
      if now >= c.expiresAt { return RowFailed, ExpiredBeforeExecution; }
      if c.kind != SetTargetRate { return RowFailed, UnsupportedKind(c.kind); }
      if c.parameters.targetRate.None? { return RowFailed, RateNotNumeric; }
      var rate := c.parameters.targetRate.value;
      if rate <= 0.0 || rate > limit { return RowFailed, RateOutOfRange(rate); }
      setPoint := Some(Round3(rate));
      appliedIds := appliedIds + {c.id};
      message := RateApplied(Round3(rate));
      ledger := ledger + [NewRow(c, RowExecuted, message, now)];
      status := RowExecuted;
    }

    /** The loop body of poll_agent_commands. */
    method HandleCommand(c: Command, now: int)
      modifies this
      ensures State() == Process(old(State()), c, limit, now)
    {
      if c.id != 0 {
        var existing := FindRow(c.id, NodeKey(c));
        if existing.Some? { return; }
      }
      var status, message := ApplyAgentCommand(c, now);
      if c.id != 0 {
        var recorded := FindRow(c.id, NodeKey(c));
        if recorded.None? {
          ledger := ledger + [NewRow(c, status, message, now)];
        }
      }
    }
  }
}
