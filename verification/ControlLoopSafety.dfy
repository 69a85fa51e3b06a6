/** What holds in every run of the control loop: order of executed set points, honest
    acknowledgement, at-most-once delivery, absorbing statuses and approval before delivery. */
module ControlLoopSafety {
  import opened Basics
  import opened Models
  import opened Retention
  import opened CommandLifecycle
  import opened CommandControl
  import opened NodeAgent
  import opened ControlLoop
  import opened ControlLoopSteps

  // ------------------------------------------------------------- the ledger

  /** A delivered copy agrees with the command central once handed to this node. */
  predicate HandedOut(all: seq<Command>, me: Node, id: nat, kind: Kind, parameters: Parameters) {
    && 1 <= id <= |all|
    && all[id - 1].node == me && all[id - 1].kind == kind && all[id - 1].parameters == parameters
    && all[id - 1].attempts == 1
  }

  predicate RowsOk(cfg: Config, s: State) {
    var ledger := s.node.ledger;
    && (forall k :: 0 <= k < |ledger| ==>
          && HandedOut(s.all, cfg.me, ledger[k].id, ledger[k].kind, ledger[k].parameters)
          && ledger[k].appliedAt <= s.clock
          && ledger[k].key == KeyFor(ledger[k].id, ledger[k].parameters)
          && (IsExecutedRate(ledger[k]) ==>
                && ledger[k].parameters.targetRate.Some? && SafeRate(ledger[k].parameters.targetRate.value, cfg.limit)
                && ledger[k].appliedAt < s.all[ledger[k].id - 1].expiresAt))
    && (forall j, k :: 0 <= j < k < |ledger| ==>
          && ledger[j].id != ledger[k].id && ledger[j].key != ledger[k].key
          && ledger[j].appliedAt <= ledger[k].appliedAt
          && (ledger[j].kind == ledger[k].kind ==> ledger[j].id < ledger[k].id))
  }

  predicate InboxOk(cfg: Config, s: State) {
    && (forall k :: 0 <= k < |s.inbox| ==>
          && HandedOut(s.all, cfg.me, s.inbox[k].id, s.inbox[k].kind, s.inbox[k].parameters)
          && s.inbox[k].expiresAt == s.all[s.inbox[k].id - 1].expiresAt
          && forall r :: 0 <= r < |s.node.ledger| ==>
               && s.node.ledger[r].id != s.inbox[k].id
               && (s.node.ledger[r].kind == s.inbox[k].kind ==> s.node.ledger[r].id < s.inbox[k].id))
    && (forall j, k :: 0 <= j < k < |s.inbox| ==> s.inbox[j].id < s.inbox[k].id)
  }

  /** Index of the last executed set point in the ledger. */
  function LastExecuted(ledger: seq<Row>): (r: Option<nat>)
    ensures r.Some? ==> && r.value < |ledger| && IsExecutedRate(ledger[r.value])
                        && forall j :: r.value < j < |ledger| ==> !IsExecutedRate(ledger[j])
    ensures r.None? ==> forall j :: 0 <= j < |ledger| ==> !IsExecutedRate(ledger[j])
  {
    if ledger == [] then None
    else if IsExecutedRate(ledger[|ledger| - 1]) then Some(|ledger| - 1)
    else LastExecuted(ledger[..|ledger| - 1])
  }

  function LedgerSetPoint(ledger: seq<Row>): Option<real> {
    var at := LastExecuted(ledger);
    if at.None? || ledger[at.value].parameters.targetRate.None? then None
    else Some(Round3(ledger[at.value].parameters.targetRate.value))
  }

  predicate MemoryOk(n: NodeState) {
    && n.setPoint == LedgerSetPoint(n.ledger)
    && forall id :: id in n.appliedIds ==> exists k :: 0 <= k < |n.ledger| && n.ledger[k].id == id
  }

  predicate ExecutedHere(ledger: seq<Row>, id: nat) {
    exists k :: 0 <= k < |ledger| && ledger[k].id == id && IsExecutedRate(ledger[k])
  }

  predicate ShownAsDone(me: Node, c: Command) {
    c.node == me && c.kind.SetTargetRate? && (c.status.Applied? || c.status.Verified?)
  }

  predicate Acknowledged(cfg: Config, s: State) {
    forall i :: 0 <= i < |s.all| && ShownAsDone(cfg.me, s.all[i]) ==> ExecutedHere(s.node.ledger, s.all[i].id)
  }

  predicate Inv(cfg: Config, s: State) {
    && Structure(s.all)
    && RowsOk(cfg, s)
    && InboxOk(cfg, s)
    && MemoryOk(s.node)
    && Acknowledged(cfg, s)
  }

  /** The restore query finds exactly the last executed set point. */
  lemma RestoreFindsLast(cfg: Config, s: State)
    requires RowsOk(cfg, s)
    ensures RestoredSetPoint(s.node.ledger, cfg.limit) == LedgerSetPoint(s.node.ledger)
  {
    hide Round3, HandedOut, KeyFor, LastExecuted, RestoreRow;
    var ledger := s.node.ledger;
    var last, restored := LastExecuted(ledger), RestoreRow(ledger);
    if last.Some? {
      assert restored.Some? && restored.value <= last.value && NotAfter(ledger[last.value], ledger[restored.value]);
      assert restored == last;
    }
  }

  /** Commands may evolve under a ledger without disturbing it. */
  lemma EvolvedKeepsHandedOut(all: seq<Command>, next: seq<Command>, cause: Cause, me: Node, id: nat, kind: Kind,
                              parameters: Parameters)
    requires Structure(all) && Evolved(all, next, cause)
    requires HandedOut(all, me, id, kind, parameters)
    ensures HandedOut(next, me, id, kind, parameters)
  {}

  lemma EvolvedKeepsLedger(cfg: Config, s: State, t: State, cause: Cause)
    requires Inv(cfg, s) && Evolved(s.all, t.all, cause)
    requires t.node.ledger == s.node.ledger && t.inbox == s.inbox && t.clock == s.clock
    ensures RowsOk(cfg, t) && InboxOk(cfg, t)
  {
    forall k | 0 <= k < |t.node.ledger|
      ensures HandedOut(t.all, cfg.me, t.node.ledger[k].id, t.node.ledger[k].kind, t.node.ledger[k].parameters)
    {
      var row := s.node.ledger[k];
      EvolvedKeepsHandedOut(s.all, t.all, cause, cfg.me, row.id, row.kind, row.parameters);
    }
    forall k | 0 <= k < |t.inbox|
      ensures HandedOut(t.all, cfg.me, t.inbox[k].id, t.inbox[k].kind, t.inbox[k].parameters)
    {
      var c := s.inbox[k];
      EvolvedKeepsHandedOut(s.all, t.all, cause, cfg.me, c.id, c.kind, c.parameters);
    }
  }

  /** Without a node result no command becomes applied, so acknowledgement is kept. */
  lemma RoutineKeepsAcknowledged(cfg: Config, s: State, t: State, cause: Cause)
    requires Inv(cfg, s) && Evolved(s.all, t.all, cause) && !cause.NodeResult?
    requires t.node.ledger == s.node.ledger
    ensures Acknowledged(cfg, t)
  {
    forall i | 0 <= i < |t.all| && ShownAsDone(cfg.me, t.all[i])
      ensures ExecutedHere(t.node.ledger, t.all[i].id)
    {
      assert i < |s.all|;
      assert Transition(s.all[i], t.all[i], cause) && Sound(s.all[i]);
      assert ShownAsDone(cfg.me, s.all[i]);
    }
  }

  // ------------------------------------------------------------------ results

  lemma ReplaceTouchesOne(s: State, at: nat, d: Command)
    requires at < |Live(s)|
    ensures var next := Commit(s, Live(s)[at := d]).all;
            var j := Base(s.all, RETAINED_COMMANDS) + at;
            j < |s.all| && s.all[j] == Live(s)[at] && next == s.all[j := d]
  {}

  /** Recording a result touches only the command it names. */
  lemma RecordTouchesOne(s: State, node: Node, id: nat, report: ReportStatus, message: Message, now: int)
    returns (j: nat, d: Command)
    requires RecordResult(Live(s), node, id, report, message, now).Ok?
    ensures j < |s.all| && s.all[j].id == id && s.all[j].node == node
    ensures Commit(s, RecordResult(Live(s), node, id, report, message, now).value).all == s.all[j := d]
    ensures Transition(s.all[j], d, NodeResult)
    ensures report.ReportFailed? && d.status.Applied? ==> s.all[j].status.Applied?
  {
    var at := ByIdForNode(Live(s), node, id).value;
    d := RecordOne(Live(s)[at], report, message, now).value;
    j := Base(s.all, RETAINED_COMMANDS) + at;
    RecordIsTransition(Live(s)[at], report, message, now);
    ReplaceTouchesOne(s, at, d);
  }

  lemma OtherReportKeepsAcknowledged(cfg: Config, s: State, node: Node, id: nat, report: ReportStatus,
                                     message: Message, now: int)
    requires Inv(cfg, s) && node != cfg.me
    ensures Acknowledged(cfg, CommitAnswer(s, FromManager(RecordResult(Live(s), node, id, report, message, now))))
  {
    if RecordResult(Live(s), node, id, report, message, now).Ok? {
      var j, d := RecordTouchesOne(s, node, id, report, message, now);
    }
  }

  lemma ReportKeepsAcknowledged(cfg: Config, s: State, i: nat, now: int)
    requires Inv(cfg, s) && i < |s.node.ledger|
    requires var row := s.node.ledger[i];
             RecordResult(Live(s), cfg.me, row.id, ReportOf(row), row.message, now).Ok?
    ensures var row := s.node.ledger[i];
            var answer := RecordResult(Live(s), cfg.me, row.id, ReportOf(row), row.message, now);
            Acknowledged(cfg, Commit(s, answer.value))
  {
    hide Transition, Sound, RecordResult, Rewrite, InboxOk, MemoryOk, OpenIsNewest;
    var row := s.node.ledger[i];
    var j, d := RecordTouchesOne(s, cfg.me, row.id, ReportOf(row), row.message, now);
    assert HandedOut(s.all, cfg.me, row.id, row.kind, row.parameters) && Sound(s.all[j]);
    ShownByReport(cfg.me, s.all[j], d, ReportOf(row));
  }

  /** Only a report of success makes a set point show as done. */
  lemma ShownByReport(me: Node, c: Command, d: Command, report: ReportStatus)
    requires Sound(c) && Transition(c, d, NodeResult)
    requires report.ReportFailed? && d.status.Applied? ==> c.status.Applied?
    ensures d.id == c.id && d.kind == c.kind
    ensures ShownAsDone(me, d) && !ShownAsDone(me, c) ==> !report.ReportFailed?
  {
    hide LapsesAt;
  }

  /** Ledgers that differ only in how often rows were reported. */
  predicate RowsAgree(a: seq<Row>, b: seq<Row>) {
    |a| == |b| && forall k :: 0 <= k < |a| ==> b[k] == a[k].(reported := b[k].reported, reportAttempts := b[k].reportAttempts)
  }

  lemma ReportingKeepsRows(cfg: Config, s: State, n: NodeState)
    requires RowsOk(cfg, s) && RowsAgree(s.node.ledger, n.ledger)
    ensures RowsOk(cfg, s.(node := n))
  {
    hide KeyFor, SafeRate, HandedOut;
    assert forall k :: 0 <= k < |s.node.ledger| ==> HandedOut(s.all, cfg.me, s.node.ledger[k].id, s.node.ledger[k].kind, s.node.ledger[k].parameters);
  }

  lemma ReportingKeepsInbox(cfg: Config, s: State, n: NodeState)
    requires InboxOk(cfg, s) && RowsAgree(s.node.ledger, n.ledger)
    ensures InboxOk(cfg, s.(node := n))
  {
    hide HandedOut;
  }

  lemma ReportingKeepsMemory(n: NodeState, ledger: seq<Row>)
    requires MemoryOk(n) && RowsAgree(n.ledger, ledger)
    ensures MemoryOk(n.(ledger := ledger))
  {
    hide Round3;
    assert IsExecutedRateSame(n.ledger, ledger);
    SameRatesSameSetPoint(n.ledger, ledger);
    forall id | id in n.appliedIds
      ensures exists k :: 0 <= k < |ledger| && ledger[k].id == id
    {
      var k :| 0 <= k < |n.ledger| && n.ledger[k].id == id;
      assert ledger[k].id == id;
    }
  }

  lemma ReportingKeepsAcknowledged(cfg: Config, s: State, n: NodeState)
    requires Acknowledged(cfg, s) && RowsAgree(s.node.ledger, n.ledger)
    ensures Acknowledged(cfg, s.(node := n))
  {
    hide ShownAsDone;
    forall j | 0 <= j < |s.all| && ShownAsDone(cfg.me, s.all[j])
      ensures ExecutedHere(n.ledger, s.all[j].id)
    {
      var k :| 0 <= k < |s.node.ledger| && s.node.ledger[k].id == s.all[j].id && IsExecutedRate(s.node.ledger[k]);
      assert IsExecutedRate(n.ledger[k]);
    }
  }

  lemma MarkReportKeepsLedger(cfg: Config, s: State, i: nat, accepted: bool)
    requires Inv(cfg, s) && i < |s.node.ledger|
    ensures Inv(cfg, s.(node := MarkReport(s.node, i, accepted)))
  {
    hide Structure, RowsOk, InboxOk, MemoryOk, Acknowledged;
    var n := MarkReport(s.node, i, accepted);
    ReportingKeepsRows(cfg, s, n);
    ReportingKeepsInbox(cfg, s, n);
    ReportingKeepsMemory(s.node, n.ledger);
    ReportingKeepsAcknowledged(cfg, s, n);
  }

  predicate IsExecutedRateSame(a: seq<Row>, b: seq<Row>) {
    |a| == |b| && forall k :: 0 <= k < |a| ==>
      IsExecutedRate(a[k]) == IsExecutedRate(b[k]) && a[k].parameters == b[k].parameters
  }

  lemma SameRatesSameSetPoint(a: seq<Row>, b: seq<Row>)
    requires IsExecutedRateSame(a, b)
    ensures LedgerSetPoint(a) == LedgerSetPoint(b)
  {}

  // ------------------------------------------------------------------ polling

  predicate Ascending(cs: seq<Command>) { forall i, j :: 0 <= i < j < |cs| ==> cs[i].id < cs[j].id }

  /** Element k of a claim's response is some claimable command of the list, marked. */
  predicate ComesFrom(c: Command, cs: seq<Command>, node: Node, agent: string, now: int) {
    exists i :: 0 <= i < |cs| && ClaimableBy(cs[i], node) && c == ClaimOne(cs[i], node, agent, now)
  }

  lemma ComesFromLonger(c: Command, cs: seq<Command>, node: Node, agent: string, now: int)
    requires cs != [] && ComesFrom(c, cs[..|cs| - 1], node, agent, now)
    ensures ComesFrom(c, cs, node, agent, now)
    ensures Ascending(cs) ==> c.id < cs[|cs| - 1].id
  {}

  /** What a claim hands out: claimable commands of the list, marked, in ascending order. */
  lemma {:induction false} DeliveredFromList(cs: seq<Command>, node: Node, agent: string, now: int)
    requires Ascending(cs)
    ensures Ascending(Delivered(cs, node, agent, now))
    ensures forall k :: 0 <= k < |Delivered(cs, node, agent, now)| ==>
              ComesFrom(Delivered(cs, node, agent, now)[k], cs, node, agent, now)
  {
    if cs == [] {
    } else {
      var front, last := cs[..|cs| - 1], cs[|cs| - 1];
      assert Ascending(front);
      DeliveredFromList(front, node, agent, now);
      var d := Delivered(front, node, agent, now);
      forall k | 0 <= k < |d|
        ensures ComesFrom(d[k], cs, node, agent, now) && d[k].id < last.id
      {
        ComesFromLonger(d[k], cs, node, agent, now);
      }
      if ClaimableBy(last, node) {
        assert Delivered(cs, node, agent, now) == d + [ClaimOne(last, node, agent, now)];
        assert ComesFrom(ClaimOne(last, node, agent, now), cs, node, agent, now);
      } else {
        assert Delivered(cs, node, agent, now) == d;
      }
    }
  }

  /** A retained open command of this node is newer than every ledger row of its kind. */
  lemma OpenIsNewerThanLedger(cfg: Config, s: State, j: nat)
    requires Inv(cfg, s)
    requires Base(s.all, RETAINED_COMMANDS) <= j < |s.all| && s.all[j].node == cfg.me && IsOpen(s.all[j].status)
    ensures forall r :: 0 <= r < |s.node.ledger| ==>
              && s.node.ledger[r].id != j + 1
              && (s.node.ledger[r].kind == s.all[j].kind ==> s.node.ledger[r].id < j + 1)
  {}

  function PollResponse(cfg: Config, s: State, ttlSeconds: int, now: int): seq<Command> {
    Delivered(ExpireAll(Live(s), ttlSeconds, now), cfg.me, "", now)
  }

  lemma PollAt(s: State, node: Node, ttlSeconds: int, now: int, i: nat)
    requires i < |Live(s)|
    ensures var j := Base(s.all, RETAINED_COMMANDS) + i;
            var polled := Commit(s, PollList(s, node, ttlSeconds, now)).all;
            && j < |s.all| == |polled| && s.all[j] == Live(s)[i]
            && polled[j] == ClaimOne(ExpireOne(s.all[j], ttlSeconds, now), node, "", now)
  {}

  lemma ClaimFacts(c: Command, node: Node, ttlSeconds: int, now: int)
    requires ClaimableBy(ExpireOne(c, ttlSeconds, now), node)
    ensures c.node == node && IsClaimable(c.status)
    ensures var d := ClaimOne(ExpireOne(c, ttlSeconds, now), node, "", now);
            SameIdentity(c, d) && d.attempts == c.attempts + 1
  {}

  /** Every delivered command stands in the history as a claimable command before the poll,
      and as the delivered copy after it. */
  lemma ResponseFromHistory(cfg: Config, s: State, ttlSeconds: int, now: int, k: nat) returns (j: nat)
    requires Numbered(s.all) && k < |PollResponse(cfg, s, ttlSeconds, now)|
    ensures Base(s.all, RETAINED_COMMANDS) <= j < |s.all|
    ensures s.all[j].node == cfg.me && IsClaimable(s.all[j].status)
    ensures var c := PollResponse(cfg, s, ttlSeconds, now)[k];
            && c.id == j + 1 && SameIdentity(s.all[j], c) && c.attempts == s.all[j].attempts + 1
            && j < |Commit(s, PollList(s, cfg.me, ttlSeconds, now)).all|
            && Commit(s, PollList(s, cfg.me, ttlSeconds, now)).all[j] == c
  {
    hide Delivered, ClaimOne, ExpireOne, LastN, Rewrite, ClaimableBy, SameIdentity;
    ExpiredListAscends(s, ttlSeconds, now);
    var list := ExpireAll(Live(s), ttlSeconds, now);
    DeliveredFromList(list, cfg.me, "", now);
    var c := PollResponse(cfg, s, ttlSeconds, now)[k];
    assert ComesFrom(c, list, cfg.me, "", now);
    var i: nat :| i < |list| && ClaimableBy(list[i], cfg.me) && c == ClaimOne(list[i], cfg.me, "", now);
    j := Base(s.all, RETAINED_COMMANDS) + i;
    PollAt(s, cfg.me, ttlSeconds, now, i);
    ClaimFacts(s.all[j], cfg.me, ttlSeconds, now);
    assert c.id == s.all[j].id by { IdentityGivesId(s.all[j], c); }
  }

  lemma IdentityGivesId(c: Command, d: Command)
    requires SameIdentity(c, d)
    ensures c.id == d.id
  {}

  lemma ExpiredListAscends(s: State, ttlSeconds: int, now: int)
    requires Numbered(s.all)
    ensures Ascending(ExpireAll(Live(s), ttlSeconds, now))
  {}

  lemma ResponseIsDue(cfg: Config, s: State, ttlSeconds: int, now: int, k: nat)
    requires Inv(cfg, s) && k < |PollResponse(cfg, s, ttlSeconds, now)|
    ensures var c := PollResponse(cfg, s, ttlSeconds, now)[k];
            && HandedOut(Commit(s, PollList(s, cfg.me, ttlSeconds, now)).all, cfg.me, c.id, c.kind, c.parameters)
            && Commit(s, PollList(s, cfg.me, ttlSeconds, now)).all[c.id - 1] == c
            && forall r :: 0 <= r < |s.node.ledger| ==>
                 && s.node.ledger[r].id != c.id
                 && (s.node.ledger[r].kind == c.kind ==> s.node.ledger[r].id < c.id)
  {
    hide PollResponse, Commit, PollList, RowsOk, InboxOk, MemoryOk, Acknowledged;
    var j := ResponseFromHistory(cfg, s, ttlSeconds, now, k);
    assert Sound(s.all[j]);
    OpenIsNewerThanLedger(cfg, s, j);
  }

  lemma ResponseOk(cfg: Config, s: State, ttlSeconds: int, now: int)
    requires Inv(cfg, s) && s.inbox == []
    ensures InboxOk(cfg, PollStep(cfg, s, ttlSeconds, true, now))
  {
    hide Inv, Commit, PollList, Delivered, HandedOut;
    var response := PollResponse(cfg, s, ttlSeconds, now);
    InvIsNumbered(cfg, s);
    ExpiredListAscends(s, ttlSeconds, now);
    DeliveredFromList(ExpireAll(Live(s), ttlSeconds, now), cfg.me, "", now);
    CommitKeepsNode(s, PollList(s, cfg.me, ttlSeconds, now));
    forall k | 0 <= k < |response|
      ensures HandedOut(Commit(s, PollList(s, cfg.me, ttlSeconds, now)).all, cfg.me,
                        response[k].id, response[k].kind, response[k].parameters)
      ensures 1 <= response[k].id <= |Commit(s, PollList(s, cfg.me, ttlSeconds, now)).all|
      ensures Commit(s, PollList(s, cfg.me, ttlSeconds, now)).all[response[k].id - 1] == response[k]
      ensures forall r :: 0 <= r < |s.node.ledger| ==>
                && s.node.ledger[r].id != response[k].id
                && (s.node.ledger[r].kind == response[k].kind ==> s.node.ledger[r].id < response[k].id)
    {
      ResponseIsDue(cfg, s, ttlSeconds, now, k);
      HandedOutInRange(Commit(s, PollList(s, cfg.me, ttlSeconds, now)).all, cfg.me,
                       response[k].id, response[k].kind, response[k].parameters);
    }
  }

  lemma HandedOutInRange(all: seq<Command>, me: Node, id: nat, kind: Kind, parameters: Parameters)
    requires HandedOut(all, me, id, kind, parameters)
    ensures 1 <= id <= |all|
  {}

  lemma InvIsNumbered(cfg: Config, s: State)
    requires Inv(cfg, s)
    ensures Numbered(s.all)
  {}

  lemma CommitKeepsNode(s: State, list: seq<Command>)
    ensures Commit(s, list).node == s.node
  {}

  lemma PollKeepsInv(cfg: Config, s: State, ttlSeconds: int, arrives: bool, now: int)
    requires Inv(cfg, s)
    ensures Inv(cfg, PollStep(cfg, s, ttlSeconds, arrives, now))
  {
    if s.inbox == [] {
      var t := Commit(s, PollList(s, cfg.me, ttlSeconds, now));
      PollEvolves(s, cfg.me, ttlSeconds, now);
      EvolvedKeepsStructure(s.all, t.all, Routine);
      EvolvedKeepsLedger(cfg, s, t, Routine);
      RoutineKeepsAcknowledged(cfg, s, t, Routine);
      if arrives {
        ResponseOk(cfg, s, ttlSeconds, now);
      }
    }
  }

  // ---------------------------------------------------------- node processing

  lemma SetPointAfterAppend(ledger: seq<Row>, row: Row)
    ensures LedgerSetPoint(ledger + [row])
            == if IsExecutedRate(row) && row.parameters.targetRate.Some?
               then Some(Round3(row.parameters.targetRate.value))
               else if IsExecutedRate(row) then None
               else LedgerSetPoint(ledger)
  {}

  /** A row as the node writes it for a command handled now. */
  predicate RowFor(row: Row, c: Command, limit: real, now: int) {
    && row.id == c.id && row.kind == c.kind && row.parameters == c.parameters && row.appliedAt == now
    && row.key == KeyFor(c.id, c.parameters)
    && (IsExecutedRate(row) ==>
          c.parameters.targetRate.Some? && SafeRate(c.parameters.targetRate.value, limit) && now < c.expiresAt)
  }

  /** Handling a command appends at most one row, for that command, and keeps memory and
      ledger in agreement. */
  lemma ProcessAppends(n: NodeState, c: Command, limit: real, now: int) returns (row: Row)
    requires MemoryOk(n)
    ensures MemoryOk(Process(n, c, limit, now))
    ensures RowFor(row, c, limit, now)
    ensures Process(n, c, limit, now) == n
            || (&& Process(n, c, limit, now).ledger == n.ledger + [row]
                && forall j :: 0 <= j < |n.ledger| ==> n.ledger[j].key != row.key)
  {
    hide Round3, KeyFor, SafeRate, LastExecuted;
    var m := Process(n, c, limit, now);
    var refusal := RefusalOf(c, limit, now);
    row := if refusal.Some? then NewRow(c, RowFailed, refusal.value, now)
           else NewRow(c, RowExecuted, RateApplied(Round3(c.parameters.targetRate.value)), now);
    if c.id != 0 && LookupRow(n.ledger, c.id, NodeKey(c)).None? {
      assert c.id !in n.appliedIds;
      SetPointAfterAppend(n.ledger, row);
      assert m.ledger == n.ledger + [row];
      forall id | id in m.appliedIds
        ensures exists k :: 0 <= k < |m.ledger| && m.ledger[k].id == id
      {
        if id == c.id {
          assert m.ledger[|n.ledger|].id == id;
        } else {
          var k :| 0 <= k < |n.ledger| && n.ledger[k].id == id;
          assert m.ledger[k].id == id;
        }
      }
    }
  }

  lemma AcknowledgedGrows(cfg: Config, s: State, t: State)
    requires Acknowledged(cfg, s) && t.all == s.all
    requires |s.node.ledger| <= |t.node.ledger| && t.node.ledger[..|s.node.ledger|] == s.node.ledger
    ensures Acknowledged(cfg, t)
  {}

  lemma AppendKeepsInbox(cfg: Config, s: State, t: State, row: Row)
    requires InboxOk(cfg, s) && s.inbox != []
    requires t.all == s.all && t.inbox == s.inbox[1..] && t.node.ledger == s.node.ledger + [row]
    requires row.id == s.inbox[0].id && row.kind == s.inbox[0].kind
    ensures InboxOk(cfg, t)
  {
    hide HandedOut;
    forall k | 0 <= k < |t.inbox|
      ensures HandedOut(t.all, cfg.me, t.inbox[k].id, t.inbox[k].kind, t.inbox[k].parameters)
      ensures 1 <= t.inbox[k].id <= |t.all| && t.inbox[k].expiresAt == t.all[t.inbox[k].id - 1].expiresAt
      ensures forall r :: 0 <= r < |t.node.ledger| ==>
                && t.node.ledger[r].id != t.inbox[k].id
                && (t.node.ledger[r].kind == t.inbox[k].kind ==> t.node.ledger[r].id < t.inbox[k].id)
    {
      assert t.inbox[k] == s.inbox[k + 1];
      HandedOutInRange(t.all, cfg.me, t.inbox[k].id, t.inbox[k].kind, t.inbox[k].parameters);
    }
  }

  lemma AppendKeepsRows(cfg: Config, s: State, t: State, row: Row)
    requires RowsOk(cfg, s) && InboxOk(cfg, s) && s.inbox != []
    requires t.all == s.all && s.clock <= t.clock == row.appliedAt
    requires t.node.ledger == s.node.ledger + [row] && RowFor(row, s.inbox[0], cfg.limit, t.clock)
    requires forall j :: 0 <= j < |s.node.ledger| ==> s.node.ledger[j].key != row.key
    ensures RowsOk(cfg, t)
  {
    hide KeyFor, SafeRate;
    assert HandedOut(s.all, cfg.me, s.inbox[0].id, s.inbox[0].kind, s.inbox[0].parameters);
  }

  lemma SkipKeepsRows(cfg: Config, s: State, t: State)
    requires RowsOk(cfg, s) && InboxOk(cfg, s) && s.inbox != []
    requires t.all == s.all && t.inbox == s.inbox[1..] && s.clock <= t.clock && t.node.ledger == s.node.ledger
    ensures RowsOk(cfg, t) && InboxOk(cfg, t)
  {}

  lemma HandledNodeKeepsInv(cfg: Config, s: State, t: State, row: Row)
    requires Inv(cfg, s) && s.inbox != [] && MemoryOk(t.node)
    requires t.all == s.all && t.inbox == s.inbox[1..] && s.clock <= t.clock == row.appliedAt
    requires RowFor(row, s.inbox[0], cfg.limit, t.clock)
    requires t.node.ledger == s.node.ledger
             || (&& t.node.ledger == s.node.ledger + [row]
                 && forall j :: 0 <= j < |s.node.ledger| ==> s.node.ledger[j].key != row.key)
    ensures Inv(cfg, t)
  {
    if t.node.ledger == s.node.ledger {
      SkipKeepsRows(cfg, s, t);
    } else {
      AppendKeepsRows(cfg, s, t, row);
      AppendKeepsInbox(cfg, s, t, row);
    }
    AcknowledgedGrows(cfg, s, t);
  }

  lemma HandleKeepsInv(cfg: Config, s: State, now: int)
    requires Inv(cfg, s)
    ensures Inv(cfg, HandleStep(cfg, s, now))
  {
    if s.inbox != [] && s.clock <= now {
      var row := ProcessAppends(s.node, s.inbox[0], cfg.limit, now);
      HandledNodeKeepsInv(cfg, s, HandleStep(cfg, s, now), row);
    }
  }

  // --------------------------------------------------------- every action, every run

  lemma CentralStepKeepsInv(cfg: Config, s: State, a: Action)
    requires Inv(cfg, s) && !CauseOf(a).NodeResult?
    requires Next(cfg, s, a).node == s.node && Next(cfg, s, a).inbox == s.inbox && Next(cfg, s, a).clock == s.clock
    ensures Inv(cfg, Next(cfg, s, a))
  {
    hide Next, Sound, Evolved;
    var t := Next(cfg, s, a);
    StepEvolves(cfg, s, a);
    EvolvedKeepsStructure(s.all, t.all, CauseOf(a));
    EvolvedKeepsLedger(cfg, s, t, CauseOf(a));
    RoutineKeepsAcknowledged(cfg, s, t, CauseOf(a));
  }

  lemma ResultStepKeepsInv(cfg: Config, s: State, a: Action)
    requires Inv(cfg, s) && CauseOf(a).NodeResult?
    ensures Inv(cfg, Next(cfg, s, a))
  {
    hide Structure, Evolved, Acknowledged;
    StepEvolves(cfg, s, a);
    var t := Next(cfg, s, a);
    EvolvedKeepsStructure(s.all, t.all, NodeResult);
    match a
    case OtherReport(node, id, report, message, now) =>
      EvolvedKeepsLedger(cfg, s, t, NodeResult);
      if node != cfg.me {
        OtherReportKeepsAcknowledged(cfg, s, node, id, report, message, now);
      }
    case ReportRow(i, acknowledged, now) =>
      if i < |s.node.ledger| {
        var row := s.node.ledger[i];
        var answer := RecordResult(Live(s), cfg.me, row.id, ReportOf(row), row.message, now);
        if answer.Ok? {
          ReportKeepsAcknowledged(cfg, s, i, now);
        }
        var mid := if answer.Ok? then Commit(s, answer.value) else s;
        EvolvedKeepsLedger(cfg, s, mid, NodeResult);
        MarkReportKeepsLedger(cfg, mid, i, answer.Ok? && acknowledged);
      }
    case _ =>
  }

  predicate IsCentral(a: Action) {
    !a.Poll? && !a.HandleNext? && !a.CrashAndRestart? && !CauseOf(a).NodeResult?
  }

  lemma CentralLeavesNode(cfg: Config, s: State, a: Action)
    requires IsCentral(a)
    ensures Next(cfg, s, a).node == s.node && Next(cfg, s, a).inbox == s.inbox && Next(cfg, s, a).clock == s.clock
  {}

  lemma RestartKeepsInv(cfg: Config, s: State)
    requires Inv(cfg, s)
    ensures Inv(cfg, s.(node := Restart(s.node, cfg.limit), inbox := []))
  {
    RestoreFindsLast(cfg, s);
  }

  lemma NextKeepsInv(cfg: Config, s: State, a: Action)
    requires Inv(cfg, s)
    ensures Inv(cfg, Next(cfg, s, a))
  {
    hide Inv, PollStep, HandleStep, Restart;
    if IsCentral(a) {
      CentralLeavesNode(cfg, s, a);
      CentralStepKeepsInv(cfg, s, a);
    } else if CauseOf(a).NodeResult? {
      ResultStepKeepsInv(cfg, s, a);
    } else if a.Poll? {
      PollKeepsInv(cfg, s, a.ttlSeconds, a.responseArrives, a.now);
    } else if a.HandleNext? {
      HandleKeepsInv(cfg, s, a.nodeNow);
    } else {
      RestartKeepsInv(cfg, s);
    }
  }

  lemma InitialInv(cfg: Config)
    ensures Inv(cfg, INITIAL)
  {}

  lemma {:induction false} RunKeepsInv(cfg: Config, actions: seq<Action>)
    ensures Inv(cfg, Run(cfg, actions))
  {
    hide Next, Inv;
    if actions != [] {
      RunKeepsInv(cfg, actions[..|actions| - 1]);
      NextKeepsInv(cfg, Run(cfg, actions[..|actions| - 1]), actions[|actions| - 1]);
    } else {
      InitialInv(cfg);
    }
  }
}
