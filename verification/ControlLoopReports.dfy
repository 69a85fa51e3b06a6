/** What results do to the loop: when a failed command is re-opened, when a report settles its
    ledger row, and which set point is in force once the newest one is acknowledged. */
module ControlLoopReports {
  import opened Basics
  import opened Models
  import opened Retention
  import opened CommandVerifier
  import opened CommandLifecycle
  import opened NodeAgent
  import opened ControlLoop
  import opened ControlLoopSteps
  import opened ControlLoopSafety
  import opened ControlLoopTheorems

  /** Among the last 100 commands created. */
  predicate IsRetained(s: State, id: nat) { 1 <= id <= |s.all| && |s.all| - 100 < id }

  /** A retained command is found by its id, an evicted one is not. */
  lemma LookupInWindow(s: State, node: Node, id: nat)
    requires Numbered(s.all) && 1 <= id <= |s.all| && s.all[id - 1].node == node
    ensures ByIdForNode(Live(s), node, id)
            == if IsRetained(s, id) then Some(id - 1 - Base(s.all, RETAINED_COMMANDS)) else None
    ensures IsRetained(s, id) ==>
              var at := id - 1 - Base(s.all, RETAINED_COMMANDS);
              at < |Live(s)| && Live(s)[at] == s.all[id - 1]
  {
    hide ByIdForNode;
    WindowIsSuffix(s.all, RETAINED_COMMANDS);
    if IsRetained(s, id) { FindsIt(Live(s), node, id, id - 1 - Base(s.all, RETAINED_COMMANDS)); }
    else { FindsNone(Live(s), node, id); }
  }

  lemma FindsNone(cs: seq<Command>, node: Node, id: nat)
    requires forall i :: 0 <= i < |cs| ==> cs[i].id != id
    ensures ByIdForNode(cs, node, id).None?
  {}

  lemma FindsIt(cs: seq<Command>, node: Node, id: nat, at: nat)
    requires at < |cs| && cs[at].id == id && cs[at].node == node
    requires forall i, j :: 0 <= i < j < |cs| ==> cs[i].id != cs[j].id
    ensures ByIdForNode(cs, node, id) == Some(at)
  {}

  // ------------------------------------------------------------ re-opening `failed`

  /** The action reports success for a command: a node's executed ledger row, or an executed or
      applied report from the command's own node. */
  predicate ReportsSuccess(cfg: Config, s: State, a: Action, id: nat) {
    match a
    case ReportRow(r, _, _) => r < |s.node.ledger| && s.node.ledger[r].id == id && s.node.ledger[r].status.RowExecuted?
    case OtherReport(node, target, report, _, _) =>
      && node != cfg.me && target == id && 1 <= id <= |s.all| && s.all[id - 1].node == node
      && (report.ReportExecuted? || report.ReportApplied?)
    case _ => false
  }

  /** A result for a failed command is stored; it re-opens the command exactly when it reports
      success and the command is retained. */
  lemma ResultOnFailed(s: State, node: Node, id: nat, report: ReportStatus, message: Message, now: int, i: nat)
    requires Structure(s.all) && i < |s.all| && s.all[i].status.Failed? && s.all[i].node == node
    requires !report.ReportOther?
    ensures var answer := RecordResult(Live(s), node, id, report, message, now);
            var t := if answer.Ok? then Commit(s, answer.value) else s;
            && |t.all| == |s.all|
            && (!t.all[i].status.Failed? <==> id == i + 1 && IsRetained(s, id) && !report.ReportFailed?)
  {
    hide Sound, OpenIsNewest;
    if RecordResult(Live(s), node, id, report, message, now).Ok? {
      var j, d := RecordTouchesOne(s, node, id, report, message, now);
      assert s.all[j].id == j + 1;
      if j == i { RecordOnFailed(s, node, id, report, message, now); }
    } else if id == i + 1 {
      LookupInWindow(s, node, id);
    }
  }

  lemma RecordOneOnFailed(c: Command, report: ReportStatus, message: Message, now: int)
    requires c.status.Failed? && !report.ReportOther?
    ensures var r := RecordOne(c, report, message, now);
            r.Ok? && (r.value.status.Failed? <==> report.ReportFailed?)
  {}

  lemma RecordOnFailed(s: State, node: Node, id: nat, report: ReportStatus, message: Message, now: int)
    requires Structure(s.all) && 1 <= id <= |s.all| && s.all[id - 1].status.Failed? && s.all[id - 1].node == node
    requires !report.ReportOther?
    ensures var answer := RecordResult(Live(s), node, id, report, message, now);
            && (answer.Ok? <==> IsRetained(s, id))
            && (answer.Ok? ==>
                  var next := Commit(s, answer.value).all;
                  && |next| == |s.all|
                  && (next[id - 1].status.Failed? <==> report.ReportFailed?))
  {
    hide Sound, OpenIsNewest, ByIdForNode, RecordOne, Commit, Live, Base;
    LookupInWindow(s, node, id);
    if IsRetained(s, id) {
      var at := id - 1 - Base(s.all, RETAINED_COMMANDS);
      RecordOneOnFailed(Live(s)[at], report, message, now);
      ReplaceTouchesOne(s, at, RecordOne(Live(s)[at], report, message, now).value);
    }
  }

  /** A report for another command, or from another node, leaves command i alone. */
  lemma OtherResultLeaves(s: State, node: Node, id: nat, report: ReportStatus, message: Message, now: int, i: nat)
    requires Structure(s.all) && i < |s.all|
    requires node != s.all[i].node || report.ReportOther?
    requires RecordResult(Live(s), node, id, report, message, now).Ok?
    ensures Commit(s, RecordResult(Live(s), node, id, report, message, now).value).all[i] == s.all[i]
  {
    hide Sound, OpenIsNewest;
    var j, d := RecordTouchesOne(s, node, id, report, message, now);
  }

  lemma ReportReopensIff(cfg: Config, s: State, r: nat, acknowledged: bool, now: int, i: nat)
    requires Inv(cfg, s) && i < |s.all| && s.all[i].status.Failed?
    ensures var t := ReportStep(cfg, s, r, acknowledged, now);
            && |t.all| == |s.all|
            && (!t.all[i].status.Failed?
                <==> IsRetained(s, i + 1) && ReportsSuccess(cfg, s, ReportRow(r, acknowledged, now), i + 1))
  {
    hide Structure, RowsOk, InboxOk, MemoryOk, Acknowledged, RecordResult, Commit;
    if r < |s.node.ledger| {
      var row := s.node.ledger[r];
      RowsAreOurs(cfg, s, r);
      if s.all[i].node == cfg.me {
        ResultOnFailed(s, cfg.me, row.id, ReportOf(row), row.message, now, i);
      } else if RecordResult(Live(s), cfg.me, row.id, ReportOf(row), row.message, now).Ok? {
        OtherResultLeaves(s, cfg.me, row.id, ReportOf(row), row.message, now, i);
        RecordKeepsLength(s, cfg.me, row.id, ReportOf(row), row.message, now);
      }
    }
  }

  lemma RowsAreOurs(cfg: Config, s: State, r: nat)
    requires RowsOk(cfg, s) && r < |s.node.ledger|
    ensures 1 <= s.node.ledger[r].id <= |s.all| && s.all[s.node.ledger[r].id - 1].node == cfg.me
  {
    assert HandedOut(s.all, cfg.me, s.node.ledger[r].id, s.node.ledger[r].kind, s.node.ledger[r].parameters);
  }

  lemma RecordKeepsLength(s: State, node: Node, id: nat, report: ReportStatus, message: Message, now: int)
    requires RecordResult(Live(s), node, id, report, message, now).Ok?
    ensures |Commit(s, RecordResult(Live(s), node, id, report, message, now).value).all| == |s.all|
  {
    var j, d := RecordTouchesOne(s, node, id, report, message, now);
  }

  lemma OtherReportReopensIff(cfg: Config, s: State, a: Action, i: nat)
    requires Structure(s.all) && i < |s.all| && s.all[i].status.Failed? && a.OtherReport?
    ensures var t := Next(cfg, s, a);
            && |t.all| == |s.all|
            && (!t.all[i].status.Failed? <==> IsRetained(s, i + 1) && ReportsSuccess(cfg, s, a, i + 1))
  {
    hide Structure, RecordResult, Commit;
    if a.node != cfg.me {
      if RecordResult(Live(s), a.node, a.id, a.report, a.message, a.now).Ok? {
        RecordKeepsLength(s, a.node, a.id, a.report, a.message, a.now);
      }
      if s.all[i].node == a.node && !a.report.ReportOther? {
        ResultOnFailed(s, a.node, a.id, a.report, a.message, a.now, i);
      } else if RecordResult(Live(s), a.node, a.id, a.report, a.message, a.now).Ok? {
        OtherResultLeaves(s, a.node, a.id, a.report, a.message, a.now, i);
      }
    }
  }

  /** In every run a failed command leaves `failed` exactly when it is still retained and the
      action reports its success, and then it is applied again. */
  lemma FailedReopensIff(cfg: Config, actions: seq<Action>, a: Action, i: nat)
    requires i < |Run(cfg, actions).all| && Run(cfg, actions).all[i].status.Failed?
    ensures var s := Run(cfg, actions);
            var later := Next(cfg, s, a).all;
            && i < |later|
            && (!later[i].status.Failed? <==> IsRetained(s, i + 1) && ReportsSuccess(cfg, s, a, i + 1))
            && (!later[i].status.Failed? ==> later[i].status.Applied?)
  {
    hide Next, Inv, ReportStep;
    RunKeepsInv(cfg, actions);
    FailedReopensOnlyByResult(cfg, actions, a, i);
    var s := Run(cfg, actions);
    if a.ReportRow? {
      ReportReopensIff(cfg, s, a.row, a.acknowledged, a.now, i);
      ReportIsNext(cfg, s, a);
    } else if a.OtherReport? {
      RunHasStructure(cfg, actions);
      OtherReportReopensIff(cfg, s, a, i);
    }
  }

  lemma ReportIsNext(cfg: Config, s: State, a: Action)
    requires a.ReportRow?
    ensures Next(cfg, s, a) == ReportStep(cfg, s, a.row, a.acknowledged, a.now)
  {}

  // ------------------------------------------------------ the set point in force

  predicate IsSetPointOf(c: Command, node: Node) { c.node == node && c.kind.SetTargetRate? }

  /** The loop closes: once the newest set point issued to the node is shown as applied or
      verified, its rate, rounded, is the one in force at the node. */
  lemma NewestAcknowledgedIsInForce(cfg: Config, actions: seq<Action>, i: nat)
    requires i < |Run(cfg, actions).all| && ShownAsDone(cfg.me, Run(cfg, actions).all[i])
    requires forall j :: i < j < |Run(cfg, actions).all| ==> !IsSetPointOf(Run(cfg, actions).all[j], cfg.me)
    ensures var s := Run(cfg, actions);
            var rate := s.all[i].parameters.targetRate;
            rate.Some? && s.node.setPoint == Some(Round3(rate.value))
  {
    hide Next, Round3;
    RunKeepsInv(cfg, actions);
    NewestRowIsLast(cfg, Run(cfg, actions), i);
  }

  lemma NewestRowIsLast(cfg: Config, s: State, i: nat)
    requires Inv(cfg, s) && i < |s.all| && ShownAsDone(cfg.me, s.all[i])
    requires forall j :: i < j < |s.all| ==> !IsSetPointOf(s.all[j], cfg.me)
    ensures var rate := s.all[i].parameters.targetRate;
            rate.Some? && s.node.setPoint == Some(Round3(rate.value))
  {
    hide Round3, Sound, InboxOk, LastExecuted;
    var ledger := s.node.ledger;
    assert ExecutedHere(ledger, s.all[i].id);
    var k :| 0 <= k < |ledger| && ledger[k].id == s.all[i].id && IsExecutedRate(ledger[k]);
    assert HandedOut(s.all, cfg.me, ledger[k].id, ledger[k].kind, ledger[k].parameters);
    forall m | k < m < |ledger|
      ensures !IsExecutedRate(ledger[m])
    {
      assert HandedOut(s.all, cfg.me, ledger[m].id, ledger[m].kind, ledger[m].parameters);
    }
    assert LastExecuted(ledger) == Some(k);
  }

  // ------------------------------------------------------------- settling a row

  /** Central will not take a result for this command any more. */
  predicate IsClosed(s: State, id: nat)
    requires 1 <= id <= |s.all|
  {
    !IsRetained(s, id) || s.all[id - 1].status.Expired? || s.all[id - 1].status.Cancelled?
  }

  lemma ResultTakenIff(cfg: Config, s: State, r: nat, now: int)
    requires Inv(cfg, s) && r < |s.node.ledger|
    ensures var row := s.node.ledger[r];
            && 1 <= row.id <= |s.all|
            && (RecordResult(Live(s), cfg.me, row.id, ReportOf(row), row.message, now).Ok? <==> !IsClosed(s, row.id))
  {
    hide InboxOk, MemoryOk, Acknowledged, OpenIsNewest;
    var row := s.node.ledger[r];
    assert HandedOut(s.all, cfg.me, row.id, row.kind, row.parameters);
    assert Sound(s.all[row.id - 1]);
    LookupInWindow(s, cfg.me, row.id);
  }

  lemma SettlesIff(cfg: Config, s: State, r: nat, acknowledged: bool, now: int)
    requires Inv(cfg, s) && r < |s.node.ledger|
    ensures 1 <= s.node.ledger[r].id <= |s.all|
    ensures var t := ReportStep(cfg, s, r, acknowledged, now);
            && |t.node.ledger| == |s.node.ledger|
            && t.node.ledger[r] == s.node.ledger[r].(reported := t.node.ledger[r].reported,
                                                     reportAttempts := s.node.ledger[r].reportAttempts + 1)
            && (t.node.ledger[r].reported
                <==> s.node.ledger[r].reported || (acknowledged && !IsClosed(s, s.node.ledger[r].id)))
  {
    hide Inv, RecordResult, Commit;
    ResultTakenIff(cfg, s, r, now);
  }

  /** In every run a report settles its ledger row exactly when the row was settled before, or
      the acknowledgement arrives and the command is retained and neither expired nor
      cancelled. */
  lemma ReportSettlesIff(cfg: Config, actions: seq<Action>, r: nat, acknowledged: bool, now: int)
    requires r < |Run(cfg, actions).node.ledger|
    ensures var s := Run(cfg, actions);
            var t := Next(cfg, s, ReportRow(r, acknowledged, now));
            && 1 <= s.node.ledger[r].id <= |s.all| && r < |t.node.ledger|
            && t.node.ledger[r].reportAttempts == s.node.ledger[r].reportAttempts + 1
            && (t.node.ledger[r].reported
                <==> s.node.ledger[r].reported || (acknowledged && !IsClosed(s, s.node.ledger[r].id)))
  {
    hide Next, Inv, ReportStep, IsClosed;
    RunKeepsInv(cfg, actions);
    ReportIsNext(cfg, Run(cfg, actions), ReportRow(r, acknowledged, now));
    SettlesIff(cfg, Run(cfg, actions), r, acknowledged, now);
  }

  /** Row r is not settled and cannot be: its command is closed to results. */
  predicate Stuck(s: State, r: nat) {
    && r < |s.node.ledger| && !s.node.ledger[r].reported
    && 1 <= s.node.ledger[r].id <= |s.all| && IsClosed(s, s.node.ledger[r].id)
  }

  /** Other steps than a report of row r leave the row as it is. */
  lemma RowsStay(cfg: Config, s: State, a: Action, r: nat)
    requires r < |s.node.ledger| && !(a.ReportRow? && a.row == r)
    ensures r < |Next(cfg, s, a).node.ledger| && Next(cfg, s, a).node.ledger[r] == s.node.ledger[r]
  {
    hide Process, RecordResult, Rewrite, PollList, Delivered;
    if IsCentral(a) {
      CentralLeavesNode(cfg, s, a);
    } else if a.HandleNext? && s.inbox != [] {
      ProcessKeepsRows(s.node, s.inbox[0], cfg.limit, a.nodeNow);
    }
  }

  lemma ProcessKeepsRows(n: NodeState, c: Command, limit: real, now: int)
    ensures n.ledger <= Process(n, c, limit, now).ledger
  {}

  lemma ClosedStays(all: seq<Command>, next: seq<Command>, cause: Cause, s: State, t: State, id: nat)
    requires s.all == all && t.all == next && Structure(all) && Evolved(all, next, cause)
    requires 1 <= id <= |all| && IsClosed(s, id)
    ensures IsClosed(t, id)
  {
    hide Sound, Coherent, Newborn, OpenIsNewest;
    assert Transition(all[id - 1], next[id - 1], cause);
  }

  lemma StuckStep(cfg: Config, s: State, a: Action, r: nat)
    requires Inv(cfg, s) && Stuck(s, r)
    ensures Stuck(Next(cfg, s, a), r) && Next(cfg, s, a).node.ledger[r].id == s.node.ledger[r].id
  {
    hide Next, Evolved, RowsOk, InboxOk, MemoryOk, Acknowledged, IsClosed, Structure;
    var t := Next(cfg, s, a);
    StepEvolves(cfg, s, a);
    ClosedStays(s.all, t.all, CauseOf(a), s, t, s.node.ledger[r].id);
    if a.ReportRow? && a.row == r {
      ReportIsNext(cfg, s, a);
      SettlesIff(cfg, s, r, a.acknowledged, a.now);
      ReportKeepsRowId(cfg, s, r, a.acknowledged, a.now);
    } else {
      RowsStay(cfg, s, a, r);
    }
    EvolvedGrows(s.all, t.all, CauseOf(a));
  }

  lemma ReportKeepsRowId(cfg: Config, s: State, r: nat, acknowledged: bool, now: int)
    requires r < |s.node.ledger|
    ensures var t := ReportStep(cfg, s, r, acknowledged, now);
            |t.node.ledger| == |s.node.ledger| && t.node.ledger[r].id == s.node.ledger[r].id
  {
    hide RecordResult, Commit;
  }

  lemma EvolvedGrows(all: seq<Command>, next: seq<Command>, cause: Cause)
    requires Evolved(all, next, cause)
    ensures |all| <= |next|
  {}

  /** The result of an expired, cancelled or evicted command is reported for ever: however often
      it is sent and acknowledged, its row is never settled. */
  lemma {:induction false} StuckForEver(cfg: Config, past: seq<Action>, future: seq<Action>, r: nat)
    requires Stuck(Run(cfg, past), r)
    ensures Stuck(Run(cfg, past + future), r)
    ensures Run(cfg, past + future).node.ledger[r].id == Run(cfg, past).node.ledger[r].id
  {
    hide Next, Stuck, Inv;
    if future == [] {
      assert past + future == past;
    } else {
      var before := past + future[..|future| - 1];
      StuckForEver(cfg, past, future[..|future| - 1], r);
      assert (past + future)[..|past + future| - 1] == before;
      RunKeepsInv(cfg, before);
      StuckStep(cfg, Run(cfg, before), future[|future| - 1], r);
    }
  }
}
