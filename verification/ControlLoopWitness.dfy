/** A run in which `failed` is left again: a set point is executed, its acknowledgement is lost,
    the verifier gives up on silent heartbeats, and the repeated report re-opens the command. */
module ControlLoopWitness {
  import opened Basics
  import opened Models
  import opened SafetyGovernor
  import opened CommandVerifier
  import opened CommandLifecycle
  import opened CommandControl
  import opened NodeAgent
  import opened ControlLoop
  import opened ControlLoopTheorems
  import opened ControlLoopReports
  import opened ControlLoopSafety
  import opened ControlLoopExecution
  import opened ControlLoopOperators

  const OPERATOR := Actor("operator", "op", false)
  const PLANT := Context({NodeCode(Grinding)}, None, false, map[])
  const SILENCE := Heartbeat(map[], 1)

  function Loop(window: Window): Config { Config(Grinding, 10.0, window) }

  function Opening(): (o: seq<Action>)
    ensures |o| == 4
  {
    [IssueTargetRate(Grinding, 1.0, OPERATOR, PLANT, 0), Poll(300, true, 0), HandleNext(0), ReportRow(0, false, 0)]
  }

  function Silent(n: nat): seq<Heartbeat> { seq(n, i => SILENCE) }

  function SilentActions(n: nat): seq<Action> { seq(n, i => HeartbeatArrives(Grinding, SILENCE)) }

  // ---------------------------------------------------------------- the opening

  function Issued(): Command { NewCommand(1, PlainRequest(Grinding, 1.0, OPERATOR, PLANT), 0) }

  function Taken(): Command { ClaimOne(Issued(), Grinding, "", 0) }

  function LedgerRow(): Row { NewRow(Taken(), RowExecuted, RateApplied(Round3(1.0)), 0) }

  function Reported(): Command {
    Taken().(status := Applied, message := LedgerRow().message, appliedAt := Some(0), verification := Observing, updatedAt := 0)
  }

  lemma IssueIsAllowed()
    ensures IssueError(PlainRequest(Grinding, 1.0, OPERATOR, PLANT), OPERATOR, PLANT, false).None?
  {
    hide ReviewControlAction, NodeCode;
    assert Lower("low") == "low";
    GateAllowsIff("set_target_rate", NodeCode(Grinding), "low", "operator", "op", {NodeCode(Grinding)}, "", "normal");
  }

  lemma AfterIssue(window: Window)
    ensures var t := Next(Loop(window), INITIAL, Opening()[0]);
            t.all == [Issued()] && t.node == FRESH_NODE && t.inbox == [] && t.clock == 0
  {
    hide IssueError, NewCommand;
    IssueIsAllowed();
  }

  lemma AfterPoll(window: Window)
    ensures var t := Next(Loop(window), State([Issued()], FRESH_NODE, [], 0), Opening()[1]);
            t.all == [Taken()] && t.node == FRESH_NODE && t.inbox == [Taken()] && t.clock == 0
  {
    hide Claimer, AutoKey;
    var s := State([Issued()], FRESH_NODE, [], 0);
    assert Live(s) == [Issued()];
    assert ExpireAll([Issued()], 300, 0) == [Issued()];
    assert [Issued()][..0] == [];
    assert Delivered([Issued()], Grinding, "", 0) == [Taken()];
  }

  lemma AfterHandling(window: Window)
    ensures var t := Next(Loop(window), State([Taken()], FRESH_NODE, [Taken()], 0), Opening()[2]);
            t.all == [Taken()] && t.node.ledger == [LedgerRow()] && t.inbox == []
  {
    hide Claimer, AutoKey, NodeKey, Round3;
  }

  lemma AfterReport(window: Window, s: State)
    requires s.all == [Taken()] && s.node.ledger == [LedgerRow()]
    ensures var t := Next(Loop(window), s, Opening()[3]);
            && t.all == [Reported()] && |t.node.ledger| == 1 && t.node.ledger[0].id == 1
            && t.node.ledger[0].status.RowExecuted?
  {
    hide Claimer, AutoKey, NodeKey, Round3;
    assert Live(s) == [Taken()];
    assert ByIdForNode([Taken()], Grinding, 1) == Some(0);
  }

  lemma AfterHandled(window: Window)
    ensures var t := Run(Loop(window), Opening()[..3]);
            t.all == [Taken()] && t.node.ledger == [LedgerRow()]
  {
    hide Next, Issued, Taken, LedgerRow;
    var o := Opening();
    assert o[..0] == [] && o[..1] == [] + [o[0]] && o[..2] == o[..1] + [o[1]] && o[..3] == o[..2] + [o[2]];
    RunStep(Loop(window), [], o[0]);
    RunStep(Loop(window), o[..1], o[1]);
    RunStep(Loop(window), o[..2], o[2]);
    AfterIssue(window);
    AfterPoll(window);
    AfterHandling(window);
  }

  lemma AfterOpening(window: Window)
    ensures var t := Run(Loop(window), Opening());
            && t.all == [Reported()] && |t.node.ledger| == 1 && t.node.ledger[0].id == 1
            && t.node.ledger[0].status.RowExecuted?
  {
    hide Next, Issued, Taken, LedgerRow, Reported;
    var o := Opening();
    assert o == o[..3] + [o[3]];
    RunStep(Loop(window), o[..3], o[3]);
    AfterHandled(window);
    AfterReport(window, Run(Loop(window), o[..3]));
  }

  // ---------------------------------------------------------- the silent heartbeats

  lemma NothingApplied(c: Command, observations: seq<Observation>)
    ensures !Assess(c, map[], observations).targetApplied && Assess(c, map[], observations).observations == observations
  {}

  lemma ConcludeUnapplied(c: Command, e: Evidence, seen: bool, window: Window)
    requires window.Valid() && Observable(c) && !e.targetApplied && |e.observations| <= window.max
    ensures var r := Conclude(c, e, seen, 1, window);
            && r.evidence == e
            && if |e.observations| < window.max then Observable(r) else r.verification.VerdictFailed? && r.status.Failed?
  {}

  lemma SilentObservation(c: Command, window: Window)
    requires window.Valid() && Observable(c) && |c.evidence.observations| < window.max
    ensures var r := Observe(c, map[], 1, window);
            && |r.evidence.observations| == |c.evidence.observations| + 1
            && if |r.evidence.observations| < window.max then Observable(r)
               else r.verification.VerdictFailed? && r.status.Failed?
  {
    hide Assess, Conclude, Observed;
    var seen := Extend(c, map[], 1, window);
    NothingApplied(c, seen);
    ConcludeUnapplied(c, Assess(c, map[], seen), LookupDownstream(map[], c.node).Some?, window);
  }

  /** Without production facts the target never shows as applied, and the verdict is `failed`
      at the maximum count and not before. */
  lemma {:induction false} SilenceFails(c: Command, n: nat, window: Window)
    requires window.Valid() && Observable(c) && c.evidence.observations == [] && n <= window.max
    ensures var r := ObserveAll(c, Silent(n), window);
            if n < window.max then Observable(r) && |r.evidence.observations| == n
            else r.verification.VerdictFailed? && r.status.Failed?
    decreases n
  {
    hide Observe, Observable;
    if n == 0 {
      assert Silent(n) == [];
    } else {
      SilenceFails(c, n - 1, window);
      assert Silent(n)[..n - 1] == Silent(n - 1);
      SilentObservation(ObserveAll(c, Silent(n - 1), window), window);
    }
  }

  lemma {:induction false} SilentRun(window: Window, n: nat)
    ensures var s := Run(Loop(window), Opening() + SilentActions(n));
            && s.all == [ObserveAll(Reported(), Silent(n), window)]
            && s.node == Run(Loop(window), Opening()).node
    decreases n
  {
    hide Next, Observe, Reported, Opening;
    if n == 0 {
      assert Opening() + SilentActions(n) == Opening() && Silent(n) == [];
      AfterOpening(window);
    } else {
      SilentRun(window, n - 1);
      var front := Opening() + SilentActions(n - 1);
      assert Opening() + SilentActions(n) == front + [HeartbeatArrives(Grinding, SILENCE)];
      RunStep(Loop(window), front, HeartbeatArrives(Grinding, SILENCE));
      assert Silent(n)[..n - 1] == Silent(n - 1);
      var s := Run(Loop(window), front);
      NodeStays(Silent(n - 1), window);
      SilentStep(window, s);
    }
  }

  lemma {:induction false} NodeStays(beats: seq<Heartbeat>, window: Window)
    ensures ObserveAll(Reported(), beats, window).node == Grinding
  {
    if beats == [] {
    } else {
      NodeStays(beats[..|beats| - 1], window);
    }
  }

  lemma SilentStep(window: Window, s: State)
    requires |s.all| == 1 && s.all[0].node == Grinding
    ensures var t := Next(Loop(window), s, HeartbeatArrives(Grinding, SILENCE));
            t.all == [Observe(s.all[0], map[], 1, window)] && t.node == s.node
  {
    hide Observe;
    assert Live(s) == s.all;
  }

  /** `failed` is not terminal: for every window there is a run in which a set point is judged
      `failed`, and the node's repeated report makes it `applied` again. */
  lemma RepeatedReportReopens(window: Window)
    requires window.Valid()
    ensures var s := Run(Loop(window), Opening() + SilentActions(window.max));
            var t := Next(Loop(window), s, ReportRow(0, true, 2));
            && |s.all| == |t.all| == 1
            && s.all[0].status.Failed? && s.all[0].verification.VerdictFailed?
            && t.all[0].status.Applied?
  {
    hide Next, Observe, Reported, Opening, ReportsSuccess;
    var actions := Opening() + SilentActions(window.max);
    SilentRun(window, window.max);
    ReportedIsObservable();
    SilenceFails(Reported(), window.max, window);
    AfterOpening(window);
    FailedReopensIff(Loop(window), actions, ReportRow(0, true, 2), 0);
    SuccessReport(window, Run(Loop(window), actions));
    OneCommandStays(window, Run(Loop(window), actions));
  }

  lemma ReportedIsObservable()
    ensures Observable(Reported()) && Reported().evidence.observations == []
  {}

  lemma SuccessReport(window: Window, s: State)
    requires |s.node.ledger| == 1 && s.node.ledger[0].id == 1 && s.node.ledger[0].status.RowExecuted?
    ensures ReportsSuccess(Loop(window), s, ReportRow(0, true, 2), 1)
  {}

  lemma OneCommandStays(window: Window, s: State)
    requires |s.all| == 1
    ensures |Next(Loop(window), s, ReportRow(0, true, 2)).all| == 1
  {
    assert Live(s) == s.all;
  }

  // ------------------------------------------------------------- an expired claim

  const LATE := 121 * TICKS_PER_SECOND

  lemma AfterExpiry(window: Window, s: State)
    requires s.all == [Taken()] && s.node.ledger == [LedgerRow()]
    ensures Stuck(Next(Loop(window), s, ExpireClaims(120, LATE)), 0)
  {
    hide Claimer, AutoKey, NodeKey, Round3;
    assert Live(s) == [Taken()];
    assert ExpireAll([Taken()], 120, LATE)[0].status.Expired?;
  }

  /** A command is executed, but before its result is reported its claim expires at central: from
      then on the result can be sent for ever and is never settled. */
  lemma ExpiredResultIsStuck(window: Window, future: seq<Action>)
    ensures var late := Opening()[..3] + [ExpireClaims(120, LATE)];
            && Stuck(Run(Loop(window), late + future), 0)
            && Run(Loop(window), late).node.ledger == [LedgerRow()] && LedgerRow().status.RowExecuted?
  {
    hide Next, Stuck, Opening;
    var late := Opening()[..3] + [ExpireClaims(120, LATE)];
    RunStep(Loop(window), Opening()[..3], ExpireClaims(120, LATE));
    AfterHandled(window);
    AfterExpiry(window, Run(Loop(window), Opening()[..3]));
    CentralKeepsRows(window, Run(Loop(window), Opening()[..3]));
    StuckForEver(Loop(window), late, future, 0);
  }

  lemma CentralKeepsRows(window: Window, s: State)
    ensures Next(Loop(window), s, ExpireClaims(120, LATE)).node == s.node
  {}

  // ------------------------------------------------------- a dispatch that goes through

  const ADMIN := Actor(SYSTEM_ADMIN, "admin", false)

  function Registered(cfg: Config): set<string> { {NodeCode(cfg.me)} }

  function Proposal(cfg: Config, rate: real): Action {
    IssueDispatch(cfg.me, rate, "order", OPERATOR, Context(Registered(cfg), None, false, map[]), 0)
  }

  function Confirmation(cfg: Config): Action { OperatorApprove(1, ADMIN, Registered(cfg), CONFIRMATION_CODE, 0) }

  lemma ProposedFirst(cfg: Config, rate: real)
    ensures var s := Run(cfg, [Proposal(cfg, rate)]);
            && |s.all| == 1 && IsSetPoint(s.all[0], cfg.me, rate, WaitingApproval, DispatchTargetRate, 1800, OPERATOR, map[], 0)
            && s.node == FRESH_NODE && s.inbox == [] && s.clock == 0
  {
    hide Next, NodeCode;
    assert [Proposal(cfg, rate)][..0] == [];
    assert Run(cfg, []) == INITIAL;
    DispatchIsProposedIff(cfg, [], cfg.me, rate, "order", OPERATOR, Context(Registered(cfg), None, false, map[]), 0);
  }

  lemma ApprovedSecond(cfg: Config, rate: real)
    ensures var s := Run(cfg, [Proposal(cfg, rate), Confirmation(cfg)]);
            && |s.all| == 1 && IsSetPoint(s.all[0], cfg.me, rate, Pending, DispatchTargetRate, 1800, ADMIN, map[], 0)
            && s.node == FRESH_NODE && s.inbox == [] && s.clock == 0
  {
    hide Next, NodeCode, KindName;
    ProposedFirst(cfg, rate);
    var first := [Proposal(cfg, rate)];
    assert first + [Confirmation(cfg)] == [Proposal(cfg, rate), Confirmation(cfg)];
    RunStep(cfg, first, Confirmation(cfg));
    SetPointIsNoIsolation();
    ApproveIff(cfg, first, 1, ADMIN, Registered(cfg), CONFIRMATION_CODE, 0);
  }

  lemma SetPointIsNoIsolation()
    ensures KindName(SetTargetRate) != "isolate_node"
  {}

  lemma PolledThird(cfg: Config, rate: real)
    ensures var s := Run(cfg, [Proposal(cfg, rate), Confirmation(cfg), Poll(300, true, 0)]);
            && |s.all| == 1 && s.all[0].status.Claimed? && IsSetPointOf(s.all[0], cfg.me)
            && s.all[0].parameters.targetRate == Some(rate) && s.all[0].createdAt == 0
            && s.all[0].parameters.workflow.DispatchTargetRate?
            && s.node == FRESH_NODE && s.inbox != [] && s.inbox[0].id == 1 && s.clock == 0
  {
    hide Next, Inv;
    ApprovedSecond(cfg, rate);
    var second := [Proposal(cfg, rate), Confirmation(cfg)];
    var third := [Proposal(cfg, rate), Confirmation(cfg), Poll(300, true, 0)];
    assert second + [Poll(300, true, 0)] == third;
    RunStep(cfg, second, Poll(300, true, 0));
    PollIff(cfg, second, 300, true, 0, 0);
    RunKeepsInv(cfg, third);
    FirstIdInRange(cfg, Run(cfg, third));
  }

  lemma FirstIdInRange(cfg: Config, s: State)
    requires Inv(cfg, s) && s.inbox != []
    ensures 1 <= s.inbox[0].id <= |s.all|
  {
    assert HandedOut(s.all, cfg.me, s.inbox[0].id, s.inbox[0].kind, s.inbox[0].parameters);
  }

  /** A dispatch proposal goes all the way: for every node, limit and rate within it, proposal,
      confirmed approval, poll, execution and report make it applied and put its rate in force. */
  lemma DispatchCanBeDelivered(cfg: Config, rate: real)
    requires 0.0 < rate <= cfg.limit
    ensures var s := Run(cfg, [Proposal(cfg, rate), Confirmation(cfg), Poll(300, true, 0), HandleNext(0), ReportRow(0, true, 0)]);
            && |s.all| == 1 && s.all[0].parameters.workflow.DispatchTargetRate? && s.all[0].parameters.targetRate == Some(rate)
            && s.all[0].status.Applied? && s.node.setPoint == Some(Round3(rate))
  {
    hide Next, Inv, Round3, LapsesAt;
    PolledThird(cfg, rate);
    var third := [Proposal(cfg, rate), Confirmation(cfg), Poll(300, true, 0)];
    var fourth := third + [HandleNext(0)];
    RunStep(cfg, third, HandleNext(0));
    LapsesLater(Run(cfg, third).all[0].parameters.ttlSeconds);
    ExecutesIff(cfg, third, 0);
    assert fourth + [ReportRow(0, true, 0)]
        == [Proposal(cfg, rate), Confirmation(cfg), Poll(300, true, 0), HandleNext(0), ReportRow(0, true, 0)];
    RunStep(cfg, fourth, ReportRow(0, true, 0));
    ReportOutcome(cfg, fourth, 0, true, 0);
    ReportKeepsRate(cfg, Run(cfg, fourth));
  }

  lemma LapsesLater(ttlSeconds: int)
    ensures 0 < LapsesAt(0, ttlSeconds)
  {}

  lemma ReportKeepsRate(cfg: Config, s: State)
    ensures Next(cfg, s, ReportRow(0, true, 0)).node.setPoint == s.node.setPoint
  {}
}
