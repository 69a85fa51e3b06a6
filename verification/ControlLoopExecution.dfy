/** When a delivered command is executed: in time, safe, and not seen before, in terms of the
    command as it was issued. */
module ControlLoopExecution {
  import opened Basics
  import opened Models
  import opened CommandLifecycle
  import opened NodeAgent
  import opened ControlLoop
  import opened ControlLoopSafety

  // --------------------------------------------------------------------- in time

  /** Every executed set point was executed before its time was over, counted from its issue. */
  lemma ExecutedInTime(cfg: Config, actions: seq<Action>, k: nat)
    requires k < |Run(cfg, actions).node.ledger| && IsExecutedRate(Run(cfg, actions).node.ledger[k])
    ensures var s := Run(cfg, actions);
            var row := s.node.ledger[k];
            && 1 <= row.id <= |s.all|
            && row.appliedAt < LapsesAt(s.all[row.id - 1].createdAt, s.all[row.id - 1].parameters.ttlSeconds)
  {
    hide Run, OpenIsNewest, InboxOk, MemoryOk, Acknowledged, LapsesAt;
    RunKeepsInv(cfg, actions);
    var s := Run(cfg, actions);
    var row := s.node.ledger[k];
    assert HandedOut(s.all, cfg.me, row.id, row.kind, row.parameters);
    assert Sound(s.all[row.id - 1]);
  }

  // ------------------------------------------------------------------------- keys

  lemma {:induction false} DecimalLength(n: nat)
    ensures |Decimal(n)| >= 1
  {
    if n < 10 {
    } else {
      DecimalLength(n / 10);
    }
  }

  lemma {:induction false} DecimalIsInjective(m: nat, n: nat)
    requires Decimal(m) == Decimal(n)
    ensures m == n
    decreases m
  {
    var a, b := Decimal(m), Decimal(n);
    assert a[|a| - 1] == b[|b| - 1];
    assert m % 10 == n % 10;
    if m < 10 && n < 10 {
    } else if m >= 10 && n >= 10 {
      assert a[..|a| - 1] == Decimal(m / 10) && b[..|b| - 1] == Decimal(n / 10);
      DecimalIsInjective(m / 10, n / 10);
    } else {
      DecimalLength(m / 10);
      DecimalLength(n / 10);
    }
  }

  /** Commands without a key of their own never share one. */
  lemma AutomaticKeysDiffer(m: nat, n: nat)
    requires m != n
    ensures AutoKey(m) != AutoKey(n)
  {
    if AutoKey(m) == AutoKey(n) {
      assert AutoKey(m)[8..] == Decimal(m) && AutoKey(n)[8..] == Decimal(n);
      DecimalIsInjective(m, n);
    }
  }

  /** The key a command was issued with: the caller's, unless that is missing or empty. */
  predicate HasKey(c: Command, key: string) {
    if c.parameters.idempotencyKey.Some? && c.parameters.idempotencyKey.value != ""
    then key == c.parameters.idempotencyKey.value
    else key == "command-" + Decimal(c.id)
  }

  /** No key is executed, or refused, twice: the commands of two ledger rows have different keys. */
  lemma OneRowPerKey(cfg: Config, actions: seq<Action>, j: nat, k: nat, key: string)
    requires j < k < |Run(cfg, actions).node.ledger|
    ensures var s := Run(cfg, actions);
            var a, b := s.node.ledger[j].id, s.node.ledger[k].id;
            && 1 <= a <= |s.all| && 1 <= b <= |s.all|
            && !(HasKey(s.all[a - 1], key) && HasKey(s.all[b - 1], key))
  {
    hide Run, Sound, OpenIsNewest, InboxOk, MemoryOk, Acknowledged;
    RunKeepsInv(cfg, actions);
    var s := Run(cfg, actions);
    RowKeys(cfg, s, j);
    RowKeys(cfg, s, k);
  }

  lemma RowKeys(cfg: Config, s: State, k: nat)
    requires Inv(cfg, s) && k < |s.node.ledger|
    ensures var id := s.node.ledger[k].id;
            1 <= id <= |s.all| && HasKey(s.all[id - 1], s.node.ledger[k].key)
    ensures var c := s.all[s.node.ledger[k].id - 1];
            forall key :: HasKey(c, key) ==> key == s.node.ledger[k].key
  {
    hide Sound, OpenIsNewest, InboxOk, MemoryOk, Acknowledged;
    var row := s.node.ledger[k];
    assert HandedOut(s.all, cfg.me, row.id, row.kind, row.parameters);
  }

  // -------------------------------------------------------------------- execution

  /** Issued as a set point with a rate the node can run at, and handled in time. */
  predicate IsDue(c: Command, limit: real, now: int) {
    && c.kind.SetTargetRate? && c.parameters.targetRate.Some? && 0.0 < c.parameters.targetRate.value <= limit
    && now < LapsesAt(c.createdAt, c.parameters.ttlSeconds)
  }

  predicate KeyIsKnown(s: State, c: Command) {
    exists k :: 0 <= k < |s.node.ledger| && HasKey(c, s.node.ledger[k].key)
  }

  /** The row written for a command: executed with its rounded rate, or failed for the first of
      lateness, kind, missing rate and unsafe rate that applies. */
  predicate IsRowOf(row: Row, id: nat, c: Command, limit: real, now: int) {
    && row.id == id && row.kind == c.kind && row.parameters == c.parameters && HasKey(c, row.key)
    && row.appliedAt == now && !row.reported && row.reportAttempts == 0
    && (row.status.RowExecuted? <==> IsDue(c, limit, now))
    && row.message == (if now >= LapsesAt(c.createdAt, c.parameters.ttlSeconds) then ExpiredBeforeExecution
                       else if !c.kind.SetTargetRate? then UnsupportedKind(c.kind)
                       else if c.parameters.targetRate.None? then RateNotNumeric
                       else if IsDue(c, limit, now) then RateApplied(Round3(c.parameters.targetRate.value))
                       else RateOutOfRange(c.parameters.targetRate.value))
  }

  lemma ProcessExecutesIff(n: NodeState, c: Command, limit: real, now: int)
    requires MemoryOk(n) && c.id > 0 && c.expiresAt == LapsesAt(c.createdAt, c.parameters.ttlSeconds)
    requires forall k :: 0 <= k < |n.ledger| ==> n.ledger[k].id != c.id
    ensures var m := Process(n, c, limit, now);
            var known := exists k :: 0 <= k < |n.ledger| && HasKey(c, n.ledger[k].key);
            && (if known then m == n
                else |m.ledger| == |n.ledger| + 1 && m.ledger[..|n.ledger|] == n.ledger
                     && IsRowOf(m.ledger[|n.ledger|], c.id, c, limit, now))
            && m.setPoint == if IsDue(c, limit, now) && !known then Some(Round3(c.parameters.targetRate.value)) else n.setPoint
  {
    hide Round3, LedgerSetPoint, LapsesAt;
    KeyIsHeld(c);
    var m := Process(n, c, limit, now);
    var found := LookupRow(n.ledger, c.id, NodeKey(c));
    if found.Some? {
      assert HasKey(c, n.ledger[found.value].key);
    } else {
      assert forall k :: 0 <= k < |n.ledger| ==> !HasKey(c, n.ledger[k].key);
      assert c.id !in n.appliedIds;
      assert m.ledger == n.ledger + [m.ledger[|n.ledger|]];
    }
  }

  lemma KeyIsHeld(c: Command)
    ensures forall key :: HasKey(c, key) <==> key == NodeKey(c)
  {}

  /** In every run, the next command of a poll response is ignored when its key is known to the
      node; otherwise one row is written for it, executed exactly when it is a set point with a rate
      in (0, limit] handled within its time from issue, and then its rounded rate takes force. */
  lemma ExecutesIff(cfg: Config, actions: seq<Action>, now: int)
    requires Run(cfg, actions).inbox != [] && Run(cfg, actions).clock <= now
    ensures var s := Run(cfg, actions);
            var id := s.inbox[0].id;
            var t := Next(cfg, s, HandleNext(now));
            && 1 <= id <= |s.all| && t.all == s.all && t.inbox == s.inbox[1..] && t.clock == now
            && var c, before := s.all[id - 1], s.node.ledger;
               && (if KeyIsKnown(s, c) then t.node == s.node
                   else |t.node.ledger| == |before| + 1 && t.node.ledger[..|before|] == before
                        && IsRowOf(t.node.ledger[|before|], id, c, cfg.limit, now))
               && t.node.setPoint == if IsDue(c, cfg.limit, now) && !KeyIsKnown(s, c)
                                     then Some(Round3(c.parameters.targetRate.value)) else s.node.setPoint
  {
    hide Run, Process, Round3, MemoryOk, RowsOk, Acknowledged, LapsesAt;
    RunKeepsInv(cfg, actions);
    var s := Run(cfg, actions);
    var d := s.inbox[0];
    assert HandedOut(s.all, cfg.me, d.id, d.kind, d.parameters);
    var c := s.all[d.id - 1];
    assert Sound(c);
    var issued := d.(createdAt := c.createdAt);
    SameToTheNode(s.node, d, issued, cfg.limit, now);
    ProcessExecutesIff(s.node, issued, cfg.limit, now);
    assert c.id == d.id;
    assert forall key :: HasKey(c, key) <==> HasKey(issued, key);
  }

  lemma SameToTheNode(n: NodeState, c: Command, d: Command, limit: real, now: int)
    requires d == c.(createdAt := d.createdAt)
    ensures Process(n, c, limit, now) == Process(n, d, limit, now)
  {}

  /** Without keys of the callers' own, only time and rate decide. */
  lemma AutomaticKeyIsNew(cfg: Config, actions: seq<Action>, i: nat)
    requires i < |Run(cfg, actions).all| && HasKey(Run(cfg, actions).all[i], AutoKey(i + 1))
    requires forall k :: 0 <= k < |Run(cfg, actions).node.ledger| ==> Run(cfg, actions).node.ledger[k].id != i + 1
    requires forall j :: 0 <= j < |Run(cfg, actions).all| && j != i ==>
               HasKey(Run(cfg, actions).all[j], AutoKey(j + 1)) || !HasKey(Run(cfg, actions).all[j], AutoKey(i + 1))
    ensures !KeyIsKnown(Run(cfg, actions), Run(cfg, actions).all[i])
  {
    hide Run, Inv, AutoKey;
    RunKeepsInv(cfg, actions);
    var s := Run(cfg, actions);
    forall k | 0 <= k < |s.node.ledger|
      ensures !HasKey(s.all[i], s.node.ledger[k].key)
    {
      RowKeys(cfg, s, k);
      var j := s.node.ledger[k].id - 1;
      AutomaticKeysDiffer(i + 1, j + 1);
    }
  }
}
