/** Run and scenario identity as heartbeats establish it. */
module RunIdentity {
  import opened Basics

  datatype RunStatus = Created | Running | Paused | Done | Broken

  /** What a heartbeat requests: no status, one of the known ones, or an unsupported text. */
  datatype Requested = Unspecified | Known(status: RunStatus) | Unsupported

  datatype Heartbeat = Heartbeat(
    run: string, scenario: string, seed: int, engine: string, mode: string,
    requested: Requested, shuttingDown: bool, at: int)

  datatype RunRow = RunRow(scenario: string, seed: int, status: RunStatus, startedAt: int, lastAt: int, endedAt: Option<int>)

  datatype ScenarioRow = ScenarioRow(seed: int, engine: string, mode: string, createdAt: int, updatedAt: int)

  datatype Facts = Facts(runs: map<string, RunRow>, scenarios: map<string, ScenarioRow>)

  const EMPTY := Facts(map[], map[])

  datatype Refusal = UnsupportedStatus | OtherScenario | RunSeedDiffers | ScenarioSeedDiffers | EngineDiffers

  function StatusOf(h: Heartbeat): RunStatus {
    if h.requested.Known? then h.requested.status else if h.shuttingDown then Done else Running
  }

  function Verdict(f: Facts, h: Heartbeat): Option<Refusal> {
    if h.requested.Unsupported? then Some(UnsupportedStatus)
    else if h.run != "" && h.run in f.runs && f.runs[h.run].scenario != h.scenario then Some(OtherScenario)
    else if h.run != "" && h.run in f.runs && f.runs[h.run].seed != h.seed then Some(RunSeedDiffers)
    else if h.scenario != "" && h.scenario in f.scenarios && f.scenarios[h.scenario].seed != h.seed then Some(ScenarioSeedDiffers)
    else if h.scenario != "" && h.scenario in f.scenarios && f.scenarios[h.scenario].engine != "" && h.engine != ""
            && f.scenarios[h.scenario].engine != h.engine then Some(EngineDiffers)
    else None
  }

  function WithScenario(scenarios: map<string, ScenarioRow>, h: Heartbeat): map<string, ScenarioRow> {
    if h.scenario == "" then scenarios
    else if h.scenario in scenarios
    then scenarios[h.scenario := scenarios[h.scenario].(mode := h.mode, updatedAt := h.at)]
    else scenarios[h.scenario := ScenarioRow(h.seed, h.engine, h.mode, h.at, h.at)]
  }

  function WithRun(runs: map<string, RunRow>, h: Heartbeat): map<string, RunRow> {
    var status := StatusOf(h);
    var endedAt := if status == Done || status == Broken then Some(h.at) else None;
    if h.run == "" then runs
    else if h.run in runs then runs[h.run := runs[h.run].(status := status, lastAt := h.at, endedAt := endedAt)]
    else runs[h.run := RunRow(h.scenario, h.seed, status, h.at, h.at, endedAt)]
  }

  function Accept(f: Facts, h: Heartbeat): Facts {
    if Verdict(f, h).Some? then f else Facts(WithRun(f.runs, h), WithScenario(f.scenarios, h))
  }

  function After(beats: seq<Heartbeat>): Facts {
    if beats == [] then EMPTY else Accept(After(beats[..|beats| - 1]), beats[|beats| - 1])
  }

  /** The k-th heartbeat of the sequence was accepted when it arrived. */
  predicate Accepted(beats: seq<Heartbeat>, k: nat)
    requires k < |beats|
  {
    Verdict(After(beats[..k]), beats[k]).None?
  }

  class FactTables {
    var runs: map<string, RunRow>
    var scenarios: map<string, ScenarioRow>

    function State(): Facts
      reads this
    {
      Facts(runs, scenarios)
    }

    constructor ()
      ensures State() == EMPTY
    {
      runs, scenarios := map[], map[];
    }

    /** persist_heartbeat, the identity part. A refusal rolls the transaction back. */
    method PersistHeartbeat(h: Heartbeat) returns (refusal: Option<Refusal>)
      modifies this
      ensures refusal == Verdict(old(State()), h)
      ensures State() == Accept(old(State()), h)
    {
      if h.requested.Unsupported? { return Some(UnsupportedStatus); }
      var status := if h.requested.Known? then h.requested.status else if h.shuttingDown then Done else Running;
      if h.run != "" && h.run in runs {
        if runs[h.run].scenario != h.scenario { return Some(OtherScenario); }
        if runs[h.run].seed != h.seed { return Some(RunSeedDiffers); }
      }
      if h.scenario != "" && h.scenario in scenarios {
        var known := scenarios[h.scenario];
        if known.seed != h.seed { return Some(ScenarioSeedDiffers); }
        if known.engine != "" && h.engine != "" && known.engine != h.engine { return Some(EngineDiffers); }
      }
      if h.scenario != "" {
        scenarios := scenarios[h.scenario :=
          if h.scenario in scenarios then scenarios[h.scenario].(mode := h.mode, updatedAt := h.at)
          else ScenarioRow(h.seed, h.engine, h.mode, h.at, h.at)];
      }
      if h.run != "" {
        var endedAt := if status == Done || status == Broken then Some(h.at) else None;
        runs := runs[h.run :=
          if h.run in runs then runs[h.run].(status := status, lastAt := h.at, endedAt := endedAt)
          else RunRow(h.scenario, h.seed, status, h.at, h.at, endedAt)];
      }
      return None;
    }
  }

  // ------------------------------------------------------------------- invariant

  /** Rows keep their identity columns and are never removed. */
  predicate Keeps(f: Facts, g: Facts) {
    && (forall r :: r in f.runs ==>
          r in g.runs && g.runs[r].scenario == f.runs[r].scenario && g.runs[r].seed == f.runs[r].seed
          && g.runs[r].startedAt == f.runs[r].startedAt)
    && (forall c :: c in f.scenarios ==>
          c in g.scenarios && g.scenarios[c].seed == f.scenarios[c].seed && g.scenarios[c].engine == f.scenarios[c].engine
          && g.scenarios[c].createdAt == f.scenarios[c].createdAt)
  }

  /** Every run with a scenario has its scenario's seed. */
  predicate SeedsAgree(f: Facts) {
    && "" !in f.runs && "" !in f.scenarios
    && forall r :: r in f.runs && f.runs[r].scenario != "" ==>
         f.runs[r].scenario in f.scenarios && f.scenarios[f.runs[r].scenario].seed == f.runs[r].seed
  }

  lemma AcceptKeeps(f: Facts, h: Heartbeat)
    ensures Keeps(f, Accept(f, h))
  {}

  lemma AcceptKeepsSeeds(f: Facts, h: Heartbeat)
    requires SeedsAgree(f)
    ensures SeedsAgree(Accept(f, h))
  {}

  /** Identity never changes, over every sequence of heartbeats. */
  lemma {:induction false} IdentityNeverChanges(beats: seq<Heartbeat>, k: nat)
    requires k <= |beats|
    ensures Keeps(After(beats[..k]), After(beats))
    decreases |beats|
  {
    if k == |beats| {
      assert beats[..k] == beats;
    } else {
      hide Accept;
      var before := beats[..|beats| - 1];
      IdentityNeverChanges(before, k);
      assert before[..k] == beats[..k];
      AcceptKeeps(After(before), beats[|beats| - 1]);
    }
  }

  lemma {:induction false} RunSeedIsScenarioSeed(beats: seq<Heartbeat>)
    ensures SeedsAgree(After(beats))
  {
    if beats == [] {
    } else {
      hide Accept, SeedsAgree;
      RunSeedIsScenarioSeed(beats[..|beats| - 1]);
      AcceptKeepsSeeds(After(beats[..|beats| - 1]), beats[|beats| - 1]);
    }
  }

  /** An accepted heartbeat agrees with what is on record ever after. */
  lemma AcceptedOnRecord(beats: seq<Heartbeat>, k: nat)
    requires k < |beats| && Accepted(beats, k)
    ensures var h, f := beats[k], After(beats);
            && (h.run != "" ==> h.run in f.runs && f.runs[h.run].scenario == h.scenario && f.runs[h.run].seed == h.seed)
            && (h.scenario != "" ==> h.scenario in f.scenarios && f.scenarios[h.scenario].seed == h.seed)
            && (h.scenario != "" ==> h.engine == "" || f.scenarios[h.scenario].engine in {"", h.engine})
  {
    hide After;
    AfterStep(beats, k);
    IdentityNeverChanges(beats, k + 1);
  }

  lemma AfterStep(beats: seq<Heartbeat>, k: nat)
    requires k < |beats|
    ensures After(beats[..k + 1]) == Accept(After(beats[..k]), beats[k])
  {
    assert beats[..k + 1][..k] == beats[..k];
  }

  /** Any two accepted heartbeats of a run carry the same scenario and seed; any two of a
      scenario, in whatever runs, carry the same seed. */
  lemma AcceptedBeatsAgree(beats: seq<Heartbeat>, j: nat, k: nat)
    requires j < |beats| && k < |beats| && Accepted(beats, j) && Accepted(beats, k)
    ensures beats[j].run == beats[k].run != "" ==>
              beats[j].scenario == beats[k].scenario && beats[j].seed == beats[k].seed
    ensures beats[j].scenario == beats[k].scenario != "" ==> beats[j].seed == beats[k].seed
  {
    hide After, Accepted;
    AcceptedOnRecord(beats, j);
    AcceptedOnRecord(beats, k);
  }

  // ------------------------------------------------------------ the latest heartbeat

  /** The last accepted heartbeat of a run, and the first. */
  predicate IsLatest(beats: seq<Heartbeat>, run: string, k: nat) {
    && k < |beats| && beats[k].run == run && Accepted(beats, k)
    && forall j :: k < j < |beats| && beats[j].run == run ==> !Accepted(beats, j)
  }

  /** What a run's row shows of its latest heartbeat: the requested status, or completed when the
      node shuts down, or running; when it was last heard; and an end exactly when it is over. */
  predicate ShowsBeat(row: RunRow, h: Heartbeat) {
    && (h.requested.Known? ==> row.status == h.requested.status)
    && (!h.requested.Known? ==> (if h.shuttingDown then row.status.Done? else row.status.Running?))
    && row.lastAt == h.at
    && row.endedAt == if row.status.Done? || row.status.Broken? then Some(h.at) else None
  }

  lemma RunRowAfter(f: Facts, h: Heartbeat, run: string)
    requires run != ""
    ensures var g := Accept(f, h);
            if h.run == run && Verdict(f, h).None? then run in g.runs && ShowsBeat(g.runs[run], h)
            else (run in g.runs <==> run in f.runs) && (run in f.runs ==> g.runs[run] == f.runs[run])
  {}

  lemma AcceptedIn(beats: seq<Heartbeat>, k: nat)
    requires k < |beats| - 1
    ensures Accepted(beats, k) == Accepted(beats[..|beats| - 1], k)
  {
    assert beats[..|beats| - 1][..k] == beats[..k];
  }

  /** Over every sequence of heartbeats a run on record shows its latest accepted heartbeat. */
  lemma {:induction false} RunShowsLatest(beats: seq<Heartbeat>, run: string) returns (k: nat)
    requires run != "" && run in After(beats).runs
    ensures IsLatest(beats, run, k) && ShowsBeat(After(beats).runs[run], beats[k])
    decreases |beats|
  {
    hide Accept, Verdict, ShowsBeat;
    var front, last := beats[..|beats| - 1], beats[|beats| - 1];
    RunRowAfter(After(front), last, run);
    if last.run == run && Verdict(After(front), last).None? {
      k := |beats| - 1;
    } else {
      k := RunShowsLatest(front, run);
      AcceptedIn(beats, k);
      forall j | k < j < |beats| && beats[j].run == run
        ensures !Accepted(beats, j)
      {
        if j < |front| { AcceptedIn(beats, j); }
      }
    }
  }

  /** Likewise a scenario shows the mode and time of its latest accepted heartbeat. */
  lemma ScenarioRowAfter(f: Facts, h: Heartbeat, scenario: string)
    requires scenario != ""
    ensures var g := Accept(f, h);
            if h.scenario == scenario && Verdict(f, h).None?
            then scenario in g.scenarios && g.scenarios[scenario].mode == h.mode && g.scenarios[scenario].updatedAt == h.at
            else (scenario in g.scenarios <==> scenario in f.scenarios)
                 && (scenario in f.scenarios ==> g.scenarios[scenario] == f.scenarios[scenario])
  {}

  predicate IsLatestOf(beats: seq<Heartbeat>, scenario: string, k: nat) {
    && k < |beats| && beats[k].scenario == scenario && Accepted(beats, k)
    && forall j :: k < j < |beats| && beats[j].scenario == scenario ==> !Accepted(beats, j)
  }

  lemma {:induction false} ScenarioShowsLatest(beats: seq<Heartbeat>, scenario: string) returns (k: nat)
    requires scenario != "" && scenario in After(beats).scenarios
    ensures IsLatestOf(beats, scenario, k)
    ensures After(beats).scenarios[scenario].mode == beats[k].mode && After(beats).scenarios[scenario].updatedAt == beats[k].at
    decreases |beats|
  {
    hide Accept, Verdict;
    var front, last := beats[..|beats| - 1], beats[|beats| - 1];
    ScenarioRowAfter(After(front), last, scenario);
    if last.scenario == scenario && Verdict(After(front), last).None? {
      k := |beats| - 1;
    } else {
      k := ScenarioShowsLatest(front, scenario);
      AcceptedIn(beats, k);
      forall j | k < j < |beats| && beats[j].scenario == scenario
        ensures !Accepted(beats, j)
      {
        if j < |front| { AcceptedIn(beats, j); }
      }
    }
  }

  /** An earlier accepted heartbeat speaks for the same run or scenario. */
  predicate Contradicts(h: Heartbeat, earlier: Heartbeat) {
    || (h.run != "" && earlier.run == h.run && (earlier.scenario != h.scenario || earlier.seed != h.seed))
    || (h.scenario != "" && earlier.scenario == h.scenario && earlier.seed != h.seed)
  }

  /** A heartbeat is accepted exactly when its status is supported, no earlier accepted heartbeat
      contradicts it, and its engine is blank, new, or the recorded one. */
  lemma AcceptedIff(beats: seq<Heartbeat>, h: Heartbeat)
    ensures var f := After(beats);
            Verdict(f, h).None?
            <==> (&& !h.requested.Unsupported?
                  && (forall k :: 0 <= k < |beats| && Accepted(beats, k) ==> !Contradicts(h, beats[k]))
                  && (h.scenario != "" && h.scenario in f.scenarios ==>
                        h.engine == "" || f.scenarios[h.scenario].engine == "" || f.scenarios[h.scenario].engine == h.engine))
  {
    hide After, Accepted, Accept;
    var f := After(beats);
    if h.run != "" && h.run in f.runs {
      var k := RunShowsLatest(beats, h.run);
      AcceptedOnRecord(beats, k);
    }
    if h.scenario != "" && h.scenario in f.scenarios {
      var k := ScenarioShowsLatest(beats, h.scenario);
      AcceptedOnRecord(beats, k);
    }
    forall k | 0 <= k < |beats| && Accepted(beats, k) && Verdict(f, h).None?
      ensures !Contradicts(h, beats[k])
    {
      AcceptedOnRecord(beats, k);
    }
  }

  // ---------------------------------------------------------------- the engine gap

  /** A heartbeat of a recorded scenario that is otherwise in order. */
  function Beat(scenario: string, seed: int, engine: string): Heartbeat {
    Heartbeat("", scenario, seed, engine, "normal", Unspecified, false, 0)
  }

  /** When the first heartbeat names no engine, two different engines are both accepted. */
  lemma BlankEngineAdmitsTwo(scenario: string, first: string, second: string)
    requires scenario != "" && first != second
    ensures var beats := [Beat(scenario, 1, ""), Beat(scenario, 1, first), Beat(scenario, 1, second)];
            Accepted(beats, 1) && Accepted(beats, 2)
  {
    var beats := [Beat(scenario, 1, ""), Beat(scenario, 1, first), Beat(scenario, 1, second)];
    assert beats[..0] == [];
    AfterStep(beats, 0);
    AfterStep(beats, 1);
    assert beats[..1][..0] == [] && beats[..2][..1] == beats[..1];
  }

  /** The recorded engine of a scenario excludes every other engine exactly when it is not
      blank, at every point of every sequence. */
  lemma EngineIsPinnedIff(beats: seq<Heartbeat>, scenario: string)
    requires scenario != "" && scenario in After(beats).scenarios
    ensures var row := After(beats).scenarios[scenario];
            (forall engine :: engine != "" && engine != row.engine ==>
               Verdict(After(beats), Beat(scenario, row.seed, engine)) == Some(EngineDiffers))
            <==> row.engine != ""
  {
    hide After;
    var row := After(beats).scenarios[scenario];
    if row.engine == "" {
      assert Verdict(After(beats), Beat(scenario, row.seed, "x")).None?;
    }
  }
}
