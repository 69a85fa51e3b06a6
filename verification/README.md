# Mini-OGAS: governed control loop and material flow

Mini-OGAS runs a small machining line: turning, milling and grinding workshops report
heartbeats to a central API, which issues set points (`set_target_rate`), judges their effect,
moves parts between workshops and keeps a durable log. This project models that loop in Dafny
and proves what holds over whole runs of it.

- **Command protocol** (`CommandLifecycle`, `CommandControl`, `SafetyGovernor`, `NodeAgent`,
  `ControlLoop*`). `CommandManager`, `ControlService` and `Agent` update their state in place and
  are proved against specification functions. `ControlLoop` joins both ends and a lossy link into
  one state machine of 17 actions: a poll response or an acknowledgement may be lost, results may
  come late or repeatedly, and the node may crash at any point. The retained list of 100 commands
  is the window of the full history. `ControlLoopTheorems` and `ControlLoopReports` hold the guarantees
  for every run, `ControlLoopOperators` and `ControlLoopExecution` the exact effect of each action.
- **Verifier** (`CommandVerifier`, `Verdicts`, `ClosedLoop`). The windowed verdict, the rules it
  follows stated on the heartbeats, and its exact outcome against the plant model the node itself
  simulates.
- **Output** (`Machines`, `RateControl`). Event simulation against closed form (Hermite's
  identity), and the bound a commanded rate puts on produced parts.
- **Part queue** (`PartQueue`, `PartFlow*`, `PartClaims`, `PartRoutes`, `PartHeartbeat`). Claims
  fenced by tokens and deadlines, lineages
  along product routes, conservation of material and heartbeat-driven flow, over every
  interleaving, with the 500-part limit.
- **Durable facts** (`EventLog`, `OfflineSync`, `OfflineRuns`, `RunIdentity`). Sequencing,
  exactly-once archival under loss, and run identity.

Times are integer ticks given by the caller and floats are reals with explicit rounding to
thousandths. A run is an arbitrary sequence of actions; an action that is refused changes nothing.

Where a promise turned out not to hold, the code is modelled as it is and the exact condition is
proved:

- A held grinding set point can be judged `failed` when it is tiny against the rounding of
  telemetry (`ClosedLoop.TinySetPointIsFailed`); `ClosedLoop.ClosedLoopVerdict` says exactly when.
- `failed` is listed among the terminal statuses, but a later node result re-opens it
  (`ControlLoopWitness.RepeatedReportReopens`), exactly when `ControlLoopReports.FailedReopensIff`
  says.
- The node repeats a result until it is accepted, but for an expired, cancelled or evicted command
  it never is (`ControlLoopWitness.ExpiredResultIsStuck`, `ControlLoopReports.StuckForEver`);
  `ControlLoopReports.ReportSettlesIff` says exactly when a report is settled.
- A sync whose archive write failed is acknowledged unless the durable store is the primary
  projection (`OfflineRuns.ExactlyOnceIffFailuresReported`).
- Products P1 and P4 are routed from turning to grinding, but their parts enter the queue at milling
  and end there (`PartRoutes.SomeRoutesAreCutShort`, `PartRoutes.GrindingReachedIff`).
- A scenario first seen without an engine accepts several (`RunIdentity.EngineIsPinnedIff`).

## Model

| member | source | states |
|---|---|---|
| `ControlLoopTheorems.SetPointsOnlyAdvance` | services/node-agent/simulator.py:1081-1170 | In every run with lost poll responses, lost acknowledgements and restarts, the set points a node executes have strictly increasing command ids; an older rate never overwrites a newer one. |
| `ControlLoopTheorems.RestartIsInvisible` | services/node-agent/simulator.py:1052-1078 | Whatever process memory was lost, the restored set point equals the one in force before, is that of the highest-id executed ledger row, and is at most the limit rounded to thousandths; it is absent exactly when nothing was executed. |
| `ControlLoopTheorems.HonestAcknowledgement` | services/central-api/app/command_manager.py:106-137 | A set point that central shows as applied or verified has exactly one ledger row at the node, and that row is executed. |
| `ControlLoopTheorems.NoUndueDelivery` | services/central-api/app/command_manager.py:84-104 | Every ledger row records a command of this node that was claimed exactly once; waiting, pending, queued, superseded and rejected commands and AI reviews have no row. |
| `ControlLoopTheorems.OpenCommandIsNewest` | services/central-api/app/command_manager.py:41-104 | In every reachable state ids are consecutive (never reused despite the 100-command limit), each command was claimed at most once, and a retained open command is the newest ever made for its node and type, hence the only open one. |
| `ControlLoopTheorems.AbsorbingForEver` | services/central-api/app/command_manager.py:106-296 | Along every continuation of every run a command keeps its identity, verified/rejected/expired/superseded/cancelled are never left, and the claim count never falls. |
| `ControlLoopReports.FailedReopensIff` | services/central-api/app/command_manager.py:106-137 | In every run a failed command leaves `failed` if and only if it is still among the retained 100 and the action is a report of its success, by its ledger row or by its own node; then it is applied again. |
| `ControlLoopWitness.RepeatedReportReopens` | services/central-api/app/command_manager.py:120-137 | For every observation window a run exists in which a set point is executed, its acknowledgement is lost, the verifier concludes failed, and the repeated report makes it applied again. |
| `ControlLoopReports.NewestAcknowledgedIsInForce` | services/node-agent/simulator.py:1081-1126 | In every run, once the newest set point issued to the node is shown as applied or verified, its rounded rate is the one in force at the node. |
| `ControlLoopReports.ReportSettlesIff` | services/node-agent/simulator.py:1023-1049 | A report settles its ledger row if and only if it was settled before, or the acknowledgement arrives and the command is retained and neither expired nor cancelled. |
| `ControlLoopWitness.ExpiredResultIsStuck` | services/central-api/app/command_manager.py:248-269 | A set point is executed, its claim expires before the report, and along every continuation its executed row stays unsettled. |
| `ControlLoopReports.StuckForEver` | services/node-agent/simulator.py:979-1049 | So a result whose command expired, was cancelled or was evicted is never settled, along any continuation of any run: it is re-sent for ever. |
| `ControlLoopExecution.ExecutedInTime` | services/node-agent/simulator.py:1110-1111 | Every executed set point was executed before its creation time plus max(1, ttl or 300) seconds. |
| `ControlLoopExecution.ExecutesIff` | services/node-agent/simulator.py:1081-1126 | In every run the next delivered command is ignored if its key is known to the node; otherwise one row is written, executed if and only if it is a set point with a rate in (0, limit] handled within its time from issue, and then its rounded rate takes force; a refused row gives the first reason that applies. |
| `ControlLoopExecution.OneRowPerKey` | services/node-agent/simulator.py:926-949 | No idempotency key has two ledger rows. |
| `ControlLoopExecution.AutomaticKeyIsNew` | services/central-api/app/command_manager.py:54-55 | A command without a key of its own is never taken for another one. |
| `ControlLoopOperators.DispatchIsProposedIff` | services/central-api/app/command_control_service.py:38-135 | In every run a dispatch proposal appends a command waiting for approval, with the node and rate asked for, if and only if control is enabled, the node is registered, the rate is within the reported limit and the key is free; otherwise nothing changes. |
| `ControlLoopOperators.SetPointIsIssuedIff` | services/central-api/app/command_control_service.py:21-36 | An operator set point is pending at once, under the same conditions except the key. |
| `ControlLoopOperators.ReviewIsProposedIff` | services/central-api/app/command_control_service.py:137-186 | An AI review waits for approval whatever its risk, if and only if an AI principal submits it, control is enabled, the node is registered and the key is free. |
| `ControlLoopOperators.ApproveIff` | services/central-api/app/command_control_service.py:188-232 | In every run an approval takes effect if and only if the command is retained, waits, and the actor may act; a review is closed, anything else becomes pending; nothing else changes. |
| `ControlLoopOperators.RejectIff` | services/central-api/app/command_control_service.py:234-256 | A rejection takes effect if and only if the command is retained and waits; no gate ever refuses it. |
| `ControlLoopOperators.CancelIff` | services/central-api/app/command_control_service.py:258-266 | A cancellation takes effect if and only if the command is retained and neither terminal nor executed outright. |
| `ControlLoopOperators.RetryIff` | services/central-api/app/command_control_service.py:268-293 | A retry appends a pending successor with the same node, type, risk, rate, workflow and time-to-live if and only if the command is retained, no review, in a retryable status, and the actor may act. |
| `ControlLoopOperators.ExpiresIff` | services/central-api/app/command_manager.py:248-269 | A claim lapses if and only if it was made more than the given seconds ago. |
| `ControlLoopOperators.PollIff` | services/central-api/app/store.py:2090-2111 | A poll claims, for the first time, and hands out exactly the retained deliverable commands of the node; overdue claims lapse; nothing else changes. |
| `ControlLoopOperators.ReportOutcome` | services/central-api/app/command_manager.py:106-137 | A report makes its command applied and observed again, or failed, as its row says, unless it is verified, a repeat, or closed to results; no other command changes. |
| `ControlLoopOperators.ConfirmsIff` | services/central-api/app/command_manager.py:298-328 | A reported rate verifies exactly the retained applied set points of the node within 0.001 of it. |
| `ControlLoopOperators.InForceConfirms` | services/central-api/app/command_manager.py:298-328 | The rate in force at the node always verifies the newest applied set point. |
| `ControlLoopOperators.HeartbeatObserves` | services/central-api/app/store.py:2187-2217 | A heartbeat observes exactly the retained commands of its node. |
| `ControlLoopOperators.CreateEffect` | services/central-api/app/command_manager.py:29-79 | Creation appends one command and supersedes exactly the retained open ones of its pair, or changes nothing when the key is taken. |
| `ControlLoopWitness.DispatchCanBeDelivered` | services/central-api/app/command_control_service.py:38-75 | For every node, limit and rate within it: proposal, confirmed approval, poll, execution and report make the dispatch applied and put its rate in force. |
| `ControlLoopTheorems.VerdictMatchesStatus` | services/central-api/app/command_verifier.py:225-243 | In every reachable state effective or partial means status verified, and a failed verdict means status failed. |
| `ControlLoopTheorems.ApprovalBeforeDelivery` | services/central-api/app/command_control_service.py:188-293 | Every dispatch set point that is deliverable, or was ever claimed, applied or verified, was admitted by an earlier approve or retry with the confirmation code from a system administrator, and that action is the one that made it pending. |
| `ControlLoopTheorems.ReviewsAreNeverDelivered` | services/central-api/app/command_control_service.py:137-232 | An AI-suggestion review is in no run pending, claimed, applied or failed, has no delivery attempt, and is in no ledger. |
| `ControlLoopSafety.RunKeepsInv` | services/node-agent/simulator.py:1129-1170 | The joint invariant of central history, poll response in flight, ledger, process memory and acknowledgements holds in every run. |
| `ControlLoopSafety.OpenIsNewerThanLedger` | services/central-api/app/command_manager.py:271-296 | A command still open for the node is newer than every set point in the node's ledger, which is why claiming keeps execution ordered. |
| `ControlLoopSafety.RestoreFindsLast` | services/node-agent/simulator.py:1052-1078 | Under the invariant the restore query, ordered by time and id, finds the last executed row of the ledger. |
| `ControlLoopSteps.StepEvolves` | services/central-api/app/command_manager.py:29-328 | Each of the 17 actions moves every command along an allowed transition, leaves evicted commands alone, and appends at most one command, superseding what was open for its pair. |
| `ControlLoop.EvolvedKeepsStructure` | services/central-api/app/command_manager.py:41-79 | Steps of the history keep numbering, open-is-newest and the per-command facts. |
| `ControlLoop.TransitionKeepsSound` | services/central-api/app/command_manager.py:106-296 | What a single transition can do: absorbing statuses stay, nothing re-opens, failed is left only by a node result, attempts never fall. |
| `ControlLoop.CreateOnHistory` | services/central-api/app/command_manager.py:77-78 | Creating on the full history and keeping the last 100 is creating on the retained list. |
| `ControlLoop.CommitOnHistory` | services/central-api/app/store.py:1393-1427 | Editing retained commands commutes with the window onto the history. |
| `ControlLoop.NextIdIsFresh` | services/central-api/app/command_manager.py:54-54 | The next id, computed from the retained commands only, is one more than the number of commands ever created. |
| `CommandLifecycle.CommandManager.CreateCommand` | services/central-api/app/command_manager.py:29-79 | A repeated explicit key returns the first match and changes nothing; otherwise the list is the superseded list plus the new command, cut to 100, and the superseded ids are returned. |
| `CommandLifecycle.CommandManager.FindDuplicate` | services/central-api/app/command_manager.py:44-52 | First retained command of the same node and type with the same explicit key, or none. |
| `CommandLifecycle.CommandManager.NextId` | services/central-api/app/command_manager.py:54-54 | One more than the greatest retained id. |
| `CommandLifecycle.CommandManager.SupersedePending` | services/central-api/app/command_manager.py:271-296 | Exactly the open commands of the pair become superseded, naming the replacement; their ids are returned in order. |
| `CommandLifecycle.CommandManager.ClaimForNode` | services/central-api/app/command_manager.py:84-104 | Exactly the pending and queued commands of the node become claimed with one more attempt, and exactly those are handed out, in list order. |
| `CommandLifecycle.CommandManager.ExpireStaleClaims` | services/central-api/app/command_manager.py:248-269 | Exactly the stale claims become expired, and the count is theirs. |
| `CommandLifecycle.CommandManager.Record` | services/central-api/app/command_manager.py:106-137 | A result is refused, ignored as a repeat, or stored as applied (re-opening observation) or failed, as its specification says; a refusal changes nothing. |
| `CommandLifecycle.CommandManager.ApproveCommand` | services/central-api/app/command_manager.py:142-157 | Only a waiting command becomes pending; otherwise refused, unchanged. |
| `CommandLifecycle.CommandManager.ApproveReview` | services/central-api/app/command_manager.py:159-181 | Only a waiting AI review becomes verified, by a human, without passing through pending. |
| `CommandLifecycle.CommandManager.RejectCommand` | services/central-api/app/command_manager.py:183-198 | Only a waiting command becomes rejected. |
| `CommandLifecycle.CommandManager.CancelCommand` | services/central-api/app/command_manager.py:200-219 | Cancelling is idempotent; terminal and executed commands refuse it. |
| `CommandLifecycle.CommandManager.RetryCommand` | services/central-api/app/command_manager.py:221-246 | A failed, rejected, expired or cancelled command yields a new pending one without its old key; others refuse. |
| `CommandLifecycle.CommandManager.VerifyTargetRate` | services/central-api/app/command_manager.py:298-328 | Exactly the applied set points of the node within 0.001 of the reported rate become verified. |
| `CommandLifecycle.CommandManager.ObserveCommandEffects` | services/central-api/app/store.py:2187-2217 | A heartbeat observes exactly the node's applied or executed commands. |
| `CommandVerifier.ObserveStep` | services/central-api/app/command_verifier.py:52-222 | One observation: the window grows by one up to its maximum, the new facts are last in it, no verdict below the minimum, always one at the maximum, and the verdict fixes the status. |
| `CommandVerifier.ConcludeStep` | services/central-api/app/command_verifier.py:160-243 | The verdict of an assessed window, with the same bounds. |
| `CommandVerifier.VerificationWindow` | services/central-api/app/command_verifier.py:46-222 | For every heartbeat sequence from any observable command: at most `max` observations, none decided below `min`, a verdict as soon as the total reaches `max`. |
| `CommandVerifier.DefaultWindow` | services/central-api/app/command_verifier.py:46-50 | By default no verdict before the third heartbeat and always one from the fifth on. |
| `CommandVerifier.VerdictIsStable` | services/central-api/app/command_verifier.py:57-63 | After a verdict any number of further observations changes nothing. |
| `CommandVerifier.ObserveAllAppend` | services/central-api/app/command_verifier.py:52-222 | Observing two stretches of heartbeats in turn is observing their concatenation. |
| `Verdicts.OutcomeIsRuled` | services/central-api/app/command_verifier.py:52-222 | For every fresh set point of any station and every run of heartbeats, the verifier's state is the first decision of rules stated on the heartbeats and the facts at issue. |
| `Verdicts.VerdictFollowsRules` | services/central-api/app/command_verifier.py:52-222 | The same for one heartbeat, with the reason given and the time of the verdict. |
| `Verdicts.FeedingStationVerdict` | services/central-api/app/command_verifier.py:80-222 | For turning and milling: failed if and only if the next station is starved or the sink is under its floor; else, lowered, effective if and only if the next backlog fell by 0.5, and, raised, if and only if the own rate rose by 0.02; at the maximum inconclusive if and only if the next station is not heard of, else partial. |
| `Verdicts.WindowIsBeats` | services/central-api/app/command_verifier.py:92-104 | While undecided, the stored window is the heartbeats seen so far. |
| `Verdicts.WindowRecordsBeats` | services/central-api/app/command_verifier.py:80-104 | Each stored observation records its heartbeat's facts about the node, the next station and the sink. |
| `ClosedLoop.ClosedLoopVerdict` | services/central-api/app/command_verifier.py:122-222 | Against the node's own plant model, for every set point and heartbeat count, the verdict is the one predicted from the rates: failed if and only if the rounded output lies under the floor, else effective at the minimum if the change is visible, else partial at the maximum. |
| `ClosedLoop.HeldSetPointNeverFails` | services/central-api/app/command_verifier.py:122-222 | With the stated margin over the rounding of telemetry, a held grinding set point is never judged failed; effective at exactly the minimum count if visible, otherwise partial at the maximum. |
| `ClosedLoop.FloorHoldsWithMargin` | services/central-api/app/command_verifier.py:122-147 | 1000*target*share*rate >= 10*rate + 9*target keeps the rounded output above 90 % of the expected sink rate. |
| `ClosedLoop.TinySetPointIsFailed` | services/node-agent/simulator.py:1121-1121 | Without the margin the promise is false: 0.0014 parts per minute is applied as 0.001, reported as no output, and ends in failed. |
| `ClosedLoop.Share` | services/node-agent/simulator.py:470-476 | The factor between set point and actual rate (clamped utilization times yield) lies in [0, 0.98]. |
| `ClosedLoop.ShareIsExact` | services/node-agent/simulator.py:473-475 | Within the bounds the factor is load times yield; above 98 % load it stays at 0.98 times yield. |
| `SafetyGovernor.GateAllowsIff` | services/central-api/app/safety_governor.py:36-182 | For every request: allowed if and only if the target is registered, no control-plane node is isolated, and it is emergency containment, not high risk in any spelling, or confirmed with the code by a system administrator. |
| `SafetyGovernor.GateReasonIff` | services/central-api/app/safety_governor.py:104-174 | A high-risk request is refused for the missing code if and only if the code is missing, and for the role if and only if the code was given by someone else than a system administrator. |
| `SafetyGovernor.NamedActionsNeedConfirmation` | services/central-api/app/safety_governor.py:6-16 | The seven named actions pass only with the code from a system administrator, whatever their risk label, and never isolate a control-plane node. |
| `SafetyGovernor.DecisionIsAttributed` | services/central-api/app/safety_governor.py:19-72 | Every decision names its action, target, normalized risk and actor. |
| `SafetyGovernor.NormalizedHighIff` | services/central-api/app/safety_governor.py:176-182 | Risk normalizes to high exactly for high-risk actions and any capitalisation of high or critical. |
| `CommandControl.ControlService.Issue` | services/central-api/app/command_control_service.py:77-135 | Issuing creates the command exactly when no check refuses it; a decision is logged before it is acted on. |
| `CommandControl.ControlService.ApproveCommand` | services/central-api/app/command_control_service.py:188-232 | The decision is logged; a closed gate changes nothing; a review is completed, any other command becomes pending. |
| `CommandControl.ControlService.RejectCommand` | services/central-api/app/command_control_service.py:234-256 | Rejects through the lifecycle review, or changes nothing. |
| `CommandControl.ControlService.CancelCommand` | services/central-api/app/command_control_service.py:258-266 | Cancels through the lifecycle review, or changes nothing. |
| `CommandControl.ControlService.RetryCommand` | services/central-api/app/command_control_service.py:268-293 | A retry succeeds only with an allowing decision on record, never for a review, and creates the successor. |
| `NodeAgent.Agent.constructor` | services/node-agent/simulator.py:1052-1078 | Process start on an existing ledger yields the restored state. |
| `NodeAgent.Agent.RestoreLocalCommandState` | services/node-agent/simulator.py:1052-1078 | The set point becomes that of the executed row sorting last by time and id, if it is still safe. |
| `NodeAgent.RestoreRow` | services/node-agent/simulator.py:1054-1060 | The selected row is an executed set point that no other one sorts after; none exactly when there is none. |
| `NodeAgent.Agent.FindRow` | services/node-agent/simulator.py:926-949 | First ledger row with the command's id or key. |
| `NodeAgent.Agent.ApplyAgentCommand` | services/node-agent/simulator.py:1081-1126 | Repeats answer from the ledger without effect; refusals have no effect; otherwise set point, memory and ledger change together. |
| `NodeAgent.Agent.HandleCommand` | services/node-agent/simulator.py:1144-1170 | One command of a poll response: ignored when known, else executed or refused, and recorded once. |
| `Machines.Simulate` | services/node-agent/simulator.py:374-400 | The event loop over staggered machines counts the events before the time limit. |
| `Machines.EnginesAgreeIff` | services/node-agent/simulator.py:318-319 | Event simulation and closed form give the same count if and only if no event falls into the extra 0.0001 s. |
| `Machines.EnginesAgree` | services/node-agent/simulator.py:385-400 | They agree at every elapsed time for every workshop of up to 10000 machines, so for all profiles of the node. |
| `Machines.HermiteIdentity` | services/node-agent/simulator.py:385-395 | The firings of n machines staggered by cycle/n add up to floor(elapsed*n/cycle). |
| `RateControl.RateController.ApplyRateControl` | services/node-agent/simulator.py:496-527 | One heartbeat: the accumulated controlled output, the reported count, and defects never above it. |
| `RateControl.AdvanceIsSane` | services/node-agent/simulator.py:507-520 | Controlled output stays between 0 and raw output and never decreases while the raw counter does not. |
| `RateControl.WindowGrowth` | services/node-agent/simulator.py:507-520 | Over any window growth is at most raw growth times the share the set point allows. |
| `RateControl.CommandedRateBoundsOutput` | services/node-agent/simulator.py:496-527 | While set point r is held, output over any window grows by less than r times the minutes, plus one part, never falls and never exceeds raw output. |
| `RateControl.GrowthIsExact` | services/node-agent/simulator.py:507-520 | At constant load u and defect rate d, growth over any window is exactly raw growth times r*u*(1-d)/nominal, or all of it above the nominal rate or without a set point. |
| `RateControl.CommandedRateIsMet` | services/node-agent/simulator.py:496-527 | While r is held, output grows by more than r*u*(1-d) times the minutes, less one part. |
| `RateControl.RestartsAtRaw` | services/node-agent/simulator.py:500-506 | A first heartbeat or a raw counter that went back restarts the count at the raw value. |
| `RateControl.ReportedCounts` | services/node-agent/simulator.py:519-526 | The reported count is the whole parts in the controlled output, and the defects are within half a part of their expected share. |
| `PartFlowTheorems.CompletionAcceptedIff` | services/central-api/app/store.py:2375-2391 | In every run a completion is accepted if and only if the part is retained, is this node's, and its latest event is the claim that handed out the token. |
| `PartFlowTheorems.CompletionRefusedBecause` | services/central-api/app/store.py:2378-2385 | The reason of every refusal, if and only if: unknown or evicted, another station's, not claimed, or a token other than the claim's. |
| `PartFlowTheorems.StaleTokenRefused` | services/central-api/app/store.py:2289-2305 | Once anything else happened to the part a token was given for, that token is refused for every node and part. |
| `PartFlowTheorems.CompletionsAreFenced` | services/central-api/app/store.py:2335-2391 | Every completion on record used the token of the claim directly before it, and is the part's last event: each part completes at most once. |
| `PartClaims.ReleaseEndsClaimIff` | services/central-api/app/store.py:2289-2305 | In every run a release at `now` ends a retained claim if and only if the part is in the run and now >= claim time + max(1, min(ttl or 30, 3600)) seconds; the part is then ready. |
| `PartClaims.ClaimEndsClaimIff` | services/central-api/app/store.py:2335-2373 | The same of a claim, which releases first. |
| `PartClaims.LiveTokenIsAccepted` | services/central-api/app/store.py:2375-2391 | A claim's token is accepted in every continuation whose releases and claims come before its deadline, until the part is completed or evicted. |
| `PartClaims.ClaimTakesOldest` | services/central-api/app/store.py:2335-2373 | A claim takes the oldest retained part ready for the node after release, under its token, and nothing else changes; none exactly when there is none. |
| `PartRoutes.SuccessorIff` | services/central-api/app/store.py:2375-2419 | In every run a completed part has a successor if and only if it names a next operation, which holds exactly for P3 and P5 at milling; the successor is at that operation, for the same order. |
| `PartRoutes.SomeRoutesAreCutShort` | services/central-api/app/store.py:2230-2239 | P1 and P4 call for grinding, yet no part of them is ever at grinding. |
| `PartRoutes.GrindingReachedIff` | services/central-api/app/store.py:58-64 | The queue takes a product through its grinding exactly for all but P1 and P4. |
| `PartFlowTheorems.LineageIsChain` | services/central-api/app/store.py:2375-2419 | In every run, of two parts with the same root one is the other's ancestor, and all but the youngest are completed. |
| `PartFlowTheorems.OneOpenPartPerLineage` | services/central-api/app/store.py:2393-2419 | Each lineage has at most one uncompleted part. |
| `PartFlowTheorems.LineageEndsWithinRoute` | services/central-api/app/store.py:2307-2319 | A lineage is shorter than its product's route, for every product. |
| `PartFlowTheorems.MaterialIsConserved` | services/central-api/app/store.py:458-504 | In every run, for every set of products: roots created = milling input + grinding input + grinding output on the retained queue + parts whose route ends at milling + what the 500-part limit evicted. |
| `PartFlowTheorems.ProjectionOfCatalogue` | services/central-api/app/store.py:466-475 | Over the whole catalogue these counts are the code's projection. |
| `PartFlowTheorems.TurningMillingGrindingBalance` | services/central-api/app/store.py:458-504 | For turning-milling-grinding parts of a run: roots = active milling + active grinding + completed grinding on the retained queue + evicted. |
| `PartFlowSafety.RunKeepsInv` | services/central-api/app/store.py:2230-2436 | Lineages, event log and material balance hold under every interleaving of create, release, claim and complete. |
| `PartFlow.DownstreamShrinks` | services/central-api/app/store.py:2307-2319 | The part generated downstream has a strictly shorter route ahead and keeps product and run. |
| `PartFlow.GrindingIsLast` | services/central-api/app/store.py:58-64 | No route continues after grinding. |
| `PartFlow.ClaimOnHistory` | services/central-api/app/store.py:2335-2373 | A claim on the full history acts on the retained queue as the store's claim does. |
| `PartFlow.ReleaseOnHistory` | services/central-api/app/store.py:2289-2305 | Likewise for the release of expired claims. |
| `PartFlow.CompleteOnHistory` | services/central-api/app/store.py:2375-2419 | Likewise for completion with downstream generation and the cut to 500. |
| `PartFlow.CreateOnHistory` | services/central-api/app/store.py:2230-2279 | Likewise for the creation of a root part. |
| `PartHeartbeat.HeartbeatCompletesMin` | services/central-api/app/store.py:2450-2489 | In every run a milling or grinding heartbeat completes exactly min(reported, ready) parts, and input ran out exactly when fewer were ready. |
| `PartHeartbeat.DrainCompletesMin` | services/central-api/app/store.py:2477-2489 | The same of any well-formed window; eviction during the loop never costs a ready part. |
| `PartHeartbeat.DrainIsRun` | services/central-api/app/store.py:2477-2489 | A consuming heartbeat leads to the queue that some run of claims and completions leads to. |
| `PartHeartbeat.CreateRootsIsRun` | services/central-api/app/store.py:2469-2472 | Likewise for a creating heartbeat. |
| `PartHeartbeat.TurningCreatesAtMost` | services/central-api/app/store.py:2450-2472 | Over any nondecreasing counter turning creates at most last - first parts, and exactly that many if and only if no report jumps by more than 20. |
| `PartHeartbeat.TurningCreatesExactly` | services/central-api/app/store.py:2450-2472 | For every sequence of reports, restarts included, turning creates exactly the sum of the rises, each capped at 20. |
| `PartHeartbeat.StationCompletesExactly` | services/central-api/app/store.py:2450-2489 | A milling or grinding heartbeat completes exactly the rise, capped at 20, or what is ready, whichever is less. |
| `PartQueue.PartStore.CreateReadyPart` | services/central-api/app/store.py:2230-2279 | A root part is appended under the next number and the list cut to 500. |
| `PartQueue.PartStore.ReleaseExpiredClaims` | services/central-api/app/store.py:2289-2305 | Exactly the expired claims of the current run become ready with their token cleared. |
| `PartQueue.PartStore.ClaimNextPart` | services/central-api/app/store.py:2335-2373 | After release, the first ready part for the node in the run is claimed under the new token; nothing else changes. |
| `PartQueue.PartStore.CompleteClaimedPart` | services/central-api/app/store.py:2375-2419 | Refused with the right reason and unchanged, or completed with the downstream part appended. |
| `PartQueue.PartStore.AdvanceFromHeartbeat` | services/central-api/app/store.py:2450-2489 | The watermark moves; turning creates the reported number, milling and grinding consume up to it. |
| `PartQueue.PartStore.ConsumeReady` | services/central-api/app/store.py:2477-2489 | The claim-and-complete loop has the effect and the count of the specified sequence. |
| `EventLog.EventStore.InsertEvent` | services/central-api/app/persistence_repository.py:94-180 | The table and the event's fields after an insert: a known id keeps its row and numbers, a new one is numbered above its stream and the store. |
| `EventLog.EachEventStoredOnce` | services/central-api/app/persistence_repository.py:103-112 | For every insert sequence each event id has exactly one row, and every insert of it reports that row's numbers. |
| `EventLog.LogOnlyGrows` | services/central-api/app/persistence_repository.py:103-112 | Rows are never changed or removed by later inserts. |
| `EventLog.LogIsSequenced` | services/central-api/app/persistence_repository.py:114-136 | Ids are distinct, global numbers strictly increase, local numbers strictly increase per source and run, all from 1. |
| `EventLog.OrdersAgree` | services/central-api/app/persistence_repository.py:114-136 | Within a stream insertion order, local order and global order are the same. |
| `EventLog.RequestedNumberKeptIff` | services/central-api/app/persistence_repository.py:123-126 | Requested global and local numbers are never lowered and are kept exactly when they exceed all numbers given out, in all or in the stream. |
| `EventLog.CorrelationIsKeptOrNumbered` | services/central-api/app/persistence_repository.py:127-138 | A new event keeps its caller's correlation id, or gets the automatic one of its run, node and global number. |
| `OfflineSync.RecordArchive.PersistSyncedNodeRecords` | services/central-api/app/persistence_repository.py:366-449 | One transaction: the specified archive and counts, or an error (undecodable, not an object, foreign, conflicting) and no change. |
| `OfflineSync.BatchAcceptedIff` | services/central-api/app/persistence_repository.py:378-410 | A batch is accepted if and only if each record decodes, is the node's, and agrees with its receipt and with the rest of the batch, whatever the order. |
| `OfflineSync.BatchIsArchivedOnce` | services/central-api/app/persistence_repository.py:399-438 | An accepted batch leaves every record with its receipt, adds nothing else, archives each key once, and accepted + duplicates is the batch size. |
| `OfflineSync.ReplayIsAllDuplicates` | services/central-api/app/persistence_repository.py:399-410 | Replaying received records changes nothing and counts only duplicates. |
| `OfflineSync.FirstDefectDecides` | services/central-api/app/persistence_repository.py:378-410 | A refused batch is refused for the defect of its first bad record in id order. |
| `OfflineSync.SortedById` | services/central-api/app/persistence_repository.py:378-378 | The processing order is a permutation of the batch, ordered by local id. |
| `OfflineRuns.HonestNodeNeverConflicts` | services/central-api/app/persistence_repository.py:399-410 | In every run of lost requests and replies the node's next batch is accepted, and accepted + duplicates is its size. |
| `OfflineRuns.MarkedRowsArchivedOnce` | services/node-agent/simulator.py:846-875 | Every row a sync marked has a receipt with its payload hash, archived exactly once, if failed writes are reported or none failed. |
| `OfflineRuns.NoPhantomReceipts` | services/central-api/app/persistence_repository.py:411-417 | Every receipt of the node is of one of its own rows, with that row's hash, archived once. |
| `OfflineRuns.SwallowedFailureLosesRow` | services/central-api/app/store.py:1740-1760 | With the database not primary, a failed archive write is acknowledged and the node marks a row that was never archived. |
| `OfflineRuns.ExactlyOnceIffFailuresReported` | services/central-api/app/store.py:1740-1760 | Marked rows are archived in every run if and only if the durable store is the primary projection. |
| `OfflineRuns.AckMeansArchivedIff` | services/central-api/app/store.py:1740-1760 | For any sender, without failed writes: what is acknowledged is archived if and only if the durable store is primary; otherwise a text that decodes to no object is acknowledged and dropped. |
| `OfflineRuns.LocalStore.PendingRecords` | services/node-agent/simulator.py:657-681 | The first `limit` unsynced rows, oldest first. |
| `OfflineRuns.LocalStore.MarkRecordsSynced` | services/node-agent/simulator.py:684-696 | Exactly the listed rows become synced. |
| `OfflineRuns.PendingFrom` | services/node-agent/simulator.py:657-681 | Pending ids are unsynced rows in increasing order. |
| `OfflineRuns.PendingIsComplete` | services/node-agent/simulator.py:657-681 | A batch that is not full contains every unsynced row. |
| `OfflineRuns.PendingIff` | services/node-agent/simulator.py:657-681 | A row is in the batch if and only if it is unsynced and fewer than `limit` unsynced rows are older. |
| `OfflineRuns.SyncMarksIff` | services/node-agent/simulator.py:846-875 | In every run a sync marks exactly its batch, if and only if the answer arrives and no reported failure occurred, and archives it when the request arrives and the write succeeds. |
| `RunIdentity.FactTables.PersistHeartbeat` | services/central-api/app/persistence_repository.py:259-348 | A heartbeat is refused with the right reason and without change, or updates only the mutable columns. |
| `RunIdentity.IdentityNeverChanges` | services/central-api/app/persistence_repository.py:270-348 | Over every heartbeat sequence a run's scenario, seed and start and a scenario's seed, engine and creation never change. |
| `RunIdentity.RunSeedIsScenarioSeed` | services/central-api/app/persistence_repository.py:284-291 | Every run with a scenario has that scenario's seed. |
| `RunIdentity.AcceptedBeatsAgree` | services/central-api/app/persistence_repository.py:273-295 | Any two accepted heartbeats of a run carry the same scenario and seed; any two of a scenario the same seed. |
| `RunIdentity.AcceptedOnRecord` | services/central-api/app/persistence_repository.py:270-348 | An accepted heartbeat agrees with the recorded run and scenario ever after. |
| `RunIdentity.AcceptedIff` | services/central-api/app/persistence_repository.py:266-295 | A heartbeat is accepted if and only if its status is supported, no earlier accepted heartbeat contradicts it, and its engine is blank, new or the recorded one. |
| `RunIdentity.RunShowsLatest` | services/central-api/app/persistence_repository.py:330-348 | A run shows the status and time of its latest accepted heartbeat, and an end exactly when that is over. |
| `RunIdentity.ScenarioShowsLatest` | services/central-api/app/persistence_repository.py:315-329 | A scenario shows the mode and time of its latest accepted heartbeat. |
| `RunIdentity.BlankEngineAdmitsTwo` | services/central-api/app/persistence_repository.py:292-295 | If the first heartbeat names no engine, two different engines are both accepted for the scenario. |
| `RunIdentity.EngineIsPinnedIff` | services/central-api/app/persistence_repository.py:292-295 | Other engines are refused exactly when the recorded engine is not blank. |
| `Retention.RewriteThenTrim` | services/central-api/app/command_manager.py:77-78 | Cutting a rewritten window gives the window of the rewritten history. |
| `Retention.RewriteAt` | services/central-api/app/store.py:2418-2419 | The same for one changed entry with an appended tail. |

## Left out

- Dispatch proposals and production planning (`propose_target_rates`, `generate_production_plan`): arithmetic over orders with single-branch facts; their effect on commands is the dispatch issue, which is modelled.
- `retire_node`, node status and isolation effects: overwritten by later metrics and heartbeats, so nothing holds over runs.
- SQL, HTTP, NATS, Redis, object storage, authentication and routers: tables are sequences and maps, a transaction is one step, and a node reports results only for itself.
- Reloads from shadow tables and the repositories behind them: memory and durable state are taken to agree.
- Demo seeding (`seed_demo`, which `apply_scenario("normal")` can call at any time): it clears the commands and the part queue and restarts both numberings, so "ids are never reused" holds between two such calls.
- Random simulation, temperature, wear and alarm formulas, rules, diagnosis, planner, market, dashboard and scripts.
- Audit entries, incident events and result texts: message texts are structured values with the formatted data, and only safety decisions are logged.
- Command fields without effect on the modelled behaviour (the constant version, order and plan details in parameters).
- Aliasing: commands and parts are values in a list field that methods reassign, not shared objects; verification of one command is a function on the command value.
- Clocks: the node clock is assumed not to go back, and one heartbeat reads the time once while it consumes parts, where the code reads it per part.
- Claim tokens are assumed fresh and not empty, as random UUIDs are; event ids may repeat.
- `create_ready_part` with other than its default step and stations, which no caller uses; scenario and batch ids of parts.
- Telemetry batches and the dispatch cache of the node agent, and the node-driven part polling loop.
- The in-memory record sync used without persistence, retention of archived heartbeats, and the live heartbeat rows in the same table.
- SHA-256: the payload hash is an arbitrary function of the payload, so every statement holds for any hash.
- A local database that is deleted: row ids are taken to survive restarts.
- ClosedLoop.HeldSetPointNeverFails: gives a sufficient margin only; the exact condition is in ClosedLoop.ClosedLoopVerdict.
- OfflineRuns.MarkedRowsArchivedOnce: assumes reported or absent write failures; the other case is ExactlyOnceIffFailuresReported.
- RateControl.CommandedRateBoundsOutput: assumes the raw counter follows the closed form, which both engines compute.
