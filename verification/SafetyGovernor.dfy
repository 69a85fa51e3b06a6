/** The approval gate for risky operator and AI-proposed actions. Every review is a function
    of its arguments. */
module SafetyGovernor {
  const CONFIRMATION_CODE := "CONFIRM"
  const SYSTEM_ADMIN := "system_admin"
  const HIGH_RISK_ACTIONS := {
    "isolate_node", "restore_node", "retire_node", "emergency_stop",
    "simulate_hostile_attack", "dispatch_plan_approve", "escalation_approve"}
  const CONTROL_PLANE_NODES := {"cloud-workshop-01", "cloud-db-01"}

  datatype Decision = Decision(
    allow: bool,
    requiresHuman: bool,
    confirmationRequired: bool,
    reasonCode: string,
    action: string,
    target: string,
    risk: string,
    actorRole: string,
    actorId: string,
    runMode: string)

  function LowerChar(c: char): char {
    if 'A' <= c <= 'Z' then c - 'A' + 'a' else c
  }

  function Lower(s: string): string {
    seq(|s|, i requires 0 <= i < |s| => LowerChar(s[i]))
  }

  function NormalizeRisk(action: string, riskLevel: string): string {
    var risk := Lower(if riskLevel == "" then "low" else riskLevel);
    if action in HIGH_RISK_ACTIONS then "high"
    else if risk !in {"low", "medium", "high", "critical"} then "low"
    else if risk == "critical" then "high" else risk
  }

  function ConfirmationGate(action: string, target: string, risk: string, actorRole: string,
                            actorId: string, code: string, runMode: string): Decision {
    var requiresConfirmation := risk == "high" || action in HIGH_RISK_ACTIONS;
    if runMode == "emergency_containment" && actorRole == "safety_automation" && action == "isolate_node" then
      Decision(true, false, false, "emergency_containment_allowed", action, target, risk, actorRole, actorId, runMode)
    else if requiresConfirmation && code != CONFIRMATION_CODE then
      Decision(false, true, true, "confirmation_code_required", action, target, risk, actorRole, actorId, runMode)
    else if requiresConfirmation && actorRole != SYSTEM_ADMIN then
      Decision(false, true, false, "insufficient_role", action, target, risk, actorRole, actorId, runMode)
    else
      Decision(true, requiresConfirmation, false, "allowed", action, target, risk, actorRole, actorId, runMode)
  }

  function ReviewControlAction(action: string, target: string, riskLevel: string, actorRole: string,
                               actorId: string, knownNodes: set<string>, code: string,
                               runMode: string := "normal"): Decision {
    var risk := NormalizeRisk(action, riskLevel);
    if target != "" && target !in knownNodes then
      Decision(false, true, false, "target_node_not_found", action, target, risk, actorRole, actorId, runMode)
    else if action == "isolate_node" && target in CONTROL_PLANE_NODES then
      Decision(false, true, false, "control_plane_isolation_blocked", action, target, risk, actorRole, actorId, runMode)
    else
      ConfirmationGate(action, target, risk, actorRole, actorId, code, runMode)
  }

  function ReviewManualApproval(action: string, actorRole: string, actorId: string, code: string,
                                target: string, riskLevel: string, runMode: string := "normal"): Decision {
    ConfirmationGate(action, target, NormalizeRisk(action, riskLevel), actorRole, actorId, code, runMode)
  }

  /** A risk label counts as high in every capitalisation of "high" and "critical". */
  predicate MeansHigh(riskLevel: string) { Lower(riskLevel) in {"high", "critical"} }

  /** Automation may isolate a node during emergency containment without a human. */
  predicate Emergency(action: string, actorRole: string, runMode: string) {
    runMode == "emergency_containment" && actorRole == "safety_automation" && action == "isolate_node"
  }

  lemma NormalizedHighIff(action: string, riskLevel: string)
    ensures NormalizeRisk(action, riskLevel) == "high" <==> MeansHigh(riskLevel) || action in HIGH_RISK_ACTIONS
    ensures NormalizeRisk(action, riskLevel) == "medium" <==> Lower(riskLevel) == "medium" && action !in HIGH_RISK_ACTIONS
    ensures NormalizeRisk(action, riskLevel) in {"low", "medium", "high"}
  {}

  /** For every request: it passes exactly when its target is registered, it does not isolate a
      control-plane node, and it is an emergency containment, not of high risk, or confirmed
      with the code by a system administrator. */
  lemma GateAllowsIff(action: string, target: string, riskLevel: string, actorRole: string,
                      actorId: string, knownNodes: set<string>, code: string, runMode: string)
    ensures ReviewControlAction(action, target, riskLevel, actorRole, actorId, knownNodes, code, runMode).allow
            <==> (&& (target == "" || target in knownNodes)
                  && !(action == "isolate_node" && target in CONTROL_PLANE_NODES)
                  && (|| Emergency(action, actorRole, runMode)
                      || !(MeansHigh(riskLevel) || action in HIGH_RISK_ACTIONS)
                      || (code == CONFIRMATION_CODE && actorRole == SYSTEM_ADMIN)))
  {
    hide NormalizeRisk, MeansHigh;
    NormalizedHighIff(action, riskLevel);
  }

  /** Why an otherwise admissible request of high risk is refused: for the missing code first, for
      the role only when the code was given. */
  lemma GateReasonIff(action: string, target: string, riskLevel: string, actorRole: string,
                      actorId: string, knownNodes: set<string>, code: string, runMode: string)
    requires (target == "" || target in knownNodes) && !(action == "isolate_node" && target in CONTROL_PLANE_NODES)
    requires !Emergency(action, actorRole, runMode)
    ensures var d := ReviewControlAction(action, target, riskLevel, actorRole, actorId, knownNodes, code, runMode);
            var high := MeansHigh(riskLevel) || action in HIGH_RISK_ACTIONS;
            && (d.reasonCode == "confirmation_code_required" <==> high && code != CONFIRMATION_CODE)
            && (d.reasonCode == "insufficient_role" <==> high && code == CONFIRMATION_CODE && actorRole != SYSTEM_ADMIN)
            && (d.confirmationRequired <==> high && code != CONFIRMATION_CODE)
            && (d.requiresHuman <==> high)
  {
    hide NormalizeRisk, MeansHigh;
    NormalizedHighIff(action, riskLevel);
  }

  /** The actions that always need a confirmation by a system administrator, whatever risk label
      they come with. */
  lemma NamedActionsNeedConfirmation(action: string, target: string, riskLevel: string, actorRole: string,
                                     actorId: string, knownNodes: set<string>, code: string)
    requires action in {"isolate_node", "restore_node", "retire_node", "emergency_stop", "simulate_hostile_attack",
                        "dispatch_plan_approve", "escalation_approve"}
    requires ReviewControlAction(action, target, riskLevel, actorRole, actorId, knownNodes, code, "normal").allow
    ensures code == "CONFIRM" && actorRole == "system_admin"
    ensures action == "isolate_node" ==> target != "cloud-workshop-01" && target != "cloud-db-01"
  {
    hide ReviewControlAction;
    GateAllowsIff(action, target, riskLevel, actorRole, actorId, knownNodes, code, "normal");
  }

  /** Every decision names the request and the actor it is about. */
  lemma DecisionIsAttributed(action: string, target: string, riskLevel: string, actorRole: string,
                             actorId: string, knownNodes: set<string>, code: string, runMode: string)
    ensures var d := ReviewControlAction(action, target, riskLevel, actorRole, actorId, knownNodes, code, runMode);
            && d.action == action && d.target == target && d.actorRole == actorRole && d.actorId == actorId
            && d.runMode == runMode && d.risk == NormalizeRisk(action, riskLevel)
  {
    hide NormalizeRisk, CONTROL_PLANE_NODES, HIGH_RISK_ACTIONS;
    GateIsAttributed(action, target, NormalizeRisk(action, riskLevel), actorRole, actorId, code, runMode);
    hide ConfirmationGate;
  }

  lemma GateIsAttributed(action: string, target: string, risk: string, actorRole: string, actorId: string, code: string, runMode: string)
    ensures var d := ConfirmationGate(action, target, risk, actorRole, actorId, code, runMode);
            && d.action == action && d.target == target && d.actorRole == actorRole && d.actorId == actorId
            && d.runMode == runMode && d.risk == risk
  {
    hide HIGH_RISK_ACTIONS, CONFIRMATION_CODE, SYSTEM_ADMIN;
  }

  lemma HighMeansHigh()
    ensures MeansHigh("high")
  {
    assert Lower("high") == "high";
  }
}
