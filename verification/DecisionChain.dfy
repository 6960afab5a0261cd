/** Diagnosis, planning and policy taken together. */
module DecisionChain {
  import opened Prelude
  import D = Diagnosis
  import P = Policy
  import C = PlanContent
  import Planning

  function CauseText(c: D.Cause): string {
    match c
    case ContainerStopped => "CONTAINER_STOPPED"
    case CpuSaturation => "CPU_SATURATION"
    case ApiUnresponsive => "API_UNRESPONSIVE"
    case DependencyUnavailable => "DEPENDENCY_UNAVAILABLE"
    case InsufficientEvidence => "INSUFFICIENT_EVIDENCE"
    case NoActiveFault => "NO_ACTIVE_FAULT"
    case Ambiguous => "AMBIGUOUS"
  }

  lemma CauseTexts(c: D.Cause)
    ensures D.Restartable(c) <==> CauseText(c) in Planning.RESTART_CAUSES
    ensures D.Restartable(c) <==> CauseText(c) !in P.UNSUPPORTED
  {
  }

  /** Different causes have different names. */
  lemma CauseTextsDiffer(a: D.Cause, b: D.Cause)
    requires CauseText(a) == CauseText(b)
    ensures a == b
  {
    assert CauseText(a)[0] == CauseText(b)[0] && CauseText(a)[1] == CauseText(b)[1];
  }

  /** A policy context about this diagnosis, with evidence young enough. */
  predicate About(c: P.Context, d: D.Diagnosis) {
    && c.rootCause == CauseText(d.cause) && c.confidence == d.confidence
    && (c.evidenceAge.Some? ==> c.evidenceAge.value <= P.DEFAULT_RULES.freshness)
  }

  predicate HasRestart(plan: C.Plan) {
    exists s :: s in plan.steps && Planning.Mutates(s.action)
  }

  /** The three components agree on every observation bundle: the diagnosis is actionable exactly when the planner's plan
      restarts the container and exactly when the confidence gate lets it through; that plan passes the validator for
      the demo-api target, and unattended execution then asks for no approval. */
  lemma ComponentsAgree(o: D.Observations, d: D.Diagnosis, c: P.Context, env: Planning.Env, ids: Planning.Ids,
                        incident: C.Uuid, diagnosis: C.Uuid, t: C.Target, version: int)
    requires D.Prescribed(D.DEFAULT_RULES, o, d) && About(c, d)
    requires Planning.BindingOk(t) && t.service == "demo-api" && env.safe("demo-api") && env.safe(Planning.PROFILE)
    requires !D.Restartable(d.cause) ==> Planning.TextsOk(env, incident, CauseText(d.cause))
    ensures var plan := Planning.DraftPlan(env, ids, incident, diagnosis, CauseText(d.cause), t, version);
            && Planning.Acceptable(env, plan, Some(t), true)
            && (d.actionable <==> HasRestart(plan))
            && (d.actionable <==> P.ConfidenceGate(c, P.DEFAULT_RULES).passed)
            && (d.actionable && c.mode.Automatic? ==> !P.NeedsApproval(c, P.DEFAULT_RULES))
  {
    D.ActionableIff(o, d);
    CauseTexts(d.cause);
    Planning.PlannerIsAccepted(env, ids, incident, diagnosis, CauseText(d.cause), t, version);
  }
}
