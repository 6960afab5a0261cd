/** The deterministic diagnosis engine: five prioritised rules and the decision table they amount to. */
module Diagnosis {
  import opened Prelude
  import S = Sorting

  datatype Cause =
    | ContainerStopped | CpuSaturation | ApiUnresponsive | DependencyUnavailable
    | InsufficientEvidence | NoActiveFault | Ambiguous

  datatype Observations = Observations(
    status: Option<string>, up: Option<real>, readyCode: Option<int>, readyRatio: Option<real>, cpu: Option<real>,
    redis: Option<bool>, dbActive: Option<int>, alerts: seq<string>, logErrors: seq<string>,
    telemetryUnavailable: bool, prometheusUnavailable: bool, freshness: Option<real>)

  datatype Rule = StoppedRule | DependencyRule | CpuRule | ApiRule | NoFaultRule

  function Priority(r: Rule): int {
    match r case StoppedRule => 1 case DependencyRule => 2 case CpuRule => 3 case ApiRule => 4 case NoFaultRule => 5
  }

  datatype Contradiction = RunningAndReady | CrashTakesPrecedence | CpuNotSubstantiated | ProbesHealthy | CpuExplains | DependencyExplains

  datatype RuleResult = RuleResult(matched: bool, confidence: real, cause: Cause, actionable: bool, contradictions: seq<Contradiction>)

  function Unmatched(cause: Cause, contradictions: seq<Contradiction>): RuleResult {
    RuleResult(false, 0.0, cause, false, contradictions)
  }

  // ---------------------------------------------------------------- the rules

  predicate Running(o: Observations) { o.status == Some("running") }
  predicate Halted(o: Observations) { o.status == Some("exited") || o.status == Some("dead") }
  predicate Firing(o: Observations, alert: string) { alert in o.alerts }
  predicate CpuAtLeast(o: Observations, level: real) { o.cpu.Some? && o.cpu.value >= level }
  predicate CpuBelow(o: Observations, level: real) { o.cpu.Some? && o.cpu.value < level }
  predicate PoolExhausted(o: Observations) { o.dbActive.Some? && o.dbActive.value >= 8 }

  function EvaluateStopped(o: Observations): RuleResult {
    if Running(o) && o.up == Some(1.0) && o.readyCode == Some(200) then Unmatched(ContainerStopped, [RunningAndReady])
    else if Halted(o) || (o.up == Some(0.0) && !Running(o)) then
      RuleResult(true, if Firing(o, "ContainerDown") then 0.95 else 0.90, ContainerStopped, true, [])
    else Unmatched(ContainerStopped, [])
  }

  predicate MentionsDependency(line: string) {
    Contains(Lower(line), "redis") || Contains(Lower(line), "postgres") || Contains(Lower(line), "connection pool")
  }

  function EvaluateDependency(o: Observations): RuleResult {
    var redisDown := o.redis == Some(false) || Firing(o, "RedisUnreachable");
    var poolExhausted := PoolExhausted(o) || Firing(o, "PostgresPoolExhausted");
    var logged := exists line :: line in o.logErrors && MentionsDependency(line);
    if redisDown || poolExhausted || logged then RuleResult(true, 0.90, DependencyUnavailable, false, [])
    else Unmatched(DependencyUnavailable, [])
  }

  function EvaluateCpu(o: Observations): RuleResult {
    var firing := Firing(o, "HighCpuSaturation");
    if !Running(o) && Halted(o) then Unmatched(CpuSaturation, [CrashTakesPrecedence])
    else if firing && CpuBelow(o, 0.50) then Unmatched(CpuSaturation, [CpuNotSubstantiated])
    else if Running(o) && (CpuAtLeast(o, 0.75) || (firing && CpuAtLeast(o, 0.70))) then
      RuleResult(true, if firing then 0.90 else 0.85, CpuSaturation, true, [])
    else Unmatched(CpuSaturation, [])
  }

  predicate ProbeFailed(o: Observations) {
    (o.readyRatio.Some? && o.readyRatio.value < 0.5) || (o.readyCode.Some? && o.readyCode.value != 200)
  }

  predicate FullyReady(o: Observations) {
    o.readyRatio.Some? && o.readyRatio.value >= 1.0 && o.readyCode == Some(200)
  }

  function EvaluateApi(o: Observations): RuleResult {
    var firing := Firing(o, "ApiUnresponsive");
    if FullyReady(o) then Unmatched(ApiUnresponsive, [ProbesHealthy])
    else if CpuAtLeast(o, 0.75) then Unmatched(ApiUnresponsive, [CpuExplains])
    else if o.redis == Some(false) || PoolExhausted(o) then Unmatched(ApiUnresponsive, [DependencyExplains])
    else if Running(o) && (ProbeFailed(o) || firing) then
      RuleResult(true, if firing then 0.90 else 0.85, ApiUnresponsive, true, [])
    else Unmatched(ApiUnresponsive, [])
  }

  function EvaluateNoFault(o: Observations): RuleResult {
    var upOk := o.up.Some? ==> o.up.value >= 1.0;
    var readyOk := (o.readyRatio.Some? ==> o.readyRatio.value >= 1.0) && (o.readyCode.Some? ==> o.readyCode.value == 200);
    var cpuOk := o.cpu.Some? ==> o.cpu.value < 0.50;
    var depsOk := o.redis != Some(false) && (o.dbActive.Some? ==> o.dbActive.value < 8);
    if Running(o) && upOk && readyOk && cpuOk && depsOk then RuleResult(true, 0.95, NoActiveFault, false, [])
    else Unmatched(NoActiveFault, [])
  }

  function EvaluateRule(r: Rule, o: Observations): RuleResult {
    match r
    case StoppedRule => EvaluateStopped(o)
    case DependencyRule => EvaluateDependency(o)
    case CpuRule => EvaluateCpu(o)
    case ApiRule => EvaluateApi(o)
    case NoFaultRule => EvaluateNoFault(o)
  }

  // ---------------------------------------------------------------- the decision, whatever the order of the rules

  datatype Diagnosis = Diagnosis(cause: Cause, confidence: real, actionable: bool)

  const INSUFFICIENT := Diagnosis(InsufficientEvidence, 0.0, false)
  const AMBIGUOUS := Diagnosis(Ambiguous, 0.40, false)
  const DEFAULT_RULES := {StoppedRule, DependencyRule, CpuRule, ApiRule, NoFaultRule}

  predicate Usable(o: Observations) {
    && !o.telemetryUnavailable && !o.prometheusUnavailable
    && (o.freshness.Some? ==> o.freshness.value <= 900.0)
    && o.status != Some("not_found")
  }

  predicate Matches(rules: set<Rule>, r: Rule, o: Observations) {
    r in rules && EvaluateRule(r, o).matched
  }

  /** `r` matches and every rule with precedence over it does not. */
  predicate Wins(rules: set<Rule>, r: Rule, o: Observations) {
    Matches(rules, r, o) && forall q :: q in rules && Priority(q) < Priority(r) ==> !EvaluateRule(q, o).matched
  }

  /** `d` is the diagnosis the decision table prescribes for a set of rules. */
  ghost predicate Prescribed(rules: set<Rule>, o: Observations, d: Diagnosis) {
    if !Usable(o) then d == INSUFFICIENT
    else if exists r :: Matches(rules, r, o) then
      exists r :: Wins(rules, r, o) && d == Diagnosis(EvaluateRule(r, o).cause, EvaluateRule(r, o).confidence, EvaluateRule(r, o).actionable)
    else if exists r :: r in rules && EvaluateRule(r, o).contradictions != [] then d == AMBIGUOUS
    else d == INSUFFICIENT
  }

  lemma PrescribedOnce(rules: set<Rule>, o: Observations, d: Diagnosis, e: Diagnosis)
    requires Prescribed(rules, o, d) && Prescribed(rules, o, e)
    ensures d == e
  {
    if Usable(o) && exists r :: Matches(rules, r, o) {
      var r :| Wins(rules, r, o) && d == Diagnosis(EvaluateRule(r, o).cause, EvaluateRule(r, o).confidence, EvaluateRule(r, o).actionable);
      var q :| Wins(rules, q, o) && e == Diagnosis(EvaluateRule(q, o).cause, EvaluateRule(q, o).confidence, EvaluateRule(q, o).actionable);
      assert Priority(r) == Priority(q);
      assert r == q;
    }
  }

  // ---------------------------------------------------------------- the engine

  function RuleSet(rules: seq<Rule>): set<Rule> {
    set r | r in rules
  }

  ghost predicate InOrder(s: seq<Rule>) {
    S.Sorted(s, Priority)
  }

  class DiagnosisEngine {
    var rules: seq<Rule>

    constructor (given: seq<Rule>)
      ensures InOrder(rules) && multiset(rules) == multiset(given)
    {
      rules := S.Sort(given, Priority);
      S.SortPermutes(given, Priority);
      S.SortSorts(given, Priority);
    }

    /** `diagnose`: the first match in priority order decides, so only the set of rules matters. */
    method Diagnose(o: Observations) returns (d: Diagnosis)
      requires InOrder(rules)
      ensures Prescribed(RuleSet(rules), o, d)
    {
      if o.telemetryUnavailable || o.prometheusUnavailable { return INSUFFICIENT; }
      if o.freshness.Some? && o.freshness.value > 900.0 { return INSUFFICIENT; }
      if o.status == Some("not_found") { return INSUFFICIENT; }

      var matching: seq<RuleResult>, contradictions: seq<Contradiction> := [], [];
      ghost var first := -1;
      for i := 0 to |rules|
        invariant contradictions == [] <==> forall j :: 0 <= j < i ==> EvaluateRule(rules[j], o).contradictions == []
        invariant matching == [] <==> forall j :: 0 <= j < i ==> !EvaluateRule(rules[j], o).matched
        invariant matching != [] ==>
                    && 0 <= first < i && EvaluateRule(rules[first], o).matched && matching[0] == EvaluateRule(rules[first], o)
                    && forall j :: 0 <= j < first ==> !EvaluateRule(rules[j], o).matched
      {
        var result := EvaluateRule(rules[i], o);
        contradictions := contradictions + result.contradictions;
        if result.matched {
          if matching == [] { first := i; }
          matching := matching + [result];
        }
      }
      ghost var all := RuleSet(rules);
      if matching != [] {
        var chosen := matching[0];
        FirstWins(rules, o, first);
        assert Matches(all, rules[first], o);
        return Diagnosis(chosen.cause, chosen.confidence, chosen.actionable);
      }
      assert forall r :: !Matches(all, r, o);
      if contradictions != [] {
        return AMBIGUOUS;
      }
      d := INSUFFICIENT;
    }
  }

  lemma FirstWins(rules: seq<Rule>, o: Observations, first: nat)
    requires InOrder(rules) && first < |rules| && EvaluateRule(rules[first], o).matched
    requires forall j :: 0 <= j < first ==> !EvaluateRule(rules[j], o).matched
    ensures Wins(RuleSet(rules), rules[first], o)
  {
    forall q | q in rules && Priority(q) < Priority(rules[first]) ensures !EvaluateRule(q, o).matched {
      var j :| 0 <= j < |rules| && rules[j] == q;
      assert j < first;
    }
  }

  // ---------------------------------------------------------------- the decision table of the default rules

  predicate Restartable(c: Cause) {
    c.ContainerStopped? || c.CpuSaturation? || c.ApiUnresponsive?
  }

  // The conditions of the table, on the observations alone.

  /** The telemetry can be relied on. */
  predicate Trusted(o: Observations) {
    && !(o.telemetryUnavailable || o.prometheusUnavailable) && o.status != Some("not_found")
    && (o.freshness == None || o.freshness.value <= 900.0)
  }

  /** Anything that points at Redis or PostgreSQL. */
  predicate DependencyFault(o: Observations) {
    || o.redis == Some(false) || (o.dbActive.Some? && 8 <= o.dbActive.value)
    || "RedisUnreachable" in o.alerts || "PostgresPoolExhausted" in o.alerts
    || exists line :: line in o.logErrors &&
         (Contains(Lower(line), "redis") || Contains(Lower(line), "postgres") || Contains(Lower(line), "connection pool"))
  }

  predicate Down(o: Observations) {
    o.status == Some("exited") || o.status == Some("dead") || (o.status != Some("running") && o.up == Some(0.0))
  }

  predicate Saturated(o: Observations) {
    o.cpu.Some? && (o.cpu.value >= 0.75 || (o.cpu.value >= 0.70 && "HighCpuSaturation" in o.alerts))
  }

  /** The probes say so: less than half of them succeed, or the last one answered something else than 200. */
  predicate Failing(o: Observations) {
    (o.readyRatio.Some? && o.readyRatio.value < 0.5) || (o.readyCode.Some? && o.readyCode != Some(200))
  }

  predicate Answering(o: Observations) {
    o.readyCode == Some(200) && o.readyRatio.Some? && o.readyRatio.value >= 1.0
  }

  predicate Unresponsive(o: Observations) {
    !Answering(o) && (Failing(o) || "ApiUnresponsive" in o.alerts)
  }

  /** Nothing measured is out of order. */
  predicate Sound(o: Observations) {
    && (o.up == None || o.up.value >= 1.0) && (o.cpu == None || o.cpu.value < 0.50)
    && (o.readyRatio == None || o.readyRatio.value >= 1.0) && (o.readyCode == None || o.readyCode == Some(200))
  }

  /** Something measured speaks against one of the rules. */
  predicate Contradicted(o: Observations) {
    || (o.status == Some("running") && o.up == Some(1.0) && o.readyCode == Some(200))
    || (o.cpu.Some? && o.cpu.value < 0.50 && "HighCpuSaturation" in o.alerts)
    || Answering(o) || (o.cpu.Some? && o.cpu.value >= 0.75)
  }

  predicate RunningFree(o: Observations) {
    Trusted(o) && o.status == Some("running") && !DependencyFault(o)
  }

  /** Each cause that calls for action or escalation, by a condition on the observations alone: the contradiction checks inside the
      rules never change the outcome beyond this table. */
  lemma RestartTable(o: Observations, d: Diagnosis)
    requires Prescribed(DEFAULT_RULES, o, d)
    ensures d.cause.ContainerStopped? <==> Trusted(o) && Down(o)
    ensures d.cause.DependencyUnavailable? <==> Trusted(o) && !Down(o) && DependencyFault(o)
    ensures d.cause.CpuSaturation? <==> RunningFree(o) && Saturated(o)
    ensures d.cause.ApiUnresponsive? <==> RunningFree(o) && !Saturated(o) && Unresponsive(o)
  {
    IsReference(o, d);
    ReferenceRestarts(o);
  }

  /** The remaining causes: no fault, contradictory evidence, and too little evidence. */
  lemma QuietTable(o: Observations, d: Diagnosis)
    requires Prescribed(DEFAULT_RULES, o, d)
    ensures var idle := Trusted(o) && !Down(o) && !DependencyFault(o)
                        && (o.status == Some("running") ==> !Saturated(o) && !Unresponsive(o));
            var healthy := o.status == Some("running") && Sound(o);
            && (d.cause.NoActiveFault? <==> idle && healthy)
            && (d.cause.Ambiguous? <==> idle && !healthy && Contradicted(o))
            && (d.cause.InsufficientEvidence? <==> !Trusted(o) || (idle && !healthy && !Contradicted(o)))
  {
    IsReference(o, d);
    ReferenceQuiet(o);
  }

  /** The confidence of each diagnosis: higher by one notch when the matching alert fires. */
  lemma ConfidenceTable(o: Observations, d: Diagnosis)
    requires Prescribed(DEFAULT_RULES, o, d)
    ensures d.confidence ==
            match d.cause
            case ContainerStopped => if "ContainerDown" in o.alerts then 0.95 else 0.90
            case CpuSaturation => if "HighCpuSaturation" in o.alerts then 0.90 else 0.85
            case ApiUnresponsive => if "ApiUnresponsive" in o.alerts then 0.90 else 0.85
            case DependencyUnavailable => 0.90
            case NoActiveFault => 0.95
            case Ambiguous => 0.40
            case InsufficientEvidence => 0.0
  {
    IsReference(o, d);
    ReferenceConfidence(o);
  }

  /** The default table written out. */
  function Reference(o: Observations): Diagnosis {
    if !Usable(o) then INSUFFICIENT
    else if EvaluateStopped(o).matched then Found(EvaluateStopped(o))
    else if EvaluateDependency(o).matched then Found(EvaluateDependency(o))
    else if EvaluateCpu(o).matched then Found(EvaluateCpu(o))
    else if EvaluateApi(o).matched then Found(EvaluateApi(o))
    else if EvaluateNoFault(o).matched then Found(EvaluateNoFault(o))
    else if EvaluateStopped(o).contradictions + EvaluateDependency(o).contradictions + EvaluateCpu(o).contradictions
            + EvaluateApi(o).contradictions + EvaluateNoFault(o).contradictions != [] then AMBIGUOUS
    else INSUFFICIENT
  }

  function Found(r: RuleResult): Diagnosis {
    Diagnosis(r.cause, r.confidence, r.actionable)
  }

  lemma ReferencePrescribed(o: Observations)
    ensures Prescribed(DEFAULT_RULES, o, Reference(o))
  {
    if Usable(o) && exists r :: Matches(DEFAULT_RULES, r, o) {
      var first := if EvaluateStopped(o).matched then StoppedRule else if EvaluateDependency(o).matched then DependencyRule
                   else if EvaluateCpu(o).matched then CpuRule else if EvaluateApi(o).matched then ApiRule else NoFaultRule;
      assert Wins(DEFAULT_RULES, first, o);
      assert Reference(o) == Found(EvaluateRule(first, o));
    } else if Usable(o) {
      assert !Matches(DEFAULT_RULES, StoppedRule, o) && !Matches(DEFAULT_RULES, DependencyRule, o)
             && !Matches(DEFAULT_RULES, CpuRule, o) && !Matches(DEFAULT_RULES, ApiRule, o) && !Matches(DEFAULT_RULES, NoFaultRule, o);
    }
  }

  lemma IsReference(o: Observations, d: Diagnosis)
    requires Prescribed(DEFAULT_RULES, o, d)
    ensures d == Reference(o)
  {
    ReferencePrescribed(o);
    PrescribedOnce(DEFAULT_RULES, o, d, Reference(o));
  }

  lemma ReferenceRestarts(o: Observations)
    ensures var d := Reference(o);
            && (d.cause.ContainerStopped? <==> Trusted(o) && Down(o))
            && (d.cause.DependencyUnavailable? <==> Trusted(o) && !Down(o) && DependencyFault(o))
            && (d.cause.CpuSaturation? <==> RunningFree(o) && Saturated(o))
            && (d.cause.ApiUnresponsive? <==> RunningFree(o) && !Saturated(o) && Unresponsive(o))
  {
  }

  lemma ReferenceQuiet(o: Observations)
    ensures var d := Reference(o);
            var idle := Trusted(o) && !Down(o) && !DependencyFault(o)
                        && (o.status == Some("running") ==> !Saturated(o) && !Unresponsive(o));
            var healthy := o.status == Some("running") && Sound(o);
            && (d.cause.NoActiveFault? <==> idle && healthy)
            && (d.cause.Ambiguous? <==> idle && !healthy && Contradicted(o))
            && (d.cause.InsufficientEvidence? <==> !Trusted(o) || (idle && !healthy && !Contradicted(o)))
  {
  }

  lemma ReferenceConfidence(o: Observations)
    ensures Reference(o).confidence ==
            match Reference(o).cause
            case ContainerStopped => if "ContainerDown" in o.alerts then 0.95 else 0.90
            case CpuSaturation => if "HighCpuSaturation" in o.alerts then 0.90 else 0.85
            case ApiUnresponsive => if "ApiUnresponsive" in o.alerts then 0.90 else 0.85
            case DependencyUnavailable => 0.90
            case NoActiveFault => 0.95
            case Ambiguous => 0.40
            case InsufficientEvidence => 0.0
  {
  }

  lemma ReferenceActs(o: Observations)
    ensures var d := Reference(o);
            (d.actionable <==> Restartable(d.cause)) && (d.actionable ==> 0.85 <= d.confidence <= 0.95)
  {
  }

  /** For every observation bundle: actionable exactly for the three restart causes, then with confidence at least 0.85;
      and a dependency failure never leads to action unless the container itself is down. */
  lemma ActionableIff(o: Observations, d: Diagnosis)
    requires Prescribed(DEFAULT_RULES, o, d)
    ensures d.actionable <==> Restartable(d.cause)
    ensures d.actionable ==> 0.85 <= d.confidence <= 0.95
    ensures d.actionable && DependencyFault(o) ==> Down(o) && d.cause.ContainerStopped?
  {
    IsReference(o, d);
    ReferenceActs(o);
    RestartTable(o, d);
  }

  /** The order in which the rules are given to the engine is irrelevant. */
  lemma OrderIsIrrelevant(a: seq<Rule>, b: seq<Rule>, o: Observations, d: Diagnosis, e: Diagnosis)
    requires multiset(a) == multiset(b) && Prescribed(RuleSet(a), o, d) && Prescribed(RuleSet(b), o, e)
    ensures d == e
  {
    forall r ensures r in a <==> r in b {
      assert r in a <==> r in multiset(a);
      assert r in b <==> r in multiset(b);
    }
    assert RuleSet(a) == RuleSet(b);
    PrescribedOnce(RuleSet(a), o, d, e);
  }

  /** A firing alert alone is taken as a failed probe: with no success ratio the API counts as unresponsive although the
      latest readiness answer was 200. */
  lemma AlertAloneActs(o: Observations, d: Diagnosis)
    requires o == Observations(Some("running"), Some(1.0), Some(200), None, Some(0.1), Some(true), Some(1),
                               ["ApiUnresponsive"], [], false, false, None)
    requires Prescribed(DEFAULT_RULES, o, d)
    ensures d.cause.ApiUnresponsive? && d.actionable && !Failing(o)
  {
    RestartTable(o, d);
    ActionableIff(o, d);
  }

  /** The exact condition on the observations: the API is found unresponsive without a failing probe if and only if its alert
      fires on a running container whose probes are neither failing nor fully answering, with no saturation and no dependency
      failure to explain it. */
  lemma UncorroboratedIff(o: Observations, d: Diagnosis)
    requires Prescribed(DEFAULT_RULES, o, d)
    ensures d.cause.ApiUnresponsive? && !Failing(o) <==>
            RunningFree(o) && !Saturated(o) && "ApiUnresponsive" in o.alerts && !Failing(o) && !Answering(o)
  {
    RestartTable(o, d);
  }
}
