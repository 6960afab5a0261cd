/** The policy engine: ten gates over an evaluation context, and the precedence of their outcomes. */
module Policy {
  import opened Prelude

  datatype Mode = Disabled | ApprovalRequired | Automatic

  datatype Grant = Grant(decision: string, planVersion: Option<int>, hash: Option<string>, expiresAt: Option<Time>, role: string)

  datatype Context = Context(
    planVersion: int, hash: string, container: string, service: string, environment: string,
    action: string, risk: string, confidence: real, rootCause: string, evidenceAge: Option<real>,
    attempts: int, lastExecution: Option<Time>, locked: bool, grant: Option<Grant>, mode: Mode,
    stopped: set<string>, now: Time)

  datatype Rules = Rules(
    autoConfidence: real, minConfidence: real, retryLimit: int, cooldown: int, environments: seq<string>,
    actions: seq<string>, targets: seq<string>, requireLowRisk: bool, freshness: real)

  const DEFAULT_RULES := Rules(
    0.85, 0.60, 2, 600, ["local"],
    ["restart_container", "inspect_container", "wait_for_stabilization", "notify_operator", "open_incident_ticket"],
    ["demo-api"], true, 300.0)

  datatype Reason =
    | KillSwitchActive | KillSwitchInactive | EmergencyStop | EmergencyStopInactive
    | ProhibitedAction | RiskExceeded | ActionPermitted | TargetNotAllowlisted | TargetAllowlisted
    | EnvironmentMismatch | EnvironmentAllowed
    | EvidenceInsufficient | EvidenceStale | ConfidenceTooLow | ApprovalForLowConfidence | HighConfidence
    | BudgetExhausted | BudgetAvailable | InCooldown | CooldownSatisfied | ResourceLocked | LockAvailable
    | AutomaticPermitted | ApprovalNeeded | ApprovalRejected | DecisionInvalid | VersionMismatch
    | HashMismatch | ApprovalExpired | UnauthorizedRole | ApprovalValid

  datatype GateResult = GateResult(passed: bool, reason: Reason)

  const UNSUPPORTED := {"AMBIGUOUS", "INSUFFICIENT_EVIDENCE", "NO_ACTIVE_FAULT", "DEPENDENCY_UNAVAILABLE", "UNKNOWN"}

  function KillSwitchGate(c: Context): GateResult {
    if c.mode.Disabled? then GateResult(false, KillSwitchActive) else GateResult(true, KillSwitchInactive)
  }

  function EmergencyStopGate(c: Context): GateResult {
    if c.service in c.stopped || c.container in c.stopped then GateResult(false, EmergencyStop)
    else GateResult(true, EmergencyStopInactive)
  }

  function ActionGate(c: Context, r: Rules): GateResult {
    if c.action !in r.actions then GateResult(false, ProhibitedAction)
    else if r.requireLowRisk && Upper(c.risk) != "LOW" then GateResult(false, RiskExceeded)
    else GateResult(true, ActionPermitted)
  }

  function AllowlistGate(c: Context, r: Rules): GateResult {
    if c.service in r.targets then GateResult(true, TargetAllowlisted) else GateResult(false, TargetNotAllowlisted)
  }

  function EnvironmentGate(c: Context, r: Rules): GateResult {
    if exists e :: e in r.environments && Lower(e) == Lower(c.environment)
    then GateResult(true, EnvironmentAllowed) else GateResult(false, EnvironmentMismatch)
  }

  function ConfidenceGate(c: Context, r: Rules): GateResult {
    if c.rootCause in UNSUPPORTED then GateResult(false, EvidenceInsufficient)
    else if c.evidenceAge.Some? && c.evidenceAge.value > r.freshness then GateResult(false, EvidenceStale)
    else if c.confidence < r.minConfidence then GateResult(false, ConfidenceTooLow)
    else if c.confidence < r.autoConfidence then GateResult(true, ApprovalForLowConfidence)
    else GateResult(true, HighConfidence)
  }

  function BudgetGate(c: Context, r: Rules): GateResult {
    if c.attempts < 1 + r.retryLimit then GateResult(true, BudgetAvailable) else GateResult(false, BudgetExhausted)
  }

  function CooldownGate(c: Context, r: Rules): GateResult {
    if c.lastExecution.Some? && c.now - c.lastExecution.value < r.cooldown * SECOND
    then GateResult(false, InCooldown) else GateResult(true, CooldownSatisfied)
  }

  function LockGate(c: Context): GateResult {
    if c.locked then GateResult(false, ResourceLocked) else GateResult(true, LockAvailable)
  }

  predicate NeedsApproval(c: Context, r: Rules) {
    c.mode.ApprovalRequired? || c.confidence < r.autoConfidence
  }

  function ApprovalGate(c: Context, r: Rules): GateResult {
    if !NeedsApproval(c, r) then GateResult(true, AutomaticPermitted)
    else if c.grant.None? then GateResult(false, ApprovalNeeded)
    else GrantGate(c, c.grant.value)
  }

  function GrantGate(c: Context, g: Grant): GateResult {
    if Upper(g.decision) == "REJECT" then GateResult(false, ApprovalRejected)
    else if Upper(g.decision) != "APPROVE" then GateResult(false, DecisionInvalid)
    else if g.planVersion != Some(c.planVersion) then GateResult(false, VersionMismatch)
    else if g.hash.Some? && g.hash.value != "" && g.hash.value != c.hash then GateResult(false, HashMismatch)
    else if g.expiresAt.Some? && g.expiresAt.value <= c.now then GateResult(false, ApprovalExpired)
    else if g.role != "approver" && g.role != "admin" then GateResult(false, UnauthorizedRole)
    else GateResult(true, ApprovalValid)
  }

  datatype Outcome = Allow | Deny | RequireApproval | Defer

  datatype Evaluation = Evaluation(outcome: Outcome, results: seq<GateResult>, reasons: seq<Reason>, deferUntil: Option<Time>)

  const DENYING := {ApprovalRejected, ApprovalExpired, VersionMismatch, HashMismatch, UnauthorizedRole, DecisionInvalid}

  /** Positions of the confidence and the approval gate, whose reasons are always given. */
  const CONFIDENCE := 5
  const APPROVAL := 9

  /** The reason codes appended gate by gate: of those that failed, and of the confidence and the approval gate. */
  function Reasons(results: seq<GateResult>): seq<Reason> {
    if results == [] then []
    else
      var i := |results| - 1;
      Reasons(results[..i]) + if !results[i].passed || i == CONFIDENCE || i == APPROVAL then [results[i].reason] else []
  }

  /** `PolicyEngine.evaluate`: all gates are evaluated, then hard denials win over cooldown, lock and missing approval. */
  function Evaluate(c: Context, r: Rules): Evaluation {
    var r1 := KillSwitchGate(c);
    var r2 := EmergencyStopGate(c);
    var r3 := ActionGate(c, r);
    var r4 := AllowlistGate(c, r);
    var r5 := EnvironmentGate(c, r);
    var r6 := ConfidenceGate(c, r);
    var r7 := BudgetGate(c, r);
    var r8 := CooldownGate(c, r);
    var r9 := LockGate(c);
    var r10 := ApprovalGate(c, r);
    var results := [r1, r2, r3, r4, r5, r6, r7, r8, r9, r10];
    var reasons := Reasons(results);
    var failed := !r1.passed || !r2.passed || !r3.passed || !r4.passed || !r5.passed || !r7.passed || !r6.passed;
    var hardDeny := failed || (!r10.passed && r10.reason in DENYING);
    if hardDeny then Evaluation(Deny, results, reasons, None)
    else if !r8.passed then
      Evaluation(Defer, results, reasons, if c.lastExecution.Some? then Some(c.lastExecution.value + r.cooldown * SECOND) else None)
    else if !r9.passed then Evaluation(Defer, results, reasons, None)
    else if !r10.passed && r10.reason == ApprovalNeeded then Evaluation(RequireApproval, results, reasons, None)
    else Evaluation(Allow, results, reasons, None)
  }

  // ---------------------------------------------------------------- what the outcome means

  /** The facts gates 1 to 7 ask for; none of them involves the clock. */
  predicate Eligible(c: Context, r: Rules) {
    && !c.mode.Disabled?
    && {c.service, c.container} !! c.stopped
    && c.action in r.actions && (r.requireLowRisk ==> Upper(c.risk) == "LOW")
    && c.service in r.targets
    && (exists e :: e in r.environments && Lower(e) == Lower(c.environment))
    && c.rootCause !in UNSUPPORTED && (c.evidenceAge.Some? ==> c.evidenceAge.value <= r.freshness)
    && c.confidence >= r.minConfidence
    && c.attempts <= r.retryLimit
  }

  /** The grant binds this plan, apart from its expiry. */
  predicate Binds(g: Grant, c: Context) {
    && Upper(g.decision) == "APPROVE" && g.planVersion == Some(c.planVersion)
    && (g.hash.Some? && g.hash.value != "" ==> g.hash.value == c.hash)
    && g.role in {"approver", "admin"}
  }

  predicate Live(g: Grant, now: Time) {
    g.expiresAt.Some? ==> now < g.expiresAt.value
  }

  predicate CoolAt(c: Context, r: Rules, now: Time) {
    c.lastExecution.Some? ==> c.lastExecution.value + r.cooldown * SECOND <= now
  }

  /** The four outcomes, each by a condition on the facts alone. */
  predicate AllowedBy(c: Context, r: Rules) {
    && Eligible(c, r) && CoolAt(c, r, c.now) && !c.locked
    && (c.mode.ApprovalRequired? || c.confidence < r.autoConfidence ==>
          c.grant.Some? && Binds(c.grant.value, c) && Live(c.grant.value, c.now))
  }

  predicate DeniedBy(c: Context, r: Rules) {
    || !Eligible(c, r)
    || ((c.mode.ApprovalRequired? || c.confidence < r.autoConfidence)
        && c.grant.Some? && !(Binds(c.grant.value, c) && Live(c.grant.value, c.now)))
  }

  /** ALLOW exactly when all ten gates pass, which is exactly when the facts allow it; DENY, DEFER and REQUIRE_APPROVAL are
      characterised as well, so the four conditions partition every context. */
  lemma OutcomeTable(c: Context, r: Rules)
    ensures var e := Evaluate(c, r);
            && |e.results| == 10
            && (e.outcome.Allow? <==> forall i :: 0 <= i < 10 ==> e.results[i].passed)
            && (e.outcome.Allow? <==> AllowedBy(c, r))
            && (e.outcome.Deny? <==> DeniedBy(c, r))
            && (e.outcome.Defer? <==> !DeniedBy(c, r) && (c.locked || !CoolAt(c, r, c.now)))
            && (e.outcome.RequireApproval? <==>
                  && Eligible(c, r) && CoolAt(c, r, c.now) && !c.locked && c.grant.None?
                  && (c.mode.ApprovalRequired? || c.confidence < r.autoConfidence))
            && (e.deferUntil.Some? <==> !DeniedBy(c, r) && !CoolAt(c, r, c.now))
  {
    AllGates(c, r);
    GatesMean(c, r);
    GrantMeans(c, r);
  }

  lemma AllGates(c: Context, r: Rules)
    ensures var e := Evaluate(c, r);
            |e.results| == 10 && (e.outcome.Allow? <==> forall i :: 0 <= i < 10 ==> e.results[i].passed)
  {
    var e := Evaluate(c, r);
    GrantMeans(c, r);
    assert e.outcome.Allow? <==> e.results[0].passed && e.results[1].passed && e.results[2].passed && e.results[3].passed
                                 && e.results[4].passed && e.results[5].passed && e.results[6].passed && e.results[7].passed
                                 && e.results[8].passed && e.results[9].passed;
  }

  lemma GatesMean(c: Context, r: Rules)
    ensures Eligible(c, r) <==>
            KillSwitchGate(c).passed && EmergencyStopGate(c).passed && ActionGate(c, r).passed && AllowlistGate(c, r).passed
            && EnvironmentGate(c, r).passed && ConfidenceGate(c, r).passed && BudgetGate(c, r).passed
  {
  }

  lemma GrantMeans(c: Context, r: Rules)
    ensures ApprovalGate(c, r).passed <==>
            (c.mode.ApprovalRequired? || c.confidence < r.autoConfidence ==>
               c.grant.Some? && Binds(c.grant.value, c) && Live(c.grant.value, c.now))
    ensures !ApprovalGate(c, r).passed ==>
            if c.grant.None? then ApprovalGate(c, r).reason == ApprovalNeeded else ApprovalGate(c, r).reason in DENYING
  {
  }

  /** Gates 1 to 7 under the default rules, with every threshold written out. */
  predicate DefaultEligible(c: Context) {
    && c.mode != Disabled
    && c.service == "demo-api" && c.service !in c.stopped && c.container !in c.stopped
    && c.action in {"restart_container", "inspect_container", "wait_for_stabilization", "notify_operator", "open_incident_ticket"}
    && Upper(c.risk) == "LOW" && Lower(c.environment) == "local"
    && c.rootCause !in {"AMBIGUOUS", "INSUFFICIENT_EVIDENCE", "NO_ACTIVE_FAULT", "DEPENDENCY_UNAVAILABLE", "UNKNOWN"}
    && (c.evidenceAge.Some? ==> c.evidenceAge.value <= 300.0)
    && c.confidence >= 0.60 && c.attempts <= 2
  }

  lemma DefaultEligibleIff(c: Context)
    ensures Eligible(c, DEFAULT_RULES) <==> DefaultEligible(c)
  {
    assert Lower("local") == "local";
    assert "local" in DEFAULT_RULES.environments && forall e :: e in DEFAULT_RULES.environments ==> e == "local";
  }

  /** ALLOW under the default rules, with every threshold written out. */
  lemma DefaultAllowIff(c: Context)
    ensures Evaluate(c, DEFAULT_RULES).outcome.Allow? <==>
            && DefaultEligible(c) && !c.locked
            && (c.lastExecution.Some? ==> c.now >= c.lastExecution.value + 600 * SECOND)
            && (c.mode == ApprovalRequired || c.confidence < 0.85 ==>
                  && c.grant.Some? && Upper(c.grant.value.decision) == "APPROVE" && c.grant.value.planVersion == Some(c.planVersion)
                  && c.grant.value.hash in {None, Some(""), Some(c.hash)}
                  && (c.grant.value.expiresAt.Some? ==> c.now < c.grant.value.expiresAt.value)
                  && (c.grant.value.role == "approver" || c.grant.value.role == "admin"))
  {
    OutcomeTable(c, DEFAULT_RULES);
    DefaultEligibleIff(c);
  }

  /** The reasons of the confidence gate, each by its condition. */
  lemma ConfidenceReasons(c: Context, r: Rules)
    ensures var reason := ConfidenceGate(c, r).reason; var cause := c.rootCause !in UNSUPPORTED;
            var current := c.evidenceAge == None || c.evidenceAge.value <= r.freshness;
            && (reason == EvidenceInsufficient <==> !cause)
            && (reason == EvidenceStale <==> cause && !current)
            && (reason == ConfidenceTooLow <==> cause && current && c.confidence < r.minConfidence)
            && (reason == ApprovalForLowConfidence <==> cause && current && r.minConfidence <= c.confidence < r.autoConfidence)
            && (reason == HighConfidence <==> cause && current && c.confidence >= r.minConfidence && c.confidence >= r.autoConfidence)
  {
  }

  /** The hash of the grant is left out or is the plan's. */
  predicate HashAgrees(g: Grant, hash: string) {
    g.hash == None || g.hash.value == "" || g.hash.value == hash
  }

  /** The reasons of a grant, each by its condition, in the order in which they are looked for. */
  lemma GrantReasons(c: Context, g: Grant)
    ensures var reason := GrantGate(c, g).reason; var word := Upper(g.decision);
            var version := g.planVersion == Some(c.planVersion); var hash := HashAgrees(g, c.hash);
            var live := g.expiresAt == None || c.now < g.expiresAt.value;
            var role := g.role == "approver" || g.role == "admin";
            && (reason == ApprovalRejected <==> word == "REJECT")
            && (reason == DecisionInvalid <==> word != "REJECT" && word != "APPROVE")
            && (reason == VersionMismatch <==> word == "APPROVE" && !version)
            && (reason == HashMismatch <==> word == "APPROVE" && version && !hash)
            && (reason == ApprovalExpired <==> word == "APPROVE" && version && hash && !live)
            && (reason == UnauthorizedRole <==> word == "APPROVE" && version && hash && live && !role)
            && (reason == ApprovalValid <==> word == "APPROVE" && version && hash && live && role)
  {
    assert "REJECT" != "APPROVE" by { assert "REJECT"[0] != "APPROVE"[0]; }
  }

  /** The approval gate looks at the grant exactly when the mode or the confidence asks for one. */
  lemma ApprovalReasons(c: Context, r: Rules)
    ensures var gate := ApprovalGate(c, r); var asks := c.mode == ApprovalRequired || c.confidence < r.autoConfidence;
            && (!asks ==> gate == GateResult(true, AutomaticPermitted))
            && (asks && c.grant == None ==> gate == GateResult(false, ApprovalNeeded))
            && (asks && c.grant.Some? ==> gate == GrantGate(c, c.grant.value))
  {
  }

  /** The reasons of the other gates. */
  lemma PlainReasons(c: Context, r: Rules)
    ensures KillSwitchGate(c).reason == if c.mode == Disabled then KillSwitchActive else KillSwitchInactive
    ensures EmergencyStopGate(c).reason == if {c.service, c.container} !! c.stopped then EmergencyStopInactive else EmergencyStop
    ensures ActionGate(c, r).reason == ProhibitedAction <==> c.action !in r.actions
    ensures ActionGate(c, r).reason == RiskExceeded <==> c.action in r.actions && r.requireLowRisk && Upper(c.risk) != "LOW"
    ensures AllowlistGate(c, r).reason == if c.service in r.targets then TargetAllowlisted else TargetNotAllowlisted
    ensures EnvironmentGate(c, r).reason == if EnvironmentGate(c, r).passed then EnvironmentAllowed else EnvironmentMismatch
    ensures BudgetGate(c, r).reason == if c.attempts <= r.retryLimit then BudgetAvailable else BudgetExhausted
    ensures CooldownGate(c, r).reason == if CoolAt(c, r, c.now) then CooldownSatisfied else InCooldown
    ensures LockGate(c).reason == if c.locked then ResourceLocked else LockAvailable
  {
  }

  predicate Explains(results: seq<GateResult>, i: nat, x: Reason)
    requires i < |results|
  {
    results[i].reason == x && (!results[i].passed || i == 5 || i == 9)
  }

  lemma {:induction false} ReasonsIff(results: seq<GateResult>, x: Reason)
    ensures x in Reasons(results) <==> exists i: nat :: i < |results| && Explains(results, i, x)
    decreases |results|
  {
    if results != [] {
      var front, last := results[..|results| - 1], |results| - 1;
      ReasonsIff(front, x);
      forall i: nat | i < |front| ensures Explains(front, i, x) <==> Explains(results, i, x) {
      }
      assert x in Reasons(results) <==> x in Reasons(front) || Explains(results, last, x);
    }
  }

  lemma {:induction false} ReasonsOfPassing(results: seq<GateResult>)
    requires forall i :: 0 <= i < |results| ==> results[i].passed
    ensures |results| <= 5 ==> Reasons(results) == []
    ensures 5 < |results| <= 9 ==> Reasons(results) == [results[5].reason]
    ensures |results| == 10 ==> Reasons(results) == [results[5].reason, results[9].reason]
    decreases |results|
  {
    if results != [] {
      ReasonsOfPassing(results[..|results| - 1]);
    }
  }

  /** The reason codes are those of the gates that failed, and always those of the confidence and the approval gate; an allowed plan
      carries these two and no other. */
  lemma ReasonsExplain(c: Context, r: Rules)
    ensures var e := Evaluate(c, r);
            && (forall x :: x in e.reasons <==> exists i: nat :: i < |e.results| && Explains(e.results, i, x))
            && (e.outcome.Allow? ==> |e.results| == 10 && e.reasons == [e.results[5].reason, e.results[9].reason])
  {
    AllGates(c, r);
    var e := Evaluate(c, r);
    forall x ensures x in e.reasons <==> exists i: nat :: i < |e.results| && Explains(e.results, i, x) {
      ReasonsIff(e.results, x);
    }
    if e.outcome.Allow? {
      ReasonsOfPassing(e.results);
    }
  }

  // ---------------------------------------------------------------- time

  function At(c: Context, t: Time): Context {
    c.(now := t)
  }

  /** With approval required, a binding grant and everything else passing, the timeline is: DENY from the expiry on,
      and before it DEFER until the cooldown ends and ALLOW after. So ALLOW holds exactly on [cooldown end, expiry). */
  lemma AllowWindow(c: Context, r: Rules, t: Time)
    requires Eligible(c, r) && !c.locked && (c.mode.ApprovalRequired? || c.confidence < r.autoConfidence)
    requires c.lastExecution.Some? && c.grant.Some? && c.grant.value.expiresAt.Some? && Binds(c.grant.value, c)
    ensures var opens := c.lastExecution.value + r.cooldown * SECOND;
            var expires := c.grant.value.expiresAt.value;
            var e := Evaluate(At(c, t), r);
            && (e.outcome.Allow? <==> opens <= t < expires)
            && (e.outcome.Deny? <==> expires <= t)
            && (e.outcome.Defer? <==> t < opens && t < expires)
  {
    OutcomeTable(At(c, t), r);
  }

  /** The reported instant is the first one at which the cooldown gate passes, from any time it is asked. */
  lemma DeferUntilIsExact(c: Context, r: Rules, t: Time)
    requires Evaluate(c, r).deferUntil.Some?
    ensures var until := Evaluate(c, r).deferUntil.value;
            c.now < until && (CooldownGate(At(c, t), r).passed <==> until <= t)
  {
    OutcomeTable(c, r);
  }

  /** A deferred action is not deferred for its cooldown again: at the reported instant it is allowed, unless the approval ran
      out or is missing, or the lock is held. */
  lemma WakeUpDecides(c: Context, r: Rules)
    requires Evaluate(c, r).deferUntil.Some?
    ensures var until := Evaluate(c, r).deferUntil.value;
            Evaluate(At(c, until), r).outcome
            == (var asks := c.mode.ApprovalRequired? || c.confidence < r.autoConfidence;
                if asks && c.grant.Some? && !Live(c.grant.value, until) then Deny
                else if c.locked then Defer
                else if asks && c.grant.None? then RequireApproval
                else Allow)
  {
    var until := Evaluate(c, r).deferUntil.value;
    OutcomeTable(c, r);
    OutcomeTable(At(c, until), r);
  }

  function Phase(o: Outcome): int {
    match o case Defer => 0 case RequireApproval => 1 case Allow => 1 case Deny => 2
  }

  /** With the facts fixed, time alone only moves a decision forward: from DEFER to ALLOW or REQUIRE_APPROVAL, and to DENY,
      never back, and never between ALLOW and REQUIRE_APPROVAL. */
  lemma DecisionsAdvance(c: Context, r: Rules, t: Time, later: Time)
    requires t <= later
    ensures var a := Evaluate(At(c, t), r).outcome; var b := Evaluate(At(c, later), r).outcome;
            Phase(a) <= Phase(b) && (Phase(a) == Phase(b) ==> a == b)
  {
    OutcomeTable(At(c, t), r);
    OutcomeTable(At(c, later), r);
  }

  // ---------------------------------------------------------------- monotonicity

  predicate StricterMode(a: Mode, b: Mode) {
    a == b || a.Disabled? || (a.ApprovalRequired? && b.Automatic?)
  }

  predicate OlderEvidence(a: Option<real>, b: Option<real>) {
    a == b || (a.Some? && b.Some? && a.value >= b.value) || b.None?
  }

  /** `worse` differs from `c` only for the worse: more stops or attempts, less confidence, older evidence, a lock,
      a stricter mode. */
  predicate Worse(worse: Context, c: Context) {
    && worse == c.(stopped := worse.stopped, attempts := worse.attempts, confidence := worse.confidence,
                   evidenceAge := worse.evidenceAge, locked := worse.locked, mode := worse.mode)
    && c.stopped <= worse.stopped && c.attempts <= worse.attempts && worse.confidence <= c.confidence
    && OlderEvidence(worse.evidenceAge, c.evidenceAge) && (c.locked ==> worse.locked) && StricterMode(worse.mode, c.mode)
  }

  /** Making the facts worse never turns a refusal into ALLOW. */
  lemma WorseNeverAllows(worse: Context, c: Context, r: Rules)
    requires Worse(worse, c) && !Evaluate(c, r).outcome.Allow?
    ensures !Evaluate(worse, r).outcome.Allow?
  {
    OutcomeTable(c, r);
    OutcomeTable(worse, r);
    if AllowedBy(worse, r) {
      WorseKeepsEligible(worse, c, r);
    }
  }

  lemma WorseKeepsEligible(worse: Context, c: Context, r: Rules)
    requires Worse(worse, c) && Eligible(worse, r)
    ensures Eligible(c, r) && (c.mode.ApprovalRequired? || c.confidence < r.autoConfidence ==>
                                 worse.mode.ApprovalRequired? || worse.confidence < r.autoConfidence)
  {
  }
}
