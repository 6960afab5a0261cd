/** The action catalogue, the plan validator and the deterministic planner. */
module Planning {
  import opened Prelude
  import opened PlanContent

  /** Library behaviour the planner relies on: the digest, the shell-pattern filter and the text of a UUID. */
  datatype Env = Env(sha: Canonical -> string, safe: string -> bool, uuidText: Uuid -> string)

  const INSPECT := "inspect_container"
  const RESTART := "restart_container"
  const WAIT := "wait_for_stabilization"
  const NOTIFY := "notify_operator"
  const TICKET := "open_incident_ticket"
  const PROFILE := "m1_default_restart_profile"

  // ---------------------------------------------------------------- parameter schemas

  predicate HexDigit(c: char) {
    '0' <= c <= '9' || 'a' <= c <= 'f' || 'A' <= c <= 'F'
  }

  predicate ContainerId(s: string) {
    12 <= |s| <= 64 && forall i :: 0 <= i < |s| ==> HexDigit(s[i])
  }

  predicate Fields(p: Params, required: set<string>, optional: set<string>) {
    required <= p.Keys <= required + optional
  }

  predicate NumberIn(p: Params, key: string, low: int, high: int) {
    key in p ==> p[key].Number? && low <= p[key].number <= high
  }

  predicate GenerationOk(p: Params) {
    "binding_generation" in p ==> p["binding_generation"].Number? && p["binding_generation"].number >= 1
  }

  predicate SafeText(env: Env, p: Params, key: string, longest: int) {
    key in p && p[key].Text? && 1 <= |p[key].text| <= longest && env.safe(p[key].text)
  }

  predicate ContainerOk(p: Params) {
    && "container_id" in p && p["container_id"].Text? && ContainerId(p["container_id"].text)
    && "resource_id" in p && p["resource_id"].Ident? && GenerationOk(p)
  }

  predicate ParametersOk(env: Env, action: string, p: Params) {
    if action == INSPECT then
      Fields(p, {"container_id", "resource_id"}, {"binding_generation"}) && ContainerOk(p)
    else if action == RESTART then
      && Fields(p, {"container_id", "resource_id"}, {"service_name", "timeout_seconds", "binding_generation"})
      && ContainerOk(p) && NumberIn(p, "timeout_seconds", 1, 120)
      && ("service_name" in p ==> p["service_name"] == Text("demo-api") && env.safe("demo-api"))
    else if action == WAIT then
      && Fields(p, {"resource_id"}, {"duration_seconds", "verification_profile"})
      && p["resource_id"].Ident? && NumberIn(p, "duration_seconds", 1, 300)
      && ("verification_profile" in p ==>
            p["verification_profile"].Text? && |p["verification_profile"].text| <= 64 && env.safe(p["verification_profile"].text))
    else if action == NOTIFY then
      && Fields(p, {"incident_id", "reason", "message"}, {"severity"})
      && p["incident_id"].Ident? && SafeText(env, p, "reason", 256) && SafeText(env, p, "message", 4096)
      && ("severity" in p ==> p["severity"] in {Text("LOW"), Text("MEDIUM"), Text("HIGH"), Text("CRITICAL")})
    else if action == TICKET then
      && Fields(p, {"incident_id", "title", "summary", "root_cause", "escalation_reason"}, {})
      && p["incident_id"].Ident? && SafeText(env, p, "title", 256) && SafeText(env, p, "summary", 4096)
      && SafeText(env, p, "root_cause", 128) && SafeText(env, p, "escalation_reason", 2048)
    else false
  }

  predicate Registered(action: string) {
    action in {INSPECT, RESTART, WAIT, NOTIFY, TICKET}
  }

  /** The catalogue's one workload mutation. */
  predicate Mutates(action: string) {
    action == RESTART
  }

  // ---------------------------------------------------------------- what an acceptable plan is

  predicate Truthy(v: Value) {
    match v
    case Text(t) => t != ""
    case Number(n) => n != 0
    case Ident(_) => true
  }

  /** A parameter, when given, repeats the plan's own target. */
  predicate Repeats(p: Params, key: string, value: string) {
    key in p && Truthy(p[key]) ==> p[key] == Text(value)
  }

  predicate StepOk(env: Env, s: Step, target: Target) {
    && Registered(s.action) && ParametersOk(env, s.action, s.parameters) && s.resource == target.resource
    && Repeats(s.parameters, "container_id", target.container) && Repeats(s.parameters, "service_name", target.service)
  }

  predicate TargetOk(target: Target, expected: Option<Target>) {
    (expected.Some? ==> target == expected.value) && target.service == "demo-api"
  }

  /** At most one step restarts; every inspection lies strictly before it and every stabilisation wait strictly after,
      and there is at least one of each. */
  ghost predicate OrderOk(steps: seq<Step>) {
    forall m :: 0 <= m < |steps| && Mutates(steps[m].action) ==>
      && (forall i :: 0 <= i < |steps| && Mutates(steps[i].action) ==> i == m)
      && Framed(steps, steps[m].position)
  }

  ghost predicate Acceptable(env: Env, plan: Plan, expected: Option<Target>, verifyHash: bool) {
    && TargetOk(plan.target, expected)
    && StepsOk(env, plan, |plan.steps|) && Apart(plan.steps, |plan.steps|) && OrderOk(plan.steps)
    && (verifyHash ==> plan.hash == ContentHash(env.sha, plan))
  }

  // ---------------------------------------------------------------- the validator

  datatype Error =
    | WrongResource | WrongContainer | WrongService | WrongGeneration | ServiceNotAllowlisted
    | DuplicatePosition(position: int) | Unregistered(position: int) | InvalidParameters(position: int)
    | StepResource(position: int) | ForgedContainer(position: int) | ForeignService(position: int)
    | MultipleMutations | NotPrecededByInspection | NotFollowedByWait | HashMismatch

  function WithAction(steps: seq<Step>, action: string): seq<Step> {
    if steps == [] then []
    else WithAction(steps[..|steps| - 1], action)
         + if steps[|steps| - 1].action == action then [steps[|steps| - 1]] else []
  }

  method CheckTarget(target: Target, expected: Option<Target>) returns (errors: seq<Error>)
    ensures errors == [] <==> TargetOk(target, expected)
  {
    errors := [];
    if expected.Some? {
      if target.resource != expected.value.resource { errors := errors + [WrongResource]; }
      if target.container != expected.value.container { errors := errors + [WrongContainer]; }
      if target.service != expected.value.service { errors := errors + [WrongService]; }
      if target.generation != expected.value.generation { errors := errors + [WrongGeneration]; }
    }
    if target.service != "demo-api" { errors := errors + [ServiceNotAllowlisted]; }
  }

  method CheckStep(env: Env, s: Step, target: Target) returns (errors: seq<Error>)
    ensures errors == [] <==> StepOk(env, s, target)
  {
    if !Registered(s.action) { return [Unregistered(s.position)]; }
    errors := [];
    if !ParametersOk(env, s.action, s.parameters) { errors := errors + [InvalidParameters(s.position)]; }
    if s.resource != target.resource { errors := errors + [StepResource(s.position)]; }
    if !Repeats(s.parameters, "container_id", target.container) { errors := errors + [ForgedContainer(s.position)]; }
    if !Repeats(s.parameters, "service_name", target.service) { errors := errors + [ForeignService(s.position)]; }
  }

  /** The sequence checks on the lists the loop collected. */
  method CheckOrder(steps: seq<Step>, mutating: seq<Step>) returns (errors: seq<Error>)
    requires mutating == WithAction(steps, RESTART)
    ensures errors == [] <==> OrderOk(steps)
  {
    errors := [];
    var inspections, waits := WithAction(steps, INSPECT), WithAction(steps, WAIT);
    if |mutating| > 1 { errors := errors + [MultipleMutations]; }
    if mutating != [] {
      var restart := mutating[0].position;
      if inspections == [] || exists s :: s in inspections && s.position >= restart {
        errors := errors + [NotPrecededByInspection];
      }
      if waits == [] || exists s :: s in waits && s.position <= restart {
        errors := errors + [NotFollowedByWait];
      }
    }
    OrderDecided(steps);
    if mutating != [] {
      FramedDecided(steps, mutating[0].position);
    }
  }

  function Positions(steps: seq<Step>, n: nat): set<int>
    requires n <= |steps|
  {
    set j | 0 <= j < n :: steps[j].position
  }

  /** The first n steps raise no complaint. */
  ghost predicate CleanUpTo(env: Env, plan: Plan, n: nat)
    requires n <= |plan.steps|
  {
    n > 0 ==>
      && CleanUpTo(env, plan, n - 1) && StepOk(env, plan.steps[n - 1], plan.target)
      && plan.steps[n - 1].position !in Positions(plan.steps, n - 1)
  }

  ghost predicate StepsOk(env: Env, plan: Plan, n: nat)
    requires n <= |plan.steps|
  {
    forall i :: 0 <= i < n ==> StepOk(env, plan.steps[i], plan.target)
  }

  ghost predicate Apart(steps: seq<Step>, n: nat)
    requires n <= |steps|
  {
    forall i, j :: 0 <= i < j < n ==> steps[i].position != steps[j].position
  }

  lemma ApartStep(steps: seq<Step>, n: nat)
    requires 0 < n <= |steps|
    ensures Apart(steps, n) <==> Apart(steps, n - 1) && steps[n - 1].position !in Positions(steps, n - 1)
  {
    assert forall i :: 0 <= i < n - 1 ==> steps[i].position in Positions(steps, n - 1);
  }

  lemma StepsOkStep(env: Env, plan: Plan, n: nat)
    requires 0 < n <= |plan.steps|
    ensures StepsOk(env, plan, n) <==> StepsOk(env, plan, n - 1) && StepOk(env, plan.steps[n - 1], plan.target)
  {
  }

  lemma {:induction false} CleanMeans(env: Env, plan: Plan, n: nat)
    requires n <= |plan.steps|
    ensures CleanUpTo(env, plan, n) <==> StepsOk(env, plan, n) && Apart(plan.steps, n)
  {
    if n > 0 {
      CleanMeans(env, plan, n - 1);
      ApartStep(plan.steps, n);
      StepsOkStep(env, plan, n);
    }
  }

  /** The loop over the steps: their complaints, and the mutating ones among them. */
  method CheckSteps(env: Env, plan: Plan) returns (errors: seq<Error>, mutating: seq<Step>)
    ensures errors == [] <==> CleanUpTo(env, plan, |plan.steps|)
    ensures mutating == WithAction(plan.steps, RESTART)
  {
    var steps := plan.steps;
    var seen: set<int> := {};
    errors, mutating := [], [];
    var i := 0;
    while i < |steps|
      invariant 0 <= i <= |steps|
      invariant mutating == WithAction(steps[..i], RESTART)
      invariant seen == Positions(steps, i)
      invariant errors == [] <==> CleanUpTo(env, plan, i)
    {
      var s := steps[i];
      assert steps[..i + 1][..i] == steps[..i];
      if s.position in seen { errors := errors + [DuplicatePosition(s.position)]; }
      seen := seen + {s.position};
      var found := CheckStep(env, s, plan.target);
      errors := errors + found;
      if Mutates(s.action) { mutating := mutating + [s]; }
      i := i + 1;
    }
    assert steps[..i] == steps;
  }

  lemma AcceptableMeans(env: Env, plan: Plan, expected: Option<Target>, verifyHash: bool)
    ensures Acceptable(env, plan, expected, verifyHash) <==>
            && TargetOk(plan.target, expected) && CleanUpTo(env, plan, |plan.steps|) && OrderOk(plan.steps)
            && (verifyHash ==> plan.hash == ContentHash(env.sha, plan))
  {
    CleanMeans(env, plan, |plan.steps|);
  }

  /** `PlanValidator.validate`: the error list is empty exactly for acceptable plans. */
  method Validate(env: Env, plan: Plan, expected: Option<Target>, verifyHash: bool) returns (errors: seq<Error>)
    ensures errors == [] <==> Acceptable(env, plan, expected, verifyHash)
  {
    errors := CheckTarget(plan.target, expected);
    var found, mutating := CheckSteps(env, plan);
    var order := CheckOrder(plan.steps, mutating);
    errors := errors + found + order;
    if verifyHash && errors == [] {
      if plan.hash != ContentHash(env.sha, plan) { errors := errors + [HashMismatch]; }
    }
    AcceptableMeans(env, plan, expected, verifyHash);
  }

  lemma {:induction false} WithActionMeans(steps: seq<Step>, action: string)
    ensures forall s :: s in WithAction(steps, action) <==> s in steps && s.action == action
    decreases |steps|
  {
    if steps != [] {
      var front, last := steps[..|steps| - 1], steps[|steps| - 1];
      WithActionMeans(front, action);
      assert steps == front + [last];
    }
  }

  ghost predicate AtMostOneStep(steps: seq<Step>, action: string) {
    forall i, j :: 0 <= i < |steps| && 0 <= j < |steps| && steps[i].action == action && steps[j].action == action ==> i == j
  }

  lemma AtMostOneSame(front: seq<Step>, last: Step, action: string)
    requires last.action != action
    ensures AtMostOneStep(front + [last], action) <==> AtMostOneStep(front, action)
  {
    var steps := front + [last];
    if AtMostOneStep(steps, action) {
      forall i, j | 0 <= i < |front| && 0 <= j < |front| && front[i].action == action && front[j].action == action ensures i == j {
        assert steps[i].action == action && steps[j].action == action;
      }
    }
  }

  lemma AtMostOneNew(front: seq<Step>, last: Step, action: string)
    requires last.action == action
    ensures AtMostOneStep(front + [last], action) <==> forall s :: s in front ==> s.action != action
  {
    var steps := front + [last];
    if AtMostOneStep(steps, action) {
      forall s | s in front ensures s.action != action {
        var i :| 0 <= i < |front| && front[i] == s;
        assert steps[i] == s && steps[|front|].action == action;
      }
    } else {
      var i, j :| 0 <= i < |steps| && 0 <= j < |steps| && steps[i].action == action && steps[j].action == action && i < j;
      assert front[i] in front;
    }
  }

  lemma {:induction false} CountedOnce(steps: seq<Step>, action: string)
    ensures |WithAction(steps, action)| <= 1 <==> AtMostOneStep(steps, action)
    decreases |steps|
  {
    if steps != [] {
      var front, last := steps[..|steps| - 1], steps[|steps| - 1];
      CountedOnce(front, action);
      assert steps == front + [last];
      if last.action == action {
        AtMostOneNew(front, last, action);
        WithActionMeans(front, action);
        if WithAction(front, action) != [] {
          assert WithAction(front, action)[0] in front;
        }
      } else {
        AtMostOneSame(front, last, action);
      }
    }
  }

  /** Inspections and stabilisation waits exist, before and after the restart's position. */
  ghost predicate Framed(steps: seq<Step>, restart: int) {
    && (exists s :: s in steps && s.action == INSPECT) && (exists s :: s in steps && s.action == WAIT)
    && (forall s :: s in steps && s.action == INSPECT ==> s.position < restart)
    && (forall s :: s in steps && s.action == WAIT ==> s.position > restart)
  }

  lemma FramedDecided(steps: seq<Step>, restart: int)
    ensures Framed(steps, restart) <==>
            && WithAction(steps, INSPECT) != [] && (forall s :: s in WithAction(steps, INSPECT) ==> s.position < restart)
            && WithAction(steps, WAIT) != [] && (forall s :: s in WithAction(steps, WAIT) ==> s.position > restart)
  {
    WithActionMeans(steps, INSPECT);
    WithActionMeans(steps, WAIT);
    assert WithAction(steps, INSPECT) != [] ==> WithAction(steps, INSPECT)[0] in steps;
    assert WithAction(steps, WAIT) != [] ==> WithAction(steps, WAIT)[0] in steps;
  }

  lemma OrderDecided(steps: seq<Step>)
    ensures var m := WithAction(steps, RESTART);
            OrderOk(steps) <==> (m != [] ==> |m| <= 1 && Framed(steps, m[0].position))
  {
    var m := WithAction(steps, RESTART);
    CountedOnce(steps, RESTART);
    WithActionMeans(steps, RESTART);
    if m == [] {
      forall i | 0 <= i < |steps| ensures !Mutates(steps[i].action) {
        assert steps[i] in steps;
      }
    } else {
      assert m[0] in m;
      var k :| 0 <= k < |steps| && steps[k] == m[0];
    }
  }

  /** A step of the canonical order is a step of the plan. */
  lemma OriginOf(steps: seq<Step>, i: nat) returns (k: nat)
    requires i < |Sort(HashedSteps(steps))|
    ensures k < |steps| && Hashed(steps[k]) == Sort(HashedSteps(steps))[i]
  {
    var run := Sort(HashedSteps(steps));
    SortMeans(HashedSteps(steps));
    assert run[i] in multiset(run);
    assert run[i] in HashedSteps(steps);
    k :| 0 <= k < |steps| && HashedSteps(steps)[k] == run[i];
  }

  lemma PlaceOf(steps: seq<Step>, s: Step) returns (i: nat)
    requires s in steps
    ensures i < |Sort(HashedSteps(steps))| && Sort(HashedSteps(steps))[i] == Hashed(s)
  {
    var run := Sort(HashedSteps(steps));
    SortMeans(HashedSteps(steps));
    var k :| 0 <= k < |steps| && steps[k] == s;
    assert HashedSteps(steps)[k] in multiset(run);
    i :| 0 <= i < |run| && run[i] == Hashed(s);
  }

  /** In canonical order, index i stands where it should relative to the restart at index r. */
  ghost predicate WellPlaced(run: seq<HashedStep>, r: nat, i: nat)
    requires r < |run| && i < |run|
  {
    && (run[i].action == INSPECT ==> i < r)
    && (run[i].action == WAIT ==> r < i)
    && (run[i].action == RESTART ==> i == r)
  }

  lemma PlacedBy(steps: seq<Step>, r: nat, i: nat)
    requires OrderOk(steps) && DistinctPositions(HashedSteps(steps))
    requires r < |Sort(HashedSteps(steps))| && i < |Sort(HashedSteps(steps))|
    requires Sort(HashedSteps(steps))[r].action == RESTART
    ensures WellPlaced(Sort(HashedSteps(steps)), r, i)
  {
    var run := Sort(HashedSteps(steps));
    SortMeans(HashedSteps(steps));
    var m := OriginOf(steps, r);
    var k := OriginOf(steps, i);
    assert Mutates(steps[m].action);
    assert steps[k] in steps;
  }

  /** Carried out in canonical order, an accepted plan inspects before its one restart and waits after it. */
  lemma AcceptedRunsInOrder(env: Env, plan: Plan, expected: Option<Target>, verifyHash: bool, r: nat)
    requires Acceptable(env, plan, expected, verifyHash)
    requires r < |Sort(HashedSteps(plan.steps))| && Sort(HashedSteps(plan.steps))[r].action == RESTART
    ensures var run := Sort(HashedSteps(plan.steps));
            && (forall i :: 0 <= i < |run| ==> WellPlaced(run, r, i))
            && (exists i :: 0 <= i < |run| && run[i].action == INSPECT)
            && (exists i :: 0 <= i < |run| && run[i].action == WAIT)
  {
    var steps := plan.steps;
    var run := Sort(HashedSteps(steps));
    forall i | 0 <= i < |run| ensures WellPlaced(run, r, i) {
      PlacedBy(steps, r, i);
    }
    var m := OriginOf(steps, r);
    assert Mutates(steps[m].action) && Framed(steps, steps[m].position);
    var inspection :| inspection in steps && inspection.action == INSPECT;
    var wait :| wait in steps && wait.action == WAIT;
    var i := PlaceOf(steps, inspection);
    var j := PlaceOf(steps, wait);
  }

  // ---------------------------------------------------------------- what an accepted plan touches

  /** 12 to 64 hexadecimal digits. */
  predicate HexText(v: Value) {
    v.Text? && 12 <= |v.text| <= 64 && forall i :: 0 <= i < |v.text| ==> v.text[i] in "0123456789abcdefABCDEF"
  }

  lemma HexTextIff(s: string)
    ensures HexText(Text(s)) <==> ContainerId(s)
  {
    forall c: char ensures c in "0123456789abcdefABCDEF" <==> HexDigit(c) {
      HexDigits(c);
    }
  }

  lemma HexDigits(c: char)
    ensures c in "0123456789abcdefABCDEF" <==> HexDigit(c)
  {
    var all := "0123456789abcdefABCDEF";
    if '0' <= c <= '9' {
      assert all[c as int - '0' as int] == c;
    } else if 'a' <= c <= 'f' {
      assert all[10 + c as int - 'a' as int] == c;
    } else if 'A' <= c <= 'F' {
      assert all[16 + c as int - 'A' as int] == c;
    }
  }

  /** The parameters of the actions on the container, field by field. */
  lemma ParameterTable(env: Env, p: Params)
    ensures ParametersOk(env, "inspect_container", p) <==>
            && p.Keys <= {"container_id", "resource_id", "binding_generation"} && {"container_id", "resource_id"} <= p.Keys
            && HexText(p["container_id"]) && p["resource_id"].Ident?
            && ("binding_generation" in p ==> p["binding_generation"].Number? && 1 <= p["binding_generation"].number)
    ensures ParametersOk(env, "restart_container", p) <==>
            && p.Keys <= {"container_id", "resource_id", "binding_generation", "service_name", "timeout_seconds"}
            && {"container_id", "resource_id"} <= p.Keys && HexText(p["container_id"]) && p["resource_id"].Ident?
            && ("binding_generation" in p ==> p["binding_generation"].Number? && 1 <= p["binding_generation"].number)
            && ("service_name" in p ==> p["service_name"] == Text("demo-api") && env.safe("demo-api"))
            && ("timeout_seconds" in p ==> p["timeout_seconds"].Number? && 1 <= p["timeout_seconds"].number <= 120)
    ensures ParametersOk(env, "wait_for_stabilization", p) <==>
            && p.Keys <= {"resource_id", "duration_seconds", "verification_profile"} && "resource_id" in p && p["resource_id"].Ident?
            && ("duration_seconds" in p ==> p["duration_seconds"].Number? && 1 <= p["duration_seconds"].number <= 300)
            && ("verification_profile" in p ==>
                  p["verification_profile"].Text? && |p["verification_profile"].text| <= 64 && env.safe(p["verification_profile"].text))
  {
    if "container_id" in p && p["container_id"].Text? {
      HexTextIff(p["container_id"].text);
    }
  }

  /** An accepted plan is for the allowlisted service and the expected target, and names no other container, service or resource
      in any of its steps. */
  lemma AcceptedStaysOnTarget(env: Env, plan: Plan, expected: Option<Target>, verifyHash: bool, i: nat)
    requires Acceptable(env, plan, expected, verifyHash) && i < |plan.steps|
    ensures var s := plan.steps[i]; var t := plan.target;
            && t.service == "demo-api" && (expected.Some? ==> t == expected.value)
            && s.resource == t.resource
            && s.action in {"inspect_container", "restart_container", "wait_for_stabilization", "notify_operator", "open_incident_ticket"}
            && ("container_id" in s.parameters ==> s.parameters["container_id"] == Text(t.container))
            && ("service_name" in s.parameters ==> s.parameters["service_name"] == Text("demo-api"))
            && (s.action in {"inspect_container", "restart_container"} ==> "container_id" in s.parameters && HexText(s.parameters["container_id"]))
  {
    var s := plan.steps[i];
    assert StepOk(env, s, plan.target);
    if "container_id" in s.parameters {
      ContainerIsGiven(env, s);
      HexTextIff(s.parameters["container_id"].text);
    }
  }

  lemma ContainerIsGiven(env: Env, s: Step)
    requires ParametersOk(env, s.action, s.parameters) && "container_id" in s.parameters
    ensures s.action in {INSPECT, RESTART} && ContainerOk(s.parameters)
  {
  }

  /** Tampering is refused: two plans that carry one content hash are both accepted, hash check included, only if they agree on
      everything hashed but the order of their steps. */
  lemma TamperedIsRefused(env: Env, p: Plan, q: Plan, forP: Option<Target>, forQ: Option<Target>)
    requires Injective(env.sha) && p.hash == q.hash
    requires Acceptable(env, p, forP, true) && Acceptable(env, q, forQ, true)
    ensures SameHeader(p, q) && multiset(HashedSteps(p.steps)) == multiset(HashedSteps(q.steps))
  {
    HashDetectsTampering(env.sha, p, q);
  }

  // ---------------------------------------------------------------- the planner

  const RESTART_CAUSES := {"CONTAINER_STOPPED", "CPU_SATURATION", "API_UNRESPONSIVE"}

  /** The TargetBinding schema. */
  predicate BindingOk(t: Target) {
    ContainerId(t.container) && 1 <= |t.service| <= 128 && t.generation >= 1
  }

  function InspectStep(id: Uuid, plan: Uuid, t: Target): Step {
    Step(id, plan, t.resource, 0, INSPECT, "1.0",
         map["container_id" := Text(t.container), "resource_id" := Ident(t.resource),
             "binding_generation" := Number(t.generation)], map[])
  }

  function RestartStep(id: Uuid, plan: Uuid, t: Target): Step {
    Step(id, plan, t.resource, 1, RESTART, "1.0",
         map["container_id" := Text(t.container), "resource_id" := Ident(t.resource), "service_name" := Text(t.service),
             "timeout_seconds" := Number(30), "binding_generation" := Number(t.generation)],
         map["profile" := Text(PROFILE)])
  }

  function WaitStep(id: Uuid, plan: Uuid, t: Target): Step {
    Step(id, plan, t.resource, 2, WAIT, "1.0",
         map["resource_id" := Ident(t.resource), "duration_seconds" := Number(90), "verification_profile" := Text(PROFILE)],
         map["profile" := Text(PROFILE)])
  }

  function Reason(cause: string): string { "Escalation required for unhandled cause: " + cause }
  function Message(cause: string): string {
    "Autonomous remediation unavailable for root cause '" + cause + "'. Manual operator intervention is required."
  }
  function Title(cause: string): string { "Escalated Incident: " + cause }
  function Summary(env: Env, incident: Uuid, cause: string): string {
    "Incident " + env.uuidText(incident) + " escalated due to unsupported root cause " + cause + "."
  }
  function EscalationReason(cause: string): string { "Root cause '" + cause + "' requires manual operator resolution." }

  function NotifyStep(id: Uuid, plan: Uuid, incident: Uuid, cause: string, t: Target): Step {
    Step(id, plan, t.resource, 0, NOTIFY, "1.0",
         map["incident_id" := Ident(incident), "reason" := Text(Reason(cause)), "severity" := Text("HIGH"),
             "message" := Text(Message(cause))], map[])
  }

  function TicketStep(env: Env, id: Uuid, plan: Uuid, incident: Uuid, cause: string, t: Target): Step {
    Step(id, plan, t.resource, 1, TICKET, "1.0",
         map["incident_id" := Ident(incident), "title" := Text(Title(cause)), "summary" := Text(Summary(env, incident, cause)),
             "root_cause" := Text(cause), "escalation_reason" := Text(EscalationReason(cause))], map[])
  }

  /** The fresh identifiers of a plan and its steps. */
  datatype Ids = Ids(plan: Uuid, first: Uuid, second: Uuid, third: Uuid)

  function DraftSteps(env: Env, ids: Ids, incident: Uuid, cause: string, t: Target): seq<Step> {
    if cause in RESTART_CAUSES
    then [InspectStep(ids.first, ids.plan, t), RestartStep(ids.second, ids.plan, t), WaitStep(ids.third, ids.plan, t)]
    else [NotifyStep(ids.first, ids.plan, incident, cause, t), TicketStep(env, ids.second, ids.plan, incident, cause, t)]
  }

  /** `create_plan` up to its closing validation. */
  function DraftPlan(env: Env, ids: Ids, incident: Uuid, diagnosis: Uuid, cause: string, t: Target, version: int): Plan {
    var draft := Plan(ids.plan, incident, diagnosis, version, "LOW", t, DraftSteps(env, ids, incident, cause, t),
                      if cause in RESTART_CAUSES then Some(PROFILE) else None, "", false);
    draft.(hash := ContentHash(env.sha, draft))
  }

  /** The texts the escalation plan carries pass the shell filter and the length limits. */
  predicate TextsOk(env: Env, incident: Uuid, cause: string) {
    && 1 <= |cause| <= 128 && |env.uuidText(incident)| == 36 && env.safe(cause) && env.safe(Reason(cause))
    && env.safe(Message(cause)) && env.safe(Title(cause)) && env.safe(Summary(env, incident, cause))
    && env.safe(EscalationReason(cause))
  }

  lemma InspectStepOk(env: Env, id: Uuid, plan: Uuid, t: Target)
    requires BindingOk(t)
    ensures StepOk(env, InspectStep(id, plan, t), t)
  {
  }

  lemma RestartStepOk(env: Env, id: Uuid, plan: Uuid, t: Target)
    requires BindingOk(t) && t.service == "demo-api" && env.safe("demo-api")
    ensures StepOk(env, RestartStep(id, plan, t), t)
  {
  }

  lemma WaitStepOk(env: Env, id: Uuid, plan: Uuid, t: Target)
    requires env.safe(PROFILE)
    ensures StepOk(env, WaitStep(id, plan, t), t)
  {
  }

  lemma NotifyStepOk(env: Env, id: Uuid, plan: Uuid, incident: Uuid, cause: string, t: Target)
    requires TextsOk(env, incident, cause)
    ensures StepOk(env, NotifyStep(id, plan, incident, cause, t), t)
  {
  }

  lemma TicketStepOk(env: Env, id: Uuid, plan: Uuid, incident: Uuid, cause: string, t: Target)
    requires TextsOk(env, incident, cause)
    ensures StepOk(env, TicketStep(env, id, plan, incident, cause, t), t)
  {
  }

  lemma DraftStepsOk(env: Env, plan: Plan, ids: Ids, incident: Uuid, cause: string, t: Target)
    requires plan.steps == DraftSteps(env, ids, incident, cause, t) && plan.target == t
    requires BindingOk(t) && t.service == "demo-api" && env.safe("demo-api") && env.safe(PROFILE)
    requires cause !in RESTART_CAUSES ==> TextsOk(env, incident, cause)
    ensures StepsOk(env, plan, |plan.steps|)
  {
    forall i | 0 <= i < |plan.steps| ensures StepOk(env, plan.steps[i], plan.target) {
      if cause in RESTART_CAUSES {
        InspectStepOk(env, ids.first, ids.plan, t);
        RestartStepOk(env, ids.second, ids.plan, t);
        WaitStepOk(env, ids.third, ids.plan, t);
      } else {
        NotifyStepOk(env, ids.first, ids.plan, incident, cause, t);
        TicketStepOk(env, ids.second, ids.plan, incident, cause, t);
      }
    }
  }

  lemma DraftOrderOk(env: Env, ids: Ids, incident: Uuid, cause: string, t: Target)
    ensures var steps := DraftSteps(env, ids, incident, cause, t);
            OrderOk(steps) && Apart(steps, |steps|)
  {
    var steps := DraftSteps(env, ids, incident, cause, t);
    if cause in RESTART_CAUSES {
      assert steps[0] in steps && steps[2] in steps;
      assert Framed(steps, 1);
    }
  }

  lemma DraftHashed(env: Env, ids: Ids, incident: Uuid, diagnosis: Uuid, cause: string, t: Target, version: int)
    ensures var plan := DraftPlan(env, ids, incident, diagnosis, cause, t, version);
            plan.hash == ContentHash(env.sha, plan) && plan.steps == DraftSteps(env, ids, incident, cause, t) && plan.target == t
  {
    var plan := DraftPlan(env, ids, incident, diagnosis, cause, t, version);
    assert CanonicalForm(plan) == CanonicalForm(plan.(hash := ""));
  }

  lemma DraftMutates(env: Env, ids: Ids, incident: Uuid, cause: string, t: Target)
    ensures (exists s :: s in DraftSteps(env, ids, incident, cause, t) && Mutates(s.action)) <==> cause in RESTART_CAUSES
  {
    var steps := DraftSteps(env, ids, incident, cause, t);
    assert cause in RESTART_CAUSES ==> steps[1] in steps;
  }

  /** Every plan the planner drafts for a well-formed binding passes its closing validation exactly when the service is
      the allowlisted one, and it restarts something exactly for the restart causes. */
  lemma PlannerIsAccepted(env: Env, ids: Ids, incident: Uuid, diagnosis: Uuid, cause: string, t: Target, version: int)
    requires BindingOk(t) && env.safe("demo-api") && env.safe(PROFILE)
    requires cause !in RESTART_CAUSES ==> TextsOk(env, incident, cause)
    ensures var plan := DraftPlan(env, ids, incident, diagnosis, cause, t, version);
            && (Acceptable(env, plan, Some(t), true) <==> t.service == "demo-api")
            && ((exists s :: s in plan.steps && Mutates(s.action)) <==> cause in RESTART_CAUSES)
  {
    var plan := DraftPlan(env, ids, incident, diagnosis, cause, t, version);
    DraftHashed(env, ids, incident, diagnosis, cause, t, version);
    DraftMutates(env, ids, incident, cause, t);
    DraftOrderOk(env, ids, incident, cause, t);
    if t.service == "demo-api" {
      DraftStepsOk(env, plan, ids, incident, cause, t);
    }
  }

  /** What the planner drafts for a restart cause, literally: inspect, restart within 30 seconds, wait 90 seconds, all on the bound
      container, at low risk and not approved. */
  lemma RestartPlanContents(env: Env, ids: Ids, incident: Uuid, diagnosis: Uuid, cause: string, t: Target, version: int)
    requires cause == "CONTAINER_STOPPED" || cause == "CPU_SATURATION" || cause == "API_UNRESPONSIVE"
    ensures var plan := DraftPlan(env, ids, incident, diagnosis, cause, t, version);
            && plan == Plan(ids.plan, incident, diagnosis, version, "LOW", t, plan.steps, Some("m1_default_restart_profile"), plan.hash, false)
            && |plan.steps| == 3
            && (forall i :: 0 <= i < 3 ==> plan.steps[i].position == i && plan.steps[i].schema == "1.0" && plan.steps[i].plan == ids.plan)
            && plan.steps[0].action == "inspect_container" && plan.steps[1].action == "restart_container"
            && plan.steps[2].action == "wait_for_stabilization"
            && plan.steps[0].parameters == map["container_id" := Text(t.container), "resource_id" := Ident(t.resource),
                                               "binding_generation" := Number(t.generation)]
            && plan.steps[1].parameters == map["container_id" := Text(t.container), "resource_id" := Ident(t.resource),
                                               "service_name" := Text(t.service), "timeout_seconds" := Number(30),
                                               "binding_generation" := Number(t.generation)]
            && plan.steps[2].parameters == map["resource_id" := Ident(t.resource), "duration_seconds" := Number(90),
                                               "verification_profile" := Text("m1_default_restart_profile")]
  {
  }

  /** For every other cause: notify the operator, then open a ticket, and nothing else. */
  lemma EscalationPlanContents(env: Env, ids: Ids, incident: Uuid, diagnosis: Uuid, cause: string, t: Target, version: int)
    requires cause != "CONTAINER_STOPPED" && cause != "CPU_SATURATION" && cause != "API_UNRESPONSIVE"
    ensures var plan := DraftPlan(env, ids, incident, diagnosis, cause, t, version);
            && plan == Plan(ids.plan, incident, diagnosis, version, "LOW", t, plan.steps, None, plan.hash, false)
            && |plan.steps| == 2
            && plan.steps[0].action == "notify_operator" && plan.steps[0].position == 0
            && plan.steps[1].action == "open_incident_ticket" && plan.steps[1].position == 1
            && "severity" in plan.steps[0].parameters && plan.steps[0].parameters["severity"] == Text("HIGH")
            && "root_cause" in plan.steps[1].parameters && plan.steps[1].parameters["root_cause"] == Text(cause)
  {
  }
}
