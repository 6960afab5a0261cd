/** Runs of the execution protocol built step by step: the bounds are attained, and what is not guaranteed does happen. */
module ExecutionRuns {
  import opened Prelude
  import opened ExecutionProtocol
  import opened ExecutionTheorems
  import L = ResourceLocks
  import I = IncidentLifecycle
  import S = ExecutionSuccess

  /** A run given action by action, latest last. */
  datatype Path = Start(world: World) | Then(path: Path, action: Action)

  function Origin(p: Path): World {
    match p
    case Start(w) => w
    case Then(q, _) => Origin(q)
  }

  function End(p: Path): World {
    match p
    case Start(w) => w
    case Then(q, a) => Apply(End(q), a)
  }

  function Actions(p: Path): seq<Action> {
    match p
    case Start(_) => []
    case Then(q, a) => Actions(q) + [a]
  }

  /** The entries into EXECUTING along a path. */
  function Entered(p: Path, inc: IncidentId): nat {
    match p
    case Start(_) => 0
    case Then(q, _) => Entered(q, inc) + if InState(End(p), inc, I.Executing) && !InState(End(q), inc, I.Executing) then 1 else 0
  }

  /** No step of the path clears a quarantine. */
  predicate ClearsNothing(p: Path) {
    p.Then? ==> ClearsNothing(p.path) && !(p.action.LockAction? && p.action.op.Clear?)
  }

  /** No step of the path moves an incident to PLANNED except `plan_node`, with the plan it commits. */
  predicate PlansByPlanning(p: Path) {
    p.Then? ==> PlansByPlanning(p.path) && !(p.action.MoveIncident? && p.action.target == I.Planned)
  }

  lemma {:induction false} PlaySnoc(w: World, actions: seq<Action>, a: Action, inc: IncidentId)
    ensures Play(w, actions + [a]) == Apply(Play(w, actions), a)
    ensures var before := Play(w, actions); var after := Apply(before, a);
            Entries(w, actions + [a], inc)
            == Entries(w, actions, inc) + if InState(after, inc, I.Executing) && !InState(before, inc, I.Executing) then 1 else 0
    decreases |actions|
  {
    if actions == [] {
      assert actions + [a] == [a] && [a][1..] == [];
    } else {
      assert (actions + [a])[1..] == actions[1..] + [a];
      PlaySnoc(Apply(w, actions[0]), actions[1..], a, inc);
    }
  }

  lemma {:induction false} PathIsRun(p: Path, inc: IncidentId)
    ensures End(p) == Play(Origin(p), Actions(p))
    ensures Entered(p, inc) == Entries(Origin(p), Actions(p), inc)
    ensures ClearsNothing(p) ==> forall r :: LockAction(L.Clear(r)) !in Actions(p)
    ensures PlansByPlanning(p) ==> OwnTransitions(Actions(p))
  {
    if p.Then? {
      PathIsRun(p.path, inc);
      PlaySnoc(Origin(p), Actions(p.path), p.action, inc);
    }
  }

  /** q goes on from p, clearing no quarantine, leaving PLANNED to planning, and entering EXECUTING for `inc` this many times more. */
  ghost predicate Extends(q: Path, p: Path, inc: IncidentId, entries: nat) {
    && Origin(q) == Origin(p) && Entered(q, inc) == Entered(p, inc) + entries
    && (ClearsNothing(p) ==> ClearsNothing(q)) && (PlansByPlanning(p) ==> PlansByPlanning(q))
  }

  // ---------------------------------------------------------------- steps

  function Row(state: I.State, version: int, attempts: nat, limit: nat): I.Incident {
    I.Incident("k", state, version, attempts, limit, false)
  }

  /** The incident's row and its committed plan. */
  predicate Has(w: World, inc: IncidentId, row: I.Incident, plan: Plan) {
    inc in w.incidents && w.incidents[inc] == row && inc in w.plans && w.plans[inc] == plan
  }

  lemma Creating(p: Path, inc: IncidentId, limit: nat) returns (q: Path)
    requires inc !in End(p).incidents
    ensures End(q) == End(p).(incidents := End(p).incidents[inc := Row(I.Detected, 1, 0, limit)]) && Extends(q, p, inc, 0)
  {
    q := Then(p, CreateIncident(inc, "k", limit, false));
  }

  lemma Diagnosing(p: Path, inc: IncidentId, limit: nat) returns (q: Path)
    requires inc !in End(p).incidents
    ensures End(q) == End(p).(incidents := End(p).incidents[inc := Row(I.Diagnosed, 3, 0, limit)]) && Extends(q, p, inc, 0)
  {
    var before := End(p).incidents;
    var a := Creating(p, inc, limit);
    var b := Moving(a, inc, Row(I.Detected, 1, 0, limit), Row(I.Triaged, 2, 0, limit));
    q := Moving(b, inc, Row(I.Triaged, 2, 0, limit), Row(I.Diagnosed, 3, 0, limit));
    assert End(q).incidents == before[inc := Row(I.Diagnosed, 3, 0, limit)];
  }

  /** A fresh incident, planned by an idle worker. */
  lemma Planning(p: Path, inc: IncidentId, id: WorkerId, limit: nat, plan: Plan) returns (q: Path)
    requires inc !in End(p).incidents && inc !in End(p).plans && PcOf(End(p), id).Idle? && plan.version == 1
    ensures End(q) == End(p).(incidents := End(p).incidents[inc := Row(I.Planned, 4, 0, limit)], plans := End(p).plans[inc := plan],
                              workers := End(p).workers[id := Resumed(inc, 0, Some(plan))])
    ensures Extends(q, p, inc, 0)
  {
    var a := Diagnosing(p, inc, limit);
    var b := Then(a, Resume(id, inc, None));
    assert PcOf(End(a), id).Idle?;
    assert End(b) == Goto(End(a), id, Resumed(inc, 0, None));
    q := Then(b, CommitPlan(id, 3, plan.step, plan.resource, plan.container));
    assert End(b).incidents[inc := Row(I.Planned, 4, 0, limit)] == End(p).incidents[inc := Row(I.Planned, 4, 0, limit)];
    assert End(b).workers[id := Resumed(inc, 0, Some(plan))] == End(p).workers[id := Resumed(inc, 0, Some(plan))];
  }

  lemma Resuming(p: Path, inc: IncidentId, id: WorkerId, row: I.Incident, plan: Plan) returns (q: Path)
    requires Has(End(p), inc, row, plan) && PcOf(End(p), id).Idle? && !I.Terminal(row.state)
    ensures End(q) == Goto(End(p), id, Resumed(inc, row.attempts, Some(plan))) && Extends(q, p, inc, 0)
  {
    q := Then(p, Resume(id, inc, None));
  }

  function CallFor(n: nat, inc: IncidentId, plan: Plan, attempt: nat): Call {
    Call(n, "worker", Intent(Key(inc, plan.version, plan.step, attempt), plan.resource, plan.container))
  }

  /** `execute_node` leaves the row alone unless it is APPROVED or PLANNED. */
  lemma Beginning(p: Path, inc: IncidentId, id: WorkerId, row: I.Incident, plan: Plan) returns (q: Path)
    requires Has(End(p), inc, row, plan) && PcOf(End(p), id) == Resumed(inc, row.attempts, Some(plan))
    requires row.state != I.Approved && !row.approvalRequired
    ensures var w, v := End(p), End(q); var call := CallFor(w.nextCall, inc, plan, row.attempts + 1);
            v == w.(incidents := if row.state == I.Planned then w.incidents[inc := row.(state := I.Executing, version := row.version + 1)]
                                 else w.incidents,
                    nextCall := w.nextCall + 1, workers := w.workers[id := Calling(call)],
                    log := w.log + [Called(w.nextCall, call.intent.key)])
    ensures Extends(q, p, inc, if row.state == I.Planned then 1 else 0)
  {
    q := Then(p, Dispatch(id, "worker"));
  }

  /** A call for a key without a record gets as far as the committed RUNNING record when the lock is to be had. */
  lemma Admitted(p: Path, inc: IncidentId, id: WorkerId, call: Call) returns (q: Path)
    requires PcOf(End(p), id) == Calling(call) && call.intent.key !in End(p).executions && Belongs(End(p).plans, call.intent)
    requires L.AcquireLock(End(p).locks, call.actor, call.intent.resource, LOCK_SECONDS).1.Acquired?
    ensures var w, v := End(p), End(q);
            v == w.(locks := L.AcquireLock(w.locks, call.actor, call.intent.resource, LOCK_SECONDS).0,
                    executions := w.executions[call.intent.key := NewExecution(call.intent).(status := Running, version := 2)],
                    workers := w.workers[id := Dispatching(call, w.locks.nextToken, 2)])
    ensures Extends(q, p, inc, 0)
    ensures q.Then? && q.action == Admit(id, true) && BeginsDispatch(End(q.path), q.action, call.intent.resource)
  {
    var a := Then(p, EarlyCheck(id));
    assert End(a) == Goto(End(p), id, Admitting(call));
    q := Then(a, Admit(id, true));
    AdmitsNew(End(a), id, call);
    assert End(a).workers[id := Dispatching(call, End(p).locks.nextToken, 2)] == End(p).workers[id := Dispatching(call, End(p).locks.nextToken, 2)];
  }

  lemma AdmitsNew(w: World, id: WorkerId, call: Call)
    requires PcOf(w, id) == Admitting(call) && call.intent.key !in w.executions && Belongs(w.plans, call.intent)
    requires L.AcquireLock(w.locks, call.actor, call.intent.resource, LOCK_SECONDS).1.Acquired?
    ensures Apply(w, Admit(id, true))
            == w.(locks := L.AcquireLock(w.locks, call.actor, call.intent.resource, LOCK_SECONDS).0,
                  executions := w.executions[call.intent.key := NewExecution(call.intent).(status := Running, version := 2)],
                  workers := w.workers[id := Dispatching(call, w.locks.nextToken, 2)])
  {
    var k := call.intent.key;
    assert w.executions[k := NewExecution(call.intent)][k := NewExecution(call.intent).(status := Running, version := 2)]
           == w.executions[k := NewExecution(call.intent).(status := Running, version := 2)];
  }

  /** A call that finds its record RUNNING settles it from the state of the container. */
  lemma Recovered(p: Path, inc: IncidentId, id: WorkerId, call: Call, running: bool) returns (q: Path)
    requires PcOf(End(p), id) == Calling(call) && call.intent.key in End(p).executions
    requires var row := End(p).executions[call.intent.key]; row.status == Running && MatchesIntent(row, call.intent)
    ensures var w, v := End(p), End(q); var k := call.intent.key;
            v == w.(executions := w.executions[k := w.executions[k].(status := Observed(running).0, version := w.executions[k].version + 1)],
                    workers := w.workers[id := Finished(call, Observed(running).1)])
    ensures Extends(q, p, inc, 0)
    ensures q.Then? && q.action == Recover(id, running) && PcOf(End(q.path), id) == Recovering(call, End(p).executions[call.intent.key].version)
  {
    var a := Then(p, EarlyCheck(id));
    var version := End(p).executions[call.intent.key].version;
    assert End(a) == Goto(End(p), id, Recovering(call, version));
    q := Then(a, Recover(id, running));
    assert End(a).workers[id := Finished(call, Observed(running).1)] == End(p).workers[id := Finished(call, Observed(running).1)];
  }

  lemma Restarting(p: Path, inc: IncidentId, id: WorkerId, report: RestartReport) returns (q: Path)
    requires PcOf(End(p), id).Dispatching?
    ensures q == Then(p, Restart(id, report)) && Extends(q, p, inc, 0)
    ensures End(q) == DoRestart(End(p), id, PcOf(End(p), id), report)
  {
    q := Then(p, Restart(id, report));
  }

  lemma Returning(p: Path, inc: IncidentId, id: WorkerId, call: Call, verdict: Verdict) returns (q: Path)
    requires PcOf(End(p), id) == Finished(call, verdict)
    ensures End(q) == Log(Goto(End(p), id, Idle), Returned(call.id, call.intent.key, verdict)) && Extends(q, p, inc, 0)
  {
    q := Then(p, Return(id));
  }

  /** A transition of the incident by any other actor. */
  lemma Moving(p: Path, inc: IncidentId, row: I.Incident, next: I.Incident) returns (q: Path)
    requires inc in End(p).incidents && End(p).incidents[inc] == row && next.state !in {I.Executing, I.Planned}
    requires I.Transition(row, row.version, next.state) == I.Committed(next)
    ensures End(q) == End(p).(incidents := End(p).incidents[inc := next]) && Extends(q, p, inc, 0)
  {
    q := Then(p, MoveIncident(inc, row.version, next.state));
  }

  lemma Locking(p: Path, inc: IncidentId, op: L.LockOp) returns (q: Path)
    requires !op.Clear?
    ensures End(q) == End(p).(locks := L.Step(End(p).locks, op).0) && Extends(q, p, inc, 0)
  {
    q := Then(p, LockAction(op));
  }

  /** A clean restart settles the record and gives the lock back. */
  lemma Settling(p: Path, inc: IncidentId, id: WorkerId, call: Call, token: L.Token) returns (q: Path)
    requires PcOf(End(p), id) == Dispatched(call, token, 2, Clean) && call.intent.key in End(p).executions
    requires End(p).executions[call.intent.key].status == Running && End(p).executions[call.intent.key].version == 2
    requires call.intent.resource in End(p).locks.rows
    requires var row := End(p).locks.rows[call.intent.resource]; row.token == token && row.owner == call.actor && !row.quarantined
    ensures var w, v := End(p), End(q);
            v == w.(executions := w.executions[call.intent.key := w.executions[call.intent.key].(status := Succeeded, version := 3)],
                    locks := w.locks.(rows := w.locks.rows - {call.intent.resource}),
                    workers := w.workers[id := Finished(call, Success)])
    ensures Extends(q, p, inc, 0)
  {
    q := Then(p, Settle(id));
  }

  // ---------------------------------------------------------------- a database to start from

  const BLANK := World(L.LockDb(0, 0, map[], None), map[], map[], map[], map[], 0, [])
  const PLAN := Plan(1, 7, 3, "demo")

  // ---------------------------------------------------------------- answers without a restart

  /** One worker has committed RUNNING for the first attempt and has not issued its restart; a second one has called
      `execute` for the same key. */
  lemma TwoCallers() returns (p: Path)
    ensures Origin(p) == BLANK && ClearsNothing(p) && PlansByPlanning(p)
    ensures var w := End(p); var k := CallFor(0, 0, PLAN, 1).intent.key;
            && PcOf(w, 1) == Dispatching(CallFor(0, 0, PLAN, 1), 0, 2) && PcOf(w, 2) == Calling(CallFor(1, 0, PLAN, 1))
            && Has(w, 0, Row(I.Executing, 5, 0, 1), PLAN)
            && w.executions == map[k := NewExecution(CallFor(0, 0, PLAN, 1).intent).(status := Running, version := 2)]
            && w.locks == L.AcquireLock(BLANK.locks, "worker", 3, LOCK_SECONDS).0
            && w.log == [Called(0, k), Called(1, k)]
  {
    var a := Planning(Start(BLANK), 0, 1, 1, PLAN);
    var b := Beginning(a, 0, 1, Row(I.Planned, 4, 0, 1), PLAN);
    var c := Admitted(b, 0, 1, CallFor(0, 0, PLAN, 1));
    var d := Resuming(c, 0, 2, Row(I.Executing, 5, 0, 1), PLAN);
    p := Beginning(d, 0, 2, Row(I.Executing, 5, 0, 1), PLAN);
  }

  /** One worker has committed RUNNING for the first attempt and has not issued its restart. */
  lemma OneDispatcher() returns (p: Path)
    ensures Origin(p) == BLANK && PlansByPlanning(p)
    ensures var w := End(p); var call := CallFor(0, 0, PLAN, 1);
            && w.workers == map[1 := Dispatching(call, 0, 2)] && w.log == [Called(0, call.intent.key)]
            && w.executions == map[call.intent.key := NewExecution(call.intent).(status := Running, version := 2)]
            && w.locks == L.AcquireLock(BLANK.locks, "worker", 3, LOCK_SECONDS).0
  {
    var a := Planning(Start(BLANK), 0, 1, 1, PLAN);
    var b := Beginning(a, 0, 1, Row(I.Planned, 4, 0, 1), PLAN);
    p := Admitted(b, 0, 1, CallFor(0, 0, PLAN, 1));
    assert End(p).workers == map[1 := Dispatching(CallFor(0, 0, PLAN, 1), 0, 2)];
  }

  /** A success verdict does not prove that the restart has happened: the second worker may settle the record from what it
      sees of the container and return SUCCEEDED before the first one issues its restart. */
  lemma SuccessMayPrecedeRestart() returns (p: Path, k: Key)
    ensures Origin(p) == BLANK && End(p) == Play(BLANK, Actions(p)) && OwnTransitions(Actions(p))
    ensures End(p).log == [Called(0, k), Called(1, k), Returned(1, k, Success), RestartIssued(0, k)]
    ensures !S.BlindFree(BLANK, Actions(p), k) && !S.Honest(End(p).log, k)
  {
    k := CallFor(0, 0, PLAN, 1).intent.key;
    var a := TwoCallers();
    var b := Recovered(a, 0, 2, CallFor(1, 0, PLAN, 1), true);
    var c := Returning(b, 0, 2, CallFor(1, 0, PLAN, 1), Success);
    p := Restarting(c, 0, 1, Clean);
    PathIsRun(p, 0);
    assert End(p).log[..2] == [Called(0, k), Called(1, k)];
    if S.BlindFree(BLANK, Actions(p), k) {
      S.RestartPrecedesSuccess(BLANK, Actions(p), k);
    }
  }

  // ---------------------------------------------------------------- when an uncertain outcome blocks the resource

  lemma FreshNat(s: set<nat>) returns (n: nat)
    ensures n !in s
  {
    n := Above(s);
  }

  lemma {:induction false} Above(s: set<nat>) returns (n: nat)
    ensures forall x :: x in s ==> x < n
    decreases |s|
  {
    n := 0;
    if s != {} {
      var x :| x in s;
      var m := Above(s - {x});
      n := if m > x then m else x + 1;
      assert forall y :: y in s ==> y == x || y in s - {x};
    }
  }

  /** Time passes and the controls are released until the resource can be locked, unless it is quarantined. */
  lemma Unlocking(p: Path, r: L.Resource) returns (q: Path)
    requires !L.IsQuarantined(End(p).locks, r)
    ensures End(q) == End(p).(locks := End(q).locks)
    ensures forall actor :: L.AcquireLock(End(q).locks, actor, r, LOCK_SECONDS).1.Acquired?
    ensures Origin(q) == Origin(p) && (ClearsNothing(p) ==> ClearsNothing(q)) && (PlansByPlanning(p) ==> PlansByPlanning(q))
  {
    var locks := End(p).locks;
    var delta: nat := if r in locks.rows && locks.rows[r].expiresAt > locks.now then locks.rows[r].expiresAt - locks.now else 0;
    var a := Locking(p, 0, L.SetControl(L.Control(L.Automatic, {})));
    q := Locking(a, 0, L.Tick(delta));
  }

  /** A new incident on the resource gets as far as calling `execute`, by a worker not seen before. */
  lemma FreshCall(p: Path, r: L.Resource) returns (q: Path, inc: IncidentId, id: WorkerId, plan: Plan)
    requires Inv(End(p))
    ensures inc !in End(p).incidents && inc !in End(p).plans && id !in End(p).workers && plan == Plan(1, 0, r, "demo")
    ensures var w, v := End(p), End(q); var call := CallFor(w.nextCall, inc, plan, 1);
            && v.workers == w.workers[id := Calling(call)] && v.executions == w.executions && v.locks == w.locks
            && v.plans == w.plans[inc := plan] && v.log == w.log + [Called(w.nextCall, call.intent.key)]
            && call.intent.key !in v.executions
    ensures Origin(q) == Origin(p) && (ClearsNothing(p) ==> ClearsNothing(q)) && (PlansByPlanning(p) ==> PlansByPlanning(q))
  {
    var w := End(p);
    inc := FreshNat(w.incidents.Keys + w.plans.Keys);
    id := FreshNat(w.workers.Keys);
    plan := Plan(1, 0, r, "demo");
    var call := CallFor(w.nextCall, inc, plan, 1);
    assert RowOk(w, call.intent.key);
    var a := Planning(p, inc, id, 0, plan);
    q := Beginning(a, inc, id, Row(I.Planned, 4, 0, 0), plan);
    assert End(q).workers == w.workers[id := Calling(call)];
  }

  /** From every reachable state in which a resource is not quarantined, a new incident can begin a dispatch on it, while all
      other workers stay where they are. */
  lemma FreshDispatch(p: Path, r: L.Resource) returns (q: Path)
    requires Inv(End(p)) && !L.IsQuarantined(End(p).locks, r)
    ensures Origin(q) == Origin(p) && End(p).log <= End(q).log
    ensures (ClearsNothing(p) ==> ClearsNothing(q)) && (PlansByPlanning(p) ==> PlansByPlanning(q))
    ensures q.Then? && BeginsDispatch(End(q.path), q.action, r) && q.action.worker !in End(p).workers
    ensures forall x :: x in End(p).workers ==> PcOf(End(q), x) == PcOf(End(p), x)
  {
    var a, inc, id, plan := FreshCall(p, r);
    var b := Unlocking(a, r);
    q := Admitted(b, inc, id, CallFor(End(p).nextCall, inc, plan, 1));
    assert q.action.worker == id;
  }

  /** Step i of the run begins a dispatch on the resource. */
  predicate DispatchesAt(w: World, actions: seq<Action>, i: nat, r: L.Resource)
    requires i < |actions|
  {
    BeginsDispatch(Play(w, actions[..i]), actions[i], r)
  }

  /** No continuation without `clear_quarantine` begins a dispatch on the resource. */
  ghost predicate Blocked(w: World, r: L.Resource) {
    forall actions: seq<Action>, i: nat :: i < |actions| && LockAction(L.Clear(r)) !in actions ==> !DispatchesAt(w, actions, i, r)
  }

  /** In every reachable state a resource is blocked for dispatches exactly when it is quarantined. */
  lemma BlockedIffQuarantined(w: World, r: L.Resource)
    requires Inv(w)
    ensures Blocked(w, r) <==> L.IsQuarantined(w.locks, r)
  {
    if L.IsQuarantined(w.locks, r) {
      forall actions: seq<Action>, i: nat | i < |actions| && LockAction(L.Clear(r)) !in actions ensures !DispatchesAt(w, actions, i, r) {
        NoDispatchWhileQuarantined(w, actions, r);
      }
    } else {
      var q := FreshDispatch(Start(w), r);
      PathIsRun(q, 0);
      PathIsRun(q.path, 0);
      var actions := Actions(q);
      var i := |actions| - 1;
      assert actions[..i] == Actions(q.path) && actions[i] == q.action;
      assert DispatchesAt(w, actions, i, r);
    }
  }

  /** The exact condition: an UNCERTAIN outcome keeps every later dispatch off the resource, short of a clear, if and only if
      the worker that dispatched reports it, or an earlier quarantine is still in place when the early check recovers. */
  lemma UncertainBlocksIff(w: World, a: Action)
    requires Inv(w) && EndsUncertain(w, a)
    ensures var v := Apply(w, a); var r := PcOf(v, a.worker).call.intent.resource;
            Blocked(v, r) <==> a.Settle? || (a.Recover? && L.IsQuarantined(w.locks, r))
  {
    var v := Apply(w, a);
    UncertainQuarantine(w, a);
    StepKeepsInv(w, a);
    BlockedIffQuarantined(v, PcOf(v, a.worker).call.intent.resource);
  }

  /** The second caller recovers the record of a container that does not run and returns UNCERTAIN. */
  lemma UncertainReturned() returns (p: Path)
    ensures Origin(p) == BLANK && ClearsNothing(p) && PlansByPlanning(p) && Has(End(p), 0, Row(I.Executing, 5, 0, 1), PLAN)
    ensures var k := CallFor(0, 0, PLAN, 1).intent.key; End(p).log == [Called(0, k), Called(1, k), Returned(1, k, Uncertain)]
    ensures !L.IsQuarantined(End(p).locks, 3)
  {
    var a := TwoCallers();
    var b := Recovered(a, 0, 2, CallFor(1, 0, PLAN, 1), false);
    p := Returning(b, 0, 2, CallFor(1, 0, PLAN, 1), Uncertain);
  }

  /** Crash recovery reports UNCERTAIN, `execute_node` escalates the incident, and the resource is not quarantined. */
  lemma RecoveryUncertainWithoutQuarantine() returns (p: Path, k: Key)
    ensures Origin(p) == BLANK && End(p) == Play(BLANK, Actions(p)) && ClearsNothing(p) && PlansByPlanning(p)
    ensures End(p).log == [Called(0, k), Called(1, k), Returned(1, k, Uncertain)]
    ensures 0 in End(p).incidents && End(p).incidents[0].state == I.Escalated
    ensures !L.IsQuarantined(End(p).locks, 3)
  {
    k := CallFor(0, 0, PLAN, 1).intent.key;
    var a := UncertainReturned();
    var b := Moving(a, 0, Row(I.Executing, 5, 0, 1), Row(I.Failed, 6, 0, 1));
    p := Moving(b, 0, Row(I.Failed, 6, 0, 1), Row(I.Escalated, 7, 0, 1));
    PathIsRun(p, 0);
  }

  /** After such an UNCERTAIN answer the next incident on the resource begins its dispatch, with no clear in the run. */
  lemma DispatchAfterUncertainRecovery() returns (p: Path, k: Key)
    ensures Origin(p) == BLANK && End(p) == Play(BLANK, Actions(p)) && ClearsNothing(p) && OwnTransitions(Actions(p))
    ensures Returned(1, k, Uncertain) in End(p).log
    ensures p.Then? && BeginsDispatch(End(p.path), p.action, 3)
  {
    var a, key := RecoveryUncertainWithoutQuarantine();
    k := key;
    InitialInv(BLANK);
    PlayKeepsInv(BLANK, Actions(a));
    p := FreshDispatch(a, 3);
    assert End(p).log[2] == End(a).log[2];
    PathIsRun(p, 0);
  }

  // ---------------------------------------------------------------- clean restarts that are not recorded

  lemma SettlingNothing(p: Path, inc: IncidentId, id: WorkerId) returns (q: Path)
    requires PcOf(End(p), id).Dispatched? && PcOf(End(p), id).report.Clean?
    requires var pc := PcOf(End(p), id); var k := pc.call.intent.key; var r := pc.call.intent.resource;
             || (k in End(p).executions && End(p).executions[k].status != Running)
             || (r in End(p).locks.rows && End(p).locks.rows[r].token != pc.token)
    ensures q == Then(p, Settle(id)) && End(q) == Goto(End(p), id, Idle) && Extends(q, p, inc, 0)
  {
    q := Then(p, Settle(id));
    CleanSettles(End(p), id);
  }

  /** A restart that a recovery has already answered for: the worker's own settlement writes nothing and returns nothing. */
  lemma CleanRestartOvertaken() returns (p: Path, k: Key)
    ensures Origin(p) == BLANK && End(p) == Play(BLANK, Actions(p)) && OwnTransitions(Actions(p))
    ensures p.Then? && p.action == Settle(1) && PcOf(End(p.path), 1).Dispatched? && PcOf(End(p.path), 1).report.Clean?
    ensures End(p) == Goto(End(p.path), 1, Idle) && k in End(p).executions && End(p).executions[k].status == Succeeded
  {
    k := CallFor(0, 0, PLAN, 1).intent.key;
    var a := TwoCallers();
    var b := Recovered(a, 0, 2, CallFor(1, 0, PLAN, 1), true);
    var c := Restarting(b, 0, 1, Clean);
    p := SettlingNothing(c, 0, 1);
    PathIsRun(p, 0);
  }

  /** A restart whose lock expired into another actor's hands: the settlement is rolled back and the record stays RUNNING. */
  lemma CleanRestartUnrecorded() returns (p: Path, k: Key)
    ensures Origin(p) == BLANK && End(p) == Play(BLANK, Actions(p)) && OwnTransitions(Actions(p))
    ensures p.Then? && p.action == Settle(1) && PcOf(End(p.path), 1).Dispatched? && PcOf(End(p.path), 1).report.Clean?
    ensures End(p) == Goto(End(p.path), 1, Idle) && End(p).log == [Called(0, k), RestartIssued(0, k)]
    ensures k in End(p).executions && End(p).executions[k].status == Running
    ensures 3 in End(p).locks.rows && End(p).locks.rows[3].owner == "other"
  {
    k := CallFor(0, 0, PLAN, 1).intent.key;
    var a := OneDispatcher();
    var b := Restarting(a, 0, 1, Clean);
    var c := Locking(b, 0, L.Tick(LOCK_SECONDS * SECOND));
    var d := Locking(c, 0, L.Acquire("other", 3, LOCK_SECONDS));
    assert End(d).locks.rows[3].owner == "other" && End(d).locks.rows[3].token == 1;
    p := SettlingNothing(d, 0, 1);
    PathIsRun(p, 0);
  }

  // ---------------------------------------------------------------- restarts without a lock

  /** Two workers have been admitted to one resource; the first one's token no longer verifies, the second one's does. */
  lemma TwoDispatchers() returns (p: Path, other: WorkerId)
    ensures Origin(p) == BLANK && PlansByPlanning(p) && other != 1
    ensures PcOf(End(p), 1) == Dispatching(CallFor(0, 0, PLAN, 1), 0, 2) && !Live(End(p), PcOf(End(p), 1))
    ensures Live(End(p), PcOf(End(p), other)) && PcOf(End(p), other).call.intent.resource == 3
  {
    var a := OneDispatcher();
    PathIsRun(a, 0);
    InitialInv(BLANK);
    PlayKeepsInv(BLANK, Actions(a));
    p := FreshDispatch(a, 3);
    other := p.action.worker;
    AdmissionGrants(End(p.path), p.action, 3);
    PathIsRun(p, 0);
    OneLiveDispatcher(BLANK, Actions(p), 1, other);
  }

  /** A worker restarts the container with a token that no longer verifies while another one is live on the resource. */
  lemma StaleRestart() returns (p: Path, other: WorkerId)
    ensures Origin(p) == BLANK && End(p) == Play(BLANK, Actions(p)) && OwnTransitions(Actions(p))
    ensures p.Then? && p.action == Restart(1, Clean) && End(p).log == End(p.path).log + [RestartIssued(0, CallFor(0, 0, PLAN, 1).intent.key)]
    ensures var w := End(p.path);
            && PcOf(w, 1).Dispatching? && PcOf(w, 1).call.intent.resource == 3 && !Live(w, PcOf(w, 1))
            && other != 1 && Live(w, PcOf(w, other)) && PcOf(w, other).call.intent.resource == 3
  {
    var a, second := TwoDispatchers();
    other := second;
    p := Restarting(a, 0, 1, Clean);
    PathIsRun(p, 0);
  }

  /** A worker restarts the container although the resource was quarantined after its admission. */
  lemma RestartInQuarantine() returns (p: Path)
    ensures Origin(p) == BLANK && End(p) == Play(BLANK, Actions(p)) && OwnTransitions(Actions(p))
    ensures p.Then? && p.action == Restart(1, Clean) && End(p).log == End(p.path).log + [RestartIssued(0, CallFor(0, 0, PLAN, 1).intent.key)]
    ensures L.IsQuarantined(End(p.path).locks, 3) && PcOf(End(p.path), 1).call.intent.resource == 3
  {
    var a := OneDispatcher();
    var b := Locking(a, 0, L.Quarantine(3));
    p := Restarting(b, 0, 1, Clean);
    PathIsRun(p, 0);
  }
}
