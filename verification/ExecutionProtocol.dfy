/** The dispatch of a restart as a step system: workers that resume an incident, plan it, and run the Docker adapter's
    `execute`, interleaved at every transaction and every external call, and able to crash at any point.
    One `unit_of_work` block is one step; the restart itself is a step of its own. */
module ExecutionProtocol {
  import opened Prelude
  import L = ResourceLocks
  import I = IncidentLifecycle

  type IncidentId = nat
  type StepId = nat
  type WorkerId = nat
  type Container = string

  const LOCK_SECONDS: int := 120
  const RECONCILE_SLACK: int := 2 * SECOND

  /** A committed remediation plan and the step it dispatches. */
  datatype Plan = Plan(version: nat, step: StepId, resource: L.Resource, container: Container)

  /** The idempotency key exec:incident:plan version:step:attempt. */
  datatype Key = Key(incident: IncidentId, planVersion: nat, step: StepId, attempt: nat)

  datatype Intent = Intent(key: Key, resource: L.Resource, container: Container)

  datatype Status = Pending | Running | Succeeded | Failed | RolledBack

  datatype Execution = Execution(
    incident: IncidentId, step: StepId, resource: L.Resource, container: Container, status: Status, version: nat)

  datatype Verdict = Success | Failure | Uncertain

  datatype Call = Call(id: nat, actor: L.Actor, intent: Intent)

  datatype Snapshot = Snapshot(restartCount: nat, startedAt: Option<Time>)

  /** What the Docker client reports about a restart. For an exception other than "container not found" it carries
      what reconciliation then observes. */
  datatype RestartReport =
    | Clean
    | ContainerGone
    | Exception(preCount: nat, post: Option<Snapshot>, dispatchedAt: Time)

  datatype Pc =
    | Idle
    | Resumed(incident: IncidentId, attempts: nat, plan: Option<Plan>)
    | Calling(call: Call)
    | Recovering(call: Call, version: nat)
    | Admitting(call: Call)
    | Dispatching(call: Call, token: L.Token, version: nat)
    | Dispatched(call: Call, token: L.Token, version: nat, report: RestartReport)
    | Finished(call: Call, verdict: Verdict)

  datatype Event =
    | Called(id: nat, key: Key)
    | RestartIssued(id: nat, key: Key)
    | Returned(id: nat, key: Key, verdict: Verdict)

  datatype World = World(
    locks: L.LockDb,
    incidents: map<IncidentId, I.Incident>,
    plans: Plans,
    executions: Rows,
    workers: map<WorkerId, Pc>,
    nextCall: nat,
    log: seq<Event>)

  datatype Action =
    | LockAction(op: L.LockOp)
    | CreateIncident(id: IncidentId, correlation: string, retryLimit: nat, approvalRequired: bool)
    | MoveIncident(id: IncidentId, expected: int, target: I.State)
    | RouteIncident(id: IncidentId, expected: int)
    | Resume(worker: WorkerId, id: IncidentId, expectedVersion: Option<int>)
    | CommitPlan(worker: WorkerId, expected: int, step: StepId, resource: L.Resource, container: Container)
    | Dispatch(worker: WorkerId, actor: L.Actor)
    | EarlyCheck(worker: WorkerId)
    | Recover(worker: WorkerId, running: bool)
    | Admit(worker: WorkerId, running: bool)
    | Restart(worker: WorkerId, report: RestartReport)
    | Settle(worker: WorkerId)
    | Return(worker: WorkerId)
    | Crash(worker: WorkerId)

  // ---------------------------------------------------------------- execution records

  predicate MatchesIntent(row: Execution, intent: Intent) {
    && (row.incident, row.step, row.resource) == (intent.key.incident, intent.key.step, intent.resource)
    && row.container == intent.container
  }

  datatype Write = Written(rows: Rows) | Conflict | Illegal | Mismatch

  type Rows = map<Key, Execution>

  type Plans = map<IncidentId, Plan>

  /** The step belongs to a plan of the incident and acts on its resource. */
  predicate Belongs(plans: Plans, intent: Intent) {
    && intent.key.incident in plans
    && plans[intent.key.incident].step == intent.key.step && plans[intent.key.incident].resource == intent.resource
  }

  function NewExecution(intent: Intent): Execution {
    Execution(intent.key.incident, intent.key.step, intent.resource, intent.container, Pending, 1)
  }

  /** `record_execution`: the step must belong to the incident's plan; insert on a unique key, else return the existing
      record if it belongs to the same intent. */
  function RecordExecution(rows: Rows, plans: Plans, intent: Intent): Write {
    if !Belongs(plans, intent) then Mismatch
    else if intent.key !in rows then Written(rows[intent.key := NewExecution(intent)])
    else if MatchesIntent(rows[intent.key], intent) then Written(rows)
    else Conflict
  }

  predicate StatusMove(from: Status, to: Status) {
    match from
    case Pending => to == Running
    case Running => to == Succeeded || to == Failed
    case Failed => to == RolledBack
    case _ => false
  }

  /** `finish_execution`: a compare-and-swap on the record's version, restricted to the legal status moves. */
  function FinishExecution(rows: Rows, key: Key, expected: nat, status: Status): Write {
    if key !in rows || rows[key].version != expected then Conflict
    else if !StatusMove(rows[key].status, status) then Illegal
    else Written(rows[key := rows[key].(status := status, version := expected + 1)])
  }

  /** `reconcile`: a restart is proved by a higher restart count or a start time inside the dispatch window. */
  predicate Reconciled(preCount: nat, post: Option<Snapshot>, dispatchedAt: Time) {
    && post.Some?
    && (post.value.restartCount > preCount
        || (post.value.startedAt.Some? && post.value.startedAt.value >= dispatchedAt - RECONCILE_SLACK))
  }

  // ---------------------------------------------------------------- the steps

  function PcOf(w: World, id: WorkerId): Pc {
    if id in w.workers then w.workers[id] else Idle
  }

  function Goto(w: World, id: WorkerId, pc: Pc): World {
    w.(workers := w.workers[id := pc])
  }

  function Log(w: World, e: Event): World {
    w.(log := w.log + [e])
  }

  function Reuse(status: Status): Verdict {
    if status == Succeeded then Success else Failure
  }

  function Observed(running: bool): (Status, Verdict) {
    if running then (Succeeded, Success) else (Failed, Uncertain)
  }

  function DoMove(w: World, id: IncidentId, outcome: I.Outcome): World {
    if outcome.Committed? then w.(incidents := w.incidents[id := outcome.row]) else w
  }

  /** `run_incident`: terminal incidents and stale notifications are skipped; otherwise the worker
      takes the retry counter and the plan from the committed rows. */
  function DoResume(w: World, id: WorkerId, inc: IncidentId, expectedVersion: Option<int>): World {
    if inc !in w.incidents || I.Terminal(w.incidents[inc].state) then w
    else if expectedVersion.Some? && w.incidents[inc].version > expectedVersion.value then w
    else Goto(w, id, Resumed(inc, w.incidents[inc].attempts,
                             if inc in w.plans then Some(w.plans[inc]) else None))
  }

  /** `plan_node`: skipped when a plan id was reconstructed; otherwise plan version 1 and the move to PLANNED are
      one transaction, refused by the unique (incident, version) constraint or a failed transition. */
  function DoPlan(w: World, id: WorkerId, pc: Pc, expected: int, step: StepId, resource: L.Resource, container: Container): World
    requires pc.Resumed?
  {
    if pc.plan.Some? then w
    else if pc.incident !in w.incidents || pc.incident in w.plans then Goto(w, id, Idle)
    else
      var outcome := I.Transition(w.incidents[pc.incident], expected, I.Planned);
      if outcome.Refused? then Goto(w, id, Idle)
      else
        var plan := Plan(1, step, resource, container);
        Goto(w.(incidents := w.incidents[pc.incident := outcome.row], plans := w.plans[pc.incident := plan]),
             id, pc.(plan := Some(plan)))
  }

  /** `execute_node` from the passed prechecks to the call of `execute`: the row is moved to EXECUTING only when it is
      APPROVED or PLANNED, and the attempt number is the reconstructed retry counter plus one. */
  function DoDispatch(w: World, id: WorkerId, pc: Pc, actor: L.Actor): World
    requires pc.Resumed?
  {
    if pc.plan.None? || pc.incident !in w.incidents then Goto(w, id, Idle)
    else
      var row := w.incidents[pc.incident];
      var moves := row.state == I.Approved || row.state == I.Planned;
      var outcome := I.Transition(row, row.version, I.Executing);
      if moves && outcome.Refused? then Goto(w, id, Idle)
      else
        var plan := pc.plan.value;
        var key := Key(pc.incident, plan.version, plan.step, pc.attempts + 1);
        var started := w.(incidents := if moves then w.incidents[pc.incident := outcome.row] else w.incidents,
                          nextCall := w.nextCall + 1);
        Log(Goto(started, id, Calling(Call(w.nextCall, actor, Intent(key, plan.resource, plan.container)))),
            Called(w.nextCall, key))
  }

  /** Step 0 of `execute`: where the early idempotency check sends the call. */
  function EarlyPc(rows: Rows, call: Call): Pc {
    var key := call.intent.key;
    if key !in rows then Admitting(call)
    else if !MatchesIntent(rows[key], call.intent) then Idle
    else match rows[key].status
      case Succeeded => Finished(call, Success)
      case Failed => Finished(call, Failure)
      case Running => Recovering(call, rows[key].version)
      case _ => Admitting(call)
  }

  /** The transaction that settles an execution found RUNNING by the early check. */
  function RecoverTables(rows: Rows, call: Call, version: nat, running: bool): (Rows, Pc) {
    var write := FinishExecution(rows, call.intent.key, version, Observed(running).0);
    if write.Written? then (write.rows, Finished(call, Observed(running).1)) else (rows, Idle)
  }

  /** Steps 1 and 2 of `execute`: lock, record, and the move to RUNNING, in one transaction. */
  function AdmitTables(locks: L.LockDb, rows: Rows, plans: Plans, call: Call, running: bool): (L.LockDb, Rows, Pc) {
    var key := call.intent.key;
    var (locked, granted) := L.AcquireLock(locks, call.actor, call.intent.resource, LOCK_SECONDS);
    var recorded := RecordExecution(rows, plans, call.intent);
    if !granted.Acquired? || !recorded.Written? then (locks, rows, Idle)
    else
      var row := recorded.rows[key];
      match row.status
      case Succeeded => (locked, recorded.rows, Finished(call, Success))
      case Failed => (locked, recorded.rows, Finished(call, Failure))
      case Running =>
        var write := FinishExecution(recorded.rows, key, row.version, Observed(running).0);
        if write.Written? then (locked, write.rows, Finished(call, Observed(running).1)) else (locks, rows, Idle)
      case _ =>
        var write := FinishExecution(recorded.rows, key, row.version, Running);
        if write.Written? then (locked, write.rows, Dispatching(call, granted.token, row.version + 1))
        else (locks, rows, Idle)
  }

  function DoEarlyCheck(w: World, id: WorkerId, call: Call): World {
    Goto(w, id, EarlyPc(w.executions, call))
  }

  function DoRecover(w: World, id: WorkerId, call: Call, version: nat, running: bool): World {
    var (rows, pc) := RecoverTables(w.executions, call, version, running);
    Goto(w.(executions := rows), id, pc)
  }

  function DoAdmit(w: World, id: WorkerId, call: Call, running: bool): World {
    var (locks, rows, pc) := AdmitTables(w.locks, w.executions, w.plans, call, running);
    Goto(w.(locks := locks, executions := rows), id, pc)
  }

  /** Step 3: the one external mutation. */
  function DoRestart(w: World, id: WorkerId, pc: Pc, report: RestartReport): World
    requires pc.Dispatching?
  {
    Log(Goto(w, id, Dispatched(pc.call, pc.token, pc.version, report)), RestartIssued(pc.call.id, pc.call.intent.key))
  }

  /** The record's final status and the caller's verdict for a restart report. */
  function Judge(report: RestartReport): (Status, Verdict) {
    match report
    case Clean => (Succeeded, Success)
    case ContainerGone => (Failed, Failure)
    case Exception(pre, post, at) => if Reconciled(pre, post, at) then (Succeeded, Success) else (Failed, Uncertain)
  }

  /** The last transaction of `execute`: finish the record and release the lock, or quarantine when uncertain. */
  function SettleTables(locks: L.LockDb, rows: Rows, pc: Pc): (L.LockDb, Rows, Pc)
    requires pc.Dispatched?
  {
    var (status, verdict) := Judge(pc.report);
    var resource := pc.call.intent.resource;
    var write := FinishExecution(rows, pc.call.intent.key, pc.version, status);
    if !write.Written? then (locks, rows, Idle)
    else if verdict == Uncertain then (L.QuarantineLock(locks, resource), write.rows, Finished(pc.call, Uncertain))
    else
      var (unlocked, released) := L.ReleaseLock(locks, pc.call.actor, resource, pc.token);
      if released != L.Done then (locks, rows, Idle) else (unlocked, write.rows, Finished(pc.call, verdict))
  }

  function DoSettle(w: World, id: WorkerId, pc: Pc): World
    requires pc.Dispatched?
  {
    var (locks, rows, after) := SettleTables(w.locks, w.executions, pc);
    Goto(w.(locks := locks, executions := rows), id, after)
  }

  /** One step; an action that is not enabled changes nothing. */
  function Apply(w: World, a: Action): World {
    match a
    case LockAction(op) => w.(locks := L.Step(w.locks, op).0)
    case CreateIncident(id, key, limit, approval) =>
      if id in w.incidents then w else w.(incidents := w.incidents[id := I.Created(key, limit, approval)])
    case MoveIncident(id, expected, target) =>
      if id in w.incidents then DoMove(w, id, I.Transition(w.incidents[id], expected, target)) else w
    case RouteIncident(id, expected) =>
      if id in w.incidents then DoMove(w, id, I.RequireApproval(w.incidents[id], expected)) else w
    case Crash(id) => Goto(w, id, Idle)
    case Resume(id, inc, v) => if PcOf(w, id).Idle? then DoResume(w, id, inc, v) else w
    case CommitPlan(id, expected, step, resource, container) =>
      if PcOf(w, id).Resumed? then DoPlan(w, id, PcOf(w, id), expected, step, resource, container) else w
    case Dispatch(id, actor) => if PcOf(w, id).Resumed? then DoDispatch(w, id, PcOf(w, id), actor) else w
    case EarlyCheck(id) => if PcOf(w, id).Calling? then DoEarlyCheck(w, id, PcOf(w, id).call) else w
    case Recover(id, running) =>
      if PcOf(w, id).Recovering? then DoRecover(w, id, PcOf(w, id).call, PcOf(w, id).version, running) else w
    case Admit(id, running) => if PcOf(w, id).Admitting? then DoAdmit(w, id, PcOf(w, id).call, running) else w
    case Restart(id, report) => if PcOf(w, id).Dispatching? then DoRestart(w, id, PcOf(w, id), report) else w
    case Settle(id) => if PcOf(w, id).Dispatched? then DoSettle(w, id, PcOf(w, id)) else w
    case Return(id) => if PcOf(w, id).Finished? then DoReturn(w, id, PcOf(w, id)) else w
  }

  function DoReturn(w: World, id: WorkerId, pc: Pc): World
    requires pc.Finished?
  {
    Log(Goto(w, id, Idle), Returned(pc.call.id, pc.call.intent.key, pc.verdict))
  }

  function Play(w: World, actions: seq<Action>): World
    decreases |actions|
  {
    if actions == [] then w else Play(Apply(w, actions[0]), actions[1..])
  }

  predicate Initial(w: World) {
    w.incidents == map[] && w.plans == map[] && w.executions == map[] && w.workers == map[] && w.log == []
  }

  // ---------------------------------------------------------------- the invariant

  /** Keys of one incident differ only in the attempt, which is at most one more than the retries used. */
  predicate KeyOk(w: World, k: Key) {
    && k.incident in w.plans && k.incident in w.incidents
    && k.planVersion == w.plans[k.incident].version && k.step == w.plans[k.incident].step
    && 1 <= k.attempt <= w.incidents[k.incident].attempts + 1
  }

  predicate CallOk(w: World, call: Call) {
    call.id < w.nextCall && KeyOk(w, call.intent.key)
  }

  predicate SettledAs(w: World, k: Key, verdict: Verdict) {
    k in w.executions && w.executions[k].status == (if verdict == Success then Succeeded else Failed)
  }

  /** No record is ever committed PENDING: the insert and the move to RUNNING are one transaction. */
  predicate RowOk(w: World, k: Key) {
    k in w.executions ==> KeyOk(w, k) && w.executions[k].status in {Running, Succeeded, Failed}
  }

  predicate PcOk(w: World, pc: Pc) {
    match pc
    case Idle => true
    case Resumed(inc, attempts, plan) =>
      && inc in w.incidents && attempts <= w.incidents[inc].attempts
      && (plan.Some? ==> inc in w.plans && w.plans[inc] == plan.value)
    case Dispatching(call, _, _) => CallOk(w, call) && call.intent.key in w.executions
    case Dispatched(call, _, _, _) => CallOk(w, call)
    case Finished(call, verdict) => CallOk(w, call) && SettledAs(w, call.intent.key, verdict)
    case _ => CallOk(w, pc.call)
  }

  predicate EventOk(w: World, e: Event) {
    && e.id < w.nextCall && KeyOk(w, e.key)
    && (e.RestartIssued? ==> e.key in w.executions)
    && (e.Returned? ==> SettledAs(w, e.key, e.verdict))
  }

  ghost predicate Restarted(log: seq<Event>, k: Key) {
    exists i :: 0 <= i < |log| && log[i].RestartIssued? && log[i].key == k
  }

  ghost predicate RestartsDistinct(log: seq<Event>) {
    forall i, j :: 0 <= i < j < |log| && log[i].RestartIssued? && log[j].RestartIssued? ==> log[i].key != log[j].key
  }

  ghost predicate TablesOk(w: World) {
    && (forall id :: id in w.incidents ==> w.incidents[id].attempts <= w.incidents[id].retryLimit)
    && (forall k :: RowOk(w, k))
  }

  ghost predicate WorkersOk(w: World) {
    forall id :: PcOk(w, PcOf(w, id))
  }

  ghost predicate LogOk(w: World) {
    forall i :: 0 <= i < |w.log| ==> EventOk(w, w.log[i])
  }

  /** The workers between the commit of RUNNING and their restart own distinct keys that were never restarted; those past
      their restart have it in the log. */
  ghost predicate DispatchOk(w: World) {
    && RestartsDistinct(w.log)
    && (forall id :: PcOf(w, id).Dispatched? ==> Restarted(w.log, PcOf(w, id).call.intent.key))
    && (forall id :: PcOf(w, id).Dispatching? ==> !Restarted(w.log, PcOf(w, id).call.intent.key))
    && (forall id, other :: id != other && PcOf(w, id).Dispatching? && PcOf(w, other).Dispatching?
          ==> PcOf(w, id).call.intent.key != PcOf(w, other).call.intent.key)
  }

  ghost predicate Inv(w: World) {
    TablesOk(w) && WorkersOk(w) && LogOk(w) && DispatchOk(w)
  }

  predicate Continues(a: I.Incident, b: I.Incident) {
    b.retryLimit == a.retryLimit && b.attempts >= a.attempts
  }

  /** What no step undoes. */
  ghost predicate Grows(w: World, v: World) {
    && w.nextCall <= v.nextCall
    && (forall id :: id in w.plans ==> id in v.plans && v.plans[id] == w.plans[id])
    && (forall id :: id in w.incidents ==> id in v.incidents && Continues(w.incidents[id], v.incidents[id]))
    && (forall k :: k in w.executions ==> k in v.executions)
    && (forall k :: k in w.executions && w.executions[k].status in {Succeeded, Failed}
          ==> v.executions[k].status == w.executions[k].status)
  }

  /** A step of one worker, seen from the invariant: nothing settled is undone, only this worker moves, and it logs at
      most one event; it may start dispatching only a key that had no record, and may restart only the key it dispatches. */
  ghost predicate WorkerStep(w: World, v: World, id: WorkerId) {
    && Grows(w, v) && TablesOk(v) && PcOk(v, PcOf(v, id))
    && (forall other :: other != id ==> PcOf(v, other) == PcOf(w, other))
    && (PcOf(v, id).Dispatching? ==> PcOf(v, id).call.intent.key !in w.executions)
    && (PcOf(v, id).Dispatched? ==> Restarted(v.log, PcOf(v, id).call.intent.key))
    && (v.log == w.log
        || (&& |v.log| == |w.log| + 1 && v.log[..|w.log|] == w.log && EventOk(v, v.log[|w.log|])
            && (v.log[|w.log|].RestartIssued? ==>
                  PcOf(w, id).Dispatching? && PcOf(w, id).call.intent.key == v.log[|w.log|].key)))
  }

  lemma PcGrows(w: World, v: World, pc: Pc)
    requires Grows(w, v) && PcOk(w, pc)
    ensures PcOk(v, pc)
  {
  }

  lemma EventGrows(w: World, v: World, e: Event)
    requires Grows(w, v) && EventOk(w, e)
    ensures EventOk(v, e)
  {
  }

  lemma RestartedAppend(log: seq<Event>, more: seq<Event>, k: Key)
    requires |more| == |log| + 1 && more[..|log|] == log
    ensures Restarted(more, k) <==> Restarted(log, k) || (more[|log|].RestartIssued? && more[|log|].key == k)
  {
    if i :| 0 <= i < |log| && log[i].RestartIssued? && log[i].key == k {
      assert more[i] == log[i];
    }
    if i :| 0 <= i < |more| && more[i].RestartIssued? && more[i].key == k {
      assert i < |log| ==> log[i] == more[i];
    }
  }

  lemma NoRecordNoRestart(w: World, k: Key)
    requires LogOk(w) && k !in w.executions
    ensures !Restarted(w.log, k)
  {
    forall i | 0 <= i < |w.log| && w.log[i].RestartIssued? ensures w.log[i].key != k {
      assert EventOk(w, w.log[i]);
    }
  }

  lemma StepLogOk(w: World, v: World, id: WorkerId)
    requires Inv(w) && WorkerStep(w, v, id)
    ensures LogOk(v)
  {
    forall i | 0 <= i < |v.log| ensures EventOk(v, v.log[i]) {
      if i < |w.log| {
        assert v.log[i] == w.log[i];
        EventGrows(w, v, w.log[i]);
      }
    }
  }

  lemma StepDispatchOk(w: World, v: World, id: WorkerId)
    requires Inv(w) && WorkerStep(w, v, id)
    ensures DispatchOk(v)
  {
    forall x | PcOf(v, x).Dispatching? ensures !Restarted(w.log, PcOf(v, x).call.intent.key) {
      if x == id {
        NoRecordNoRestart(w, PcOf(v, x).call.intent.key);
      } else {
        assert PcOf(v, x) == PcOf(w, x);
      }
    }
    forall x, y | x != y && PcOf(v, x).Dispatching? && PcOf(v, y).Dispatching?
      ensures PcOf(v, x).call.intent.key != PcOf(v, y).call.intent.key
    {
      assert PcOk(w, PcOf(w, x)) && PcOk(w, PcOf(w, y));
      assert x != id ==> PcOf(v, x) == PcOf(w, x);
      assert y != id ==> PcOf(v, y) == PcOf(w, y);
    }
    forall x | PcOf(v, x).Dispatched? ensures Restarted(v.log, PcOf(v, x).call.intent.key) {
      if x != id {
        assert PcOf(v, x) == PcOf(w, x);
        if v.log != w.log {
          RestartedAppend(w.log, v.log, PcOf(v, x).call.intent.key);
        }
      }
    }
    if v.log != w.log {
      var e := v.log[|w.log|];
      forall x | PcOf(v, x).Dispatching? ensures !Restarted(v.log, PcOf(v, x).call.intent.key) {
        var k := PcOf(v, x).call.intent.key;
        RestartedAppend(w.log, v.log, k);
        if e.RestartIssued? {
          assert PcOk(w, PcOf(w, id));
          assert x != id ==> PcOf(v, x) == PcOf(w, x);
        }
      }
      forall i, j | 0 <= i < j < |v.log| && v.log[i].RestartIssued? && v.log[j].RestartIssued?
        ensures v.log[i].key != v.log[j].key
      {
        assert v.log[i] == w.log[i];
        if j < |w.log| {
          assert v.log[j] == w.log[j];
        } else {
          assert !Restarted(w.log, e.key);
        }
      }
    }
  }

  lemma WorkerStepKeepsInv(w: World, v: World, id: WorkerId)
    requires Inv(w) && WorkerStep(w, v, id)
    ensures Inv(v)
  {
    StepLogOk(w, v, id);
    StepDispatchOk(w, v, id);
    forall x ensures PcOk(v, PcOf(v, x)) {
      if x != id {
        assert PcOf(v, x) == PcOf(w, x);
        assert PcOk(w, PcOf(w, x));
        PcGrows(w, v, PcOf(w, x));
      }
    }
  }

  lemma IdleStep(w: World, id: WorkerId)
    requires Inv(w)
    ensures WorkerStep(w, Goto(w, id, Idle), id)
  {
    TablesGrow(w, Goto(w, id, Idle));
  }

  lemma TablesGrow(w: World, v: World)
    requires TablesOk(w) && Grows(w, v)
    requires v.incidents == w.incidents && v.executions == w.executions
    ensures TablesOk(v)
  {
    forall k ensures RowOk(v, k) {
      assert RowOk(w, k);
    }
  }

  lemma ResumeStep(w: World, id: WorkerId, inc: IncidentId, v: Option<int>)
    requires Inv(w) && PcOf(w, id).Idle?
    ensures WorkerStep(w, DoResume(w, id, inc, v), id)
  {
    TablesGrow(w, DoResume(w, id, inc, v));
  }

  /** Resuming moves only the worker; it goes on with the committed retry counter and plan, and only for an incident that is
      neither terminal nor newer than the notification. */
  lemma ResumeEffect(w: World, id: WorkerId, inc: IncidentId, v: Option<int>)
    requires PcOf(w, id).Idle?
    ensures DoResume(w, id, inc, v) == w.(workers := DoResume(w, id, inc, v).workers)
    ensures var pc := PcOf(DoResume(w, id, inc, v), id);
            if inc in w.incidents && !I.Terminal(w.incidents[inc].state) && (v.Some? ==> w.incidents[inc].version <= v.value)
            then pc.Resumed? && pc.incident == inc && pc.attempts == w.incidents[inc].attempts
                 && (pc.plan.Some? <==> inc in w.plans) && (pc.plan.Some? ==> pc.plan.value == w.plans[inc])
            else pc.Idle?
  {
  }

  lemma PlanStep(w: World, id: WorkerId, pc: Pc, expected: int, step: StepId, resource: L.Resource, container: Container)
    requires Inv(w) && pc == PcOf(w, id) && pc.Resumed?
    ensures WorkerStep(w, DoPlan(w, id, pc, expected, step, resource, container), id)
  {
    var v := DoPlan(w, id, pc, expected, step, resource, container);
    assert PcOk(w, pc);
    assert Grows(w, v);
    forall k ensures RowOk(v, k) {
      assert RowOk(w, k);
    }
  }

  /** Plan version 1 and the move to PLANNED commit together or not at all, a committed plan is never replaced, and the worker
      goes on with the incident's one plan or stops. */
  lemma PlanEffect(w: World, id: WorkerId, pc: Pc, expected: int, step: StepId, resource: L.Resource, container: Container)
    requires PcOk(w, pc) && pc == PcOf(w, id) && pc.Resumed?
    ensures var v := DoPlan(w, id, pc, expected, step, resource, container);
            && v == w.(incidents := v.incidents, plans := v.plans, workers := v.workers)
            && (PcOf(v, id).Idle? || (PcOf(v, id).Resumed? && pc.incident in v.plans && PcOf(v, id).plan == Some(v.plans[pc.incident])))
            && (v.plans != w.plans <==> v.incidents != w.incidents)
            && (v.plans != w.plans ==>
                  && pc.incident !in w.plans && v.plans == w.plans[pc.incident := Plan(1, step, resource, container)]
                  && pc.incident in v.incidents && v.incidents == w.incidents[pc.incident := v.incidents[pc.incident]]
                  && w.incidents[pc.incident].state == I.Diagnosed && v.incidents[pc.incident].state == I.Planned)
  {
    var v := DoPlan(w, id, pc, expected, step, resource, container);
    if v.plans != w.plans {
      assert v.incidents[pc.incident] != w.incidents[pc.incident];
    }
  }

  lemma DispatchStep(w: World, id: WorkerId, pc: Pc, actor: L.Actor)
    requires Inv(w) && pc == PcOf(w, id) && pc.Resumed?
    ensures WorkerStep(w, DoDispatch(w, id, pc, actor), id)
  {
    var v := DoDispatch(w, id, pc, actor);
    assert PcOk(w, pc);
    assert Grows(w, v);
    forall k ensures RowOk(v, k) {
      assert RowOk(w, k);
    }
    if v.log != w.log {
      assert v.log[..|w.log|] == w.log;
    }
  }

  lemma EarlyCheckStep(w: World, id: WorkerId, call: Call)
    requires Inv(w) && PcOf(w, id) == Calling(call)
    ensures WorkerStep(w, DoEarlyCheck(w, id, call), id)
  {
    assert PcOk(w, PcOf(w, id));
    TablesGrow(w, DoEarlyCheck(w, id, call));
  }

  /** The record of a key the worker may write: updating it keeps the tables in order. */
  lemma WriteKeepsTables(w: World, v: World, k: Key)
    requires TablesOk(w) && KeyOk(w, k)
    requires v.incidents == w.incidents && v.plans == w.plans && v.nextCall == w.nextCall
    requires k in v.executions && v.executions == w.executions[k := v.executions[k]]
    requires v.executions[k].status in {Running, Succeeded, Failed}
    requires k in w.executions && w.executions[k].status in {Succeeded, Failed} ==> v.executions[k].status == w.executions[k].status
    ensures TablesOk(v) && Grows(w, v)
  {
    forall x ensures RowOk(v, x) {
      assert RowOk(w, x);
    }
  }

  lemma RecoverStep(w: World, id: WorkerId, call: Call, version: nat, running: bool)
    requires Inv(w) && PcOf(w, id) == Recovering(call, version)
    ensures WorkerStep(w, DoRecover(w, id, call, version, running), id)
  {
    var v := DoRecover(w, id, call, version, running);
    assert PcOk(w, PcOf(w, id));
    if PcOf(v, id).Idle? {
      IdleStep(w, id);
    } else {
      WriteKeepsTables(w, v, call.intent.key);
    }
  }

  /** `Admit` on a key without a record: only this branch goes on to dispatch. */
  lemma AdmitNew(w: World, id: WorkerId, call: Call, running: bool)
    requires call.intent.key !in w.executions
    ensures var v := DoAdmit(w, id, call, running); var k := call.intent.key;
            || v == Goto(w, id, Idle)
            || (&& PcOf(v, id).Dispatching? && PcOf(v, id).call == call
                && v == w.(locks := v.locks, executions := v.executions, workers := v.workers)
                && k in v.executions && v.executions == w.executions[k := v.executions[k]]
                && v.executions[k].status == Running
                && v.workers == w.workers[id := PcOf(v, id)])
  {
  }

  /** `Admit` on a key with a record: the outcome is reused or settled, and nothing is dispatched. */
  lemma AdmitExisting(w: World, id: WorkerId, call: Call, running: bool)
    requires call.intent.key in w.executions && w.executions[call.intent.key].status in {Running, Succeeded, Failed}
    ensures var v := DoAdmit(w, id, call, running); var k := call.intent.key;
            || v == Goto(w, id, Idle)
            || (&& PcOf(v, id).Finished? && PcOf(v, id).call == call && SettledAs(v, k, PcOf(v, id).verdict)
                && v == w.(locks := v.locks, executions := v.executions, workers := v.workers)
                && k in v.executions && v.executions == w.executions[k := v.executions[k]]
                && (w.executions[k].status != Running ==> v.executions == w.executions)
                && v.workers == w.workers[id := PcOf(v, id)])
  {
    var k := call.intent.key;
    var v := DoAdmit(w, id, call, running);
    assert w.executions == w.executions[k := w.executions[k]];
  }

  lemma AdmitStep(w: World, id: WorkerId, call: Call, running: bool)
    requires Inv(w) && PcOf(w, id) == Admitting(call)
    ensures WorkerStep(w, DoAdmit(w, id, call, running), id)
  {
    assert PcOk(w, PcOf(w, id)) && RowOk(w, call.intent.key);
    if call.intent.key in w.executions {
      AdmitExisting(w, id, call, running);
    } else {
      AdmitNew(w, id, call, running);
    }
    AdmitFrame(w, DoAdmit(w, id, call, running), id, call);
  }

  lemma AdmitFrame(w: World, v: World, id: WorkerId, call: Call)
    requires Inv(w) && PcOf(w, id) == Admitting(call)
    requires || v == Goto(w, id, Idle)
             || (var k := call.intent.key;
                 && v == w.(locks := v.locks, executions := v.executions, workers := v.workers)
                 && k in v.executions && v.executions == w.executions[k := v.executions[k]]
                 && v.workers == w.workers[id := PcOf(v, id)]
                 && ((PcOf(v, id).Dispatching? && k !in w.executions && v.executions[k].status == Running)
                     || (PcOf(v, id).Finished? && k in w.executions && SettledAs(v, k, PcOf(v, id).verdict)
                         && (w.executions[k].status != Running ==> v.executions == w.executions)))
                 && PcOf(v, id).call == call)
    ensures WorkerStep(w, v, id)
  {
    assert PcOk(w, PcOf(w, id)) && RowOk(w, call.intent.key);
    if v == Goto(w, id, Idle) {
      IdleStep(w, id);
    } else {
      WriteKeepsTables(w, v, call.intent.key);
    }
  }

  lemma RestartStep(w: World, id: WorkerId, pc: Pc, report: RestartReport)
    requires Inv(w) && pc == PcOf(w, id) && pc.Dispatching?
    ensures WorkerStep(w, DoRestart(w, id, pc, report), id)
  {
    var v := DoRestart(w, id, pc, report);
    assert PcOk(w, pc);
    TablesGrow(w, v);
    assert v.log[..|w.log|] == w.log;
    assert v.log[|w.log|] == RestartIssued(pc.call.id, pc.call.intent.key);
  }

  lemma SettleStep(w: World, id: WorkerId, pc: Pc)
    requires Inv(w) && pc == PcOf(w, id) && pc.Dispatched?
    ensures WorkerStep(w, DoSettle(w, id, pc), id)
  {
    var v := DoSettle(w, id, pc);
    assert PcOk(w, pc);
    if PcOf(v, id).Idle? {
      IdleStep(w, id);
    } else {
      WriteKeepsTables(w, v, pc.call.intent.key);
    }
  }

  lemma ReturnStep(w: World, id: WorkerId, pc: Pc)
    requires Inv(w) && pc == PcOf(w, id) && pc.Finished?
    ensures WorkerStep(w, DoReturn(w, id, pc), id)
  {
    var v := DoReturn(w, id, pc);
    assert PcOk(w, pc);
    TablesGrow(w, v);
    assert v.log[..|w.log|] == w.log;
  }

  /** Steps of the environment on locks and incident rows. */
  lemma TableStep(w: World, v: World)
    requires Inv(w)
    requires v == w.(locks := v.locks, incidents := v.incidents)
    requires forall id :: id in w.incidents ==> id in v.incidents && Continues(w.incidents[id], v.incidents[id])
    requires forall id :: id in v.incidents ==> v.incidents[id].attempts <= v.incidents[id].retryLimit
    ensures Inv(v)
  {
    forall k ensures RowOk(v, k) {
      assert RowOk(w, k);
    }
    forall x ensures PcOk(v, PcOf(v, x)) {
      assert PcOf(v, x) == PcOf(w, x);
      PcGrows(w, v, PcOf(w, x));
    }
    forall i | 0 <= i < |v.log| ensures EventOk(v, v.log[i]) {
      EventGrows(w, v, w.log[i]);
    }
    assert forall x :: PcOf(v, x) == PcOf(w, x);
  }

  lemma EnvironmentKeepsInv(w: World, a: Action)
    requires Inv(w)
    requires a.LockAction? || a.CreateIncident? || a.MoveIncident? || a.RouteIncident?
    ensures Inv(Apply(w, a))
  {
    EnvironmentFrame(w, a);
    TableStep(w, Apply(w, a));
  }

  lemma EnvironmentFrame(w: World, a: Action)
    requires forall id :: id in w.incidents ==> w.incidents[id].attempts <= w.incidents[id].retryLimit
    requires a.LockAction? || a.CreateIncident? || a.MoveIncident? || a.RouteIncident?
    ensures var v := Apply(w, a);
            && v == w.(locks := v.locks, incidents := v.incidents)
            && (forall id :: id in w.incidents ==> id in v.incidents && Continues(w.incidents[id], v.incidents[id]))
            && (forall id :: id in v.incidents ==> v.incidents[id].attempts <= v.incidents[id].retryLimit)
  {
  }

  lemma StepKeepsInv(w: World, a: Action)
    requires Inv(w)
    ensures Inv(Apply(w, a))
  {
    if a.LockAction? || a.CreateIncident? || a.MoveIncident? || a.RouteIncident? {
      EnvironmentKeepsInv(w, a);
    } else if Apply(w, a) != w {
      WorkerStepExists(w, a);
      WorkerStepKeepsInv(w, Apply(w, a), a.worker);
    }
  }

  lemma WorkerStepExists(w: World, a: Action)
    requires Inv(w) && Apply(w, a) != w
    requires !(a.LockAction? || a.CreateIncident? || a.MoveIncident? || a.RouteIncident?)
    ensures WorkerStep(w, Apply(w, a), a.worker)
  {
    match a
    case Crash(id) => IdleStep(w, id);
    case Resume(id, inc, v) => ResumeStep(w, id, inc, v);
    case CommitPlan(id, expected, step, resource, container) =>
      PlanStep(w, id, PcOf(w, id), expected, step, resource, container);
    case Dispatch(id, actor) => DispatchStep(w, id, PcOf(w, id), actor);
    case EarlyCheck(id) => EarlyCheckStep(w, id, PcOf(w, id).call);
    case Recover(id, running) => RecoverStep(w, id, PcOf(w, id).call, PcOf(w, id).version, running);
    case Admit(id, running) => AdmitStep(w, id, PcOf(w, id).call, running);
    case Restart(id, report) => RestartStep(w, id, PcOf(w, id), report);
    case Settle(id) => SettleStep(w, id, PcOf(w, id));
    case Return(id) => ReturnStep(w, id, PcOf(w, id));
  }

  lemma {:induction false} PlayKeepsInv(w: World, actions: seq<Action>)
    requires Inv(w)
    ensures Inv(Play(w, actions))
    decreases |actions|
  {
    if actions != [] {
      StepKeepsInv(w, actions[0]);
      PlayKeepsInv(Apply(w, actions[0]), actions[1..]);
    }
  }
}
