/** What the retry limit comes to when only planning moves an incident to PLANNED, as in the system itself. */
module RetryLimit {
  import opened Prelude
  import opened ExecutionProtocol
  import opened ExecutionTheorems
  import opened ExecutionRuns
  import L = ResourceLocks
  import I = IncidentLifecycle

  // ---------------------------------------------------------------- the invariant

  predicate Unplanned(row: I.Incident) {
    row.attempts == 0 && row.state in {I.Detected, I.Triaged, I.Diagnosed, I.Escalated}
  }

  predicate FirstAttempt(row: I.Incident) {
    row.attempts == 0 && row.state !in {I.Detected, I.Triaged, I.Diagnosed}
  }

  /** A retried incident: planning is skipped because the plan exists, so it can only be escalated. */
  predicate Retried(row: I.Incident) {
    row.attempts == 1 && row.state in {I.Diagnosed, I.Escalated}
  }

  predicate OneWay(w: World, id: IncidentId) {
    && (id in w.plans ==> id in w.incidents)
    && (id in w.incidents ==>
          if id in w.plans then FirstAttempt(w.incidents[id]) || Retried(w.incidents[id]) else Unplanned(w.incidents[id]))
  }

  /** What a step does to the incident's row and plan: nothing, create the row, make a legal move to a state other than PLANNED
      or enable approval routing, or plan it. */
  predicate RowMove(w: World, v: World, id: IncidentId) {
    if id !in w.incidents then
      (id in v.plans <==> id in w.plans) && (id in v.incidents ==> v.incidents[id].attempts == 0 && v.incidents[id].state == I.Detected)
    else
      && id in v.incidents
      && var row, next := w.incidents[id], v.incidents[id];
         || ((id in v.plans <==> id in w.plans)
             && (next == row || (I.Follows(row, next) && (next.state != I.Planned || row.state == I.Planned))))
         || (id !in w.plans && id in v.plans && I.Follows(row, next) && row.state == I.Diagnosed && next.state == I.Planned)
  }

  lemma PlanMoves(w: World, a: Action, id: IncidentId)
    requires a.CommitPlan?
    ensures RowMove(w, Apply(w, a), id)
  {
  }

  lemma DispatchMoves(w: World, a: Action, id: IncidentId)
    requires a.Dispatch?
    ensures RowMove(w, Apply(w, a), id)
  {
  }

  lemma OthersMove(w: World, a: Action, id: IncidentId)
    requires (a.MoveIncident? && a.target != I.Planned) || a.RouteIncident? || a.CreateIncident?
    ensures RowMove(w, Apply(w, a), id)
  {
  }

  lemma RestKeepsTables(w: World, a: Action)
    requires !TouchesTables(a) && !a.CommitPlan? && !a.Dispatch? && !a.Admit? && !a.Settle?
    ensures Apply(w, a).incidents == w.incidents && Apply(w, a).plans == w.plans
  {
  }

  lemma StepMoves(w: World, a: Action, id: IncidentId)
    requires a.MoveIncident? ==> a.target != I.Planned
    ensures RowMove(w, Apply(w, a), id)
  {
    if a.CommitPlan? {
      PlanMoves(w, a, id);
    } else if a.Dispatch? {
      DispatchMoves(w, a, id);
    } else if a.MoveIncident? || a.RouteIncident? || a.CreateIncident? {
      OthersMove(w, a, id);
    } else {
      KeepsTables(w, a);
    }
  }

  lemma KeepsTables(w: World, a: Action)
    requires !(a.CommitPlan? || a.Dispatch? || a.MoveIncident? || a.RouteIncident? || a.CreateIncident?)
    ensures Apply(w, a).incidents == w.incidents && Apply(w, a).plans == w.plans
  {
    if a.Admit? {
      AdmitKeepsTables(w, a.worker, a.running);
    } else if a.Settle? {
      SettleKeepsTables(w, a.worker);
    } else if !TouchesTables(a) {
      RestKeepsTables(w, a);
    }
  }

  lemma MoveOneWay(w: World, v: World, id: IncidentId)
    requires OneWay(w, id) && RowMove(w, v, id)
    ensures OneWay(v, id)
    ensures id in w.incidents && Retried(w.incidents[id]) ==> id in v.incidents && Retried(v.incidents[id])
  {
  }

  lemma AdmitKeepsTables(w: World, id: WorkerId, running: bool)
    ensures Apply(w, Admit(id, running)).incidents == w.incidents && Apply(w, Admit(id, running)).plans == w.plans
  {
  }

  lemma SettleKeepsTables(w: World, id: WorkerId)
    ensures Apply(w, Settle(id)).incidents == w.incidents && Apply(w, Settle(id)).plans == w.plans
  {
  }

  /** How often the incident may still enter EXECUTING. */
  function Left(w: World, id: IncidentId): nat {
    if id !in w.incidents then 1
    else if id !in w.plans then 1
    else if w.incidents[id].attempts == 0 && w.incidents[id].state in {I.Planned, I.PendingApproval, I.Approved} then 1
    else 0
  }

  lemma MoveLeft(w: World, v: World, id: IncidentId)
    requires OneWay(w, id) && RowMove(w, v, id)
    ensures (if InState(v, id, I.Executing) && !InState(w, id, I.Executing) then 1 else 0) + Left(v, id) <= Left(w, id)
  {
  }

  lemma {:induction false} RunOneWay(w: World, actions: seq<Action>, id: IncidentId)
    requires OneWay(w, id) && OwnTransitions(actions)
    ensures OneWay(Play(w, actions), id) && Entries(w, actions, id) <= Left(w, id)
    ensures id in w.incidents && Retried(w.incidents[id]) ==>
              id in Play(w, actions).incidents && Retried(Play(w, actions).incidents[id])
    decreases |actions|
  {
    if actions != [] {
      assert actions[0] in actions;
      assert forall a :: a in actions[1..] ==> a in actions;
      StepMoves(w, actions[0], id);
      MoveOneWay(w, Apply(w, actions[0]), id);
      MoveLeft(w, Apply(w, actions[0]), id);
      RunOneWay(Apply(w, actions[0]), actions[1..], id);
    }
  }

  function AtMostOne(limit: nat): nat {
    if limit == 0 then 0 else 1
  }

  /** Over every run in which only planning asks for PLANNED, whatever the retry limit: at most one retry is used, EXECUTING is
      entered at most once, and there are at most two restarts, one if the limit is 0. */
  lemma OneRetry(start: World, actions: seq<Action>, id: IncidentId)
    requires Initial(start) && OwnTransitions(actions)
    ensures var w := Play(start, actions);
            && Entries(start, actions, id) <= 1
            && (id in w.incidents ==>
                  && w.incidents[id].attempts <= AtMostOne(w.incidents[id].retryLimit)
                  && RestartCount(w.log, id) <= AtMostOne(w.incidents[id].retryLimit) + 1)
  {
    RunOneWay(start, actions, id);
    RestartBound(start, actions, id);
  }

  /** A retried incident is DIAGNOSED or ESCALATED from then on: whatever its second restart achieves, it is never RESOLVED. */
  lemma RetriedIsNeverResolved(start: World, before: seq<Action>, after: seq<Action>, id: IncidentId)
    requires Initial(start) && OwnTransitions(before) && OwnTransitions(after)
    requires id in Play(start, before).incidents && Play(start, before).incidents[id].attempts >= 1
    ensures var w := Play(Play(start, before), after);
            id in w.incidents && w.incidents[id].attempts == 1 && w.incidents[id].state in {I.Diagnosed, I.Escalated}
  {
    RunOneWay(start, before, id);
    RunOneWay(Play(start, before), after, id);
  }

  // ---------------------------------------------------------------- the bounds are attained

  lemma CountAppend(log: seq<Event>, e: Event, inc: IncidentId)
    ensures RestartCount(log + [e], inc) == RestartCount(log, inc) + if e.RestartIssued? && e.key.incident == inc then 1 else 0
  {
    assert (log + [e])[..|log|] == log;
  }

  /** The state between two attempts of incident 0: every worker but one idle, no lock held, `restarts` issued, and records for
      the attempts so far only. */
  ghost predicate Between(w: World, row: I.Incident, restarts: nat) {
    && Has(w, 0, row, PLAN) && w.locks.rows == map[] && w.locks.control == None
    && RestartCount(w.log, 0) == restarts
    && (forall k :: k in w.executions ==> k.attempt <= restarts)
  }

  /** One attempt up to its restart, by a worker that has resumed the incident. */
  lemma Attempting(p: Path, id: WorkerId, row: I.Incident) returns (q: Path)
    requires Between(End(p), row, row.attempts) && PcOf(End(p), id) == Resumed(0, row.attempts, Some(PLAN))
    requires row.state != I.Approved && !row.approvalRequired
    ensures var w, v := End(p), End(q); var call := CallFor(w.nextCall, 0, PLAN, row.attempts + 1);
            && Has(v, 0, if row.state == I.Planned then row.(state := I.Executing, version := row.version + 1) else row, PLAN)
            && v.locks == L.AcquireLock(w.locks, "worker", 3, LOCK_SECONDS).0
            && v.executions == w.executions[call.intent.key := NewExecution(call.intent).(status := Running, version := 2)]
            && PcOf(v, id) == Dispatched(call, w.locks.nextToken, 2, Clean)
            && RestartCount(v.log, 0) == row.attempts + 1
    ensures Extends(q, p, 0, if row.state == I.Planned then 1 else 0)
  {
    var call := CallFor(End(p).nextCall, 0, PLAN, row.attempts + 1);
    var a := Beginning(p, 0, id, row, PLAN);
    var b := Admitted(a, 0, id, call);
    q := Restarting(b, 0, id, Clean);
    CountAppend(End(p).log, Called(call.id, call.intent.key), 0);
    CountAppend(End(a).log, RestartIssued(call.id, call.intent.key), 0);
  }

  /** An attempt from PLANNED, settled as a success. */
  lemma Settled(p: Path, id: WorkerId, row: I.Incident) returns (q: Path)
    requires Between(End(p), row, row.attempts) && PcOf(End(p), id) == Resumed(0, row.attempts, Some(PLAN))
    requires row.state == I.Planned && !row.approvalRequired
    ensures Between(End(q), row.(state := I.Executing, version := row.version + 1), row.attempts + 1)
    ensures PcOf(End(q), id) == Finished(CallFor(End(p).nextCall, 0, PLAN, row.attempts + 1), Success) && Extends(q, p, 0, 1)
  {
    var a := Attempting(p, id, row);
    q := Settling(a, 0, id, CallFor(End(p).nextCall, 0, PLAN, row.attempts + 1), End(p).locks.nextToken);
    assert End(q).locks.rows == map[];
  }

  /** A whole attempt from PLANNED, returned as a success. */
  lemma Succeeding(p: Path, id: WorkerId, row: I.Incident) returns (q: Path)
    requires Between(End(p), row, row.attempts) && PcOf(End(p), id) == Resumed(0, row.attempts, Some(PLAN))
    requires row.state == I.Planned && !row.approvalRequired
    ensures Between(End(q), row.(state := I.Executing, version := row.version + 1), row.attempts + 1)
    ensures PcOf(End(q), id).Idle? && Extends(q, p, 0, 1)
  {
    var call := CallFor(End(p).nextCall, 0, PLAN, row.attempts + 1);
    var a := Settled(p, id, row);
    q := Returning(a, 0, id, call, Success);
    CountAppend(End(a).log, Returned(call.id, call.intent.key, Success), 0);
  }

  lemma MovingBetween(p: Path, row: I.Incident, next: I.Incident, restarts: nat) returns (q: Path)
    requires Between(End(p), row, restarts) && next.state !in {I.Executing, I.Planned}
    requires I.Transition(row, row.version, next.state) == I.Committed(next)
    ensures Between(End(q), next, restarts) && End(q).workers == End(p).workers && Extends(q, p, 0, 0)
  {
    q := Moving(p, 0, row, next);
  }

  /** An attempt that verification then rejects: back in DIAGNOSED with one more retry used. */
  lemma Retrying(p: Path, id: WorkerId, row: I.Incident) returns (q: Path)
    requires Between(End(p), row, row.attempts) && PcOf(End(p), id) == Resumed(0, row.attempts, Some(PLAN))
    requires row.state == I.Planned && !row.approvalRequired && row.attempts < row.retryLimit
    ensures Between(End(q), row.(state := I.Diagnosed, version := row.version + 3, attempts := row.attempts + 1), row.attempts + 1)
    ensures PcOf(End(q), id).Idle? && Extends(q, p, 0, 1)
  {
    var a := Succeeding(p, id, row);
    var verifying := row.(state := I.Verifying, version := row.version + 2);
    var b := MovingBetween(a, row.(state := I.Executing, version := row.version + 1), verifying, row.attempts + 1);
    q := MovingBetween(b, verifying, row.(state := I.Diagnosed, version := row.version + 3, attempts := row.attempts + 1), row.attempts + 1);
    assert PcOf(End(q), id) == PcOf(End(a), id);
  }

  /** For every retry limit such a run attains the bounds: min(limit, 1) + 1 restarts with min(limit, 1) entries into EXECUTING,
      the last restart while the incident is not in EXECUTING. */
  lemma OneRetryAttained(limit: nat) returns (p: Path)
    ensures Origin(p) == BLANK && Initial(BLANK) && End(p) == Play(BLANK, Actions(p)) && OwnTransitions(Actions(p))
    ensures 0 in End(p).incidents && End(p).incidents[0].retryLimit == limit
    ensures End(p).incidents[0].state == if limit == 0 then I.Escalated else I.Diagnosed
    ensures RestartCount(End(p).log, 0) == AtMostOne(limit) + 1 && Entries(BLANK, Actions(p), 0) == AtMostOne(limit)
  {
    var a := Planning(Start(BLANK), 0, 1, limit, PLAN);
    if limit == 0 {
      var b := Moving(a, 0, Row(I.Planned, 4, 0, 0), Row(I.Escalated, 5, 0, 0));
      p := Attempting(b, 1, Row(I.Escalated, 5, 0, 0));
    } else {
      var row := Row(I.Diagnosed, 7, 1, limit);
      var b := Retrying(a, 1, Row(I.Planned, 4, 0, limit));
      var c := Resuming(b, 0, 1, row, PLAN);
      p := Attempting(c, 1, row);
    }
    PathIsRun(p, 0);
  }

  /** Some run in which only planning asks for PLANNED restarts an incident with this limit limit + 1 times. */
  ghost predicate LimitIsUsed(limit: nat) {
    exists start, actions, id :: Uses(start, actions, id, limit)
  }

  ghost predicate Uses(start: World, actions: seq<Action>, id: IncidentId, limit: nat) {
    && Initial(start) && OwnTransitions(actions)
    && id in Play(start, actions).incidents && Play(start, actions).incidents[id].retryLimit == limit
    && RestartCount(Play(start, actions).log, id) == limit + 1
  }

  /** The documented limit + 1 dispatches can happen if and only if the limit is at most 1. */
  lemma LimitIsUsedIff(limit: nat)
    ensures LimitIsUsed(limit) <==> limit <= 1
  {
    if limit <= 1 {
      var p := OneRetryAttained(limit);
      assert Uses(BLANK, Actions(p), 0, limit);
    } else {
      forall start, actions, id ensures !Uses(start, actions, id, limit) {
        if Initial(start) && OwnTransitions(actions) {
          OneRetry(start, actions, id);
        }
      }
    }
  }
}
