/** What the execution protocol guarantees over every interleaving of workers, crashes, replays and retries. */
module ExecutionTheorems {
  import opened Prelude
  import opened ExecutionProtocol
  import L = ResourceLocks
  import I = IncidentLifecycle

  /** A step of the environment on the lock or incident table. */
  predicate TouchesTables(a: Action) {
    a.LockAction? || a.CreateIncident? || a.MoveIncident? || a.RouteIncident?
  }

  lemma InitialInv(w: World)
    requires Initial(w)
    ensures Inv(w)
  {
  }

  // ---------------------------------------------------------------- the restart bound

  /** How many times the Docker restart was issued for an incident. */
  function RestartCount(log: seq<Event>, id: IncidentId): nat {
    if log == [] then 0
    else
      var e := log[|log| - 1];
      RestartCount(log[..|log| - 1], id) + if e.RestartIssued? && e.key.incident == id then 1 else 0
  }

  ghost predicate CountedBy(log: seq<Event>, id: IncidentId, keys: set<Key>) {
    && |keys| == RestartCount(log, id)
    && forall k :: k in keys <==> k.incident == id && Restarted(log, k)
  }

  lemma {:induction false} CountRestarts(log: seq<Event>, id: IncidentId) returns (keys: set<Key>)
    requires RestartsDistinct(log)
    ensures CountedBy(log, id, keys)
    decreases |log|
  {
    if log == [] {
      keys := {};
    } else {
      var front, e := log[..|log| - 1], log[|log| - 1];
      keys := CountRestarts(front, id);
      forall k ensures Restarted(log, k) <==> Restarted(front, k) || (e.RestartIssued? && e.key == k) {
        RestartedAppend(front, log, k);
      }
      if e.RestartIssued? && e.key.incident == id {
        assert !Restarted(front, e.key);
        keys := keys + {e.key};
      }
    }
  }

  /** The keys an incident can use: one per attempt. */
  lemma {:induction false} AttemptKeys(id: IncidentId, version: nat, step: StepId, n: nat) returns (keys: set<Key>)
    ensures |keys| == n
    ensures forall k :: k in keys <==> k == Key(id, version, step, k.attempt) && 1 <= k.attempt <= n
  {
    if n == 0 {
      keys := {};
    } else {
      keys := AttemptKeys(id, version, step, n - 1);
      keys := keys + {Key(id, version, step, n)};
    }
  }

  lemma SubsetCard<T>(a: set<T>, b: set<T>)
    requires a <= b
    ensures |a| <= |b|
  {
    assert b == a + (b - a);
  }

  /** Over every interleaving of workers, crashes, replays and retries, the restart is issued at most once per
      idempotency key, and for an incident at most once more than the retries it has used, so at most retryLimit + 1 times. */
  lemma RestartBound(start: World, actions: seq<Action>, id: IncidentId)
    requires Initial(start)
    ensures var w := Play(start, actions);
            && RestartsDistinct(w.log)
            && RestartCount(w.log, id) <= (if id in w.incidents then w.incidents[id].attempts + 1 else 0)
            && (id in w.incidents ==> w.incidents[id].attempts <= w.incidents[id].retryLimit)
  {
    InitialInv(start);
    PlayKeepsInv(start, actions);
    var w := Play(start, actions);
    var keys := CountRestarts(w.log, id);
    forall k | k in keys ensures KeyOk(w, k) && k.incident == id {
      var i :| 0 <= i < |w.log| && w.log[i].RestartIssued? && w.log[i].key == k;
      assert EventOk(w, w.log[i]);
    }
    if id in w.incidents && id in w.plans {
      var plan := w.plans[id];
      var possible := AttemptKeys(id, plan.version, plan.step, w.incidents[id].attempts + 1);
      SubsetCard(keys, possible);
    } else {
      assert keys == {};
    }
  }

  // ---------------------------------------------------------------- restarts and EXECUTING

  predicate InState(w: World, id: IncidentId, state: I.State) {
    id in w.incidents && w.incidents[id].state == state
  }

  /** How often a run takes the incident into EXECUTING. */
  function Entries(w: World, actions: seq<Action>, id: IncidentId): nat
    decreases |actions|
  {
    if actions == [] then 0
    else
      var v := Apply(w, actions[0]);
      (if InState(v, id, I.Executing) && !InState(w, id, I.Executing) then 1 else 0) + Entries(v, actions[1..], id)
  }

  /** The entries an incident row accounts for: each used retry, and the attempt it is in. */
  function Accounted(w: World, id: IncidentId): nat {
    if id !in w.incidents then 0
    else w.incidents[id].attempts + if InState(w, id, I.Executing) || InState(w, id, I.Verifying) then 1 else 0
  }

  /** What a step can do to an incident row. */
  lemma RowStep(w: World, a: Action, id: IncidentId)
    requires id in w.incidents
    ensures var v := Apply(w, a);
            && id in v.incidents
            && (v.incidents[id] == w.incidents[id] || I.Follows(w.incidents[id], v.incidents[id]))
  {
    match a
    case MoveIncident(_, _, _) =>
    case RouteIncident(_, _) =>
    case CommitPlan(_, _, _, _, _) =>
    case Dispatch(_, _) =>
    case Admit(x, running) => AdmitKeepsIncidents(w, x, running);
    case Settle(x) => SettleKeepsIncidents(w, x);
    case _ =>
  }

  lemma AdmitKeepsIncidents(w: World, id: WorkerId, running: bool)
    ensures Apply(w, Admit(id, running)).incidents == w.incidents
  {
  }

  lemma SettleKeepsIncidents(w: World, id: WorkerId)
    ensures Apply(w, Settle(id)).incidents == w.incidents
  {
  }

  lemma AccountedStep(w: World, a: Action, id: IncidentId)
    ensures Accounted(Apply(w, a), id) <=
            Accounted(w, id) + if InState(Apply(w, a), id, I.Executing) && !InState(w, id, I.Executing) then 1 else 0
  {
    if id in w.incidents {
      RowStep(w, a, id);
    } else {
      RowCreated(w, a, id);
    }
  }

  lemma RowCreated(w: World, a: Action, id: IncidentId)
    requires id !in w.incidents
    ensures id in Apply(w, a).incidents ==> Apply(w, a).incidents[id].attempts == 0 && InState(Apply(w, a), id, I.Detected)
  {
    match a
    case Admit(x, running) => AdmitKeepsIncidents(w, x, running);
    case Settle(x) => SettleKeepsIncidents(w, x);
    case _ =>
  }

  lemma {:induction false} AccountedRun(w: World, actions: seq<Action>, id: IncidentId)
    ensures Accounted(Play(w, actions), id) <= Accounted(w, id) + Entries(w, actions, id)
    decreases |actions|
  {
    if actions != [] {
      AccountedStep(w, actions[0], id);
      AccountedRun(Apply(w, actions[0]), actions[1..], id);
    }
  }

  /** Over every run the restarts of an incident exceed its entries into EXECUTING by at most one. */
  lemma RestartsPerEntry(start: World, actions: seq<Action>, id: IncidentId)
    requires Initial(start)
    ensures RestartCount(Play(start, actions).log, id) <= Entries(start, actions, id) + 1
  {
    RestartBound(start, actions, id);
    AccountedRun(start, actions, id);
  }

  /** No transition asks for PLANNED except that of `plan_node`, which is part of the CommitPlan step. Nothing else in the
      system asks for it. */
  predicate OwnTransitions(actions: seq<Action>) {
    forall a :: a in actions && a.MoveIncident? ==> a.target != I.Planned
  }

  /** When the call of `execute` begins, the row is EXECUTING exactly if it was PLANNED, APPROVED or EXECUTING before; in every
      other state, terminal ones included, the dispatch goes ahead and leaves the incident table alone. */
  lemma DispatchState(w: World, id: WorkerId, actor: L.Actor)
    requires PcOf(w, id).Resumed? && PcOf(Apply(w, Dispatch(id, actor)), id).Calling?
    ensures var v := Apply(w, Dispatch(id, actor)); var inc := PcOf(w, id).incident;
            && inc in w.incidents
            && (InState(v, inc, I.Executing) <==> w.incidents[inc].state in {I.Planned, I.Approved, I.Executing})
            && v.incidents == (if w.incidents[inc].state in {I.Planned, I.Approved}
                               then w.incidents[inc := w.incidents[inc].(state := I.Executing, version := w.incidents[inc].version + 1)]
                               else w.incidents)
            && v == w.(incidents := v.incidents, workers := v.workers, nextCall := v.nextCall, log := v.log)
  {
  }

  // ---------------------------------------------------------------- replays

  predicate HasCall(pc: Pc) {
    !pc.Idle? && !pc.Resumed?
  }

  /** A call numbered `first` or later, for a key already settled with `status`. */
  predicate LatePcOk(pc: Pc, k: Key, status: Status, first: nat) {
    HasCall(pc) && pc.call.id >= first && pc.call.intent.key == k ==>
      pc.Calling? || (pc.Finished? && pc.verdict == Reuse(status))
  }

  predicate LateEventOk(e: Event, k: Key, status: Status, first: nat) {
    e.id >= first && e.key == k ==> e.Called? || (e.Returned? && e.verdict == Reuse(status))
  }

  ghost predicate Quiet(w: World, k: Key, status: Status, first: nat) {
    && k in w.executions && w.executions[k].status == status
    && (forall id :: LatePcOk(PcOf(w, id), k, status, first))
    && (forall i :: 0 <= i < |w.log| ==> LateEventOk(w.log[i], k, status, first))
  }

  /** What each worker step does to its own program counter, as far as late calls are concerned. */
  ghost predicate QuietStep(w: World, v: World, id: WorkerId, k: Key, status: Status, first: nat) {
    && LatePcOk(PcOf(v, id), k, status, first)
    && (|v.log| > |w.log| ==> LateEventOk(v.log[|w.log|], k, status, first))
  }

  lemma AdmitKeepsCall(w: World, id: WorkerId, call: Call, running: bool)
    ensures var pc := PcOf(DoAdmit(w, id, call, running), id); pc.Idle? || (HasCall(pc) && pc.call == call)
    ensures DoAdmit(w, id, call, running).log == w.log
  {
  }

  lemma SettleKeepsCall(w: World, id: WorkerId, pc: Pc)
    requires pc.Dispatched?
    ensures var after := PcOf(DoSettle(w, id, pc), id); after.Idle? || (HasCall(after) && after.call == pc.call)
    ensures DoSettle(w, id, pc).log == w.log
  {
  }

  lemma QuietWorkerStep(w: World, a: Action, k: Key, status: Status, first: nat)
    requires Inv(w) && Quiet(w, k, status, first) && status in {Succeeded, Failed}
    requires !TouchesTables(a)
    ensures QuietStep(w, Apply(w, a), a.worker, k, status, first)
  {
    var pc := PcOf(w, a.worker);
    assert LatePcOk(pc, k, status, first);
    match a
    case Admit(id, running) =>
      if pc.Admitting? {
        AdmitKeepsCall(w, id, pc.call, running);
      }
    case Settle(id) =>
      if pc.Dispatched? {
        SettleKeepsCall(w, id, pc);
      }
    case CommitPlan(_, _, _, _, _) =>
    case Dispatch(_, _) =>
    case EarlyCheck(_) =>
    case _ =>
  }

  lemma QuietKept(w: World, a: Action, k: Key, status: Status, first: nat)
    requires Inv(w) && Quiet(w, k, status, first) && status in {Succeeded, Failed}
    ensures Quiet(Apply(w, a), k, status, first)
  {
    var v := Apply(w, a);
    if TouchesTables(a) {
      assert v.log == w.log && v.workers == w.workers && v.executions == w.executions;
      assert forall id :: PcOf(v, id) == PcOf(w, id);
    } else if v != w {
      WorkerStepExists(w, a);
      QuietWorkerStep(w, a, k, status, first);
      QuietFrame(w, v, a.worker, k, status, first);
    }
  }

  lemma QuietFrame(w: World, v: World, id: WorkerId, k: Key, status: Status, first: nat)
    requires Quiet(w, k, status, first) && status in {Succeeded, Failed}
    requires WorkerStep(w, v, id) && QuietStep(w, v, id, k, status, first)
    ensures Quiet(v, k, status, first)
  {
    forall x ensures LatePcOk(PcOf(v, x), k, status, first) {
      if x != id {
        assert PcOf(v, x) == PcOf(w, x);
      }
    }
    forall i | 0 <= i < |v.log| ensures LateEventOk(v.log[i], k, status, first) {
      if i < |w.log| {
        assert v.log[i] == w.log[i];
      }
    }
  }

  lemma {:induction false} StaysQuiet(w: World, actions: seq<Action>, k: Key, status: Status, first: nat)
    requires Inv(w) && Quiet(w, k, status, first) && status in {Succeeded, Failed}
    ensures Quiet(Play(w, actions), k, status, first)
    decreases |actions|
  {
    if actions != [] {
      StepKeepsInv(w, actions[0]);
      QuietKept(w, actions[0], k, status, first);
      StaysQuiet(Apply(w, actions[0]), actions[1..], k, status, first);
    }
  }

  /** Replays are stable. Once some call for a key has returned (position i of the log), every call for that key begun
      later returns SUCCEEDED if the first one did and FAILED otherwise, and none of them issues a restart,
      whatever crashes, replays and retries happen in between. */
  lemma ReplayStable(start: World, before: seq<Action>, after: seq<Action>, i: nat, j: nat)
    requires Initial(start)
    requires var mid := Play(start, before); i < |mid.log| && mid.log[i].Returned?
    requires j < |Play(Play(start, before), after).log|
    ensures var mid := Play(start, before);
            var first, later := mid.log[i], Play(mid, after).log[j];
            later.id >= mid.nextCall && later.key == first.key ==>
              && !later.RestartIssued?
              && (later.Returned? ==> later.verdict == if first.verdict == Success then Success else Failure)
  {
    InitialInv(start);
    PlayKeepsInv(start, before);
    var mid := Play(start, before);
    var first := mid.log[i];
    assert EventOk(mid, first);
    var status := mid.executions[first.key].status;
    forall id ensures LatePcOk(PcOf(mid, id), first.key, status, mid.nextCall) {
      assert PcOk(mid, PcOf(mid, id));
    }
    forall n | 0 <= n < |mid.log| ensures LateEventOk(mid.log[n], first.key, status, mid.nextCall) {
      assert EventOk(mid, mid.log[n]);
    }
    StaysQuiet(mid, after, first.key, status, mid.nextCall);
    assert LateEventOk(Play(mid, after).log[j], first.key, status, mid.nextCall);
  }

  /** All calls for one key, concurrent ones included, agree on whether the restart succeeded. */
  lemma VerdictsAgree(start: World, actions: seq<Action>, i: nat, j: nat)
    requires Initial(start)
    requires var log := Play(start, actions).log;
             i < |log| && j < |log| && log[i].Returned? && log[j].Returned? && log[i].key == log[j].key
    ensures var log := Play(start, actions).log; log[i].verdict == Success <==> log[j].verdict == Success
  {
    InitialInv(start);
    PlayKeepsInv(start, actions);
    var w := Play(start, actions);
    assert EventOk(w, w.log[i]) && EventOk(w, w.log[j]);
  }

  // ---------------------------------------------------------------- quarantine

  predicate BeginsDispatch(w: World, a: Action, r: L.Resource) {
    && a.Admit? && !PcOf(w, a.worker).Dispatching?
    && PcOf(Apply(w, a), a.worker).Dispatching? && PcOf(Apply(w, a), a.worker).call.intent.resource == r
  }

  lemma QuarantineHolds(w: World, a: Action, r: L.Resource)
    requires L.IsQuarantined(w.locks, r) && a != LockAction(L.Clear(r))
    ensures L.IsQuarantined(Apply(w, a).locks, r) && !BeginsDispatch(w, a, r)
  {
    match a
    case LockAction(op) => L.QuarantineStep(w.locks, op, r);
    case Admit(id, running) =>
      if PcOf(w, id).Admitting? {
        AdmitQuarantine(w, id, PcOf(w, id).call, running, r);
      }
    case Settle(id) =>
      if PcOf(w, id).Dispatched? {
        SettleQuarantine(w, id, PcOf(w, id), r);
      }
    case _ => assert Apply(w, a).locks == w.locks;
  }

  lemma AdmitQuarantine(w: World, id: WorkerId, call: Call, running: bool, r: L.Resource)
    requires L.IsQuarantined(w.locks, r)
    ensures var v := DoAdmit(w, id, call, running);
            && L.IsQuarantined(v.locks, r)
            && (PcOf(v, id).Dispatching? ==> PcOf(v, id).call == call && call.intent.resource != r)
  {
    L.QuarantineStep(w.locks, L.Acquire(call.actor, call.intent.resource, LOCK_SECONDS), r);
  }

  lemma SettleQuarantine(w: World, id: WorkerId, pc: Pc, r: L.Resource)
    requires L.IsQuarantined(w.locks, r) && pc.Dispatched?
    ensures L.IsQuarantined(DoSettle(w, id, pc).locks, r)
  {
    L.QuarantineStep(w.locks, L.Release(pc.call.actor, pc.call.intent.resource, pc.token), r);
    L.QuarantineStep(w.locks, L.Quarantine(pc.call.intent.resource), r);
  }

  /** After a quarantine no new dispatch on the resource begins in any continuation without `clear_quarantine`. */
  lemma {:induction false} NoDispatchWhileQuarantined(w: World, actions: seq<Action>, r: L.Resource)
    requires L.IsQuarantined(w.locks, r) && LockAction(L.Clear(r)) !in actions
    ensures L.IsQuarantined(Play(w, actions).locks, r)
    ensures forall i :: 0 <= i < |actions| ==> !BeginsDispatch(Play(w, actions[..i]), actions[i], r)
    decreases |actions|
  {
    if actions != [] {
      assert actions[0] in actions;
      QuarantineHolds(w, actions[0], r);
      NoDispatchWhileQuarantined(Apply(w, actions[0]), actions[1..], r);
      forall i | 0 <= i < |actions| ensures !BeginsDispatch(Play(w, actions[..i]), actions[i], r) {
        if i > 0 {
          assert actions[..i][1..] == actions[1..][..i - 1];
          assert actions[i] == actions[1..][i - 1];
        }
      }
    }
  }

  /** Which step made a call end UNCERTAIN. */
  predicate EndsUncertain(w: World, a: Action) {
    && (a.Recover? || a.Admit? || a.Settle?)
    && !PcOf(w, a.worker).Finished?
    && PcOf(Apply(w, a), a.worker).Finished? && PcOf(Apply(w, a), a.worker).verdict == Uncertain
  }

  /** An UNCERTAIN outcome leaves the resource quarantined exactly when it comes from the worker that dispatched the
      restart; the two crash-recovery branches report UNCERTAIN without adding a quarantine. */
  lemma UncertainQuarantine(w: World, a: Action)
    requires EndsUncertain(w, a)
    ensures var v := Apply(w, a); var r := PcOf(v, a.worker).call.intent.resource;
            && (a.Settle? ==> L.IsQuarantined(v.locks, r))
            && (a.Admit? ==> !L.IsQuarantined(v.locks, r))
            && (a.Recover? ==> v.locks == w.locks)
  {
    match a
    case Admit(id, running) => UncertainAdmit(w, id, PcOf(w, id).call, running);
    case Settle(id) => UncertainSettle(w, id, PcOf(w, id));
    case Recover(_, _) =>
  }

  lemma UncertainAdmit(w: World, id: WorkerId, call: Call, running: bool)
    requires PcOf(DoAdmit(w, id, call, running), id).Finished?
    ensures PcOf(DoAdmit(w, id, call, running), id).call == call
    ensures !L.IsQuarantined(DoAdmit(w, id, call, running).locks, call.intent.resource)
  {
  }

  lemma UncertainSettle(w: World, id: WorkerId, pc: Pc)
    requires pc.Dispatched? && PcOf(DoSettle(w, id, pc), id) == Finished(pc.call, Uncertain)
    ensures L.IsQuarantined(DoSettle(w, id, pc).locks, pc.call.intent.resource)
  {
  }

  /** The run-level consequence: after an UNCERTAIN outcome of the worker that dispatched, no continuation without
      `clear_quarantine` begins another dispatch on the resource. */
  lemma UncertainBlocksDispatch(w: World, a: Action, actions: seq<Action>)
    requires EndsUncertain(w, a) && a.Settle?
    requires LockAction(L.Clear(PcOf(Apply(w, a), a.worker).call.intent.resource)) !in actions
    ensures var v := Apply(w, a); var r := PcOf(v, a.worker).call.intent.resource;
            && L.IsQuarantined(Play(v, actions).locks, r)
            && forall i :: 0 <= i < |actions| ==> !BeginsDispatch(Play(v, actions[..i]), actions[i], r)
  {
    UncertainQuarantine(w, a);
    NoDispatchWhileQuarantined(Apply(w, a), actions, PcOf(Apply(w, a), a.worker).call.intent.resource);
  }

  // ---------------------------------------------------------------- settling a clean restart

  /** A clean restart is recorded SUCCEEDED exactly when the record is still RUNNING at the version this worker committed and
      the lock row is gone or still its own; in every other case the transaction rolls back, the record stays as it is, and
      no verdict is returned. */
  lemma CleanSettles(w: World, id: WorkerId)
    requires PcOf(w, id).Dispatched? && PcOf(w, id).report.Clean?
    ensures var v := Apply(w, Settle(id)); var pc := PcOf(w, id); var k := pc.call.intent.key; var r := pc.call.intent.resource;
            var open := k in w.executions && w.executions[k].status == Running && w.executions[k].version == pc.version;
            var own := r in w.locks.rows ==> w.locks.rows[r].token == pc.token && w.locks.rows[r].owner == pc.call.actor;
            if open && own
            then PcOf(v, id) == Finished(pc.call, Success)
                 && v.executions == w.executions[k := w.executions[k].(status := Succeeded, version := pc.version + 1)]
            else v == Goto(w, id, Idle)
  {
  }

  // ---------------------------------------------------------------- the lock and the dispatch

  /** Workers that committed RUNNING and have not settled hold distinct, issued tokens. */
  predicate Owns(pc: Pc) {
    pc.Dispatching? || pc.Dispatched?
  }

  ghost predicate TokensOk(w: World) {
    && L.TokensIssued(w.locks)
    && (forall id :: Owns(PcOf(w, id)) ==> PcOf(w, id).token < w.locks.nextToken)
    && (forall x, y :: x != y && Owns(PcOf(w, x)) && Owns(PcOf(w, y)) ==> PcOf(w, x).token != PcOf(w, y).token)
  }

  /** What a step means for tokens: it issues new ones only, and gives a worker a new one or leaves it with its own. */
  ghost predicate TokenStep(w: World, v: World, id: WorkerId) {
    && L.TokensIssued(v.locks) && w.locks.nextToken <= v.locks.nextToken
    && (forall x :: x != id ==> PcOf(v, x) == PcOf(w, x))
    && (Owns(PcOf(v, id)) ==>
          || (Owns(PcOf(w, id)) && PcOf(v, id).token == PcOf(w, id).token)
          || w.locks.nextToken <= PcOf(v, id).token < v.locks.nextToken)
  }

  lemma TokenStepKeeps(w: World, v: World, id: WorkerId)
    requires TokensOk(w) && TokenStep(w, v, id)
    ensures TokensOk(v)
  {
    forall x, y | x != y && Owns(PcOf(v, x)) && Owns(PcOf(v, y)) ensures PcOf(v, x).token != PcOf(v, y).token {
      assert x != id ==> PcOf(v, x) == PcOf(w, x);
      assert y != id ==> PcOf(v, y) == PcOf(w, y);
    }
  }

  lemma AdmitTokens(w: World, id: WorkerId, call: Call, running: bool)
    requires L.TokensIssued(w.locks)
    ensures TokenStep(w, DoAdmit(w, id, call, running), id)
  {
  }

  lemma SettleTokens(w: World, id: WorkerId, pc: Pc)
    requires L.TokensIssued(w.locks) && pc.Dispatched?
    ensures TokenStep(w, DoSettle(w, id, pc), id)
  {
  }

  lemma LockTokens(w: World, op: L.LockOp)
    requires L.TokensIssued(w.locks)
    ensures TokenStep(w, Apply(w, LockAction(op)), 0)
  {
    L.TokensStayIssued(w.locks, [op]);
    assert [op][1..] == [];
    assert L.Run(w.locks, [op]) == L.Step(w.locks, op).0;
    assert forall x :: PcOf(Apply(w, LockAction(op)), x) == PcOf(w, x);
  }

  /** Steps that leave the locks alone and hand out no token. */
  lemma PlainTokens(w: World, v: World, id: WorkerId)
    requires L.TokensIssued(w.locks) && v.locks == w.locks && v.workers == w.workers[id := PcOf(v, id)]
    requires Owns(PcOf(v, id)) ==> Owns(PcOf(w, id)) && PcOf(v, id).token == PcOf(w, id).token
    ensures TokenStep(w, v, id)
  {
  }

  lemma OtherTokens(w: World, a: Action)
    requires L.TokensIssued(w.locks) && !TouchesTables(a) && !a.Admit? && !a.Settle? && Apply(w, a) != w
    ensures TokenStep(w, Apply(w, a), a.worker)
  {
    PlainTokens(w, Apply(w, a), a.worker);
  }

  lemma StepTokens(w: World, a: Action)
    requires TokensOk(w)
    ensures TokensOk(Apply(w, a))
  {
    if a.LockAction? {
      LockTokens(w, a.op);
      TokenStepKeeps(w, Apply(w, a), 0);
    } else if TouchesTables(a) {
      assert Apply(w, a).locks == w.locks && Apply(w, a).workers == w.workers;
      assert forall x :: PcOf(Apply(w, a), x) == PcOf(w, x);
      TokenStepKeeps(w, Apply(w, a), 0);
    } else if a.Admit? {
      if PcOf(w, a.worker).Admitting? {
        AdmitTokens(w, a.worker, PcOf(w, a.worker).call, a.running);
        TokenStepKeeps(w, Apply(w, a), a.worker);
      }
    } else if a.Settle? {
      if PcOf(w, a.worker).Dispatched? {
        SettleTokens(w, a.worker, PcOf(w, a.worker));
        TokenStepKeeps(w, Apply(w, a), a.worker);
      }
    } else if Apply(w, a) != w {
      OtherTokens(w, a);
      TokenStepKeeps(w, Apply(w, a), a.worker);
    }
  }

  lemma {:induction false} PlayTokens(w: World, actions: seq<Action>)
    requires TokensOk(w)
    ensures TokensOk(Play(w, actions))
    decreases |actions|
  {
    if actions != [] {
      StepTokens(w, actions[0]);
      PlayTokens(Apply(w, actions[0]), actions[1..]);
    }
  }

  predicate Live(w: World, pc: Pc) {
    Owns(pc) && L.Verify(w.locks, pc.call.actor, pc.call.intent.resource, pc.token)
  }

  /** Mutual exclusion over every run: of the workers between admission and settlement on one resource, at most one has a
      token that still verifies. */
  lemma OneLiveDispatcher(start: World, actions: seq<Action>, x: WorkerId, y: WorkerId)
    requires Initial(start) && L.TokensIssued(start.locks)
    ensures var w := Play(start, actions); var p, q := PcOf(w, x), PcOf(w, y);
            Live(w, p) && Live(w, q) && p.call.intent.resource == q.call.intent.resource ==> x == y
  {
    PlayTokens(start, actions);
    var w := Play(start, actions);
    var p, q := PcOf(w, x), PcOf(w, y);
    if Live(w, p) {
      L.Exclusive(w.locks, p.call.actor, p.call.intent.resource, p.token);
    }
  }

  // ---------------------------------------------------------------- restarting under a lock that still stands

  /** Every step of the protocol is one operation on the locks, or none, which a tick of no length stands for. */
  lemma LocksStep(w: World, a: Action) returns (op: L.LockOp)
    ensures Apply(w, a).locks == L.Step(w.locks, op).0 && (op.SetControl? ==> a == LockAction(op))
  {
    op := L.Tick(0);
    if a.LockAction? {
      op := a.op;
    } else if a.Admit? && PcOf(w, a.worker).Admitting? {
      op := AdmitLocks(w, a.worker, PcOf(w, a.worker).call, a.running);
    } else if a.Settle? && PcOf(w, a.worker).Dispatched? {
      op := SettleLocks(w, a.worker, PcOf(w, a.worker));
    } else {
      RestKeepsLocks(w, a);
    }
  }

  lemma RestKeepsLocks(w: World, a: Action)
    requires !a.LockAction? && !(a.Admit? && PcOf(w, a.worker).Admitting?) && !(a.Settle? && PcOf(w, a.worker).Dispatched?)
    ensures Apply(w, a).locks == w.locks
  {
  }

  lemma AdmitLocks(w: World, id: WorkerId, call: Call, running: bool) returns (op: L.LockOp)
    ensures DoAdmit(w, id, call, running).locks == L.Step(w.locks, op).0 && !op.SetControl?
  {
    op := if DoAdmit(w, id, call, running).locks == w.locks then L.Tick(0) else L.Acquire(call.actor, call.intent.resource, LOCK_SECONDS);
  }

  lemma SettleLocks(w: World, id: WorkerId, pc: Pc) returns (op: L.LockOp)
    requires pc.Dispatched?
    ensures DoSettle(w, id, pc).locks == L.Step(w.locks, op).0 && !op.SetControl?
  {
    var r := pc.call.intent.resource;
    op := if DoSettle(w, id, pc).locks == w.locks then L.Tick(0)
          else if Judge(pc.report).1 == Uncertain then L.Quarantine(r) else L.Release(pc.call.actor, r, pc.token);
  }

  predicate Granted(w: World, pc: Pc) {
    Owns(pc) && L.Unrevoked(w.locks, pc.call.actor, pc.call.intent.resource, pc.token)
  }

  predicate Expired(w: World, pc: Pc)
    requires Owns(pc)
  {
    pc.call.intent.resource in w.locks.rows && w.locks.rows[pc.call.intent.resource].expiresAt <= w.locks.now
  }

  /** At some point of the run the worker's grant was no longer in place. */
  ghost predicate Revoked(w: World, actions: seq<Action>, pc: Pc)
    decreases |actions|
  {
    !Granted(w, pc) || (actions != [] && Revoked(Apply(w, actions[0]), actions[1..], pc))
  }

  lemma {:induction false} RevokedForGood(w: World, actions: seq<Action>, pc: Pc)
    requires TokensOk(w) && Owns(pc) && pc.token < w.locks.nextToken
    ensures Revoked(w, actions, pc) <==> !Granted(Play(w, actions), pc)
    decreases |actions|
  {
    if actions != [] {
      var op := LocksStep(w, actions[0]);
      StepTokens(w, actions[0]);
      NextTokenGrows(w.locks, op);
      RevokedForGood(Apply(w, actions[0]), actions[1..], pc);
      if !Granted(w, pc) {
        L.RevokedStep(w.locks, op, pc.call.actor, pc.call.intent.resource, pc.token);
      }
    }
  }

  lemma NextTokenGrows(db: L.LockDb, op: L.LockOp)
    ensures db.nextToken <= L.Step(db, op).0.nextToken
  {
  }

  /** The code does not verify the lock before the restart. From admission on, the token verifies at the restart if and only if
      at no point in between the grant was revoked and it has not expired. */
  lemma RestartIsFencedIff(w: World, between: seq<Action>, id: WorkerId)
    requires TokensOk(w) && PcOf(w, id).Dispatching? && Granted(w, PcOf(w, id))
    requires PcOf(Play(w, between), id) == PcOf(w, id)
    ensures var v := Play(w, between); var pc := PcOf(w, id);
            Live(v, pc) <==> !Revoked(w, between, pc) && !Expired(v, pc)
  {
    RevokedForGood(w, between, PcOf(w, id));
  }

  /** Admission gives such a grant. */
  lemma AdmissionGrants(w: World, a: Action, r: L.Resource)
    requires BeginsDispatch(w, a, r)
    ensures var v := Apply(w, a); var pc := PcOf(v, a.worker); Granted(v, pc) && !Expired(v, pc) && Live(v, pc)
  {
  }
}
