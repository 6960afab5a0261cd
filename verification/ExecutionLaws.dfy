/** What the steps of `execute` write and answer, stated on the rows, the intent and the report alone. */
module ExecutionLaws {
  import opened Prelude
  import opened ExecutionProtocol
  import opened ExecutionTheorems
  import L = ResourceLocks

  // ---------------------------------------------------------------- execution records

  /** A record is written or found exactly when the step is of the incident's plan, on the plan's resource, and the key is new or
      its record agrees with the intent on incident, step, resource and container. A new record is PENDING at version 1. */
  lemma RecordIff(rows: Rows, plans: Plans, intent: Intent)
    ensures var k := intent.key; var write := RecordExecution(rows, plans, intent);
            && (write.Written? <==>
                  && k.incident in plans && plans[k.incident].step == k.step && plans[k.incident].resource == intent.resource
                  && (k in rows ==>
                        && rows[k].incident == k.incident && rows[k].step == k.step
                        && rows[k].resource == intent.resource && rows[k].container == intent.container))
            && (write.Written? && k in rows ==> write.rows == rows)
            && (write.Written? && k !in rows ==>
                  write.rows == rows[k := Execution(k.incident, k.step, intent.resource, intent.container, Pending, 1)])
  {
  }

  /** A record is finished exactly at the version expected, from PENDING to RUNNING, from RUNNING to SUCCEEDED or FAILED, or from
      FAILED to ROLLEDBACK. */
  lemma FinishIff(rows: Rows, k: Key, expected: nat, status: Status)
    ensures var write := FinishExecution(rows, k, expected, status);
            && (write.Written? <==>
                  && k in rows && rows[k].version == expected
                  && (rows[k].status, status) in {(Pending, Running), (Running, Succeeded), (Running, Failed), (Failed, RolledBack)})
            && (write.Written? ==> write.rows == rows[k := rows[k].(status := status, version := expected + 1)])
  {
  }

  // ---------------------------------------------------------------- admission

  predicate SameExecution(row: Execution, intent: Intent) {
    row == Execution(intent.key.incident, intent.key.step, intent.resource, intent.container, row.status, row.version)
  }

  /** Where the early check sends a call: to the recorded answer, to recovery, on to admission, or out when the key belongs to
      another execution. Only the worker moves. */
  lemma EarlyCheckIff(w: World, id: WorkerId, call: Call)
    requires PcOf(w, id) == Calling(call) && RowOk(w, call.intent.key)
    ensures var v := Apply(w, EarlyCheck(id)); var k := call.intent.key; var pc := PcOf(v, id);
            && v == w.(workers := v.workers)
            && (pc == Admitting(call) <==> k !in w.executions)
            && (pc == Idle <==> k in w.executions && !SameExecution(w.executions[k], call.intent))
            && (k in w.executions && SameExecution(w.executions[k], call.intent) ==>
                  && (pc == Finished(call, Success) <==> w.executions[k].status == Succeeded)
                  && (pc == Finished(call, Failure) <==> w.executions[k].status == Failed)
                  && (pc == Recovering(call, w.executions[k].version) <==> w.executions[k].status == Running))
  {
  }

  /** Recovery takes a running container for a success and anything else for an uncertain failure, if the record is still RUNNING at
      the version read; otherwise it writes and answers nothing. */
  lemma RecoverIff(w: World, id: WorkerId, call: Call, version: nat, running: bool)
    requires PcOf(w, id) == Recovering(call, version)
    ensures var v := Apply(w, Recover(id, running)); var k := call.intent.key;
            if k in w.executions && w.executions[k].status == Running && w.executions[k].version == version
            then && PcOf(v, id) == Finished(call, if running then Success else Uncertain)
                 && v.executions == w.executions[k := w.executions[k].(status := if running then Succeeded else Failed, version := version + 1)]
                 && v.locks == w.locks
            else v == Goto(w, id, Idle)
  {
  }

  /** The admission transaction goes through exactly when the lock is granted for 120 seconds, the step is of the incident's plan, and
      the key is new or its record is this execution's. */
  predicate Admissible(w: World, call: Call) {
    var k := call.intent.key;
    && L.AcquireLock(w.locks, call.actor, call.intent.resource, 120).1.Acquired?
    && k.incident in w.plans && w.plans[k.incident].step == k.step && w.plans[k.incident].resource == call.intent.resource
    && (k in w.executions ==> SameExecution(w.executions[k], call.intent))
  }

  lemma AdmitIff(w: World, id: WorkerId, call: Call, running: bool)
    requires PcOf(w, id) == Admitting(call) && RowOk(w, call.intent.key)
    ensures var v := Apply(w, Admit(id, running)); var k := call.intent.key;
            var locked := L.AcquireLock(w.locks, call.actor, call.intent.resource, 120).0;
            && (!Admissible(w, call) ==> v == Goto(w, id, Idle))
            && (Admissible(w, call) ==>
                  && v.locks == locked
                  && (k !in w.executions ==>
                        && PcOf(v, id) == Dispatching(call, w.locks.nextToken, 2)
                        && v.executions == w.executions[k := Execution(k.incident, k.step, call.intent.resource, call.intent.container, Running, 2)])
                  && (k in w.executions && w.executions[k].status != Running ==>
                        && PcOf(v, id) == Finished(call, if w.executions[k].status == Succeeded then Success else Failure)
                        && v.executions == w.executions)
                  && (k in w.executions && w.executions[k].status == Running ==>
                        && PcOf(v, id) == Finished(call, if running then Success else Uncertain)
                        && v.executions == w.executions[k := w.executions[k].(status := if running then Succeeded else Failed,
                                                                             version := w.executions[k].version + 1)]))
  {
    if Admissible(w, call) {
      AdmitGranted(w, id, call, running);
    }
  }

  lemma AdmitGranted(w: World, id: WorkerId, call: Call, running: bool)
    requires PcOf(w, id) == Admitting(call) && RowOk(w, call.intent.key) && Admissible(w, call)
    ensures var v := Apply(w, Admit(id, running)); var k := call.intent.key;
            && v.locks == L.AcquireLock(w.locks, call.actor, call.intent.resource, 120).0
            && (k !in w.executions ==>
                  v.executions == w.executions[k := Execution(k.incident, k.step, call.intent.resource, call.intent.container, Running, 2)])
  {
    var k := call.intent.key;
    RecordIff(w.executions, w.plans, call.intent);
    if k !in w.executions {
      var pending := Execution(k.incident, k.step, call.intent.resource, call.intent.container, Pending, 1);
      assert w.executions[k := pending][k := pending.(status := Running, version := 2)] == w.executions[k := pending.(status := Running, version := 2)];
    }
  }

  // ---------------------------------------------------------------- settlement

  /** The restart is proved: Docker reported no error, or after an error the container shows a higher restart count than before, or a
      start no earlier than two seconds before the dispatch. */
  predicate Proved(report: RestartReport) {
    match report
    case Clean => true
    case ContainerGone => false
    case Exception(before, after, dispatchedAt) =>
      && after.Some?
      && (before < after.value.restartCount
          || (after.value.startedAt.Some? && dispatchedAt - 2 * SECOND <= after.value.startedAt.value))
  }

  /** How every dispatch is settled. A record that is no longer RUNNING at this worker's version, or, unless the outcome is uncertain, a
      lock row in other hands, rolls everything back. A proved restart is SUCCEEDED and frees the resource; a vanished container
      is FAILED and frees it; anything else is FAILED, answered UNCERTAIN, and quarantines the resource. */
  lemma SettlesIff(w: World, id: WorkerId)
    requires PcOf(w, id).Dispatched?
    ensures var v := Apply(w, Settle(id)); var pc := PcOf(w, id); var k := pc.call.intent.key; var r := pc.call.intent.resource;
            var open := k in w.executions && w.executions[k].status == Running && w.executions[k].version == pc.version;
            var own := r in w.locks.rows ==> w.locks.rows[r].token == pc.token && w.locks.rows[r].owner == pc.call.actor;
            var uncertain := pc.report.Exception? && !Proved(pc.report);
            if !open || (!uncertain && !own) then v == Goto(w, id, Idle)
            else
              && v.executions == w.executions[k := w.executions[k].(status := if Proved(pc.report) then Succeeded else Failed, version := pc.version + 1)]
              && PcOf(v, id) == Finished(pc.call, if Proved(pc.report) then Success else if uncertain then Uncertain else Failure)
              && (uncertain ==> L.IsQuarantined(v.locks, r))
              && (!uncertain && !L.IsQuarantined(w.locks, r) ==> v.locks == w.locks.(rows := w.locks.rows - {r}))
              && (forall x :: x != r ==> (x in v.locks.rows <==> x in w.locks.rows) && (x in w.locks.rows ==> v.locks.rows[x] == w.locks.rows[x]))
  {
    var r := PcOf(w, id).call.intent.resource;
    if r !in w.locks.rows {
      assert w.locks.rows - {r} == w.locks.rows;
    }
  }

  // ---------------------------------------------------------------- the emergency stop

  lemma HaltedStep(w: World, a: Action, r: L.Resource)
    requires L.Halted(w.locks, r) && !(a.LockAction? && a.op.SetControl?)
    ensures L.Halted(Apply(w, a).locks, r) && !BeginsDispatch(w, a, r)
  {
    var op := LocksStep(w, a);
    if a.Admit? && PcOf(w, a.worker).Admitting? {
      AdmitNeedsLock(w, a.worker, PcOf(w, a.worker).call, a.running);
      L.AcquireIff(w.locks, PcOf(w, a.worker).call.actor, r, LOCK_SECONDS);
    }
  }

  lemma AdmitNeedsLock(w: World, id: WorkerId, call: Call, running: bool)
    ensures PcOf(DoAdmit(w, id, call, running), id).Dispatching? ==>
              && PcOf(DoAdmit(w, id, call, running), id).call == call
              && L.AcquireLock(w.locks, call.actor, call.intent.resource, LOCK_SECONDS).1.Acquired?
  {
  }

  /** While automation is disabled or the resource is on the emergency stop list, and the controls are left alone, no run begins a
      dispatch on it. */
  lemma {:induction false} NoDispatchWhileHalted(w: World, actions: seq<Action>, r: L.Resource)
    requires L.Halted(w.locks, r) && forall a :: a in actions ==> !(a.LockAction? && a.op.SetControl?)
    ensures L.Halted(Play(w, actions).locks, r)
    ensures forall i :: 0 <= i < |actions| ==> !BeginsDispatch(Play(w, actions[..i]), actions[i], r)
    decreases |actions|
  {
    if actions != [] {
      assert actions[0] in actions;
      assert forall a :: a in actions[1..] ==> a in actions;
      HaltedStep(w, actions[0], r);
      NoDispatchWhileHalted(Apply(w, actions[0]), actions[1..], r);
      forall i | 0 <= i < |actions| ensures !BeginsDispatch(Play(w, actions[..i]), actions[i], r) {
        if i > 0 {
          assert actions[..i][1..] == actions[1..][..i - 1];
          assert actions[i] == actions[1..][i - 1];
        }
      }
    }
  }
}
