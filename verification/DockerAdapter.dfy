/** `DockerExecutionAdapter.execute` as imperative code over the execution and lock tables, shown to be a path of the
    execution protocol, together with the repository methods it calls. */
module DockerAdapter {
  import opened Prelude
  import opened ExecutionProtocol
  import T = ExecutionTheorems
  import L = ResourceLocks

  /** The executions table inside one transaction; an exception discards the object. */
  class ExecutionTable {
    const plans: Plans
    var rows: Rows

    constructor (rows: Rows, plans: Plans)
      ensures this.rows == rows && this.plans == plans
    {
      this.rows, this.plans := rows, plans;
    }

    /** `record_execution`: the record for the intent's key, new or existing, unless its step is not of the incident's plan or
        the key belongs to another execution. */
    method Record(intent: Intent) returns (ok: bool)
      modifies this
      ensures ok == RecordExecution(old(rows), plans, intent).Written?
      ensures ok ==> rows == RecordExecution(old(rows), plans, intent).rows && intent.key in rows
      ensures !ok ==> rows == old(rows)
    {
      var key := intent.key;
      if key.incident !in plans || plans[key.incident].step != key.step || plans[key.incident].resource != intent.resource {
        return false;
      }
      if intent.key !in rows {
        rows := rows[intent.key := NewExecution(intent)];
        return true;
      }
      var row := rows[intent.key];
      ok := (row.incident, row.step, row.resource) == (intent.key.incident, intent.key.step, intent.resource)
            && row.container == intent.container;
    }

    /** `finish_execution`: compare-and-swap on the version along the legal status moves. */
    method Finish(key: Key, expected: nat, status: Status) returns (ok: bool)
      modifies this
      ensures ok == FinishExecution(old(rows), key, expected, status).Written?
      ensures ok ==> rows == FinishExecution(old(rows), key, expected, status).rows
      ensures !ok ==> rows == old(rows)
    {
      if key !in rows || rows[key].version != expected { return false; }
      var from := rows[key].status;
      var allowed := match from
        case Pending => {Running}
        case Running => {Succeeded, Failed}
        case Failed => {RolledBack}
        case _ => {};
      if status !in allowed { return false; }
      rows := rows[key := rows[key].(status := status, version := expected + 1)];
      ok := true;
    }
  }

  /** What the Docker daemon shows to one call. */
  datatype Daemon = Daemon(running: bool, report: RestartReport)

  // ---------------------------------------------------------------- the uninterrupted call

  /** The actions of `execute` in program order; those whose branch is not taken are not enabled and change nothing. */
  function ProgramOrder(id: WorkerId, d: Daemon): seq<Action> {
    [EarlyCheck(id), Recover(id, d.running), Admit(id, d.running), Restart(id, d.report), Settle(id), Return(id)]
  }

  function AfterAdmit(w: World, id: WorkerId, d: Daemon): World {
    Apply(Apply(Apply(w, EarlyCheck(id)), Recover(id, d.running)), Admit(id, d.running))
  }

  function AfterReturn(w: World, id: WorkerId, d: Daemon): World {
    Apply(Apply(Apply(w, Restart(id, d.report)), Settle(id)), Return(id))
  }

  lemma PlayInProgramOrder(w: World, id: WorkerId, d: Daemon)
    ensures Play(w, ProgramOrder(id, d)) == AfterReturn(AfterAdmit(w, id, d), id, d)
  {
    var a := ProgramOrder(id, d);
    var w1 := Apply(w, a[0]);
    var w2 := Apply(w1, a[1]);
    var w3 := Apply(w2, a[2]);
    var w4 := Apply(w3, a[3]);
    var w5 := Apply(w4, a[4]);
    assert a[1..][1..][1..][1..][1..][1..] == [];
    assert Play(w4, a[1..][1..][1..][1..]) == Play(w5, a[1..][1..][1..][1..][1..]) == Apply(w5, a[5]);
    assert Play(w2, a[1..][1..]) == Play(w3, a[1..][1..][1..]) == Play(w4, a[1..][1..][1..][1..]);
    assert Play(w, a) == Play(w1, a[1..]) == Play(w2, a[1..][1..]);
  }

  function Returns(pc: Pc): seq<Event> {
    if pc.Finished? then [Returned(pc.call.id, pc.call.intent.key, pc.verdict)] else []
  }

  /** The tables after an uninterrupted call and the events it produced. */
  function ExecuteTables(locks: L.LockDb, rows: Rows, plans: Plans, call: Call, d: Daemon): (L.LockDb, Rows, seq<Event>) {
    var early := EarlyPc(rows, call);
    if early.Recovering? then
      var (settled, pc) := RecoverTables(rows, call, early.version, d.running);
      (locks, settled, Returns(pc))
    else if early.Admitting? then
      var (locked, recorded, pc) := AdmitTables(locks, rows, plans, call, d.running);
      FinishTables(locked, recorded, pc, d)
    else (locks, rows, Returns(early))
  }

  /** What the restart, settle and return actions make of the state in which steps 0 to 2 leave the call. */
  function FinishTables(locks: L.LockDb, rows: Rows, pc: Pc, d: Daemon): (L.LockDb, Rows, seq<Event>) {
    if pc.Dispatching? then
      var (unlocked, settled, after) := SettleTables(locks, rows, Dispatched(pc.call, pc.token, pc.version, d.report));
      (unlocked, settled, [RestartIssued(pc.call.id, pc.call.intent.key)] + Returns(after))
    else (locks, rows, Returns(pc))
  }

  /** The world with these tables and events, the worker idle again, and everything else as it was. */
  function Afterwards(w: World, id: WorkerId, tables: (L.LockDb, Rows, seq<Event>)): World {
    w.(locks := tables.0, executions := tables.1, workers := w.workers[id := Idle], log := w.log + tables.2)
  }

  predicate Stopping(pc: Pc) {
    pc.Idle? || pc.Finished? || pc.Dispatching?
  }

  lemma IdleIsInert(w: World, id: WorkerId, d: Daemon)
    requires id in w.workers && w.workers[id].Idle?
    ensures AfterReturn(w, id, d) == Afterwards(w, id, (w.locks, w.executions, []))
  {
    assert w.workers[id := Idle] == w.workers && w.log + [] == w.log;
  }

  lemma FinishedReturns(w: World, id: WorkerId, d: Daemon)
    requires PcOf(w, id).Finished?
    ensures AfterReturn(w, id, d) == Afterwards(w, id, (w.locks, w.executions, Returns(PcOf(w, id))))
  {
  }

  lemma SettledReturns(w: World, id: WorkerId, pc: Pc)
    requires pc.Dispatched?
    ensures var v := DoSettle(w, id, pc); var tables := SettleTables(w.locks, w.executions, pc);
            Apply(v, Return(id)) == w.(locks := tables.0, executions := tables.1, workers := w.workers[id := Idle],
                                       log := w.log + Returns(tables.2))
  {
    var v := DoSettle(w, id, pc);
    var after := SettleTables(w.locks, w.executions, pc).2;
    assert PcOf(v, id) == after;
    assert w.workers[id := after][id := Idle] == w.workers[id := Idle];
    assert w.log + [] == w.log;
  }

  lemma DispatchingSettles(w: World, id: WorkerId, d: Daemon)
    requires PcOf(w, id).Dispatching?
    ensures AfterReturn(w, id, d) == Afterwards(w, id, FinishTables(w.locks, w.executions, PcOf(w, id), d))
  {
    var pc := PcOf(w, id);
    var restarted := DoRestart(w, id, pc, d.report);
    var after := Dispatched(pc.call, pc.token, pc.version, d.report);
    assert PcOf(restarted, id) == after;
    SettledReturns(restarted, id, after);
    assert w.workers[id := after][id := Idle] == w.workers[id := Idle];
    var returned := Returns(SettleTables(w.locks, w.executions, after).2);
    assert w.log + [RestartIssued(pc.call.id, pc.call.intent.key)] + returned
           == w.log + ([RestartIssued(pc.call.id, pc.call.intent.key)] + returned);
  }

  lemma FinishIsPath(v: World, id: WorkerId, d: Daemon)
    requires id in v.workers && Stopping(v.workers[id])
    ensures AfterReturn(v, id, d) == Afterwards(v, id, FinishTables(v.locks, v.executions, v.workers[id], d))
  {
    match v.workers[id]
    case Idle => IdleIsInert(v, id, d);
    case Finished(_, _) => FinishedReturns(v, id, d);
    case Dispatching(_, _, _) => DispatchingSettles(v, id, d);
  }

  lemma AdmitOwn(locks: L.LockDb, rows: Rows, plans: Plans, call: Call, running: bool)
    ensures var pc := AdmitTables(locks, rows, plans, call, running).2; pc.Idle? || ((pc.Finished? || pc.Dispatching?) && pc.call == call)
  {
  }

  /** Steps 0 to 2 take the worker to where it stops or dispatches. */
  lemma CallingStarts(w: World, id: WorkerId, call: Call, d: Daemon)
    requires PcOf(w, id) == Calling(call)
    ensures var v := AfterAdmit(w, id, d); var early := EarlyPc(w.executions, call);
            var (locks, rows, pc) :=
              if early.Recovering? then (w.locks, RecoverTables(w.executions, call, early.version, d.running).0,
                                         RecoverTables(w.executions, call, early.version, d.running).1)
              else if early.Admitting? then AdmitTables(w.locks, w.executions, w.plans, call, d.running)
              else (w.locks, w.executions, early);
            Stopping(pc) && v == w.(locks := locks, executions := rows, workers := w.workers[id := pc])
  {
    var early := EarlyPc(w.executions, call);
    var checked := Goto(w, id, early);
    assert Apply(w, EarlyCheck(id)) == checked && PcOf(checked, id) == early;
    if early.Recovering? {
      RecoveringStops(w, id, call, early, d);
    } else if early.Admitting? {
      AdmittingStops(w, id, call, d);
    }
  }

  lemma RecoveringStops(w: World, id: WorkerId, call: Call, early: Pc, d: Daemon)
    requires early.Recovering? && early.call == call
    ensures var (rows, pc) := RecoverTables(w.executions, call, early.version, d.running);
            && Apply(Apply(Goto(w, id, early), Recover(id, d.running)), Admit(id, d.running))
               == w.(executions := rows, workers := w.workers[id := pc])
            && Stopping(pc)
  {
    var (rows, pc) := RecoverTables(w.executions, call, early.version, d.running);
    var v := Apply(Goto(w, id, early), Recover(id, d.running));
    assert w.workers[id := early][id := pc] == w.workers[id := pc];
    assert v == w.(executions := rows, workers := w.workers[id := pc]);
  }

  lemma AdmittingStops(w: World, id: WorkerId, call: Call, d: Daemon)
    ensures var (locks, rows, pc) := AdmitTables(w.locks, w.executions, w.plans, call, d.running);
            && Apply(Apply(Goto(w, id, Admitting(call)), Recover(id, d.running)), Admit(id, d.running))
               == w.(locks := locks, executions := rows, workers := w.workers[id := pc])
            && Stopping(pc)
  {
    var (locks, rows, pc) := AdmitTables(w.locks, w.executions, w.plans, call, d.running);
    var checked := Goto(w, id, Admitting(call));
    AdmitOwn(w.locks, w.executions, w.plans, call, d.running);
    assert Apply(checked, Recover(id, d.running)) == checked;
    assert w.workers[id := Admitting(call)][id := pc] == w.workers[id := pc];
  }

  /** From any world and for any worker that has called `execute`, the uninterrupted call is a run of the protocol: it changes
      the two tables and the log as `ExecuteTables` says, and nothing else. */
  lemma ExecuteIsPath(w: World, id: WorkerId, call: Call, d: Daemon)
    requires PcOf(w, id) == Calling(call)
    ensures Play(w, ProgramOrder(id, d)) == Afterwards(w, id, ExecuteTables(w.locks, w.executions, w.plans, call, d))
  {
    PlayInProgramOrder(w, id, d);
    CallingStarts(w, id, call, d);
    var v := AfterAdmit(w, id, d);
    FinishIsPath(v, id, d);
    assert v.workers[id := Idle] == w.workers[id := Idle];
  }

  // ---------------------------------------------------------------- whole-run guarantees of a call

  lemma {:induction false} PlayThen(w: World, a: seq<Action>, b: seq<Action>)
    ensures Play(w, a + b) == Play(Play(w, a), b)
    decreases |a|
  {
    if a == [] {
      assert a + b == b;
    } else {
      assert (a + b)[1..] == a[1..] + b;
      PlayThen(Apply(w, a[0]), a[1..], b);
    }
  }

  /** Whatever happened before, a call of `Execute` restarts the container only for a key that was never restarted, and the
      incident stays within its bound. */
  lemma ExecuteWithinBound(start: World, before: seq<Action>, id: WorkerId, call: Call, d: Daemon)
    requires Initial(start) && PcOf(Play(start, before), id) == Calling(call)
    ensures var w := Play(start, before); var inc := call.intent.key.incident;
            var log := w.log + ExecuteTables(w.locks, w.executions, w.plans, call, d).2;
            && RestartsDistinct(log) && inc in w.incidents
            && T.RestartCount(log, inc) <= w.incidents[inc].attempts + 1 <= w.incidents[inc].retryLimit + 1
  {
    var w := Play(start, before);
    T.InitialInv(start);
    PlayKeepsInv(start, before);
    assert PcOk(w, PcOf(w, id));
    ExecuteIsPath(w, id, call, d);
    PlayThen(start, before, ProgramOrder(id, d));
    T.RestartBound(start, before + ProgramOrder(id, d), call.intent.key.incident);
  }

  /** Once some call for the key has returned, a call of `Execute` begun later issues no restart, and if it returns, it returns
      SUCCEEDED when that one did and FAILED otherwise, whatever lies between. */
  lemma ExecuteReplays(start: World, before: seq<Action>, between: seq<Action>, i: nat, id: WorkerId, call: Call, d: Daemon, e: Event)
    requires Initial(start) && i < |Play(start, before).log| && Play(start, before).log[i].Returned?
    requires PcOf(Play(Play(start, before), between), id) == Calling(call)
    requires call.id >= Play(start, before).nextCall && call.intent.key == Play(start, before).log[i].key
    requires var w := Play(Play(start, before), between); e in ExecuteTables(w.locks, w.executions, w.plans, call, d).2
    ensures e == Returned(call.id, call.intent.key, if Play(start, before).log[i].verdict == Success then Success else Failure)
  {
    var mid := Play(start, before);
    var w := Play(mid, between);
    var events := ExecuteTables(w.locks, w.executions, w.plans, call, d).2;
    ExecuteIsPath(w, id, call, d);
    PlayThen(mid, between, ProgramOrder(id, d));
    EventsOfCall(w.locks, w.executions, w.plans, call, d);
    var j :| 0 <= j < |events| && events[j] == e;
    assert (w.log + events)[|w.log| + j] == e;
    T.ReplayStable(start, before, between + ProgramOrder(id, d), i, |w.log| + j);
  }

  lemma EventsOfCall(locks: L.LockDb, rows: Rows, plans: Plans, call: Call, d: Daemon)
    ensures forall e :: e in ExecuteTables(locks, rows, plans, call, d).2 ==>
              e.id == call.id && e.key == call.intent.key && (e.Returned? || e.RestartIssued?)
  {
    AdmitOwn(locks, rows, plans, call, d.running);
  }

  // ---------------------------------------------------------------- the adapter

  class Adapter {
    const plans: Plans
    var locks: L.LockDb
    var executions: Rows
    var log: seq<Event>

    constructor (locks: L.LockDb, executions: Rows, plans: Plans)
      ensures this.locks == locks && this.executions == executions && this.plans == plans && log == []
    {
      this.locks, this.executions, this.plans, log := locks, executions, plans, [];
    }

    /** `execute`; None stands for a raised exception. */
    method Execute(call: Call, d: Daemon) returns (result: Option<Verdict>)
      modifies this
      ensures old(log) <= log
      ensures (locks, executions, log[|old(log)|..]) == ExecuteTables(old(locks), old(executions), plans, call, d)
      ensures result.Some? <==> |log| > |old(log)| && log[|log| - 1].Returned?
      ensures result.Some? ==> log[|log| - 1].verdict == result.value
    {
      var key := call.intent.key;
      ghost var before := log;
      assert log[|before|..] == [];

      // 0. early idempotency check
      if key in executions {
        var row := executions[key];
        if !MatchesIntent(row, call.intent) { return None; }
        if row.status == Succeeded || row.status == Failed {
          result := Answer(call, Reuse(row.status));
          assert log[|before|..] == [Returned(call.id, key, Reuse(row.status))];
          return;
        }
        if row.status == Running {
          var table := new ExecutionTable(executions, plans);
          var ok := table.Finish(key, row.version, Observed(d.running).0);
          executions := table.rows;
          result := Answer(call, Observed(d.running).1);
          assert log[|before|..] == [Returned(call.id, key, Observed(d.running).1)];
          return;
        }
      }

      // 1. and 2. lock, record, RUNNING
      var admission := AdmitCall(call, d.running);
      if admission.Finished? {
        result := Answer(call, admission.verdict);
        assert log[|before|..] == [Returned(call.id, key, admission.verdict)];
      } else if admission.Dispatching? {
        // 3. to 5. restart, reconcile, finish
        ghost var pc := Dispatched(call, admission.token, admission.version, d.report);
        ghost var after := SettleTables(locks, executions, pc).2;
        result := DispatchRestart(call, admission.token, admission.version, d.report);
        assert log[|before|..] == [RestartIssued(call.id, key)] + Returns(after);
      } else {
        result := None;
      }
    }

    /** The return of `execute` to its caller. */
    method Answer(call: Call, verdict: Verdict) returns (result: Option<Verdict>)
      modifies this`log
      ensures log == old(log) + [Returned(call.id, call.intent.key, verdict)]
      ensures result == Some(verdict)
    {
      log := log + [Returned(call.id, call.intent.key, verdict)];
      result := Some(verdict);
    }

    /** The transaction of steps 1 and 2; it commits unless it raises. */
    method AdmitCall(call: Call, running: bool) returns (pc: Pc)
      modifies this`locks, this`executions
      ensures (locks, executions, pc) == AdmitTables(old(locks), old(executions), plans, call, running)
      ensures pc.Idle? || ((pc.Finished? || pc.Dispatching?) && pc.call == call)
    {
      var key := call.intent.key;
      var service := new L.LockService(call.actor, locks);
      var granted := service.TryAcquire(call.intent.resource, LOCK_SECONDS);
      if !granted.Acquired? { return Idle; }
      var table := new ExecutionTable(executions, plans);
      var ok := table.Record(call.intent);
      if !ok { return Idle; }
      var row := table.rows[key];
      if row.status == Succeeded || row.status == Failed {
        pc := Finished(call, Reuse(row.status));
      } else if row.status == Running {
        ok := table.Finish(key, row.version, Observed(running).0);
        pc := Finished(call, Observed(running).1);
      } else {
        ok := table.Finish(key, row.version, Running);
        if !ok { return Idle; }
        pc := Dispatching(call, granted.token, row.version + 1);
      }
      locks, executions := service.View(), table.rows;
    }

    /** The external restart and the transaction that settles it. */
    method DispatchRestart(call: Call, token: L.Token, version: nat, report: RestartReport) returns (result: Option<Verdict>)
      modifies this
      ensures var (unlocked, settled, after) := SettleTables(old(locks), old(executions), Dispatched(call, token, version, report));
              && (locks, executions) == (unlocked, settled)
              && log == old(log) + ([RestartIssued(call.id, call.intent.key)] + Returns(after))
              && result == (if after.Finished? then Some(after.verdict) else None)
    {
      var key := call.intent.key;
      log := log + [RestartIssued(call.id, key)];
      var success := report.Clean? || (report.Exception? && Reconciled(report.preCount, report.post, report.dispatchedAt));
      var table := new ExecutionTable(executions, plans);
      var ok := table.Finish(key, version, if success then Succeeded else Failed);
      if !ok { return None; }
      var service := new L.LockService(call.actor, locks);
      if report.Exception? && !success {
        service.QuarantineResource(call.intent.resource);
        result := Answer(call, Uncertain);
      } else {
        var released := service.TryRelease(call.intent.resource, token);
        if released != L.Done { return None; }
        result := Answer(call, if success then Success else Failure);
      }
      locks, executions := service.View(), table.rows;
    }
  }
}
