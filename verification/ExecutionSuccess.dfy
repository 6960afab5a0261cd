/** When a SUCCEEDED answer stands for a restart that has happened. */
module ExecutionSuccess {
  import opened Prelude
  import opened ExecutionProtocol
  import T = ExecutionTheorems
  import L = ResourceLocks

  predicate Done(w: World, k: Key) {
    k in w.executions && w.executions[k].status == Succeeded
  }

  /** The step turns the record of k to SUCCEEDED. */
  predicate Succeeds(w: World, a: Action, k: Key) {
    !Done(w, k) && Done(Apply(w, a), k)
  }

  predicate FoundRunning(w: World, k: Key) {
    k in w.executions && w.executions[k].status == Running
  }

  /** Crash recovery after the early check: the record is still RUNNING at the version read, and the container runs. */
  predicate RecoversEarly(w: World, a: Action, k: Key) {
    && a.Recover? && a.running && PcOf(w, a.worker).Recovering? && PcOf(w, a.worker).call.intent.key == k
    && FoundRunning(w, k) && w.executions[k].version == PcOf(w, a.worker).version
  }

  /** Crash recovery inside the admission transaction: the lock is granted, the record is this intent's and RUNNING, and the
      container runs. */
  predicate RecoversInAdmission(w: World, a: Action, k: Key) {
    && a.Admit? && a.running && PcOf(w, a.worker).Admitting? && PcOf(w, a.worker).call.intent.key == k
    && FoundRunning(w, k)
    && var call := PcOf(w, a.worker).call;
       && L.AcquireLock(w.locks, call.actor, call.intent.resource, LOCK_SECONDS).1.Acquired?
       && Belongs(w.plans, call.intent) && MatchesIntent(w.executions[k], call.intent)
  }

  predicate Recovers(w: World, a: Action, k: Key) {
    RecoversEarly(w, a, k) || RecoversInAdmission(w, a, k)
  }

  /** The worker that restarted the container settles the record as a success. */
  predicate SettlesOwn(w: World, a: Action, k: Key) {
    && a.Settle? && PcOf(w, a.worker).Dispatched? && PcOf(w, a.worker).call.intent.key == k
    && PcOf(Apply(w, a), a.worker) == Finished(PcOf(w, a.worker).call, Success)
  }

  /** A recovery vouches for a restart nobody has issued yet. */
  ghost predicate Blind(w: World, a: Action, k: Key) {
    Recovers(w, a, k) && !Restarted(w.log, k)
  }

  lemma AdmitSucceeds(w: World, a: Action, k: Key)
    requires a.Admit?
    ensures Succeeds(w, a, k) <==> RecoversInAdmission(w, a, k)
    ensures RecoversInAdmission(w, a, k) ==> PcOf(Apply(w, a), a.worker) == Finished(PcOf(w, a.worker).call, Success)
    ensures Apply(w, a).log == w.log
  {
  }

  lemma SettleSucceeds(w: World, a: Action, k: Key)
    requires a.Settle?
    ensures Succeeds(w, a, k) ==> SettlesOwn(w, a, k)
    ensures Apply(w, a).log == w.log
  {
  }

  lemma OtherSucceeds(w: World, a: Action, k: Key)
    requires !a.Admit? && !a.Settle?
    ensures Succeeds(w, a, k) <==> RecoversEarly(w, a, k)
    ensures RecoversEarly(w, a, k) ==> PcOf(Apply(w, a), a.worker) == Finished(PcOf(w, a.worker).call, Success)
    ensures RecoversEarly(w, a, k) ==> Apply(w, a).log == w.log
  {
    match a
    case CommitPlan(_, _, _, _, _) =>
    case Dispatch(_, _) =>
    case Recover(_, _) =>
    case _ =>
  }

  /** Only two kinds of step make a success: the settlement by the worker that restarted, and recovery. In every reachable
      state the restart is missing from the log exactly when a blind recovery made it. */
  lemma SuccessStep(w: World, a: Action, k: Key)
    requires Inv(w) && Succeeds(w, a, k)
    ensures SettlesOwn(w, a, k) || Recovers(w, a, k)
    ensures !Restarted(Apply(w, a).log, k) <==> Blind(w, a, k)
  {
    if a.Admit? {
      AdmitSucceeds(w, a, k);
    } else if a.Settle? {
      SettleSucceeds(w, a, k);
    } else {
      OtherSucceeds(w, a, k);
    }
  }

  // ---------------------------------------------------------------- runs

  /** Every SUCCEEDED answer for k comes after the restart of k. */
  ghost predicate Honest(log: seq<Event>, k: Key) {
    forall i :: 0 <= i < |log| && log[i].Returned? && log[i].key == k && log[i].verdict == Success ==> Restarted(log[..i], k)
  }

  ghost predicate Backed(w: World, k: Key) {
    (Done(w, k) ==> Restarted(w.log, k)) && Honest(w.log, k)
  }

  /** The log is the same or one event longer, and that event is in order. */
  ghost predicate LogStep(w: World, v: World) {
    v.log == w.log || (|v.log| == |w.log| + 1 && v.log[..|w.log|] == w.log && EventOk(v, v.log[|w.log|]))
  }

  lemma StepLogs(w: World, a: Action)
    requires Inv(w)
    ensures LogStep(w, Apply(w, a))
  {
    if !T.TouchesTables(a) && Apply(w, a) != w {
      WorkerStepExists(w, a);
    }
  }

  lemma LogStepBacked(w: World, v: World, k: Key)
    requires LogStep(w, v) && Honest(w.log, k) && (Done(v, k) ==> Restarted(v.log, k))
    ensures Backed(v, k)
  {
    forall i | 0 <= i < |v.log| && v.log[i].Returned? && v.log[i].key == k && v.log[i].verdict == Success
      ensures Restarted(v.log[..i], k)
    {
      assert v.log != w.log ==> i == |w.log| || v.log[..i] == w.log[..i];
      if v.log != w.log && i == |w.log| {
        RestartedAppend(w.log, v.log, k);
      }
    }
  }

  lemma BackedStep(w: World, a: Action, k: Key)
    requires Inv(w) && Backed(w, k) && !Blind(w, a, k)
    ensures Backed(Apply(w, a), k)
  {
    var v := Apply(w, a);
    StepLogs(w, a);
    if Done(v, k) {
      if Done(w, k) {
        if v.log != w.log {
          RestartedAppend(w.log, v.log, k);
        }
      } else {
        SuccessStep(w, a, k);
      }
    }
    LogStepBacked(w, v, k);
  }

  /** No step of the run is a blind recovery of k. */
  ghost predicate BlindFree(w: World, actions: seq<Action>, k: Key)
    decreases |actions|
  {
    actions == [] || (!Blind(w, actions[0], k) && BlindFree(Apply(w, actions[0]), actions[1..], k))
  }

  lemma {:induction false} RunBacked(w: World, actions: seq<Action>, k: Key)
    requires Inv(w) && Backed(w, k) && BlindFree(w, actions, k)
    ensures Backed(Play(w, actions), k)
    decreases |actions|
  {
    if actions != [] {
      StepKeepsInv(w, actions[0]);
      BackedStep(w, actions[0], k);
      RunBacked(Apply(w, actions[0]), actions[1..], k);
    }
  }

  lemma {:induction false} BlindFreeThenReturn(w: World, actions: seq<Action>, k: Key, n: nat, id: WorkerId)
    requires BlindFree(w, actions, k) && n <= |actions|
    ensures BlindFree(w, actions[..n] + [Return(id)], k)
    decreases |actions|
  {
    if n == 0 {
      assert [Return(id)][1..] == [];
      assert actions[..n] + [Return(id)] == [Return(id)];
    } else {
      BlindFreeThenReturn(Apply(w, actions[0]), actions[1..], k, n - 1, id);
      assert (actions[..n] + [Return(id)])[1..] == actions[1..][..n - 1] + [Return(id)];
    }
  }

  /** The answers of a prefix of the run, with one more worker returning, are honest. */
  ghost predicate HonestAt(w: World, actions: seq<Action>, n: nat, id: WorkerId, k: Key)
    requires n <= |actions|
  {
    Honest(Play(w, actions[..n] + [Return(id)]).log, k)
  }

  /** A blind recovery can return at once, and then its SUCCEEDED answer precedes the restart. */
  lemma BlindReturns(w: World, a: Action, k: Key)
    requires Inv(w) && Blind(w, a, k)
    ensures !Honest(Apply(Apply(w, a), Return(a.worker)).log, k)
  {
    var v := Apply(w, a);
    if a.Admit? {
      AdmitSucceeds(w, a, k);
    } else {
      OtherSucceeds(w, a, k);
    }
    var call := PcOf(w, a.worker).call;
    var log := Apply(v, Return(a.worker)).log;
    assert log == w.log + [Returned(call.id, k, Success)];
    assert log[..|w.log|] == w.log;
  }

  lemma {:induction false} BlindFound(w: World, actions: seq<Action>, k: Key) returns (n: nat, id: WorkerId)
    requires Inv(w) && !BlindFree(w, actions, k)
    ensures n <= |actions| && !HonestAt(w, actions, n, id, k)
    decreases |actions|
  {
    if Blind(w, actions[0], k) {
      n, id := 1, actions[0].worker;
      BlindReturns(w, actions[0], k);
      assert actions[..n] + [Return(id)] == [actions[0], Return(id)];
      PlayTwo(w, actions[0], Return(id));
    } else {
      StepKeepsInv(w, actions[0]);
      n, id := BlindFound(Apply(w, actions[0]), actions[1..], k);
      n := n + 1;
      assert (actions[..n] + [Return(id)])[1..] == actions[1..][..n - 1] + [Return(id)];
    }
  }

  lemma PlayTwo(w: World, a: Action, b: Action)
    ensures Play(w, [a, b]) == Apply(Apply(w, a), b)
  {
    assert [a, b][1..] == [b] && [b][1..] == [];
    assert Play(Apply(w, a), [b]) == Apply(Apply(w, a), b);
  }

  /** Over every run without a blind recovery of k, each SUCCEEDED answer for k is preceded by its restart. */
  lemma RestartPrecedesSuccess(start: World, actions: seq<Action>, k: Key)
    requires Initial(start) && BlindFree(start, actions, k)
    ensures Honest(Play(start, actions).log, k)
  {
    T.InitialInv(start);
    RunBacked(start, actions, k);
  }

  /** The exact condition: a run has no blind recovery of k if and only if at no point of it can a worker return a SUCCEEDED
      answer for k that precedes the restart. */
  lemma SuccessIffNoBlindRecovery(start: World, actions: seq<Action>, k: Key)
    requires Initial(start)
    ensures BlindFree(start, actions, k) <==> forall n: nat, id :: n <= |actions| ==> HonestAt(start, actions, n, id, k)
  {
    T.InitialInv(start);
    if BlindFree(start, actions, k) {
      forall n: nat, id | n <= |actions| ensures HonestAt(start, actions, n, id, k) {
        BlindFreeThenReturn(start, actions, k, n, id);
        RunBacked(start, actions[..n] + [Return(id)], k);
      }
    } else {
      var n, id := BlindFound(start, actions, k);
    }
  }
}
