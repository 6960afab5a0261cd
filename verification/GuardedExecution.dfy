/** The execution protocol with its prechecks: approval submissions, prechecks and dispatches in one step system.
    The approval tables of an incident carry their own copy of the incident row; nothing here depends on the copies agreeing. */
module GuardedExecution {
  import opened Prelude
  import E = ExecutionProtocol
  import T = ExecutionTheorems
  import A = Approvals
  import P = Policy
  import C = ExecutionPrecheck

  /** A passed precheck: for which plan, under which policy decision and automation mode, and when. */
  datatype Clearance = Clearance(incident: E.IncidentId, plan: int, latest: P.Outcome, mode: P.Mode, at: Time)

  /** `passes` are the prechecks workers have passed and not used; `cleared` has the one each call was begun with. */
  datatype State = State(
    world: E.World, desks: map<E.IncidentId, A.Db>, passes: map<E.WorkerId, Clearance>, cleared: map<nat, Clearance>)

  datatype Action =
    | Protocol(step: E.Action)
    | OpenDesk(incident: E.IncidentId, key: string, retryLimit: nat, at: Time)
    | Submission(incident: E.IncidentId, part: A.Action)
    | Precheck(worker: E.WorkerId, latest: Option<P.Outcome>, mode: P.Mode, found: Option<A.Approval>, now: Time)
    | Dispatch(worker: E.WorkerId, actor: string)

  /** The worker has resumed an incident with a plan whose approvals are at hand. */
  predicate CanCheck(g: State, id: E.WorkerId) {
    var pc := E.PcOf(g.world, id);
    pc.Resumed? && pc.plan.Some? && pc.incident in g.desks
  }

  ghost function DoPrecheck(g: State, id: E.WorkerId, latest: Option<P.Outcome>, mode: P.Mode, found: Option<A.Approval>, now: Time): State
    requires CanCheck(g, id)
  {
    var pc := E.PcOf(g.world, id);
    if latest.Some? && C.LatestGrant(g.desks[pc.incident], pc.plan.value.version, found) && C.CheckApproval(latest, mode, found, now).Passes?
    then g.(passes := g.passes[id := Clearance(pc.incident, pc.plan.value.version, latest.value, mode, now)])
    else g
  }

  /** The clearance is for the plan the worker is about to dispatch. */
  predicate MayDispatch(g: State, id: E.WorkerId) {
    var pc := E.PcOf(g.world, id);
    pc.Resumed? && pc.plan.Some? && id in g.passes && g.passes[id].incident == pc.incident && g.passes[id].plan == pc.plan.value.version
  }

  function DoDispatch(g: State, id: E.WorkerId, actor: string): State
    requires MayDispatch(g, id)
  {
    var after := E.Apply(g.world, E.Dispatch(id, actor));
    State(after, g.desks, g.passes - {id},
          if E.PcOf(after, id).Calling? then g.cleared[g.world.nextCall := g.passes[id]] else g.cleared)
  }

  ghost function Apply(g: State, a: Action): State {
    match a
    case Protocol(step) => if step.Dispatch? then g else g.(world := E.Apply(g.world, step))
    case OpenDesk(inc, key, limit, at) => if inc in g.desks then g else g.(desks := g.desks[inc := A.Start(key, limit, at)])
    case Submission(inc, step) =>
      if inc in g.desks && g.desks[inc].history != [] then g.(desks := g.desks[inc := A.Apply(g.desks[inc], step)]) else g
    case Precheck(id, latest, mode, found, now) => if CanCheck(g, id) then DoPrecheck(g, id, latest, mode, found, now) else g
    case Dispatch(id, actor) => if MayDispatch(g, id) then DoDispatch(g, id, actor) else g
  }

  ghost function Play(g: State, actions: seq<Action>): State
    decreases |actions|
  {
    if actions == [] then g else Play(Apply(g, actions[0]), actions[1..])
  }

  predicate Initial(g: State) {
    E.Initial(g.world) && g.desks == map[] && g.passes == map[] && g.cleared == map[]
  }

  // ---------------------------------------------------------------- the invariant

  /** An APPROVE of the plan that is unexpired at the time is on record. */
  ghost predicate Approved(desks: map<E.IncidentId, A.Db>, incident: E.IncidentId, plan: int, at: Time) {
    incident in desks && exists a :: a in desks[incident].approvals && a.plan == plan && a.decision == A.Approve && at < a.expiresAt
  }

  /** The policy allowed the plan or left it to approval, and where that or the mode asks for approval, it was given. */
  ghost predicate Sound(desks: map<E.IncidentId, A.Db>, c: Clearance) {
    && (c.latest == P.Allow || c.latest == P.RequireApproval)
    && (c.latest == P.RequireApproval || c.mode == P.ApprovalRequired ==> Approved(desks, c.incident, c.plan, c.at))
  }

  predicate Fits(c: Clearance, k: E.Key) {
    c.incident == k.incident && c.plan == k.planVersion
  }

  predicate Covered(cleared: map<nat, Clearance>, call: nat, k: E.Key) {
    call in cleared && Fits(cleared[call], k)
  }

  ghost predicate CallsCovered(w: E.World, cleared: map<nat, Clearance>) {
    && (forall id :: T.HasCall(E.PcOf(w, id)) ==> Covered(cleared, E.PcOf(w, id).call.id, E.PcOf(w, id).call.intent.key))
    && (forall i :: 0 <= i < |w.log| ==> Covered(cleared, w.log[i].id, w.log[i].key))
    && (forall c :: c in cleared ==> c < w.nextCall)
  }

  ghost predicate AllSound(g: State) {
    && (forall id :: id in g.passes ==> Sound(g.desks, g.passes[id]))
    && (forall c :: c in g.cleared ==> Sound(g.desks, g.cleared[c]))
  }

  ghost predicate DesksOk(desks: map<E.IncidentId, A.Db>) {
    forall inc :: inc in desks ==> A.Inv(desks[inc])
  }

  ghost predicate Inv(g: State) {
    DesksOk(g.desks) && AllSound(g) && CallsCovered(g.world, g.cleared)
  }

  /** A step of the protocol other than a dispatch begins no call, and logs only events of the worker's own call. */
  ghost predicate SameCalls(w: E.World, v: E.World, id: E.WorkerId) {
    && v.nextCall == w.nextCall
    && (forall x :: x != id ==> E.PcOf(v, x) == E.PcOf(w, x))
    && (T.HasCall(E.PcOf(v, id)) ==> T.HasCall(E.PcOf(w, id)) && E.PcOf(v, id).call == E.PcOf(w, id).call)
    && (v.log == w.log
        || (T.HasCall(E.PcOf(w, id)) && exists e: E.Event ::
              v.log == w.log + [e] && e.id == E.PcOf(w, id).call.id && e.key == E.PcOf(w, id).call.intent.key))
  }

  lemma RestartCalls(w: E.World, id: E.WorkerId, report: E.RestartReport)
    ensures SameCalls(w, E.Apply(w, E.Restart(id, report)), id)
  {
    if E.PcOf(w, id).Dispatching? {
      var call := E.PcOf(w, id).call;
      assert E.Apply(w, E.Restart(id, report)).log == w.log + [E.RestartIssued(call.id, call.intent.key)];
    }
  }

  lemma ReturnCalls(w: E.World, id: E.WorkerId)
    ensures SameCalls(w, E.Apply(w, E.Return(id)), id)
  {
    if E.PcOf(w, id).Finished? {
      var call := E.PcOf(w, id).call;
      assert E.Apply(w, E.Return(id)).log == w.log + [E.Returned(call.id, call.intent.key, E.PcOf(w, id).verdict)];
    }
  }

  lemma AdmitCalls(w: E.World, id: E.WorkerId, running: bool)
    ensures SameCalls(w, E.Apply(w, E.Admit(id, running)), id)
  {
    if E.PcOf(w, id).Admitting? {
      T.AdmitKeepsCall(w, id, E.PcOf(w, id).call, running);
    }
  }

  lemma SettleCalls(w: E.World, id: E.WorkerId)
    ensures SameCalls(w, E.Apply(w, E.Settle(id)), id)
  {
    if E.PcOf(w, id).Dispatched? {
      T.SettleKeepsCall(w, id, E.PcOf(w, id));
    }
  }

  lemma QuietCalls(w: E.World, a: E.Action)
    requires a.Crash? || a.Resume? || a.CommitPlan? || a.EarlyCheck? || a.Recover?
    ensures SameCalls(w, E.Apply(w, a), a.worker)
  {
  }

  lemma ProtocolCalls(w: E.World, a: E.Action)
    requires !a.Dispatch? && !T.TouchesTables(a)
    ensures SameCalls(w, E.Apply(w, a), a.worker)
  {
    match a
    case Admit(id, running) => AdmitCalls(w, id, running);
    case Settle(id) => SettleCalls(w, id);
    case Restart(id, report) => RestartCalls(w, id, report);
    case Return(id) => ReturnCalls(w, id);
    case _ => QuietCalls(w, a);
  }

  lemma SameCallsCovered(w: E.World, v: E.World, id: E.WorkerId, cleared: map<nat, Clearance>)
    requires SameCalls(w, v, id) && CallsCovered(w, cleared)
    ensures CallsCovered(v, cleared)
  {
    forall x | T.HasCall(E.PcOf(v, x)) ensures Covered(cleared, E.PcOf(v, x).call.id, E.PcOf(v, x).call.intent.key) {
      if x != id {
        assert E.PcOf(v, x) == E.PcOf(w, x);
      }
    }
  }

  lemma ProtocolCovered(w: E.World, a: E.Action, cleared: map<nat, Clearance>)
    requires !a.Dispatch? && CallsCovered(w, cleared)
    ensures CallsCovered(E.Apply(w, a), cleared)
  {
    if T.TouchesTables(a) {
      assert E.Apply(w, a).workers == w.workers && E.Apply(w, a).log == w.log && E.Apply(w, a).nextCall == w.nextCall;
      assert forall x :: E.PcOf(E.Apply(w, a), x) == E.PcOf(w, x);
      SameCallsCovered(w, E.Apply(w, a), 0, cleared);
    } else {
      ProtocolCalls(w, a);
      SameCallsCovered(w, E.Apply(w, a), a.worker, cleared);
    }
  }

  /** Approvals are only ever added, so a sound clearance stays sound. */
  lemma SoundStays(desks: map<E.IncidentId, A.Db>, inc: E.IncidentId, d: A.Db, c: Clearance)
    requires Sound(desks, c) && (inc in desks ==> desks[inc].approvals <= d.approvals)
    ensures Sound(desks[inc := d], c)
  {
    if Approved(desks, c.incident, c.plan, c.at) && c.incident == inc {
      var a :| a in desks[inc].approvals && a.plan == c.plan && a.decision == A.Approve && c.at < a.expiresAt;
      assert a in d.approvals;
    }
  }

  lemma DeskKeepsInv(g: State, inc: E.IncidentId, d: A.Db)
    requires Inv(g) && A.Inv(d) && (inc in g.desks ==> g.desks[inc].approvals <= d.approvals)
    ensures Inv(g.(desks := g.desks[inc := d]))
  {
    forall id | id in g.passes ensures Sound(g.desks[inc := d], g.passes[id]) {
      SoundStays(g.desks, inc, d, g.passes[id]);
    }
    forall c | c in g.cleared ensures Sound(g.desks[inc := d], g.cleared[c]) {
      SoundStays(g.desks, inc, d, g.cleared[c]);
    }
  }

  lemma PassIsSound(desks: map<E.IncidentId, A.Db>, inc: E.IncidentId, plan: int, latest: P.Outcome, mode: P.Mode,
                    found: Option<A.Approval>, now: Time)
    requires inc in desks && A.Inv(desks[inc]) && C.LatestGrant(desks[inc], plan, found)
    requires C.CheckApproval(Some(latest), mode, found, now).Passes?
    ensures Sound(desks, Clearance(inc, plan, latest, mode, now))
  {
    C.PassesIff(desks[inc], plan, Some(latest), mode, found, now);
  }

  lemma PassKeepsInv(g: State, id: E.WorkerId, c: Clearance)
    requires Inv(g) && Sound(g.desks, c)
    ensures Inv(g.(passes := g.passes[id := c]))
  {
  }

  lemma PrecheckKeepsInv(g: State, id: E.WorkerId, latest: Option<P.Outcome>, mode: P.Mode, found: Option<A.Approval>, now: Time)
    requires Inv(g) && CanCheck(g, id)
    ensures Inv(DoPrecheck(g, id, latest, mode, found, now))
  {
    var pc := E.PcOf(g.world, id);
    var plan := pc.plan.value.version;
    if latest.Some? && C.LatestGrant(g.desks[pc.incident], plan, found) && C.CheckApproval(latest, mode, found, now).Passes? {
      PassIsSound(g.desks, pc.incident, plan, latest.value, mode, found, now);
      PassKeepsInv(g, id, Clearance(pc.incident, plan, latest.value, mode, now));
    }
  }

  /** A dispatch begins one call, with the next number, for the worker's incident and plan, or none. */
  ghost predicate BeginsCall(w: E.World, v: E.World, id: E.WorkerId, c: Clearance) {
    && (forall x :: x != id ==> E.PcOf(v, x) == E.PcOf(w, x))
    && if E.PcOf(v, id).Calling?
       then var call := E.PcOf(v, id).call;
            && call.id == w.nextCall && v.nextCall == w.nextCall + 1 && Fits(c, call.intent.key)
            && v.log == w.log + [E.Called(w.nextCall, call.intent.key)]
       else E.PcOf(v, id).Idle? && v.nextCall == w.nextCall && v.log == w.log
  }

  lemma DispatchBegins(g: State, id: E.WorkerId, actor: string)
    requires MayDispatch(g, id)
    ensures BeginsCall(g.world, E.Apply(g.world, E.Dispatch(id, actor)), id, g.passes[id])
  {
  }

  lemma BeginsCovered(w: E.World, v: E.World, id: E.WorkerId, c: Clearance, cleared: map<nat, Clearance>)
    requires BeginsCall(w, v, id, c) && CallsCovered(w, cleared)
    ensures CallsCovered(v, if E.PcOf(v, id).Calling? then cleared[w.nextCall := c] else cleared)
  {
    var after := if E.PcOf(v, id).Calling? then cleared[w.nextCall := c] else cleared;
    assert w.nextCall !in cleared;
    forall x | T.HasCall(E.PcOf(v, x)) ensures Covered(after, E.PcOf(v, x).call.id, E.PcOf(v, x).call.intent.key) {
      if x != id {
        assert E.PcOf(v, x) == E.PcOf(w, x);
      }
    }
  }

  lemma DispatchKeepsInv(g: State, id: E.WorkerId, actor: string)
    requires Inv(g) && MayDispatch(g, id)
    ensures Inv(DoDispatch(g, id, actor))
  {
    DispatchBegins(g, id, actor);
    BeginsCovered(g.world, E.Apply(g.world, E.Dispatch(id, actor)), id, g.passes[id], g.cleared);
  }

  lemma StepKeepsInv(g: State, a: Action)
    requires Inv(g)
    ensures Inv(Apply(g, a))
  {
    match a
    case Protocol(step) =>
      if !step.Dispatch? {
        ProtocolCovered(g.world, step, g.cleared);
      }
    case OpenDesk(inc, key, limit, at) =>
      A.StartIsOk(key, limit, at);
      if inc !in g.desks {
        DeskKeepsInv(g, inc, A.Start(key, limit, at));
      }
    case Submission(inc, step) =>
      if inc in g.desks {
        A.StepKeepsInv(g.desks[inc], step);
        A.ApprovalsGrow(g.desks[inc], step);
        DeskKeepsInv(g, inc, A.Apply(g.desks[inc], step));
      }
    case Precheck(id, latest, mode, found, now) =>
      if CanCheck(g, id) {
        PrecheckKeepsInv(g, id, latest, mode, found, now);
      }
    case Dispatch(id, actor) =>
      if MayDispatch(g, id) {
        DispatchKeepsInv(g, id, actor);
      }
  }

  lemma {:induction false} PlayKeepsInv(g: State, actions: seq<Action>)
    requires Inv(g)
    ensures Inv(Play(g, actions))
    decreases |actions|
  {
    if actions != [] {
      StepKeepsInv(g, actions[0]);
      PlayKeepsInv(Apply(g, actions[0]), actions[1..]);
    }
  }

  /** The clearance is that of a precheck among these actions. */
  ghost predicate Traced(c: Clearance, done: seq<Action>) {
    exists a :: a in done && a.Precheck? && a.latest == Some(c.latest) && a.mode == c.mode && a.now == c.at
  }

  ghost predicate AllTraced(g: State, done: seq<Action>) {
    (forall id :: id in g.passes ==> Traced(g.passes[id], done)) && (forall c :: c in g.cleared ==> Traced(g.cleared[c], done))
  }

  lemma TracedLonger(c: Clearance, done: seq<Action>, a: Action)
    requires Traced(c, done)
    ensures Traced(c, done + [a])
  {
    var b :| b in done && b.Precheck? && b.latest == Some(c.latest) && b.mode == c.mode && b.now == c.at;
    assert b in done + [a];
  }

  lemma StepTraced(g: State, a: Action, done: seq<Action>)
    requires AllTraced(g, done)
    ensures AllTraced(Apply(g, a), done + [a])
  {
    var v := Apply(g, a);
    assert a in done + [a];
    forall id | id in v.passes ensures Traced(v.passes[id], done + [a]) {
      if id in g.passes && v.passes[id] == g.passes[id] {
        TracedLonger(g.passes[id], done, a);
      }
    }
    forall c | c in v.cleared ensures Traced(v.cleared[c], done + [a]) {
      if c in g.cleared && v.cleared[c] == g.cleared[c] {
        TracedLonger(g.cleared[c], done, a);
      } else {
        TracedLonger(g.passes[a.worker], done, a);
      }
    }
  }

  lemma {:induction false} PlayTraced(g: State, actions: seq<Action>, done: seq<Action>)
    requires AllTraced(g, done)
    ensures AllTraced(Play(g, actions), done + actions)
    decreases |actions|
  {
    if actions == [] {
      assert done + actions == done;
    } else {
      StepTraced(g, actions[0], done);
      PlayTraced(Apply(g, actions[0]), actions[1..], done + [actions[0]]);
      assert done + [actions[0]] + actions[1..] == done + actions;
    }
  }

  /** Over every run of submissions, prechecks, dispatches, crashes and everything else: every restart was issued by a call
      that began with a passed precheck of its plan, one of the run's; there the policy decision was ALLOW or REQUIRE_APPROVAL, and under
      REQUIRE_APPROVAL or the mode APPROVAL_REQUIRED an APPROVE of that very plan version, unexpired then, is on record. */
  lemma RestartWasCleared(start: State, actions: seq<Action>, i: nat)
    requires Initial(start) && i < |Play(start, actions).world.log| && Play(start, actions).world.log[i].RestartIssued?
    ensures var g := Play(start, actions); var e := g.world.log[i];
            && e.id in g.cleared && g.cleared[e.id].incident == e.key.incident && g.cleared[e.id].plan == e.key.planVersion
            && Traced(g.cleared[e.id], actions)
            && var c := g.cleared[e.id];
               && (c.latest == P.Allow || c.latest == P.RequireApproval)
               && (c.latest == P.RequireApproval || c.mode == P.ApprovalRequired ==>
                     Approved(g.desks, e.key.incident, e.key.planVersion, c.at))
  {
    assert Inv(start);
    PlayKeepsInv(start, actions);
    PlayTraced(start, actions, []);
    assert [] + actions == actions;
    var g := Play(start, actions);
    var e := g.world.log[i];
    assert Covered(g.cleared, e.id, e.key);
    assert Sound(g.desks, g.cleared[e.id]);
  }
}
