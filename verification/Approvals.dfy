/** Approval submission as an interleaved transaction over the incident, plan and approval tables of one incident. */
module Approvals {
  import opened Prelude
  import I = IncidentLifecycle

  type WorkerId = nat

  datatype Decision = Approve | Reject
  datatype Plan = Plan(hash: string, approved: bool)
  datatype Submission = Submission(plan: int, hash: string, decision: Decision, reason: string, expected: int)
  datatype Approval = Approval(id: nat, plan: int, decision: Decision, reason: string, createdAt: Time, expiresAt: Time)

  datatype Verdict =
    | ReasonMissing | PlanNotFound | HashMismatch | Conflicting | Gone | NotPending | VersionMismatch | LostRace
    | Replayed(record: Approval) | Recorded(record: Approval)

  datatype Answer = Answer(request: Submission, verdict: Verdict)

  /** Where a submission stands: which rows it has read, and the snapshot of the incident it read first. */
  datatype Pc =
    | Idle
    | ReadIncident(request: Submission, snapshot: I.Incident, updatedAt: Time)
    | ReadPlan(request: Submission, snapshot: I.Incident, updatedAt: Time)
    | Ready(request: Submission, snapshot: I.Incident, now: Time)

  /** `decidedAt` and `times` are bookkeeping: the incident version each approval moved on from, and when each row of the
      history was written. */
  datatype Db = Db(
    history: I.History, times: seq<Time>, updatedAt: Time, plans: map<int, Plan>, approvals: seq<Approval>, decidedAt: seq<int>,
    pcs: map<WorkerId, Pc>, answers: seq<Answer>)

  datatype Action =
    | Begin(worker: WorkerId, request: Submission)
    | FetchPlan(worker: WorkerId)
    | FetchApprovals(worker: WorkerId, found: Option<Approval>, now: Time)
    | Commit(worker: WorkerId, at: Time)
    | AddPlan(version: int, hash: string)
    | Move(expected: int, target: I.State, at: Time)
    | Route(expected: int, at: Time)
    | Crash(worker: WorkerId)

  const REQUEST_DEADLINE := 1800 * SECOND
  const APPROVAL_LIFETIME := 1795 * SECOND

  predicate Space(c: char) {
    c == ' ' || '\t' <= c <= '\r' || '\U{1C}' <= c <= '\U{1F}'
  }

  function Strip(s: string): (r: string)
    ensures r != [] ==> !Space(r[0]) && !Space(r[|r| - 1])
    ensures forall c :: c in s && !Space(c) ==> c in r
    ensures forall c :: c in r ==> c in s
  {
    if s == [] then []
    else if Space(s[0]) then Strip(s[1..])
    else if Space(s[|s| - 1]) then Strip(s[..|s| - 1])
    else s
  }

  function PcOf(d: Db, w: WorkerId): Pc {
    if w in d.pcs then d.pcs[w] else Idle
  }

  function Go(d: Db, w: WorkerId, pc: Pc): Db {
    d.(pcs := d.pcs[w := pc])
  }

  function Tell(d: Db, w: WorkerId, request: Submission, verdict: Verdict): Db {
    Go(d, w, Idle).(answers := d.answers + [Answer(request, verdict)])
  }

  /** `found` is a possible answer of the query for the latest approval of a plan version. */
  ghost predicate LatestApproval(d: Db, plan: int, found: Option<Approval>) {
    if found.Some? then
      && found.value in d.approvals && found.value.plan == plan
      && forall a :: a in d.approvals && a.plan == plan ==> a.createdAt <= found.value.createdAt
    else forall a :: a in d.approvals ==> a.plan != plan
  }

  /** What the submission decides once all rows are read; `None` means it goes on to write. */
  function Examine(r: Submission, snapshot: I.Incident, updatedAt: Time, found: Option<Approval>, now: Time): Option<Verdict> {
    if found.Some? then Some(if found.value.decision == r.decision then Replayed(found.value) else Conflicting)
    else if now > updatedAt + REQUEST_DEADLINE then Some(Gone)
    else if snapshot.state != I.PendingApproval then Some(NotPending)
    else if snapshot.version != r.expected then Some(VersionMismatch)
    else None
  }

  function DoBegin(d: Db, w: WorkerId, r: Submission): Db
    requires d.history != []
  {
    if r.decision == Reject && Strip(r.reason) == [] then Tell(d, w, r, ReasonMissing)
    else Go(d, w, ReadIncident(r, I.Last(d.history), d.updatedAt))
  }

  function DoFetchPlan(d: Db, w: WorkerId, pc: Pc): Db
    requires pc.ReadIncident?
  {
    var r := pc.request;
    if r.plan !in d.plans then Tell(d, w, r, PlanNotFound)
    else if r.hash != "" && d.plans[r.plan].hash != "" && r.hash != d.plans[r.plan].hash then Tell(d, w, r, HashMismatch)
    else Go(d, w, ReadPlan(r, pc.snapshot, pc.updatedAt))
  }

  ghost function DoFetchApprovals(d: Db, w: WorkerId, pc: Pc, found: Option<Approval>, now: Time): Db
    requires pc.ReadPlan?
  {
    var verdict := Examine(pc.request, pc.snapshot, pc.updatedAt, found, now);
    if !LatestApproval(d, pc.request.plan, found) then d
    else if verdict.Some? then Tell(d, w, pc.request, verdict.value)
    else Go(d, w, Ready(pc.request, pc.snapshot, now))
  }

  function DecisionTarget(decision: Decision): I.State {
    if decision == Approve then I.Approved else I.Escalated
  }

  function NewRecord(d: Db, r: Submission, now: Time): Approval {
    Approval(|d.approvals|, r.plan, r.decision, if r.decision == Approve then "" else Strip(r.reason),
             now, now + APPROVAL_LIFETIME)
  }

  /** The writes of one transaction: a refused compare-and-swap rolls the approval and the plan flag back. */
  function DoCommit(d: Db, w: WorkerId, pc: Pc, at: Time): Db
    requires pc.Ready? && d.history != []
  {
    var r := pc.request;
    var outcome := I.Transition(I.Last(d.history), pc.snapshot.version, DecisionTarget(r.decision));
    if outcome.Refused? then Tell(d, w, r, LostRace)
    else
      var record := NewRecord(d, r, pc.now);
      Tell(d.(history := d.history + [outcome.row], times := d.times + [at], updatedAt := at,
              plans := if r.decision == Approve && r.plan in d.plans
                       then d.plans[r.plan := d.plans[r.plan].(approved := true)] else d.plans,
              approvals := d.approvals + [record], decidedAt := d.decidedAt + [pc.snapshot.version]),
           w, r, Recorded(record))
  }

  /** Everyone else's transitions; only approval submission asks for APPROVED. */
  function DoMove(d: Db, outcome: I.Outcome, at: Time): Db {
    if outcome.Refused? then d else d.(history := d.history + [outcome.row], times := d.times + [at], updatedAt := at)
  }

  ghost function Apply(d: Db, a: Action): Db
    requires d.history != []
  {
    match a
    case Begin(w, r) => if PcOf(d, w).Idle? then DoBegin(d, w, r) else d
    case FetchPlan(w) => if PcOf(d, w).ReadIncident? then DoFetchPlan(d, w, PcOf(d, w)) else d
    case FetchApprovals(w, found, now) => if PcOf(d, w).ReadPlan? then DoFetchApprovals(d, w, PcOf(d, w), found, now) else d
    case Commit(w, at) => if PcOf(d, w).Ready? then DoCommit(d, w, PcOf(d, w), at) else d
    case AddPlan(version, hash) => if version in d.plans then d else d.(plans := d.plans[version := Plan(hash, false)])
    case Move(expected, target, at) =>
      if target == I.Approved then d else DoMove(d, I.Transition(I.Last(d.history), expected, target), at)
    case Route(expected, at) => DoMove(d, I.RequireApproval(I.Last(d.history), expected), at)
    case Crash(w) => Go(d, w, Idle)
  }

  ghost function Play(d: Db, actions: seq<Action>): Db
    requires d.history != []
    decreases |actions|
  {
    if actions == [] then d else Play(Apply(d, actions[0]), actions[1..])
  }

  function Start(key: string, retryLimit: nat, at: Time): Db {
    Db([I.Created(key, retryLimit, false)], [at], at, map[], [], [], map[], [])
  }

  // ---------------------------------------------------------------- the invariant

  ghost predicate Decided(d: Db, plan: int) {
    exists a :: a in d.approvals && a.plan == plan
  }

  /** The snapshot is a row of the incident, not necessarily the current one. */
  predicate Snapped(h: I.History, snapshot: I.Incident) {
    1 <= snapshot.version <= |h| && h[snapshot.version - 1] == snapshot
  }

  ghost predicate PcOk(d: Db, pc: Pc) {
    match pc
    case Idle => true
    case ReadIncident(_, snapshot, _) => Snapped(d.history, snapshot)
    case ReadPlan(r, snapshot, _) => Snapped(d.history, snapshot) && r.plan in d.plans
    case Ready(r, snapshot, _) =>
      && Snapped(d.history, snapshot) && r.plan in d.plans && snapshot.state == I.PendingApproval
      && (Decided(d, r.plan) ==> snapshot.version < |d.history|)
  }

  ghost predicate OnePerPlan(approvals: seq<Approval>) {
    forall i, j :: 0 <= i < j < |approvals| ==> approvals[i].plan != approvals[j].plan
  }

  /** Approval i moved the incident out of PENDING_APPROVAL, to the state its decision names. */
  ghost predicate Moved(h: I.History, a: Approval, version: int) {
    && 1 <= version < |h|
    && h[version - 1].state == I.PendingApproval && h[version].state == DecisionTarget(a.decision)
  }

  ghost predicate AllMoved(d: Db) {
    && |d.decidedAt| == |d.approvals|
    && (forall i :: 0 <= i < |d.approvals| ==> Moved(d.history, d.approvals[i], d.decidedAt[i]))
    && (forall i, j :: 0 <= i < j < |d.decidedAt| ==> d.decidedAt[i] < d.decidedAt[j])
  }

  function Approvers(approvals: seq<Approval>): nat {
    if approvals == [] then 0
    else Approvers(approvals[..|approvals| - 1]) + if approvals[|approvals| - 1].decision == Approve then 1 else 0
  }

  /** A plan is flagged approved exactly when an APPROVE decision is recorded for it. */
  ghost predicate FlagsOk(d: Db) {
    && (forall a :: a in d.approvals ==> a.plan in d.plans && (a.decision == Approve ==> d.plans[a.plan].approved))
    && (forall p :: p in d.plans && d.plans[p].approved ==>
          exists i :: 0 <= i < |d.approvals| && d.approvals[i].plan == p && d.approvals[i].decision == Approve)
  }

  ghost predicate Inv(d: Db) {
    && I.Legal(d.history) && OnePerPlan(d.approvals) && AllMoved(d) && FlagsOk(d)
    && I.EntriesTo(d.history, I.Approved) == Approvers(d.approvals)
    && forall w :: PcOk(d, PcOf(d, w))
  }

  /** A step that writes neither approvals nor plan flags. */
  lemma QuietStep(d: Db, v: Db)
    requires Inv(d) && v == d.(pcs := v.pcs, answers := v.answers)
    requires forall w :: PcOf(v, w) == PcOf(d, w) || PcOk(d, PcOf(v, w))
    ensures Inv(v)
  {
    forall w ensures PcOk(v, PcOf(v, w)) {
      assert PcOk(d, PcOf(d, w));
      assert forall p :: Decided(v, p) == Decided(d, p);
    }
  }

  lemma LastVersion(h: I.History)
    requires I.Legal(h)
    ensures I.Last(h).version == |h|
  {
    I.LegalIsNumbered(h);
  }

  lemma MoveKeepsInv(d: Db, row: I.Incident, at: Time)
    requires Inv(d) && I.Follows(I.Last(d.history), row) && row.state != I.Approved
    ensures Inv(d.(history := d.history + [row], times := d.times + [at], updatedAt := at))
  {
    var v := d.(history := d.history + [row], times := d.times + [at], updatedAt := at);
    I.ExtendLegal(d.history, row);
    assert v.history[..|v.history| - 1] == d.history;
    forall i | 0 <= i < |d.approvals| ensures Moved(v.history, v.approvals[i], v.decidedAt[i]) {
      assert Moved(d.history, d.approvals[i], d.decidedAt[i]);
    }
    forall w ensures PcOk(v, PcOf(v, w)) {
      assert PcOk(d, PcOf(d, w));
      assert forall p :: Decided(v, p) == Decided(d, p);
    }
  }

  lemma AddPlanKeepsInv(d: Db, version: int, hash: string)
    requires Inv(d) && version !in d.plans
    ensures Inv(d.(plans := d.plans[version := Plan(hash, false)]))
  {
    var v := d.(plans := d.plans[version := Plan(hash, false)]);
    forall w ensures PcOk(v, PcOf(v, w)) {
      assert PcOk(d, PcOf(d, w));
      assert forall p :: Decided(v, p) == Decided(d, p);
    }
  }

  /** The heart: a commit finds the version its snapshot had, so no decision for the plan came in between. */
  lemma CommitIsFirst(d: Db, w: WorkerId)
    requires Inv(d) && PcOf(d, w).Ready?
    requires I.Last(d.history).version == PcOf(d, w).snapshot.version
    ensures !Decided(d, PcOf(d, w).request.plan)
  {
    LastVersion(d.history);
    assert PcOk(d, PcOf(d, w));
  }

  /** What a successful commit writes, seen from outside. */
  ghost predicate Writes(d: Db, v: Db, w: WorkerId, row: I.Incident, record: Approval) {
    && v.history == d.history + [row] && v.approvals == d.approvals + [record]
    && v.decidedAt == d.decidedAt + [|d.history|]
    && v.pcs == d.pcs[w := Idle]
    && record.plan in d.plans
    && v.plans == if record.decision == Approve then d.plans[record.plan := d.plans[record.plan].(approved := true)] else d.plans
  }

  lemma WriteMoves(d: Db, v: Db, w: WorkerId, row: I.Incident, record: Approval)
    requires AllMoved(d) && d.history != [] && Writes(d, v, w, row, record)
    requires I.Last(d.history).state == I.PendingApproval && row.state == DecisionTarget(record.decision)
    ensures AllMoved(v)
  {
    forall i | 0 <= i < |d.approvals| ensures Moved(v.history, v.approvals[i], v.decidedAt[i]) && v.decidedAt[i] < |d.history| {
      assert Moved(d.history, d.approvals[i], d.decidedAt[i]);
    }
  }

  lemma WriteCounts(d: Db, v: Db, w: WorkerId, row: I.Incident, record: Approval)
    requires I.EntriesTo(d.history, I.Approved) == Approvers(d.approvals) && d.history != [] && Writes(d, v, w, row, record)
    requires I.Last(d.history).state == I.PendingApproval && row.state == DecisionTarget(record.decision)
    ensures I.EntriesTo(v.history, I.Approved) == Approvers(v.approvals)
  {
    assert v.history[..|v.history| - 1] == d.history;
    assert v.approvals[..|v.approvals| - 1] == d.approvals;
  }

  lemma WriteKeepsHistory(d: Db, v: Db, w: WorkerId, row: I.Incident, record: Approval)
    requires Inv(d) && Writes(d, v, w, row, record) && !Decided(d, record.plan)
    requires I.Follows(I.Last(d.history), row) && I.Last(d.history).state == I.PendingApproval
    requires row.state == DecisionTarget(record.decision)
    ensures I.Legal(v.history) && OnePerPlan(v.approvals) && AllMoved(v)
    ensures I.EntriesTo(v.history, I.Approved) == Approvers(v.approvals)
  {
    I.ExtendLegal(d.history, row);
    WriteMoves(d, v, w, row, record);
    WriteCounts(d, v, w, row, record);
    forall i | 0 <= i < |d.approvals| ensures d.approvals[i].plan != record.plan {
      assert d.approvals[i] in d.approvals;
    }
  }

  lemma WriteKeepsRest(d: Db, v: Db, w: WorkerId, row: I.Incident, record: Approval)
    requires Inv(d) && Writes(d, v, w, row, record)
    ensures FlagsOk(v) && forall x :: PcOk(v, PcOf(v, x))
  {
    forall x ensures PcOk(v, PcOf(v, x)) {
      assert PcOk(d, PcOf(d, x));
    }
    forall p | p in v.plans && v.plans[p].approved
      ensures exists i :: 0 <= i < |v.approvals| && v.approvals[i].plan == p && v.approvals[i].decision == Approve
    {
      if p == record.plan && record.decision == Approve {
        assert v.approvals[|d.approvals|] == record;
      } else {
        var i :| 0 <= i < |d.approvals| && d.approvals[i].plan == p && d.approvals[i].decision == Approve;
        assert v.approvals[i] == d.approvals[i];
      }
    }
  }

  lemma CommitKeepsInv(d: Db, w: WorkerId, at: Time)
    requires Inv(d) && PcOf(d, w).Ready?
    ensures Inv(DoCommit(d, w, PcOf(d, w), at))
  {
    var pc := PcOf(d, w);
    var v := DoCommit(d, w, pc, at);
    var outcome := I.Transition(I.Last(d.history), pc.snapshot.version, DecisionTarget(pc.request.decision));
    LastVersion(d.history);
    assert PcOk(d, pc);
    if outcome.Refused? {
      QuietStep(d, v);
    } else {
      CommitIsFirst(d, w);
      var record := NewRecord(d, pc.request, pc.now);
      WriteKeepsHistory(d, v, w, outcome.row, record);
      WriteKeepsRest(d, v, w, outcome.row, record);
    }
  }

  lemma BeginKeepsInv(d: Db, w: WorkerId, r: Submission)
    requires Inv(d)
    ensures Inv(DoBegin(d, w, r))
  {
    LastVersion(d.history);
    QuietStep(d, DoBegin(d, w, r));
  }

  lemma FetchPlanKeepsInv(d: Db, w: WorkerId)
    requires Inv(d) && PcOf(d, w).ReadIncident?
    ensures Inv(DoFetchPlan(d, w, PcOf(d, w)))
  {
    assert PcOk(d, PcOf(d, w));
    QuietStep(d, DoFetchPlan(d, w, PcOf(d, w)));
  }

  lemma FetchApprovalsKeepsInv(d: Db, w: WorkerId, found: Option<Approval>, now: Time)
    requires Inv(d) && PcOf(d, w).ReadPlan?
    ensures Inv(DoFetchApprovals(d, w, PcOf(d, w), found, now))
  {
    assert PcOk(d, PcOf(d, w));
    QuietStep(d, DoFetchApprovals(d, w, PcOf(d, w), found, now));
  }

  lemma OthersKeepInv(d: Db, outcome: I.Outcome, at: Time)
    requires Inv(d)
    requires outcome.Committed? ==> I.Follows(I.Last(d.history), outcome.row) && outcome.row.state != I.Approved
    ensures Inv(DoMove(d, outcome, at))
  {
    if outcome.Committed? {
      MoveKeepsInv(d, outcome.row, at);
    }
  }

  lemma StepKeepsInv(d: Db, a: Action)
    requires Inv(d)
    ensures Inv(Apply(d, a))
  {
    match a
    case Begin(w, r) => BeginKeepsInv(d, w, r);
    case FetchPlan(w) =>
      if PcOf(d, w).ReadIncident? {
        FetchPlanKeepsInv(d, w);
      }
    case FetchApprovals(w, found, now) =>
      if PcOf(d, w).ReadPlan? {
        FetchApprovalsKeepsInv(d, w, found, now);
      }
    case Commit(w, at) =>
      if PcOf(d, w).Ready? {
        CommitKeepsInv(d, w, at);
      }
    case AddPlan(version, hash) =>
      if version !in d.plans {
        AddPlanKeepsInv(d, version, hash);
      }
    case Move(expected, target, at) =>
      if target != I.Approved {
        OthersKeepInv(d, I.Transition(I.Last(d.history), expected, target), at);
      }
    case Route(expected, at) => OthersKeepInv(d, I.RequireApproval(I.Last(d.history), expected), at);
    case Crash(w) => QuietStep(d, Go(d, w, Idle));
  }

  lemma {:induction false} PlayKeepsInv(d: Db, actions: seq<Action>)
    requires Inv(d)
    ensures Inv(Play(d, actions))
    decreases |actions|
  {
    if actions != [] {
      StepKeepsInv(d, actions[0]);
      PlayKeepsInv(Apply(d, actions[0]), actions[1..]);
    }
  }

  lemma StartIsOk(key: string, retryLimit: nat, at: Time)
    ensures Inv(Start(key, retryLimit, at))
  {
  }

  // ---------------------------------------------------------------- theorems

  /** Over every interleaving of submissions, crashes, new plans and other transitions: at most one decision is ever
      committed per plan version, each of them moved the incident on from a PENDING_APPROVAL row of its own, the plan's
      flag says what was decided, and the incident is APPROVED exactly as often as an APPROVE was recorded. */
  lemma OneDecisionPerPlan(key: string, retryLimit: nat, at: Time, actions: seq<Action>)
    ensures var d := Play(Start(key, retryLimit, at), actions);
            && OnePerPlan(d.approvals) && AllMoved(d) && FlagsOk(d)
            && I.EntriesTo(d.history, I.Approved) == Approvers(d.approvals) <= |d.plans|
  {
    StartIsOk(key, retryLimit, at);
    PlayKeepsInv(Start(key, retryLimit, at), actions);
    var d := Play(Start(key, retryLimit, at), actions);
    ApproversAtMost(d.approvals);
    var decided := PlansOf(d.approvals);
    forall p | p in decided ensures p in d.plans {
      var a :| a in d.approvals && a.plan == p;
    }
    assert decided + (d.plans.Keys - decided) == d.plans.Keys;
  }

  lemma {:induction false} ApproversAtMost(approvals: seq<Approval>)
    ensures Approvers(approvals) <= |approvals|
  {
    if approvals != [] {
      ApproversAtMost(approvals[..|approvals| - 1]);
    }
  }

  lemma {:induction false} PlansOf(approvals: seq<Approval>) returns (plans: set<int>)
    requires OnePerPlan(approvals)
    ensures |plans| == |approvals| && forall p :: p in plans <==> exists a :: a in approvals && a.plan == p
    decreases |approvals|
  {
    plans := {};
    if approvals != [] {
      var front, last := approvals[..|approvals| - 1], approvals[|approvals| - 1];
      var rest := PlansOf(front);
      plans := rest + {last.plan};
      assert approvals == front + [last];
      assert last in approvals;
    }
  }

  /** Approvals are only ever added. */
  lemma ApprovalsGrow(d: Db, a: Action)
    requires d.history != []
    ensures d.approvals <= Apply(d, a).approvals
  {
  }

  /** The decision `a` stands, and the answers from position `from` on respect it. */
  ghost predicate Final(d: Db, a: Approval, from: nat) {
    && a in d.approvals && from <= |d.answers|
    && forall i :: from <= i < |d.answers| && d.answers[i].request.plan == a.plan ==> Respects(d.answers[i], a)
  }

  /** The only successful answer repeats the recorded decision and carries that very record. */
  predicate Respects(answer: Answer, a: Approval) {
    && !answer.verdict.Recorded?
    && (answer.verdict.Replayed? ==> answer.verdict.record == a && answer.request.decision == a.decision)
    && (answer.verdict.Conflicting? ==> answer.request.decision != a.decision)
  }

  lemma UniqueRecord(approvals: seq<Approval>, a: Approval, b: Approval)
    requires OnePerPlan(approvals) && a in approvals && b in approvals && a.plan == b.plan
    ensures a == b
  {
  }

  /** The step adds at most one answer, and that one respects the decision or is about another plan. */
  ghost predicate AddsRespectfully(d: Db, v: Db, a: Approval) {
    && d.approvals <= v.approvals
    && (v.answers == d.answers
        || (|v.answers| == |d.answers| + 1 && d.answers <= v.answers
            && (v.answers[|d.answers|].request.plan == a.plan ==> Respects(v.answers[|d.answers|], a))))
  }

  lemma FinalKept(d: Db, v: Db, a: Approval, from: nat)
    requires Final(d, a, from) && AddsRespectfully(d, v, a)
    ensures Final(v, a, from)
  {
    forall i | from <= i < |v.answers| && v.answers[i].request.plan == a.plan ensures Respects(v.answers[i], a) {
      if i < |d.answers| {
        assert v.answers[i] == d.answers[i];
      }
    }
  }

  lemma FetchRespects(d: Db, a: Approval, w: WorkerId, found: Option<Approval>, now: Time)
    requires Inv(d) && a in d.approvals && PcOf(d, w).ReadPlan?
    ensures AddsRespectfully(d, DoFetchApprovals(d, w, PcOf(d, w), found, now), a)
  {
    if found.Some? && LatestApproval(d, PcOf(d, w).request.plan, found) && found.value.plan == a.plan {
      UniqueRecord(d.approvals, a, found.value);
    }
  }

  lemma CommitRespects(d: Db, a: Approval, w: WorkerId, at: Time)
    requires Inv(d) && a in d.approvals && PcOf(d, w).Ready?
    ensures AddsRespectfully(d, DoCommit(d, w, PcOf(d, w), at), a)
  {
    if I.Last(d.history).version == PcOf(d, w).snapshot.version {
      CommitIsFirst(d, w);
    }
  }

  lemma StepKeepsFinal(d: Db, a: Approval, from: nat, step: Action)
    requires Inv(d) && Final(d, a, from)
    ensures Final(Apply(d, step), a, from)
  {
    if step.FetchApprovals? && PcOf(d, step.worker).ReadPlan? {
      FetchRespects(d, a, step.worker, step.found, step.now);
    } else if step.Commit? && PcOf(d, step.worker).Ready? {
      CommitRespects(d, a, step.worker, step.at);
    }
    FinalKept(d, Apply(d, step), a, from);
  }

  /** A recorded decision is final: in every continuation it stays recorded, no submission for that plan version records
      another, one that repeats the decision is given the same record, and one that contradicts it is refused. */
  lemma {:induction false} DecisionIsFinal(d: Db, a: Approval, from: nat, actions: seq<Action>)
    requires Inv(d) && Final(d, a, from)
    ensures Final(Play(d, actions), a, from)
    decreases |actions|
  {
    if actions != [] {
      StepKeepsInv(d, actions[0]);
      StepKeepsFinal(d, a, from, actions[0]);
      DecisionIsFinal(Apply(d, actions[0]), a, from, actions[1..]);
    }
  }

  /** A submission that reaches the approval table after the decision is answered from it alone: its own decision,
      and neither the deadline, the incident's state nor the expected version, settles the verdict. */
  lemma LateSubmissionIsAnsweredFromRecord(d: Db, a: Approval, w: WorkerId, found: Option<Approval>, now: Time)
    requires Inv(d) && a in d.approvals && PcOf(d, w).ReadPlan? && PcOf(d, w).request.plan == a.plan
    requires LatestApproval(d, a.plan, found)
    ensures var v := Apply(d, FetchApprovals(w, found, now));
            && v.answers == d.answers + [Answer(PcOf(d, w).request,
                 if PcOf(d, w).request.decision == a.decision then Replayed(a) else Conflicting)]
            && v.history == d.history && v.approvals == d.approvals && v.plans == d.plans
  {
    if found.Some? {
      UniqueRecord(d.approvals, a, found.value);
    }
  }

  // ---------------------------------------------------------------- what a recorded decision rests on

  const WHITE := {' ', '\t', '\n', '\U{B}', '\U{C}', '\r', '\U{1C}', '\U{1D}', '\U{1E}', '\U{1F}'}

  /** A rejection names a reason that is not blank. */
  predicate ReasonGiven(r: Submission) {
    r.decision == Reject ==> exists i :: 0 <= i < |r.reason| && r.reason[i] !in WHITE
  }

  /** The submitted content hash is left out, or is the plan's, or the plan has none. */
  predicate HashFits(plans: map<int, Plan>, r: Submission) {
    r.plan in plans && (r.hash == "" || plans[r.plan].hash == "" || r.hash == plans[r.plan].hash)
  }

  /** The request was made against this version of the incident, and decided no later than 30 minutes after that row was written. */
  predicate InTime(times: seq<Time>, r: Submission, version: int, now: Time) {
    r.expected == version && 1 <= version <= |times| && now <= times[version - 1] + 1800 * SECOND
  }

  ghost predicate PcGrounded(d: Db, pc: Pc) {
    match pc
    case Idle => true
    case ReadIncident(r, snapshot, at) => ReasonGiven(r) && 1 <= snapshot.version <= |d.times| && d.times[snapshot.version - 1] == at
    case ReadPlan(r, snapshot, at) =>
      ReasonGiven(r) && HashFits(d.plans, r) && 1 <= snapshot.version <= |d.times| && d.times[snapshot.version - 1] == at
    case Ready(r, snapshot, now) => ReasonGiven(r) && HashFits(d.plans, r) && InTime(d.times, r, snapshot.version, now)
  }

  /** The record says what was asked, and the request was in order. */
  ghost predicate RecordGrounded(d: Db, r: Submission, record: Approval) {
    && record.id < |d.approvals| == |d.decidedAt| && d.approvals[record.id] == record
    && record.plan == r.plan && record.decision == r.decision
    && ReasonGiven(r) && HashFits(d.plans, r) && InTime(d.times, r, d.decidedAt[record.id], record.createdAt)
    && record.expiresAt == record.createdAt + 1795 * SECOND
    && (record.decision == Approve ==> record.reason == "")
    && (record.decision == Reject ==> record.reason != "" && record.reason[0] !in WHITE && record.reason[|record.reason| - 1] !in WHITE)
  }

  ghost predicate Grounded(d: Db) {
    && |d.times| == |d.history| && d.times != [] && d.updatedAt == d.times[|d.times| - 1] && |d.approvals| == |d.decidedAt|
    && (forall w :: PcGrounded(d, PcOf(d, w)))
    && (forall i :: 0 <= i < |d.answers| && d.answers[i].verdict.Recorded? ==> RecordGrounded(d, d.answers[i].request, d.answers[i].verdict.record))
  }

  /** Rows, approvals and plans are only ever added. */
  ghost predicate Extends(d: Db, v: Db) {
    && d.times <= v.times && d.approvals <= v.approvals && d.decidedAt <= v.decidedAt && |v.approvals| == |v.decidedAt|
    && forall p :: p in d.plans ==> p in v.plans && v.plans[p].hash == d.plans[p].hash
  }

  lemma PcStaysGrounded(d: Db, v: Db, pc: Pc)
    requires Extends(d, v) && PcGrounded(d, pc)
    ensures PcGrounded(v, pc)
  {
  }

  /** A step of one worker that adds at most one answer. */
  lemma GroundedStep(d: Db, v: Db, w: WorkerId)
    requires Grounded(d) && Extends(d, v)
    requires |v.times| == |v.history| && v.times != [] && v.updatedAt == v.times[|v.times| - 1]
    requires (forall x :: x != w ==> PcOf(v, x) == PcOf(d, x)) && PcGrounded(v, PcOf(v, w))
    requires v.answers == d.answers || (d.answers <= v.answers && |v.answers| == |d.answers| + 1)
    requires |v.answers| > |d.answers| && v.answers[|d.answers|].verdict.Recorded? ==>
               RecordGrounded(v, v.answers[|d.answers|].request, v.answers[|d.answers|].verdict.record)
    ensures Grounded(v)
  {
    forall x ensures PcGrounded(v, PcOf(v, x)) {
      if x != w {
        PcStaysGrounded(d, v, PcOf(d, x));
      }
    }
    forall i | 0 <= i < |v.answers| && v.answers[i].verdict.Recorded?
      ensures RecordGrounded(v, v.answers[i].request, v.answers[i].verdict.record)
    {
      if i < |d.answers| {
        assert v.answers[i] == d.answers[i];
        var record := d.answers[i].verdict.record;
        assert RecordGrounded(d, d.answers[i].request, record);
        assert v.approvals[record.id] == d.approvals[record.id] && v.decidedAt[record.id] == d.decidedAt[record.id];
      }
    }
  }

  lemma SpaceIsWhite(c: char)
    ensures Space(c) <==> c in WHITE
  {
  }

  lemma ReasonIsGiven(r: Submission)
    ensures ReasonGiven(r) <==> r.decision == Approve || Strip(r.reason) != []
    ensures Strip(r.reason) != [] ==> Strip(r.reason)[0] !in WHITE && Strip(r.reason)[|Strip(r.reason)| - 1] !in WHITE
  {
    var t := Strip(r.reason);
    if t != [] {
      SpaceIsWhite(t[0]);
      SpaceIsWhite(t[|t| - 1]);
      assert t[0] in r.reason;
    } else {
      forall i | 0 <= i < |r.reason| ensures r.reason[i] in WHITE {
        SpaceIsWhite(r.reason[i]);
        assert r.reason[i] in r.reason;
      }
    }
  }

  lemma BeginGrounded(d: Db, w: WorkerId, r: Submission)
    requires Grounded(d) && I.Last(d.history).version == |d.history|
    ensures Grounded(DoBegin(d, w, r))
  {
    ReasonIsGiven(r);
    GroundedStep(d, DoBegin(d, w, r), w);
  }

  lemma FetchPlanGrounded(d: Db, w: WorkerId)
    requires Grounded(d) && PcOf(d, w).ReadIncident?
    ensures Grounded(DoFetchPlan(d, w, PcOf(d, w)))
  {
    assert PcGrounded(d, PcOf(d, w));
    GroundedStep(d, DoFetchPlan(d, w, PcOf(d, w)), w);
  }

  lemma FetchApprovalsGrounded(d: Db, w: WorkerId, found: Option<Approval>, now: Time)
    requires Grounded(d) && PcOf(d, w).ReadPlan?
    ensures Grounded(DoFetchApprovals(d, w, PcOf(d, w), found, now))
  {
    assert PcGrounded(d, PcOf(d, w));
    GroundedStep(d, DoFetchApprovals(d, w, PcOf(d, w), found, now), w);
  }

  lemma CommitRecord(d: Db, v: Db, r: Submission, snapshot: I.Incident, now: Time)
    requires |d.approvals| == |d.decidedAt| && v.approvals == d.approvals + [NewRecord(d, r, now)] && v.decidedAt == d.decidedAt + [snapshot.version]
    requires d.times <= v.times && Extends(d, v)
    requires ReasonGiven(r) && HashFits(d.plans, r) && InTime(d.times, r, snapshot.version, now)
    ensures RecordGrounded(v, r, NewRecord(d, r, now))
  {
    ReasonIsGiven(r);
  }

  lemma CommitGrounded(d: Db, w: WorkerId, at: Time)
    requires Grounded(d) && PcOf(d, w).Ready?
    ensures Grounded(DoCommit(d, w, PcOf(d, w), at))
  {
    var pc := PcOf(d, w);
    var v := DoCommit(d, w, pc, at);
    assert PcGrounded(d, pc);
    if v.approvals != d.approvals {
      CommitRecord(d, v, pc.request, pc.snapshot, pc.now);
    }
    GroundedStep(d, v, w);
  }

  lemma MoveGrounded(d: Db, outcome: I.Outcome, at: Time)
    requires Grounded(d)
    ensures Grounded(DoMove(d, outcome, at))
  {
    assert PcGrounded(d, PcOf(d, 0));
    PcStaysGrounded(d, DoMove(d, outcome, at), PcOf(d, 0));
    GroundedStep(d, DoMove(d, outcome, at), 0);
  }

  lemma StepGrounded(d: Db, a: Action)
    requires Grounded(d) && I.Last(d.history).version == |d.history|
    ensures Grounded(Apply(d, a))
  {
    match a
    case Begin(w, r) => BeginGrounded(d, w, r);
    case FetchPlan(w) =>
      if PcOf(d, w).ReadIncident? {
        FetchPlanGrounded(d, w);
      }
    case FetchApprovals(w, found, now) =>
      if PcOf(d, w).ReadPlan? {
        FetchApprovalsGrounded(d, w, found, now);
      }
    case Commit(w, at) =>
      if PcOf(d, w).Ready? {
        CommitGrounded(d, w, at);
      }
    case AddPlan(version, hash) =>
      PcStaysGrounded(d, Apply(d, a), PcOf(d, 0));
      GroundedStep(d, Apply(d, a), 0);
    case Move(expected, target, at) =>
      if target != I.Approved {
        MoveGrounded(d, I.Transition(I.Last(d.history), expected, target), at);
      }
    case Route(expected, at) => MoveGrounded(d, I.RequireApproval(I.Last(d.history), expected), at);
    case Crash(w) => GroundedStep(d, Go(d, w, Idle), w);
  }

  lemma {:induction false} PlayGrounded(d: Db, actions: seq<Action>)
    requires Inv(d) && Grounded(d)
    ensures Grounded(Play(d, actions))
    decreases |actions|
  {
    if actions != [] {
      LastVersion(d.history);
      StepKeepsInv(d, actions[0]);
      StepGrounded(d, actions[0]);
      PlayGrounded(Apply(d, actions[0]), actions[1..]);
    }
  }

  /** Over every interleaving: a decision answered as recorded was asked for against the very version of the PENDING_APPROVAL row it
      moved on from, with a fitting content hash, a reason if it rejects, and within 30 minutes of that row; the record says
      what was asked and expires 29 minutes and 55 seconds after it was made. */
  lemma RecordedIsGrounded(key: string, retryLimit: nat, at: Time, actions: seq<Action>, i: nat)
    requires i < |Play(Start(key, retryLimit, at), actions).answers| && Play(Start(key, retryLimit, at), actions).answers[i].verdict.Recorded?
    ensures var d := Play(Start(key, retryLimit, at), actions); var r := d.answers[i].request; var record := d.answers[i].verdict.record;
            && RecordGrounded(d, r, record) && |d.times| == |d.history|
            && d.history[r.expected - 1].version == r.expected && d.history[r.expected - 1].state == I.PendingApproval
            && r.expected < |d.history|
            && d.history[r.expected].state == if record.decision == Approve then I.Approved else I.Escalated
  {
    var start := Start(key, retryLimit, at);
    StartIsOk(key, retryLimit, at);
    assert Grounded(start);
    PlayGrounded(start, actions);
    PlayKeepsInv(start, actions);
    var d := Play(start, actions);
    var record := d.answers[i].verdict.record;
    assert RecordGrounded(d, d.answers[i].request, record);
    assert Moved(d.history, d.approvals[record.id], d.decidedAt[record.id]);
    I.LegalIsNumbered(d.history);
  }

  /** An uninterrupted submission, verdict by verdict, on the rows it reads. */
  lemma VerdictTable(d: Db, r: Submission, found: Option<Approval>, now: Time)
    requires d.history != []
    ensures var v := VerdictOf(d, r, found, now); var row := d.history[|d.history| - 1];
            var checked := ReasonGiven(r) && HashFits(d.plans, r);
            && (v.ReasonMissing? <==> !ReasonGiven(r))
            && (v.PlanNotFound? <==> ReasonGiven(r) && r.plan !in d.plans)
            && (v.HashMismatch? <==> ReasonGiven(r) && r.plan in d.plans && !HashFits(d.plans, r))
            && (v.Replayed? <==> checked && found.Some? && found.value.decision == r.decision)
            && (v.Replayed? ==> v.record == found.value)
            && (v.Conflicting? <==> checked && found.Some? && found.value.decision != r.decision)
            && (v.Gone? <==> checked && found.None? && now > d.updatedAt + 1800 * SECOND)
            && (v.NotPending? <==> checked && found.None? && now <= d.updatedAt + 1800 * SECOND && row.state != I.PendingApproval)
            && (v.VersionMismatch? <==> checked && found.None? && now <= d.updatedAt + 1800 * SECOND && row.state == I.PendingApproval
                                        && row.version != r.expected)
            && (v.Recorded? <==> checked && found.None? && now <= d.updatedAt + 1800 * SECOND && row.state == I.PendingApproval
                                 && row.version == r.expected)
            && !v.LostRace?
  {
    ReasonIsGiven(r);
  }

  // ---------------------------------------------------------------- the endpoint

  /** One submission with nothing interleaved. */
  function Steps(w: WorkerId, r: Submission, found: Option<Approval>, now: Time): seq<Action> {
    [Begin(w, r), FetchPlan(w), FetchApprovals(w, found, now), Commit(w, now)]
  }

  lemma PlayOne(d: Db, a: Action, rest: seq<Action>)
    requires d.history != []
    ensures Play(d, [a] + rest) == Play(Apply(d, a), rest)
  {
    assert ([a] + rest)[1..] == rest;
  }

  lemma PlayTwo(d: Db, a: Action, b: Action)
    requires d.history != []
    ensures Play(d, [a, b]) == Apply(Apply(d, a), b)
  {
    assert [a, b] == [a] + [b] && [b] == [b] + [];
    PlayOne(d, a, [b]);
    PlayOne(Apply(d, a), b, []);
  }

  /** What an uninterrupted submission is told. */
  function VerdictOf(d: Db, r: Submission, found: Option<Approval>, now: Time): Verdict
    requires d.history != []
  {
    if r.decision == Reject && Strip(r.reason) == [] then ReasonMissing
    else if r.plan !in d.plans then PlanNotFound
    else if r.hash != "" && d.plans[r.plan].hash != "" && r.hash != d.plans[r.plan].hash then HashMismatch
    else
      var verdict := Examine(r, I.Last(d.history), d.updatedAt, found, now);
      if verdict.Some? then verdict.value else Recorded(NewRecord(d, r, now))
  }

  /** The tables after an uninterrupted submission: all three are written, or none. */
  function Settled(d: Db, w: WorkerId, r: Submission, found: Option<Approval>, now: Time): Db
    requires d.history != []
  {
    var verdict := VerdictOf(d, r, found, now);
    if !verdict.Recorded? then Tell(d, w, r, verdict)
    else
      var last := I.Last(d.history);
      var row := last.(state := DecisionTarget(r.decision), version := last.version + 1);
      Tell(d.(history := d.history + [row], times := d.times + [now], updatedAt := now,
              plans := if r.decision == Approve && r.plan in d.plans
                       then d.plans[r.plan := d.plans[r.plan].(approved := true)] else d.plans,
              approvals := d.approvals + [verdict.record], decidedAt := d.decidedAt + [last.version]),
           w, r, verdict)
  }

  /** Only the last program counter of a worker shows. */
  lemma TellAfterGo(d: Db, w: WorkerId, pc: Pc, r: Submission, verdict: Verdict)
    ensures Tell(Go(d, w, pc), w, r, verdict) == Tell(d, w, r, verdict)
  {
    assert d.pcs[w := pc][w := Idle] == d.pcs[w := Idle];
  }

  lemma GoAfterGo(d: Db, w: WorkerId, pc: Pc, next: Pc)
    ensures Go(Go(d, w, pc), w, next) == Go(d, w, next)
  {
    assert d.pcs[w := pc][w := next] == d.pcs[w := next];
  }

  lemma SettleCommit(d: Db, w: WorkerId, r: Submission, now: Time)
    requires d.history != [] && VerdictOf(d, r, None, now).Recorded?
    ensures Apply(Go(d, w, Ready(r, I.Last(d.history), now)), Commit(w, now)) == Settled(d, w, r, None, now)
  {
    TellAfterGo(d, w, Ready(r, I.Last(d.history), now), r, VerdictOf(d, r, None, now));
  }

  lemma SettleFromPlan(d: Db, w: WorkerId, r: Submission, found: Option<Approval>, now: Time)
    requires d.history != [] && LatestApproval(d, r.plan, found)
    requires var early := VerdictOf(d, r, found, now); !early.ReasonMissing? && !early.PlanNotFound? && !early.HashMismatch?
    ensures var reading := Go(d, w, ReadPlan(r, I.Last(d.history), d.updatedAt));
            Apply(Apply(reading, FetchApprovals(w, found, now)), Commit(w, now)) == Settled(d, w, r, found, now)
  {
    var last := I.Last(d.history);
    var pc := ReadPlan(r, last, d.updatedAt);
    var reading := Go(d, w, pc);
    var verdict := Examine(r, last, d.updatedAt, found, now);
    var next := Apply(reading, FetchApprovals(w, found, now));
    assert LatestApproval(reading, r.plan, found);
    if verdict.Some? {
      assert next == Tell(reading, w, r, verdict.value);
      TellAfterGo(d, w, pc, r, verdict.value);
    } else {
      assert next == Go(reading, w, Ready(r, last, now));
      GoAfterGo(d, w, pc, Ready(r, last, now));
      SettleCommit(d, w, r, now);
    }
  }

  /** The first two steps end in the early refusal, or with the plan read. */
  lemma SettleEarly(d: Db, w: WorkerId, r: Submission, found: Option<Approval>, now: Time)
    requires d.history != [] && PcOf(d, w).Idle?
    ensures var verdict := VerdictOf(d, r, found, now);
            Apply(Apply(d, Begin(w, r)), FetchPlan(w))
            == if verdict.ReasonMissing? || verdict.PlanNotFound? || verdict.HashMismatch? then Tell(d, w, r, verdict)
               else Go(d, w, ReadPlan(r, I.Last(d.history), d.updatedAt))
  {
    var verdict := VerdictOf(d, r, found, now);
    var begun := Apply(d, Begin(w, r));
    if verdict.ReasonMissing? {
      assert begun == Tell(d, w, r, verdict);
    } else {
      var pc := ReadIncident(r, I.Last(d.history), d.updatedAt);
      assert begun == Go(d, w, pc);
      TellAfterGo(d, w, pc, r, verdict);
      GoAfterGo(d, w, pc, ReadPlan(r, I.Last(d.history), d.updatedAt));
    }
  }

  lemma IdleRests(d: Db, w: WorkerId, found: Option<Approval>, now: Time)
    requires d.history != [] && PcOf(d, w).Idle?
    ensures Apply(Apply(d, FetchApprovals(w, found, now)), Commit(w, now)) == d
  {
  }

  /** The four steps of an uninterrupted submission settle it; the compare-and-swap cannot fail. */
  lemma StepsSettle(d: Db, w: WorkerId, r: Submission, found: Option<Approval>, now: Time)
    requires d.history != [] && PcOf(d, w).Idle? && LatestApproval(d, r.plan, found)
    ensures Play(d, Steps(w, r, found, now)) == Settled(d, w, r, found, now)
  {
    var planned := Apply(Apply(d, Begin(w, r)), FetchPlan(w));
    SettleEarly(d, w, r, found, now);
    PlayOne(d, Begin(w, r), [FetchPlan(w), FetchApprovals(w, found, now), Commit(w, now)]);
    PlayOne(Apply(d, Begin(w, r)), FetchPlan(w), [FetchApprovals(w, found, now), Commit(w, now)]);
    PlayTwo(planned, FetchApprovals(w, found, now), Commit(w, now));
    var verdict := VerdictOf(d, r, found, now);
    if verdict.ReasonMissing? || verdict.PlanNotFound? || verdict.HashMismatch? {
      IdleRests(planned, w, found, now);
    } else {
      SettleFromPlan(d, w, r, found, now);
    }
  }

  /** The endpoint's tables, updated in place; `db` follows them through the interleaved model. */
  class ApprovalEndpoint {
    var incident: I.Incident
    var updatedAt: Time
    var plans: map<int, Plan>
    var approvals: seq<Approval>
    ghost var db: Db

    ghost predicate Valid()
      reads this
    {
      && db.history != [] && OnePerPlan(db.approvals) && incident == I.Last(db.history)
      && updatedAt == db.updatedAt && plans == db.plans && approvals == db.approvals
    }

    constructor (key: string, retryLimit: nat, at: Time)
      ensures Valid() && db == Start(key, retryLimit, at)
    {
      incident, updatedAt, plans, approvals := I.Created(key, retryLimit, false), at, map[], [];
      db := Start(key, retryLimit, at);
    }

    /** The query for the recorded decision: as there is one per plan, the latest is the only one. */
    method FindApproval(plan: int) returns (found: Option<Approval>)
      requires Valid()
      ensures LatestApproval(db, plan, found)
    {
      if a :| a in approvals && a.plan == plan {
        forall b | b in approvals && b.plan == plan ensures b == a {
          UniqueRecord(approvals, a, b);
        }
        found := Some(a);
      } else {
        found := None;
      }
    }

    /** The checks of `submit_approval` on the rows it reads; `None` means it goes on to write. */
    method CheckSubmission(r: Submission, found: Option<Approval>, now: Time) returns (refusal: Option<Verdict>)
      requires Valid()
      ensures var verdict := VerdictOf(db, r, found, now);
              if refusal.Some? then !verdict.Recorded? && refusal.value == verdict
              else r.plan in plans && verdict == Recorded(NewRecord(db, r, now))
    {
      if r.decision == Reject && Strip(r.reason) == [] { return Some(ReasonMissing); }
      if r.plan !in plans { return Some(PlanNotFound); }
      if r.hash != "" && plans[r.plan].hash != "" && r.hash != plans[r.plan].hash { return Some(HashMismatch); }
      if found.Some? {
        if found.value.decision == r.decision { return Some(Replayed(found.value)); }
        return Some(Conflicting);
      }
      if now > updatedAt + REQUEST_DEADLINE { return Some(Gone); }
      if incident.state != I.PendingApproval { return Some(NotPending); }
      if incident.version != r.expected { return Some(VersionMismatch); }
      refusal := None;
    }

    /** The writes of `submit_approval`: the approval, the plan's flag and the incident. */
    method RecordDecision(r: Submission, now: Time) returns (record: Approval)
      requires Valid() && r.plan in plans
      modifies this`incident, this`updatedAt, this`plans, this`approvals
      ensures record == NewRecord(db, r, now) && approvals == old(approvals) + [record] && updatedAt == now
      ensures incident == old(incident).(state := DecisionTarget(r.decision), version := old(incident).version + 1)
      ensures plans == if r.decision == Approve then old(plans)[r.plan := old(plans)[r.plan].(approved := true)] else old(plans)
    {
      record := Approval(|approvals|, r.plan, r.decision, "", now, now + APPROVAL_LIFETIME);
      if r.decision == Approve {
        plans := plans[r.plan := plans[r.plan].(approved := true)];
        incident := incident.(state := I.Approved, version := incident.version + 1);
      } else {
        record := record.(reason := Strip(r.reason));
        incident := incident.(state := I.Escalated, version := incident.version + 1);
      }
      approvals, updatedAt := approvals + [record], now;
    }

    /** `submit_approval`; the resulting tables are those of an uninterrupted run of the four steps (StepsSettle). */
    method SubmitApproval(w: WorkerId, r: Submission, now: Time) returns (verdict: Verdict)
      requires Valid() && PcOf(db, w).Idle?
      modifies this
      ensures Valid() && PcOf(db, w).Idle?
      ensures exists found :: LatestApproval(old(db), r.plan, found) && db == Settled(old(db), w, r, found, now)
                              && verdict == VerdictOf(old(db), r, found, now)
    {
      var found := FindApproval(r.plan);
      ghost var before := db;
      assert LatestApproval(before, r.plan, found);
      var refusal := CheckSubmission(r, found, now);
      if refusal.Some? {
        verdict := refusal.value;
      } else {
        var record := RecordDecision(r, now);
        verdict := Recorded(record);
      }
      db := Settled(before, w, r, found, now);
    }
  }
}
