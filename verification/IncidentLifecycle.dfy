/** The incident state machine under optimistic concurrency. */
module IncidentLifecycle {
  datatype State =
    | Detected | Triaged | Diagnosed | Planned | PendingApproval | Approved
    | Executing | Verifying | Resolved | Escalated | Failed | RolledBack

  /** The TRANSITIONS table. */
  function Targets(s: State): set<State> {
    match s
    case Detected => {Triaged}
    case Triaged => {Diagnosed, Escalated}
    case Diagnosed => {Planned, Escalated}
    case Planned => {PendingApproval, Executing, Escalated}
    case PendingApproval => {Approved, Escalated}
    case Approved => {Executing, Escalated}
    case Executing => {Verifying, Failed}
    case Verifying => {Resolved, Diagnosed, Escalated}
    case Failed => {RolledBack, Escalated}
    case Resolved => {}
    case RolledBack => {}
    case Escalated => {}
  }

  predicate Terminal(s: State) {
    s == Resolved || s == Escalated || s == RolledBack
  }

  datatype Incident = Incident(
    key: string, state: State, version: int, attempts: nat, retryLimit: nat, approvalRequired: bool)

  function Created(key: string, retryLimit: nat, approvalRequired: bool): Incident {
    Incident(key, Detected, 1, 0, retryLimit, approvalRequired)
  }

  datatype Refusal = StaleVersion | IllegalTransition | ApprovalMismatch | RetryExhausted
  datatype Outcome = Committed(row: Incident) | Refused(reason: Refusal)

  predicate IsRetry(from: State, target: State) {
    from == Verifying && target == Diagnosed
  }

  /** The checks `transition` makes on the row it read; `Committed(read)` means it goes on to the update. */
  function Check(read: Incident, expected: int, target: State): Outcome {
    if read.version != expected then Refused(StaleVersion)
    else if target !in Targets(read.state) then Refused(IllegalTransition)
    else if read.state == Planned && target != Escalated
              && target != (if read.approvalRequired then PendingApproval else Executing) then Refused(ApprovalMismatch)
    else if IsRetry(read.state, target) && read.attempts >= read.retryLimit then Refused(RetryExhausted)
    else Committed(read)
  }

  /** `transition` as it runs against a database: the checks use the row read earlier, the compare-and-swap
      and the written columns use the row current at the time of the update. */
  function TransitionOver(read: Incident, current: Incident, expected: int, target: State): Outcome {
    var checked := Check(read, expected, target);
    if checked.Refused? then checked
    else if current.version != expected then Refused(StaleVersion)
    else Committed(current.(state := target, version := expected + 1,
                            attempts := if IsRetry(read.state, target) then read.attempts + 1 else current.attempts))
  }

  function Transition(row: Incident, expected: int, target: State): Outcome {
    TransitionOver(row, row, expected, target)
  }

  function RequireApproval(row: Incident, expected: int): Outcome {
    if row.version == expected && row.state == Planned && !row.approvalRequired
    then Committed(row.(approvalRequired := true, version := expected + 1))
    else Refused(StaleVersion)
  }

  // ---------------------------------------------------------------- the database trigger

  predicate TriggerAcceptsInsert(row: Incident) {
    row.state == Detected && row.version == 1 && row.attempts == 0
  }

  /** The `guard_incident` trigger on UPDATE, clause by clause. */
  predicate TriggerAcceptsUpdate(before: Incident, after: Incident) {
    && after.version == before.version + 1
    && (after.state != before.state ==>
          && (match before.state
              case Detected => after.state.Triaged?
              case Triaged => after.state.Diagnosed? || after.state.Escalated?
              case Diagnosed => after.state.Planned? || after.state.Escalated?
              case Planned => after.state.PendingApproval? || after.state.Executing? || after.state.Escalated?
              case PendingApproval => after.state.Approved? || after.state.Escalated?
              case Approved => after.state.Executing? || after.state.Escalated?
              case Executing => after.state.Verifying? || after.state.Failed?
              case Verifying => after.state.Resolved? || after.state.Diagnosed? || after.state.Escalated?
              case Failed => after.state.RolledBack? || after.state.Escalated?
              case _ => false)
          && !(before.state.Planned? && !after.state.Escalated?
               && ((before.approvalRequired && !after.state.PendingApproval?)
                   || (!before.approvalRequired && !after.state.Executing?))))
    && (if before.state.Verifying? && after.state.Diagnosed?
        then before.attempts < before.retryLimit && after.attempts == before.attempts + 1
        else after.attempts == before.attempts)
  }

  /** The repository and the trigger accept the same state-changing updates: for each one the trigger lets through,
      `transition` writes exactly that row, and the other way round. */
  lemma RepositoryMatchesTrigger(before: Incident, after: Incident)
    requires after.state != before.state
    requires (after.key, after.retryLimit, after.approvalRequired) == (before.key, before.retryLimit, before.approvalRequired)
    ensures TriggerAcceptsUpdate(before, after) <==> Transition(before, before.version, after.state) == Committed(after)
  {
    assert after == before.(state := after.state, version := after.version, attempts := after.attempts);
  }

  /** The one update that keeps the state, enabling approval routing, passes the trigger as well. */
  lemma ApprovalRoutingPassesTrigger(row: Incident, expected: int)
    requires RequireApproval(row, expected).Committed?
    ensures TriggerAcceptsUpdate(row, RequireApproval(row, expected).row)
  {
  }

  /** The states the unique-active index leaves out are exactly those without a way on. */
  lemma TerminalIff(s: State)
    ensures Terminal(s) <==> forall t :: t !in Targets(s)
  {
    match s
    case Detected => assert Triaged in Targets(s);
    case Triaged => assert Diagnosed in Targets(s);
    case Diagnosed => assert Planned in Targets(s);
    case Planned => assert Executing in Targets(s);
    case PendingApproval => assert Approved in Targets(s);
    case Approved => assert Executing in Targets(s);
    case Executing => assert Verifying in Targets(s);
    case Verifying => assert Resolved in Targets(s);
    case Failed => assert RolledBack in Targets(s);
    case _ =>
  }

  /** Approval routing is enabled exactly on a PLANNED row of the expected version that does not have it, and changes nothing but
      the flag and the version. */
  lemma RoutingIff(row: Incident, expected: int)
    ensures RequireApproval(row, expected).Committed? <==>
            row.state == Planned && row.version == expected && row.approvalRequired == false
    ensures RequireApproval(row, expected).Committed? ==>
            RequireApproval(row, expected).row == Incident(row.key, Planned, expected + 1, row.attempts, row.retryLimit, true)
  {
  }

  // ---------------------------------------------------------------- runs

  /** The rows committed for one incident, oldest first. */
  type History = seq<Incident>

  predicate Follows(a: Incident, b: Incident) {
    Transition(a, a.version, b.state) == Committed(b) || RequireApproval(a, a.version) == Committed(b)
  }

  predicate FollowsAt(h: History, i: nat)
    requires 0 < i < |h|
  {
    Follows(h[i - 1], h[i])
  }

  ghost predicate Legal(h: History) {
    && h != []
    && TriggerAcceptsInsert(h[0])
    && forall i :: 0 < i < |h| ==> FollowsAt(h, i)
  }

  lemma LegalFront(h: History)
    requires Legal(h) && |h| > 1
    ensures Legal(h[..|h| - 1]) && Follows(h[|h| - 2], h[|h| - 1])
  {
    var front := h[..|h| - 1];
    forall i | 0 < i < |front| ensures FollowsAt(front, i) {
      assert FollowsAt(h, i);
    }
    assert FollowsAt(h, |h| - 1);
  }

  lemma ExtendLegal(h: History, row: Incident)
    requires Legal(h) && Follows(Last(h), row)
    ensures Legal(h + [row])
  {
    var next := h + [row];
    forall i | 0 < i < |next| ensures FollowsAt(next, i) {
      if i < |h| {
        assert FollowsAt(h, i);
      }
    }
  }

  /** What any actor may submit at any time: it acts on a row it read at some earlier point of the history,
      with whatever version it believes to be current. */
  datatype Request =
    | Move(readAt: nat, expected: int, target: State)
    | RouteToApproval(expected: int)

  function Last(h: History): Incident
    requires h != []
  {
    h[|h| - 1]
  }

  function Submit(h: History, r: Request): History
    requires h != []
  {
    var outcome :=
      match r
      case Move(readAt, expected, target) =>
        if readAt < |h| then TransitionOver(h[readAt], Last(h), expected, target) else Refused(StaleVersion)
      case RouteToApproval(expected) => RequireApproval(Last(h), expected);
    if outcome.Committed? then h + [outcome.row] else h
  }

  function Play(h: History, requests: seq<Request>): History
    requires h != []
    decreases |requests|
  {
    if requests == [] then h else Play(Submit(h, requests[0]), requests[1..])
  }

  ghost predicate Numbered(h: History) {
    forall i :: 0 <= i < |h| ==> h[i].version == i + 1
  }

  lemma {:induction false} LegalIsNumbered(h: History)
    requires Legal(h)
    ensures Numbered(h)
  {
    if |h| > 1 {
      LegalFront(h);
      LegalIsNumbered(h[..|h| - 1]);
    }
  }

  /** Optimistic concurrency is sound: an update computed from an arbitrarily old read commits only if
      it is the transition of the row that is current now. */
  lemma SubmitKeepsLegal(h: History, r: Request)
    requires Legal(h)
    ensures Legal(Submit(h, r))
  {
    LegalIsNumbered(h);
    var next := Submit(h, r);
    if |next| > |h| {
      if r.Move? {
        assert h[r.readAt].version == Last(h).version;
        assert h[r.readAt] == Last(h);
      }
      ExtendLegal(h, Last(next));
    }
  }

  lemma {:induction false} PlayKeepsLegal(h: History, requests: seq<Request>)
    requires Legal(h)
    ensures Legal(Play(h, requests))
    decreases |requests|
  {
    if requests != [] {
      SubmitKeepsLegal(h, requests[0]);
      PlayKeepsLegal(Submit(h, requests[0]), requests[1..]);
    }
  }

  // ---------------------------------------------------------------- bounds

  /** The latest version a row in this state can carry on its first attempt without approval routing. */
  function Stage(s: State): int {
    match s
    case Detected => 1
    case Triaged => 2
    case Diagnosed => 3
    case Planned => 4
    case PendingApproval => 5
    case Approved => 6
    case Executing => 7
    case Verifying => 8
    case Failed => 8
    case _ => 9
  }

  predicate BeforeDispatch(s: State) {
    Stage(s) < Stage(Executing)
  }

  function EntriesTo(h: History, s: State): nat {
    if |h| <= 1 then 0
    else EntriesTo(h[..|h| - 1], s) + if h[|h| - 1].state == s && h[|h| - 2].state != s then 1 else 0
  }

  ghost predicate WithinBudget(h: History)
    requires h != []
  {
    var row := Last(h);
    && row.retryLimit == h[0].retryLimit && row.key == h[0].key
    && row.attempts <= row.retryLimit
    && row.version <= Stage(row.state) + 6 * row.attempts + (if row.approvalRequired then 1 else 0)
    && EntriesTo(h, Executing) <= row.attempts + (if BeforeDispatch(row.state) then 0 else 1)
  }

  lemma {:induction false} LegalWithinBudget(h: History)
    requires Legal(h)
    ensures WithinBudget(h)
  {
    if |h| > 1 {
      LegalFront(h);
      LegalWithinBudget(h[..|h| - 1]);
    }
  }

  /** Every run of every incident is finite: whatever requests arrive in whatever order, committed versions are
      1, 2, ..., n, retries stay within the limit, the restart phase is entered at most attempts + 1 times,
      and there are at most 6 * retryLimit + 10 versions. */
  lemma RunIsBounded(key: string, retryLimit: nat, approvalRequired: bool, requests: seq<Request>)
    ensures var h := Play([Created(key, retryLimit, approvalRequired)], requests);
            && h != [] && Numbered(h)
            && Last(h).retryLimit == retryLimit && Last(h).key == key
            && Last(h).attempts <= retryLimit
            && EntriesTo(h, Executing) <= Last(h).attempts + 1
            && Last(h).version == |h| <= 6 * retryLimit + 10
  {
    var start := [Created(key, retryLimit, approvalRequired)];
    PlayKeepsLegal(start, requests);
    PlayKeepsFirst(start, requests);
    var h := Play(start, requests);
    LegalIsNumbered(h);
    LegalWithinBudget(h);
  }

  lemma {:induction false} PlayKeepsFirst(h: History, requests: seq<Request>)
    requires h != []
    ensures Play(h, requests) != [] && Play(h, requests)[0] == h[0]
    decreases |requests|
  {
    if requests != [] {
      PlayKeepsFirst(Submit(h, requests[0]), requests[1..]);
    }
  }

  /** The same budget when PLANNED is entered at most once, as one plan per incident allows. */
  ghost predicate WithinOnePlan(h: History)
    requires h != []
  {
    var row := Last(h);
    var routed := if row.approvalRequired then 1 else 0;
    if EntriesTo(h, Planned) == 0 then
      row.attempts == 0 && row.state in {Detected, Triaged, Diagnosed, Escalated}
      && row.version <= (if row.state == Escalated then 4 else Stage(row.state))
    else if row.attempts == 0 then
      row.state !in {Detected, Triaged, Diagnosed} && row.version <= Stage(row.state) + routed
    else
      row.attempts == 1 && row.retryLimit >= 1
      && ((row.state == Diagnosed && row.version <= 9 + routed) || (row.state == Escalated && row.version <= 10 + routed))
  }

  lemma {:induction false} OnePlanBudget(h: History)
    requires Legal(h) && EntriesTo(h, Planned) <= 1
    ensures WithinOnePlan(h)
  {
    if |h| > 1 {
      LegalFront(h);
      OnePlanBudget(h[..|h| - 1]);
    }
  }

  /** A run that enters PLANNED at most once uses at most one retry and has at most 10 versions, 11 if the limit allows the retry. */
  lemma OnePlanIsBounded(h: History)
    requires Legal(h) && EntriesTo(h, Planned) <= 1
    ensures Last(h).attempts <= 1 && |h| <= if h[0].retryLimit == 0 then 10 else 11
  {
    OnePlanBudget(h);
    LegalIsNumbered(h);
    LegalWithinBudget(h);
  }

  /** How EXECUTING can have been entered at position i. */
  ghost predicate RoutedProperly(h: History, i: nat)
    requires 0 < i < |h|
  {
    || (h[i - 1].state == Planned && !h[i - 1].approvalRequired)
    || (i >= 3 && h[i - 1].state == Approved && h[i - 2].state == PendingApproval
        && h[i - 3].state == Planned && h[i - 3].approvalRequired)
  }

  /** When approval was required on leaving PLANNED, EXECUTING is reached only through PENDING_APPROVAL and APPROVED. */
  lemma ApprovalIsNotBypassed(h: History, i: nat)
    requires Legal(h) && i < |h| && h[i].state == Executing
    ensures i > 0 && RoutedProperly(h, i)
  {
    assert i > 0 ==> FollowsAt(h, i);
    if h[i - 1].state == Approved {
      assert FollowsAt(h, i - 1);
      assert FollowsAt(h, i - 2);
    }
  }

  // ---------------------------------------------------------------- the bound is attained

  function Moved(row: Incident, s: State): Incident {
    row.(state := s, version := row.version + 1,
         attempts := if IsRetry(row.state, s) then row.attempts + 1 else row.attempts)
  }

  /** From PLANNED with approval required to VERIFYING. */
  function Round(planned: Incident): History {
    var pending := Moved(planned, PendingApproval);
    var approved := Moved(pending, Approved);
    var executing := Moved(approved, Executing);
    [pending, approved, executing, Moved(executing, Verifying)]
  }

  lemma RoundIsLegal(h: History)
    requires Legal(h) && Last(h).state == Planned && Last(h).approvalRequired
    ensures var g := h + Round(Last(h));
            Legal(g) && Last(g) == Last(h).(state := Verifying, version := Last(h).version + 4)
  {
    var r := Round(Last(h));
    ExtendLegal(h, r[0]);
    ExtendLegal(h + [r[0]], r[1]);
    ExtendLegal(h + [r[0]] + [r[1]], r[2]);
    ExtendLegal(h + [r[0]] + [r[1]] + [r[2]], r[3]);
    assert h + [r[0]] + [r[1]] + [r[2]] + [r[3]] == h + r;
  }

  /** A run that needs approval every time and uses `rounds` retries, ending in VERIFYING. */
  lemma {:induction false} LongRun(retryLimit: nat, rounds: nat) returns (h: History)
    requires rounds <= retryLimit
    ensures Legal(h) && h[0] == Created("", retryLimit, false) && |h| == 9 + 6 * rounds
    ensures Last(h) == Incident("", Verifying, 9 + 6 * rounds, rounds, retryLimit, true)
    decreases rounds
  {
    if rounds == 0 {
      var a := Created("", retryLimit, false);
      var b := Moved(a, Triaged);
      var c := Moved(b, Diagnosed);
      var d := Moved(c, Planned);
      h := [a];
      ExtendLegal(h, b);
      ExtendLegal(h + [b], c);
      ExtendLegal(h + [b] + [c], d);
      h := h + [b] + [c] + [d];
      ExtendLegal(h, RequireApproval(d, d.version).row);
      h := h + [RequireApproval(d, d.version).row];
    } else {
      h := LongRun(retryLimit, rounds - 1);
      var diagnosed := Moved(Last(h), Diagnosed);
      ExtendLegal(h, diagnosed);
      ExtendLegal(h + [diagnosed], Moved(diagnosed, Planned));
      h := h + [diagnosed] + [Moved(diagnosed, Planned)];
    }
    RoundIsLegal(h);
    h := h + Round(Last(h));
  }

  lemma {:induction false} PlayAppend(h: History, requests: seq<Request>, r: Request)
    requires h != []
    ensures Play(h, requests) != [] && Play(h, requests + [r]) == Submit(Play(h, requests), r)
    decreases |requests|
  {
    if requests == [] {
      assert requests + [r] == [r] && [r][1..] == [];
    } else {
      assert (requests + [r])[1..] == requests[1..] + [r];
      PlayAppend(Submit(h, requests[0]), requests[1..], r);
    }
  }

  /** The request that commits the next row of a legal history. */
  function NextRequest(h: History, row: Incident): Request
    requires h != []
  {
    if Transition(Last(h), Last(h).version, row.state) == Committed(row) then Move(|h| - 1, Last(h).version, row.state)
    else RouteToApproval(Last(h).version)
  }

  /** Every legal history is what some sequence of requests commits, so legality describes the reachable histories exactly. */
  lemma {:induction false} LegalIsPlayed(h: History) returns (requests: seq<Request>)
    requires Legal(h)
    ensures Play([h[0]], requests) == h
    decreases |h|
  {
    requests := [];
    if |h| == 1 {
      assert h == [h[0]];
    } else {
      var front, row := h[..|h| - 1], h[|h| - 1];
      LegalFront(h);
      requests := LegalIsPlayed(front);
      var r := NextRequest(front, row);
      PlayAppend([h[0]], requests, r);
      assert Submit(front, r) == front + [row];
      assert h == front + [row];
      requests := requests + [r];
    }
  }

  /** The version bound of the repository is exact: for every retry limit some sequence of requests takes a new incident to version
      6 * retryLimit + 10. For limits above 0 the sequence enters PLANNED more than once, which no workflow node asks for
      (OnePlanIsBounded). */
  lemma BoundIsAttained(retryLimit: nat) returns (requests: seq<Request>)
    ensures var h := Play([Created("", retryLimit, false)], requests);
            h != [] && Last(h).version == |h| == 6 * retryLimit + 10
  {
    var run := LongRun(retryLimit, retryLimit);
    var h := run + [Moved(Last(run), Resolved)];
    ExtendLegal(run, Moved(Last(run), Resolved));
    requests := LegalIsPlayed(h);
    LegalIsNumbered(h);
  }
}
