/** Incident-processing leases and the sweeper that deletes expired ones. */
module WorkflowLeases {
  import opened Prelude

  type Incident = nat
  type Owner = string
  type Token = nat

  datatype LeaseRow = LeaseRow(owner: Owner, token: Token, acquiredAt: Time, expiresAt: Time, version: nat)

  /** `versions` is the version column of the incidents table. */
  datatype LeaseDb = LeaseDb(now: Time, nextToken: Token, rows: map<Incident, LeaseRow>, versions: map<Incident, nat>)

  datatype LeaseOp =
    | Tick(delta: nat)
    | CommitIncident(incident: Incident)
    | Acquire(incident: Incident, owner: Owner, ttl: int, expected: Option<nat>)
    | Verify(incident: Incident, token: Token, expected: Option<nat>)
    | Renew(incident: Incident, token: Token, ttl: int)
    | Release(incident: Incident, token: Token)
    | Sweep

  datatype LeaseResult =
    | Acquired(token: Token)
    | Answer(ok: bool)
    | Done
    | IncidentNotFound
    | VersionMismatch
    | LeasedElsewhere
    | CheckViolation

  // ---------------------------------------------------------------- reference semantics

  predicate Free(db: LeaseDb, i: Incident, owner: Owner) {
    i in db.rows ==> db.rows[i].expiresAt <= db.now || db.rows[i].owner == owner
  }

  function AcquireLease(db: LeaseDb, i: Incident, owner: Owner, ttl: int, expected: Option<nat>): (LeaseDb, LeaseResult) {
    if i !in db.versions then (db, IncidentNotFound)
    else if expected.Some? && db.versions[i] != expected.value then (db, VersionMismatch)
    else if ttl <= 0 then (db, CheckViolation)  // CHECK (expires_at > acquired_at)
    else if Free(db, i, owner) then
      (db.(nextToken := db.nextToken + 1,
           rows := db.rows[i := LeaseRow(owner, db.nextToken, db.now, db.now + ttl * SECOND, db.versions[i])]),
       Acquired(db.nextToken))
    else (db, LeasedElsewhere)
  }

  /** The token is current and unexpired; the optional version test of `verify_incident_lease` is separate. */
  predicate Holds(db: LeaseDb, i: Incident, token: Token) {
    i in db.rows && db.rows[i].token == token && db.now < db.rows[i].expiresAt
  }

  predicate VerifyLease(db: LeaseDb, i: Incident, token: Token, expected: Option<nat>) {
    && Holds(db, i, token)
    && (expected.Some? ==> i in db.versions && db.versions[i] == expected.value)
  }

  function RenewLease(db: LeaseDb, i: Incident, token: Token, ttl: int): (LeaseDb, LeaseResult) {
    if !Holds(db, i, token) then (db, Answer(false))
    else
      var expiry := db.now + ttl * SECOND;
      if expiry <= db.rows[i].acquiredAt then (db, CheckViolation)
      else (db.(rows := db.rows[i := db.rows[i].(expiresAt := expiry)]), Answer(true))
  }

  function ReleaseLease(db: LeaseDb, i: Incident, token: Token): LeaseDb {
    if i in db.rows && db.rows[i].token == token then db.(rows := db.rows - {i}) else db
  }

  function SweepLeases(db: LeaseDb): LeaseDb {
    db.(rows := map i | i in db.rows && db.now < db.rows[i].expiresAt :: db.rows[i])
  }

  function Step(db: LeaseDb, op: LeaseOp): (LeaseDb, LeaseResult) {
    match op
    case Tick(d) => (db.(now := db.now + d), Done)
    case CommitIncident(i) =>
      (db.(versions := db.versions[i := if i in db.versions then db.versions[i] + 1 else 1]), Done)
    case Acquire(i, o, ttl, e) => AcquireLease(db, i, o, ttl, e)
    case Verify(i, t, e) => (db, Answer(VerifyLease(db, i, t, e)))
    case Renew(i, t, ttl) => RenewLease(db, i, t, ttl)
    case Release(i, t) => (ReleaseLease(db, i, t), Done)
    case Sweep => (SweepLeases(db), Done)
  }

  function Run(db: LeaseDb, ops: seq<LeaseOp>): LeaseDb
    decreases |ops|
  {
    if ops == [] then db else Run(Step(db, ops[0]).0, ops[1..])
  }

  lemma {:induction false} RunAppend(db: LeaseDb, a: seq<LeaseOp>, b: seq<LeaseOp>)
    ensures Run(db, a + b) == Run(Run(db, a), b)
    decreases |a|
  {
    if a == [] {
      assert a + b == b;
    } else {
      assert (a + b)[1..] == a[1..] + b;
      RunAppend(Step(db, a[0]).0, a[1..], b);
    }
  }

  // ---------------------------------------------------------------- the sweeper is invisible

  /** What the users of leases observe: the results of every operation that is not a sweep. */
  function Observed(db: LeaseDb, ops: seq<LeaseOp>): seq<LeaseResult>
    decreases |ops|
  {
    if ops == [] then []
    else (if ops[0].Sweep? then [] else [Step(db, ops[0]).1]) + Observed(Step(db, ops[0]).0, ops[1..])
  }

  function WithoutSweeps(ops: seq<LeaseOp>): seq<LeaseOp>
    decreases |ops|
  {
    if ops == [] then []
    else (if ops[0].Sweep? then [] else [ops[0]]) + WithoutSweeps(ops[1..])
  }

  function LiveAt(db: LeaseDb, i: Incident): Option<LeaseRow> {
    if i in db.rows && db.now < db.rows[i].expiresAt then Some(db.rows[i]) else None
  }

  /** Equal except for rows that have expired. */
  ghost predicate Similar(a: LeaseDb, b: LeaseDb) {
    && a.now == b.now && a.nextToken == b.nextToken && a.versions == b.versions
    && forall i :: LiveAt(a, i) == LiveAt(b, i)
  }

  lemma SweepSimilar(a: LeaseDb, b: LeaseDb)
    requires Similar(a, b)
    ensures Similar(SweepLeases(a), b)
  {
    forall i ensures LiveAt(SweepLeases(a), i) == LiveAt(b, i) {
      assert LiveAt(a, i) == LiveAt(b, i);
    }
  }

  /** The bisimulation step: similar states answer alike and stay similar. */
  lemma StepSimilar(a: LeaseDb, b: LeaseDb, op: LeaseOp)
    requires Similar(a, b) && !op.Sweep?
    ensures Step(a, op).1 == Step(b, op).1
    ensures Similar(Step(a, op).0, Step(b, op).0)
  {
    if !op.Tick? {
      assert LiveAt(a, op.incident) == LiveAt(b, op.incident);
    }
    forall i ensures LiveAt(Step(a, op).0, i) == LiveAt(Step(b, op).0, i) {
      assert LiveAt(a, i) == LiveAt(b, i);
    }
  }

  lemma {:induction false} SimilarObserve(a: LeaseDb, b: LeaseDb, ops: seq<LeaseOp>)
    requires Similar(a, b)
    ensures Observed(a, ops) == Observed(b, WithoutSweeps(ops))
    ensures Similar(Run(a, ops), Run(b, WithoutSweeps(ops)))
    decreases |ops|
  {
    if ops != [] {
      var rest := WithoutSweeps(ops[1..]);
      if ops[0].Sweep? {
        SweepSimilar(a, b);
        SimilarObserve(Step(a, ops[0]).0, b, ops[1..]);
        assert WithoutSweeps(ops) == rest;
      } else {
        StepSimilar(a, b, ops[0]);
        SimilarObserve(Step(a, ops[0]).0, Step(b, ops[0]).0, ops[1..]);
        var all := WithoutSweeps(ops);
        assert all[0] == ops[0] && all[1..] == rest;
      }
    }
  }

  /** Runs that differ only in where the sweeper ran give every lease user the same answers. */
  lemma SweeperInvisible(db: LeaseDb, a: seq<LeaseOp>, b: seq<LeaseOp>)
    requires WithoutSweeps(a) == WithoutSweeps(b)
    ensures Observed(db, a) == Observed(db, b)
  {
    SimilarObserve(db, db, a);
    SimilarObserve(db, db, b);
  }

  /** A sweep deletes exactly the rows whose time has come and touches nothing else. */
  lemma SweepIff(db: LeaseDb, i: Incident)
    ensures var after := SweepLeases(db);
            && (i in after.rows <==> i in db.rows && db.rows[i].expiresAt > db.now)
            && (i in after.rows ==> after.rows[i] == db.rows[i])
            && after.now == db.now && after.nextToken == db.nextToken && after.versions == db.versions
  {
  }

  // ---------------------------------------------------------------- fencing

  ghost predicate TokensIssued(db: LeaseDb) {
    forall i :: i in db.rows ==> db.rows[i].token < db.nextToken
  }

  lemma {:induction false} TokensStayIssued(db: LeaseDb, ops: seq<LeaseOp>)
    requires TokensIssued(db)
    ensures TokensIssued(Run(db, ops)) && db.nextToken <= Run(db, ops).nextToken
    decreases |ops|
  {
    if ops != [] {
      TokensStayIssued(Step(db, ops[0]).0, ops[1..]);
    }
  }

  lemma {:induction false} DeadLeaseStaysDead(db: LeaseDb, ops: seq<LeaseOp>, i: Incident, token: Token)
    requires TokensIssued(db) && token < db.nextToken && !Holds(db, i, token)
    ensures !Holds(Run(db, ops), i, token)
    decreases |ops|
  {
    if ops != [] {
      DeadLeaseStaysDead(Step(db, ops[0]).0, ops[1..], i, token);
    }
  }

  /** Fencing of leases over a whole run: a lost token never comes back; a token good at both ends of a run was good
      throughout; while it is good it is the only good one and no other owner can acquire. */
  lemma LeaseFencing(db: LeaseDb, before: seq<LeaseOp>, after: seq<LeaseOp>, i: Incident, token: Token)
    requires TokensIssued(db) && Holds(db, i, token)
    ensures !Holds(Run(db, before), i, token) ==> !Holds(Run(db, before + after), i, token)
    ensures forall t :: Holds(db, i, t) ==> t == token
    ensures forall o, ttl, e :: o != db.rows[i].owner ==> !AcquireLease(db, i, o, ttl, e).1.Acquired?
  {
    TokensStayIssued(db, before);
    RunAppend(db, before, after);
    if !Holds(Run(db, before), i, token) {
      DeadLeaseStaysDead(Run(db, before), after, i, token);
    }
  }

  // ---------------------------------------------------------------- when a lease is granted, and for how long

  /** On the rows alone: a lease is granted exactly for a known incident, at the expected version if one is given, for a
      positive time, and with no unexpired lease of another owner. A grant writes one row, a refusal nothing. */
  lemma LeaseIff(db: LeaseDb, i: Incident, owner: Owner, ttl: int, expected: Option<nat>)
    ensures var (after, result) := AcquireLease(db, i, owner, ttl, expected);
            && (result.Acquired? <==>
                  && i in db.versions && (expected.None? || expected.value == db.versions[i]) && ttl > 0
                  && (i !in db.rows || db.rows[i].owner == owner || db.rows[i].expiresAt <= db.now))
            && (result.Acquired? ==>
                  && result.token == db.nextToken
                  && after == LeaseDb(db.now, db.nextToken + 1,
                                      db.rows[i := LeaseRow(owner, db.nextToken, db.now, db.now + ttl * SECOND, db.versions[i])], db.versions))
            && (!result.Acquired? ==> after == db)
  {
  }

  /** The operation does not write the lease row of the incident; a sweep may still delete it once it has expired. */
  predicate Bypasses(op: LeaseOp, i: Incident) {
    op.Tick? || op.CommitIncident? || op.Verify? || op.Sweep? || op.incident != i
  }

  function Elapsed(ops: seq<LeaseOp>): nat
    decreases |ops|
  {
    if ops == [] then 0 else (if ops[0].Tick? then ops[0].delta else 0) + Elapsed(ops[1..])
  }

  lemma {:induction false} BypassedLease(db: LeaseDb, ops: seq<LeaseOp>, i: Incident)
    requires forall n :: 0 <= n < |ops| ==> Bypasses(ops[n], i)
    ensures var after := Run(db, ops);
            && after.now == db.now + Elapsed(ops)
            && (i !in db.rows ==> i !in after.rows)
            && (i in db.rows && after.now < db.rows[i].expiresAt ==> i in after.rows)
            && (i in after.rows ==> i in db.rows && after.rows[i] == db.rows[i])
    decreases |ops|
  {
    if ops != [] {
      assert Bypasses(ops[0], i);
      forall n | 0 <= n < |ops[1..]| ensures Bypasses(ops[1..][n], i) {
        assert Bypasses(ops[n + 1], i);
      }
      BypassedLease(Step(db, ops[0]).0, ops[1..], i);
    }
  }

  /** A granted lease verifies exactly as long as it was granted for, and at the expected version when one is asked for. */
  lemma LeaseHoldsFor(db: LeaseDb, i: Incident, owner: Owner, ttl: int, expected: Option<nat>, ops: seq<LeaseOp>, asked: Option<nat>)
    requires AcquireLease(db, i, owner, ttl, expected).1.Acquired? && forall n :: 0 <= n < |ops| ==> Bypasses(ops[n], i)
    ensures var (held, result) := AcquireLease(db, i, owner, ttl, expected); var after := Run(held, ops);
            VerifyLease(after, i, result.token, asked) <==>
            Elapsed(ops) < ttl * SECOND && (asked.None? || (i in after.versions && after.versions[i] == asked.value))
  {
    BypassedLease(AcquireLease(db, i, owner, ttl, expected).0, ops, i);
  }

  /** A renewal is granted exactly to a held token, for a time that ends after the acquisition, and then counts from now. */
  lemma LeaseRenewalHoldsFor(db: LeaseDb, i: Incident, token: Token, ttl: int, ops: seq<LeaseOp>)
    requires forall n :: 0 <= n < |ops| ==> Bypasses(ops[n], i)
    ensures var (after, result) := RenewLease(db, i, token, ttl);
            && (result == Answer(true) <==> Holds(db, i, token) && db.now + ttl * SECOND > db.rows[i].acquiredAt)
            && (result == Answer(true) ==> (Holds(Run(after, ops), i, token) <==> Elapsed(ops) < ttl * SECOND))
            && (result != Answer(true) ==> after == db)
  {
    BypassedLease(RenewLease(db, i, token, ttl).0, ops, i);
  }

  /** Releasing with the row's own token frees the lease for every owner; with any other token it does nothing. */
  lemma ReleasedLeaseIsFree(db: LeaseDb, i: Incident, token: Token, ops: seq<LeaseOp>, next: Owner, ttl: int)
    requires (forall n :: 0 <= n < |ops| ==> Bypasses(ops[n], i)) && ttl > 0 && i in db.rows
    ensures db.rows[i].token == token ==>
              var after := Run(ReleaseLease(db, i, token), ops);
              i in after.versions ==> AcquireLease(after, i, next, ttl, None).1.Acquired?
    ensures db.rows[i].token != token ==> ReleaseLease(db, i, token) == db
  {
    BypassedLease(ReleaseLease(db, i, token), ops, i);
  }

  // ---------------------------------------------------------------- the repository methods

  /** The lease methods of the control-plane repository, over the shared tables. */
  class LeaseTable {
    var now: Time
    var nextToken: Token
    var rows: map<Incident, LeaseRow>
    var versions: map<Incident, nat>

    ghost function View(): LeaseDb
      reads this
    {
      LeaseDb(now, nextToken, rows, versions)
    }

    constructor (db: LeaseDb)
      ensures View() == db
    {
      now, nextToken, rows, versions := db.now, db.nextToken, db.rows, db.versions;
    }

    method TryAcquire(i: Incident, owner: Owner, ttl: int, expected: Option<nat>) returns (result: LeaseResult)
      modifies this
      ensures (View(), result) == AcquireLease(old(View()), i, owner, ttl, expected)
    {
      if i !in versions { return IncidentNotFound; }
      if expected.Some? && versions[i] != expected.value { return VersionMismatch; }
      if ttl <= 0 { return CheckViolation; }
      if i in rows && rows[i].expiresAt > now && rows[i].owner != owner { return LeasedElsewhere; }
      rows := rows[i := LeaseRow(owner, nextToken, now, now + ttl * SECOND, versions[i])];
      result := Acquired(nextToken);
      nextToken := nextToken + 1;
    }

    method CheckLease(i: Incident, token: Token, expected: Option<nat>) returns (ok: bool)
      ensures ok == VerifyLease(View(), i, token, expected)
    {
      if i !in rows || rows[i].token != token { return false; }
      if rows[i].expiresAt <= now { return false; }
      if expected.Some? {
        if i !in versions || versions[i] != expected.value { return false; }
      }
      ok := true;
    }

    method TryRenew(i: Incident, token: Token, ttl: int) returns (result: LeaseResult)
      modifies this
      ensures (View(), result) == RenewLease(old(View()), i, token, ttl)
    {
      if i !in rows || rows[i].token != token || rows[i].expiresAt <= now { return Answer(false); }
      if now + ttl * SECOND <= rows[i].acquiredAt { return CheckViolation; }
      rows := rows[i := rows[i].(expiresAt := now + ttl * SECOND)];
      result := Answer(true);
    }

    method Drop(i: Incident, token: Token)
      modifies this
      ensures View() == ReleaseLease(old(View()), i, token)
    {
      if i in rows && rows[i].token == token {
        rows := rows - {i};
      }
    }

    /** `cleanup_expired_leases`: deletes exactly the expired rows and reports how many. */
    method CleanupExpired() returns (count: nat)
      modifies this
      ensures View() == SweepLeases(old(View()))
      ensures count == |old(rows)| - |rows|
    {
      var kept := map i | i in rows && now < rows[i].expiresAt :: rows[i];
      assert |rows.Keys| == |kept.Keys| + |rows.Keys - kept.Keys|;
      count := |rows| - |kept|;
      rows := kept;
    }
  }
}
