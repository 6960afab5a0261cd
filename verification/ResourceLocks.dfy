/** Resource locks with expiry and quarantine (`ResourceLockService`).
    Fresh UUIDs are a counter; the clock never runs backwards. */
module ResourceLocks {
  import opened Prelude

  type Resource = nat
  type Actor = string
  type Token = nat

  const QUARANTINE_OWNER: Actor := "system:quarantine"
  const QUARANTINE_SPAN: int := 365 * 86400 * SECOND

  datatype LockRow = LockRow(owner: Actor, token: Token, acquiredAt: Time, expiresAt: Time, quarantined: bool)

  datatype Mode = Disabled | ApprovalRequired | Automatic

  /** The single `global` row of the automation controls; it may not exist yet. */
  datatype Control = Control(mode: Mode, stopped: set<Resource>)

  datatype LockDb = LockDb(now: Time, nextToken: Token, rows: map<Resource, LockRow>, control: Option<Control>)

  datatype LockResult =
    | Acquired(token: Token)
    | Done
    | Renewed(ok: bool)
    | InvalidDuration
    | QuarantinedError
    | LockedError
    | OwnershipError
    | CheckViolation

  datatype LockOp =
    | Tick(delta: nat)
    | SetControl(control: Control)
    | Acquire(actor: Actor, resource: Resource, seconds: int)
    | Upsert(actor: Actor, resource: Resource, seconds: int)
    | Renew(actor: Actor, resource: Resource, token: Token, seconds: int)
    | Release(actor: Actor, resource: Resource, token: Token)
    | Quarantine(resource: Resource)
    | Clear(resource: Resource)

  // ---------------------------------------------------------------- reference semantics

  predicate Safe(db: LockDb, r: Resource) {
    && (db.control.Some? ==> db.control.value.mode != Disabled && r !in db.control.value.stopped)
    && (r in db.rows ==> !db.rows[r].quarantined)
  }

  predicate Free(db: LockDb, actor: Actor, r: Resource) {
    r in db.rows ==>
      && !db.rows[r].quarantined
      && (db.rows[r].expiresAt <= db.now || db.rows[r].owner == actor)
  }

  /** The insert-or-update half of `acquire_lock`: atomic even when the safety check read an older state. */
  function UpsertLock(db: LockDb, actor: Actor, r: Resource, seconds: int): (LockDb, LockResult) {
    if !(1 <= seconds <= 3600) then (db, InvalidDuration)
    else if Free(db, actor, r) then
      (db.(nextToken := db.nextToken + 1,
           rows := db.rows[r := LockRow(actor, db.nextToken, db.now, db.now + seconds * SECOND, false)]),
       Acquired(db.nextToken))
    else (db, if db.rows[r].quarantined then QuarantinedError else LockedError)
  }

  function AcquireLock(db: LockDb, actor: Actor, r: Resource, seconds: int): (LockDb, LockResult) {
    if !(1 <= seconds <= 3600) then (db, InvalidDuration)
    else if !Safe(db, r) then (db, QuarantinedError)
    else UpsertLock(db, actor, r, seconds)
  }

  predicate Verify(db: LockDb, actor: Actor, r: Resource, token: Token) {
    && r in db.rows
    && db.rows[r].token == token
    && db.rows[r].owner == actor
    && db.now < db.rows[r].expiresAt
    && !db.rows[r].quarantined
  }

  function RenewLock(db: LockDb, actor: Actor, r: Resource, token: Token, seconds: int): (LockDb, LockResult) {
    if !Verify(db, actor, r, token) then (db, Renewed(false))
    else
      var expiry := db.now + seconds * SECOND;
      // the table's CHECK (expires_at > acquired_at)
      if expiry <= db.rows[r].acquiredAt then (db, CheckViolation)
      else (db.(rows := db.rows[r := db.rows[r].(expiresAt := expiry)]), Renewed(true))
  }

  function ReleaseLock(db: LockDb, actor: Actor, r: Resource, token: Token): (LockDb, LockResult) {
    if r !in db.rows then (db, Done)
    else if db.rows[r].token != token || db.rows[r].owner != actor then (db, OwnershipError)
    else if db.rows[r].quarantined then
      (db.(nextToken := db.nextToken + 1,
           rows := db.rows[r := db.rows[r].(token := db.nextToken, owner := QUARANTINE_OWNER,
                                            expiresAt := db.now + QUARANTINE_SPAN)]), Done)
    else (db.(rows := db.rows - {r}), Done)
  }

  /** On conflict the row keeps its token and acquisition time. */
  function QuarantineLock(db: LockDb, r: Resource): LockDb {
    if r in db.rows then
      db.(rows := db.rows[r := db.rows[r].(owner := QUARANTINE_OWNER, quarantined := true,
                                           expiresAt := db.now + QUARANTINE_SPAN)])
    else
      db.(nextToken := db.nextToken + 1,
          rows := db.rows[r := LockRow(QUARANTINE_OWNER, db.nextToken, db.now, db.now + QUARANTINE_SPAN, true)])
  }

  function ClearLock(db: LockDb, r: Resource): LockDb {
    if r in db.rows && db.rows[r].quarantined then db.(rows := db.rows - {r}) else db
  }

  function Step(db: LockDb, op: LockOp): (LockDb, LockResult) {
    match op
    case Tick(d) => (db.(now := db.now + d), Done)
    case SetControl(c) => (db.(control := Some(c)), Done)
    case Acquire(a, r, s) => AcquireLock(db, a, r, s)
    case Upsert(a, r, s) => UpsertLock(db, a, r, s)
    case Renew(a, r, t, s) => RenewLock(db, a, r, t, s)
    case Release(a, r, t) => ReleaseLock(db, a, r, t)
    case Quarantine(r) => (QuarantineLock(db, r), Done)
    case Clear(r) => (ClearLock(db, r), Done)
  }

  function Run(db: LockDb, ops: seq<LockOp>): LockDb
    decreases |ops|
  {
    if ops == [] then db else Run(Step(db, ops[0]).0, ops[1..])
  }

  /** The result the i-th operation of a run returns. */
  function ResultAt(db: LockDb, ops: seq<LockOp>, i: nat): LockResult
    requires i < |ops|
  {
    Step(Run(db, ops[..i]), ops[i]).1
  }

  lemma {:induction false} RunAppend(db: LockDb, a: seq<LockOp>, b: seq<LockOp>)
    ensures Run(db, a + b) == Run(Run(db, a), b)
    decreases |a|
  {
    if a == [] {
      assert a + b == b;
    } else {
      assert (a + b)[1..] == a[1..] + b;
      RunAppend(Step(db, a[0]).0, a[1..], b);
    }
  }

  // ---------------------------------------------------------------- fencing

  /** Every token stored in a row has been handed out already. */
  ghost predicate TokensIssued(db: LockDb) {
    forall r :: r in db.rows ==> db.rows[r].token < db.nextToken
  }

  lemma {:induction false} TokensStayIssued(db: LockDb, ops: seq<LockOp>)
    requires TokensIssued(db)
    ensures TokensIssued(Run(db, ops)) && db.nextToken <= Run(db, ops).nextToken
    decreases |ops|
  {
    if ops != [] {
      TokensStayIssued(Step(db, ops[0]).0, ops[1..]);
    }
  }

  lemma DeadTokenStep(db: LockDb, op: LockOp, actor: Actor, r: Resource, token: Token)
    requires TokensIssued(db) && token < db.nextToken && !Verify(db, actor, r, token)
    ensures !Verify(Step(db, op).0, actor, r, token)
  {
  }

  lemma {:induction false} DeadTokenStaysDead(db: LockDb, ops: seq<LockOp>, actor: Actor, r: Resource, token: Token)
    requires TokensIssued(db) && token < db.nextToken && !Verify(db, actor, r, token)
    ensures !Verify(Run(db, ops), actor, r, token)
    decreases |ops|
  {
    if ops != [] {
      var next := Step(db, ops[0]).0;
      DeadTokenStep(db, ops[0], actor, r, token);
      TokensStayIssued(db, [ops[0]]);
      assert Run(db, [ops[0]]) == next by { assert [ops[0]][1..] == []; }
      DeadTokenStaysDead(next, ops[1..], actor, r, token);
    }
  }

  /** A token that verified once and later did not never verifies again, in any continuation of the run. */
  lemma TokenNeverReturns(db: LockDb, before: seq<LockOp>, between: seq<LockOp>, after: seq<LockOp>,
                          actor: Actor, r: Resource, token: Token)
    requires TokensIssued(db)
    requires Verify(Run(db, before), actor, r, token)
    requires !Verify(Run(db, before + between), actor, r, token)
    ensures !Verify(Run(db, before + between + after), actor, r, token)
  {
    var held := Run(db, before);
    TokensStayIssued(db, before);
    RunAppend(db, before, between);
    TokensStayIssued(held, between);
    RunAppend(db, before + between, after);
    DeadTokenStaysDead(Run(held, between), after, actor, r, token);
  }

  /** While a token verifies it is the only one that does, and nobody else can take the lock. */
  lemma Exclusive(db: LockDb, actor: Actor, r: Resource, token: Token)
    requires Verify(db, actor, r, token)
    ensures forall a, t :: Verify(db, a, r, t) ==> a == actor && t == token
    ensures forall a, s :: a != actor ==> !AcquireLock(db, a, r, s).1.Acquired? && !UpsertLock(db, a, r, s).1.Acquired?
  {
  }

  ghost predicate TakesLock(db: LockDb, ops: seq<LockOp>, i: nat, r: Resource)
    requires i < |ops|
  {
    (ops[i].Acquire? || ops[i].Upsert?) && ops[i].resource == r && ResultAt(db, ops, i).Acquired?
  }

  /** A token that verifies at both ends of a run verified all the way through,
      and no acquisition of the resource, by anybody, succeeded in between. */
  lemma HeldThroughout(db: LockDb, ops: seq<LockOp>, actor: Actor, r: Resource, token: Token, i: nat)
    requires TokensIssued(db) && i < |ops|
    requires Verify(db, actor, r, token) && Verify(Run(db, ops), actor, r, token)
    ensures Verify(Run(db, ops[..i]), actor, r, token) && !TakesLock(db, ops, i, r)
  {
    var here := Run(db, ops[..i]);
    TokensStayIssued(db, ops[..i]);
    assert ops == ops[..i] + ops[i..];
    RunAppend(db, ops[..i], ops[i..]);
    if !Verify(here, actor, r, token) {
      DeadTokenStaysDead(here, ops[i..], actor, r, token);
    }
    if TakesLock(db, ops, i, r) {
      var next := Step(here, ops[i]).0;
      assert !Verify(next, actor, r, token);
      assert ops[i..][1..] == ops[i + 1..];
      TokensStayIssued(here, [ops[i]]);
      assert Run(here, [ops[i]]) == next by { assert [ops[i]][1..] == []; }
      DeadTokenStaysDead(next, ops[i + 1..], actor, r, token);
    }
  }

  /** The row granted with the token is still in place, expired or not. */
  predicate Unrevoked(db: LockDb, actor: Actor, r: Resource, token: Token) {
    r in db.rows && db.rows[r].token == token && db.rows[r].owner == actor && !db.rows[r].quarantined
  }

  /** A revoked grant never comes back. */
  lemma RevokedStep(db: LockDb, op: LockOp, actor: Actor, r: Resource, token: Token)
    requires TokensIssued(db) && token < db.nextToken && !Unrevoked(db, actor, r, token)
    ensures !Unrevoked(Step(db, op).0, actor, r, token)
  {
  }

  // ---------------------------------------------------------------- quarantine

  predicate IsQuarantined(db: LockDb, r: Resource) {
    r in db.rows && db.rows[r].quarantined
  }

  lemma QuarantineStep(db: LockDb, op: LockOp, r: Resource)
    requires IsQuarantined(db, r) && op != Clear(r)
    ensures IsQuarantined(Step(db, op).0, r)
    ensures forall a, t :: !Verify(db, a, r, t)
    ensures (op.Acquire? || op.Upsert?) && op.resource == r ==> !Step(db, op).1.Acquired?
    ensures op.Renew? && op.resource == r ==> Step(db, op).1 == Renewed(false)
  {
  }

  /** Quarantine is sticky: whatever anybody does and however much time passes, short of `clear_quarantine`
      the resource stays quarantined, no token verifies, and no acquire or renew succeeds. */
  lemma {:induction false} QuarantineSticky(db: LockDb, ops: seq<LockOp>, r: Resource)
    requires IsQuarantined(db, r)
    requires Clear(r) !in ops
    ensures IsQuarantined(Run(db, ops), r)
    ensures forall a, t :: !Verify(Run(db, ops), a, r, t)
    ensures forall i :: 0 <= i < |ops| ==> !TakesLock(db, ops, i, r)
    ensures forall i :: 0 <= i < |ops| && ops[i].Renew? && ops[i].resource == r ==> ResultAt(db, ops, i) == Renewed(false)
    decreases |ops|
  {
    if ops != [] {
      var next := Step(db, ops[0]).0;
      assert ops[0] in ops;
      QuarantineStep(db, ops[0], r);
      QuarantineSticky(next, ops[1..], r);
      assert Run(db, ops) == Run(next, ops[1..]);
      forall i | 0 <= i < |ops|
        ensures ResultAt(db, ops, i) == if i == 0 then Step(db, ops[0]).1 else ResultAt(next, ops[1..], i - 1)
      {
        if i > 0 {
          assert ops[..i][1..] == ops[1..][..i - 1];
        }
      }
      forall i | 0 <= i < |ops| ensures !TakesLock(db, ops, i, r) {
        assert i > 0 ==> !TakesLock(next, ops[1..], i - 1, r);
      }
    }
  }

  // ---------------------------------------------------------------- when a lock is granted, and for how long

  /** On the rows alone: a lock is granted exactly for a duration of 1 to 3600 seconds, with automation not disabled, the
      resource not on the emergency stop list and not quarantined, and no unexpired lock of another actor. A grant writes one
      row, a refusal nothing. */
  lemma AcquireIff(db: LockDb, actor: Actor, r: Resource, seconds: int)
    ensures var (after, result) := AcquireLock(db, actor, r, seconds);
            && (result.Acquired? <==>
                  && 1 <= seconds <= 3600
                  && (db.control.None? || (!db.control.value.mode.Disabled? && r !in db.control.value.stopped))
                  && (r !in db.rows || (!db.rows[r].quarantined && (db.rows[r].owner == actor || db.rows[r].expiresAt <= db.now))))
            && (result.Acquired? ==>
                  && result.token == db.nextToken
                  && after == LockDb(db.now, db.nextToken + 1,
                                     db.rows[r := LockRow(actor, db.nextToken, db.now, db.now + seconds * SECOND, false)], db.control))
            && (!result.Acquired? ==> after == db)
            && (result.LockedError? ==> r in db.rows && !db.rows[r].quarantined && db.rows[r].owner != actor && db.now < db.rows[r].expiresAt)
  {
  }

  /** The operation leaves the lock row of the resource alone. */
  predicate Bypasses(op: LockOp, r: Resource) {
    op.Tick? || op.SetControl? || op.resource != r
  }

  predicate AllBypass(ops: seq<LockOp>, r: Resource) {
    forall i :: 0 <= i < |ops| ==> Bypasses(ops[i], r)
  }

  function Elapsed(ops: seq<LockOp>): nat
    decreases |ops|
  {
    if ops == [] then 0 else (if ops[0].Tick? then ops[0].delta else 0) + Elapsed(ops[1..])
  }

  lemma {:induction false} BypassedRow(db: LockDb, ops: seq<LockOp>, r: Resource)
    requires AllBypass(ops, r)
    ensures var after := Run(db, ops);
            && after.now == db.now + Elapsed(ops)
            && (r in after.rows <==> r in db.rows) && (r in db.rows ==> after.rows[r] == db.rows[r])
    decreases |ops|
  {
    if ops != [] {
      assert Bypasses(ops[0], r);
      assert AllBypass(ops[1..], r) by {
        forall i | 0 <= i < |ops[1..]| ensures Bypasses(ops[1..][i], r) {
          assert Bypasses(ops[i + 1], r);
        }
      }
      BypassedRow(Step(db, ops[0]).0, ops[1..], r);
    }
  }

  /** A granted lock verifies for its holder exactly as long as it was granted for, whatever happens to other resources. */
  lemma GrantHoldsFor(db: LockDb, actor: Actor, r: Resource, seconds: int, ops: seq<LockOp>)
    requires AcquireLock(db, actor, r, seconds).1.Acquired? && AllBypass(ops, r)
    ensures var (held, result) := AcquireLock(db, actor, r, seconds);
            Verify(Run(held, ops), actor, r, result.token) <==> Elapsed(ops) < seconds * SECOND
  {
    BypassedRow(AcquireLock(db, actor, r, seconds).0, ops, r);
  }

  /** A renewal is granted exactly to a verifying token, for a time that ends after the acquisition, and then counts from now. */
  lemma RenewalHoldsFor(db: LockDb, actor: Actor, r: Resource, token: Token, seconds: int, ops: seq<LockOp>)
    requires AllBypass(ops, r)
    ensures var (after, result) := RenewLock(db, actor, r, token, seconds);
            && (result == Renewed(true) <==> Verify(db, actor, r, token) && db.now + seconds * SECOND > db.rows[r].acquiredAt)
            && (result == Renewed(true) ==> (Verify(Run(after, ops), actor, r, token) <==> Elapsed(ops) < seconds * SECOND))
            && (result != Renewed(true) ==> after == db)
  {
    BypassedRow(RenewLock(db, actor, r, token, seconds).0, ops, r);
  }

  predicate ControlsAllow(control: Option<Control>, r: Resource) {
    control.None? || (!control.value.mode.Disabled? && r !in control.value.stopped)
  }

  /** Only the holder can release, expired or not; an unquarantined resource is then free for everyone the controls allow. */
  lemma ReleasedIsFree(db: LockDb, actor: Actor, r: Resource, token: Token, ops: seq<LockOp>, next: Actor, seconds: int)
    requires AllBypass(ops, r) && 1 <= seconds <= 3600 && r in db.rows && !db.rows[r].quarantined
    ensures var (after, result) := ReleaseLock(db, actor, r, token);
            && (result.Done? <==> db.rows[r].token == token && db.rows[r].owner == actor)
            && (!result.Done? ==> result.OwnershipError? && after == db)
            && (result.Done? ==> (AcquireLock(Run(after, ops), next, r, seconds).1.Acquired? <==> ControlsAllow(Run(after, ops).control, r)))
  {
    BypassedRow(ReleaseLock(db, actor, r, token).0, ops, r);
  }

  /** A cleared resource can be locked again by everyone the controls allow; clearing a resource that is not quarantined does nothing. */
  lemma ClearedIsFree(db: LockDb, r: Resource, ops: seq<LockOp>, next: Actor, seconds: int)
    requires AllBypass(ops, r) && 1 <= seconds <= 3600
    ensures IsQuarantined(db, r) ==>
              (AcquireLock(Run(ClearLock(db, r), ops), next, r, seconds).1.Acquired? <==> ControlsAllow(Run(ClearLock(db, r), ops).control, r))
    ensures !IsQuarantined(db, r) ==> ClearLock(db, r) == db
  {
    BypassedRow(ClearLock(db, r), ops, r);
  }

  /** Automation is disabled, or the resource is on the emergency stop list. */
  predicate Halted(db: LockDb, r: Resource) {
    db.control.Some? && (db.control.value.mode.Disabled? || r in db.control.value.stopped)
  }

  /** While the controls are left alone, a halted resource stays halted, whatever else anybody does, and cannot be acquired. */
  lemma {:induction false} HaltedStays(db: LockDb, ops: seq<LockOp>, r: Resource, actor: Actor, seconds: int)
    requires Halted(db, r) && forall i :: 0 <= i < |ops| ==> !ops[i].SetControl?
    ensures Halted(Run(db, ops), r) && !AcquireLock(Run(db, ops), actor, r, seconds).1.Acquired?
    decreases |ops|
  {
    if ops != [] {
      HaltedStays(Step(db, ops[0]).0, ops[1..], r, actor, seconds);
    }
  }

  // ---------------------------------------------------------------- the service

  /** `ResourceLockService` acting for one actor on the shared lock table. */
  class LockService {
    const actor: Actor
    var now: Time
    var nextToken: Token
    var rows: map<Resource, LockRow>
    var control: Option<Control>

    function View(): LockDb
      reads this
    {
      LockDb(now, nextToken, rows, control)
    }

    constructor (actor: Actor, db: LockDb)
      ensures this.actor == actor && View() == db
    {
      this.actor := actor;
      now, nextToken, rows, control := db.now, db.nextToken, db.rows, db.control;
    }

    method CheckSafety(r: Resource) returns (ok: bool)
      ensures ok == Safe(View(), r)
      ensures ok <==> ControlsAllow(control, r) && !IsQuarantined(View(), r)
    {
      if control.Some? {
        if control.value.mode == Disabled { return false; }
        if r in control.value.stopped { return false; }
      }
      ok := !(r in rows && rows[r].quarantined);
    }

    method TryAcquire(r: Resource, seconds: int) returns (result: LockResult)
      modifies this
      ensures (View(), result) == AcquireLock(old(View()), actor, r, seconds)
    {
      if !(1 <= seconds <= 3600) { return InvalidDuration; }
      var ok := CheckSafety(r);
      if !ok { return QuarantinedError; }
      var token := nextToken;
      var row := LockRow(actor, token, now, now + seconds * SECOND, false);
      if r !in rows || (!rows[r].quarantined && (rows[r].expiresAt <= now || rows[r].owner == actor)) {
        nextToken := nextToken + 1;
        rows := rows[r := row];
        result := Acquired(token);
      } else if rows[r].quarantined {
        result := QuarantinedError;
      } else {
        result := LockedError;
      }
    }

    method VerifyLock(r: Resource, token: Token) returns (held: bool)
      ensures held == Verify(View(), actor, r, token)
    {
      if r !in rows || rows[r].token != token { return false; }
      if rows[r].owner != actor { return false; }
      if rows[r].expiresAt <= now { return false; }
      held := !rows[r].quarantined;
    }

    method TryRenew(r: Resource, token: Token, seconds: int) returns (result: LockResult)
      modifies this
      ensures (View(), result) == RenewLock(old(View()), actor, r, token, seconds)
    {
      var held := VerifyLock(r, token);
      if !held { return Renewed(false); }
      var expiry := now + seconds * SECOND;
      if expiry <= rows[r].acquiredAt { return CheckViolation; }
      rows := rows[r := rows[r].(expiresAt := expiry)];
      result := Renewed(true);
    }

    method TryRelease(r: Resource, token: Token) returns (result: LockResult)
      modifies this
      ensures (View(), result) == ReleaseLock(old(View()), actor, r, token)
    {
      if r !in rows { return Done; }
      var lock := rows[r];
      if lock.token != token || lock.owner != actor { return OwnershipError; }
      if lock.quarantined {
        lock := lock.(token := nextToken, owner := QUARANTINE_OWNER, expiresAt := now + QUARANTINE_SPAN);
        nextToken := nextToken + 1;
        rows := rows[r := lock];
      } else {
        rows := rows - {r};
      }
      result := Done;
    }

    method QuarantineResource(r: Resource)
      modifies this
      ensures View() == QuarantineLock(old(View()), r)
    {
      if r in rows {
        rows := rows[r := rows[r].(owner := QUARANTINE_OWNER, quarantined := true, expiresAt := now + QUARANTINE_SPAN)];
      } else {
        rows := rows[r := LockRow(QUARANTINE_OWNER, nextToken, now, now + QUARANTINE_SPAN, true)];
        nextToken := nextToken + 1;
      }
    }

    method ClearQuarantine(r: Resource)
      modifies this
      ensures View() == ClearLock(old(View()), r)
    {
      if r in rows && rows[r].quarantined {
        rows := rows - {r};
      }
    }
  }
}
