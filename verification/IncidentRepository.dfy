/** The repository object whose methods update the incident table and the outbox. */
module IncidentRepository {
  import opened Prelude
  import I = IncidentLifecycle
  import S = IncidentStore

  datatype TransitionResult = Updated(row: I.Incident) | NotFound | Rejected(reason: I.Refusal)

  /** The store after a run from the empty database. */
  ghost function After(run: seq<S.Action>): S.Store {
    S.Play(S.EMPTY, run)
  }

  lemma {:induction false} PlayAppend(s: S.Store, run: seq<S.Action>, a: S.Action)
    ensures S.Play(s, run + [a]) == S.Apply(S.Play(s, run), a)
    decreases |run|
  {
    if run == [] {
      assert run + [a] == [a];
      assert S.Play(S.Apply(s, a), []) == S.Apply(s, a);
    } else {
      assert (run + [a])[1..] == run[1..] + [a];
      PlayAppend(S.Apply(s, run[0]), run[1..], a);
    }
  }

  /** A transition the checks accept is written: it never trips the unique-active index. */
  lemma MoveIsWritten(run: seq<S.Action>, id: S.Id, expected: int, target: I.State, row: I.Incident)
    requires id in After(run).history && After(run).history[id] != []
    requires I.Transition(I.Last(After(run).history[id]), expected, target) == I.Committed(row)
    ensures var s := After(run);
            After(run + [S.Move(id, expected, target)])
            == s.(history := s.history[id := s.history[id] + [row]],
                  outbox := s.outbox + if target == I.Approved then [S.ApprovedEvent(id, expected + 1)] else [])
  {
    PlayAppend(S.EMPTY, run, S.Move(id, expected, target));
    S.CorrelationIsUnique(run);
    S.MoveNeverTrips(After(run), id, row);
  }

  lemma RouteIsWritten(run: seq<S.Action>, id: S.Id, expected: int, row: I.Incident)
    requires id in After(run).history && After(run).history[id] != []
    requires I.RequireApproval(I.Last(After(run).history[id]), expected) == I.Committed(row)
    ensures var s := After(run);
            After(run + [S.Route(id, expected)]) == s.(history := s.history[id := s.history[id] + [row]])
  {
    PlayAppend(S.EMPTY, run, S.Route(id, expected));
    S.CorrelationIsUnique(run);
    S.MoveNeverTrips(After(run), id, row);
  }

  /** The query of `get_or_create_incident`: it answers, or the worker goes on to insert. */
  lemma QueryStep(run: seq<S.Action>, worker: S.WorkerId, key: string, found: Option<S.Id>)
    requires S.PcOf(After(run), worker).Idle? && S.QueryAnswers(After(run), key, found)
    ensures var s, v := After(run), After(run + [S.Ingest(worker, key, true, found)]);
            && v == s.(pcs := v.pcs, answers := v.answers)
            && S.PcOf(v, worker) == (if found.Some? then S.Idle else S.Inserting(key))
            && (forall other :: other != worker ==> S.PcOf(v, other) == S.PcOf(s, other))
  {
    PlayAppend(S.EMPTY, run, S.Ingest(worker, key, true, found));
  }

  /** The insert: the index lets it through exactly when the key has no active incident. */
  lemma InsertStep(run: seq<S.Action>, worker: S.WorkerId, limit: nat)
    requires S.PcOf(After(run), worker).Inserting?
    ensures var s, v := After(run), After(run + [S.Insert(worker, limit)]); var key := S.PcOf(s, worker).key;
            && s.nextId !in s.history
            && (forall other :: other != worker ==> S.PcOf(v, other) == S.PcOf(s, other))
            && if S.NoActive(s, key)
               then v.history == s.history[s.nextId := [I.Created(key, limit, false)]] && v.nextId == s.nextId + 1
                    && v.outbox == s.outbox + [S.DetectedEvent(s.nextId, 1)] && S.PcOf(v, worker) == S.Idle
               else v == s.(pcs := v.pcs) && S.PcOf(v, worker) == S.Rereading(key)
  {
    PlayAppend(S.EMPTY, run, S.Insert(worker, limit));
    S.CorrelationIsUnique(run);
  }

  lemma RereadStep(run: seq<S.Action>, worker: S.WorkerId, found: Option<S.Id>)
    requires S.PcOf(After(run), worker).Rereading? && S.QueryAnswers(After(run), S.PcOf(After(run), worker).key, found)
    ensures var s, v := After(run), After(run + [S.Reread(worker, found)]);
            v == s.(pcs := v.pcs, answers := v.answers) && S.PcOf(v, worker) == S.Idle
  {
    PlayAppend(S.EMPTY, run, S.Reread(worker, found));
  }

  /** The checks of `transition` on the row it read, and the values it then writes. */
  method PrepareUpdate(read: I.Incident, expected: int, target: I.State) returns (outcome: I.Outcome)
    ensures outcome == I.Transition(read, expected, target)
    ensures outcome.Committed? ==> I.TriggerAcceptsUpdate(read, outcome.row)
  {
    if read.version != expected { return I.Refused(I.StaleVersion); }
    if target !in I.Targets(read.state) { return I.Refused(I.IllegalTransition); }
    if read.state == I.Planned && target != I.Escalated {
      var required := if read.approvalRequired then I.PendingApproval else I.Executing;
      if target != required { return I.Refused(I.ApprovalMismatch); }
    }
    var retry := read.state == I.Verifying && target == I.Diagnosed;
    if retry && read.attempts >= read.retryLimit { return I.Refused(I.RetryExhausted); }
    var row := read.(state := target, version := expected + 1);
    if retry {
      row := row.(attempts := read.attempts + 1);
    }
    outcome := I.Committed(row);
    I.RepositoryMatchesTrigger(read, row);
  }

  class IncidentTable {
    var incidents: map<S.Id, I.Incident>
    var outbox: seq<S.OutboxRow>
    var nextId: S.Id
    /** The steps of all workers that led to this table. */
    ghost var run: seq<S.Action>

    ghost predicate Valid()
      reads this
    {
      var s := After(run);
      && outbox == s.outbox && nextId == s.nextId && incidents.Keys == s.history.Keys
      && forall id :: id in s.history ==> s.history[id] != [] && incidents[id] == I.Last(s.history[id])
    }

    constructor ()
      ensures Valid() && run == []
    {
      incidents, outbox, nextId, run := map[], [], 0, [];
    }

    /** `get_active_incident_by_correlation_key`. */
    method ActiveIncident(key: string) returns (found: Option<S.Id>)
      requires Valid()
      ensures S.QueryAnswers(After(run), key, found)
    {
      if id :| id in incidents && incidents[id].key == key && !I.Terminal(incidents[id].state) {
        found := Some(id);
      } else {
        found := None;
      }
    }

    method Transition(id: S.Id, expected: int, target: I.State) returns (result: TransitionResult)
      requires Valid()
      modifies this
      ensures Valid()
      ensures run == if result.Updated? then old(run) + [S.Move(id, expected, target)] else old(run)
      ensures result.NotFound? <==> id !in old(incidents)
      ensures result.Rejected? ==> I.Transition(old(incidents)[id], expected, target) == I.Refused(result.reason)
      ensures result.Updated? ==> I.Transition(old(incidents)[id], expected, target) == I.Committed(result.row)
      ensures incidents == if result.Updated? then old(incidents)[id := result.row] else old(incidents)
      ensures outbox == old(outbox) + if result.Updated? && target == I.Approved then [S.ApprovedEvent(id, expected + 1)] else []
    {
      if id !in incidents { return NotFound; }
      var outcome := PrepareUpdate(incidents[id], expected, target);
      if outcome.Refused? { return Rejected(outcome.reason); }
      var row := outcome.row;
      MoveIsWritten(run, id, expected, target, row);
      run := run + [S.Move(id, expected, target)];
      incidents := incidents[id := row];
      if target == I.Approved {
        outbox := outbox + [S.ApprovedEvent(id, expected + 1)];
      }
      result := Updated(row);
    }

    method RequireIncidentApproval(id: S.Id, expected: int) returns (ok: bool)
      requires Valid()
      modifies this
      ensures Valid()
      ensures run == if ok then old(run) + [S.Route(id, expected)] else old(run)
      ensures ok == (id in old(incidents) && I.RequireApproval(old(incidents)[id], expected).Committed?)
      ensures incidents == if ok then old(incidents)[id := I.RequireApproval(old(incidents)[id], expected).row] else old(incidents)
      ensures outbox == old(outbox)
    {
      if id !in incidents { return false; }
      var read := incidents[id];
      ok := read.version == expected && read.state == I.Planned && !read.approvalRequired;
      if ok {
        var row := read.(approvalRequired := true, version := expected + 1);
        RouteIsWritten(run, id, expected, row);
        run := run + [S.Route(id, expected)];
        incidents := incidents[id := row];
      }
    }

    /** The first query of `get_or_create_incident`; `None` means it goes on to insert. */
    method FindOrPrepare(worker: S.WorkerId, key: string) returns (found: Option<S.Id>)
      requires Valid() && S.PcOf(After(run), worker).Idle?
      modifies this`run
      ensures Valid() && run == old(run) + [S.Ingest(worker, key, true, found)]
      ensures S.QueryAnswers(old(After(run)), key, found) && S.QueryAnswers(After(run), key, found)
      ensures S.PcOf(After(run), worker) == if found.Some? then S.Idle else S.Inserting(key)
      ensures forall other :: other != worker ==> S.PcOf(After(run), other) == S.PcOf(old(After(run)), other)
    {
      found := ActiveIncident(key);
      QueryStep(run, worker, key, found);
      run := run + [S.Ingest(worker, key, true, found)];
      assert forall k, x :: S.ActiveFor(After(run), k, x) == S.ActiveFor(old(After(run)), k, x);
    }

    /** The nested insert with its outbox row; `None` is the integrity error. */
    method InsertIncident(worker: S.WorkerId, key: string, limit: nat) returns (created: Option<S.Id>)
      requires Valid() && S.PcOf(After(run), worker) == S.Inserting(key)
      modifies this
      ensures Valid() && run == old(run) + [S.Insert(worker, limit)]
      ensures forall other :: other != worker ==> S.PcOf(After(run), other) == S.PcOf(old(After(run)), other)
      ensures created.Some? <==> S.NoActive(old(After(run)), key)
      ensures created.Some? ==>
                && created.value !in old(incidents) && incidents == old(incidents)[created.value := I.Created(key, limit, false)]
                && outbox == old(outbox) + [S.DetectedEvent(created.value, 1)]
                && S.ActiveFor(After(run), key, created.value) && S.PcOf(After(run), worker).Idle?
      ensures created.None? ==>
                incidents == old(incidents) && outbox == old(outbox) && S.PcOf(After(run), worker) == S.Rereading(key)
    {
      var active := ActiveIncident(key);
      InsertStep(run, worker, limit);
      run := run + [S.Insert(worker, limit)];
      if active.Some? { return None; }
      created := Some(nextId);
      incidents := incidents[nextId := I.Created(key, limit, false)];
      outbox := outbox + [S.DetectedEvent(nextId, 1)];
      nextId := nextId + 1;
    }

    /** The query after an integrity error: the winner, or `None` when the error is raised again because none is active now. */
    method RereadIncident(worker: S.WorkerId, key: string) returns (found: Option<S.Id>)
      requires Valid() && S.PcOf(After(run), worker) == S.Rereading(key)
      modifies this`run
      ensures Valid() && run == old(run) + [S.Reread(worker, found)] && S.PcOf(After(run), worker).Idle?
      ensures S.QueryAnswers(old(After(run)), key, found)
      ensures found.Some? ==> S.ActiveFor(After(run), key, found.value)
    {
      found := ActiveIncident(key);
      RereadStep(run, worker, found);
      run := run + [S.Reread(worker, found)];
    }

    /** A whole `get_or_create_incident` of another worker that meets no active incident. */
    method RivalCreates(rival: S.WorkerId, key: string, limit: nat) returns (winner: S.Id)
      requires Valid() && S.PcOf(After(run), rival).Idle? && S.NoActive(After(run), key)
      modifies this
      ensures Valid() && old(run) <= run
      ensures forall other :: other != rival ==> S.PcOf(After(run), other) == S.PcOf(old(After(run)), other)
      ensures winner !in old(incidents) && incidents == old(incidents)[winner := I.Created(key, limit, false)]
      ensures outbox == old(outbox) + [S.DetectedEvent(winner, 1)]
      ensures !S.NoActive(After(run), key) && forall x :: S.ActiveFor(After(run), key, x) ==> x == winner
    {
      var found := FindOrPrepare(rival, key);
      var created := InsertIncident(rival, key, limit);
      winner := created.value;
      S.CorrelationIsUnique(run);
    }

    /** The insert of `get_or_create_incident` and, after an integrity error, its re-read. */
    method InsertOrReread(worker: S.WorkerId, key: string, limit: nat) returns (id: S.Id, created: bool)
      requires Valid() && S.PcOf(After(run), worker) == S.Inserting(key)
      modifies this
      ensures Valid() && old(run) <= run && S.PcOf(After(run), worker).Idle?
      ensures S.ActiveFor(After(run), key, id)
      ensures created <==> S.NoActive(old(After(run)), key)
      ensures created ==> id !in old(incidents) && incidents == old(incidents)[id := I.Created(key, limit, false)]
                          && outbox == old(outbox) + [S.DetectedEvent(id, 1)]
      ensures !created ==> S.ActiveFor(old(After(run)), key, id) && incidents == old(incidents) && outbox == old(outbox)
    {
      var inserted := InsertIncident(worker, key, limit);
      if inserted.Some? { return inserted.value, true; }
      var reread := RereadIncident(worker, key);
      id, created := reread.value, false;
    }

    /** `get_or_create_incident` for a firing notification. When there is a rival, it creates an incident for the same key
        between this worker's query and its insert, and both name that one. */
    method GetOrCreateIncident(worker: S.WorkerId, key: string, limit: nat, rival: Option<S.WorkerId>) returns (id: S.Id, created: bool)
      requires Valid() && S.PcOf(After(run), worker).Idle?
      requires rival.Some? ==> rival.value != worker && S.PcOf(After(run), rival.value).Idle?
      modifies this
      ensures Valid() && old(run) <= run && S.PcOf(After(run), worker).Idle?
      ensures S.ActiveFor(After(run), key, id)
      ensures created <==> S.NoActive(old(After(run)), key) && rival.None?
      ensures S.NoActive(old(After(run)), key) ==>
                && id !in old(incidents) && incidents == old(incidents)[id := I.Created(key, limit, false)]
                && outbox == old(outbox) + [S.DetectedEvent(id, 1)]
      ensures !S.NoActive(old(After(run)), key) ==> incidents == old(incidents) && outbox == old(outbox)
    {
      var found := FindOrPrepare(worker, key);
      if found.Some? { return found.value, false; }
      if rival.Some? {
        var winner := RivalCreates(rival.value, key, limit);
      }
      id, created := InsertOrReread(worker, key, limit);
    }
  }
}
