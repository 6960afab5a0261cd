/** Event ingestion, incident creation under the unique-active index, and the transactional outbox,
    interleaved with lifecycle transitions. */
module IncidentStore {
  import opened Prelude
  import I = IncidentLifecycle

  type Id = nat
  type WorkerId = nat

  datatype OutboxRow = DetectedEvent(incident: Id, version: int) | ApprovedEvent(incident: Id, version: int)

  /** What the callers of `get_or_create_incident` and `transition` are told. */
  datatype Answer =
    | Correlated(key: string, incident: Id, created: bool)
    | Raised(key: string)
    | IndexTripped(incident: Id)

  /** `get_or_create_incident` between its reads and writes. */
  datatype Pc = Idle | Inserting(key: string) | Rereading(key: string)

  /** `history` holds the committed rows of every incident, oldest first; the last one is the row in the table. */
  datatype Store = Store(
    history: map<Id, I.History>, outbox: seq<OutboxRow>, nextId: Id, pcs: map<WorkerId, Pc>, answers: seq<Answer>)

  datatype Action =
    | Ingest(worker: WorkerId, key: string, firing: bool, found: Option<Id>)
    | Insert(worker: WorkerId, retryLimit: nat)
    | Reread(worker: WorkerId, found: Option<Id>)
    | Move(id: Id, expected: int, target: I.State)
    | Route(id: Id, expected: int)
    | Crash(worker: WorkerId)

  predicate ActiveFor(s: Store, key: string, id: Id) {
    id in s.history && s.history[id] != [] && I.Last(s.history[id]).key == key && !I.Terminal(I.Last(s.history[id]).state)
  }

  predicate NoActive(s: Store, key: string) {
    forall id :: id in s.history ==> !ActiveFor(s, key, id)
  }

  /** `found` is a possible answer of the query for the active incident of a key. */
  predicate QueryAnswers(s: Store, key: string, found: Option<Id>) {
    if found.Some? then ActiveFor(s, key, found.value) else NoActive(s, key)
  }

  function PcOf(s: Store, w: WorkerId): Pc {
    if w in s.pcs then s.pcs[w] else Idle
  }

  function Tell(s: Store, a: Answer): Store {
    s.(answers := s.answers + [a])
  }

  /** A resolved notification links to the active incident or is ignored; it never creates one. */
  function DoIngest(s: Store, w: WorkerId, key: string, firing: bool, found: Option<Id>): Store {
    if !firing || !QueryAnswers(s, key, found) then s
    else if found.Some? then Tell(s, Correlated(key, found.value, false))
    else s.(pcs := s.pcs[w := Inserting(key)])
  }

  /** The nested insert: the index refuses a second active incident; otherwise incident and outbox row commit together. */
  function DoInsert(s: Store, w: WorkerId, key: string, retryLimit: nat): Store {
    if !NoActive(s, key) then s.(pcs := s.pcs[w := Rereading(key)])
    else Tell(s.(history := s.history[s.nextId := [I.Created(key, retryLimit, false)]],
                 outbox := s.outbox + [DetectedEvent(s.nextId, 1)],
                 nextId := s.nextId + 1, pcs := s.pcs[w := Idle]),
              Correlated(key, s.nextId, true))
  }

  /** After an integrity error: the winner, or the error again when it is no longer active. */
  function DoReread(s: Store, w: WorkerId, key: string, found: Option<Id>): Store {
    if !QueryAnswers(s, key, found) then s
    else Tell(s.(pcs := s.pcs[w := Idle]),
              if found.Some? then Correlated(key, found.value, false) else Raised(key))
  }

  /** The partial unique index, checked on every write of an incident row. */
  predicate Trips(s: Store, id: Id, row: I.Incident) {
    !I.Terminal(row.state) && exists other :: other in s.history && other != id && ActiveFor(s, row.key, other)
  }

  function Commit(s: Store, id: Id, row: I.Incident): Store
    requires id in s.history
  {
    if Trips(s, id, row) then Tell(s, IndexTripped(id))
    else s.(history := s.history[id := s.history[id] + [row]])
  }

  /** `transition`: entering APPROVED writes its outbox row in the same transaction. */
  function DoMove(s: Store, id: Id, expected: int, target: I.State): Store
    requires id in s.history && s.history[id] != []
  {
    var outcome := I.Transition(I.Last(s.history[id]), expected, target);
    if outcome.Refused? then s
    else if Trips(s, id, outcome.row) then Tell(s, IndexTripped(id))
    else
      var moved := Commit(s, id, outcome.row);
      if target == I.Approved then moved.(outbox := s.outbox + [ApprovedEvent(id, expected + 1)]) else moved
  }

  function DoRoute(s: Store, id: Id, expected: int): Store
    requires id in s.history && s.history[id] != []
  {
    var outcome := I.RequireApproval(I.Last(s.history[id]), expected);
    if outcome.Refused? then s else Commit(s, id, outcome.row)
  }

  function Apply(s: Store, a: Action): Store {
    match a
    case Ingest(w, key, firing, found) => if PcOf(s, w).Idle? then DoIngest(s, w, key, firing, found) else s
    case Insert(w, limit) => if PcOf(s, w).Inserting? then DoInsert(s, w, PcOf(s, w).key, limit) else s
    case Reread(w, found) => if PcOf(s, w).Rereading? then DoReread(s, w, PcOf(s, w).key, found) else s
    case Move(id, expected, target) => if id in s.history && s.history[id] != [] then DoMove(s, id, expected, target) else s
    case Route(id, expected) => if id in s.history && s.history[id] != [] then DoRoute(s, id, expected) else s
    case Crash(w) => s.(pcs := s.pcs[w := Idle])
  }

  function Play(s: Store, actions: seq<Action>): Store
    decreases |actions|
  {
    if actions == [] then s else Play(Apply(s, actions[0]), actions[1..])
  }

  const EMPTY := Store(map[], [], 0, map[], [])

  // ---------------------------------------------------------------- the invariant

  ghost predicate HistoriesOk(s: Store) {
    forall id :: id in s.history ==> id < s.nextId && I.Legal(s.history[id])
  }

  ghost predicate UniqueActive(s: Store) {
    forall key, a, b :: ActiveFor(s, key, a) && ActiveFor(s, key, b) ==> a == b
  }

  /** The version at which a history enters a state. */
  predicate EntersAt(h: I.History, version: int, state: I.State) {
    2 <= version <= |h| && h[version - 1].state == state && h[version - 2].state != state
  }

  /** The outbox rows the committed histories call for. */
  predicate Owed(s: Store, row: OutboxRow) {
    && row.incident in s.history
    && match row
       case DetectedEvent(_, version) => version == 1
       case ApprovedEvent(id, version) => EntersAt(s.history[id], version, I.Approved)
  }

  ghost predicate OutboxExact(s: Store) {
    forall row :: row in s.outbox <==> Owed(s, row)
  }

  ghost predicate PairsDistinct(outbox: seq<OutboxRow>) {
    forall i, j :: 0 <= i < j < |outbox| ==> (outbox[i].incident, outbox[i].version) != (outbox[j].incident, outbox[j].version)
  }

  ghost predicate AnswersOk(s: Store) {
    forall i :: 0 <= i < |s.answers| ==>
      match s.answers[i]
      case Correlated(key, id, _) => id in s.history && s.history[id] != [] && s.history[id][0].key == key
      case Raised(_) => true
      case IndexTripped(_) => false
  }

  predicate Creates(a: Answer, id: Id) {
    a.Correlated? && a.created && a.incident == id
  }

  ghost predicate Announced(answers: seq<Answer>, id: Id) {
    exists i :: 0 <= i < |answers| && Creates(answers[i], id)
  }

  ghost predicate AnnouncedOnce(answers: seq<Answer>) {
    forall i, j, id :: 0 <= i < j < |answers| && Creates(answers[i], id) ==> !Creates(answers[j], id)
  }

  /** Each incident was announced as created to exactly one caller. */
  ghost predicate CreatedOnce(s: Store) {
    (forall id :: id in s.history ==> Announced(s.answers, id)) && AnnouncedOnce(s.answers)
  }

  ghost predicate Inv(s: Store) {
    && HistoriesOk(s) && UniqueActive(s) && OutboxExact(s) && PairsDistinct(s.outbox) && AnswersOk(s) && CreatedOnce(s)
  }

  // ---------------------------------------------------------------- steps

  /** No transition can trip the unique-active index: the row it leaves was itself the active one. */
  lemma MoveNeverTrips(s: Store, id: Id, row: I.Incident)
    requires HistoriesOk(s) && UniqueActive(s) && id in s.history
    requires I.Follows(I.Last(s.history[id]), row)
    ensures !Trips(s, id, row)
  {
    assert ActiveFor(s, row.key, id);
  }

  lemma HistoryKey(h: I.History)
    requires I.Legal(h)
    ensures I.Last(h).key == h[0].key && I.Last(h).version == |h|
  {
    I.LegalWithinBudget(h);
    I.LegalIsNumbered(h);
  }

  /** Appending a committed row to one history. */
  lemma AppendRow(s: Store, v: Store, id: Id, row: I.Incident)
    requires Inv(s) && id in s.history && I.Follows(I.Last(s.history[id]), row)
    requires v == s.(history := s.history[id := s.history[id] + [row]], outbox := v.outbox)
    requires v.outbox == s.outbox + if row.state == I.Approved && I.Last(s.history[id]).state != I.Approved
                                    then [ApprovedEvent(id, row.version)] else []
    ensures Inv(v)
  {
    AppendHistory(s, v, id, row);
    AppendOutbox(s, v, id, row);
    AppendAnswers(s, v, id, row);
  }

  lemma AppendHistory(s: Store, v: Store, id: Id, row: I.Incident)
    requires HistoriesOk(s) && UniqueActive(s) && id in s.history && I.Follows(I.Last(s.history[id]), row)
    requires v.history == s.history[id := s.history[id] + [row]] && v.nextId == s.nextId
    ensures HistoriesOk(v) && UniqueActive(v) && row.version == |s.history[id]| + 1
  {
    var h := s.history[id];
    I.ExtendLegal(h, row);
    HistoryKey(h);
    forall key, a | ActiveFor(v, key, a) ensures ActiveFor(s, key, a) {
    }
  }

  lemma AppendAnswers(s: Store, v: Store, id: Id, row: I.Incident)
    requires AnswersOk(s) && CreatedOnce(s) && id in s.history && s.history[id] != []
    requires v.history == s.history[id := s.history[id] + [row]] && v.answers == s.answers
    ensures AnswersOk(v) && CreatedOnce(v)
  {
    assert v.history.Keys == s.history.Keys;
  }

  lemma AppendOutbox(s: Store, v: Store, id: Id, row: I.Incident)
    requires OutboxExact(s) && PairsDistinct(s.outbox) && HistoriesOk(s) && id in s.history
    requires row.version == |s.history[id]| + 1
    requires v == s.(history := s.history[id := s.history[id] + [row]], outbox := v.outbox)
    requires v.outbox == s.outbox + if row.state == I.Approved && I.Last(s.history[id]).state != I.Approved
                                    then [ApprovedEvent(id, row.version)] else []
    ensures OutboxExact(v) && PairsDistinct(v.outbox)
  {
    var h := s.history[id];
    var added := row.state == I.Approved && I.Last(h).state != I.Approved;
    forall r ensures Owed(v, r) <==> Owed(s, r) || (added && r == ApprovedEvent(id, row.version)) {
    }
    forall i | 0 <= i < |s.outbox| ensures s.outbox[i].incident == id ==> s.outbox[i].version < row.version {
      assert s.outbox[i] in s.outbox;
      assert Owed(s, s.outbox[i]);
    }
  }

  lemma MoveKeepsInv(s: Store, id: Id, expected: int, target: I.State)
    requires Inv(s) && id in s.history
    ensures Inv(DoMove(s, id, expected, target))
  {
    var last := I.Last(s.history[id]);
    var outcome := I.Transition(last, expected, target);
    if outcome.Committed? {
      assert I.Follows(last, outcome.row);
      MoveNeverTrips(s, id, outcome.row);
      assert target == I.Approved ==> last.state != I.Approved;
      AppendRow(s, DoMove(s, id, expected, target), id, outcome.row);
    }
  }

  lemma RouteKeepsInv(s: Store, id: Id, expected: int)
    requires Inv(s) && id in s.history
    ensures Inv(DoRoute(s, id, expected))
  {
    var last := I.Last(s.history[id]);
    var outcome := I.RequireApproval(last, expected);
    if outcome.Committed? {
      assert I.Follows(last, outcome.row);
      MoveNeverTrips(s, id, outcome.row);
      AppendRow(s, DoRoute(s, id, expected), id, outcome.row);
    }
  }

  /** An answer that creates nothing. */
  lemma TellKeepsInv(s: Store, v: Store, a: Answer)
    requires Inv(s) && v == s.(pcs := v.pcs, answers := s.answers + [a])
    requires a.Raised? || (a.Correlated? && !a.created && ActiveFor(s, a.key, a.incident))
    ensures Inv(v)
  {
    if a.Correlated? {
      HistoryKey(s.history[a.incident]);
    }
    forall key, x ensures ActiveFor(v, key, x) == ActiveFor(s, key, x) {
    }
    forall x | x in v.history ensures Announced(v.answers, x) {
      AnnouncedAppend(s.answers, a, x);
    }
    AnnouncedOnceAppend(s.answers, a);
    forall row ensures Owed(v, row) == Owed(s, row) {
    }
  }

  lemma PcKeepsInv(s: Store, v: Store)
    requires Inv(s) && v == s.(pcs := v.pcs)
    ensures Inv(v)
  {
    forall key, x ensures ActiveFor(v, key, x) == ActiveFor(s, key, x) {
    }
    forall row ensures Owed(v, row) == Owed(s, row) {
    }
  }

  lemma InsertKeepsInv(s: Store, w: WorkerId, key: string, limit: nat)
    requires Inv(s)
    ensures Inv(DoInsert(s, w, key, limit))
  {
    var v := DoInsert(s, w, key, limit);
    if !NoActive(s, key) {
      PcKeepsInv(s, v);
    } else {
      InsertRows(s, v, I.Created(key, limit, false));
      InsertOutbox(s, v);
      InsertAnswers(s, v, s.nextId, key);
    }
  }

  lemma InsertRows(s: Store, v: Store, row: I.Incident)
    requires HistoriesOk(s) && UniqueActive(s) && NoActive(s, row.key) && I.TriggerAcceptsInsert(row)
    requires v.history == s.history[s.nextId := [row]] && v.nextId == s.nextId + 1
    ensures HistoriesOk(v) && UniqueActive(v)
  {
    forall k, x | ActiveFor(v, k, x) ensures if x == s.nextId then k == row.key else ActiveFor(s, k, x) {
    }
  }

  lemma InsertOutbox(s: Store, v: Store)
    requires HistoriesOk(s) && OutboxExact(s) && PairsDistinct(s.outbox)
    requires v.history.Keys == s.history.Keys + {s.nextId} && |v.history[s.nextId]| == 1
    requires forall x :: x in s.history ==> v.history[x] == s.history[x]
    requires v.outbox == s.outbox + [DetectedEvent(s.nextId, 1)]
    ensures OutboxExact(v) && PairsDistinct(v.outbox)
  {
    forall row ensures Owed(v, row) <==> Owed(s, row) || row == DetectedEvent(s.nextId, 1) {
    }
    forall i | 0 <= i < |s.outbox| ensures s.outbox[i].incident != s.nextId {
      assert s.outbox[i] in s.outbox;
      assert Owed(s, s.outbox[i]);
    }
  }

  lemma AnnouncedAppend(answers: seq<Answer>, a: Answer, id: Id)
    ensures Announced(answers + [a], id) <==> Announced(answers, id) || Creates(a, id)
  {
    var more := answers + [a];
    if i :| 0 <= i < |answers| && Creates(answers[i], id) {
      assert more[i] == answers[i];
    }
    if Creates(a, id) {
      assert more[|answers|] == a;
    }
    if i :| 0 <= i < |more| && Creates(more[i], id) {
      assert i < |answers| ==> answers[i] == more[i];
    }
  }

  /** An answer about an incident nobody was told of yet, or one that creates nothing, keeps announcements unique. */
  lemma AnnouncedOnceAppend(answers: seq<Answer>, a: Answer)
    requires AnnouncedOnce(answers) && forall id :: Creates(a, id) ==> !Announced(answers, id)
    ensures AnnouncedOnce(answers + [a])
  {
    var more := answers + [a];
    forall i, j, id | 0 <= i < j < |more| && Creates(more[i], id) ensures !Creates(more[j], id) {
      assert more[i] == answers[i];
      if j == |answers| {
        assert Announced(answers, id);
      }
    }
  }

  /** Creations are announced only for incidents that exist. */
  lemma AnnouncedExists(s: Store, id: Id)
    requires AnswersOk(s) && Announced(s.answers, id)
    ensures id in s.history
  {
  }

  lemma InsertCreated(s: Store, v: Store, id: Id, key: string)
    requires HistoriesOk(s) && AnswersOk(s) && CreatedOnce(s) && id == s.nextId
    requires v.answers == s.answers + [Correlated(key, id, true)] && v.history.Keys == s.history.Keys + {id}
    ensures CreatedOnce(v)
  {
    var a := Correlated(key, id, true);
    forall x | x in v.history ensures Announced(v.answers, x) {
      AnnouncedAppend(s.answers, a, x);
    }
    if Announced(s.answers, id) {
      AnnouncedExists(s, id);
    }
    AnnouncedOnceAppend(s.answers, a);
  }

  lemma InsertAnswers(s: Store, v: Store, id: Id, key: string)
    requires HistoriesOk(s) && AnswersOk(s) && CreatedOnce(s) && id == s.nextId
    requires v.answers == s.answers + [Correlated(key, id, true)]
    requires v.history.Keys == s.history.Keys + {id} && v.history[id] != [] && v.history[id][0].key == key
    requires forall x :: x in s.history ==> v.history[x] == s.history[x]
    ensures AnswersOk(v) && CreatedOnce(v)
  {
    InsertCreated(s, v, id, key);
  }

  lemma StepKeepsInv(s: Store, a: Action)
    requires Inv(s)
    ensures Inv(Apply(s, a))
  {
    var v := Apply(s, a);
    match a
    case Ingest(w, key, firing, found) =>
      if v.answers != s.answers {
        TellKeepsInv(s, v, Correlated(key, found.value, false));
      } else {
        PcKeepsInv(s, v);
      }
    case Insert(w, limit) =>
      if PcOf(s, w).Inserting? {
        InsertKeepsInv(s, w, PcOf(s, w).key, limit);
      }
    case Reread(w, found) =>
      if v != s {
        var key := PcOf(s, w).key;
        TellKeepsInv(s, v, if found.Some? then Correlated(key, found.value, false) else Raised(key));
      }
    case Move(id, expected, target) =>
      if id in s.history {
        MoveKeepsInv(s, id, expected, target);
      }
    case Route(id, expected) =>
      if id in s.history {
        RouteKeepsInv(s, id, expected);
      }
    case Crash(w) => PcKeepsInv(s, v);
  }

  lemma {:induction false} PlayKeepsInv(s: Store, actions: seq<Action>)
    requires Inv(s)
    ensures Inv(Play(s, actions))
    decreases |actions|
  {
    if actions != [] {
      StepKeepsInv(s, actions[0]);
      PlayKeepsInv(Apply(s, actions[0]), actions[1..]);
    }
  }

  // ---------------------------------------------------------------- theorems

  /** Over every interleaving of ingests, transitions and crashes: at most one active incident per correlation key, no
      transition ever trips the index, and every incident was reported as created to exactly one caller, with its key. */
  lemma CorrelationIsUnique(actions: seq<Action>)
    ensures var s := Play(EMPTY, actions);
            UniqueActive(s) && AnswersOk(s) && CreatedOnce(s) && HistoriesOk(s)
  {
    PlayKeepsInv(EMPTY, actions);
  }

  /** Outbox conservation over every interleaving: the outbox holds exactly one detected row (version 1) per incident and
      one approved row per entry into APPROVED, carrying that version; distinct rows have distinct (incident, version). */
  lemma OutboxConservation(actions: seq<Action>)
    ensures var s := Play(EMPTY, actions);
            && (forall row :: row in s.outbox <==> Owed(s, row))
            && PairsDistinct(s.outbox)
  {
    PlayKeepsInv(EMPTY, actions);
  }

  /** A racing `get_or_create_incident` that returns names the incident that is active for the key at that moment, and it
      says it created it exactly when it did. */
  lemma ReturnsTheWinner(s: Store, a: Action)
    requires Inv(s) && |Apply(s, a).answers| > |s.answers|
    ensures var v := Apply(s, a); var answer := v.answers[|s.answers|];
            && v.answers[..|s.answers|] == s.answers
            && (answer.Correlated? ==> ActiveFor(v, answer.key, answer.incident))
            && (answer.Correlated? && answer.created <==> v.history != s.history)
  {
    if a.Move? {
      MoveTellsNothing(s, a.id, a.expected, a.target);
    } else if a.Route? {
      RouteTellsNothing(s, a.id, a.expected);
    } else if a.Insert? {
      assert s.nextId !in s.history;
    }
  }

  lemma MoveTellsNothing(s: Store, id: Id, expected: int, target: I.State)
    requires HistoriesOk(s) && UniqueActive(s)
    ensures Apply(s, Move(id, expected, target)).answers == s.answers
  {
    if id in s.history {
      var outcome := I.Transition(I.Last(s.history[id]), expected, target);
      if outcome.Committed? {
        MoveNeverTrips(s, id, outcome.row);
      }
    }
  }

  lemma RouteTellsNothing(s: Store, id: Id, expected: int)
    requires HistoriesOk(s) && UniqueActive(s)
    ensures Apply(s, Route(id, expected)).answers == s.answers
  {
    if id in s.history {
      var outcome := I.RequireApproval(I.Last(s.history[id]), expected);
      if outcome.Committed? {
        MoveNeverTrips(s, id, outcome.row);
      }
    }
  }

  /** The correlation keys of the firing notifications in a run. */
  function FiringKeys(actions: seq<Action>): set<string> {
    set a | a in actions && a.Ingest? && a.firing :: a.key
  }

  predicate PcWithin(pc: Pc, keys: set<string>) {
    pc.Idle? || pc.key in keys
  }

  /** Every incident, and every creation under way, is for one of these keys; incidents are created without approval routing. */
  ghost predicate KeysWithin(s: Store, keys: set<string>) {
    && (forall id :: id in s.history ==> s.history[id] != [] && s.history[id][0].key in keys && !s.history[id][0].approvalRequired)
    && (forall w :: PcWithin(PcOf(s, w), keys))
  }

  lemma StepKeepsKeys(s: Store, a: Action, keys: set<string>)
    requires KeysWithin(s, keys) && (a.Ingest? && a.firing ==> a.key in keys)
    ensures KeysWithin(Apply(s, a), keys)
  {
    var v := Apply(s, a);
    forall w ensures PcWithin(PcOf(v, w), keys) {
      assert PcWithin(PcOf(s, w), keys);
    }
    if a.Insert? {
      assert PcWithin(PcOf(s, a.worker), keys);
    }
  }

  lemma {:induction false} PlayKeepsKeys(s: Store, actions: seq<Action>, keys: set<string>)
    requires KeysWithin(s, keys) && FiringKeys(actions) <= keys
    ensures KeysWithin(Play(s, actions), keys)
    decreases |actions|
  {
    if actions != [] {
      assert actions[0] in actions;
      StepKeepsKeys(s, actions[0], keys);
      PlayKeepsKeys(Apply(s, actions[0]), actions[1..], keys);
    }
  }

  /** Only a firing notification creates an incident: over every run, each incident's key is one that fired, and it began as
      DETECTED at version 1 without approval routing. */
  lemma OnlyFiringCreates(actions: seq<Action>, id: Id)
    requires id in Play(EMPTY, actions).history
    ensures var h := Play(EMPTY, actions).history[id];
            && h != [] && h[0].key in FiringKeys(actions)
            && h[0].state == I.Detected && h[0].version == 1 && h[0].attempts == 0 && !h[0].approvalRequired
  {
    PlayKeepsKeys(EMPTY, actions, FiringKeys(actions));
    CorrelationIsUnique(actions);
  }
}
