/** Stream consumption: deduplication by (incident, version) with a bounded cache. */
module Consumer {
  import opened Prelude
  import S = IncidentStore

  const CACHE_LIMIT := 5000

  type Key = (S.Id, int)

  /** One stream entry; a missing version reads as 1, and a malformed field raises before anything is recorded. */
  datatype Message = Message(incident: Option<S.Id>, version: Option<int>, wellFormed: bool)

  /** What became of a delivery. A failed one stays in the pending list, the others are acknowledged. */
  datatype Fate = Dropped | Malformed | Duplicate(key: Key) | Ran(key: Key, completed: bool)

  datatype Cache = Cache(seen: set<Key>, log: seq<Fate>, clears: nat)

  const FRESH := Cache({}, [], 0)

  function KeyOf(m: Message): Key
    requires m.incident.Some?
  {
    (m.incident.value, if m.version.Some? then m.version.value else 1)
  }

  /** One delivery; `completes` says whether the workflow run returns or raises. */
  function FateOf(seen: set<Key>, m: Message, completes: bool): Fate {
    if m.incident.None? then Dropped
    else if !m.wellFormed then Malformed
    else if KeyOf(m) in seen then Duplicate(KeyOf(m))
    else Ran(KeyOf(m), completes)
  }

  function Process(c: Cache, m: Message, completes: bool): Cache {
    var fate := FateOf(c.seen, m, completes);
    var log := c.log + [fate];
    if !fate.Ran? then c.(log := log)
    else if |c.seen + {fate.key}| > CACHE_LIMIT then Cache({}, log, c.clears + 1)
    else Cache(c.seen + {fate.key}, log, c.clears)
  }

  datatype Delivery = Delivery(message: Message, completes: bool)

  function Consume(c: Cache, deliveries: seq<Delivery>): Cache
    decreases |deliveries|
  {
    if deliveries == [] then c
    else Consume(Process(c, deliveries[0].message, deliveries[0].completes), deliveries[1..])
  }

  predicate Acknowledged(f: Fate) {
    f.Dropped? || f.Duplicate? || (f.Ran? && f.completed)
  }

  // ---------------------------------------------------------------- the consumer object

  class EventConsumer {
    var seen: set<Key>
    var acked: set<nat>
    ghost var cache: Cache

    ghost predicate Valid()
      reads this
    {
      cache.seen == seen
    }

    constructor ()
      ensures Valid() && cache == FRESH && acked == {}
    {
      seen, acked, cache := {}, {}, FRESH;
    }

    /** `_process_message` for the stream entry `entry`; `completes` is the outcome of `run_incident`. */
    method ProcessMessage(entry: nat, m: Message, completes: bool) returns (runs: bool)
      requires Valid()
      modifies this
      ensures Valid() && cache == Process(old(cache), m, completes)
      ensures runs == FateOf(old(seen), m, completes).Ran?
      ensures acked == old(acked) + if Acknowledged(FateOf(old(seen), m, completes)) then {entry} else {}
      ensures entry in acked - old(acked) ==> m.incident.None? || (m.wellFormed && (KeyOf(m) in old(seen) || completes))
    {
      runs := false;
      cache := Process(cache, m, completes);
      if m.incident.None? {
        acked := acked + {entry};
      } else if m.wellFormed {
        var key := KeyOf(m);
        if key in seen {
          acked := acked + {entry};
        } else {
          seen := seen + {key};
          if |seen| > CACHE_LIMIT {
            seen := {};
          }
          runs := true;
          if completes {
            acked := acked + {entry};
          }
        }
      }
    }
  }

  /** What becomes of an entry, on its fields: one without an incident id is acknowledged and dropped; a malformed one raises; a pair
      already seen is acknowledged without a run; any other is run, and acknowledged exactly when the run completes. A missing
      version counts as 1. */
  lemma EntryTable(seen: set<Key>, m: Message, completes: bool)
    ensures var f := FateOf(seen, m, completes); var version := if m.version == None then 1 else m.version.value;
            && (Acknowledged(f) <==>
                  m.incident == None || (m.wellFormed && ((m.incident.value, version) in seen || completes)))
            && (f.Ran? <==> m.incident.Some? && m.wellFormed && (m.incident.value, version) !in seen)
            && (f.Ran? ==> f == Ran((m.incident.value, version), completes))
            && (f.Duplicate? <==> m.incident.Some? && m.wellFormed && (m.incident.value, version) in seen)
            && (f.Malformed? <==> m.incident.Some? && !m.wellFormed)
  {
  }

  // ---------------------------------------------------------------- runs

  predicate RunsKey(f: Fate, key: Key) {
    f.Ran? && f.key == key
  }

  function Runs(log: seq<Fate>): nat {
    if log == [] then 0 else Runs(log[..|log| - 1]) + if log[|log| - 1].Ran? then 1 else 0
  }

  function RunsOf(log: seq<Fate>, key: Key): nat {
    if log == [] then 0 else RunsOf(log[..|log| - 1], key) + if RunsKey(log[|log| - 1], key) then 1 else 0
  }

  /** A workflow run of this pair stands before position `i`. */
  ghost predicate RanBefore(log: seq<Fate>, key: Key, i: int) {
    exists j :: 0 <= j < i && j < |log| && RunsKey(log[j], key)
  }

  ghost predicate DuplicateExplained(log: seq<Fate>, i: nat) {
    i < |log| && log[i].Duplicate? ==> RanBefore(log, log[i].key, i)
  }

  ghost predicate Inv(c: Cache) {
    && |c.seen| <= CACHE_LIMIT
    && Runs(c.log) == |c.seen| + (CACHE_LIMIT + 1) * c.clears
    && (forall key :: RunsOf(c.log, key) <= c.clears + if key in c.seen then 1 else 0)
    && (forall key :: key in c.seen ==> RanBefore(c.log, key, |c.log|))
    && (forall i :: 0 <= i < |c.log| ==> DuplicateExplained(c.log, i))
  }

  lemma ProcessCounts(c: Cache, m: Message, completes: bool)
    requires Inv(c)
    ensures var v := Process(c, m, completes);
            && |v.seen| <= CACHE_LIMIT
            && Runs(v.log) == |v.seen| + (CACHE_LIMIT + 1) * v.clears
            && (forall key :: RunsOf(v.log, key) <= v.clears + if key in v.seen then 1 else 0)
  {
    var v := Process(c, m, completes);
    assert v.log[..|v.log| - 1] == c.log;
  }

  lemma ProcessExplains(c: Cache, m: Message, completes: bool)
    requires Inv(c)
    ensures var v := Process(c, m, completes);
            && (forall key :: key in v.seen ==> RanBefore(v.log, key, |v.log|))
            && (forall i :: 0 <= i < |v.log| ==> DuplicateExplained(v.log, i))
  {
    var v := Process(c, m, completes);
    forall key, i | 0 <= i <= |c.log| && RanBefore(c.log, key, i) ensures RanBefore(v.log, key, i) {
      var j :| 0 <= j < i && j < |c.log| && RunsKey(c.log[j], key);
      assert RunsKey(v.log[j], key);
    }
    forall key | key in v.seen ensures RanBefore(v.log, key, |v.log|) {
      if key in c.seen {
        assert RanBefore(v.log, key, |c.log|);
      } else {
        assert RunsKey(v.log[|c.log|], key);
      }
    }
    forall i | 0 <= i < |v.log| ensures DuplicateExplained(v.log, i) {
      if i < |c.log| {
        assert DuplicateExplained(c.log, i);
      }
    }
  }

  lemma {:induction false} ConsumeKeepsInv(c: Cache, deliveries: seq<Delivery>)
    requires Inv(c)
    ensures Inv(Consume(c, deliveries))
    decreases |deliveries|
  {
    if deliveries != [] {
      ProcessCounts(c, deliveries[0].message, deliveries[0].completes);
      ProcessExplains(c, deliveries[0].message, deliveries[0].completes);
      ConsumeKeepsInv(Process(c, deliveries[0].message, deliveries[0].completes), deliveries[1..]);
    }
  }

  /** The fate is about this message. */
  predicate Concerns(f: Fate, m: Message) {
    && (f.Dropped? <==> m.incident.None?)
    && (f.Duplicate? || f.Ran? ==> m.wellFormed && m.incident.Some? && f.key == KeyOf(m))
  }

  /** Entry i of the log is the fate of delivery i. */
  lemma {:induction false} ConsumeLog(c: Cache, deliveries: seq<Delivery>)
    ensures var v := Consume(c, deliveries);
            && |v.log| == |c.log| + |deliveries| && c.log <= v.log
            && forall i :: 0 <= i < |deliveries| ==> Concerns(v.log[|c.log| + i], deliveries[i].message)
    decreases |deliveries|
  {
    if deliveries != [] {
      var next := Process(c, deliveries[0].message, deliveries[0].completes);
      ConsumeLog(next, deliveries[1..]);
      var v := Consume(c, deliveries);
      assert v.log[|c.log|] == next.log[|c.log|];
      forall i | 0 <= i < |deliveries| ensures Concerns(v.log[|c.log| + i], deliveries[i].message) {
        if i > 0 {
          assert Concerns(v.log[|next.log| + (i - 1)], deliveries[1..][i - 1].message);
        }
      }
    }
  }

  // ---------------------------------------------------------------- theorems

  /** Bounded repetition: a pair is run at most once per filling of the cache. */
  lemma RunsPerPair(deliveries: seq<Delivery>, key: Key)
    ensures var log := Consume(FRESH, deliveries).log;
            RunsOf(log, key) <= 1 + Runs(log) / 5001
  {
    ConsumeKeepsInv(FRESH, deliveries);
    var c := Consume(FRESH, deliveries);
    assert RunsOf(c.log, key) <= c.clears + if key in c.seen then 1 else 0;
    assert Runs(c.log) / (CACHE_LIMIT + 1) == c.clears;
  }

  /** The stream entry published for an outbox row. */
  function Published(row: S.OutboxRow): Message {
    Message(Some(row.incident), Some(row.version), true)
  }

  /** Deliveries of outbox rows: row numbers, in any order, repeated or left out at will. */
  predicate Relays(outbox: seq<S.OutboxRow>, rows: seq<nat>, deliveries: seq<Delivery>) {
    && |rows| == |deliveries|
    && forall i :: 0 <= i < |rows| ==> rows[i] < |outbox| && deliveries[i].message == Published(outbox[rows[i]])
  }

  /** Deduplication only ever drops copies: a delivery dropped as a duplicate carries the same outbox row
      as an earlier delivery that was handed to the workflow runner. */
  lemma DuplicateIsSameRow(actions: seq<S.Action>, rows: seq<nat>, deliveries: seq<Delivery>)
    requires Relays(S.Play(S.EMPTY, actions).outbox, rows, deliveries)
    ensures var log := Consume(FRESH, deliveries).log;
            && |log| == |rows|
            && forall i :: 0 <= i < |log| && log[i].Duplicate? ==>
                 exists j :: 0 <= j < i && rows[j] == rows[i] && log[j].Ran?
  {
    var outbox := S.Play(S.EMPTY, actions).outbox;
    var log := Consume(FRESH, deliveries).log;
    S.OutboxConservation(actions);
    ConsumeKeepsInv(FRESH, deliveries);
    ConsumeLog(FRESH, deliveries);
    forall i | 0 <= i < |log| && log[i].Duplicate? ensures exists j :: 0 <= j < i && rows[j] == rows[i] && log[j].Ran? {
      assert DuplicateExplained(log, i);
      var j :| 0 <= j < i && j < |log| && RunsKey(log[j], log[i].key);
      assert Concerns(log[|FRESH.log| + i], deliveries[i].message);
      assert Concerns(log[|FRESH.log| + j], deliveries[j].message);
      assert rows[j] == rows[i];
    }
  }

  // ---------------------------------------------------------------- what becomes of a later copy

  lemma {:induction false} ConsumeAppend(c: Cache, deliveries: seq<Delivery>, d: Delivery)
    ensures Consume(c, deliveries + [d]) == Process(Consume(c, deliveries), d.message, d.completes)
    decreases |deliveries|
  {
    if deliveries == [] {
      assert deliveries + [d] == [d] && [d][1..] == [];
    } else {
      assert (deliveries + [d])[1..] == deliveries[1..] + [d];
      ConsumeAppend(Process(c, deliveries[0].message, deliveries[0].completes), deliveries[1..], d);
    }
  }

  lemma {:induction false} ClearsGrow(c: Cache, deliveries: seq<Delivery>, n: nat)
    requires n <= |deliveries|
    ensures Consume(c, deliveries[..n]).clears <= Consume(c, deliveries).clears
    decreases |deliveries|
  {
    if n == |deliveries| {
      assert deliveries[..n] == deliveries;
    } else {
      var front, d := deliveries[..|deliveries| - 1], deliveries[|deliveries| - 1];
      assert deliveries == front + [d] && deliveries[..n] == front[..n];
      ClearsGrow(c, front, n);
      ConsumeAppend(c, front, d);
    }
  }

  /** Delivery n ran the pair, and the cache has not been flushed by it or since. */
  ghost predicate RanUnflushed(c: Cache, deliveries: seq<Delivery>, n: nat, key: Key)
    requires n < |deliveries|
  {
    var before := Consume(c, deliveries[..n]);
    && RunsKey(FateOf(before.seen, deliveries[n].message, deliveries[n].completes), key)
    && before.clears == Consume(c, deliveries).clears
  }

  /** The pair was run, with whatever outcome, since the last flush. */
  ghost predicate RunSinceFlush(c: Cache, deliveries: seq<Delivery>, key: Key) {
    exists n: nat :: n < |deliveries| && RanUnflushed(c, deliveries, n, key)
  }

  lemma RunSinceFlushAppend(c: Cache, front: seq<Delivery>, d: Delivery, key: Key)
    ensures var before := Consume(c, front); var all := front + [d]; var after := Consume(c, all);
            RunSinceFlush(c, all, key) <==>
            after.clears == before.clears && (RunSinceFlush(c, front, key) || RunsKey(FateOf(before.seen, d.message, d.completes), key))
  {
    var all := front + [d];
    var before, after := Consume(c, front), Consume(c, all);
    ConsumeAppend(c, front, d);
    assert all[..|front|] == front;
    forall n: nat | n < |front|
      ensures RanUnflushed(c, all, n, key) <==> RanUnflushed(c, front, n, key) && after.clears == before.clears
    {
      assert all[..n] == front[..n] && all[n] == front[n];
      ClearsGrow(c, front, n);
    }
    assert RanUnflushed(c, all, |front|, key) <==>
           RunsKey(FateOf(before.seen, d.message, d.completes), key) && before.clears == after.clears;
    if RunSinceFlush(c, front, key) {
      var n: nat :| n < |front| && RanUnflushed(c, front, n, key);
      assert RanUnflushed(c, all, n, key) <==> after.clears == before.clears;
    }
  }

  /** The cache holds exactly the pairs run since the last flush. */
  lemma {:induction false} SeenIff(c: Cache, deliveries: seq<Delivery>, key: Key)
    requires c.seen == {}
    ensures key in Consume(c, deliveries).seen <==> RunSinceFlush(c, deliveries, key)
    decreases |deliveries|
  {
    if deliveries != [] {
      var front, d := deliveries[..|deliveries| - 1], deliveries[|deliveries| - 1];
      assert deliveries == front + [d];
      SeenIff(c, front, key);
      ConsumeAppend(c, front, d);
      RunSinceFlushAppend(c, front, d, key);
    }
  }

  /** After every sequence of deliveries, a copy of a message is dropped if and only if its pair was run since the last flush. */
  lemma CopyIsDroppedIff(deliveries: seq<Delivery>, m: Message, completes: bool)
    requires m.incident.Some? && m.wellFormed
    ensures FateOf(Consume(FRESH, deliveries).seen, m, completes) ==
            if RunSinceFlush(FRESH, deliveries, KeyOf(m)) then Duplicate(KeyOf(m)) else Ran(KeyOf(m), completes)
  {
    SeenIff(FRESH, deliveries, KeyOf(m));
  }

  /** A run that failed leaves its entry unacknowledged; a copy published again is nevertheless acknowledged without a run,
      whatever was delivered in between, exactly when its pair was run since the last flush, and so whenever the cache was not
      flushed by the failing run or after it. */
  lemma FailedRunIsNotRetried(before: seq<Delivery>, m: Message, between: seq<Delivery>, completes: bool)
    requires FateOf(Consume(FRESH, before).seen, m, false).Ran?
    ensures var all := before + [Delivery(m, false)] + between; var c := Consume(FRESH, all);
            && |c.log| == |all| && c.log[|before|] == Ran(KeyOf(m), false) && !Acknowledged(c.log[|before|])
            && FateOf(c.seen, m, completes) == (if RunSinceFlush(FRESH, all, KeyOf(m)) then Duplicate(KeyOf(m)) else Ran(KeyOf(m), completes))
            && (c.clears == Consume(FRESH, before).clears ==> FateOf(c.seen, m, completes) == Duplicate(KeyOf(m)))
  {
    var failed := before + [Delivery(m, false)];
    var all := failed + between;
    var c := Consume(FRESH, all);
    CopyIsDroppedIff(all, m, completes);
    ConsumeAppend(FRESH, before, Delivery(m, false));
    ConsumeThen(FRESH, failed, between);
    ConsumeLog(FRESH, before);
    ConsumeLog(FRESH, failed);
    ConsumeLog(FRESH, all);
    ConsumeLog(Consume(FRESH, failed), between);
    assert Consume(FRESH, failed).log[|before|] == Ran(KeyOf(m), false);
    assert all[..|before|] == before && all[|before|] == Delivery(m, false);
    assert c.clears == Consume(FRESH, before).clears ==> RanUnflushed(FRESH, all, |before|, KeyOf(m));
  }

  lemma {:induction false} ConsumeThen(c: Cache, a: seq<Delivery>, b: seq<Delivery>)
    ensures Consume(c, a + b) == Consume(Consume(c, a), b)
    decreases |a|
  {
    if a == [] {
      assert a + b == b;
    } else {
      assert (a + b)[1..] == a[1..] + b;
      ConsumeThen(Process(c, a[0].message, a[0].completes), a[1..], b);
    }
  }
}
