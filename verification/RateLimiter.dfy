/** The in-memory sliding-window rate limiter. */
module RateLimiter {
  import opened Prelude

  type Hits = map<string, seq<real>>

  datatype Action = Ask(key: string, max: int, window: real, now: real) | Reset(only: Option<string>)

  function Get(h: Hits, key: string): seq<real> {
    if key in h then h[key] else []
  }

  /** The timestamps after a cutoff. */
  function Since(ts: seq<real>, cutoff: real): seq<real> {
    if ts == [] then []
    else if ts[|ts| - 1] > cutoff then Since(ts[..|ts| - 1], cutoff) + [ts[|ts| - 1]]
    else Since(ts[..|ts| - 1], cutoff)
  }

  function Clear(h: Hits, key: Option<string>): Hits {
    if key.Some? && key.value != "" then h - {key.value} else map[]
  }

  /** One call of the limiter as it is: it keeps only the entries of the current window. */
  function Pruned(h: Hits, a: Action): (Hits, bool) {
    match a
    case Ask(key, max, window, now) =>
      var valid := Since(Get(h, key), now - window);
      if |valid| >= max then (h[key := valid], false) else (h[key := valid + [now]], true)
    case Reset(key) => (Clear(h, key), true)
  }

  /** The reference limiter: it remembers every call it allowed since the last reset. */
  function Remembering(h: Hits, a: Action): (Hits, bool) {
    match a
    case Ask(key, max, window, now) =>
      if |Since(Get(h, key), now - window)| >= max then (h, false) else (h[key := Get(h, key) + [now]], true)
    case Reset(key) => (Clear(h, key), true)
  }

  function PrunedRun(h: Hits, actions: seq<Action>): seq<bool>
    decreases |actions|
  {
    if actions == [] then [] else [Pruned(h, actions[0]).1] + PrunedRun(Pruned(h, actions[0]).0, actions[1..])
  }

  function RememberingRun(h: Hits, actions: seq<Action>): seq<bool>
    decreases |actions|
  {
    if actions == [] then [] else [Remembering(h, actions[0]).1] + RememberingRun(Remembering(h, actions[0]).0, actions[1..])
  }

  // ---------------------------------------------------------------- the object

  class InMemoryRateLimiter {
    var hits: Hits

    constructor ()
      ensures hits == map[]
    {
      hits := map[];
    }

    method IsAllowed(key: string, max: int, window: real, now: real) returns (allowed: bool)
      modifies this
      ensures (hits, allowed) == Pruned(old(hits), Ask(key, max, window, now))
    {
      var cutoff := now - window;
      var timestamps := Get(hits, key);
      var valid: seq<real> := [];
      for i := 0 to |timestamps|
        invariant valid == Since(timestamps[..i], cutoff)
      {
        assert timestamps[..i + 1][..i] == timestamps[..i];
        if timestamps[i] > cutoff {
          valid := valid + [timestamps[i]];
        }
      }
      assert timestamps[..|timestamps|] == timestamps;
      if |valid| >= max {
        hits := hits[key := valid];
        return false;
      }
      valid := valid + [now];
      hits := hits[key := valid];
      allowed := true;
    }

    method ResetKey(key: Option<string>)
      modifies this
      ensures hits == Pruned(old(hits), Reset(key)).0
    {
      if key.Some? && key.value != "" {
        hits := hits - {key.value};
      } else {
        hits := map[];
      }
    }
  }

  // ---------------------------------------------------------------- pruning is invisible

  lemma {:induction false} SinceSince(ts: seq<real>, c: real, d: real)
    requires c <= d
    ensures Since(Since(ts, c), d) == Since(ts, d)
    decreases |ts|
  {
    if ts != [] {
      var front, last := ts[..|ts| - 1], ts[|ts| - 1];
      SinceSince(front, c, d);
      if last > c {
        SinceAppend(Since(front, c), last, d);
      }
    }
  }

  lemma SinceAppend(ts: seq<real>, t: real, c: real)
    ensures Since(ts + [t], c) == if t > c then Since(ts, c) + [t] else Since(ts, c)
  {
    assert (ts + [t])[..|ts|] == ts;
  }

  /** From a cutoff on, both lists hold the same entries. */
  ghost predicate Agree(p: seq<real>, f: seq<real>, cutoff: real) {
    forall c: real :: c >= cutoff ==> Since(p, c) == Since(f, c)
  }

  lemma AgreeAt(p: seq<real>, f: seq<real>, cutoff: real, c: real)
    requires Agree(p, f, cutoff) && c >= cutoff
    ensures Since(p, c) == Since(f, c)
  {
  }

  /** Pruning and appending keep the agreement from the new cutoff on. */
  lemma AgreePruned(p: seq<real>, f: seq<real>, last: real, cutoff: real, t: real)
    requires Agree(p, f, last) && last <= cutoff
    ensures Since(p, cutoff) == Since(f, cutoff)
    ensures Agree(Since(p, cutoff), f, cutoff) && Agree(Since(p, cutoff) + [t], f + [t], cutoff)
  {
    var valid := Since(p, cutoff);
    forall c: real | c >= cutoff ensures Since(valid, c) == Since(f, c) && Since(valid + [t], c) == Since(f + [t], c) {
      SinceSince(p, cutoff, c);
      AgreeAt(p, f, last, c);
      SinceAppend(valid, t, c);
      SinceAppend(f, t, c);
    }
  }

  /** One decision on each of two lists that agree: the same answer, and they still agree. */
  lemma AgreeStep(p: seq<real>, f: seq<real>, p': seq<real>, f': seq<real>, last: real, cutoff: real, max: int, t: real)
    requires Agree(p, f, last) && last <= cutoff
    requires p' == if |Since(p, cutoff)| < max then Since(p, cutoff) + [t] else Since(p, cutoff)
    requires f' == if |Since(f, cutoff)| < max then f + [t] else f
    ensures |Since(p, cutoff)| == |Since(f, cutoff)| && Agree(p', f', cutoff)
  {
    AgreePruned(p, f, last, cutoff, t);
  }

  /** The cutoffs asked for so far, per key. */
  type Cutoffs = map<string, real>

  function NextCutoffs(last: Cutoffs, a: Action): Cutoffs {
    match a
    case Ask(key, _, window, now) => last[key := now - window]
    case Reset(only) => if only.Some? && only.value != "" then last - {only.value} else map[]
  }

  predicate Onward(last: Cutoffs, a: Action) {
    a.Ask? && a.key in last ==> last[a.key] <= a.now - a.window
  }

  /** The cutoff of a key never moves backwards between resets, as under one window and a monotone clock. */
  predicate Forward(last: Cutoffs, actions: seq<Action>)
    decreases |actions|
  {
    actions == [] || (Onward(last, actions[0]) && Forward(NextCutoffs(last, actions[0]), actions[1..]))
  }

  ghost predicate Alike(last: Cutoffs, p: Hits, f: Hits, key: string) {
    if key in last then Agree(Get(p, key), Get(f, key), last[key]) else Get(p, key) == Get(f, key)
  }

  lemma PrunedAsk(h: Hits, key: string, max: int, window: real, now: real)
    ensures var (next, ok) := Pruned(h, Ask(key, max, window, now));
            var valid := Since(Get(h, key), now - window);
            ok == (|valid| < max) && Get(next, key) == if ok then valid + [now] else valid
  {
  }

  lemma RememberingAsk(h: Hits, key: string, max: int, window: real, now: real)
    ensures var (next, ok) := Remembering(h, Ask(key, max, window, now));
            ok == (|Since(Get(h, key), now - window)| < max) && Get(next, key) == if ok then Get(h, key) + [now] else Get(h, key)
  {
  }

  lemma AskAlike(last: Cutoffs, p: Hits, f: Hits, a: Action)
    requires a.Ask? && Alike(last, p, f, a.key) && Onward(last, a)
    ensures Pruned(p, a).1 == Remembering(f, a).1
    ensures Agree(Get(Pruned(p, a).0, a.key), Get(Remembering(f, a).0, a.key), a.now - a.window)
  {
    var cutoff := a.now - a.window;
    PrunedAsk(p, a.key, a.max, a.window, a.now);
    RememberingAsk(f, a.key, a.max, a.window, a.now);
    AgreeStep(Get(p, a.key), Get(f, a.key), Get(Pruned(p, a).0, a.key), Get(Remembering(f, a).0, a.key),
              if a.key in last then last[a.key] else cutoff, cutoff, a.max, a.now);
  }

  lemma AlikeStep(last: Cutoffs, p: Hits, f: Hits, a: Action)
    requires (forall k :: Alike(last, p, f, k)) && Onward(last, a)
    ensures Pruned(p, a).1 == Remembering(f, a).1
    ensures forall k :: Alike(NextCutoffs(last, a), Pruned(p, a).0, Remembering(f, a).0, k)
  {
    if a.Ask? {
      assert Alike(last, p, f, a.key);
      AskAlike(last, p, f, a);
    }
    forall k ensures Alike(NextCutoffs(last, a), Pruned(p, a).0, Remembering(f, a).0, k) {
      assert Alike(last, p, f, k);
    }
  }

  /** The pruned lists decide exactly as the full record of allowed calls would, over every run of any keys, limits and resets
      in which cutoffs do not move backwards. */
  lemma {:induction false} PruningIsInvisible(last: Cutoffs, p: Hits, f: Hits, actions: seq<Action>)
    requires (forall k :: Alike(last, p, f, k)) && Forward(last, actions)
    ensures PrunedRun(p, actions) == RememberingRun(f, actions)
    decreases |actions|
  {
    if actions != [] {
      AlikeStep(last, p, f, actions[0]);
      PruningIsInvisible(NextCutoffs(last, actions[0]), Pruned(p, actions[0]).0, Remembering(f, actions[0]).0, actions[1..]);
    }
  }

  lemma DecidesAsRecord(actions: seq<Action>)
    requires Forward(map[], actions)
    ensures PrunedRun(map[], actions) == RememberingRun(map[], actions)
  {
    PruningIsInvisible(map[], map[], map[], actions);
  }

  // ---------------------------------------------------------------- two windows for one key

  lemma PrunedThree(h: Hits, a: Action, h1: Hits, b: Action, h2: Hits, c: Action)
    requires Pruned(h, a) == (h1, true) && Pruned(h1, b) == (h2, true)
    ensures PrunedRun(h, [a, b, c]) == [true, true, Pruned(h2, c).1]
  {
    assert [a, b, c][1..] == [b, c] && [b, c][1..] == [c] && [c][1..] == [];
    assert PrunedRun(h2, [c]) == [Pruned(h2, c).1];
    assert PrunedRun(h1, [b, c]) == [true] + PrunedRun(h2, [c]);
  }

  lemma RememberingThree(h: Hits, a: Action, h1: Hits, b: Action, h2: Hits, c: Action)
    requires Remembering(h, a) == (h1, true) && Remembering(h1, b) == (h2, true)
    ensures RememberingRun(h, [a, b, c]) == [true, true, Remembering(h2, c).1]
  {
    assert [a, b, c][1..] == [b, c] && [b, c][1..] == [c] && [c][1..] == [];
    assert RememberingRun(h2, [c]) == [Remembering(h2, c).1];
    assert RememberingRun(h1, [b, c]) == [true] + RememberingRun(h2, [c]);
  }

  lemma SinceOne(x: real, c: real)
    ensures Since([x], c) == if x > c then [x] else []
  {
    assert [x][..0] == [];
  }

  lemma SinceTwo(x: real, y: real, c: real)
    requires x > c && y > c
    ensures Since([x, y], c) == [x, y]
  {
    SinceOne(x, c);
    assert [x, y][..1] == [x];
  }

  /** The instant at which the shorter window has just dropped a call made at time 0. */
  function Lapse(short: real): real {
    if short > 0.0 then short else 0.0
  }

  function Forgetting(key: string, short: real, long: real): seq<Action> {
    [Ask(key, 1, long, 0.0), Ask(key, 1, short, Lapse(short)), Ask(key, 2, long, Lapse(short))]
  }

  /** Two windows for one key break the limit: asking once with the shorter one makes the limiter forget a call that the
      longer one still counts. */
  lemma ShorterWindowForgets(short: real, long: real, key: string)
    requires short < long && 0.0 < long
    ensures PrunedRun(map[], Forgetting(key, short, long)) == [true, true, true]
    ensures RememberingRun(map[], Forgetting(key, short, long)) == [true, true, false]
  {
    PrunedForgets(short, long, key);
    RecordRemembers(short, long, key);
  }

  lemma PrunedForgets(short: real, long: real, key: string)
    requires short < long && 0.0 < long
    ensures PrunedRun(map[], Forgetting(key, short, long)) == [true, true, true]
  {
    var t := Lapse(short);
    PrunedAsk(map[], key, 1, long, 0.0);
    var h := Pruned(map[], Ask(key, 1, long, 0.0)).0;
    assert Get(h, key) == [0.0];
    SinceOne(0.0, t - short);
    PrunedAsk(h, key, 1, short, t);
    var g := Pruned(h, Ask(key, 1, short, t)).0;
    assert Get(g, key) == [t];
    SinceOne(t, t - long);
    PrunedAsk(g, key, 2, long, t);
    PrunedThree(map[], Ask(key, 1, long, 0.0), h, Ask(key, 1, short, t), g, Ask(key, 2, long, t));
  }

  lemma RecordRemembers(short: real, long: real, key: string)
    requires short < long && 0.0 < long
    ensures RememberingRun(map[], Forgetting(key, short, long)) == [true, true, false]
  {
    var t := Lapse(short);
    RememberingAsk(map[], key, 1, long, 0.0);
    var h := Remembering(map[], Ask(key, 1, long, 0.0)).0;
    assert Get(h, key) == [0.0];
    SinceOne(0.0, t - short);
    RememberingAsk(h, key, 1, short, t);
    var g := Remembering(h, Ask(key, 1, short, t)).0;
    assert Get(g, key) == [0.0, t];
    SinceTwo(0.0, t, t - long);
    RememberingAsk(g, key, 2, long, t);
    RememberingThree(map[], Ask(key, 1, long, 0.0), h, Ask(key, 1, short, t), g, Ask(key, 2, long, t));
  }

  // ---------------------------------------------------------------- the exact condition on the caller

  /** Which windows callers ask with, per key. */
  type Usage = (string, real) -> bool

  /** A run in which calls keep to the usage and the clock does not run backwards. */
  predicate Follows(uses: Usage, from: real, actions: seq<Action>)
    decreases |actions|
  {
    actions == [] ||
    (var a := actions[0];
     if a.Ask? then uses(a.key, a.window) && from <= a.now && Follows(uses, a.now, actions[1..])
     else Follows(uses, from, actions[1..]))
  }

  /** Every run of this usage is decided as the full record would decide it. */
  ghost predicate Exact(uses: Usage) {
    forall from: real, actions: seq<Action> :: Follows(uses, from, actions) ==> PrunedRun(map[], actions) == RememberingRun(map[], actions)
  }

  /** No key is asked about with two windows, unless neither spans any time. */
  ghost predicate OneWindow(uses: Usage) {
    forall k, x, y :: uses(k, x) && uses(k, y) && x < y ==> y <= 0.0
  }

  /** The span of the key's window; windows of no length span nothing. */
  ghost function Level(uses: Usage, k: string): (g: real)
    ensures g >= 0.0
    ensures OneWindow(uses) ==> forall w :: uses(k, w) ==> g == if w > 0.0 then w else 0.0
  {
    if w :| uses(k, w) && w > 0.0 then w else 0.0
  }

  ghost predicate AtMost(s: seq<real>, t: real) {
    forall i :: 0 <= i < |s| ==> s[i] <= t
  }

  lemma {:induction false} SinceAtMost(s: seq<real>, c: real, t: real)
    requires AtMost(s, t)
    ensures AtMost(Since(s, c), t) && (t <= c ==> Since(s, c) == [])
    decreases |s|
  {
    if s != [] {
      SinceAtMost(s[..|s| - 1], c, t);
    }
  }

  lemma NothingSince(p: seq<real>, f: seq<real>, t: real)
    requires AtMost(p, t) && AtMost(f, t)
    ensures Agree(p, f, t)
  {
    forall c: real | c >= t ensures Since(p, c) == Since(f, c) {
      SinceAtMost(p, c, t);
      SinceAtMost(f, c, t);
    }
  }

  /** From the span before `t` on both lists hold the same entries, and none is later than `t`. */
  ghost predicate InStep(p: seq<real>, f: seq<real>, g: real, t: real) {
    Agree(p, f, t - g) && AtMost(p, t) && AtMost(f, t)
  }

  lemma AtMostAsk(p: seq<real>, f: seq<real>, p': seq<real>, f': seq<real>, t: real, cutoff: real, max: int, now: real)
    requires AtMost(p, t) && AtMost(f, t) && t <= now
    requires p' == if |Since(p, cutoff)| < max then Since(p, cutoff) + [now] else Since(p, cutoff)
    requires f' == if |Since(f, cutoff)| < max then f + [now] else f
    ensures AtMost(p', now) && AtMost(f', now)
  {
    SinceAtMost(p, cutoff, t);
  }

  lemma InStepAsk(p: seq<real>, f: seq<real>, p': seq<real>, f': seq<real>, g: real, t: real, cutoff: real, max: int, now: real)
    requires InStep(p, f, g, t) && t <= now && (cutoff == now - g || (g == 0.0 && cutoff >= now))
    requires p' == if |Since(p, cutoff)| < max then Since(p, cutoff) + [now] else Since(p, cutoff)
    requires f' == if |Since(f, cutoff)| < max then f + [now] else f
    ensures |Since(p, cutoff)| == |Since(f, cutoff)| && InStep(p', f', g, now)
  {
    AgreeStep(p, f, p', f', t - g, cutoff, max, now);
    AtMostAsk(p, f, p', f', t, cutoff, max, now);
    if cutoff != now - g {
      NothingSince(p', f', now);
    }
  }

  ghost predicate AllInStep(uses: Usage, p: Hits, f: Hits, t: real) {
    forall k :: InStep(Get(p, k), Get(f, k), Level(uses, k), t)
  }

  lemma InStepLater(p: seq<real>, f: seq<real>, g: real, t: real, now: real)
    requires InStep(p, f, g, t) && t <= now
    ensures InStep(p, f, g, now)
  {
  }

  lemma AskOwnKey(p: Hits, f: Hits, g: real, t: real, a: Action)
    requires a.Ask? && InStep(Get(p, a.key), Get(f, a.key), g, t) && t <= a.now && g == if a.window > 0.0 then a.window else 0.0
    ensures Pruned(p, a).1 == Remembering(f, a).1
    ensures InStep(Get(Pruned(p, a).0, a.key), Get(Remembering(f, a).0, a.key), g, a.now)
  {
    PrunedAsk(p, a.key, a.max, a.window, a.now);
    RememberingAsk(f, a.key, a.max, a.window, a.now);
    InStepAsk(Get(p, a.key), Get(f, a.key), Get(Pruned(p, a).0, a.key), Get(Remembering(f, a).0, a.key), g, t,
              a.now - a.window, a.max, a.now);
  }

  lemma AskOtherKey(p: Hits, f: Hits, a: Action, k: string)
    requires a.Ask? && k != a.key
    ensures Get(Pruned(p, a).0, k) == Get(p, k) && Get(Remembering(f, a).0, k) == Get(f, k)
  {
  }

  lemma AllInStepAsk(uses: Usage, p: Hits, f: Hits, t: real, a: Action)
    requires OneWindow(uses) && AllInStep(uses, p, f, t) && a.Ask? && uses(a.key, a.window) && t <= a.now
    ensures Pruned(p, a).1 == Remembering(f, a).1
    ensures AllInStep(uses, Pruned(p, a).0, Remembering(f, a).0, a.now)
  {
    var p', f' := Pruned(p, a).0, Remembering(f, a).0;
    AskOwnKey(p, f, Level(uses, a.key), t, a);
    forall k ensures InStep(Get(p', k), Get(f', k), Level(uses, k), a.now) {
      if k != a.key {
        AskOtherKey(p, f, a, k);
        InStepLater(Get(p, k), Get(f, k), Level(uses, k), t, a.now);
      }
    }
  }

  lemma AllInStepReset(uses: Usage, p: Hits, f: Hits, t: real, a: Action)
    requires AllInStep(uses, p, f, t) && a.Reset?
    ensures AllInStep(uses, Pruned(p, a).0, Remembering(f, a).0, t)
  {
    forall k ensures InStep(Get(Pruned(p, a).0, k), Get(Remembering(f, a).0, k), Level(uses, k), t) {
      assert InStep(Get(p, k), Get(f, k), Level(uses, k), t);
    }
  }

  lemma {:induction false} RunInStep(uses: Usage, p: Hits, f: Hits, t: real, actions: seq<Action>)
    requires OneWindow(uses) && AllInStep(uses, p, f, t) && Follows(uses, t, actions)
    ensures PrunedRun(p, actions) == RememberingRun(f, actions)
    decreases |actions|
  {
    if actions != [] {
      var a := actions[0];
      if a.Ask? {
        AllInStepAsk(uses, p, f, t, a);
        RunInStep(uses, Pruned(p, a).0, Remembering(f, a).0, a.now, actions[1..]);
      } else {
        AllInStepReset(uses, p, f, t, a);
        RunInStep(uses, Pruned(p, a).0, Remembering(f, a).0, t, actions[1..]);
      }
    }
  }

  lemma ForgettingFollows(uses: Usage, key: string, short: real, long: real)
    requires uses(key, short) && uses(key, long)
    ensures Follows(uses, 0.0, Forgetting(key, short, long))
  {
    var run := Forgetting(key, short, long);
    assert run[1..][1..] == [run[2]] && run[1..][1..][1..] == [];
    assert Follows(uses, Lapse(short), run[1..][1..]);
    assert Follows(uses, 0.0, run[1..]);
  }

  /** Exactly when the limiter keeps its promise: under a clock that does not run backwards, every run of a usage is decided as
      the full record of allowed calls would decide it if and only if no key is asked about with two windows. */
  lemma ExactIffOneWindow(uses: Usage)
    ensures Exact(uses) <==> OneWindow(uses)
  {
    if OneWindow(uses) {
      forall from: real, actions: seq<Action> | Follows(uses, from, actions)
        ensures PrunedRun(map[], actions) == RememberingRun(map[], actions)
      {
        RunInStep(uses, map[], map[], from, actions);
      }
    } else {
      var k, x, y :| uses(k, x) && uses(k, y) && x < y && y > 0.0;
      ForgettingFollows(uses, k, x, y);
      ShorterWindowForgets(x, y, k);
    }
  }

  /** One window per key and a clock that does not run backwards give cutoffs that never move backwards. */
  lemma {:induction false} OneWindowIsForward(uses: Usage, last: Cutoffs, from: real, actions: seq<Action>)
    requires forall k, x, y :: uses(k, x) && uses(k, y) ==> x == y
    requires forall k, w :: k in last && uses(k, w) ==> last[k] <= from - w
    requires Follows(uses, from, actions)
    ensures Forward(last, actions)
    decreases |actions|
  {
    if actions != [] {
      var a := actions[0];
      OneWindowIsForward(uses, NextCutoffs(last, a), if a.Ask? then a.now else from, actions[1..]);
    }
  }

  // ---------------------------------------------------------------- the promised limit

  /** The timestamps in (t - window, t]. */
  function Within(ts: seq<real>, window: real, t: real): nat {
    if ts == [] then 0
    else Within(ts[..|ts| - 1], window, t) + if t - window < ts[|ts| - 1] <= t then 1 else 0
  }

  lemma {:induction false} WithinAtMostSince(ts: seq<real>, window: real, t: real, now: real)
    requires now <= t
    ensures Within(ts, window, t) <= |Since(ts, now - window)|
    decreases |ts|
  {
    if ts != [] {
      WithinAtMostSince(ts[..|ts| - 1], window, t, now);
    }
  }

  /** Every call about `key` uses this limit and this window, and the clock does not run backwards. */
  predicate Uniform(key: string, max: int, window: real, from: real, actions: seq<Action>)
    decreases |actions|
  {
    actions == [] ||
    (var a := actions[0];
     if a.Ask? && a.key == key then a.max == max && a.window == window && from <= a.now && Uniform(key, max, window, a.now, actions[1..])
     else Uniform(key, max, window, from, actions[1..]))
  }

  /** The log of the times at which the key was let through, after one more action: a reset of the key starts it afresh. */
  function Logged(h: Hits, key: string, log: seq<real>, a: Action): seq<real> {
    match a
    case Ask(k, _, _, now) => if k == key && Pruned(h, a).1 then log + [now] else log
    case Reset(only) => if only.Some? && only.value != "" && only.value != key then log else []
  }

  function AllowedTimes(h: Hits, key: string, log: seq<real>, actions: seq<Action>): seq<real>
    decreases |actions|
  {
    if actions == [] then log
    else AllowedTimes(Pruned(h, actions[0]).0, key, Logged(h, key, log, actions[0]), actions[1..])
  }

  ghost predicate Limited(ts: seq<real>, max: int, window: real) {
    forall t: real :: Within(ts, window, t) <= max
  }

  lemma AppendKeepsLimit(ts: seq<real>, max: int, window: real, now: real)
    requires Limited(ts, max, window) && |Since(ts, now - window)| < max
    ensures Limited(ts + [now], max, window)
  {
    forall t: real ensures Within(ts + [now], window, t) <= max {
      assert (ts + [now])[..|ts|] == ts;
      assert Within(ts, window, t) <= max;
      if now <= t {
        WithinAtMostSince(ts, window, t, now);
      }
    }
  }

  /** One call about the key keeps the limit, and the agreement of the kept entries with the log. */
  lemma AskKeepsLimit(h: Hits, key: string, max: int, window: real, from: real, log: seq<real>, now: real)
    requires Limited(log, max, window) && Agree(Get(h, key), log, from - window) && from <= now
    ensures var (next, ok) := Pruned(h, Ask(key, max, window, now));
            var logged := if ok then log + [now] else log;
            Limited(logged, max, window) && Agree(Get(next, key), logged, now - window)
  {
    PrunedAsk(h, key, max, window, now);
    var ok := Pruned(h, Ask(key, max, window, now)).1;
    var next := Pruned(h, Ask(key, max, window, now)).0;
    AgreePruned(Get(h, key), log, from - window, now - window, now);
    AgreeStep(Get(h, key), log, Get(next, key), if ok then log + [now] else log, from - window, now - window, max, now);
    if |Since(log, now - window)| < max {
      AppendKeepsLimit(log, max, window, now);
    }
  }

  lemma {:induction false} LimitHolds(h: Hits, key: string, max: nat, window: real, from: real, log: seq<real>, actions: seq<Action>)
    requires Uniform(key, max, window, from, actions)
    requires Limited(log, max, window) && Agree(Get(h, key), log, from - window)
    ensures Limited(AllowedTimes(h, key, log, actions), max, window)
    decreases |actions|
  {
    if actions != [] {
      var a := actions[0];
      var next, logged := Pruned(h, a).0, Logged(h, key, log, a);
      if a.Ask? && a.key == key {
        AskKeepsLimit(h, key, max, window, from, log, a.now);
        LimitHolds(next, key, max, window, a.now, logged, actions[1..]);
      } else {
        assert (Get(next, key) == Get(h, key) && logged == log) || (Get(next, key) == [] && logged == []);
        LimitHolds(next, key, max, window, from, logged, actions[1..]);
      }
    }
  }

  lemma {:induction false} SinceIsWithin(ts: seq<real>, window: real, now: real)
    requires AtMost(ts, now)
    ensures |Since(ts, now - window)| == Within(ts, window, now)
    decreases |ts|
  {
    if ts != [] {
      SinceIsWithin(ts[..|ts| - 1], window, now);
    }
  }

  /** What the limiter keeps after a run. */
  function After(h: Hits, actions: seq<Action>): Hits
    decreases |actions|
  {
    if actions == [] then h else After(Pruned(h, actions[0]).0, actions[1..])
  }

  /** The kept entries agree with the log from the last cutoff on, and the log is not ahead of the clock. */
  ghost predicate InTime(h: Hits, key: string, log: seq<real>, window: real, from: real) {
    Agree(Get(h, key), log, from - window) && AtMost(log, from)
  }

  lemma AskInTime(h: Hits, key: string, max: int, window: real, from: real, log: seq<real>, now: real)
    requires InTime(h, key, log, window, from) && from <= now
    ensures var a := Ask(key, max, window, now);
            && (Pruned(h, a).1 <==> Within(log, window, now) < max)
            && InTime(Pruned(h, a).0, key, Logged(h, key, log, a), window, now)
  {
    var a := Ask(key, max, window, now);
    PrunedAsk(h, key, max, window, now);
    AgreePruned(Get(h, key), log, from - window, now - window, now);
    AgreeStep(Get(h, key), log, Get(Pruned(h, a).0, key), Logged(h, key, log, a), from - window, now - window, max, now);
    SinceIsWithin(log, window, now);
  }

  lemma {:induction false} DecidedByWindow(h: Hits, key: string, max: int, window: real, from: real, log: seq<real>, before: seq<Action>, now: real)
    requires Uniform(key, max, window, from, before + [Ask(key, max, window, now)]) && InTime(h, key, log, window, from)
    ensures Pruned(After(h, before), Ask(key, max, window, now)).1 <==> Within(AllowedTimes(h, key, log, before), window, now) < max
    decreases |before|
  {
    if before == [] {
      assert before + [Ask(key, max, window, now)] == [Ask(key, max, window, now)];
      AskInTime(h, key, max, window, from, log, now);
    } else {
      var a := before[0];
      assert (before + [Ask(key, max, window, now)])[1..] == before[1..] + [Ask(key, max, window, now)];
      var next, logged := Pruned(h, a).0, Logged(h, key, log, a);
      if a.Ask? && a.key == key {
        AskInTime(h, key, max, window, from, log, a.now);
        DecidedByWindow(next, key, max, window, a.now, logged, before[1..], now);
      } else {
        assert (Get(next, key) == Get(h, key) && logged == log) || (Get(next, key) == [] && logged == []);
        DecidedByWindow(next, key, max, window, from, logged, before[1..], now);
      }
    }
  }

  /** After any run with one limit and window for the key, a call is allowed if and only if fewer than `max` calls of the key were
      allowed in (now - window, now] since its last reset. */
  lemma AllowedIff(key: string, max: int, window: real, from: real, before: seq<Action>, now: real)
    requires Uniform(key, max, window, from, before + [Ask(key, max, window, now)])
    ensures Pruned(After(map[], before), Ask(key, max, window, now)).1 <==> Within(AllowedTimes(map[], key, [], before), window, now) < max
  {
    DecidedByWindow(map[], key, max, window, from, [], before, now);
  }

  /** Over every run, whatever other keys do: every window of the given length, at any offset, contains at most `max`
      allowed calls of the key since its last reset. */
  lemma WindowLimit(key: string, max: nat, window: real, from: real, actions: seq<Action>, t: real)
    requires Uniform(key, max, window, from, actions)
    ensures Within(AllowedTimes(map[], key, [], actions), window, t) <= max
  {
    LimitHolds(map[], key, max, window, from, [], actions);
  }
}
