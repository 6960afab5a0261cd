/** The independent verification loop and the decision taken on its verdict. */
module Verification {
  import opened Prelude
  import I = IncidentLifecycle

  datatype Status = Pass | Fail | Unknown

  datatype Checks = Checks(
    targetIdentity: Status, readiness: Status, cpuSaturation: Status,
    businessTraffic: Status, businessLatency: Status, alerts: Status)

  /** `all_passed`: an unknown check counts as a failed one. */
  predicate AllPassed(c: Checks) {
    c.targetIdentity.Pass? && c.readiness.Pass? && c.cpuSaturation.Pass?
    && c.businessTraffic.Pass? && c.businessLatency.Pass? && c.alerts.Pass?
  }

  /** Durations in whole seconds, as the profile schema has them; `required` comes from an unchecked dictionary. */
  datatype Profile = Profile(interval: int, window: int, minSamples: int, maxDuration: int, required: int)

  predicate WellFormed(p: Profile) {
    p.interval >= 1 && p.window >= 1 && p.minSamples >= 1 && p.maxDuration >= 1
  }

  const DEFAULT_PROFILE := Profile(15, 90, 7, 300, 3)

  /** What the loop meets: `clock(n)` is read before sample n is taken. */
  datatype Session = Session(start: Time, clock: nat -> Time, sample: nat -> Checks)

  // ---------------------------------------------------------------- what passing means

  predicate TimedOut(p: Profile, e: Session, n: nat) {
    e.clock(n) - e.start >= p.maxDuration * SECOND
  }

  /** Samples 0..n are all taken before the timeout. */
  ghost predicate Taken(p: Profile, e: Session, n: nat) {
    forall m: nat :: m <= n ==> !TimedOut(p, e, m)
  }

  /** Sample m ends a run of ready samples of the required length. */
  ghost predicate ReadyAt(p: Profile, e: Session, m: nat) {
    && p.required <= m + 1
    && forall i: nat :: m + 1 - p.required <= i <= m ==> e.sample(i).readiness.Pass?
  }

  ghost predicate Warm(p: Profile, e: Session, n: nat) {
    exists m: nat :: m <= n && ReadyAt(p, e, m)
  }

  ghost predicate Healthy(e: Session, from: nat, to: nat) {
    forall i: nat :: from <= i < to ==> AllPassed(e.sample(i))
  }

  function CeilDiv(a: int, b: int): (r: int)
    requires b > 0
    ensures r * b >= a && (r - 1) * b < a
  {
    (a + b - 1) / b
  }

  /** The number of consecutive healthy samples asked for. */
  function Needed(p: Profile): (k: int)
    requires WellFormed(p)
    ensures k * p.interval >= p.window && k >= p.minSamples
    ensures forall j: int :: j < k ==> j * p.interval < p.window || j < p.minSamples
  {
    var byWindow := CeilDiv(p.window, p.interval);
    var k := if byWindow >= p.minSamples then byWindow else p.minSamples;
    assert k * p.interval >= byWindow * p.interval by { MulMonotone(byWindow, k, p.interval); }
    assert forall j: int :: j < byWindow ==> j * p.interval < p.window by {
      forall j: int | j < byWindow ensures j * p.interval < p.window {
        MulMonotone(j, byWindow - 1, p.interval);
      }
    }
    k
  }

  lemma MulMonotone(a: int, b: int, c: int)
    requires a <= b && c >= 0
    ensures a * c <= b * c
  {
  }

  /** At sample n the last `Needed` samples all passed, and none of them precedes the end of the warm-up. */
  ghost predicate Sustained(p: Profile, e: Session, n: nat)
    requires WellFormed(p)
  {
    var k := Needed(p);
    k <= n + 1 && Healthy(e, n + 1 - k, n + 1) && Warm(p, e, n + 1 - k)
  }

  /** The declarative meaning of a passing session. */
  ghost predicate Recovers(p: Profile, e: Session)
    requires WellFormed(p)
  {
    exists n: nat :: Taken(p, e, n) && Sustained(p, e, n)
  }

  /** `s` is the length of the healthy streak that ends just before sample n. */
  ghost predicate Streak(p: Profile, e: Session, n: nat, s: nat) {
    && s <= n && Healthy(e, n - s, n)
    && (s > 0 ==> Warm(p, e, n - s))
    && (s < n ==> !AllPassed(e.sample(n - s - 1)) || !Warm(p, e, n - s - 1))
  }

  /** Sample m breaks a healthy streak: the one before it was healthy and counted, it is not. */
  ghost predicate Breaks(p: Profile, e: Session, m: nat) {
    m > 0 && Warm(p, e, m - 1) && AllPassed(e.sample(m - 1)) && !AllPassed(e.sample(m))
  }

  ghost function BreaksBefore(p: Profile, e: Session, n: nat): nat {
    if n == 0 then 0 else BreaksBefore(p, e, n - 1) + if Breaks(p, e, n - 1) then 1 else 0
  }

  // ---------------------------------------------------------------- the loop

  datatype Tally = Tally(passed: bool, samples: seq<Checks>, streak: nat, elapsed: int, resets: nat)

  /** The trailing run of ready samples, as the evaluator counts it. */
  ghost predicate ReadyRun(e: Session, n: nat, r: nat) {
    && r <= n && (forall i: nat :: n - r <= i < n ==> e.sample(i).readiness.Pass?)
    && (r < n ==> !e.sample(n - r - 1).readiness.Pass?)
  }

  lemma ReadyRunDecides(p: Profile, e: Session, n: nat, r: nat)
    requires ReadyRun(e, n + 1, r)
    ensures r >= p.required <==> ReadyAt(p, e, n)
  {
    if r < p.required && r < n + 1 {
      var broken: nat := n - r;
      assert !e.sample(broken).readiness.Pass?;
    }
  }

  lemma WarmLater(p: Profile, e: Session, m: nat, n: nat)
    requires m <= n && Warm(p, e, m)
    ensures Warm(p, e, n)
  {
  }

  /** A streak is long enough exactly when the session is sustained at its last sample. */
  lemma StreakDecides(p: Profile, e: Session, n: nat, s: nat)
    requires WellFormed(p) && Streak(p, e, n + 1, s)
    ensures Enough(p, s) <==> Sustained(p, e, n)
  {
    var k := Needed(p);
    if s >= k {
      MulMonotone(k, s, p.interval);
      WarmLater(p, e, n + 1 - s, n + 1 - k);
    } else {
      assert s * p.interval < p.window || s < p.minSamples;
      if k <= n + 1 {
        var before: nat := n - s;
        if AllPassed(e.sample(before)) {
          ColdEarlier(p, e, n + 1 - k, before);
        }
      }
    }
  }

  lemma ColdEarlier(p: Profile, e: Session, m: nat, n: nat)
    requires m <= n && !Warm(p, e, n)
    ensures !Warm(p, e, m)
  {
  }

  /** The loop's counters. */
  datatype Count = Count(ready: nat, warm: bool, streak: nat, resets: nat)

  function Next(p: Profile, c: Count, sample: Checks): Count {
    var ready := if sample.readiness.Pass? then c.ready + 1 else 0;
    var warm := c.warm || ready >= p.required;
    if !warm then Count(ready, false, 0, c.resets)
    else if AllPassed(sample) then Count(ready, true, c.streak + 1, c.resets)
    else Count(ready, true, 0, if c.streak > 0 then c.resets + 1 else c.resets)
  }

  function CountTo(p: Profile, e: Session, n: nat): Count {
    if n == 0 then Count(0, false, 0, 0) else Next(p, CountTo(p, e, n - 1), e.sample(n - 1))
  }

  /** The exit test. */
  predicate Enough(p: Profile, streak: int) {
    p.interval * streak >= p.window && streak >= p.minSamples
  }

  /** What the counters mean before sample n. */
  ghost predicate Means(p: Profile, e: Session, n: nat, c: Count) {
    && ReadyRun(e, n, c.ready)
    && c.warm == (n > 0 && Warm(p, e, n - 1))
    && Streak(p, e, n, c.streak)
    && c.resets == BreaksBefore(p, e, n)
  }

  lemma NextMeans(p: Profile, e: Session, n: nat, c: Count)
    requires Means(p, e, n, c)
    ensures Means(p, e, n + 1, Next(p, c, e.sample(n)))
  {
    var sample := e.sample(n);
    var next := Next(p, c, sample);
    assert ReadyRun(e, n + 1, next.ready);
    ReadyRunDecides(p, e, n, next.ready);
    WarmStep(p, e, n, c.warm);
    StreakStep(p, e, n, c.streak, next.streak);
    BreakStep(p, e, n, c.streak);
  }

  lemma {:induction false} CountMeans(p: Profile, e: Session, n: nat)
    ensures Means(p, e, n, CountTo(p, e, n))
  {
    if n > 0 {
      CountMeans(p, e, n - 1);
      NextMeans(p, e, n - 1, CountTo(p, e, n - 1));
    }
  }

  /** The exit test after sample n decides whether the session is sustained at sample n. */
  lemma EnoughDecides(p: Profile, e: Session, n: nat)
    requires WellFormed(p)
    ensures Enough(p, CountTo(p, e, n + 1).streak) <==> Sustained(p, e, n)
  {
    CountMeans(p, e, n + 1);
    StreakDecides(p, e, n, CountTo(p, e, n + 1).streak);
  }

  /** What a finished loop reports. A passing session stops at the first sustained sample, a failing one at the first
      reading of the clock past the limit. */
  ghost predicate Faithful(p: Profile, e: Session, t: Tally)
    requires WellFormed(p)
  {
    var n := |t.samples|;
    && (forall i :: 0 <= i < n ==> t.samples[i] == e.sample(i))
    && (forall m: nat :: m < n ==> !TimedOut(p, e, m))
    && (forall m: nat :: m + 1 < n ==> !Sustained(p, e, m))
    && (if t.passed then n > 0 && Sustained(p, e, n - 1) else TimedOut(p, e, n) && (n > 0 ==> !Sustained(p, e, n - 1)))
    && Streak(p, e, n, t.streak) && t.elapsed == p.interval * t.streak
    && t.resets == BreaksBefore(p, e, n)
  }

  ghost predicate Ran(p: Profile, e: Session, n: nat) {
    && (forall m: nat :: m < n ==> !TimedOut(p, e, m))
    && (forall m: nat :: m < n ==> !Enough(p, CountTo(p, e, m).streak))
  }

  lemma RanOn(p: Profile, e: Session, n: nat)
    requires Ran(p, e, n) && !TimedOut(p, e, n) && !Enough(p, CountTo(p, e, n).streak)
    ensures Ran(p, e, n + 1)
  {
  }

  lemma OneMore(interval: int, streak: int)
    ensures interval * (streak + 1) == interval * streak + interval
  {
  }

  lemma RanIsFaithful(p: Profile, e: Session, t: Tally)
    requires WellFormed(p) && Ran(p, e, |t.samples|)
    requires forall i :: 0 <= i < |t.samples| ==> t.samples[i] == e.sample(i)
    requires var c := CountTo(p, e, |t.samples|); t == Tally(Enough(p, c.streak), t.samples, c.streak, p.interval * c.streak, c.resets)
    requires t.passed || TimedOut(p, e, |t.samples|)
    ensures Faithful(p, e, t)
  {
    var n := |t.samples|;
    CountMeans(p, e, n);
    forall m: nat | m < n ensures Sustained(p, e, m) == Enough(p, CountTo(p, e, m + 1).streak) {
      EnoughDecides(p, e, m);
    }
    forall m: nat | m + 1 < n ensures !Sustained(p, e, m) {
      assert !Enough(p, CountTo(p, e, m + 1).streak);
    }
  }

  lemma RanMeans(p: Profile, e: Session, t: Tally)
    requires WellFormed(p) && Ran(p, e, |t.samples|)
    requires forall i :: 0 <= i < |t.samples| ==> t.samples[i] == e.sample(i)
    requires var c := CountTo(p, e, |t.samples|); t == Tally(Enough(p, c.streak), t.samples, c.streak, p.interval * c.streak, c.resets)
    requires t.passed || TimedOut(p, e, |t.samples|)
    ensures Faithful(p, e, t) && (t.passed <==> Recovers(p, e)) && (t.passed ==> GoodEnd(p, t.samples))
  {
    RanIsFaithful(p, e, t);
    FaithfulDecides(p, e, t);
    if t.passed {
      PassedSamples(p, e, t);
    }
  }

  /** `run_verification` up to the attribution check. `deadline` only witnesses that the clock reaches the timeout. */
  method RunLoop(p: Profile, e: Session, ghost deadline: nat) returns (t: Tally)
    requires WellFormed(p) && TimedOut(p, e, deadline)
    ensures t.passed <==> Recovers(p, e)
    ensures Faithful(p, e, t)
    ensures t.passed ==> GoodEnd(p, t.samples)
  {
    var samples: seq<Checks> := [];
    var ready, warm := 0, false;
    var elapsed, streak, resets, index := 0, 0, 0, 0;
    while e.clock(index) - e.start < p.maxDuration * SECOND
      invariant index == |samples| && index <= deadline
      invariant forall i :: 0 <= i < index ==> samples[i] == e.sample(i)
      invariant Ran(p, e, index) && !Enough(p, streak)
      invariant Count(ready, warm, streak, resets) == CountTo(p, e, index)
      invariant elapsed == p.interval * streak && (!warm ==> streak == 0)
      decreases deadline - index
    {
      RanOn(p, e, index);
      OneMore(p.interval, streak);
      var sample := e.sample(index);
      samples := samples + [sample];
      ready := if sample.readiness.Pass? then ready + 1 else 0;
      if !warm {
        if ready >= p.required {
          warm := true;
        } else {
          elapsed, streak := 0, 0;
        }
      }
      index := index + 1;
      if warm {
        if AllPassed(sample) {
          elapsed, streak := elapsed + p.interval, streak + 1;
          if elapsed >= p.window && streak >= p.minSamples {
            break;
          }
        } else {
          if elapsed > 0 || streak > 0 {
            resets := resets + 1;
          }
          elapsed, streak := 0, 0;
        }
      }
    }
    t := Tally(elapsed >= p.window && streak >= p.minSamples, samples, streak, elapsed, resets);
    RanMeans(p, e, t);
  }

  /** The last samples, as many as a pass counts, have all six checks at PASS: none failed, none unknown. */
  ghost predicate GoodEnd(p: Profile, samples: seq<Checks>)
    requires WellFormed(p)
  {
    && Needed(p) <= |samples|
    && forall i :: |samples| - Needed(p) <= i < |samples| ==> samples[i] == Checks(Pass, Pass, Pass, Pass, Pass, Pass)
  }

  lemma HealthyIsGood(e: Session, from: nat, to: nat, i: nat)
    requires Healthy(e, from, to) && from <= i < to
    ensures e.sample(i) == Checks(Pass, Pass, Pass, Pass, Pass, Pass)
  {
  }

  /** The samples that a pass counts are good in every check. */
  lemma PassedSamples(p: Profile, e: Session, t: Tally)
    requires WellFormed(p) && Faithful(p, e, t) && t.passed
    ensures GoodEnd(p, t.samples)
  {
    var n := |t.samples|;
    assert Sustained(p, e, n - 1);
    forall i | n - Needed(p) <= i < n ensures t.samples[i] == Checks(Pass, Pass, Pass, Pass, Pass, Pass) {
      HealthyIsGood(e, n - Needed(p), n, i);
    }
  }

  /** A sample with a check that failed or is unknown is in no counted streak. */
  lemma NotInStreak(p: Profile, e: Session, t: Tally, i: nat)
    requires WellFormed(p) && Faithful(p, e, t) && i < |t.samples| && t.samples[i] != Checks(Pass, Pass, Pass, Pass, Pass, Pass)
    ensures t.streak < |t.samples| - i
  {
    if t.streak >= |t.samples| - i {
      HealthyIsGood(e, |t.samples| - t.streak, |t.samples|, i);
    }
  }

  /** Before the first sample that a pass counts, or with it, ends a run of the required length with readiness at PASS. */
  lemma PassIsWarm(p: Profile, e: Session, n: nat) returns (m: nat)
    requires WellFormed(p) && Sustained(p, e, n)
    ensures m <= n + 1 - Needed(p) && p.required <= m + 1
    ensures forall i: nat :: m + 1 - p.required <= i <= m ==> e.sample(i).readiness == Pass
  {
    m :| m <= n + 1 - Needed(p) && ReadyAt(p, e, m);
  }

  /** One sample, on its checks: anything but six times PASS is in no streak, and once the warm-up is over it resets a running one;
      six times PASS after the warm-up extends the streak by one. */
  lemma SampleCounts(p: Profile, e: Session, n: nat)
    ensures var before, after := CountTo(p, e, n), CountTo(p, e, n + 1); var good := e.sample(n) == Checks(Pass, Pass, Pass, Pass, Pass, Pass);
            && (!good ==> after.streak == 0)
            && (after.resets == before.resets + 1 <==> !good && Warm(p, e, n) && before.streak > 0)
            && (after.resets == before.resets + 1 || after.resets == before.resets)
            && (good && Warm(p, e, n) ==> after.streak == before.streak + 1)
            && (!Warm(p, e, n) ==> after.streak == 0)
            && after.ready == if e.sample(n).readiness == Pass then before.ready + 1 else 0
  {
    CountMeans(p, e, n);
    CountMeans(p, e, n + 1);
  }

  lemma FaithfulDecides(p: Profile, e: Session, t: Tally)
    requires WellFormed(p) && Faithful(p, e, t)
    ensures t.passed <==> Recovers(p, e)
  {
    var n := |t.samples|;
    if t.passed {
      assert Taken(p, e, n - 1);
    } else {
      forall m: nat | Taken(p, e, m) ensures !Sustained(p, e, m) {
        assert m < n;
        if m + 1 < n {
          assert !Sustained(p, e, m);
        }
      }
    }
  }

  lemma WarmStep(p: Profile, e: Session, n: nat, wasWarm: bool)
    requires wasWarm == (n > 0 && Warm(p, e, n - 1))
    ensures Warm(p, e, n) <==> wasWarm || ReadyAt(p, e, n)
  {
    if Warm(p, e, n) && !ReadyAt(p, e, n) {
      var m: nat :| m <= n && ReadyAt(p, e, m);
      assert m <= n - 1;
    }
  }

  /** How one sample extends or ends the streak. */
  lemma StreakStep(p: Profile, e: Session, n: nat, s: nat, next: nat)
    requires Streak(p, e, n, s)
    requires next == if Warm(p, e, n) && AllPassed(e.sample(n)) then s + 1 else 0
    ensures Streak(p, e, n + 1, next)
  {
    if next > 0 && s == 0 && n > 0 {
      assert n + 1 - next - 1 == n - 1;
    }
  }

  lemma BreakStep(p: Profile, e: Session, n: nat, s: nat)
    requires Streak(p, e, n, s)
    ensures Breaks(p, e, n) <==> Warm(p, e, n) && !AllPassed(e.sample(n)) && s > 0
  {
    if n > 0 && s > 0 {
      WarmLater(p, e, n - s, n - 1);
    }
  }

  // ---------------------------------------------------------------- time

  /** Every sleep lasts at least the interval, and the clock does not start before the window. */
  ghost predicate Paced(p: Profile, e: Session) {
    e.clock(0) >= e.start && forall n: nat :: e.clock(n + 1) >= e.clock(n) + p.interval * SECOND
  }

  lemma {:induction false} PacedApart(p: Profile, e: Session, m: nat, n: nat)
    requires Paced(p, e) && m <= n
    ensures e.clock(n) - e.clock(m) >= (n - m) * (p.interval * SECOND)
    decreases n - m
  {
    if m < n {
      PacedApart(p, e, m, n - 1);
      assert e.clock((n - 1) + 1) >= e.clock(n - 1) + p.interval * SECOND;
    }
  }

  /** A paced session reaches its limit after at most ceil(maxDuration / interval) samples. */
  lemma PacedTimesOut(p: Profile, e: Session)
    requires WellFormed(p) && Paced(p, e)
    ensures TimedOut(p, e, CeilDiv(p.maxDuration, p.interval))
  {
    var n := CeilDiv(p.maxDuration, p.interval);
    PacedApart(p, e, 0, n);
    assert n * (p.interval * SECOND) == (n * p.interval) * SECOND;
  }

  lemma SampleBound(p: Profile, e: Session, t: Tally)
    requires WellFormed(p) && Paced(p, e) && Faithful(p, e, t)
    ensures |t.samples| <= CeilDiv(p.maxDuration, p.interval)
  {
    PacedTimesOut(p, e);
  }

  /** No session can pass before the warm-up and a full run of healthy samples. */
  lemma EarliestPass(p: Profile, e: Session, n: nat)
    requires WellFormed(p) && Sustained(p, e, n)
    ensures n + 1 >= Needed(p) && n + 2 >= Needed(p) + p.required
  {
    var m: nat :| m <= n + 1 - Needed(p) && ReadyAt(p, e, m);
  }

  /** The clock time between the first and the last counted sample of a pass at sample n. */
  ghost function Span(p: Profile, e: Session, n: nat): int
    requires WellFormed(p) && Needed(p) <= n + 1
  {
    e.clock(n) - e.clock(n + 1 - Needed(p))
  }

  /** Every pass of every paced session spans the whole window. */
  ghost predicate AlwaysSpans(p: Profile)
    requires WellFormed(p)
  {
    forall e: Session, n: nat :: Paced(p, e) && Taken(p, e, n) && Sustained(p, e, n) ==> Span(p, e, n) >= p.window * SECOND
  }

  /** The earliest sample at which a session can pass. */
  function First(p: Profile): nat
    requires WellFormed(p)
  {
    (if p.required > 1 then p.required - 1 else 0) + Needed(p) - 1
  }

  /** Some paced session passes. */
  ghost predicate CanPass(p: Profile)
    requires WellFormed(p)
  {
    exists e: Session, n: nat :: Paced(p, e) && Taken(p, e, n) && Sustained(p, e, n)
  }

  const HEALTHY := Checks(Pass, Pass, Pass, Pass, Pass, Pass)

  /** A session in which everything is healthy and each sleep lasts exactly `step`. */
  function Steady(step: int): Session {
    Session(0, n => n * step, _ => HEALTHY)
  }

  lemma SteadyPaced(p: Profile)
    ensures Paced(p, Steady(p.interval * SECOND))
  {
    var step := p.interval * SECOND;
    forall n: nat ensures Steady(step).clock(n + 1) == Steady(step).clock(n) + step {
    }
  }

  lemma SteadySustained(p: Profile, step: int)
    requires WellFormed(p)
    ensures Sustained(p, Steady(step), First(p)) && Span(p, Steady(step), First(p)) == (Needed(p) - 1) * step
  {
    var warmAt: nat := if p.required > 1 then p.required - 1 else 0;
    var k := Needed(p);
    assert ReadyAt(p, Steady(step), warmAt);
    assert First(p) * step - warmAt * step == (k - 1) * step;
  }

  lemma Scale(a: int, b: int, c: int)
    ensures a * (b * c) == (a * b) * c
  {
  }

  lemma PassSpans(p: Profile, e: Session, n: nat)
    requires WellFormed(p) && Paced(p, e) && Sustained(p, e, n)
    ensures Span(p, e, n) >= ((Needed(p) - 1) * p.interval) * SECOND
  {
    PacedApart(p, e, n + 1 - Needed(p), n);
    Scale(Needed(p) - 1, p.interval, SECOND);
  }

  /** The steady session takes every sample whose turn comes before the limit. */
  lemma SteadyTaken(p: Profile, n: nat)
    requires WellFormed(p) && n * p.interval < p.maxDuration
    ensures Taken(p, Steady(p.interval * SECOND), n)
  {
    forall m: nat | m <= n ensures !TimedOut(p, Steady(p.interval * SECOND), m) {
      MulMonotone(m, n, p.interval);
      Scale(m, p.interval, SECOND);
    }
  }

  lemma TakenInTime(p: Profile, e: Session, n: nat)
    requires WellFormed(p) && Paced(p, e) && Taken(p, e, n)
    ensures n * p.interval < p.maxDuration
  {
    PacedApart(p, e, 0, n);
    Scale(n, p.interval, SECOND);
    assert !TimedOut(p, e, n);
  }

  /** The steady session passes at the earliest sample, with the shortest span. */
  lemma TightSpan(p: Profile) returns (e: Session)
    requires WellFormed(p) && First(p) * p.interval < p.maxDuration
    ensures Paced(p, e) && Taken(p, e, First(p)) && Sustained(p, e, First(p))
    ensures Span(p, e, First(p)) == ((Needed(p) - 1) * p.interval) * SECOND
  {
    SteadyPaced(p);
    e := Steady(p.interval * SECOND);
    SteadySustained(p, p.interval * SECOND);
    SteadyTaken(p, First(p));
    Scale(Needed(p) - 1, p.interval, SECOND);
  }

  /** A profile lets some paced session pass if and only if its earliest pass comes before the timeout. */
  lemma CanPassIff(p: Profile)
    requires WellFormed(p)
    ensures CanPass(p) <==> First(p) * p.interval < p.maxDuration
  {
    if First(p) * p.interval < p.maxDuration {
      var e := TightSpan(p);
    } else {
      forall e: Session, n: nat | Paced(p, e) && Sustained(p, e, n) ensures !Taken(p, e, n) {
        NoPassInTime(p, e, n);
      }
    }
  }

  lemma NoPassInTime(p: Profile, e: Session, n: nat)
    requires WellFormed(p) && Paced(p, e) && Sustained(p, e, n) && First(p) * p.interval >= p.maxDuration
    ensures !Taken(p, e, n)
  {
    EarliestPass(p, e, n);
    MulMonotone(First(p), n, p.interval);
    if Taken(p, e, n) {
      TakenInTime(p, e, n);
    }
  }

  /** One sample fewer still covers the window only when the sample minimum, not the window, sets the count. */
  lemma CoverIff(p: Profile)
    requires WellFormed(p)
    ensures (Needed(p) - 1) * p.interval >= p.window <==> (p.minSamples - 1) * p.interval >= p.window
  {
    MulMonotone(p.minSamples - 1, Needed(p) - 1, p.interval);
    assert (Needed(p) - 1) * p.interval < p.window || Needed(p) - 1 < p.minSamples;
  }

  /** A pass vouches for the full window of clock time if and only if (minSamples - 1) intervals cover it, or the timeout leaves
      no session that passes. */
  lemma SpansWindowIff(p: Profile)
    requires WellFormed(p)
    ensures AlwaysSpans(p) <==> (p.minSamples - 1) * p.interval >= p.window || First(p) * p.interval >= p.maxDuration
  {
    CoverIff(p);
    if (p.minSamples - 1) * p.interval >= p.window {
      forall e: Session, n: nat | Paced(p, e) && Taken(p, e, n) && Sustained(p, e, n) ensures Span(p, e, n) >= p.window * SECOND {
        PassSpans(p, e, n);
      }
    } else if First(p) * p.interval >= p.maxDuration {
      CanPassIff(p);
    } else {
      var e := TightSpan(p);
    }
  }

  /** The default profile: a pass is never reached before the ninth sample, spans 90 seconds, and at most 20 samples are taken. */
  lemma DefaultProfileBounds(e: Session, t: Tally)
    requires Paced(DEFAULT_PROFILE, e) && Faithful(DEFAULT_PROFILE, e, t)
    ensures |t.samples| <= 20
    ensures t.passed ==> |t.samples| >= 9 && e.clock(|t.samples| - 1) - e.clock(|t.samples| - 7) >= 90 * SECOND
  {
    var p := DEFAULT_PROFILE;
    SampleBound(p, e, t);
    assert Needed(p) == 7;
    if t.passed {
      var n := |t.samples| - 1;
      EarliestPass(p, e, n);
      PassSpans(p, e, n);
    }
  }

  // ---------------------------------------------------------------- attribution and the node's decision

  datatype Attribution = AgentHealed | ExternallyRecovered | Inconclusive

  /** What the fault-status provider answers: a status of its own, one in its record, something that is not a dictionary, or an
      exception. */
  datatype FaultAnswer = Reported(status: Option<string>, recorded: Option<string>) | NotADictionary | Raised

  /** What is known of the injected fault; `provider` is `None` when none is configured. */
  datatype Fault = Fault(
    injectedAt: Option<Time>, ttl: Option<int>, scenario: Option<string>, provider: Option<FaultAnswer>, required: bool)

  function ReportedStatus(answer: FaultAnswer): Option<string>
    requires answer.Reported?
  {
    if answer.status.Some? && answer.status.value != "" then answer.status else answer.recorded
  }

  predicate ExternallyCleared(f: Fault, windowEnd: Time) {
    || (f.injectedAt.Some? && f.ttl.Some? && windowEnd >= f.injectedAt.value + f.ttl.value)
    || (f.provider.Some? && f.scenario.Some? && f.scenario.value != ""
        && match f.provider.value
           case Reported(_, _) => ReportedStatus(f.provider.value) in {Some("expired"), Some("cleared")}
           case NotADictionary => false
           case Raised => f.required)
  }

  /** `_check_external_clearance`. */
  method CheckExternalClearance(f: Fault, windowEnd: Time) returns (cleared: bool)
    ensures cleared == ExternallyCleared(f, windowEnd)
  {
    if f.injectedAt.Some? && f.ttl.Some? {
      var expiresAt := f.injectedAt.value + f.ttl.value;
      if windowEnd >= expiresAt { return true; }
    }
    if f.provider.Some? && f.scenario.Some? && f.scenario.value != "" {
      var answer := f.provider.value;
      if answer.Raised? { return f.required; }
      if answer.Reported? {
        var status := if answer.status.Some? && answer.status.value != "" then answer.status else answer.recorded;
        if status == Some("expired") || status == Some("cleared") { return true; }
      }
    }
    cleared := false;
  }

  /** The attribution case by case: an expired time to live always counts; otherwise nobody is asked without a provider and a
      scenario; an exception counts only where the answer is required; a report counts only if it says expired or cleared. */
  lemma AttributionTable(f: Fault, windowEnd: Time)
    ensures f.injectedAt.Some? && f.ttl.Some? && f.injectedAt.value + f.ttl.value <= windowEnd ==> ExternallyCleared(f, windowEnd)
    ensures f.injectedAt.None? || f.ttl.None? || windowEnd < f.injectedAt.value + f.ttl.value ==>
              && (f.provider.None? || f.scenario in {None, Some("")} ==> !ExternallyCleared(f, windowEnd))
              && (f.provider.Some? && f.scenario !in {None, Some("")} ==>
                    && (f.provider.value == Raised ==> (ExternallyCleared(f, windowEnd) <==> f.required))
                    && (f.provider.value == NotADictionary ==> !ExternallyCleared(f, windowEnd))
                    && (forall s, r :: f.provider.value == Reported(Some(s), r) && s != "" ==>
                          (ExternallyCleared(f, windowEnd) <==> s == "expired" || s == "cleared"))
                    && (forall s, r :: f.provider.value == Reported(s, Some(r)) && s in {None, Some("")} ==>
                          (ExternallyCleared(f, windowEnd) <==> r == "expired" || r == "cleared")))
  {
  }

  datatype Verdict = Verdict(passed: bool, attribution: Attribution, tally: Tally)

  /** `run_verification` in full. */
  method RunVerification(p: Profile, e: Session, f: Fault, windowEnd: Time, ghost deadline: nat) returns (v: Verdict)
    requires WellFormed(p) && TimedOut(p, e, deadline)
    ensures v.passed <==> Recovers(p, e) && !ExternallyCleared(f, windowEnd)
    ensures v.attribution == if ExternallyCleared(f, windowEnd) then ExternallyRecovered else AgentHealed
    ensures Faithful(p, e, v.tally)
    ensures v.passed ==> GoodEnd(p, v.tally.samples)
  {
    var t := RunLoop(p, e, deadline);
    var passed, attribution := t.passed, AgentHealed;
    var cleared := CheckExternalClearance(f, windowEnd);
    if cleared {
      passed, attribution := false, ExternallyRecovered;
    }
    v := Verdict(passed, attribution, t);
  }

  datatype NodeStatus = NodeResolved | NodeEscalated | CooldownScheduled | VerificationEscalated

  datatype Decision = Decision(status: NodeStatus, target: I.State)

  /** `verify_node` on the incident row it reads: the state it asks for when the row is VERIFYING. */
  function Decide(row: I.Incident, passed: bool, attribution: Attribution): Decision {
    if passed && attribution.AgentHealed? then Decision(NodeResolved, I.Resolved)
    else if attribution.ExternallyRecovered? || attribution.Inconclusive? then Decision(NodeEscalated, I.Escalated)
    else if row.attempts < row.retryLimit then Decision(CooldownScheduled, I.Diagnosed)
    else Decision(VerificationEscalated, I.Escalated)
  }

  /** The row after `verify_node`. */
  function AfterVerify(row: I.Incident, passed: bool, attribution: Attribution): I.Incident {
    if row.state != I.Verifying then row
    else
      var outcome := I.Transition(row, row.version, Decide(row, passed, attribution).target);
      if outcome.Committed? then outcome.row else row
  }

  /** The node on any verdict it is handed, passed or not, with any attribution: RESOLVED needs both a pass and the agent's credit;
      credit elsewhere escalates; a failure of its own retries while retries are left. Rows in other states are left alone. */
  lemma NodeTable(row: I.Incident, passed: bool, attribution: Attribution)
    ensures var after := AfterVerify(row, passed, attribution);
            && (row.state != I.Verifying ==> after == row)
            && (row.state == I.Verifying ==>
                  && (after.state == I.Resolved <==> passed && attribution == AgentHealed)
                  && (after.state == I.Diagnosed <==> !passed && attribution == AgentHealed && row.attempts < row.retryLimit)
                  && (after.state == I.Escalated <==>
                        attribution == ExternallyRecovered || attribution == Inconclusive || (!passed && row.attempts >= row.retryLimit))
                  && after.version == row.version + 1
                  && after.attempts == row.attempts + if after.state == I.Diagnosed then 1 else 0)
  {
  }

  /** From VERIFYING the node always moves the incident on, and where to is settled by the session: RESOLVED exactly when
      health was sustained and nothing external explains it, back to DIAGNOSED with one more attempt exactly when the
      session failed on its own account with retries left, ESCALATED otherwise. */
  lemma VerdictSettlesIncident(p: Profile, e: Session, v: Verdict, cleared: bool, row: I.Incident)
    requires WellFormed(p) && row.state == I.Verifying && Faithful(p, e, v.tally)
    requires v.passed == (v.tally.passed && !cleared) && v.attribution == if cleared then ExternallyRecovered else AgentHealed
    ensures var after := AfterVerify(row, v.passed, v.attribution);
            && after.version == row.version + 1
            && (after.state == I.Resolved <==> Recovers(p, e) && !cleared)
            && (after.state == I.Diagnosed <==> !Recovers(p, e) && !cleared && row.attempts < row.retryLimit)
            && (after.state == I.Escalated <==> cleared || (!Recovers(p, e) && row.attempts >= row.retryLimit))
            && after.attempts == (row.attempts + if after.state == I.Diagnosed then 1 else 0)
            && (after.state == I.Resolved ==> GoodEnd(p, v.tally.samples))
  {
    FaithfulDecides(p, e, v.tally);
    if v.tally.passed {
      PassedSamples(p, e, v.tally);
    }
  }
}
