/** The exported CPU-seconds counter, accumulated over processes that come and go. */
module CpuCounter {
  import opened Prelude

  /** Process id and creation time. */
  type Identity = (int, real)

  type Samples = map<Identity, real>

  /** One process met in a scrape; `None` is a process that vanished or denied access while it was read. */
  datatype Reading = Reading(identity: Identity, total: Option<real>)

  type Scrape = seq<Reading>

  function Get(m: Samples, id: Identity): real {
    if id in m then m[id] else 0.0
  }

  function Max(a: real, b: real): real {
    if a >= b then a else b
  }

  /** The samples a scrape leaves behind. */
  function Sampled(s: Scrape): Samples {
    if s == [] then map[]
    else
      var front, last := Sampled(s[..|s| - 1]), s[|s| - 1];
      if last.total.Some? then front[last.identity := last.total.value] else front
  }

  /** What a scrape adds to the counter, given the previous samples. */
  function Delta(before: Samples, s: Scrape): real {
    if s == [] then 0.0
    else
      var last := s[|s| - 1];
      Delta(before, s[..|s| - 1]) + if last.total.Some? then Max(0.0, last.total.value - Get(before, last.identity)) else 0.0
  }

  // ---------------------------------------------------------------- the manager

  class CpuStressManager {
    var samples: Samples
    var counter: real

    constructor ()
      ensures samples == map[] && counter == 0.0
    {
      samples, counter := map[], 0.0;
    }

    /** `update_metrics`; `processes` is `None` when listing the processes itself raises, which is only logged. */
    method UpdateMetrics(processes: Option<Scrape>)
      modifies this
      ensures processes.None? ==> samples == old(samples) && counter == old(counter)
      ensures processes.Some? ==> samples == Sampled(processes.value) && counter == old(counter) + Delta(old(samples), processes.value)
    {
      if processes.None? { return; }
      var s := processes.value;
      var collected: Samples, delta := map[], 0.0;
      for i := 0 to |s|
        invariant collected == Sampled(s[..i]) && delta == Delta(samples, s[..i])
      {
        assert s[..i + 1][..i] == s[..i];
        if s[i].total.Some? {
          var total := s[i].total.value;
          collected := collected[s[i].identity := total];
          delta := delta + Max(0.0, total - Get(samples, s[i].identity));
        }
      }
      assert s[..|s|] == s;
      counter := counter + delta;
      samples := collected;
    }
  }

  // ---------------------------------------------------------------- whole histories

  type History = seq<Scrape>

  function PreviousSamples(h: History): Samples {
    if h == [] then map[] else Sampled(h[|h| - 1])
  }

  /** The counter after a history of scrapes. */
  function Counter(h: History): real {
    if h == [] then 0.0
    else Counter(h[..|h| - 1]) + Delta(PreviousSamples(h[..|h| - 1]), h[|h| - 1])
  }

  /** The last total observed for every identity ever seen. */
  function LastTotals(h: History): Samples {
    if h == [] then map[] else LastTotals(h[..|h| - 1]) + Sampled(h[|h| - 1])
  }

  ghost function Sum(m: Samples): real {
    if m == map[] then 0.0
    else
      var id :| id in m;
      m[id] + Sum(m - {id})
  }

  lemma {:induction false} SumRemove(m: Samples, id: Identity)
    requires id in m
    ensures Sum(m) == m[id] + Sum(m - {id})
    decreases |m|
  {
    var first :| first in m && Sum(m) == m[first] + Sum(m - {first});
    if first != id {
      SumRemove(m - {first}, id);
      SumRemove(m - {id}, first);
      assert m - {first} - {id} == m - {id} - {first};
    }
  }

  lemma SumUpdate(m: Samples, id: Identity, total: real)
    ensures Sum(m[id := total]) == Sum(m) - Get(m, id) + total
  {
    SumRemove(m[id := total], id);
    if id in m {
      SumRemove(m, id);
      assert m[id := total] - {id} == m - {id};
    } else {
      assert m[id := total] - {id} == m;
    }
  }

  /** The counter never decreases. */
  lemma CounterNeverDecreases(h: History, s: Scrape)
    ensures Counter(h + [s]) >= Counter(h)
  {
    assert (h + [s])[..|h|] == h;
    DeltaNotNegative(PreviousSamples(h), s);
  }

  lemma {:induction false} DeltaNotNegative(before: Samples, s: Scrape)
    ensures Delta(before, s) >= 0.0
    decreases |s|
  {
    if s != [] {
      DeltaNotNegative(before, s[..|s| - 1]);
    }
  }

  // ---------------------------------------------------------------- conservation

  /** What operating systems guarantee: a scrape lists a process once, and processor time is not negative. */
  ghost predicate Proper(s: Scrape) {
    && (forall i, j :: 0 <= i < j < |s| ==> s[i].identity != s[j].identity)
    && (forall i :: 0 <= i < |s| && s[i].total.Some? ==> s[i].total.value >= 0.0)
  }

  ghost predicate AllProper(h: History) {
    forall k :: 0 <= k < |h| ==> Proper(h[k])
  }

  /** By how much one reading counts for more than the growth of the identity's last total. */
  function Surplus(before: Samples, last: Samples, r: Reading): real {
    if r.total.None? then 0.0
    else Max(0.0, r.total.value - Get(before, r.identity)) - (r.total.value - Get(last, r.identity))
  }

  function ScrapeSurplus(before: Samples, last: Samples, s: Scrape): real {
    if s == [] then 0.0
    else ScrapeSurplus(before, last, s[..|s| - 1]) + Surplus(before, last, s[|s| - 1])
  }

  function TotalSurplus(h: History): real {
    if h == [] then 0.0
    else
      var front := h[..|h| - 1];
      TotalSurplus(front) + ScrapeSurplus(PreviousSamples(front), LastTotals(front), h[|h| - 1])
  }

  lemma ProperFront(s: Scrape)
    requires Proper(s) && s != []
    ensures Proper(s[..|s| - 1])
  {
    var front := s[..|s| - 1];
    assert forall i :: 0 <= i < |front| ==> front[i] == s[i];
  }

  lemma {:induction false} SampledOnly(s: Scrape, id: Identity)
    requires forall i :: 0 <= i < |s| ==> s[i].identity != id
    ensures id !in Sampled(s)
    decreases |s|
  {
    if s != [] {
      SampledOnly(s[..|s| - 1], id);
    }
  }

  /** One scrape: the sum of last totals grows by the delta, less the surplus. */
  lemma {:induction false} ScrapeBalance(before: Samples, last: Samples, s: Scrape)
    requires Proper(s)
    ensures Sum(last + Sampled(s)) == Sum(last) + Delta(before, s) - ScrapeSurplus(before, last, s)
    decreases |s|
  {
    if s == [] {
      assert last + Sampled(s) == last;
    } else {
      var front, r := s[..|s| - 1], s[|s| - 1];
      ProperFront(s);
      ScrapeBalance(before, last, front);
      SampledOnly(front, r.identity);
      if r.total.Some? {
        var m := last + Sampled(front);
        assert last + Sampled(s) == m[r.identity := r.total.value];
        SumUpdate(m, r.identity, r.total.value);
        assert Get(m, r.identity) == Get(last, r.identity);
      }
    }
  }

  /** Exact accounting for every history: the counter is the sum of the last observed totals plus the surplus. */
  lemma {:induction false} CounterBalance(h: History)
    requires AllProper(h)
    ensures Counter(h) == Sum(LastTotals(h)) + TotalSurplus(h)
    decreases |h|
  {
    if h != [] {
      var front, s := h[..|h| - 1], h[|h| - 1];
      CounterBalance(front);
      ScrapeBalance(PreviousSamples(front), LastTotals(front), s);
    }
  }

  /** The reading continues its identity's record without a gap: the previous scrape has it with no larger a total, or it is
      new, or all it ever showed was zero. */
  predicate Continues(before: Samples, last: Samples, r: Reading) {
    r.total.Some? ==>
      if r.identity in before then before[r.identity] <= r.total.value
      else Get(last, r.identity) == 0.0
  }

  ghost predicate AllContinue(before: Samples, last: Samples, s: Scrape) {
    forall i :: 0 <= i < |s| ==> Continues(before, last, s[i])
  }

  /** Every reading of every scrape continues. */
  ghost predicate Contiguous(h: History) {
    forall k :: 0 <= k < |h| ==> AllContinue(PreviousSamples(h[..k]), LastTotals(h[..k]), h[k])
  }

  /** The previous samples are among the last totals, and none is negative. */
  lemma {:induction false} SamplesAreLast(h: History)
    requires AllProper(h)
    ensures forall id :: id in PreviousSamples(h) ==> id in LastTotals(h) && LastTotals(h)[id] == PreviousSamples(h)[id]
    ensures forall id :: id in LastTotals(h) ==> LastTotals(h)[id] >= 0.0
    decreases |h|
  {
    if h != [] {
      SamplesAreLast(h[..|h| - 1]);
      SampledNotNegative(h[|h| - 1]);
    }
  }

  lemma {:induction false} SampledNotNegative(s: Scrape)
    requires Proper(s)
    ensures forall id :: id in Sampled(s) ==> Sampled(s)[id] >= 0.0
    decreases |s|
  {
    if s != [] {
      ProperFront(s);
      SampledNotNegative(s[..|s| - 1]);
    }
  }

  lemma SurplusMeans(before: Samples, last: Samples, r: Reading)
    requires r.total.Some? ==> r.total.value >= 0.0
    requires forall id :: id in before ==> id in last && last[id] == before[id]
    requires forall id :: id in last ==> last[id] >= 0.0
    ensures Surplus(before, last, r) >= 0.0
    ensures Surplus(before, last, r) == 0.0 <==> Continues(before, last, r)
  {
  }

  lemma {:induction false} ScrapeSurplusMeans(before: Samples, last: Samples, s: Scrape)
    requires Proper(s)
    requires forall id :: id in before ==> id in last && last[id] == before[id]
    requires forall id :: id in last ==> last[id] >= 0.0
    ensures ScrapeSurplus(before, last, s) >= 0.0
    ensures ScrapeSurplus(before, last, s) == 0.0 <==> AllContinue(before, last, s)
    decreases |s|
  {
    if s != [] {
      var front := s[..|s| - 1];
      ProperFront(s);
      ScrapeSurplusMeans(before, last, front);
      SurplusMeans(before, last, s[|s| - 1]);
      assert forall i :: 0 <= i < |front| ==> front[i] == s[i];
    }
  }

  lemma ContiguousFront(h: History)
    requires h != []
    ensures var front := h[..|h| - 1];
            Contiguous(h) <==> Contiguous(front) && AllContinue(PreviousSamples(front), LastTotals(front), h[|h| - 1])
  {
    var front := h[..|h| - 1];
    forall k | 0 <= k < |front| ensures front[k] == h[k] && front[..k] == h[..k] {
    }
  }

  lemma {:induction false} SurplusIffGap(h: History)
    requires AllProper(h)
    ensures TotalSurplus(h) >= 0.0
    ensures TotalSurplus(h) == 0.0 <==> Contiguous(h)
    decreases |h|
  {
    if h != [] {
      var front := h[..|h| - 1];
      SurplusIffGap(front);
      SamplesAreLast(front);
      ScrapeSurplusMeans(PreviousSamples(front), LastTotals(front), h[|h| - 1]);
      ContiguousFront(h);
    }
  }

  /** Conservation, and exactly when: the counter is never below the sum, over every identity ever seen, of its last
      observed total, and equals it if and only if every reading continued its identity's record, across exits,
      process-id reuse and unreadable processes. */
  lemma ConservationIff(h: History)
    requires AllProper(h)
    ensures Counter(h) >= Sum(LastTotals(h))
    ensures Counter(h) == Sum(LastTotals(h)) <==> Contiguous(h)
  {
    CounterBalance(h);
    SurplusIffGap(h);
  }

  /** A gap double-counts: a process that goes unread for one scrape has its whole earlier total added again. */
  lemma GapCountsTwice(id: Identity, total: real)
    requires total > 0.0
    ensures var seen := [Reading(id, Some(total))];
            var h := [seen, [Reading(id, None)], seen];
            AllProper(h) && !Contiguous(h) && Counter(h) == 2.0 * total
  {
    var seen, unread := [Reading(id, Some(total))], [Reading(id, None)];
    var h := [seen, unread, seen];
    assert h[..2] == [seen, unread] && h[..2][..1] == [seen] && [seen][..0] == [];
    OneReading(map[], Reading(id, Some(total)));
    OneReading(map[id := total], Reading(id, None));
    assert Counter([seen]) == total;
    assert Counter(h[..2]) == total;
    assert LastTotals([seen]) == map[id := total];
    assert LastTotals(h[..2]) == map[id := total];
    assert !Continues(PreviousSamples(h[..2]), LastTotals(h[..2]), h[2][0]);
  }

  lemma OneReading(before: Samples, r: Reading)
    ensures Sampled([r]) == if r.total.Some? then map[r.identity := r.total.value] else map[]
    ensures Delta(before, [r]) == if r.total.Some? then Max(0.0, r.total.value - Get(before, r.identity)) else 0.0
  {
    assert [r][..0] == [];
    assert Sampled([]) == map[];
  }
}
