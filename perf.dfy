/**
 * The performance monitor: per operation name, the current timing
 * (`metrics`) and a persisted history of the most recent samples, at most
 * ten per name. `performance.now()` and the wall clock are parameters.
 */
module Performance {

  import opened Json

  const HistoryCap: nat := 10

  /** `{startTime}` after `startTiming`, with end time and duration once `endTiming` has run. */
  datatype Timing = Timing(startTime: int, endTime: Option<int>, duration: Option<int>)

  datatype Sample = Sample(timestamp: int, duration: int)

  /** Drops the oldest sample when the history is full, then appends the new one. */
  function PushCapped(h: seq<Sample>, s: Sample): (r: seq<Sample>)
    ensures |r| == (if |h| >= HistoryCap then |h| else |h| + 1)
    ensures r == (h + [s])[|h| + 1 - |r|..]
    ensures r[|r| - 1] == s
  {
    if |h| >= HistoryCap then h[1..] + [s] else h + [s]
  }

  /** A history within the cap stays within it and keeps its newest samples in order. */
  lemma PushCappedWithinCap(h: seq<Sample>, s: Sample)
    requires |h| <= HistoryCap
    ensures |PushCapped(h, s)| <= HistoryCap
    ensures |h| == HistoryCap ==> PushCapped(h, s) == h[1..] + [s]
    ensures |h| < HistoryCap ==> PushCapped(h, s) == h + [s]
  {
  }

  /** After any number of pushes onto an empty history, at most the ten newest samples remain, in order. */
  function PushAll(h: seq<Sample>, samples: seq<Sample>): seq<Sample>
    decreases |samples|
  {
    if samples == [] then h else PushAll(PushCapped(h, samples[0]), samples[1..])
  }

  /** How many samples remain after any number of pushes. */
  lemma {:induction false} PushAllLength(h: seq<Sample>, samples: seq<Sample>)
    requires |h| <= HistoryCap
    ensures |PushAll(h, samples)| == (if |h| + |samples| <= HistoryCap then |h| + |samples| else HistoryCap)
    decreases |samples|
  {
    if samples != [] {
      PushCappedWithinCap(h, samples[0]);
      PushAllLength(PushCapped(h, samples[0]), samples[1..]);
    }
  }

  /** One push followed by the remaining samples is a suffix of everything pushed so far. */
  lemma PushThenRest(h: seq<Sample>, samples: seq<Sample>)
    requires samples != []
    ensures var h' := PushCapped(h, samples[0]);
      h' + samples[1..] == (h + samples)[|h| + 1 - |h'|..]
  {
    var h' := PushCapped(h, samples[0]);
    var k := |h| + 1 - |h'|;
    assert h + samples == (h + [samples[0]]) + samples[1..];
    assert h' == (h + [samples[0]])[k..];
  }

  lemma {:induction false} PushAllKeepsNewest(h: seq<Sample>, samples: seq<Sample>)
    requires |h| <= HistoryCap
    ensures var r := PushAll(h, samples);
      && |r| == (if |h| + |samples| <= HistoryCap then |h| + |samples| else HistoryCap)
      && r == (h + samples)[|h| + |samples| - |r|..]
    decreases |samples|
  {
    PushAllLength(h, samples);
    if samples != [] {
      var h' := PushCapped(h, samples[0]);
      var rest := samples[1..];
      PushCappedWithinCap(h, samples[0]);
      PushAllKeepsNewest(h', rest);
      PushThenRest(h, samples);
      var r := PushAll(h, samples);
      var all := h + samples;
      var k := |h| + 1 - |h'|;
      var j := |h'| + |rest| - |r|;
      assert r == all[k..][j..];
      assert all[k..][j..] == all[k + j..];
    }
  }

  class PerformanceMonitor {
    var metrics: map<string, Timing>
    /** The persisted 'performanceMetrics' record. */
    var history: map<string, seq<Sample>>

    ghost predicate Valid()
      reads this
    {
      forall name :: name in history ==> |history[name]| <= HistoryCap
    }

    constructor (persisted: map<string, seq<Sample>>)
      requires forall name :: name in persisted ==> |persisted[name]| <= HistoryCap
      ensures Valid() && metrics == map[] && history == persisted
    {
      metrics := map[];
      history := persisted;
    }

    /** Replaces any earlier timing for `name` by a fresh start time. */
    method StartTiming(name: string, now: int)
      modifies this`metrics
      ensures metrics == old(metrics)[name := Timing(now, None, None)]
    {
      metrics := metrics[name := Timing(now, None, None)];
    }

    /**
     * Null when `name` was never started. Otherwise the duration since the
     * start, recorded on the timing and pushed onto the capped history.
     */
    method EndTiming(name: string, now: int, wallClock: int) returns (r: Option<int>)
      requires Valid()
      modifies this
      ensures Valid()
      ensures old(name !in metrics) ==> r.None? && metrics == old(metrics) && history == old(history)
      ensures old(name in metrics) ==>
        var d := now - old(metrics)[name].startTime;
        var h := if name in old(history) then old(history)[name] else [];
        && r == Some(d)
        && metrics == old(metrics)[name := Timing(old(metrics)[name].startTime, Some(now), Some(d))]
        && history == old(history)[name := PushCapped(h, Sample(wallClock, d))]
    {
      if name !in metrics {
        return None;
      }
      var start := metrics[name].startTime;
      var duration := now - start;
      metrics := metrics[name := Timing(start, Some(now), Some(duration))];
      var h := if name in history then history[name] else [];
      if |h| >= HistoryCap {
        h := h[1..];
      }
      h := h + [Sample(wallClock, duration)];
      history := history[name := h];
      return Some(duration);
    }
  }
}
