/**
 * The `PerformanceMonitor` class of performance-monitor.js: bounded logs of requests, errors and
 * memory snapshots with hit/miss counters, the per-type statistics and the counting and filtering
 * parts of the periodic report. Clocks and `process.memoryUsage()` are parameters.
 */
module Monitoring {
  import opened Common
  import opened Sequences

  /** How many requests, errors and memory snapshots the logs keep. */
  const REQUEST_LOG_SIZE: nat := 1000
  const ERROR_LOG_SIZE: nat := 100
  const SNAPSHOT_LOG_SIZE: nat := 100
  /** The report's look-back window, `5 * 60 * 1000` ms. */
  const REPORT_WINDOW: int := 300000
  /** How many of the latest memory snapshots the report averages, `slice(-10)`. */
  const RECENT_SNAPSHOTS: nat := 10
  /** Bytes per megabyte in the report, `1024 * 1024`. */
  const BYTES_PER_MB: real := 1048576.0

  /** One `logRequest` entry. */
  datatype RequestRecord = RequestRecord(timestamp: int, requestType: string, duration: int, cached: bool)

  /** One `logError` entry: `error.message` and the caller's context. */
  datatype ErrorRecord = ErrorRecord(timestamp: int, error: string, context: string)

  /** The numbers `process.memoryUsage()` returns, in bytes. */
  datatype MemoryUsage = MemoryUsage(rss: nat, heapTotal: nat, heapUsed: nat, external: nat, arrayBuffers: nat)

  /** One memory snapshot, `{ timestamp, ...memUsage }`. */
  datatype MemorySnapshot = MemorySnapshot(timestamp: int, usage: MemoryUsage)

  /** The counters `getRequestTypeStats` accumulates for one request type. */
  datatype TypeStats = TypeStats(count: nat, totalTime: int, cached: nat)

  /** One type's counters together with the derived `averageTime` (ms) and `cacheRate` (percent). */
  datatype TypeSummary = TypeSummary(count: nat, totalTime: int, cached: nat, averageTime: real, cacheRate: real)

  /**
   * The numbers behind `generateReport`'s object, before they are formatted as strings; `None`
   * stands for 'N/A'.
   */
  datatype Report = Report(
    uptimeMinutes: real,
    totalRequests: nat,
    recentRequests: nat,
    averageResponseTime: Option<real>,
    cacheHitRate: Option<real>,
    currentHeapMb: real,
    averageHeapMb: Option<real>,
    recentErrors: nat,
    requestTypes: map<string, TypeSummary>)

  function RequestTime(r: RequestRecord): int { r.timestamp }

  function ErrorTime(e: ErrorRecord): int { e.timestamp }

  /** `log.filter(x => now - x.timestamp < 5 * 60 * 1000)`. */
  function Recent<T(!new)>(log: seq<T>, stampOf: T -> int, now: int): (r: seq<T>)
    ensures |r| <= |log|
  {
    if log == [] then []
    else
      var x := log[|log| - 1];
      Recent(log[..|log| - 1], stampOf, now) + if now - stampOf(x) < REPORT_WINDOW then [x] else []
  }

  /** The filter keeps order: filtering a concatenation is concatenating the filtered parts. */
  lemma {:induction false} RecentAppend<T(!new)>(a: seq<T>, b: seq<T>, stampOf: T -> int, now: int)
    ensures Recent(a + b, stampOf, now) == Recent(a, stampOf, now) + Recent(b, stampOf, now)
    decreases |b|
  {
    if b == [] {
      assert a + b == a;
    } else {
      var ab, init, x := a + b, b[..|b| - 1], b[|b| - 1];
      var last := if now - stampOf(x) < REPORT_WINDOW then [x] else [];
      assert ab[..|ab| - 1] == a + init && ab[|ab| - 1] == x;
      assert Recent(ab, stampOf, now) == Recent(a + init, stampOf, now) + last;
      assert Recent(b, stampOf, now) == Recent(init, stampOf, now) + last;
      RecentAppend(a, init, stampOf, now);
    }
  }

  /** The filter keeps exactly the entries younger than the window. */
  lemma {:induction false} RecentMembers<T(!new)>(log: seq<T>, stampOf: T -> int, now: int, x: T)
    ensures x in Recent(log, stampOf, now) <==> x in log && now - stampOf(x) < REPORT_WINDOW
  {
    if log != [] {
      var init := log[..|log| - 1];
      RecentMembers(init, stampOf, now, x);
      assert log == init + [log[|log| - 1]];
    }
  }

  /** The durations of `reqs`, in order. */
  function Durations(reqs: seq<RequestRecord>): (d: seq<int>)
    ensures |d| == |reqs|
    ensures forall i :: 0 <= i < |reqs| ==> d[i] == reqs[i].duration
  {
    if reqs == [] then [] else Durations(reqs[..|reqs| - 1]) + [reqs[|reqs| - 1].duration]
  }

  /** How many of `reqs` were served from the cache. */
  function CountCached(reqs: seq<RequestRecord>): (n: nat)
    ensures n <= |reqs|
  {
    if reqs == [] then 0 else CountCached(reqs[..|reqs| - 1]) + if reqs[|reqs| - 1].cached then 1 else 0
  }

  lemma {:induction false} CountCachedAppend(reqs: seq<RequestRecord>, r: RequestRecord)
    ensures CountCached(reqs + [r]) == CountCached(reqs) + if r.cached then 1 else 0
  {
    assert (reqs + [r])[..|reqs|] == reqs;
  }

  /** The requests of `reqs` whose type is `t`, in order. */
  function OfType(reqs: seq<RequestRecord>, t: string): (r: seq<RequestRecord>)
    ensures |r| <= |reqs|
    ensures forall i :: 0 <= i < |r| ==> r[i].requestType == t
  {
    if reqs == [] then []
    else
      var x := reqs[|reqs| - 1];
      OfType(reqs[..|reqs| - 1], t) + if x.requestType == t then [x] else []
  }

  /** The requests of type `t` are exactly those of `reqs` whose type is `t`. */
  lemma {:induction false} OfTypeMembers(reqs: seq<RequestRecord>, t: string, x: RequestRecord)
    ensures x in OfType(reqs, t) <==> x in reqs && x.requestType == t
  {
    if reqs != [] {
      var init := reqs[..|reqs| - 1];
      OfTypeMembers(init, t, x);
      assert reqs == init + [reqs[|reqs| - 1]];
    }
  }

  /** A type's counters so far: `stats[type]`, or zeros before its first request. */
  function StatsFor(stats: map<string, TypeStats>, t: string): TypeStats
  {
    if t in stats then stats[t] else TypeStats(0, 0, 0)
  }

  /** One iteration of the grouping loop: count the request, add its duration, count it if cached. */
  function Tally(s: TypeStats, r: RequestRecord): TypeStats
  {
    TypeStats(s.count + 1, s.totalTime + r.duration, s.cached + if r.cached then 1 else 0)
  }

  /**
   * The counters of the grouping loop over `reqs`. Every type present has been counted at least
   * once, and no type has more cached requests than requests.
   */
  function TypeStatsOf(reqs: seq<RequestRecord>): (stats: map<string, TypeStats>)
    ensures forall t :: t in stats ==> 0 < stats[t].count && stats[t].cached <= stats[t].count
  {
    if reqs == [] then map[]
    else
      var before := TypeStatsOf(reqs[..|reqs| - 1]);
      var r := reqs[|reqs| - 1];
      before[r.requestType := Tally(StatsFor(before, r.requestType), r)]
  }

  /** One more request of a prefix is one more grouping step. */
  lemma TypeStatsOfPrefix(reqs: seq<RequestRecord>, i: nat)
    requires i < |reqs|
    ensures var before := TypeStatsOf(reqs[..i]);
      TypeStatsOf(reqs[..i + 1]) == before[reqs[i].requestType := Tally(StatsFor(before, reqs[i].requestType), reqs[i])]
  {
    assert reqs[..i + 1][..i] == reqs[..i];
  }

  /**
   * Each type's entry counts exactly that type's requests, sums exactly their durations and counts
   * exactly the cached ones; a type has an entry iff some request has it.
   */
  lemma {:induction false} TypeStatsCountEachType(reqs: seq<RequestRecord>, t: string)
    ensures t in TypeStatsOf(reqs) <==> OfType(reqs, t) != []
    ensures t in TypeStatsOf(reqs) ==>
      var mine := OfType(reqs, t);
      TypeStatsOf(reqs)[t] == TypeStats(|mine|, Sum(Durations(mine)), CountCached(mine))
  {
    if reqs != [] {
      var init := reqs[..|reqs| - 1];
      var r := reqs[|reqs| - 1];
      TypeStatsCountEachType(init, t);
      if r.requestType == t {
        var mine := OfType(init, t);
        assert OfType(reqs, t) == mine + [r];
        assert Durations(mine + [r])[..|mine|] == Durations(mine);
        assert (mine + [r])[..|mine|] == mine;
      } else {
        assert OfType(reqs, t) == OfType(init, t);
      }
    }
  }

  /** The sum of the counts of all types. */
  ghost function TotalCount(stats: map<string, TypeStats>): nat
    decreases |stats.Keys|
  {
    if stats == map[] then 0
    else
      assert stats.Keys != {};
      var t :| t in stats;
      stats[t].count + TotalCount(stats - {t})
  }

  /** Any entry can be taken out of `TotalCount` first. */
  lemma {:induction false} TotalCountRemove(stats: map<string, TypeStats>, t: string)
    requires t in stats
    ensures TotalCount(stats) == stats[t].count + TotalCount(stats - {t})
    decreases |stats.Keys|
  {
    assert stats.Keys != {};
    var u :| u in stats && TotalCount(stats) == stats[u].count + TotalCount(stats - {u});
    if u != t {
      TotalCountRemove(stats - {u}, t);
      TotalCountRemove(stats - {t}, u);
      assert stats - {u} - {t} == stats - {t} - {u};
    }
  }

  /** The counts over all types add up to the number of requests grouped. */
  lemma {:induction false} TypeCountsSumToTotal(reqs: seq<RequestRecord>)
    ensures TotalCount(TypeStatsOf(reqs)) == |reqs|
  {
    if reqs != [] {
      var init := reqs[..|reqs| - 1];
      var r := reqs[|reqs| - 1];
      var before := TypeStatsOf(init);
      var after := TypeStatsOf(reqs);
      var t := r.requestType;
      TypeCountsSumToTotal(init);
      TotalCountRemove(after, t);
      assert after - {t} == before - {t};
      if t in before {
        TotalCountRemove(before, t);
      } else {
        assert before - {t} == before;
      }
    }
  }

  /** `part / whole * 100`. */
  function Percent(part: nat, whole: nat): real
    requires whole > 0
  {
    part as real / whole as real * 100.0
  }

  /** A share is never negative, and a part no larger than the whole is at most 100 percent. */
  lemma PercentBounds(part: nat, whole: nat)
    requires whole > 0
    ensures Percent(part, whole) * (whole as real) == part as real * 100.0
    ensures 0.0 <= Percent(part, whole)
    ensures part <= whole ==> Percent(part, whole) <= 100.0
  {
    var n := whole as real;
    var q := part as real / n;
    assert q * n == part as real;
    assert 0.0 <= q;
    if part <= whole {
      assert q <= 1.0;
    }
  }

  /** The second loop of `getRequestTypeStats`: `averageTime` and `cacheRate` of one type. */
  function Summarize(s: TypeStats): TypeSummary
    requires s.count > 0
  {
    TypeSummary(s.count, s.totalTime, s.cached, s.totalTime as real / s.count as real, Percent(s.cached, s.count))
  }

  /**
   * A summary keeps the counters; its average time times the count is the total time, and its
   * cache rate is a percentage.
   */
  lemma SummarizeFigures(s: TypeStats)
    requires s.count > 0
    ensures var r := Summarize(s);
      && r.count == s.count && r.totalTime == s.totalTime && r.cached == s.cached
      && r.averageTime * (s.count as real) == s.totalTime as real
      && 0.0 <= r.cacheRate
      && (s.cached <= s.count ==> r.cacheRate <= 100.0)
  {
    PercentBounds(s.cached, s.count);
  }

  /** Every type's counters with its derived figures. */
  function Summaries(stats: map<string, TypeStats>): (r: map<string, TypeSummary>)
    requires forall t :: t in stats ==> stats[t].count > 0
    ensures r.Keys == stats.Keys
  {
    map t | t in stats :: Summarize(stats[t])
  }

  /** The mean of the snapshots' `heapUsed`, in megabytes. */
  function AverageHeapMb(snapshots: seq<MemorySnapshot>): (m: real)
    requires snapshots != []
  {
    Mean(HeapUsed(snapshots)) / BYTES_PER_MB
  }

  /** The `heapUsed` of each snapshot, in order. */
  function HeapUsed(snapshots: seq<MemorySnapshot>): (h: seq<int>)
    ensures |h| == |snapshots|
    ensures forall i :: 0 <= i < |h| ==> h[i] == snapshots[i].usage.heapUsed
  {
    if snapshots == [] then [] else HeapUsed(snapshots[..|snapshots| - 1]) + [snapshots[|snapshots| - 1].usage.heapUsed]
  }

  /** The monitor's `metrics` object. */
  class PerformanceMonitor {
    var startTime: int
    var requests: seq<RequestRecord>
    var memorySnapshots: seq<MemorySnapshot>
    var errors: seq<ErrorRecord>
    var hits: nat
    var misses: nat
    /** Every request, error and snapshot ever logged, oldest first. */
    ghost var loggedRequests: seq<RequestRecord>
    ghost var loggedErrors: seq<ErrorRecord>
    ghost var takenSnapshots: seq<MemorySnapshot>

    /**
     * Each log holds the latest entries up to its cap, in order; `hits` counts every cached request
     * ever logged and `misses` every other one, however many the capped log has dropped.
     */
    ghost predicate Valid()
      reads this`requests, this`loggedRequests, this`hits, this`misses
      reads this`errors, this`loggedErrors, this`memorySnapshots, this`takenSnapshots
    {
      RequestsValid() && ErrorsValid() && SnapshotsValid()
    }

    ghost predicate RequestsValid()
      reads this`requests, this`loggedRequests, this`hits, this`misses
    {
      RequestLogValid() && CountsValid()
    }

    ghost predicate RequestLogValid()
      reads this`requests, this`loggedRequests
    {
      requests == Last(loggedRequests, REQUEST_LOG_SIZE)
    }

    ghost predicate CountsValid()
      reads this`loggedRequests, this`hits, this`misses
    {
      hits == CountCached(loggedRequests) && hits + misses == |loggedRequests|
    }

    ghost predicate ErrorsValid()
      reads this`errors, this`loggedErrors
    {
      errors == Last(loggedErrors, ERROR_LOG_SIZE)
    }

    ghost predicate SnapshotsValid()
      reads this`memorySnapshots, this`takenSnapshots
    {
      memorySnapshots == Last(takenSnapshots, SNAPSHOT_LOG_SIZE)
    }

    /** `new PerformanceMonitor()` at time `now`, with empty logs. */
    constructor (now: int)
      ensures Valid()
      ensures startTime == now
      ensures loggedRequests == [] && loggedErrors == [] && takenSnapshots == []
      ensures hits == 0 && misses == 0
    {
      startTime := now;
      requests, memorySnapshots, errors := [], [], [];
      hits, misses := 0, 0;
      loggedRequests, loggedErrors, takenSnapshots := [], [], [];
    }

    /** `logRequest(type, duration, cached)` at time `now`. */
    method LogRequest(requestType: string, duration: int, cached: bool, now: int)
      requires Valid()
      modifies this`requests, this`loggedRequests, this`hits, this`misses
      ensures Valid()
      ensures loggedRequests == old(loggedRequests) + [RequestRecord(now, requestType, duration, cached)]
      ensures requests == Push(old(requests), RequestRecord(now, requestType, duration, cached), REQUEST_LOG_SIZE)
      ensures |requests| <= REQUEST_LOG_SIZE && requests[|requests| - 1] == RequestRecord(now, requestType, duration, cached)
      ensures hits == old(hits) + (if cached then 1 else 0)
      ensures misses == old(misses) + (if cached then 0 else 1)
      ensures errors == old(errors) && memorySnapshots == old(memorySnapshots) && startTime == old(startTime)
      ensures loggedErrors == old(loggedErrors) && takenSnapshots == old(takenSnapshots)
    {
      var record := RequestRecord(now, requestType, duration, cached);
      PushKeepsLast(loggedRequests, requests, record, REQUEST_LOG_SIZE);
      CountCachedAppend(loggedRequests, record);
      requests := requests + [record];
      if cached {
        hits := hits + 1;
      } else {
        misses := misses + 1;
      }
      if |requests| > REQUEST_LOG_SIZE {
        requests := requests[1..];
      }
      loggedRequests := loggedRequests + [record];
    }

    /** `logError(error, context)` at time `now`, for an error whose `message` is `message`. */
    method LogError(message: string, context: string, now: int)
      requires Valid()
      modifies this
      ensures Valid()
      ensures loggedErrors == old(loggedErrors) + [ErrorRecord(now, message, context)]
      ensures errors == Push(old(errors), ErrorRecord(now, message, context), ERROR_LOG_SIZE)
      ensures |errors| <= ERROR_LOG_SIZE && errors[|errors| - 1] == ErrorRecord(now, message, context)
      ensures requests == old(requests) && memorySnapshots == old(memorySnapshots) && startTime == old(startTime)
      ensures hits == old(hits) && misses == old(misses)
      ensures loggedRequests == old(loggedRequests) && takenSnapshots == old(takenSnapshots)
    {
      var record := ErrorRecord(now, message, context);
      PushKeepsLast(loggedErrors, errors, record, ERROR_LOG_SIZE);
      errors := errors + [record];
      if |errors| > ERROR_LOG_SIZE {
        errors := errors[1..];
      }
      loggedErrors := loggedErrors + [record];
    }

    /** The 30-second timer's body at time `now`, with `usage` as `process.memoryUsage()` returns it. */
    method RecordMemorySnapshot(usage: MemoryUsage, now: int)
      requires Valid()
      modifies this
      ensures Valid()
      ensures takenSnapshots == old(takenSnapshots) + [MemorySnapshot(now, usage)]
      ensures memorySnapshots == Push(old(memorySnapshots), MemorySnapshot(now, usage), SNAPSHOT_LOG_SIZE)
      ensures |memorySnapshots| <= SNAPSHOT_LOG_SIZE
      ensures requests == old(requests) && errors == old(errors) && startTime == old(startTime)
      ensures hits == old(hits) && misses == old(misses)
      ensures loggedRequests == old(loggedRequests) && loggedErrors == old(loggedErrors)
    {
      var snapshot := MemorySnapshot(now, usage);
      PushKeepsLast(takenSnapshots, memorySnapshots, snapshot, SNAPSHOT_LOG_SIZE);
      memorySnapshots := memorySnapshots + [snapshot];
      if |memorySnapshots| > SNAPSHOT_LOG_SIZE {
        memorySnapshots := memorySnapshots[1..];
      }
      takenSnapshots := takenSnapshots + [snapshot];
    }

    /**
     * `getRequestTypeStats(reqs)`: the grouping loop, then the loop over the types that adds each
     * one's average time and cache rate.
     */
    method GetRequestTypeStats(reqs: seq<RequestRecord>) returns (summary: map<string, TypeSummary>)
      ensures summary == Summaries(TypeStatsOf(reqs))
    {
      var stats: map<string, TypeStats> := map[];
      for i := 0 to |reqs|
        invariant stats == TypeStatsOf(reqs[..i])
      {
        var req := reqs[i];
        ghost var before := stats;
        TypeStatsOfPrefix(reqs, i);
        if req.requestType !in stats {
          stats := stats[req.requestType := TypeStats(0, 0, 0)];
        }
        var s := stats[req.requestType];
        assert s == StatsFor(before, req.requestType);
        stats := stats[req.requestType := TypeStats(s.count + 1, s.totalTime + req.duration,
                                                    s.cached + if req.cached then 1 else 0)];
        assert stats == before[req.requestType := Tally(s, req)];
      }
      assert reqs[..|reqs|] == reqs;
      summary := map[];
      var pending := stats.Keys;
      while pending != {}
        invariant pending <= stats.Keys
        invariant summary.Keys == stats.Keys - pending
        invariant forall t :: t in summary ==> summary[t] == Summarize(stats[t])
        decreases pending
      {
        var t :| t in pending;
        summary := summary[t := Summarize(stats[t])];
        pending := pending - {t};
      }
      assert summary.Keys == stats.Keys;
    }

    /**
     * The figures of `generateReport()` at time `now`, with `heapUsedNow` as the current heap size
     * in bytes. Recent means younger than `REPORT_WINDOW`; an average over nothing is 'N/A'.
     */
    method GenerateReport(now: int, heapUsedNow: nat) returns (report: Report)
      ensures report.uptimeMinutes == (now - startTime) as real / 1000.0 / 60.0
      ensures report.totalRequests == |requests|
      ensures report.recentRequests == |Recent(requests, RequestTime, now)| <= |requests|
      ensures report.averageResponseTime.None? <==> Recent(requests, RequestTime, now) == []
      ensures report.averageResponseTime.Some? ==>
        report.averageResponseTime.value == Mean(Durations(Recent(requests, RequestTime, now)))
      ensures report.cacheHitRate.None? <==> hits + misses == 0
      ensures report.cacheHitRate.Some? ==> report.cacheHitRate.value == HitRate(hits, misses)
      ensures report.currentHeapMb == heapUsedNow as real / BYTES_PER_MB
      ensures report.averageHeapMb.None? <==> memorySnapshots == []
      ensures report.averageHeapMb.Some? ==>
        report.averageHeapMb.value == AverageHeapMb(Last(memorySnapshots, RECENT_SNAPSHOTS))
      ensures report.recentErrors == |Recent(errors, ErrorTime, now)| <= |errors|
      ensures report.requestTypes == Summaries(TypeStatsOf(Recent(requests, RequestTime, now)))
    {
      var recentRequests := Recent(requests, RequestTime, now);
      var recentMemory := Last(memorySnapshots, RECENT_SNAPSHOTS);
      var averageResponseTime := if |recentRequests| > 0 then Some(Mean(Durations(recentRequests))) else None;
      var cacheHitRate := if hits + misses > 0 then Some(HitRate(hits, misses)) else None;
      var averageHeap := if |recentMemory| > 0 then Some(AverageHeapMb(recentMemory)) else None;
      var requestTypes := GetRequestTypeStats(recentRequests);
      report := Report(
        (now - startTime) as real / 1000.0 / 60.0,
        |requests|,
        |recentRequests|,
        averageResponseTime,
        cacheHitRate,
        heapUsedNow as real / BYTES_PER_MB,
        averageHeap,
        |Recent(errors, ErrorTime, now)|,
        requestTypes);
    }
  }

  /** `(hits / (hits + misses)) * 100`, a percentage between 0 and 100. */
  function HitRate(hits: nat, misses: nat): real
    requires hits + misses > 0
  {
    Percent(hits, hits + misses)
  }

  /** The hit rate is the hits' share of all requests, as a percentage. */
  lemma HitRateIsShare(hits: nat, misses: nat)
    requires hits + misses > 0
    ensures HitRate(hits, misses) * ((hits + misses) as real) == hits as real * 100.0
    ensures 0.0 <= HitRate(hits, misses) <= 100.0
  {
    PercentBounds(hits, hits + misses);
  }

  /**
   * On a consistent monitor the hit rate is 'N/A' exactly until the first request is logged, and
   * afterwards it is the percentage of cached requests among all requests ever logged, including
   * those the capped log has dropped.
   */
  lemma HitRateCoversEveryLoggedRequest(m: PerformanceMonitor)
    requires m.Valid()
    ensures m.hits + m.misses == 0 <==> m.loggedRequests == []
    ensures m.loggedRequests != [] ==>
      HitRate(m.hits, m.misses) * (|m.loggedRequests| as real) == CountCached(m.loggedRequests) as real * 100.0
  {
    var n := m.hits + m.misses;
    assert n == |m.loggedRequests| && m.hits == CountCached(m.loggedRequests);
    if n > 0 {
      PercentBounds(m.hits, n);
    }
  }
}
