/** The per-user sliding window of index.js (`isRateLimited`), as functions on one user's window. */
module RateLimit {

  /** `RATE_LIMIT_WINDOW`: one minute, in milliseconds. */
  const RATE_LIMIT_WINDOW: int := 60 * 1000
  /** `RATE_LIMIT_MAX_REQUESTS`. */
  const RATE_LIMIT_MAX_REQUESTS: nat := 10

  /** A timestamp still counts against the user at `now` while it is less than a window old. */
  predicate InWindow(t: int, now: int)
  {
    now - t < RATE_LIMIT_WINDOW
  }

  /** `userRequests.filter(time => now - time < RATE_LIMIT_WINDOW)`. */
  function Prune(w: seq<int>, now: int): (r: seq<int>)
    ensures |r| <= |w|
    ensures forall i :: 0 <= i < |r| ==> InWindow(r[i], now)
  {
    if w == [] then [] else (if InWindow(w[0], now) then [w[0]] else []) + Prune(w[1..], now)
  }

  /** The filter keeps exactly the timestamps of `w` still in the window. */
  lemma {:induction false} PruneMembers(w: seq<int>, now: int, t: int)
    ensures t in Prune(w, now) <==> t in w && InWindow(t, now)
  {
    if w != [] {
      PruneMembers(w[1..], now, t);
      assert w == [w[0]] + w[1..];
    }
  }

  /** Whether a request at `now` is admitted: fewer than the maximum still in the window. */
  predicate Admits(w: seq<int>, now: int)
  {
    |Prune(w, now)| < RATE_LIMIT_MAX_REQUESTS
  }

  /**
   * The stored window after a request at `now`: on admission the pruned window with `now`
   * appended; on rejection the old window, not even pruned.
   */
  function Next(w: seq<int>, now: int): (r: seq<int>)
    ensures Admits(w, now) ==> r == Prune(w, now) + [now] && |r| <= RATE_LIMIT_MAX_REQUESTS
    ensures !Admits(w, now) ==> r == w
  {
    if Admits(w, now) then Prune(w, now) + [now] else w
  }

  /** Pruning keeps the admitted timestamps in their order: it distributes over concatenation. */
  lemma {:induction false} PruneAppend(a: seq<int>, b: seq<int>, now: int)
    ensures Prune(a + b, now) == Prune(a, now) + Prune(b, now)
  {
    if a == [] {
      assert a + b == b;
    } else {
      assert (a + b)[1..] == a[1..] + b;
      PruneAppend(a[1..], b, now);
    }
  }

  /** A window whose timestamps are all recent is left as it is. */
  lemma {:induction false} PruneKeepsRecent(w: seq<int>, now: int)
    requires forall i :: 0 <= i < |w| ==> InWindow(w[i], now)
    ensures Prune(w, now) == w
  {
    if w != [] {
      PruneKeepsRecent(w[1..], now);
    }
  }

  /** A window holding a timestamp a full window old or older loses at least one entry. */
  lemma {:induction false} PruneDropsExpired(w: seq<int>, now: int, i: nat)
    requires i < |w| && !InWindow(w[i], now)
    ensures |Prune(w, now)| < |w|
  {
    if i > 0 {
      PruneDropsExpired(w[1..], now, i - 1);
    }
  }

  /** Once any entry of a stored window (at most the maximum long) is a window old, the next request is admitted. */
  lemma AdmitsOnceAnEntryExpires(w: seq<int>, now: int, i: nat)
    requires |w| <= RATE_LIMIT_MAX_REQUESTS
    requires i < |w| && now - w[i] >= RATE_LIMIT_WINDOW
    ensures Admits(w, now)
  {
    PruneDropsExpired(w, now, i);
  }

  /** The admission decisions for requests at the given times, starting from window `w`. */
  function Decisions(w: seq<int>, times: seq<int>): (r: seq<bool>)
    ensures |r| == |times|
    decreases |times|
  {
    if times == [] then [] else [Admits(w, times[0])] + Decisions(Next(w, times[0]), times[1..])
  }

  function Repeat(b: bool, n: nat): (r: seq<bool>)
    ensures |r| == n && forall i :: 0 <= i < n ==> r[i] == b
  {
    if n == 0 then [] else [b] + Repeat(b, n - 1)
  }

  /** Helper: with `k` of the requests already in the window, the rest go as the window's capacity dictates. */
  lemma {:induction false} DecisionsWithinOneWindow(times: seq<int>, start: int, k: nat)
    requires |times| == RATE_LIMIT_MAX_REQUESTS + 1 && k <= RATE_LIMIT_MAX_REQUESTS
    requires forall i :: 0 <= i < |times| ==> start <= times[i] < start + RATE_LIMIT_WINDOW
    ensures Decisions(times[..k], times[k..])
            == Repeat(true, RATE_LIMIT_MAX_REQUESTS - k) + [false]
    decreases RATE_LIMIT_MAX_REQUESTS - k
  {
    var w, now := times[..k], times[k];
    PruneKeepsRecent(w, now);
    assert times[k..][1..] == times[k + 1..];
    if k < RATE_LIMIT_MAX_REQUESTS {
      assert Next(w, now) == times[..k + 1];
      DecisionsWithinOneWindow(times, start, k + 1);
      var tail := Repeat(true, RATE_LIMIT_MAX_REQUESTS - k - 1);
      assert Repeat(true, RATE_LIMIT_MAX_REQUESTS - k) == [true] + tail;
      assert [true] + (tail + [false]) == [true] + tail + [false];
    } else {
      assert times[k + 1..] == [];
    }
  }

  /**
   * From an empty window, eleven requests within one window: the first ten are admitted and the
   * eleventh is rejected.
   */
  lemma TenAdmittedThenEleventhRejected(times: seq<int>, start: int)
    requires |times| == RATE_LIMIT_MAX_REQUESTS + 1
    requires forall i :: 0 <= i < |times| ==> start <= times[i] < start + RATE_LIMIT_WINDOW
    ensures Decisions([], times) == Repeat(true, RATE_LIMIT_MAX_REQUESTS) + [false]
  {
    DecisionsWithinOneWindow(times, start, 0);
    assert times[..0] == [] && times[0..] == times;
  }
}
