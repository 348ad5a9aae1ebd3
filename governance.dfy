/**
 * The module-level state of index.js and the code that updates it: the `metrics` object and
 * `updateMetrics`, the rate-limit map and `isRateLimited`, the response cache with its inlined
 * lookup and store blocks and the periodic sweep, `processVoiceMessage`, `processTextMessage`,
 * the rate-limit middleware and the voice and text handlers. Each handled update is one atomic
 * step; clocks and the outcomes of outside calls are parameters.
 */
module Governance {
  import opened Common
  import opened Sequences
  import opened RateLimit
  import opened ResponseCache
  import opened Pipeline
  import CacheKey

  /** How many response times `responseTimeHistory` keeps. */
  const HISTORY_SIZE: nat := 100

  /** The `metrics` object. */
  class Metrics {
    var totalRequests: nat
    var cacheHits: nat
    var rateLimitHits: nat
    var errors: nat
    var averageResponseTime: real
    var responseTimeHistory: seq<int>
    /** Every response time ever recorded, oldest first. */
    ghost var recorded: seq<int>

    /**
     * One request is counted per recorded time; the history holds the last 100 recorded times in
     * order; the average is the mean of the history (0 before the first request).
     */
    ghost predicate Valid()
      reads this`totalRequests, this`recorded, this`responseTimeHistory, this`averageResponseTime
    {
      && totalRequests == |recorded|
      && responseTimeHistory == Last(recorded, HISTORY_SIZE)
      && averageResponseTime == if responseTimeHistory == [] then 0.0 else Mean(responseTimeHistory)
    }

    constructor ()
      ensures Valid() && recorded == []
      ensures totalRequests == 0 && cacheHits == 0 && rateLimitHits == 0 && errors == 0
    {
      totalRequests, cacheHits, rateLimitHits, errors := 0, 0, 0, 0;
      averageResponseTime := 0.0;
      responseTimeHistory := [];
      recorded := [];
    }

    /** `updateMetrics(responseTime)`. */
    method UpdateMetrics(responseTime: int)
      requires Valid()
      modifies this`totalRequests, this`responseTimeHistory, this`averageResponseTime, this`recorded
      ensures Valid()
      ensures recorded == old(recorded) + [responseTime]
      ensures totalRequests == old(totalRequests) + 1
      ensures responseTimeHistory == Push(old(responseTimeHistory), responseTime, HISTORY_SIZE)
      ensures |responseTimeHistory| <= HISTORY_SIZE && averageResponseTime == Mean(responseTimeHistory)
    {
      PushKeepsLast(recorded, responseTimeHistory, responseTime, HISTORY_SIZE);
      totalRequests := totalRequests + 1;
      responseTimeHistory := responseTimeHistory + [responseTime];
      if |responseTimeHistory| > HISTORY_SIZE {
        responseTimeHistory := responseTimeHistory[1..];
      }
      averageResponseTime := Sum(responseTimeHistory) as real / |responseTimeHistory| as real;
      recorded := recorded + [responseTime];
    }

    /**
     * The end of one processed request: `cacheHits++` after a cache hit or `errors++` after a
     * failure, then `updateMetrics(responseTime)`.
     */
    method Finish(responseTime: int, hit: bool, failed: bool)
      requires Valid()
      modifies this
      ensures Valid()
      ensures recorded == old(recorded) + [responseTime]
      ensures cacheHits == old(cacheHits) + (if hit then 1 else 0)
      ensures errors == old(errors) + (if failed then 1 else 0)
      ensures rateLimitHits == old(rateLimitHits)
    {
      if hit {
        cacheHits := cacheHits + 1;
      }
      if failed {
        errors := errors + 1;
      }
      UpdateMetrics(responseTime);
    }
  }

  /** What arrives from the chat transport: the sender's id (`ctx.from?.id`), if any, and the content. */
  datatype Update = Update(from: Option<int>, payload: Payload)

  /**
   * A text that reaches the text handler, a voice message (`file_id` and the optional `file_size`),
   * or any other update (commands and the rest), which only the middleware sees.
   */
  datatype Payload =
    | TextMessage(text: string)
    | VoiceMessage(fileId: string, fileSize: Option<int>)
    | OtherUpdate

  /** The outcomes the outside calls of this update would have, each used only if its call is made. */
  datatype Upstreams = Upstreams(download: Download, transcription: Outcome, completion: Outcome)

  /** What the bot sends back: the AI's answer or one of the fixed notices. */
  datatype Reply = Answer(text: string) | Notify(notice: Notice)

  /** `rateLimitMap.get(userId) || []`. */
  function Window(m: map<int, seq<int>>, userId: int): seq<int>
  {
    if userId in m then m[userId] else []
  }

  /** The middleware's `userId && ...`: an absent id, or id 0, is falsy and is not limited. */
  predicate Limitable(from: Option<int>)
  {
    from.Some? && from.value != 0
  }

  /** An update the rate limiter turns away. */
  predicate Throttled(m: map<int, seq<int>>, u: Update, now: int)
  {
    Limitable(u.from) && !Admits(Window(m, u.from.value), now)
  }

  /** An update that reaches `processVoiceMessage` or `processTextMessage` once it is admitted. */
  predicate Processed(p: Payload)
  {
    p.VoiceMessage? || (p.TextMessage? && !TextTooLong(p.text))
  }

  /** What one processing call yields: its outcome, the new cache, the outside calls made, and whether it was a cache hit. */
  datatype Step = Step(result: Result<string, Thrown>, cache: Cache, calls: seq<Call>, hit: bool)

  /**
   * The cache discipline on values, for `key` looked up at `now`, an exchange `miss` that is made
   * only on a miss, and a store stamped `finish`.
   */
  function Served(cache: Cache, key: string, now: int, finish: int, miss: Exchange): (s: Step)
    ensures s.hit <==> Lookup(cache, key, now).Some?
    ensures s.hit ==> s.result == Success(cache[key].response) && s.cache == cache && s.calls == []
    ensures !s.hit ==> s.result == miss.result && s.calls == miss.calls
    ensures !s.hit && s.result.Success? ==> key in s.cache && s.cache[key] == Entry(s.result.value, finish)
    ensures !s.hit && s.result.Failure? ==> key !in s.cache
    ensures forall k :: k != key ==> (k in s.cache <==> k in cache)
    ensures forall k :: k != key && k in s.cache ==> s.cache[k] == cache[k]
  {
    var hit := Lookup(cache, key, now);
    if hit.Some? then Step(Success(hit.value), cache, [], true)
    else
      var remaining := AfterLookup(cache, key, now);
      Step(miss.result, if miss.result.Success? then Store(remaining, key, miss.result.value, finish) else remaining,
           miss.calls, false)
  }

  /** `processVoiceMessage` on values: an oversized file fails before the cache is consulted. */
  function VoiceStep(cache: Cache, fileId: string, fileSize: Option<int>, now: int, finish: int, up: Upstreams): Step
  {
    if VoiceTooLarge(fileSize) then Step(Failure(TooLarge), cache, [], false)
    else Served(cache, CacheKey.GetCacheKey("voice", fileId), now, finish,
                VoiceExchange(fileId, up.download, up.transcription, up.completion))
  }

  /** `processTextMessage` on values. */
  function TextStep(cache: Cache, message: string, now: int, finish: int, completion: Outcome): Step
  {
    Served(cache, CacheKey.GetCacheKey("text", message), now, finish, TextExchange(message, completion))
  }

  /** An oversized voice message gets its own notice and touches neither the cache nor any outside service. */
  lemma OversizedVoiceTouchesNothing(cache: Cache, fileId: string, fileSize: Option<int>, now: int, finish: int, up: Upstreams)
    requires VoiceTooLarge(fileSize)
    ensures var s := VoiceStep(cache, fileId, fileSize, now, finish, up);
      && s.cache == cache && s.calls == [] && !s.hit
      && VoiceReply(s.result) == Notify(VoiceTooLargeNotice)
  {
    VoiceNoticeForEachKind(TooLarge);
  }

  /**
   * A text the AI service answered is answered again from the cache, with no outside call, by any
   * request for the same text that starts less than `CACHE_TTL` after the answer was stored.
   */
  lemma RepeatedTextServedFromCache(cache: Cache, message: string, now: int, finish: int, completion: Outcome,
                                    later: int, laterFinish: int, laterCompletion: Outcome)
    requires var s := TextStep(cache, message, now, finish, completion); !s.hit && s.result.Success?
    requires later - finish < CACHE_TTL
    ensures var s := TextStep(cache, message, now, finish, completion);
      TextStep(s.cache, message, later, laterFinish, laterCompletion) == Step(s.result, s.cache, [], true)
  {
  }

  /** A failed text request leaves no entry behind, so the next request for the same text asks the AI service again. */
  lemma FailedTextIsRetried(cache: Cache, message: string, now: int, finish: int, completion: Outcome,
                            later: int, laterFinish: int, laterCompletion: Outcome)
    requires TextStep(cache, message, now, finish, completion).result.Failure?
    ensures var s := TextStep(cache, message, now, finish, completion);
      var t := TextStep(s.cache, message, later, laterFinish, laterCompletion);
      !t.hit && t.calls == [Complete(message)]
  {
  }

  /**
   * A voice message whose answer was stored is answered again from the cache, with no download,
   * transcription or completion, while its entry is live.
   */
  lemma RepeatedVoiceServedFromCache(cache: Cache, fileId: string, fileSize: Option<int>, now: int, finish: int,
                                     up: Upstreams, later: int, laterFinish: int, laterUp: Upstreams)
    requires var s := VoiceStep(cache, fileId, fileSize, now, finish, up); !s.hit && s.result.Success?
    requires later - finish < CACHE_TTL
    ensures var s := VoiceStep(cache, fileId, fileSize, now, finish, up);
      VoiceStep(s.cache, fileId, fileSize, later, laterFinish, laterUp) == Step(s.result, s.cache, [], true)
  {
  }

  /** Text requests never overwrite or delete the entry of a voice message, whatever their contents. */
  lemma TextStepKeepsVoiceEntries(cache: Cache, message: string, now: int, finish: int, completion: Outcome, fileId: string)
    requires CacheKey.GetCacheKey("voice", fileId) in cache
    ensures var key := CacheKey.GetCacheKey("voice", fileId);
      var c := TextStep(cache, message, now, finish, completion).cache;
      key in c && c[key] == cache[key]
  {
    var key := CacheKey.GetCacheKey("voice", fileId);
    if key == CacheKey.GetCacheKey("text", message) {
      CacheKey.TagsSeparateKeys("voice", "text", fileId, message);
    }
  }

  /** The reply the voice handler sends for the result of `processVoiceMessage`. */
  function VoiceReply(r: Result<string, Thrown>): Reply
  {
    match r
    case Success(text) => Answer(text)
    case Failure(e) => Notify(VoiceErrorNotice(e))
  }

  /** The reply the text handler sends for the result of `processTextMessage`. */
  function TextReply(r: Result<string, Thrown>): Reply
  {
    match r
    case Success(text) => Answer(text)
    case Failure(_) => Notify(TextFailed)
  }

  /** The process-wide state of index.js: `responseCache`, `rateLimitMap` and `metrics`. */
  class Bot {
    var responseCache: Cache
    var rateLimitMap: map<int, seq<int>>
    const metrics: Metrics
    /** The calls to the chat transport's file host and to the AI service, in order. */
    ghost var upstreamLog: seq<Call>

    /**
     * The metrics are consistent, every stored window holds between one and ten timestamps, and
     * cache hits and errors together never outnumber counted requests.
     */
    ghost predicate Valid()
      reads this`rateLimitMap, metrics
    {
      && metrics.Valid()
      && (forall u :: u in rateLimitMap ==> 0 < |rateLimitMap[u]| <= RATE_LIMIT_MAX_REQUESTS)
      && metrics.cacheHits + metrics.errors <= metrics.totalRequests
    }

    constructor ()
      ensures Valid() && fresh(metrics)
      ensures responseCache == map[] && rateLimitMap == map[] && upstreamLog == []
      ensures metrics.recorded == [] && metrics.rateLimitHits == 0
    {
      responseCache := map[];
      rateLimitMap := map[];
      metrics := new Metrics();
      upstreamLog := [];
    }

    /** `isRateLimited(userId)` at time `now`: true means the request is rejected. */
    method IsRateLimited(userId: int, now: int) returns (limited: bool)
      requires Valid()
      modifies this`rateLimitMap, metrics`rateLimitHits
      ensures Valid()
      ensures limited == !Admits(Window(old(rateLimitMap), userId), now)
      ensures rateLimitMap == old(rateLimitMap)[userId := Next(Window(old(rateLimitMap), userId), now)]
      ensures limited ==> rateLimitMap == old(rateLimitMap)
      ensures metrics.rateLimitHits == old(metrics.rateLimitHits) + if limited then 1 else 0
    {
      var userRequests := Window(rateLimitMap, userId);
      var validRequests := Prune(userRequests, now);
      if |validRequests| >= RATE_LIMIT_MAX_REQUESTS {
        metrics.rateLimitHits := metrics.rateLimitHits + 1;
        return true;
      }
      rateLimitMap := rateLimitMap[userId := validRequests + [now]];
      return false;
    }

    /** The lookup block: serve a live entry, delete an expired one. */
    method LookupCache(key: string, now: int) returns (hit: Option<string>)
      modifies this`responseCache
      ensures hit == Lookup(old(responseCache), key, now)
      ensures responseCache == AfterLookup(old(responseCache), key, now)
    {
      if key in responseCache {
        var cached := responseCache[key];
        if now - cached.timestamp < CACHE_TTL {
          return Some(cached.response);
        }
        responseCache := responseCache - {key};
      }
      return None;
    }

    /** The store block that follows an upstream success. */
    method StoreCache(key: string, response: string, now: int)
      modifies this`responseCache
      ensures responseCache == Store(old(responseCache), key, response, now)
    {
      responseCache := responseCache[key := Entry(response, now)];
    }

    /** The periodic sweep: visit every entry once and delete those older than `CACHE_TTL`. */
    method SweepCache(now: int)
      modifies this`responseCache
      ensures responseCache == Swept(old(responseCache), now)
    {
      var pending := responseCache.Keys;
      while pending != {}
        invariant pending <= old(responseCache).Keys
        invariant forall k :: k in responseCache <==> k in old(responseCache) && (k in pending || !Stale(old(responseCache)[k], now))
        invariant forall k :: k in responseCache ==> responseCache[k] == old(responseCache)[k]
        decreases pending
      {
        var key :| key in pending;
        if now - responseCache[key].timestamp > CACHE_TTL {
          responseCache := responseCache - {key};
        }
        pending := pending - {key};
      }
    }

    /**
     * The cache discipline both processing functions share, for a request started at `now` and
     * finished at `finish`: a live entry is served and counted as a hit; otherwise the exchange's
     * calls are made and logged, a success is stored and a failure counted as an error.
     */
    method Serve(key: string, now: int, finish: int, miss: Exchange) returns (r: Result<string, Thrown>)
      requires Valid()
      modifies this`responseCache, this`upstreamLog, metrics
      ensures Valid()
      ensures var s := Served(old(responseCache), key, now, finish, miss);
        && r == s.result && responseCache == s.cache && upstreamLog == old(upstreamLog) + s.calls
        && metrics.cacheHits == old(metrics.cacheHits) + (if s.hit then 1 else 0)
      ensures metrics.errors == old(metrics.errors) + if r.Failure? then 1 else 0
      ensures metrics.recorded == old(metrics.recorded) + [finish - now]
      ensures metrics.rateLimitHits == old(metrics.rateLimitHits)
    {
      var hit := LookupCache(key, now);
      if hit.Some? {
        metrics.Finish(finish - now, true, false);
        return Success(hit.value);
      }
      upstreamLog := upstreamLog + miss.calls;
      r := miss.result;
      if r.Success? {
        StoreCache(key, r.value, finish);
      }
      metrics.Finish(finish - now, false, r.Failure?);
    }

    /**
     * `processVoiceMessage`, started at `now` and finished at `finish`: the size check before the
     * cache, then the voice exchange under the cache discipline; every path records one response
     * time and a failure counts one error.
     */
    method ProcessVoiceMessage(fileId: string, fileSize: Option<int>, now: int, finish: int, up: Upstreams)
      returns (r: Result<string, Thrown>)
      requires Valid()
      modifies this`responseCache, this`upstreamLog, metrics
      ensures Valid()
      ensures var s := VoiceStep(old(responseCache), fileId, fileSize, now, finish, up);
        && r == s.result && responseCache == s.cache && upstreamLog == old(upstreamLog) + s.calls
        && metrics.cacheHits == old(metrics.cacheHits) + (if s.hit then 1 else 0)
      ensures metrics.errors == old(metrics.errors) + if r.Failure? then 1 else 0
      ensures metrics.recorded == old(metrics.recorded) + [finish - now]
      ensures metrics.rateLimitHits == old(metrics.rateLimitHits)
    {
      if VoiceTooLarge(fileSize) {
        metrics.Finish(finish - now, false, true);
        return Failure(TooLarge);
      }
      var cacheKey := CacheKey.GetCacheKey("voice", fileId);
      r := Serve(cacheKey, now, finish, VoiceExchange(fileId, up.download, up.transcription, up.completion));
    }

    /**
     * `processTextMessage`, started at `now` and finished at `finish`: the text exchange under the
     * cache discipline.
     */
    method ProcessTextMessage(message: string, now: int, finish: int, completion: Outcome)
      returns (r: Result<string, Thrown>)
      requires Valid()
      modifies this`responseCache, this`upstreamLog, metrics
      ensures Valid()
      ensures var s := TextStep(old(responseCache), message, now, finish, completion);
        && r == s.result && responseCache == s.cache && upstreamLog == old(upstreamLog) + s.calls
        && metrics.cacheHits == old(metrics.cacheHits) + (if s.hit then 1 else 0)
      ensures metrics.errors == old(metrics.errors) + if r.Failure? then 1 else 0
      ensures metrics.recorded == old(metrics.recorded) + [finish - now]
      ensures metrics.rateLimitHits == old(metrics.rateLimitHits)
    {
      var cacheKey := CacheKey.GetCacheKey("text", message);
      r := Serve(cacheKey, now, finish, TextExchange(message, completion));
    }

    /** The voice handler: the answer, or the notice chosen from the error's message. */
    method HandleVoice(fileId: string, fileSize: Option<int>, now: int, finish: int, up: Upstreams)
      returns (reply: Reply)
      requires Valid()
      modifies this`responseCache, this`upstreamLog, metrics
      ensures Valid()
      ensures var s := VoiceStep(old(responseCache), fileId, fileSize, now, finish, up);
        && reply == VoiceReply(s.result)
        && responseCache == s.cache && upstreamLog == old(upstreamLog) + s.calls
        && metrics.cacheHits == old(metrics.cacheHits) + (if s.hit then 1 else 0)
        && metrics.errors == old(metrics.errors) + (if s.result.Failure? then 1 else 0)
      ensures metrics.recorded == old(metrics.recorded) + [finish - now]
      ensures metrics.rateLimitHits == old(metrics.rateLimitHits)
    {
      var result := ProcessVoiceMessage(fileId, fileSize, now, finish, up);
      match result
      case Success(answer) => reply := Answer(answer);
      case Failure(err) => reply := Notify(VoiceErrorNotice(err));
    }

    /** The text handler: the length check, then the answer or the generic failure notice. */
    method HandleText(message: string, now: int, finish: int, completion: Outcome) returns (reply: Reply)
      requires Valid()
      modifies this`responseCache, this`upstreamLog, metrics
      ensures Valid()
      ensures TextTooLong(message) ==>
        && reply == Notify(TextTooLongNotice)
        && responseCache == old(responseCache) && upstreamLog == old(upstreamLog)
        && unchanged(metrics)
      ensures !TextTooLong(message) ==>
        var s := TextStep(old(responseCache), message, now, finish, completion);
        && reply == TextReply(s.result)
        && responseCache == s.cache && upstreamLog == old(upstreamLog) + s.calls
        && metrics.cacheHits == old(metrics.cacheHits) + (if s.hit then 1 else 0)
        && metrics.errors == old(metrics.errors) + (if s.result.Failure? then 1 else 0)
        && metrics.recorded == old(metrics.recorded) + [finish - now]
      ensures metrics.rateLimitHits == old(metrics.rateLimitHits)
    {
      if TextTooLong(message) {
        return Notify(TextTooLongNotice);
      }
      var result := ProcessTextMessage(message, now, finish, completion);
      match result
      case Success(answer) => reply := Answer(answer);
      case Failure(_) => reply := Notify(TextFailed);
    }

    /**
     * One update through the middleware and the handlers. A throttled update gets only the wait
     * notice and changes nothing but `rateLimitHits`; an admitted one is recorded in the sender's
     * window, and every update that reaches a processing function records exactly one response time.
     */
    method HandleUpdate(u: Update, now: int, finish: int, up: Upstreams) returns (reply: Option<Reply>)
      requires Valid()
      modifies this, metrics
      ensures Valid()
      ensures Throttled(old(rateLimitMap), u, now) ==>
        && reply == Some(Notify(Wait))
        && rateLimitMap == old(rateLimitMap)
        && responseCache == old(responseCache) && upstreamLog == old(upstreamLog)
        && metrics.rateLimitHits == old(metrics.rateLimitHits) + 1
        && metrics.recorded == old(metrics.recorded)
        && metrics.totalRequests == old(metrics.totalRequests)
        && metrics.cacheHits == old(metrics.cacheHits)
        && metrics.errors == old(metrics.errors)
        && metrics.averageResponseTime == old(metrics.averageResponseTime)
      ensures !Throttled(old(rateLimitMap), u, now) ==>
        && metrics.rateLimitHits == old(metrics.rateLimitHits)
        && rateLimitMap == (if Limitable(u.from)
                            then old(rateLimitMap)[u.from.value := Next(Window(old(rateLimitMap), u.from.value), now)]
                            else old(rateLimitMap))
        && metrics.recorded == old(metrics.recorded) + (if Processed(u.payload) then [finish - now] else [])
        && (reply.None? <==> u.payload.OtherUpdate?)
      ensures !Throttled(old(rateLimitMap), u, now) && !Processed(u.payload) ==>
        && responseCache == old(responseCache) && upstreamLog == old(upstreamLog)
        && metrics.errors == old(metrics.errors) && metrics.cacheHits == old(metrics.cacheHits)
      ensures !Throttled(old(rateLimitMap), u, now) && u.payload.TextMessage? && TextTooLong(u.payload.text) ==>
        reply == Some(Notify(TextTooLongNotice))
      ensures !Throttled(old(rateLimitMap), u, now) && u.payload.TextMessage? && !TextTooLong(u.payload.text) ==>
        var s := TextStep(old(responseCache), u.payload.text, now, finish, up.completion);
        && reply == Some(TextReply(s.result))
        && responseCache == s.cache && upstreamLog == old(upstreamLog) + s.calls
        && metrics.errors == old(metrics.errors) + (if s.result.Failure? then 1 else 0)
        && metrics.cacheHits == old(metrics.cacheHits) + (if s.hit then 1 else 0)
      ensures !Throttled(old(rateLimitMap), u, now) && u.payload.VoiceMessage? ==>
        var s := VoiceStep(old(responseCache), u.payload.fileId, u.payload.fileSize, now, finish, up);
        && reply == Some(VoiceReply(s.result))
        && responseCache == s.cache && upstreamLog == old(upstreamLog) + s.calls
        && metrics.errors == old(metrics.errors) + (if s.result.Failure? then 1 else 0)
        && metrics.cacheHits == old(metrics.cacheHits) + (if s.hit then 1 else 0)
    {
      if Limitable(u.from) {
        var limited := IsRateLimited(u.from.value, now);
        if limited {
          return Some(Notify(Wait));
        }
      }
      match u.payload
      case TextMessage(text) =>
        var answer := HandleText(text, now, finish, up.completion);
        reply := Some(answer);
      case VoiceMessage(fileId, fileSize) =>
        var answer := HandleVoice(fileId, fileSize, now, finish, up);
        reply := Some(answer);
      case OtherUpdate =>
        reply := None;
    }
  }
}
