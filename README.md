# Telegram AI bot: request governance and performance logs

This project is a Dafny model of the bookkeeping behind a Telegram bot that answers text and voice
messages with an AI service (index.js), and of the bounded logs of its stand-alone performance
monitor (performance-monitor.js). The model covers:

- the per-user sliding-window rate limiter and the middleware that applies it;
- the response cache: its key derivation (`type:` followed by the first 50 base64 characters of
  the content's UTF-8 bytes), the lookup that expires entries lazily, the store after an upstream
  success, and the periodic sweep;
- the metrics collector with its 100-entry response-time history;
- the voice and text processing functions and their handlers, including the choice of error reply;
- the monitor's request, error and memory-snapshot logs (capped at 1000, 100 and 100 entries), its
  hit/miss counters, per-type statistics, and the counting and filtering in its report.

Modules, one per component:

- `Common`: Option, Result and Byte values.
- `Sequences`: sums, means and the bounded push-then-shift log.
- `JsStrings`: `trim`, `includes`, `length` in UTF-16 code units, decimal rendering.
- `Utf8` and `Base64`: `Buffer.from(s).toString('base64')`, following section 4 of RFC 4648.
- `CacheKey`: `getCacheKey`.
- `RateLimit` and `ResponseCache`: the window and the cache as functions on values.
- `Pipeline`: limits, thrown errors, reply notices and the upstream exchanges.
- `Governance`: the module-level state of index.js as classes `Metrics` and `Bot`.
- `Monitoring`: class `PerformanceMonitor`.

Each handled update is one atomic step. The clock is a parameter: `now` is the instant the
request starts (every `Date.now()` before the first outside call), and `finish` is the instant it
ends (the store timestamp and the end of the recorded duration). The outcomes of the outside
calls are parameters too: file download, transcription and completion. Only the calls actually
made are recorded, in the ghost log `upstreamLog`. Ghost histories (`recorded`, `loggedRequests`,
…) hold everything ever appended. The class invariants relate the capped logs and the counters to
those histories.

Three behaviours of the code are easy to misread, and the model keeps them as written:

- The sweep deletes an entry only when it is strictly older than the TTL (`>`). The lookup
  accepts it only while it is strictly younger (`<`). An entry exactly one TTL old therefore
  survives the sweep, yet misses on lookup.
- The sweep returns nothing.
- "4000 characters" is JavaScript's `length`, which counts UTF-16 code units.

## Model

| member | source | states |
|---|---|---|
| Sequences.Push | index.js:51-56 | push then at most one shift: the new value is last; a log below the cap grows by it; a full log loses its oldest entry; the cap is never exceeded |
| Sequences.Last | performance-monitor.js:93 | `slice(-10)`, and `slice(-n)` for every n > 0: the last min(n, \|s\|) entries |
| Sequences.PushKeepsLast | index.js:51-56 | a log that holds the last `cap` values appended still does after one more bounded append, in order |
| JsStrings.Trim | index.js:125 | the result is a contiguous slice of the input; everything cut off on either side is white space |
| JsStrings.TrimEnds | index.js:125 | the result is empty or neither starts nor ends with a white-space character |
| JsStrings.TrimEmptyIffBlank | index.js:114 | `!text.trim()` holds exactly when every character is white space |
| JsStrings.TrimIdempotent | index.js:125 | trimming twice is trimming once |
| JsStrings.Utf16Length | index.js:248 | `length` lies between the number of code points and twice that |
| JsStrings.IncludesChars | index.js:233-235 | every character of an included string occurs in the including one |
| JsStrings.Decimal | index.js:101 | the rendering of a status code is non-empty and all decimal digits |
| Utf8.Encode | index.js:29 | one to four bytes per character |
| Utf8.EncodeAppend | index.js:29 | encoding distributes over concatenation |
| Utf8.EncodeInjective | index.js:29 | distinct strings have distinct UTF-8 bytes |
| Base64.Encode | index.js:29 | four characters per started group of three bytes |
| Base64.EncodeAppend | index.js:29 | encoding works quantum by quantum on a prefix whose length is a multiple of three |
| Base64.DecodeEncode | index.js:29 | decoding undoes encoding for every byte string |
| Base64.EncodeInjective | index.js:29 | distinct byte strings have distinct encodings |
| CacheKey.GetCacheKey | index.js:28-30 | the key starts with `type:` and has at most 50 characters after it |
| CacheKey.SharedPrefixSameKey | index.js:28-30 | contents whose UTF-8 bytes agree on the first 39 bytes get the same key |
| CacheKey.ShortContentsDistinctKeys | index.js:28-30 | contents of at most 36 UTF-8 bytes never share a key |
| CacheKey.TagsSeparateKeys | index.js:28-30 | keys of different colon-free tags never coincide |
| RateLimit.Prune | index.js:37 | every kept timestamp is younger than the window, and no more are kept than there were |
| RateLimit.PruneMembers | index.js:37 | a timestamp is kept exactly when it was stored and is younger than the window |
| RateLimit.PruneAppend | index.js:37 | pruning keeps order: it distributes over concatenation |
| RateLimit.Next | index.js:37-46 | on admission the window becomes the pruned window plus `now`, at most 10 long; on rejection it is unchanged, not even pruned |
| RateLimit.Admits | index.js:37-39 | a request is admitted exactly when fewer than 10 timestamps of the stored window are younger than a minute |
| RateLimit.AdmitsOnceAnEntryExpires | index.js:37-39 | once any stored timestamp is a full window old, the next request is admitted |
| RateLimit.TenAdmittedThenEleventhRejected | index.js:37-46 | from an empty window, of eleven requests within one window the first ten are admitted and the eleventh rejected |
| ResponseCache.Lookup | index.js:87-93 | a hit exactly when the key is present and younger than the TTL, returning its response |
| ResponseCache.AfterLookup | index.js:87-95 | only a present but expired entry is deleted; nothing else changes |
| ResponseCache.Store | index.js:128-131 | the key is overwritten with the response and the store time; other keys keep their entries |
| ResponseCache.Swept | index.js:264-271 | exactly the entries not older than the TTL remain, unchanged |
| ResponseCache.StoreThenLookup | index.js:128-131 | a stored response is served while younger than the TTL and not after, whether or not a sweep ran |
| ResponseCache.StoreLeavesOtherKeys | index.js:128-131 | a store does not affect the lookup of another key |
| ResponseCache.SweepKeepsLive | index.js:264-271 | the sweep never removes an entry a lookup at the same instant would serve |
| ResponseCache.BoundaryEntrySurvivesSweepButMisses | index.js:264-271 | an entry exactly one TTL old survives the sweep, misses on lookup and is deleted by that lookup |
| ResponseCache.SweptEntriesAtMostTtlOld | index.js:264-271 | after a sweep no entry is older than the TTL |
| ResponseCache.SweepIdempotent | index.js:264-271 | sweeping twice at one instant is sweeping once |
| Pipeline.VoiceTooLarge | index.js:81 | a file is too large exactly when its size is known and above 20 MiB; an absent size never is |
| Pipeline.TextTooLong | index.js:248 | a text is too long exactly when its UTF-16 length exceeds 4000 |
| Pipeline.Message | index.js:82-115 | the message text of each error the voice and text paths throw, a failed download carrying its status in decimal; an outside error keeps its own message |
| Pipeline.VoiceErrorNotice | index.js:233-239 | the voice handler's reply: the size notice when the message mentions "too large", else the recognition notice when it mentions "Empty transcription", else the generic one; see `VoiceNoticeForEachKind` and `ForeignErrorClassifiedByText` |
| Pipeline.TextLengthBounds | index.js:248 | a text of at most 2000 code points is never too long; one of more than 4000 always is |
| Pipeline.VoiceNoticeForEachKind | index.js:233-239 | an oversized file gets the size reply, an empty transcription the recognition reply, a failed download the generic reply |
| Pipeline.ForeignErrorClassifiedByText | index.js:233-239 | an outside error is classified only by the words in its message |
| Pipeline.VoiceExchange | index.js:97-125 | the voice path after a cache miss, stopping at the first failure; see `VoiceCallsInOrder` and `VoiceResultFromLastCall` |
| Pipeline.VoiceCallsInOrder | index.js:97-124 | download, then transcription, then completion, in that order: the transcription exactly when the download succeeded, the completion, with the transcript as prompt, exactly when the transcript is not blank |
| Pipeline.VoiceResultFromLastCall | index.js:97-125 | success exactly when all three calls were made and the completion returned, carrying the trimmed completion; the path never fails with the size error |
| Pipeline.CompletionOnlyForSpeech | index.js:113-118 | the completion call is made only for a transcription with a non-white-space character |
| Pipeline.EmptyTranscriptionIffBlank | index.js:113-116 | the empty-transcription error arises exactly for a downloaded, transcribed, all-blank text |
| Pipeline.TextExchange | index.js:161-168 | one completion call with the raw message; success carries the trimmed completion |
| Governance.Metrics.constructor | index.js:15-22 | all counters zero, empty history, average 0 |
| Governance.Metrics.UpdateMetrics | index.js:49-59 | one more request; the history keeps the last 100 recorded times in order; the average is their mean |
| Governance.Metrics.Finish | index.js:90-91 | one recorded time, plus one cache hit or one error as the path requires, nothing else |
| Governance.Window | index.js:34 | a user without a stored window has the empty one |
| Governance.Limitable | index.js:200-203 | only a present, non-zero sender id goes through the rate limiter |
| Governance.Throttled | index.js:200-205 | an update is turned away exactly when its sender is limitable and the window does not admit it |
| Governance.Served | index.js:86-134 | a live entry is served with no outside call; otherwise the exchange decides; a success is stored at the finish time; a failure leaves no entry; other keys keep their entries |
| Governance.VoiceStep | index.js:73-134 | `processVoiceMessage` on values: the size check first, with no cache access or outside call, then the cache discipline of `Served` under the `voice:` key |
| Governance.TextStep | index.js:145-174 | `processTextMessage` on values: the cache discipline of `Served` under the `text:` key with the single completion call |
| Governance.VoiceReply | index.js:227-239 | the voice handler answers with the result or with the notice chosen from the error |
| Governance.TextReply | index.js:243-256 | the text handler answers with the result or, on any error, with the generic failure notice |
| Governance.OversizedVoiceTouchesNothing | index.js:81-82 | an oversized voice message gets the size reply and touches neither the cache nor any outside service |
| Governance.RepeatedTextServedFromCache | index.js:150-174 | a text answered upstream is answered again from the cache, identically and with no outside call, until its entry expires |
| Governance.FailedTextIsRetried | index.js:168-181 | a failed text request leaves no entry, so the same text asks the AI service again |
| Governance.RepeatedVoiceServedFromCache | index.js:86-131 | a voice message answered upstream is answered again from the cache with no download, transcription or completion |
| Governance.TextStepKeepsVoiceEntries | index.js:150 | text requests never overwrite or delete a voice message's entry |
| Governance.Bot.constructor | index.js:11-22 | empty cache and rate-limit map, fresh metrics |
| Governance.Bot.IsRateLimited | index.js:32-47 | rejects exactly when the pruned window is full; only this user's window changes, by the window rule; `rateLimitHits` rises by one exactly on rejection |
| Governance.Bot.LookupCache | index.js:87-95 | returns the lookup and leaves the cache as the lookup spec says |
| Governance.Bot.StoreCache | index.js:128-131 | the cache becomes the store spec's result |
| Governance.Bot.SweepCache | index.js:264-271 | the loop that deletes while iterating leaves exactly the swept map |
| Governance.Bot.Serve | index.js:150-181 | the cache, upstream log and result follow the cache discipline; exactly one recorded time; one hit on a hit; one error exactly on failure |
| Governance.Bot.ProcessVoiceMessage | index.js:73-142 | the size check comes before the cache; then the voice exchange runs under the cache discipline; exactly one recorded time on every path; one error exactly on failure |
| Governance.Bot.ProcessTextMessage | index.js:145-185 | the text exchange under the cache discipline; exactly one recorded time; one error exactly on failure |
| Governance.Bot.HandleVoice | index.js:227-241 | the reply is the answer or the notice chosen from the error; state as for processing |
| Governance.Bot.HandleText | index.js:243-258 | a too-long text gets the length reply and changes nothing; otherwise the answer or the generic failure notice, state as for processing |
| Governance.Bot.HandleUpdate | index.js:199-208 | a throttled update gets only the wait notice and changes only `rateLimitHits`; an admitted one updates its sender's window; an id that is absent or 0 is never limited; exactly one recorded time per processed message |
| Monitoring.Recent | performance-monitor.js:92 | never longer than the log it filters |
| Monitoring.RecentMembers | performance-monitor.js:92 | an entry is kept exactly when it is younger than five minutes |
| Monitoring.RecentAppend | performance-monitor.js:111 | the filter keeps the original order |
| Monitoring.CountCachedAppend | performance-monitor.js:64-68 | a logged request adds one to the cached count exactly when it was cached |
| Monitoring.OfType | performance-monitor.js:122-131 | every selected request has the given type, and there are no more of them than requests |
| Monitoring.OfTypeMembers | performance-monitor.js:122-131 | a request is selected exactly when it is in the input and has the given type |
| Monitoring.TypeStatsOf | performance-monitor.js:122-131 | every type present has a positive count and no more cached requests than requests |
| Monitoring.TypeStatsCountEachType | performance-monitor.js:122-131 | a type has an entry iff some request has it; its count, total time and cached count are exactly those of its requests |
| Monitoring.TotalCountRemove | performance-monitor.js:122-131 | the sum of the counts does not depend on the order of the types |
| Monitoring.TypeCountsSumToTotal | performance-monitor.js:122-131 | the counts over all types add up to the number of requests |
| Monitoring.Summarize | performance-monitor.js:133-136 | one type's counters with its average time and its cache rate in percent; see `SummarizeFigures` |
| Monitoring.SummarizeFigures | performance-monitor.js:133-136 | the counters are kept; the average time times the count is the total time; the cache rate is a percentage |
| Monitoring.PercentBounds | performance-monitor.js:135 | a share times the whole is the part times 100; it is never negative and at most 100 for a part no larger than the whole |
| Monitoring.Summaries | performance-monitor.js:133-136 | every type gets its derived figures |
| Monitoring.HitRate | performance-monitor.js:102-104 | the hit rate in percent, defined only once some request was counted; see `HitRateIsShare` and `HitRateCoversEveryLoggedRequest` |
| Monitoring.HitRateIsShare | performance-monitor.js:102-104 | the hit rate is the hits' share of all requests, between 0 and 100 percent |
| Monitoring.HitRateCoversEveryLoggedRequest | performance-monitor.js:64-73 | the hit rate is 'N/A' exactly until the first request; after that it counts every request ever logged, including those the capped log dropped |
| Monitoring.PerformanceMonitor.constructor | performance-monitor.js:12-19 | empty logs and zero counters |
| Monitoring.PerformanceMonitor.LogRequest | performance-monitor.js:56-74 | the new record is last; at most 1000 are kept, the oldest dropped first; exactly one of hits and misses rises, chosen by `cached` |
| Monitoring.PerformanceMonitor.LogError | performance-monitor.js:76-87 | the new error is last; at most 100 are kept, the oldest dropped first |
| Monitoring.PerformanceMonitor.RecordMemorySnapshot | performance-monitor.js:27-36 | the new snapshot is last; at most 100 are kept, the oldest dropped first |
| Monitoring.PerformanceMonitor.GetRequestTypeStats | performance-monitor.js:122-139 | both loops together yield exactly the per-type statistics of the input with their derived figures |
| Monitoring.PerformanceMonitor.GenerateReport | performance-monitor.js:89-120 | the recent counts are exactly the entries younger than five minutes, never more than the full logs; an average is 'N/A' exactly when there is nothing to average; the hit rate, heap average and per-type figures are as defined |

## Left out

- Network and SDK calls: building the Telegram bot, `getFileLink`, `fetch`, `File`, and the
  transcription and completion calls. Their outcomes are parameters, and the calls made are
  logged as values. Sending replies (`ctx.reply`) is modelled as the returned reply; a failure to
  send is not modelled.
- Timers and process plumbing: `setInterval` scheduling, signal handlers, `process.exit`, the
  environment-variable checks and `bot.launch`. The sweep and the snapshot are methods a caller
  invokes.
- Concurrency: the interleaving of concurrent asynchronous handlers. Each update is one atomic
  step, and all clock readings of one request collapse into the two instants `now` and `finish`.
- `logPerformanceMetrics`, the `/start`, `/help` and `/stats` commands, `toFixed`, percentage and
  megabyte strings and `JSON.stringify`. These are formatting and output; the report keeps the
  exact numbers before formatting.
- Floating point: averages and rates are exact real numbers, not IEEE doubles. Durations and
  timestamps are integers of milliseconds.
- `process.memoryUsage()`, `process.uptime()` and the garbage-collection hook are host facts. The
  current heap size and the memory usage are parameters.
- The `getInstance` singleton carries no behaviour.
- `Monitoring.PerformanceMonitor.GetRequestTypeStats`: a plain JavaScript object is used as the
  dictionary, so type names such as `constructor` or `__proto__` would collide with
  `Object.prototype`. The model uses a map and does not capture that.
- `Utf8.Encode`: characters are Unicode scalar values. Lone UTF-16 surrogates, which
  `Buffer.from` replaces with U+FFFD, are not representable.
- `Monitoring.PerformanceMonitor.LogRequest`: `cached` is a required boolean. The source's default
  `cached = false` and its truth test on a value that need not be a boolean are not modelled;
  callers pass `false` for the default.
- `Sequences.Last`: at n = 0 it is empty, whereas `slice(-0)` is the whole array. The only use is
  `slice(-10)`.
- `Monitoring.PerformanceMonitor.GenerateReport`: the hit rate is stated over the `hits` and
  `misses` fields. Their relation to all logged requests is the separate lemma
  `HitRateCoversEveryLoggedRequest`.
