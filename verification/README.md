# LogLens: a verified model of its stateful core

LogLens keeps Postgres as the truth and puts expiring Redis entries, a Kafka offset protocol and time-bucketed
counters around it. This project models those parts in Dafny and proves how far the copies agree with the truth.

The components that keep state have the same shape. A specification gives the state as maps, sequences and a clock,
and one step of the code as a function on it. A step that does not apply leaves the state alone, so every sequence of
steps is a run and a lemma about `Run(...)` is about all runs. Beside it a class carries the fields and methods of the
source, and its methods are proved equal to the specification. Where a call takes several steps, a lemma shows that the
uninterrupted call is those steps in order.

| file | component |
|---|---|
| KeyCache.dfy, KeyCacheWitness.dfy, KeyCacheClient.dfy | the API-key validity cache, one step per Redis or Postgres access, any number of Resolves in flight |
| Pipeline.dfy | the Kafka consumer loop with crashes and delayed commits, the `logs` table, and the retention job |
| RefreshTokens.dfy, RefreshOverlap.dfy | the refresh-token service with and without its Redis cache; overlapping Refreshes and Logouts, one step per access |
| RateLimit.dfy, IngestLimit.dfy | the fixed-window limiter; the hour and day limits for ingestion, with any number of ingests under way |
| KeyRotation.dfy | generating, revoking and rotating keys, with pre-checks apart from the transaction |
| OrgMembership.dfy | organisations, invites, codes and overlapping joins |
| LogSearch.dfy | searching, paging and retention over the `logs` table |
| ApiKeys.dfy, JsonExtract.dfy, ListParsers.dfy, Text.dfy | key format, JSON extraction, list parsers, and the string functions they use |

## What the results say

- A Resolve of a revoked key, or of a key whose service was deleted, can be accepted up to
  2D + prefixTTL + validationTTL - 2 ms after the key died, D being the longest time a Resolve is in flight. The
  bound holds under all Redis faults and with or without invalidation, and is attained for every configuration.
- A revocation that was invalidated is final if and only if the resolving process has no Redis, or the API process has
  one too and the one-hour tombstone outlives the cache: D + max(prefixTTL, validationTTL) must fit in the hour, or
  2D + prefixTTL + validationTTL - 1 if other Resolves can skip a failing tombstone check. The TTLs come from the
  environment without an upper limit, so the code alone does not ensure this.
- `Invalidate` reports success without doing anything in a process that started without Redis. The API and the ingestor
  connect separately, so a revoked key can stay usable in the ingestor although its invalidation succeeded.
- The refresh-token cache is transparent if and only if the token lifetime is positive, a token is cached within a tick
  of computing its expiry, cache deletes do not fail, and no look-up of a token fails that the cache could answer.
  REFRESH_TOKEN_EXPIRY_DAYS is not range-checked, and Redis keeps an entry forever when it is set with a TTL of zero or
  less; an entry cached d ticks late outlives its row by d - 1, never by more. docs/auth.md describes the cache as a
  fast path only.
- A refresh token is served as often as it is looked up before its row is first deleted or expires, less the calls that
  fail or are cut off. It is single-use if and only if Refreshes of one token take turns and cache deletes do not fail
  (or nothing is ever served). The code ensures neither.
- No committed log is lost if and only if no insert is refused. A refused message does not come back by itself, since
  the position has moved on; a crash and a restart bring it back if and only if no flushed commit has passed it.
- An active key is never refused, with or without Redis, unless a read of that very Resolve failed; every rejection has
  its reason in the tables or in such a failure.
- The resume point moves only for a message without an ID or one that this delivery stored and saw stored; a redelivered
  log whose insert fails as a duplicate is not committed by that delivery.
- Over all call sequences, logging in as a user takes the e-mail and password that user registered with, and nobody's
  registration is ever replaced.
- A search shows an organisation its own rows only: rows of other organisations change neither result, Total nor pages.
- Members by invite are added at most d after its 24 hours in every run if and only if no join takes longer than d after
  reading it; the code puts no limit on that.
- docs/organisation.md calls the invite token one-time. It is so if and only if joins by one invite do not overlap and
  none is cut off between adding the member and marking the invite; either failing alone is enough to break it.
- However ingests overlap, what is charged to a day is what its hours let through. A day stays within
  min(dayLimit, 24 * hourLimit) over all runs if and only if no pipeline fails and either no ingest reads its two clocks
  at different times or the day's limit is within its 24 hours' worth. With readings up to an hour apart a day can reach
  min(dayLimit, 25 * hourLimit), and does; each failing pipeline can add one.
- A rate-limit bucket keeps its limit over all calls if and only if no pipeline fails and none is delayed. One tick of
  delay can double it, because the expiry can fire between two commands of a bucket; commands that still reach Redis in
  the bucket they name do no harm.
- Revoked keys reach the cache if and only if no process dies, or misses that its transaction committed, between the
  tables and the cache.

## Assumptions

- One clock. Redis entries are live strictly before their expiry time; expired entries are simply not live.
- The key cache and the overlapping refresh calls let time pass between any two accesses. A complete refresh-token call
  happens at one time except for the lag between computing an expiry and caching the token.
- Rate-limit results on exact counts assume that a counter command reaches Redis in the bucket its key names; the
  results on delays say what happens otherwise. A failing pipeline may have run neither, the first or both commands.
- All processes that have Redis use the same one, and it keeps every key for its TTL: no second server, no eviction.
- bcrypt and SHA-256 are ideal: a hash accepts exactly the key it was made from. Generated UUIDs, tokens and keys have
  not been seen before, and clients present tokens that were handed to them or that they made up.
- Cached JSON always decodes, since only this code writes it.
- Kafka: one partition, one consumer; a fetch advances the in-memory position, commits are buffered and flushed later,
  and a restart resumes at the committed offset.
- Cache TTLs for keys are positive, as `durationFromEnv` makes them; nothing else is assumed about them.
- SQL constraints (unique prefix, unique code, primary keys) are guards of the steps; no code path deletes keys,
  members, invites or codes.
- Full-text matching, UUID and e-mail syntax, and what bcrypt refuses to hash, are parameters that can be any predicate.

## Model

| member | source | states |
|---|---|---|
| KeyCacheSafety.BoundedStaleness | internal/auth/keycache.go:56-138 | whatever Redis faults occur and whether or not the cache was invalidated, an accepted Resolve of a dead key started, made its last read and was accepted at most 2D + prefixTTL + validationTTL - 2 after its death |
| KeyCacheWitness.StaleBoundAttained | internal/auth/keycache.go:114-138 | that bound is attained in every configuration, by start and last read alike, without faults, after a service deletion that invalidates nothing |
| KeyCacheWitness.RevocationFinalIff | internal/auth/keycache.go:62-74 | over all runs, Resolves starting after the key was invalidated stay rejected if and only if the resolver has no Redis, or the API has one and the tombstone outlives the cache |
| KeyCacheWitness.PrefixOutlives | internal/auth/keycache.go:132-135 | with reliable checks, a run in which a prefix entry outlives the tombstone and the revoked key is accepted again |
| KeyCacheWitness.ValidatedOutlives | internal/auth/keycache.go:102-112 | the same through a validated entry, which Invalidate never deletes |
| KeyCacheWitness.FaultyCheckOutlives | internal/auth/keycache.go:63-65 | the same when one other Resolve's tombstone check fails |
| KeyCacheWitness.SkippedInvalidate | internal/auth/keycache.go:102-105 | the same, for all TTLs, when the API process has no Redis and Invalidate reports success having written nothing |
| KeyCacheFinality.RunSettles | internal/auth/keycache.go:94-97 | the invariant behind finality: only Resolves older than the tombstone can still write, so nothing they write outlasts it |
| KeyCacheFinality.NothingLive | internal/auth/keycache.go:67-73 | once the tombstone's hour is over no entry of an invalidated key is live |
| KeyCacheFinality.NoTombstone | internal/auth/keycache.go:102-105 | in a process without Redis, Invalidate writes no tombstone in any run |
| KeyCacheFinality.NothingCached | internal/auth/keycache.go:127-130 | without Redis in the resolver every Resolve is judged by the tables, where the revoked key is already gone |
| KeyCacheSafety.CacheAgreesWithTable | internal/auth/keycache.go:114-138 | in every reachable state each cache entry carries exactly its row's data, tombstones exist only for revoked keys, and a key's organisation is its service's |
| KeyCacheSafety.AcceptedIdentity | internal/auth/keycache.go:84-99 | an accepted Resolve names the one row whose prefix and hash fit the raw key, under its service's organisation |
| KeyCacheSafety.ActiveKeyResolves | internal/auth/keycache.go:56-100 | over all runs, with or without Redis, a key that existed when the Resolve started and is still active is accepted with its identity, unless one of that Resolve's own reads of the prefix entry or the tables failed |
| KeyCacheSafety.WrongKeyRefused | internal/auth/keycache.go:84-92 | another key with an active key's prefix is told to be invalid, unless one of those reads failed |
| KeyCacheSafety.UnknownKeyRefused | internal/auth/keycache.go:127-130 | a key whose prefix no row has is told not to be found, unless one of those reads failed |
| KeyCacheSafety.RejectionsJustified | internal/auth/keycache.go:56-138 | over all runs every rejection is justified: a Redis or database error by a failed read of that very Resolve, the others by the format, the row, its revocation or its service |
| KeyCacheSafety.RunSafe | internal/auth/keycache.go:56-138 | the invariant of all runs: what Resolves in flight and cache entries carry, and how long they can |
| KeyCacheClient.DriveIsRun | internal/auth/keycache.go:56-138 | a Resolve that is not interrupted is a run of single accesses that leaves the other Resolves alone |
| KeyCacheClient.InvalidateIsRun | internal/auth/keycache.go:102-112 | an Invalidate is a run of its commands, and once it reports success every Resolve that starts is one whose rejection finality promises |
| KeyCacheClient.DeletionStopsReload | internal/auth/keycache.go:107-111 | with the prefix entry deleted and the row revoked, a Resolve is rejected even when its tombstone check fails, unless its own validated entry is live |
| KeyCacheClient.AnsweredAtOnce | internal/auth/keycache.go:62-74 | a live tombstone, then a live validated entry, answers before anything else is read, and nothing is written |
| KeyCacheClient.AnsweredFromEntry | internal/auth/keycache.go:114-123 | otherwise a live prefix entry answers whether or not the tables can be read, and only the right key is kept as validated |
| KeyCacheClient.AnsweredFromTables | internal/auth/keycache.go:124-138 | otherwise the tables answer: an active key's prefix entry is filled whichever key was presented, the validated entry for the right one, each with its own lifetime |
| KeyCacheClient.APIKeyCache.Resolve | internal/auth/keycache.go:56-100 | outcome and new Redis contents are those of the remaining accesses done in order from the first one |
| KeyCacheClient.APIKeyCache.LoadRecord | internal/auth/keycache.go:114-138 | continuing from the prefix entry is the same as checking the loaded record in the state it left |
| KeyCacheClient.APIKeyCache.Invalidate | internal/auth/keycache.go:102-112 | deletes the prefix entry and sets the one-hour tombstone, each unless that command fails, and does nothing without Redis |
| ApiKeys.GenerateAPIKey | internal/auth/apikey.go:29-43 | for all draws the key has 44 characters, within bcrypt's 72; character by character it is "ll_", the letter or digit of each draw, "_" and the secret in hexadecimal; its prefix is recovered from it and decoding gives back the secret |
| ApiKeys.HexDecodes | internal/auth/apikey.go:41-42 | the hexadecimal digits are 0-9 and a-f and say which secret it is |
| ApiKeys.RandomString | internal/auth/apikey.go:74-87 | each position holds the character its draw picked |
| ApiKeys.ExtractCharacterized | internal/auth/apikey.go:60-72 | exactly which strings have a prefix, and that it is their first 11 characters |
| ApiKeys.ExtractRecovers | internal/auth/apikey.go:27-29 | any key of the documented shape gives back its prefix |
| Pipeline.CommittedAccounted | cmd/consumer/main.go:42-79 | in every run with crashes, redelivery and retention each committed offset holds a malformed message, a stored one, or one whose insert failed on delivery |
| Pipeline.NoCommittedLogLost | cmd/consumer/main.go:66-74 | if no insert was refused, every well-formed committed log is in the table or was deleted by retention |
| Pipeline.ResumePointMoves | cmd/consumer/main.go:60-74 | over all runs the resume point rises only to one past the message in hand, for a message without an ID or by the commit step of a delivery that was stored; only a flush commits, and only what was buffered |
| Pipeline.StoredByDelivery | cmd/consumer/main.go:66-72 | a delivery is about to commit only if its own insert just put the entry into the table, in which its ID was not |
| Pipeline.FailedDeliveryMovesNothing | cmd/consumer/main.go:50-70 | a delivery that cannot be decoded or whose insert reports an error, a duplicate included, leaves the resume point, what is committed and what is published as they were |
| Pipeline.BlankDeliveryIsCommitted | cmd/consumer/main.go:60-64 | a message without an ID moves the resume point past it, if the commit succeeds, and is neither stored nor published |
| Pipeline.RetentionDeletesExpired | cmd/consumer/main.go:103-113 | over all runs a retention run deletes exactly the rows older than the cutoff computed when it began, and nothing when it fails |
| Pipeline.InsertsBalance | cmd/consumer/main.go:66-78 | inserts of an ID = its row + retention deletions of it, publications never exceed inserts, so without retention at most one publication, and only of a stored log |
| Pipeline.RowsComeFromLog | internal/telemetry/repository.go:23-66 | every row sits under its own ID and holds an entry that was appended to the log |
| Pipeline.DwellBound | cmd/consumer/main.go:82-113 | with retention runs at most I apart a row satisfies now <= max(insertedAt, timestamp + H) + I, cutoff and delete being separate steps |
| Pipeline.RunAccounts | cmd/consumer/main.go:42-113 | the invariant of all runs: offset order, accounting behind the position, insert and publication counts, survival of the last retention run |
| PipelineWitness.NothingLostIff | cmd/consumer/main.go:66-74 | over all runs with crashes, redelivery and retention no committed log is lost if and only if no insert is refused |
| PipelineWitness.RefusedLogIsLost | cmd/consumer/main.go:66-70 | a run in which a failed insert is committed over and the log is lost |
| PipelineWitness.RedeliveredIff | internal/telemetry/kafka.go:82-117 | from any reachable state a message can be delivered again if and only if no flushed commit has passed it |
| PipelineWitness.RetentionRepublishes | cmd/consumer/main.go:72-78 | a run in which retention and a restart make a log be published twice |
| PipelineWitness.DwellAttainedOnArrival | internal/telemetry/repository.go:241-248 | the dwell bound is attained by an entry with an old client timestamp, for every interval and retention |
| PipelineWitness.DwellAttainedAtCutoff | internal/telemetry/repository.go:241-248 | and by an entry exactly at the strict cutoff, for every interval and retention |
| PipelineConsumer.OneTurnIsSteps | cmd/consumer/main.go:42-79 | one turn of the loop is fetch, handle, commit and publish in order, on every branch |
| PipelineConsumer.TurnDone | cmd/consumer/main.go:42-79 | what one turn does to position, table, resume point and publications, on every branch |
| PipelineConsumer.TurnsAreRun | cmd/consumer/main.go:42-79 | the turns of the loop are a run of the state machine |
| PipelineConsumer.RetainedIsSteps | cmd/consumer/main.go:103-113 | an uninterrupted retention run is the cutoff step followed by the delete step |
| PipelineConsumer.RetainedSize | internal/telemetry/repository.go:241-248 | the table shrinks by exactly the rows the delete reports |
| PipelineConsumer.LogConsumer.InsertLog | internal/telemetry/repository.go:23-66 | fails on a duplicate ID; otherwise stores the row unless refused, and may store it yet report failure |
| PipelineConsumer.LogConsumer.CommitMessage | internal/telemetry/kafka.go:115-117 | keeps the highest offset to resume from, buffered |
| PipelineConsumer.LogConsumer.Iterate | cmd/consumer/main.go:50-78 | the state after one turn of the loop, for every outcome of fetch, insert, commit and publish; the resume point and the publications move for nothing but an entry that this turn stored and saw stored, or a message without an ID |
| PipelineConsumer.LogConsumer.Consume | cmd/consumer/main.go:42-80 | the loop is its turns one after the other |
| PipelineConsumer.LogConsumer.RunOnce | cmd/consumer/main.go:103-113 | deletes exactly the rows older than the cutoff and reports how many, or changes nothing on error |
| RefreshRefinement.CacheTransparentIff | internal/user/service.go:105-210 | over all call sequences of a deployment, cached and cache-less service respond alike if and only if the lifetime is positive, tokens are cached within a tick, cache deletes do not fail and no look-up fails that the cache could answer |
| RefreshRefinement.RunAgrees | internal/user/service.go:170-210 | from agreeing states the same calls get the same responses and end in agreeing states, across the expiry boundary |
| RefreshRefinement.RunTrusts | internal/user/service.go:170-210 | the invariant of all call sequences: a cache entry is backed by a row of the same user that expires at most the lag before it |
| RefreshRefinement.AcceptedInTime | internal/user/service.go:177-196 | for every lag, an accepted token has its row, which expired less than the lag ago if at all |
| RefreshRefinement.OverstayAttained | internal/user/service.go:170-175 | that bound is attained for every lifetime and lag |
| RefreshRefinement.LagDiffers | internal/user/service.go:170-175 | a run in which a lag of two ticks or more lets the cache accept an expired token |
| RefreshRefinement.ReadFaultDiffers | internal/user/service.go:185-188 | a run in which the cache answers although the table cannot be read |
| RefreshRefinement.NonPositiveLifetimeDiffers | internal/user/service.go:39-55 | a run in which a lifetime of zero or less lets the cache accept an expired token |
| RefreshRefinement.CacheDeleteFaultDiffers | internal/user/service.go:198-203 | a run in which a failing cache delete leaves a logged-out token usable |
| RefreshSessions.SessionsConserved | internal/user/service.go:82-210 | for every lifetime and with any reads failing, a user's token rows are the sessions opened minus those logged out and purged; Refresh changes neither side |
| RefreshSessions.SpentOnce | internal/user/service.go:198-203 | from any state whose stores know only generated tokens, whatever fails but cache deletes, a token that a call has used up is refused by every later Refresh |
| RefreshSessions.SingleUse | internal/user/service.go:105-147 | once Refresh or Logout has accepted a token no later Refresh accepts it |
| RefreshOverlap.OverlapDecidesReuse | internal/user/service.go:105-147 | in every run of overlapping, failing and cut-off calls a token is served exactly as often as it is looked up before its row's first delete and expiry, less those that failed or were cut off |
| RefreshOverlap.RunKeeps | internal/user/repository.go:91-130 | the invariant of all runs: rows are the tokens handed out and not deleted since, cache entries vouch for nothing else, tokens in the making are nobody's |
| RefreshOverlap.RefreshIsSteps | internal/user/service.go:105-138 | an uninterrupted Refresh is its single accesses in order, for all faults |
| RefreshOverlap.LogoutIsSteps | internal/user/service.go:140-147 | and so is a Logout |
| RefreshReuse.SingleUseIff | internal/user/repository.go:126-130 | over all runs no token is served twice if and only if Refreshes of one token take turns and cache deletes work, or nothing is ever served |
| RefreshReuse.OverlapServesTwice | internal/user/service.go:110-118 | a run from the start in which two overlapping Refreshes of one token are both served |
| RefreshReuse.CacheServesTwice | internal/user/service.go:198-203 | a run in which Refreshes take turns and a failing cache delete lets a token be served twice |
| RefreshService.Service.RevokeRefreshToken | internal/user/service.go:198-203 | removes the cache entry and the row, dropping the cache error and ignoring the row count |
| RefreshService.Service.PersistRefreshToken | internal/user/service.go:170-175 | caches the token, then inserts its row, with one expiry time |
| RefreshService.Service.LookupRefreshToken | internal/user/service.go:177-196 | answers from a live cache entry, else from the row, purging it when expired, or reports that it cannot be read |
| RefreshService.Service.IssueTokenPair | internal/user/service.go:149-168 | makes the tokens and persists the refresh token, or fails before it does |
| RefreshService.Service.Refresh | internal/user/service.go:105-138 | new state and response of a refresh on every branch: served exactly for a live cache entry or a readable row that has not expired, as that user, with the old row traded for a new one, and the reason otherwise |
| RefreshService.Service.Logout | internal/user/service.go:140-147 | new state and response of a logout on every branch: succeeds exactly if the row delete does, and then the row is gone |
| RefreshService.Service.Register | internal/user/service.go:57-83 | new state and response of a registration on every branch: creates the user exactly for a well-formed, hashable and unused e-mail and password, and never replaces one |
| RefreshService.Service.Login | internal/user/service.go:85-103 | new state and response of a login on every branch: issues tokens exactly for a known e-mail with its password, as that user, and the reason otherwise |
| RefreshUsers.LoginNeedsRegistration | internal/user/service.go:85-103 | over all call sequences a Login answered with tokens of a user was given the e-mail and the very password with which that user had registered before |
| RefreshUsers.RegisteredCanLogin | internal/user/service.go:57-103 | whoever has registered can log in from then on, as the same user, if nothing fails |
| RefreshUsers.UsersStay | internal/user/service.go:57-103 | no sequence of calls replaces or removes a user |
| RefreshUsers.UsersChange | internal/user/service.go:62-80 | users change only by a Register of an e-mail nobody had, to the password and ID given |
| RefreshUsers.RefreshDone | internal/user/service.go:105-138 | who is served by a Refresh, what is traded, and the reason of every refusal, by the stores before and after |
| RefreshUsers.LogoutDone | internal/user/service.go:140-147 | the same for a Logout |
| RateLimit.CounterExact | internal/ratelimit/limiter.go:32-48 | after any prompt calls by any subjects, whatever failed, a bucket's counter is the number of calls Redis counted in it, and it cannot expire before the bucket ends |
| RateLimit.BucketAdmits | internal/ratelimit/limiter.go:37-47 | a bucket admits at most min(counted, limit) and its failed calls, and at least min(counted, limit) and its uncounted calls |
| RateLimit.BucketWithin | internal/ratelimit/limiter.go:32-48 | so between min(calls, limit) and that with its failed calls added, which without faults is exactly min(calls, limit) |
| RateLimit.LastAdmitted | internal/ratelimit/limiter.go:33-47 | a call is admitted if and only if it is unlimited, fails at Redis, or its bucket still has room |
| RateLimit.SlidingWindowBound | internal/ratelimit/limiter.go:57-80 | an interval of any length admits at most limit times the number of buckets it can meet, and its failed calls |
| RateLimit.SlidingWindowAttained | internal/ratelimit/limiter.go:57-80 | that bound is attained without faults and in order of time for every window, limit and length; it is twice the limit for one window |
| RateLimit.BucketLimitIff | internal/ratelimit/limiter.go:37-47 | over all calls in order of time, delayed by at most d and failing or not, buckets keep to their limit if and only if d is zero and none fails |
| RateLimit.LateCallsOverrun | internal/ratelimit/limiter.go:37-42 | for every window and limit, calls delayed by one tick make a bucket admit its limit twice |
| RateLimit.FailingCallOverruns | internal/ratelimit/limiter.go:40-42 | for every window and limit, a failing call is let through a full bucket |
| IngestLimit.RunBooks | internal/ratelimit/limiter.go:50-55 | in every run of overlapping ingests the calls and admissions of each hour and day are the ingests that asked and passed it |
| IngestLimit.HoursFeedDay | internal/ratelimit/limiter.go:50-55 | in every run, whatever fails, what a day's hours let through is charged to the day or still on its way there |
| IngestLimit.LimitsCompose | internal/ratelimit/limiter.go:50-55 | unless an ingest reads its clocks on different days, what is charged to a day or on its way is the sum of min(hour asks, hour limit), and the day accepts what is charged capped by its limit; failed calls add at most themselves |
| IngestLimit.DayWithinLimits | internal/ratelimit/limiter.go:50-55 | without faults a day then accepts at most min(day limit, 24 * hour limit) |
| IngestLimit.DayCeiling | internal/ratelimit/limiter.go:57-65 | in every run with clock readings at most any given lag apart, a day accepts at most its limit, the limits of its 24 hours and of those the lag reaches back to, and the failed calls |
| IngestLimit.HourCheck | internal/ratelimit/limiter.go:50-53 | in every run the hour lets an ingest through if and only if it is unlimited, the call fails, or the hour has room |
| IngestLimit.DayCheck | internal/ratelimit/limiter.go:54-54 | and so does the day for one that passed its hour |
| IngestWitness.CeilingAttained | internal/ratelimit/limiter.go:57-65 | a run of overlapping ingests, its commands in order of time and none failing, in which a day accepts the whole ceiling, for every limit, lag and later day |
| IngestWitness.LimitsHoldIff | internal/ratelimit/limiter.go:50-55 | over all runs a day keeps to both limits if and only if no pipeline fails, and the two readings are one or the day's limit is within 24 hours' worth |
| IngestWitness.FaultOverruns | internal/ratelimit/limiter.go:40-42 | a run in which failing pipelines let an ingest into a full day |
| RateLimiter.AllowIngestIsSteps | internal/ratelimit/limiter.go:50-55 | an ingest that no other overlaps is its clock readings and pipelines in order, for all delays and faults |
| RateLimiter.Limiter.Allow | internal/ratelimit/limiter.go:32-48 | lets every call through and touches nothing when disabled; lets calls through when unlimited or on a Redis error; otherwise counts the call in its bucket with a refreshed expiry and admits it within the limit |
| RateLimiter.Limiter.AllowIngest | internal/ratelimit/limiter.go:50-55 | asks the day only if the hour agreed, so an ingest the hour refuses is not counted in the day; lets everything through when disabled |
| KeyRotation.OneActivePerChain | internal/service/repository.go:383-446 | under any interleaving two keys of one rotation chain are never both active |
| KeyRotation.ChainsAreLines | internal/service/repository.go:383-446 | no key is its own ancestor, every ancestor is revoked and of the same service, and a key has at most one successor |
| KeyRotation.ActiveCount | internal/service/repository.go:183-196 | a service's active keys are those generated minus those revoked, rotation being neutral |
| KeyRotation.InvalidatedAreRevoked | internal/service/service.go:373-378 | under any interleaving and with processes dying anywhere, no active key is ever passed to the cache, and the revoked keys are those passed, owed, or lost on the way |
| KeyRotation.RevokedReachCacheIff | internal/service/service.go:257-272 | over all runs every revoked key has been or will be passed to the cache if and only if no process dies in between |
| KeyRotation.LossLeavesKey | internal/service/service.go:257-272 | a run in which one does |
| KeyRotation.RunKeeps | internal/service/repository.go:343-446 | the invariant of all interleavings: links point to older revoked keys, successors and prefixes are unique |
| KeyService.RotateIsSteps | internal/service/service.go:278-342 | an uninterrupted rotation is its pre-check and its transaction, and nothing happens if the pre-check fails |
| KeyService.KeyManager.DeleteService | internal/service/service.go:153-172 | succeeds exactly for a service of the organisation that is not deleted, marks it deleted, and touches neither keys nor cache |
| KeyService.KeyManager.GenerateAPIKey | internal/service/service.go:174-224 | succeeds exactly for a service of the organisation that is not deleted and an unused prefix, inserting an active key without predecessor; otherwise reports which and inserts nothing |
| KeyService.KeyManager.RevokeAPIKey | internal/service/service.go:248-276 | succeeds exactly for an active key of a service in use, which it revokes and then passes to the cache; otherwise tells missing service, missing key and revoked key apart and changes nothing |
| KeyService.KeyManager.RotateAPIKey | internal/service/service.go:278-342 | succeeds exactly for an active key of a service in use and an unused prefix: revokes the old key, inserts its successor in the same service and then invalidates the old prefix; otherwise changes nothing |
| KeyService.KeyManager.CountActiveAPIKeys | internal/service/repository.go:183-196 | with the revocations of the service's keys added, the count is the number ever generated, rotations not showing in it |
| OrgMembership.MembershipProvenance | internal/org/service.go:99-289 | however joins overlap, an organisation's only owner is its creator, and from any member the chain of who issued the invite or code leads through admins of that organisation, strictly back in join order, to the creator |
| OrgMembership.RunKeeps | internal/org/repository.go:34-73 | the invariant of all runs: members, invites, codes, cached copies, and joins and requests under way all trace to an admin of the organisation |
| OrgMembership.Lineage | internal/org/service.go:217-222 | the provenance chain itself, with its order and its members' rights |
| InviteUse.OneTimeIff | internal/org/service.go:176-202 | over all runs invites admit one member each if and only if joins by one invite do not overlap and none is cut off before marking it |
| InviteUse.InviteAdmitsOne | internal/org/service.go:176-202 | the one direction: with both ruled out, no run lets in two by one invite |
| InviteUse.OverlapAdmitsTwo | internal/org/service.go:176-200 | the other: with overlap alone, a run in which two joins by one invite both succeed |
| InviteUse.CutOffLeavesOpen | internal/org/service.go:189-200 | and with cut-offs alone, a run in which a join cut off before marking leaves the invite open to another person |
| InviteExpiry.ExpiredAdmitsNobody | internal/org/service.go:176-187 | over all runs and however joins overlap, whoever came in by an invite came by a join that read it between its sending and 24 hours later, and got its role in its organisation |
| InviteExpiry.JoinedByIff | internal/org/service.go:179-187 | for every delay, members are added at most that long after their invite expired in all runs if and only if no join takes longer after reading it |
| InviteExpiry.LateJoin | internal/org/service.go:179-187 | a run in which an invite is read at the last moment and the member added as late as the rules allow |
| OrgService.JoinIsSteps | internal/org/service.go:148-289 | an uninterrupted join by invite or code, whatever joins are under way and whatever fails, is look-up, check, add and mark in order, cut short where an access fails |
| OrgService.InviteIsSteps | internal/org/service.go:99-146 | an uninterrupted request for an invite is its role check and its insert, as far as they succeed |
| OrgService.CodeIsSteps | internal/org/service.go:217-248 | and so is one for a code |
| OrgService.InviteJoins | internal/org/service.go:148-215 | the same of the specification, in every state that runs reach: answers and effects by the tables alone |
| OrgService.CodeJoins | internal/org/service.go:250-289 | the same for codes |
| OrgService.OrgManager.CreateOrganization | internal/org/service.go:37-54 | creates the organisation with its creator as owner, or rejects an empty name |
| OrgService.OrgManager.SendEmailInvite | internal/org/service.go:99-146 | succeeds exactly for a valid e-mail, a role below owner and an owner or admin of the organisation, if the accesses work, and then stores and caches an open invite that expires in 24 hours; otherwise reports the first failing check and changes nothing |
| OrgService.OrgManager.GenerateInviteCode | internal/org/service.go:217-248 | succeeds exactly for an owner or admin and an unused code, if the accesses work, and then stores an active developer code; otherwise reports why and changes nothing |
| OrgService.OrgManager.JoinViaToken | internal/org/service.go:148-215 | with every access working, admits exactly who presents an open, unexpired invite to an organisation they are not in yet, with the invite's role, and marks the invite; tells every refusal's reason, and what is left behind when a later access fails |
| OrgService.OrgManager.JoinViaCode | internal/org/service.go:250-289 | the same for an active code, which is not used up |
| LogSearch.FoundExactly | internal/telemetry/repository.go:134-150 | a search finds exactly the matching rows, each once, in strictly descending order of time and ID |
| LogSearch.FoundMeans | internal/telemetry/repository.go:134-180 | what the filters mean: a row is found if and only if it is of the organisation asked for, in the time range with both ends included, of a listed service and severity if any are listed, and matches the query if there is one |
| LogSearch.TotalCounts | internal/telemetry/repository.go:144-180 | Total is the number of different rows wanted |
| LogSearch.OthersUnseen | internal/telemetry/repository.go:134-137 | adding, removing or changing rows of other organisations changes neither result, Total nor pages |
| LogSearch.PagesShowOrganisation | internal/telemetry/repository.go:134-228 | with only the organisation set, the pages together hold exactly its rows |
| LogSearch.OrderIsUnique | internal/telemetry/repository.go:148-148 | there is one way to order a set of rows, so the result is determined by which rows there are |
| LogSearch.PagesTile | internal/telemetry/repository.go:182-228 | pages 1 to TotalPages one after the other are the whole result, and a page is empty exactly beyond it |
| LogSearch.TotalPagesLeast | internal/telemetry/repository.go:225-228 | TotalPages is the least number of pages that holds the result |
| LogSearch.FoundSplits | internal/telemetry/repository.go:241-248 | a result is what is found among the rows retention keeps followed by what is found among those it removes |
| LogSearch.RetentionTruncates | internal/telemetry/repository.go:134-248 | retention cuts a result's tail, Total drops by exactly the matching rows deleted, and pages at or after the cutoff are unchanged |
| SearchService.ParsePaging | internal/telemetry/search.go:78-95 | page and limit are accepted exactly when in range, and then are what was asked or the defaults; the first fault is reported |
| SearchService.NlqPaging | internal/ai/handler.go:82-97 | page and limit are positive on the natural-language path, where the limit has no upper bound |
| SearchService.LogRepository.SearchLogs | internal/telemetry/repository.go:134-239 | the requested page of the result as the select sees the table, with total and page count as the count saw it, or an error when either or a row cannot be read; every row shown is of the organisation asked for and fits every filter, newest first, and Total counts the different rows wanted |
| SearchService.LogRepository.ScanRows | internal/telemetry/repository.go:200-223 | the row loop keeps every row in order, and fails exactly if some row cannot be read |
| SearchService.LogRepository.PageCount | internal/telemetry/repository.go:225-228 | the pages hold the total and one fewer would not |
| SearchService.LogRepository.DeleteOlderThan | internal/telemetry/repository.go:241-248 | keeps exactly the rows not older than the cutoff, in place, and reports how many are gone |
| JsonExtract.ExtractRecovers | internal/ai/orchestrator.go:64-101 | a document between brackets is returned exactly from any bracket-free text and fences around it |
| JsonExtract.ExtractIdempotent | internal/ai/orchestrator.go:64-101 | extracting from what was extracted changes nothing |
| JsonExtract.ExtractsIff | internal/ai/orchestrator.go:87-99 | extraction succeeds if and only if some opening bracket comes before some closing one |
| JsonExtract.ExtractsOuterSpan | internal/ai/orchestrator.go:72-100 | the result is the span from the first opening to the last closing bracket of the raw text |
| JsonExtract.UnfenceStrips | internal/ai/orchestrator.go:65-70 | removing spaces and fences removes no bracket |
| ListParsers.ParseUUIDList | internal/telemetry/search.go:100-117 | the loop computes the list's specification |
| ListParsers.ParseSeverityList | internal/telemetry/search.go:119-136 | the loop computes the list's specification, for any case mapping |
| ListParsers.ParseMeans | internal/telemetry/search.go:100-136 | by the parts between the commas: a list fails with the first part that is neither blank nor valid, is empty if all are blank, and otherwise holds each part that is not blank, in order and once |
| ListParsers.NormalMeans | internal/telemetry/search.go:122-124 | a part is read as what lies between its outermost characters that are no space, each character in upper case |
| ListParsers.UUIDListRoundTrip | internal/telemetry/search.go:100-117 | joining the parsed UUIDs with commas and parsing again gives the same UUIDs |
| ListParsers.SeverityListRoundTrip | internal/telemetry/search.go:119-136 | the same for severities |
| Text.JoinSplit | internal/telemetry/search.go:101-101 | splitting loses nothing: the parts hold no separator and joining them gives the text back |

## Left out

- HTTP handlers, middleware, CORS, WebSocket streaming, the SDK and the AI provider clients: plumbing without state.
- Member and role checks of the service layer (`requireMember`, `requireDeveloper`), audit writes, and service name and
  description updates: each is settled by reading one branch.
- Several Kafka partitions or consumers, group rebalancing, and clock skew between processes.
- PipelineConsumer.LogConsumer.InsertLog: takes one entry, not a batch, because the consumer always passes one.
- SearchService.ParsePaging: covers page and limit only; the from/to range and RFC 3339 parsing are not modelled.
- SearchService.LogRepository.SearchLogs: metadata is not part of a row, since a row's metadata that cannot be decoded
  is dropped without effect on the rest.
- RefreshService.Service.Register: runs without another registration of the same e-mail in between, so its
  unique-violation branch, which reports the same error as its look-up, does not arise. Registering and logging in are
  single steps in the runs with overlapping calls too: they touch no token that anybody holds.
- `RunJSON` merging a failed provider's partial output into the fallback's: it depends on `json.Unmarshal`.
- Overflow of `(page-1)*limit` near 2^63: pages and limits are mathematical integers.
- Minute-window keys by IP and user: they are the same `Allow` with another window and are covered by its results.
