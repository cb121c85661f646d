# StatsNozzle aggregation core in Dafny

StatsNozzle reads the Cloud Foundry firehose. It counts every envelope in five
category tallies: event type, origin, job, deployment and IP. For log messages
it also counts the application in a sixth tally, keyed `org/space/app`, when
the message's app id resolves. That
key comes from a memo cache that maps an app guid to its app, space and org
names. On a cache miss the cache asks the Cloud Controller once.

This project models that aggregation step as a pure state machine:

- `wrappers.dfy` (module `Wrappers`): `Option` and `Result`.
- `tally.dfy` (module `Tally`): a tally is a `map<string, nat>`.
  - `Count` reads a missing key as 0, as Go does.
  - `Increment` is the `m[k] = m[k] + 1` idiom.
  - `Sum` is the total number of observations in a tally.
- `app_cache.dfy` (module `AppCache`): `AppInfo` is Go's `AppSpaceOrg`.
  - `Resolve` is `getAppInfoForGuid`. The external lookup is not called. Its answer for this call is the `answer` parameter, a `Result<CfApp, string>`.
  - `Resolution` is Go's `(AppSpaceOrg, error)` pair. It also carries the new cache and a flag that says whether the lookup was called.
- `ingest.dfy` (module `Ingest`): `Record` is the part of an envelope the loop reads. `State` holds the six tallies, the cache and the trace of guids the lookup was called with.
  - `Step` is one iteration of the loop body.
  - `Run` folds `Step` over the records in arrival order. `answers[i]` is what the lookup would return while record `i` is being processed. So a lookup can fail for one record and succeed for a later one.
  - `IngestAll` is the same loop written as a `while` loop.

## Model

| member | source | states |
|---|---|---|
| Tally.Count | StatsNozzle.go:231-235 | Definition only: the value Go's map read `m[k]` yields, the stored count or 0 when the key is absent |
| Tally.Increment | StatsNozzle.go:231-235 | One observation of a key, the empty string included: that key is present afterwards and its count is one higher than the count Go read for it (0 when absent) |
| Tally.IncrementBumps | StatsNozzle.go:231-235 | An increment changes no other key's count and adds no other key. It lowers no count and drops no key, and a tally whose counts are all positive stays so |
| Tally.SumIncrement | StatsNozzle.go:231-235 | One increment adds exactly one observation to the total of the tally, whether the key was new or already present |
| AppCache.Resolve | StatsNozzle.go:110-127 | A hit returns the cached entry, makes no call and leaves the cache alone. A miss makes one call. A failed miss returns the error with the zero `AppSpaceOrg` and caches nothing. A successful miss adds exactly one key, the guid, and returns and stores an identity whose app id is the guid asked for and whose app, space and org names and space and org ids are the app record's. In every case no existing entry is removed or changed, and a result without an error is exactly what the cache now holds for the guid |
| AppCache.ResolveMemoized | StatsNozzle.go:111-126 | After a successful resolution, resolving the same guid again makes no call and returns the same identity with the cache unchanged, whatever the service would now answer |
| AppCache.ResolveRetriesAfterFailure | StatsNozzle.go:115-119 | After a failed resolution, the next resolution of the same guid calls the lookup again and succeeds exactly when the new answer does (no negative caching) |
| Ingest.UpdateApps | StatsNozzle.go:218-228 | The app part of one record: the app tally is incremented at the resolved `org/space/app` key exactly when the record is a log message that resolves, and is otherwise unchanged; a lookup is traced exactly for an uncached guid; a failed lookup and a cache hit leave the cache unchanged; a fresh successful lookup adds only the record's own guid, and that entry is the identity built from the lookup's answer, so the app key of a fresh lookup is the answer's `org/space/app` |
| Ingest.Step | StatsNozzle.go:215-237 | One record as one atomic update. The app tally moves only for a resolving log message. Cache and call trace change only for a log message. The lookup is called exactly when the app id is not cached. The cache only grows. A hit or a failed lookup leaves it unchanged; a fresh successful lookup adds exactly the record's own guid, holding the identity built from the answer |
| Ingest.StepDimension | StatsNozzle.go:231-235 | In each of the five dimensions the record is counted once under the key it carries |
| Ingest.StepBumps | StatsNozzle.go:219-235 | Per record, each dimension tally gains one at the record's key and no other key changes. The app tally gains one at the resolved identity's key when the record resolves and is untouched otherwise |
| Ingest.StepMonotone | StatsNozzle.go:215-237 | No record lowers any count in any of the six tallies, drops a key, or removes or overwrites a cache entry |
| Ingest.StepValid | StatsNozzle.go:215-237 | Each record keeps the state invariant: every tally key has a positive count and every cache entry is stored under its own app id |
| Ingest.Run | StatsNozzle.go:215-237 | Definition only: the loop over the firehose as a fold of `Step` over the records in arrival order |
| Ingest.RunCounts | StatsNozzle.go:215-237 | Over any run, each dimension tally's total grows by exactly the number of records processed |
| Ingest.RunAppsBounded | StatsNozzle.go:219-228 | Over any run, the app tally's total grows by at most the number of records processed |
| Ingest.CountingInvariant | StatsNozzle.go:41-46 | From the empty start state, after N records every one of the five dimension tallies sums to N |
| Ingest.RunMonotone | StatsNozzle.go:215-237 | Over any run, no count decreases, every key stays present, the cache only grows, and the state invariant is kept |
| Ingest.RunNoRepeatLookup | StatsNozzle.go:111-115 | Once a guid is cached, no later record calls the lookup for it: the call trace only grows, and only with other guids |
| Ingest.StepAddsOnlyOwnGuid | StatsNozzle.go:219-225 | A record adds no cache key other than the app id of its own log message |
| Ingest.RunKeepsUncached | StatsNozzle.go:111-125 | A guid that is not cached stays uncached over any run in which no record is a log message for it |
| Ingest.RetriesAfterFailure | StatsNozzle.go:115-119 | A log message whose lookup fails still makes its call. After any run of records for other app ids, the next log message with the same app id calls the lookup again (no negative caching) |
| Ingest.ThreeRecordScenario | StatsNozzle.go:215-235 | Three records with event types A, A, B from origins x, y, x and no log message give event types {A: 2, B: 1}, origins {x: 2, y: 1}, jobs {"": 3}, an empty app tally and no lookup call, whatever the lookup would answer |
| Ingest.AppKey | StatsNozzle.go:225 | Definition only: the app tally key `orgName + "/" + spaceName + "/" + appName` |
| Ingest.AppKeyInjective | StatsNozzle.go:225 | When org and space names contain no slash, two identities share an `org/space/app` key only if their org, space and app names are all equal |
| Ingest.AppKeyCollision | StatsNozzle.go:225 | With a slash inside a name, two identities with different org names get the same app key |
| Ingest.IngestAll | StatsNozzle.go:215-237 | The `while` loop over the records, one update per record in arrival order, ends in exactly the state the fold `Run` defines from the empty start state, so the counting invariant and monotonicity lemmas about `Run` hold of it |

## Left out

- Locking (`lock.Lock`/`Unlock`) and the goroutines for the reporter, the error channel and token refresh: concurrency is not modelled. Each record's update is one atomic `Step`.
- `printStats` and the `ValSorter` it uses: this is console output, and `ValSorter`'s source is not part of this model. No snapshot order or tie-break is modelled.
- `getCFClient`, the periodic client refresh, `GetInfo`, `GetToken` and the firehose consumer: these are network and authentication calls into libraries that are not part of this model. The lookup `GetAppByGuidNoInlineCall` appears only as its answer, a parameter. Only the fields that lines 120-124 read are kept.
- `environmentComplete`, `handleError`, and the printing of lookup errors at lines 117 and 223: these are environment reads, logging, `panic` and process exit.
- The `custom` counter: it is declared and printed but never updated.
- The envelope getters (`GetEventType().String()`, `GetOrigin()`, …): a `Record` carries their string results directly. A log message is modelled as `logAppId = Some(id)`.
- Counts are unbounded `nat`s. Go's `int` is 32 or 64 bits depending on the platform; wrap-around at 2^31 or 2^63 observations is not modelled.
- The call trace `State.calls` and `Resolution.called` are observations added by the model. They record which external calls were made and have no counterpart variable in the program.
- Cache eviction: there is none. The identity cache is unbounded and never evicts, and the model keeps it so.
- The client refresh goroutine (StatsNozzle.go:95-100): line 100 runs even when `NewClient` failed. What it then does depends on the client library, which is outside this model.
- The declaration of `AppSpaceOrg` is not part of this model. The model assumes its six fields are `appName`, `appId`, `spaceName`, `spaceId`, `orgName` and `orgId`, in the order of the positional literal at line 125; line 225 confirms only `orgName`, `spaceName` and `appName`.
