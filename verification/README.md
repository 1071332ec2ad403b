# Verification of the in-memory analytics structures

ridiculytics keeps its analytics in a handful of bounded, mutable, in-memory
structures. This project models them in Dafny and proves what each of them
promises on every run:

- the **rolling unique-visitor rings** and the mixing function in front of them
  (`Hashing`, `Rolling`, `Windows`);
- the **keyed token-bucket limiter** (`Limiter`);
- the **ageing Count-Min Sketch** and the **admission guard** it feeds
  (`Sketch`, `SketchBounds`, `Guard`, `GuardRuns`);
- the **session tracker**, one call at a time (`Sessions`, `SessionRuns`,
  `Timelines`) and with its critical sections interleaved by any number of
  workers (`Interleaved`);
- the **metrics registry** that turns observations into counter series and
  deletes series again (`Families`, `Registry`, `RegistryCalls`, `RegistryRuns`,
  `RegistrySeries`, `RegistryGuards`), and the registry together with its session
  trackers (`SessionMetrics`, `Recording`);
- the **path normaliser** (`Path`).

`Bags` holds sums over multisets and over the values of a map, independent of
the order in which a Go map is walked, and the sizes of sets; `Arithmetic` holds
facts about remainders.

The code's objects are classes here, with the code's loops. Each method is
proved against a function (or, where the code leaves a choice open, a relation)
on the object's value, and the theorems are about whole runs of these. Where the
code walks a Go map, the loop takes the keys in an arbitrary order.

Run `dafny verify dfyconfig.toml` to check everything.

## What the proofs found

Six facts about the code are easy to get wrong from its comments:

- **A late insertion can erase a current slot.** A ring position whose stamp
  differs from the inserted slot is recycled even when the stamp is the later
  one (`internal/sketch/hll.go:85`). `Rolling.LateInsertLosesAVisitor` gives the
  two insertions, `Rolling.RunStaysExactIff` the exact condition.
- **Two overlapping page views of one visitor can lose a session.** `Touch`
  releases the lock between closing a stale session and inserting the new one
  (`internal/sketch/session.go:74-81`), so the insertion can overwrite a session
  that another worker has opened meanwhile.
  `Interleaved.OverlappingViewsLoseASession` gives the schedule, from every
  state with a stale session and two idle workers;
  `Interleaved.PoliteRunsOverwriteNothing` says when it cannot happen, and
  `Interleaved.ImpolitenessCanOverwrite` that this is needed at every step.
- **Sweeping the limiter can be seen.** Only when the key map is full, and only if
  it refuses somebody while it holds a bucket that a sweep would drop;
  `Limiter.SweepsAreInvisibleIff`.
- **A path is judged twice, not once.** Comments say that a path's frequency is
  judged once and that one answer serves every family
  (`internal/aggregate/registry.go:81-82` and `301-302`), but both path guards feed
  the shared counter, so the cross guard judges the path by one sighting more
  (lines 303-304). `RegistryGuards.PathsAreJudgedAlikeIff` says exactly when the
  two agree, `RegistryGuards.FamiliesCanDisagree` gives a run of two calls after
  which they do not, and `RegistryGuards.PathsCountTwice` what an observation adds.
- **A reload does not change caps.** A site that is configured again keeps its
  guards, and with them the caps and thresholds of its first configuration
  (`internal/aggregate/registry.go:212-214`); only its path labels, retention and
  switches follow the new one. `RegistrySeries.LimitsAreFirstConfigured`.
- **Normalising a path twice can change it.** Cutting a long path at 128 bytes can
  leave a trailing slash or a last segment that looks like an identifier.
  `Path.NormalisingTwice` says exactly when, `Path.CutBehindSlash` and
  `Path.CutBehindIdentifier` show it.

## Model

| member | source | states |
|---|---|---|
| `Hashing.UnmixMix` | internal/sketch/hll.go:67-74 | the mixer on 64-bit words loses nothing: an explicit inverse recovers every id |
| `Hashing.MixUnmix` | internal/sketch/hll.go:67-74 | the mixer reaches every word, so it is a bijection |
| `Hashing.KnownMixes` | internal/sketch/hll.go:56-74 | it is the splitmix64 finalizer: its known values at zero, one and the generator's increment |
| `Hashing.HashesCountIds` | internal/sketch/hll.go:67-90 | the distinct hashes of a set of ids are as many as the ids |
| `Rolling.Rolling.constructor` | internal/sketch/hll.go:27-39 | a new ring has every stamp at -1 and every sub-sketch empty |
| `Rolling.Rolling.Insert` | internal/sketch/hll.go:77-90 | the hash lands in the position of its slot, which is emptied first if it was stamped for another slot; no other position changes |
| `Rolling.Rolling.Estimate` | internal/sketch/hll.go:93-114 | the count is that of the union of the positions stamped within the last n slots |
| `Rolling.InsertStaysExactIff` | internal/sketch/hll.go:77-90 | an insertion keeps the ring in agreement with the history on every slot of the window if and only if its slot is inside the window or its position holds nothing of the window |
| `Rolling.RunStaysExactIff` | internal/sketch/hll.go:77-90 | from a new ring on, the ring agrees with the history at every moment of a run if and only if every insertion was harmless in that sense when it happened |
| `Rolling.LateInsertLosesAVisitor` | internal/sketch/hll.go:83-89 | two insertions, the second one turn late, after which the estimate misses a visitor of the current slot |
| `Rolling.PunctualRunIsExact` | internal/sketch/hll.go:77-90 | on any run whose insertions are less than n slots late, the ring holds for every slot of the window exactly what was inserted for it: a recycled position leaks nothing |
| `Rolling.RingRefinesRecentVisits` | internal/sketch/hll.go:77-114 | on such a run, estimating at any slot not before the latest inserted one merges exactly what was inserted for the last n slots |
| `Rolling.StampsOnlyMoveForward` | internal/sketch/hll.go:83-89 | on such a run no stamp moves back, and a position that moves on restarts with the new visitor alone |
| `Rolling.SlotDistance` | internal/sketch/hll.go:54 | at most n resolutions apart in time is at most n slots apart, at least n is at least n |
| `Rolling.SlotTruncates` | internal/sketch/hll.go:54 | slots are counted toward zero on both sides of the epoch |
| `Windows.DayKeysOrderDates` | internal/sketch/hll.go:131-134 | day keys order as dates do, so no two dates share one and none is the initial 0; 7 March 2024 has 20240307 |
| `Windows.Daily.Insert` | internal/sketch/hll.go:138-148 | another day starts a fresh sketch, the same day adds to it |
| `Windows.Daily.Estimate` | internal/sketch/hll.go:152-159 | the count for the sketch's own day, zero for any other |
| `Windows.DayHoldsItsOwnVisits` | internal/sketch/hll.go:138-148 | with dates that do not go back, the day sketch holds exactly its own day's visitors |
| `Windows.Windows.constructor` | internal/sketch/hll.go:173-182 | the five standard rings and the day sketch, all empty, none sharing storage |
| `Windows.Windows.Insert` | internal/sketch/hll.go:186-193 | one id enters all five rings at its slot and the day sketch on its date, none disturbing another |
| `Windows.SlackIsPunctual` | internal/sketch/hll.go:54-90 | visits late by at most (n - 1) resolutions always satisfy the ring's time discipline |
| `Windows.RingSpan` | internal/sketch/hll.go:12-16 | a ring counts every visit of age at most (n - 1) resolutions and none of age n resolutions or more |
| `Windows.StandardSpans` | internal/sketch/hll.go:171-182 | the five standard rings in nanoseconds: whom each must and must not count |
| `Windows.WindowsNest` | internal/sketch/hll.go:162-193 | at every moment active is within 1h, 1h within 24h, 24h within 7d and 7d within 30d, for visits at most four minutes late |
| `Windows.RingCountsVisitors` | internal/sketch/hll.go:77-114 | what a ring of hashes counts is the number of distinct visitor ids inserted for the last n slots |
| `Limiter.Limiter.constructor` | internal/ingest/ratelimit.go:24-34 | at least one request a minute, the burst being one minute's worth |
| `Limiter.Bucket.Take` | internal/ingest/ratelimit.go:53-65 | refills up to the burst for the time elapsed, then takes one token if there is one |
| `Limiter.Limiter.Allow` | internal/ingest/ratelimit.go:37-66 | the answer and the new levels of all buckets: a known key draws, a new key is let in while there is room and refused without an entry when there is none |
| `Limiter.Limiter.Sweep` | internal/ingest/ratelimit.go:70-80 | exactly the buckets idle for longer than burst/rate go |
| `Limiter.IdleBucketsAreFull` | internal/ingest/ratelimit.go:68-79 | a bucket idle for longer than the sweep's limit has had the time to refill completely, rounding of the limit included |
| `Limiter.TokensStayInRange` | internal/ingest/ratelimit.go:36-80 | on every run tokens stay within 0..burst and no bucket is from the future |
| `Limiter.AllowKeepsSameButIdle` | internal/ingest/ratelimit.go:37-66 | with or without the buckets that a sweep would drop, a call answers the same and leaves the same but for such buckets, unless it is refused for lack of room while there are some |
| `Limiter.SweepsAreInvisible` | internal/ingest/ratelimit.go:36-80 | a run with sweeps anywhere returns the same answers as the run without them, if the latter refuses nobody for lack of room while it tracks a bucket that a sweep would drop |
| `Limiter.SweepFlipsARefusal` | internal/ingest/ratelimit.go:46-48 | in every other refusal one sweep right before it turns it into a grant |
| `Limiter.SweepsAreInvisibleIff` | internal/ingest/ratelimit.go:68-80 | so no placement of sweeps changes an answer if and only if the run has no such refusal |
| `Limiter.RateIsBounded` | internal/ingest/ratelimit.go:8-66 | over any stretch of any run, 10^9 times a key's grants are at most 10^9 times the burst plus the rate per second times the stretch in nanoseconds |
| `Limiter.GrantedIff` | internal/ingest/ratelimit.go:53-65 | a tracked key is granted if and only if one more grant keeps every stretch of the run that ends now within that bound |
| `Limiter.NewKeyIsRefusedIff` | internal/ingest/ratelimit.go:41-51 | an untracked key is refused if and only if the map tracks as many keys as it may, which it never exceeds |
| `Limiter.SweepDropsIff` | internal/ingest/ratelimit.go:68-79 | a sweep drops a bucket if and only if its idle time would earn more than a burst |
| `Sketch.ProbeIsProduct` | internal/aggregate/guard.go:82 | probe i is the hash plus i times its swapped halves |
| `Sketch.StartIsProduct` | internal/aggregate/guard.go:100 | row i starts at i times the width |
| `Sketch.RowsDoNotOverlap` | internal/aggregate/guard.go:100 | a flat index belongs to one row and one column only |
| `SketchBounds.SwapsHalves` | internal/aggregate/guard.go:82 | the second hash is the first with its 32-bit halves swapped |
| `SketchBounds.ColumnInWords` | internal/aggregate/guard.go:100 | a row's column is the hash plus the row's number of second hashes, on 64-bit words, modulo the width |
| `SketchBounds.RowsShareAColumnIff` | internal/aggregate/guard.go:100 | two rows look a value up in the same column if and only if the width divides their distance times the second hash |
| `Sketch.Counter.constructor` | internal/aggregate/guard.go:39-49 | depth times width cells, all zero |
| `Sketch.Counter.Halve` | internal/aggregate/guard.go:62-67 | every cell is halved and the count of additions restarts |
| `Sketch.Counter.Reset` | internal/aggregate/guard.go:118-124 | every cell is cleared, the count of additions is not |
| `Sketch.Counter.Add` | internal/aggregate/guard.go:80-114 | the estimate and all cells after the conservative update, halving included when it is due |
| `Sketch.Counter.Locate` | internal/aggregate/guard.go:92-104 | the cells of a value, one per row in use, and their minimum |
| `Sketch.Counter.Raise` | internal/aggregate/guard.go:108-113 | of a value's cells exactly those at the minimum grow, by one |
| `SketchBounds.AddLiftsToTheEstimate` | internal/aggregate/guard.go:69-113 | the law of conservative update: an addition lifts the value's cells to the estimate it reports where they are below it and touches no other cell, but for the halving that may come first |
| `SketchBounds.EstimateIsTheNewMinimum` | internal/aggregate/guard.go:98-113 | and the estimate is the smallest cell of the value afterwards |
| `SketchBounds.HalvesEveryWidth` | internal/aggregate/guard.go:87-90 | the sketch halves at every width-th addition of a run and at no other, whatever resets come in between |
| `SketchBounds.TruthIsSightings` | internal/aggregate/guard.go:51-67 | the aged count of a value, from the calls alone: its additions since the last reset, halved at every width-th addition |
| `SketchBounds.HalvingHalvesTheSum` | internal/aggregate/guard.go:62-67 | halving leaves at most half of a row's sum |
| `SketchBounds.RunsStayQuiet` | internal/aggregate/guard.go:80-124 | on every run each row sums to at most the width plus the additions since the last halving |
| `SketchBounds.NoiseFloor` | internal/aggregate/guard.go:42-47 | so on every run, in every row, fewer than 2 * width / k cells hold k or more, some cell holds at most 1, and none exceeds 2 * width - 1 |
| `SketchBounds.NeverSaturates` | internal/aggregate/guard.go:105-107 | the saturation branch is out of reach whenever twice the width fits 32 bits; the code's width is 4096 |
| `SketchBounds.SketchIsSandwiched` | internal/aggregate/guard.go:69-114 | on every run of additions, halvings and resets, every cell of every value is at least the value's aged true count and at most the same cell of a plain Count-Min Sketch |
| `SketchBounds.EstimateIsAnUpperBound` | internal/aggregate/guard.go:78-114 | the reported estimate is never below the aged true count, this addition included |
| `SketchBounds.SecondEstimate` | internal/aggregate/guard.go:80-114 | adding the same value again at once estimates one more, or half of it and one more if that addition halves |
| `SketchBounds.SecondCount` | internal/aggregate/guard.go:80-114 | and two additions raise the aged true count by two, but for a halving |
| `Guard.Guard.constructor` | internal/aggregate/guard.go:138-140 | a guard with its own empty sketch of depth 4 and width 4096, cap and threshold at least 1 |
| `Guard.Guard.With` | internal/aggregate/guard.go:149-162 | a guard on a sketch that already exists |
| `Guard.Guard.Admit` | internal/aggregate/guard.go:170-189 | the label, the admitted set, the count of folded observations and the shared sketch after the call; the empty value touches nothing |
| `Guard.Guard.Peek` | internal/aggregate/guard.go:194-204 | the label a value has now, recording nothing |
| `Guard.Guard.Decay` | internal/aggregate/guard.go:210-225 | exactly the values unseen for longer than the retention go, each is returned once, and the sketch is cleared if and only if there was one |
| `GuardRuns.RunDrivesTheSketch` | internal/aggregate/guard.go:142-225 | on every run the guard's sketch is the one its own and the sharing guard's additions and resets make, so the sketch's bounds apply |
| `GuardRuns.AdmittedStaysWithinCap` | internal/aggregate/guard.go:170-225 | the admitted set never exceeds the cap |
| `GuardRuns.FrequentValuesGetIn` | internal/aggregate/guard.go:78-80 | a value whose aged count reaches the threshold is admitted as soon as a slot is free, whatever else the sketch has been fed |
| `GuardRuns.AdmittedUntilUnseen` | internal/aggregate/guard.go:170-225 | an admitted value stays admitted throughout a run if and only if no decay finds it unseen for longer than the retention |
| `GuardRuns.TimesAreLatest` | internal/aggregate/guard.go:179-185 | on every run the time kept for an admitted value is that of its latest offer |
| `GuardRuns.AdmittedSinceOffer` | internal/aggregate/guard.go:170-225 | so from the offer that admits it on, a value stays admitted if and only if no decay comes longer than the retention after its latest offer |
| `GuardRuns.CappedCountsFolded` | internal/aggregate/guard.go:187-188 | the count of folded observations is the number of offers answered by folding |
| `GuardRuns.OffersShow` | internal/aggregate/guard.go:170-189 | an offer is answered with the value itself exactly if the value is admitted afterwards, changes nothing for other values, and takes a slot only when there is one |
| `GuardRuns.ClosedDimensionsNeverFold` | internal/aggregate/guard.go:170-225 | with threshold 1 and no more values than slots nothing is ever folded, whatever decays in between |
| `Sessions.Sessions.constructor` | internal/sketch/session.go:50-58 | an empty tracker that has evicted nothing |
| `Sessions.Sessions.Touch` | internal/sketch/session.go:62-93 | the whole new state and everything reported: a current session continues, a stale one is closed and a new one opened, and the least recently seen go when there are too many; the answer says whether a session was opened |
| `Sessions.Sessions.Continue` | internal/sketch/session.go:65-70 | one more page, the new exit path and the new last time, nothing else |
| `Sessions.Sessions.Reopen` | internal/sketch/session.go:71-84 | a stale session is reported once and the new one takes its place |
| `Sessions.Sessions.Announce` | internal/sketch/session.go:85-91 | the start is reported once, and the cap is restored by eviction |
| `Sessions.Sessions.Extend` | internal/sketch/session.go:97-103 | only the last time of a session that is not stale changes |
| `Sessions.Sessions.Sweep` | internal/sketch/session.go:106-122 | exactly the stale sessions go, each reported once, and their number is returned |
| `Sessions.Sessions.CloseStale` | internal/sketch/session.go:107-116 | the locked part of the sweep, in any map order |
| `Sessions.Sessions.EvictOldest` | internal/sketch/session.go:127-152 | max(0, n - cap) sessions go, none seen later than any survivor, each reported once, in any map order |
| `Sessions.Sessions.DropOldest` | internal/sketch/session.go:128-147 | the locked part of the eviction, which ends because the map shrinks |
| `Sessions.Sessions.Oldest` | internal/sketch/session.go:132-142 | the inner search finds a session seen no later than any other, if there is any |
| `Sessions.EvictOne` | internal/sketch/session.go:131-146 | taking the oldest of what is left keeps every evicted session no later than every survivor |
| `SessionRuns.StepAccounts` | internal/sketch/session.go:62-152 | every call keeps the books: each started session once, each page view once |
| `SessionRuns.SweepKeepsTotal` | internal/sketch/session.go:105-122 | a sweep moves sessions from live to ended and changes no total |
| `SessionRuns.SweepClosesExactlyTheStale` | internal/sketch/session.go:105-116 | after a sweep exactly the sessions are live that were seen less than the TTL ago, and as many are reported as are gone |
| `SessionRuns.EvictsAsManyAsNeeded` | internal/sketch/session.go:124-146 | an eviction leaves the cap and no fewer, takes none seen later than any that stays, and leaves those alone |
| `SessionRuns.SessionsAreConserved` | internal/sketch/session.go:62-152 | on every run, whatever the times and evictions: started = ended + live, also path by path for entry paths; page counts sum to the page views; evicted is at most ended; live is at most the cap |
| `Timelines.SameDecision` | internal/sketch/session.go:65-84 | the tracker continues a session exactly when an offline splitter of the visitor's timeline does |
| `Timelines.CutsAtGaps` | internal/sketch/session.go:62-93 | the offline splitter's segments are the timeline itself, cut exactly where nothing happened for the TTL or longer |
| `Timelines.ReportSays` | internal/sketch/session.go:168-176 | what is reported of a segment: from its first page view to its last event, its page views, the paths of the first and the last, and a bounce if there is only one |
| `Timelines.ReportsAreTheSplit` | internal/sketch/session.go:62-122 | with a clock that does not go back and no eviction, what has been and would now be reported is what cutting each visitor's timeline at gaps of the TTL gives |
| `Timelines.SweepsAreInvisible` | internal/sketch/session.go:105-122 | if a run without sweeps evicts nothing, then with sweeps put in anywhere it evicts nothing either and ends up reporting the same |
| `Timelines.SweptRunIsAlike` | internal/sketch/session.go:62-122 | at every moment the swept tracker lacks only sessions that are stale by then |
| `Interleaved.StepBalances` | internal/sketch/session.go:62-152 | every critical section and every report of any worker keeps the books, with what is under way and what was overwritten in them |
| `Interleaved.NothingElseIsLost` | internal/sketch/session.go:62-152 | at every moment of every interleaving started = ended + live + overwritten, reports under way included, and page counts sum to the page views not just then between closing and reopening |
| `Interleaved.OverflowIsOwed` | internal/sketch/session.go:85-152 | live sessions never exceed the cap by more than the evictions that workers still owe |
| `Interleaved.OnlyReopeningOverwrites` | internal/sketch/session.go:71-84 | a session is overwritten exactly when a reopening after a stale close finds its id live again, and at no other step |
| `Interleaved.StepStaysExclusive` | internal/sketch/session.go:71-84 | while no page view begins for an id that a worker is about to reopen, such ids are not live and have one worker each |
| `Interleaved.PoliteRunsOverwriteNothing` | internal/sketch/session.go:71-84 | on such runs nothing is ever overwritten, with any number of workers |
| `Interleaved.ImpolitenessCanOverwrite` | internal/sketch/session.go:71-84 | from every such state in which a worker waits to reopen an id, each page view that another worker begins for it can be overwritten by the first one going on alone |
| `Interleaved.OverlappingViewsLoseASession` | internal/sketch/session.go:71-84 | otherwise something can be: from every state with a stale session, a schedule of two page views that loses a session for good |
| `Interleaved.AloneIsSerial` | internal/sketch/session.go:62-93 | the steps of a page view that nobody else steps between do what the serial call does |
| `Interleaved.SweepAloneIsSerial` | internal/sketch/session.go:106-122 | so do those of a sweep |
| `Families.MassOfInc` | internal/aggregate/registry.go:307-309 | one increment adds one to every sum its series belongs to and to no other |
| `Families.MassSplits` | internal/aggregate/registry.go:447-469 | deleting series takes exactly their counts out of every sum |
| `Registry.Registry.constructor` | internal/aggregate/registry.go:132-202 | empty families, and the state of every configured site |
| `Registry.Registry.Configure` | internal/aggregate/registry.go:207-232 | a new site gets its guards with the caps and thresholds of its configuration, a known one keeps everything but its configuration |
| `Registry.Registry.Record` | internal/aggregate/registry.go:286-367 | every family and every guard after one observation, unknown sites and engagement included, given the session tracker's answer |
| `Registry.Registry.RecordEvent` | internal/aggregate/registry.go:301-357 | the path is admitted by the pure and then by the cross guard on one sketch, and their answers label the families, given the session tracker's answer |
| `Registry.Registry.RecordDims` | internal/aggregate/registry.go:315-357 | the loop over the dimensions changes each dimension's guard and family by its own observation only |
| `Registry.Registry.RecordDim` | internal/aggregate/registry.go:324-356 | one dimension: which kind of event it counts, its label, and the organisation folded with its network |
| `Registry.Registry.Maintain` | internal/aggregate/registry.go:443-472 | every site's labels are maintained once, in some order |
| `Registry.Registry.MaintainSite` | internal/aggregate/registry.go:447-471 | what the guards let go and the series that go with it, for one site |
| `Registry.Registry.DropPurePaths` | internal/aggregate/registry.go:447-451 | a path that leaves the pure guard leaves pageviews, entries and exits, and nothing else does |
| `Registry.Registry.DropCrossPaths` | internal/aggregate/registry.go:454-460 | a path that leaves the cross guard leaves every dimension family and time on page |
| `Registry.Registry.DropValues` | internal/aggregate/registry.go:465-471 | a value that leaves its dimension's guard leaves that dimension's family on every path |
| `Registry.PurgedInParts` | internal/aggregate/registry.go:447-471 | the deletion loops together delete exactly the series one of whose labels was let go |
| `RegistryCalls.RecordCounts` | internal/aggregate/registry.go:301-376 | what an observation counts, series by series: page views and entries under the pure guard's label, time on page under the cross guard's, each dimension under its own value's label and organisation and the cross guard's path, and nothing else |
| `RegistryCalls.FirstLabelIsTheValue` | internal/aggregate/registry.go:324-355 | a dimension's first label is the observation's own value of that dimension, or says that it was folded, or, exactly then, that it was empty |
| `RegistryCalls.RecordOffers` | internal/aggregate/registry.go:303-355 | which guard is offered what: only the offered value can be admitted or renewed, at the observation's time, and a fold is counted; an engagement offers nothing |
| `RegistryCalls.UniquesGrowIff` | internal/aggregate/registry.go:378-392 | the per-path sketches grow exactly by the path of a page view that the cross guard shows, if they are switched on |
| `RegistryCalls.MaintainedIff` | internal/aggregate/registry.go:443-472 | a series is there after the maintenance of a site, with its count, if and only if it was there and is of another site, or no guard that labels it had not seen the label for longer than the retention |
| `RegistryCalls.MaintainedAllIff` | internal/aggregate/registry.go:435-473 | the same for the maintenance of all sites in any order |
| `RegistryCalls.MaintenanceKeepsSeen` | internal/aggregate/guard.go:210-225 | each guard of a maintained site keeps exactly what it has seen recently enough, with its times; a sketch is cleared exactly if a guard on it lost something; the per-path sketches keep the paths the cross guard keeps |
| `RegistryCalls.NewSitePaths` | internal/aggregate/registry.go:223-224 | caps and threshold of a new site's path guards, none below one |
| `RegistryCalls.NewSiteDims` | internal/aggregate/registry.go:244-271 | caps and thresholds of a new site's dimensions, one by one |
| `RegistryCalls.LastConfigApplies` | internal/aggregate/registry.go:211-215 | path labels, retention and switches follow the last configuration of the site |
| `RegistryCalls.StraysAreUnknown` | internal/aggregate/registry.go:287-291 | observations of sites not configured by then, and nothing else, are counted as unknown |
| `RegistryRuns.LedgerBalances` | internal/aggregate/registry.go:286-473 | on every run, for every family and every selection of series: what is there plus what maintenance deleted is what was counted |
| `RegistryRuns.NothingDeleted` | internal/aggregate/registry.go:286-367 | recording never deletes |
| `RegistryRuns.MarginalsAreExact` | docs/cardinality.md:62-72 | however much is folded or deleted: a dimension's family, deletions included, sums to its events; over the paths of a value to the observations its guard labelled with that value; over the values of a path to the page views the cross guard labelled with that path |
| `RegistryRuns.FamiliesAgreeOnPaths` | internal/aggregate/guard.go:144-148 | without maintenance all path-labelled page-view families agree on every path's sum |
| `RegistryRuns.PageviewFamiliesAgree` | internal/aggregate/registry.go:306-357 | the path family and every page-view dimension, deletions included, sum to the same number, the site's page views |
| `RegistryRuns.EntriesNeverExceedPageviews` | internal/aggregate/registry.go:307-310 | on every run, maintenance included, each path's entries are at most its page views |
| `RegistryRuns.TimingsAreExact` | internal/aggregate/registry.go:369-376 | time on page, deletions included, is observed once for every engagement that reports a time, under whatever path label |
| `RegistryRuns.ClosedStaysRoomy` | internal/aggregate/registry.go:234-271 | a closed dimension that meets no more values than its cap has room for each of them on every run |
| `RegistryRuns.ClosedMarginalsAreTrueCounts` | internal/aggregate/registry.go:234-271 | so it is never folded, and each value's marginal, deletions included, is the true number of page views whose own value of the dimension that is |
| `RegistrySeries.SurvivorsAreTracked` | internal/aggregate/registry.go:447-471 | a series that maintenance leaves has labels that the guards have kept |
| `RegistrySeries.SeriesStayAdmitted` | internal/aggregate/registry.go:301-392 | on every run each series' value label is admitted by its guard at that moment or a sentinel, its path label likewise by the cross guard (by the pure guard for pageviews and entries), no guard exceeds its cap, and the per-path sketches belong to admitted paths |
| `RegistrySeries.FirstLabelDecides` | internal/aggregate/registry.go:340-347 | if every network has one organisation, a series' network label decides its organisation label, folded ones included |
| `RegistrySeries.FamiliesAreBounded` | internal/aggregate/registry.go:301-357 | then a dimension family never holds more than (cap + 2) * (cross cap + 3) series of a site |
| `RegistrySeries.LimitsAreFirstConfigured` | internal/aggregate/registry.go:207-232 | on every run a site exists if and only if it was configured, and its caps and thresholds are those of its first configuration |
| `RegistrySeries.FamiliesStayWithinFirstCaps` | internal/aggregate/registry.go:207-271 | so the caps a site started with bound its families for good, reconfigured or not |
| `RegistryGuards.GuardsAreRuns` | internal/aggregate/registry.go:301-357 | on every run of the registry each guard of a site and the sketch it draws on are where a run of guard calls takes them, the other path guard's included, so what holds of guards holds of these |
| `RegistryGuards.SketchesStayQuiet` | internal/aggregate/guard.go:42-47 | the noise floor holds of every sketch of every site, and none of them saturates |
| `RegistryGuards.FrequentValuesGetIn` | internal/aggregate/guard.go:164-169 | an observation whose value has reached the threshold in aged sightings is shown as itself as soon as its dimension has a free slot |
| `RegistryGuards.FrequentPathsGetIn` | internal/aggregate/registry.go:303 | so is a path by the pure guard |
| `RegistryGuards.FrequentPathsGetAcross` | internal/aggregate/registry.go:304 | and by the cross guard, by its second sighting |
| `RegistryGuards.PathsAreJudgedAlikeIff` | internal/aggregate/registry.go:301-304 | on every run the pure and the cross guard show a path alike if and only if both admit it or neither does, the latter going by the count after the second addition |
| `RegistryGuards.NewPathIsSplitIff` | internal/aggregate/registry.go:301-304 | a path new to both, with room in both, is folded by one and shown by the other exactly when the second count is the one that reaches the threshold (or a halving in between moves it across) |
| `RegistryGuards.FamiliesCanDisagree` | internal/aggregate/registry.go:301-304 | with a threshold of two, the first page view of a fresh site is folded in the path family and shown in every path-labelled one |
| `RegistryGuards.PathsCountTwice` | internal/aggregate/registry.go:303-304 | each observation with a path adds two to the path's aged count, but for a halving |
| `RegistryGuards.EitherDecayClearsBoth` | internal/aggregate/guard.go:210-225 | a maintenance that drops anything from either path guard clears their common sketch, but not its count of additions |
| `SessionMetrics.ReportsAreCounted` | internal/aggregate/registry.go:421-431 | every reported start is counted as a session of its site, every reported end as an exit at its exit path, and neither anywhere else |
| `SessionMetrics.TouchIsHeard` | internal/aggregate/registry.go:306-310 | a page view is an entry, under the label the tracker took for its path, exactly when the tracker reports a start |
| `SessionMetrics.EverythingIsHeard` | internal/aggregate/registry.go:286-473 | on every run of the registry with a tracker for each site, the counters of every site and path say exactly what its tracker reported |
| `SessionMetrics.EntriesAreSessions` | internal/aggregate/registry.go:306-310 | on every such run, deletions aside, the entries of a site are its session total, and those of a path the sessions that began there, ended or live |
| `SessionMetrics.ExitsAreEndedSessions` | internal/aggregate/registry.go:425-431 | its exits are the session total less the live sessions, and those of a path the sessions that ended there |
| `SessionMetrics.PageviewsAreSessionPages` | internal/aggregate/registry.go:306-308 | its page views are the pages of its sessions, ended or live |
| `SessionMetrics.TrackersStayWithinCap` | internal/aggregate/registry.go:229 | no site ever has more than 200000 live sessions |
| `SessionMetrics.TrackersAreRuns` | internal/aggregate/registry.go:306-376 | the tracker of a site has gone through exactly its own calls (visitor, pure label and time of page views, engagements, sweeps), so all that holds of a tracker's runs holds of it |
| `SessionMetrics.TrackersAreFirstConfigured` | internal/aggregate/registry.go:229 | its time-out is that of the site's first configuration |
| `Recording.Record` | internal/aggregate/registry.go:296-357 | an observation with the site's tracker object: the tracker takes its part under the pure label, its answer decides on an entry, and its reports reach the counters |
| `Recording.MaintainSite` | internal/aggregate/registry.go:443-472 | the maintenance of one site: the sweep with its reports, then the labels |
| `Recording.RecordIsAStep` | internal/aggregate/registry.go:286-357 | what such a call does is a step of the registry with its trackers, so every result above holds after any number of them |
| `Recording.MaintainSiteIsAStep` | internal/aggregate/registry.go:443-472 | likewise for maintenance |
| `Path.IsUUID` | internal/enrich/path.go:99-116 | answers true exactly on the 36-character text form of a UUID (section 4 of RFC 9562) |
| `Path.IsIdentifier` | internal/enrich/path.go:56-97 | answers true exactly on UUIDs, runs of at least four digits that are no year 1900-2100, and at least twelve hex digits |
| `Path.IdentifiersBySight` | internal/enrich/path.go:53-116 | by their characters: hex groups of 8-4-4-4-12, four digits or more that do not look like a year, or twelve hex digits or more |
| `Path.FourDigitsBySight` | internal/enrich/path.go:81-92 | four digits are a route if and only if they start with 19 or 20 or are 2100 |
| `Path.LowerBySight` | internal/enrich/path.go:29 | the 26 capitals become their small letters, everything else stays |
| `Path.CollapseIdentifiers` | internal/enrich/path.go:40-44 | exactly the identifier segments become `:id` |
| `Path.NormalizePath` | internal/enrich/path.go:17-51 | a malformed URL gives the root, any other the canonical form of its path, cut at 128 bytes |
| `Path.JoinSplit` | internal/enrich/path.go:39-45 | joining undoes splitting |
| `Path.SplitJoin` | internal/enrich/path.go:39-45 | splitting undoes joining for segments without slashes |
| `Path.NormalShape` | internal/enrich/path.go:13-51 | every result starts with a slash, is lower case and at most 128 bytes, and unless it was cut it has no identifier segment and no trailing slash but the root's |
| `Path.NormalIsAPrefix` | internal/enrich/path.go:47-50 | the result is the canonical path or its first 128 bytes |
| `Path.PlainPathsStay` | internal/enrich/path.go:13-51 | a short lower-case path without identifiers stays as it is |
| `Path.YearPathsStay` | internal/enrich/path.go:81-90 | so does one that ends in a year, like /blog/2019 |
| `Path.IdentifierPathsCollapse` | internal/enrich/path.go:13-16 | one that ends in an identifier ends in :id |
| `Path.NormalisingTwice` | internal/enrich/path.go:22-50 | normalising again changes nothing if and only if the canonical path fits 128 bytes, or its first 128 bytes end neither in a slash nor in an identifier-shaped segment |
| `Path.CutBehindSlash` | internal/enrich/path.go:47-49 | a family of paths whose cut leaves a trailing slash, which normalising again removes |
| `Path.CutBehindIdentifier` | internal/enrich/path.go:47-49 | a family of paths whose cut leaves an identifier, which normalising again collapses |
| `Path.CanonicalBySegments` | internal/enrich/path.go:26-45 | the canonical path in terms of the segments of the path: rooted, lower case, identifiers collapsed, empty segments at the end dropped |
| `Path.IdentifiersShareALabel` | internal/enrich/path.go:13-16 | any two paths whose segments differ only in case and in their identifiers get one label |

## Left out

Behaviour of the repository that is not modelled:

- HTTP handling, CORS, JSON decoding, visitor identity (HMAC, SHA-256, salts), client IP extraction, configuration loading, geo and User-Agent tables: input and output, library calls and lookup tables.
- HyperLogLog's statistical error and its sparse encoding: a sketch is the exact set of the hashes inserted, merging is union, estimating is counting. Library errors of `Merge` and `NewSketch` do not occur in the model.
- xxhash: the 64-bit hash of a value is an arbitrary function, a parameter of every result about sketches and guards.
- Prometheus: a counter family is a map from label tuples to counts. Histogram values, the session duration histogram, bounces, the region and city counters, and the state collector are not modelled; of time on page only the number of observations per series is.
- URL parsing, user-defined path rewrites, UTM parameters, referrer host and screen class. A path is a string of one-byte characters of which only ASCII letters have a lower case.
- Time zones: the calendar date of an insertion is an input. A zero observation time, which the code replaces by the current time, is replaced before the model sees it.
- Machine widths other than those stated: times are unbounded integers of nanoseconds (Go's duration subtraction saturates after 292 years), counts of observations do not wrap, and the 32-bit cells of the sketch are modelled with their bound.
- The Go memory model: each critical section of the interleaved model is one atomic step. Locks that protect a single call are not modelled at all.

Members whose contracts are weaker or narrower than they might be:

- Rolling.Rolling.Insert: requires a slot that has a position: from one resolution before the Unix epoch on every slot has, and before that the code's index is negative except at multiples of the number of positions. The results about runs are about times from the epoch on.
- Limiter.RateIsBounded: tokens are reals, so floating-point rounding of refills is not covered; the same holds for Limiter.GrantedIff and Limiter.SweepsAreInvisible.
- Limiter.SweepsAreInvisibleIff: asks for a clock that does not go back, as the argument for dropping buckets does.
- Timelines.ReportsAreTheSplit: is about runs without capacity eviction and with a clock that does not go back; SessionRuns.SessionsAreConserved covers all others.
- Registry.Registry.Record: takes the session tracker's answer to a page view as an input; Recording.Record has the tracker. The visitor's way into the windows is left to Windows.Windows.Insert, and of the per-path unique sketches only their keys are kept.
- Registry.Registry.RecordEvent: the same, and no region and city counters.
- Registry.Registry.Maintain: does not sweep the sites' sessions; Recording.MaintainSite does.
- Registry.Registry.MaintainSite: the same, for one site.
- Recording.Record: takes the tracker of the observation's site as an argument, so the map from sites to trackers appears only in SessionMetrics. Reports are counted when the tracker's call returns, not while it runs. Durations and bounces are left out, as are the windows.
- Registry.Registry.Configure: guards and sketches of a site are values here, so the sharing of one counter object by the two path guards appears as one shared value; Guard.Guard and Sketch.Counter are the objects, proved against the same functions.
- RegistrySeries.SeriesStayAdmitted: does not cover the exits family, because a live session can keep the label of a path that has decayed meanwhile (internal/sketch/session.go:97-103 refreshes it without asking the guard).
- RegistrySeries.FamiliesAreBounded: assumes that a network always comes with the same organisation, as the comment at internal/aggregate/registry.go:340-342 does.
- SessionMetrics.EverythingIsHeard: is about one call at a time; Interleaved has the trackers under several workers.
- SketchBounds.SketchIsSandwiched: asks for at least one row and for twice the width to fit 32 bits, as in the code (4 rows of 4096).
- Path.NormalizePath: takes what the URL library makes of the trimmed URL, a path or a failure, as its input.
