# CrashCart in Dafny

A model of CrashCart's protocols and algorithms, and proofs of what its
comments promise. Tables are maps, objects in the blob store are byte
sequences under keys, times are microseconds since Go's zero time (a Monday).
A transaction, or a statement outside one, is one atomic step; a call to the
blob store is a step of its own; a crash may happen between any two steps.
Where the source changes state in place there is a class or a method with the
source's loops, proved against a function; the theorems are about that
function, or about every run of a state machine the methods are runs of.

`dafny verify dfyconfig.toml` checks everything.

| files | what they model |
|---|---|
| Foundations.dfy | options, the calendar, sorted listings, 64-bit integers, text |
| PackProtocol.dfy, PackSafety.dfy, PackLoop.dfy, PackReader.dfy, PackOrphans.dfy | event payloads: spool, packs, week sweep, two-step reads, the read cache, the objects nobody deletes |
| Rollup.dfy, RollupJob.dfy | hourly statistics: dirty keys with generations, the rollup job |
| Vlq.dfy, SourceMap.dfy, SourceMapLookup.dfy | source maps: Base64 VLQ, mappings, stable sort, lookup, indexed maps |
| Issues.dfy, IssueRuns.dfy, IssueIngest.dfy | issues: the upsert and its fold, counts over runs, the ingest transaction |
| JobQueue.dfy, JobWorker.dfy | the job queue and the worker |
| SymbolFiles.dfy, SymbolLeaks.dfy, SymbolService.dfy | symbol files in the blob store: uploads, chunked imports, deletes, readers, leaks |
| Envelope.dfy | envelope framing and limits |
| Grouping.dfy, Regrouping.dfy | fingerprint signatures; statistics and counts of runs whose fingerprints are the analysis's own |
| Retention.dfy | weekly partitions |
| Monitors.dfy | monitor hysteresis |
| Paging.dfy | keyset paging |

Datatype fields marked as history in the comments (what was sent, what was put
under a key, how often a job was claimed) record the past for a theorem to
speak about; no step reads them to decide what to do.

## What the theorems assume

- Packs: a commit that reports an error did not commit (PackSafety.CommitMustBeDefinite
  shows why). Any number of packers is allowed; the leader lock is not used. The same
  holds for the transactions of symbol files.
- Statistics: one rollup runs at a time (Rollup.TwoRollupsLoseAMark shows why), with the
  clock read for the cutoff not after the one of the query; the clock does not run
  backwards. An issue that expires has no event later than its last_seen
  (Regrouping.RangedIsSeen derives it from the issue's counts); it may still have event rows.
- Issues: transactions are serial, one project, and event times are after Go's zero time
  (clampPast sees to it).
- Two steps are excluded from those runs, each with its exact condition proved: a
  re-symbolication that takes a fingerprint away (IssueRuns.SymbolicateKeepsIff,
  Rollup.MoveIsExactIff) and an issue expiry ahead of its weeks (IssueRuns.ExpireIsSafeIff).
  Neither can happen where every fingerprint is the analysis's own and RETENTION_DAYS is
  three or more (Regrouping.AnalysedStatsAreExact, Regrouping.AnalysedCountsAreConserved).
- Fresh object keys are never reused: a random key is a counter here.
- Envelopes and grouping: JSON, regular expressions and digests are function parameters,
  with their laws stated where they are used.
- Paging: no row is at Go's zero time (Paging.CursorExcludesItsRowIff shows why).

## Where the code and its comments part

- Re-symbolication writes the new fingerprint before it looks whether there is one: an
  event that loses its fingerprint leaves its issue's counts and a clean hour's statistics
  wrong (IssueRuns.SymbolicateKeepsIff, Rollup.MoveIsExactIff). Symbolicating frames alone
  cannot cause it (Grouping.EmptinessIgnoresFrames); it takes an imported row whose
  fingerprint came from the dump while its payload has nothing to group by
  (Regrouping.ImportedRowIsExactIff).
- The comment on packOne says the week sweep deletes an orphaned object. It does not: the
  sweep goes by the packs table (PackOrphans.OrphansStay), and each of packOne's exits can
  leave an object without its row (PackOrphans.UndoRowOrphansIff, PutExitOrphansIff,
  CommitExitOrphansIff, CrashOrphansIff), as the runs of PackOrphans.UnacknowledgedPutOrphans and
  SlowPackerOrphans do. PackOrphans.EveryPackIsPlaced and RunOrphansHaveACause bound the
  damage.
- The comment on the stale cutoff of ExpireIssues says the issue's events are long gone.
  With RETENTION_DAYS of one or two an event row can outlive its issue
  (IssueRuns.ExpireIsSafeIff, IssueRuns.LongRetention), as in the run of
  IssueRuns.ShortRetentionOrphans.
- RETENTION_DAYS has no upper bound, but rolled rows are kept 400 days: older clean hours
  still inside retention read as empty (Rollup.OldHourIsExactIff).
- An import that holds one symbol file twice between two batches leaves an object nobody
  ever deletes (SymbolLeaks.DuplicateLineLeaks, AbandonedForGood, and from the empty tables
  DuplicateImportLeaks).
- PackReader.slice panics on a negative length where a range read reports an error
  (PackReading.CachedReadsAreDirect); no place has one (PackProtocol.FillSound).
- UpsertIssueParams.Releases is documented as empty for none; ingest passes the empty
  string for an event without a release. The model follows the code.

## Model

| member | source | states |
|---|---|---|
| PackSafety.PayloadIsKept | internal/store/packs.go:169-224 | In every state of every interleaving of ingest, any number of packers, sweepers, readers and crashes, an unexpired event ingested with a payload has exactly that payload in its column, its spool row, or its pack's byte range |
| PackSafety.ReadsAreExact | internal/store/packs.go:49-84 | A reader whose lookup ran while the week was unexpired returns exactly the ingested bytes, or nothing because the week expired before the object was read; an event without a payload reads as none, never as packed bytes |
| PackSafety.ReadGoesThrough | internal/store/packs.go:49-84 | In every state of the invariant, reading an unexpired event returns its payload, or none if it had none |
| PackSafety.CommitMustBeDefinite | internal/store/packs.go:208-222 | Why packOne relies on a commit error meaning not committed: were the transaction applied and an error seen, its undo would delete the only copy of an unexpired payload |
| PackSafety.RunKeeps | internal/store/packs.go:169-258 | The crash-safety invariant (spool, places, packers, sweepers, readers) survives any sequence of steps |
| PackSafety.CommitPackKeeps | internal/store/packs.go:208-215 | Swapping the pointers in one transaction keeps the invariant, also when the pack row has gone or the same rows were packed twice |
| PackSafety.CollectKeeps | internal/store/packs.go:178-195 | Reading a group's rows and cutting them gives a packer ranges that hold the payloads sent, now and while other packers move the rows |
| PackSafety.IngestKeeps | internal/store/events.go:52-90 | The crash-safety invariant survives an ingest, also one that conflicts with a stored event or meets a leftover spool row |
| PackSafety.DropWeeksKeeps | internal/retention/retention.go:175-207 | Dropping whole weeks (and moving the horizon) keeps every surviving event's payload |
| PackSafety.SweepObjectKeeps | internal/store/packs.go:226-258 | A sweep deletes objects only of weeks already past its cutoff, so no unexpired place loses its bytes |
| PackSafety.UndoObjectKeeps | internal/store/packs.go:216-222 | Deleting the object after a failed commit takes no place's bytes: nothing points at it |
| PackProtocol.FillSound | internal/store/packs.go:182-195 | The entries of a pack tile its object, each range is its payload byte for byte, the int32 conversions never wrap, and a pack over PackBytes holds a single payload |
| PackProtocol.FillTakesPrefix | internal/store/packs.go:182-195 | The rows taken are a prefix of the rows read, cut exactly where the next one would not fit |
| PackLoop.PackTakesRows | internal/store/packs.go:176-199 | A pack takes rows of its own group only, none twice, and at least one of a non-empty group |
| PackLoop.PackOneIsCalls | internal/store/packs.go:176-224 | packOne with any fault in any of its calls is a run of the protocol's packer steps |
| PackLoop.PackedRow | internal/store/packs.go:198-215 | A committed pack has its object and its packs row, with the size of the object; no other object or row changes |
| PackLoop.Store.FillPack | internal/store/packs.go:182-195 | The loop over the rows computes the cut of the protocol |
| PackLoop.Store.PackOne | internal/store/packs.go:176-224 | The tables and objects packOne leaves, and its count and error, for every fault: nothing packed and an error exactly when reading the rows failed or another call failed on a non-empty group |
| PackLoop.Store.PackPass | internal/store/packs.go:145-166 | One pass over the groups listed at its start, with a fault in any of its calls, is a run of the protocol and counts the spool rows it removed; without force every row that leaves belonged to a group due when the pass began (PackBytes of payload or a row of PackAge), and without an error it packs nothing only when no group is due |
| PackLoop.Store.Pack | internal/store/packs.go:128-167 | Pack and Drain terminate by the spool row count and return the rows moved, with or without an error from any call; Pack takes rows of due groups only, and without an error leaves, for every project and week, payloads that add up to less than PackBytes and rows younger than PackAge; Drain without an error leaves an empty spool |
| PackLoop.DueIff | internal/store/packs.go:141-166 | A row's group is due exactly when some of its payloads, laid end to end, reach PackBytes or one of its rows has waited PackAge |
| PackLoop.Store.ExpirePacks | internal/store/packs.go:226-258 | With a fault in any delete, in any order of the list, the sweep is a run of the protocol's sweeper steps: a row goes only after its object, nothing but expired packs goes, a row that stays stops it, and without an error no expired pack, object or spool row is left |
| PackLoop.SpoolGroups | internal/store/spool.go:27-38 | Every spool row belongs to a listed group, and every listed group is the group of some spool row |
| PackReading.PackReader.Slice | internal/store/packs.go:108-126 | The map and the eviction list after one read, and the bytes, range error or panic it gives |
| PackReading.LookKeepsCache | internal/store/packs.go:86-126 | The map never exceeds 8 packs and the eviction list stays a duplicate-free listing of its keys |
| PackReading.CachedReadsAreDirect | internal/store/packs.go:86-126 | For any sequence of reads of write-once packs the cache answers as a direct range read, or with the same bytes after the object is gone; it panics exactly for a negative length whose end lies inside the data, where a direct read reports the range |
| PackOrphans.EveryPackIsPlaced | internal/store/packs.go:169-258 | In every state of every run a present object has its packs row, is in the hands of a packer that will commit or undo it, is on the list of a sweep about to delete it, or is orphaned for good |
| PackOrphans.OrphansHaveACause | internal/store/packs.go:200-258 | A step orphans an object only by an unacknowledged put, an object not deleted by an undo or a sweep, a row deleted over its object, or a crash |
| PackOrphans.RunOrphansHaveACause | internal/store/packs.go:200-258 | Behind every orphaned object of every run stands a step with one of those causes |
| PackOrphans.UndoRowOrphansIff | internal/store/packs.go:204-222 | The last step of both error exits orphans the object exactly when it is there, the packs row is gone (by this step or a sweep before it), and no sweep has it on its list |
| PackOrphans.PutExitOrphansIff | internal/store/packs.go:204-207 | The exit after a failed put, with any steps of others between its two calls, orphans the object exactly so; the object can only be there if the put had arrived |
| PackOrphans.CommitExitOrphansIff | internal/store/packs.go:217-222 | The exit after a failed or refused commit, with any steps of others between its two calls, orphans the object exactly so; the object can only be there if deleting it failed |
| PackOrphans.CrashOrphansIff | internal/store/packs.go:169-175 | A crash after InsertPack orphans the object exactly when it was put, its packs row is gone, and no sweep has it on its list |
| PackOrphans.UnacknowledgedPutOrphans | internal/store/packs.go:204-207 | From the empty tables: a put that arrives but is not acknowledged, and the row deleted after it, leave an orphan |
| PackOrphans.SlowPackerOrphans | internal/store/packs.go:200-258 | From the empty tables: a sweep of the week between InsertPack and the put, and then a crash or a refused commit with a failed undo, leave an orphan although the undo deleted no row |
| PackOrphans.OrphansStay | internal/store/packs.go:226-258 | An object without a packs row stays through any later run: the week sweep goes by the packs table and never deletes it |
| Rollup.StatsAreExact | internal/retention/retention.go:313-328 | With one rollup running its three steps against any interleaving of ingest, re-symbolication, drops and expiry, a read of rolled rows for clean hours and raw rows for dirty ones equals the aggregate of the raw rows, for every whole hour inside both retentions; ReadCountsIngest and ReadCountsMove say what that aggregate counts |
| Rollup.ReadCountsIngest | internal/retention/retention.go:418-445 | In every state of the protocol a new row raises, in the read of its hour, events of its release, platform and level by one, unhandled by one exactly when handled is false, errors by one exactly when it is an error and not unhandled, and the count of its fingerprint by one if it has one; nothing else of this or another hour changes, and an hour without rows reads empty |
| Rollup.ReadCountsMove | internal/symbolicate/service.go:451-462 | A re-symbolication moves the event's one from the count of its fingerprint to that of the new one, and leaves what the read counts by release, platform and level |
| Rollup.RunKeeps | internal/retention/retention.go:313-405 | Clean hours stay exact, and a key the job has read stays dirty until cleared with its recomputed rows exact unless its generation moved |
| Rollup.IngestKeeps | internal/store/events.go:65-125 | Clean hours stay exact, and the job's keys stay right, through an ingest of any rows, resent ones included |
| Rollup.MoveKeeps | internal/symbolicate/service.go:451-462 | Clean hours stay exact through a re-symbolication that does not take a grouped event's fingerprint away |
| Rollup.MoveMarks | internal/store/events.go:440-470 | A re-symbolication marks its hour with the next generation exactly when the event goes to another issue |
| Rollup.ClearKeysKeeps | internal/retention/retention.go:400-403 | Deleting a key only at the generation read never cleans an hour that was marked meanwhile |
| Rollup.RecomputeKeeps | internal/retention/retention.go:372-399 | Recomputing makes every key's hour exact at the generation read |
| Rollup.DropKeeps | internal/retention/retention.go:175-200 | Dropping raw rows before the retention window changes no hour that is still read |
| Rollup.ForgetKeeps | internal/retention/retention.go:279-306 | Deleting an issue's rolled rows with the issue, by its last_seen alone, changes no hour that is still read, whatever event rows of the issue are left |
| Rollup.MoveIsExactIff | internal/store/events.go:448-452 | On a clean hour the statistics stay exact through a re-symbolication if and only if the event keeps a fingerprint or had none: a fingerprint taken away is written without a mark |
| Rollup.OldHourIsExactIff | internal/retention/retention.go:21-23 | A clean hour older than 400 days reads exactly after the rollup expiry if and only if it has no raw rows: a longer RETENTION_DAYS reads such hours as empty |
| Rollup.TwoRollupsLoseAMark | internal/store/store.go:156-176 | Why one rollup runs at a time: two jobs that read one key can leave a clean hour without an ingested row, because a deleted key starts its generation over |
| RollupJob.StatsTables.RecomputeHours | internal/retention/retention.go:372-399 | The recompute transaction through the planner's time window equals recomputing each hour from the whole table, and skips hours before the cutoff |
| RollupJob.StatsTables.InsertEvents | internal/store/events.go:65-125 | The batch inserts the rows whose keys are new and marks each hour it touches once |
| RollupJob.StatsTables.RollupOnce | internal/retention/retention.go:356-405 | One rollup run as three statements is one pass of the protocol, and returns the number of keys read |
| RollupJob.StatsTables.RollupAll | internal/retention/retention.go:329-348 | With no writers, and the clock read anew by every pass, RollupAll terminates leaving dirty exactly the keys of hours not yet past at its last pass, and every past covered hour rolled exactly |
| RollupJob.PassOverIs | internal/retention/retention.go:356-405 | Reading, recomputing and clearing in order is the pass the tables go through |
| RollupJob.PassFacts | internal/retention/retention.go:356-405 | A pass keeps the invariant, clears only past keys, and makes progress until none is left |
| RollupJob.BatchIsNewest | internal/retention/retention.go:356-368 | A batch holds past hours only, newest first, and leaves one out only when it is full |
| RollupJob.WindowHoldsHour | internal/retention/retention.go:384-396 | The [lo, hi) window of a batch holds every row of the batch's hours |
| RollupJob.Span | internal/retention/retention.go:387-395 | lo and hi bound every bucket of the batch |
| Vlq.DecodeVlqs | internal/symbolicate/sourcemap.go:130-154 | The decoding loop, errors included, is the decoder the round trip is about; 64-bit wrap-around and shifts past 64 are written out |
| Vlq.RoundTripIff | internal/symbolicate/sourcemap.go:130-154 | Decoding the ECMA-426 Base64 VLQ encoding of a list of integers gives the list back if and only if every value is below 2^62 in magnitude |
| Vlq.ReadsIff | internal/symbolicate/sourcemap.go:130-154 | One value survives 64-bit decoding exactly when it is below 2^62 in magnitude |
| Vlq.TakesDigits | internal/symbolicate/sourcemap.go:133-149 | The digits of one number, wherever it stands, add up modulo 2^64 to its value |
| Vlq.CharsRoundTrip | internal/symbolicate/sourcemap.go:126-126 | The alphabet is injective and holds neither separator |
| SourceMaps.ParseMappings | internal/symbolicate/sourcemap.go:78-112 | The nested loops over lines and segments compute the mapping list, with the column reset per line and the other fields running across lines |
| SourceMaps.ParseLine | internal/symbolicate/sourcemap.go:81-110 | One line: empty, undecodable and value-less segments are skipped |
| SourceMaps.ParseSegment | internal/symbolicate/sourcemap.go:90-109 | One decoded segment of one, four or five values |
| SourceMaps.MappingsRoundTrip | internal/symbolicate/sourcemap.go:78-112 | Decoding the ECMA-426 text of any lines of 1-, 4- and 5-field segments gives back exactly their mappings |
| SourceMaps.ListRoundTrip | internal/symbolicate/sourcemap.go:78-112 | The same for a mapping list sorted by generated position, cut into lines |
| SourceMapLookup.SourceMapRoundTrip | internal/symbolicate/sourcemap.go:29-114 | ParseSourceMap of the encoding of a sorted mapping list is that list, sources rooted |
| SourceMapLookup.ParseSourceMap | internal/symbolicate/sourcemap.go:29-114 | The recursion over sections, the fold at their offsets and the skipping of bad ones compute the parsed map |
| SourceMapLookup.FoldIn | internal/symbolicate/sourcemap.go:57-63 | A section's mappings are folded in at its offset, the column on its first line only |
| SourceMapLookup.RootSources | internal/symbolicate/sourcemap.go:70-77 | Every non-empty source that is neither absolute nor already under the root gets it, the others stay, and rooting the result again changes nothing |
| SourceMapLookup.RootedIs | internal/symbolicate/sourcemap.go:70-77 | A root with or without its trailing slash is one directory, put before every source that is not empty, absolute or below it |
| SourceMapLookup.StableSortIff | internal/symbolicate/sourcemap.go:116-124 | A list is the stable sort by position if and only if it is ordered and keeps the order of mappings at one position |
| SourceMapLookup.ScanFindsLatest | internal/symbolicate/sourcemap.go:156-189 | The linear scan finds the mapping on the line with the greatest column not past the frame's, ties to the latest in the text, and none exactly when no mapping qualifies |
| SourceMapLookup.Resolve | internal/symbolicate/sourcemap.go:156-189 | The binary search answers with the latest mapping of the frame's line with the greatest column before the frame's 1-based one: its original line, its column plus one, its source and name where it has them; the frame stays when no mapping qualifies or it has no original position |
| SourceMapLookup.ResolutionIs | internal/symbolicate/sourcemap.go:156-189 | The linear scan answers with that mapping too, for any list, ordered or not |
| SourceMapLookup.ResolveIsScan | internal/symbolicate/sourcemap.go:116-189 | Resolving in the parsed, sorted map equals a linear scan of the unsorted list in the order of the text, with the same answer on the fields of frame and mappings |
| SourceMapLookup.SectionAnswers | internal/symbolicate/sourcemap.go:47-69 | For ordered sections that do not overlap, the folded map answers with the section holding the position whenever that section has a mapping at or before it on the line, and with the sections before it otherwise |
| SourceMapLookup.SectionResolves | internal/symbolicate/sourcemap.go:47-69 | In frames: the answer is the section's own mapping, moved by the section's offset, with the greatest column before the frame's, whenever it has one on the line |
| Issues.FoldIsOneByOne | internal/ingest/ingest.go:447-497 | Folding a group and upserting once gives the counts, times, level, release set, status and number of regression flips of upserting its events one at a time in order, whatever the issue was before |
| Issues.EnvelopeIsOneByOne | internal/ingest/ingest.go:447-508 | The whole envelope, grouped by fingerprint and upserted in any order, is every event upserted on its own, in every column but first_release and last_release |
| Issues.NewIssueIs | internal/store/issues.go:83-105 | What an issue created by a group is, without reference to upserts: its level is the latest event's, its range and release set are the group's, its counts the events and the kept ones |
| Issues.RegressionIff | internal/store/issues.go:96-99 | A resolved issue becomes a regression exactly when an event carries a release outside the set recorded when it was resolved; any other status stays |
| Issues.FlipIff | internal/store/issues.go:100-105 | A regression is reported exactly when the issue was resolved and the upsert leaves it a regression |
| Issues.LastReleaseIff | internal/ingest/ingest.go:475-495 | The fold shows the same last_release as one upsert per event if and only if its latest event is the issue's latest and names a release, or the last earlier event that was the latest in its turn and names one names the release the issue already showed (or there is none) |
| Issues.FirstReleaseIff | internal/store/issues.go:83-86 | The fold shows the same first_release if and only if the issue exists already, or the latest event names what the first one does |
| Issues.ReleasesDiffer | internal/ingest/ingest.go:475-495 | An event with a release and a later one without make both columns differ |
| Issues.FoldTimes | internal/ingest/ingest.go:466-482 | The running minimum and maximum bound every event time, the zero-time quirk included |
| IssueIngest.ProjectTables.Ingest | internal/ingest/ingest.go:318-539 | The transaction leaves the tables as if each new event had been upserted and inserted on its own, but for first_release and last_release; new issues and regressions are reported exactly; received = duplicates + sampled + stored; and it keeps the counts invariant |
| IssueIngest.Analyse | internal/ingest/ingest.go:318-345 | Each id once, times before the retention window replaced, duplicates counted |
| IssueIngest.Window | internal/ingest/ingest.go:355-366 | from and to bound exactly the envelope's own time window |
| IssueIngest.DropStored | internal/ingest/ingest.go:386-400 | The in-place filter keeps exactly the events not stored yet, in order |
| IssueIngest.GroupByFingerprint | internal/ingest/ingest.go:447-458 | The groups are the envelope's events by fingerprint, in order |
| IssueIngest.FoldGroup | internal/ingest/ingest.go:460-492 | The loop over a group computes the folded upsert |
| IssueIngest.ProjectTables.AlreadyStored | internal/store/events.go:489-503 | The windowed and the any-time lookup together find every stored copy an event of the envelope can have |
| IssueIngest.ProjectTables.UpsertGroups | internal/ingest/ingest.go:459-508 | One upsert per fingerprint, in sorted order, equals every event on its own |
| IssueRuns.KeptAreNew | internal/ingest/ingest.go:354-401 | After the dedupe no event of the envelope has a stored row, so no insert conflicts |
| IssueRuns.ResentIsDropped | internal/ingest/ingest.go:351-401 | A resent event that is stored at the time it is sent with, or whose time the server replaces again, is not counted twice |
| IssueRuns.KeptIff | internal/ingest/ingest.go:354-401 | An event is taken for new if and only if no stored row of its id lies between the times of two events of the envelope, and none exists at all when the server has set its time |
| IssueRuns.IngestedRows | internal/ingest/ingest.go:509-539 | The rows an ingest adds are one for each new event not sampled away, with its level, release, fingerprint and mark of symbolication; stored rows stay |
| IssueRuns.AnalysedAre | internal/ingest/ingest.go:318-345 | Every event analysed is the first of its id in the envelope, at its own time, or received now if that lies before the retention window |
| IssueRuns.CountsAreConserved | internal/store/issues.go:83-105 | After any serial run of ingest, re-symbolication, status changes and sweeps, an issue's stored_count is its event rows plus those retention dropped, its event_count is at least that, its events lie in its [first_seen, last_seen], and no event row is without its issue |
| IssueRuns.IngestKeeps | internal/ingest/ingest.go:318-539 | Ingest keeps the counts, with resends and sampling |
| IssueRuns.ResolvedThenSeen | internal/store/issues.go:107-133 | After a status change the next event makes the issue a regression if and only if it was resolved, the event counts, and it names a release not seen when it was; nothing else of the issue changes |
| IssueRuns.SymbolicateKeeps | internal/symbolicate/service.go:441-479 | Re-symbolication keeps the invariant: stored counts are the event rows, event counts are at least that, times are in range, no row is without its issue |
| IssueRuns.RehomingMovesOne | internal/symbolicate/service.go:455-478 | Issue by issue, a move adds one event and one stored event where it goes and takes one of each where it was, a deleted issue counting nothing, and changes no other issue's counts |
| IssueRuns.RehomedIssues | internal/symbolicate/service.go:455-478 | The issue an event moves to keeps status and resolved releases; its level and last release follow the event exactly when none of its events is later; a created one is unresolved with the event's title, level, time and release; the issue it leaves goes exactly when the event was its only one and it is unresolved, and otherwise loses one of each count; every other issue stays |
| IssueRuns.SymbolicatedRow | internal/symbolicate/service.go:441-457 | The event gets the new fingerprint, other rows stay, and without a move of issue no issue changes |
| IssueRuns.RehomingKeepsTotals | internal/symbolicate/service.go:455-478 | Over all issues a move between issues keeps the totals of event_count and stored_count; an event that had no issue adds one to each |
| IssueRuns.TakenOk | internal/store/issues.go:226-235 | The clamp at zero does not fire on the issue an event leaves, and deleting the emptied issue orphans no row |
| IssueRuns.SymbolicateKeepsIff | internal/symbolicate/service.go:441-457 | Re-symbolication keeps the counts if and only if it does not take the fingerprint of a grouped event away |
| IssueRuns.DropRowsKeeps | internal/retention/retention.go:175-200 | Dropping weeks keeps the counts with the dropped rows accounted |
| IssueRuns.ExpireKeeps | internal/retention/retention.go:275-306 | ExpireIssues deletes no issue with an event row when the stale cutoff is not past the oldest surviving week |
| IssueRuns.ExpiredIff | internal/retention/retention.go:279-306 | An issue goes exactly when it is settled and last seen before the oldest surviving week, or last seen four retentions before the sweep; the others stay as they are |
| IssueRuns.ExpireIsSafeIff | internal/retention/retention.go:271-306 | ExpireIssues never deletes an issue with a surviving event row if and only if four retentions reach back to the start of the oldest surviving week |
| IssueRuns.LongRetention | internal/retention/retention.go:271-277 | Three or more RETENTION_DAYS always reach back far enough; one or two need not |
| IssueRuns.ShortRetentionOrphans | internal/retention/retention.go:271-306 | A run from the empty tables (one event at the start of a week, one sweep) that leaves the row without its issue, for every sweep clock and retention where the condition fails |
| IssueRuns.RangeLookupsSeeAll | internal/store/events.go:478-487 | The newest and oldest lookups bounded by [first_seen, last_seen + 1 s) see every event of the issue, so they agree with a full scan |
| JobQueue.OneLiveRowPerKey | internal/store/jobs.go:38-115 | In every state of every interleaving of enqueues, claims, outcomes, releases, expiries and crashed workers there is at most one row per (kind, project, args) with attempts below 8, and attempts stay in 0..8 |
| JobQueue.NoWorkIsLost | internal/store/jobs.go:38-115 | Every row ever inserted is still there, or left by success, as an unknown kind, or dead after at least eight claims, or gave way to a duplicate of the same key that is settled so |
| JobQueue.ChainSettles | internal/store/jobs.go:81-98 | The chain of rows dropped in favour of a duplicate ends |
| JobQueue.EnqueueOneIsLive | internal/store/jobs.go:38-43 | After an enqueue a live row of that key exists, due no later than asked |
| JobQueue.EnqueuedIs | internal/store/jobs.go:38-43 | A live row of the key is pulled forward and otherwise kept; without one a new row is due when asked, and no other row changes |
| JobQueue.EnqueueStepIs | internal/store/jobs.go:45-52 | The statement of a batch fails as a whole when it names a key twice, and otherwise leaves every job of it live, due no later than asked |
| JobQueue.ReleaseKeeps | internal/store/jobs.go:81-98 | Un-counting an attempt never makes two live rows of one key: a live duplicate drops the row instead |
| JobQueue.RecordKeeps | internal/jobs/worker.go:117-166 | Recording any outcome keeps the queue's invariant, whoever holds the lease by then, and so does failing to record one and going on with the batch |
| JobQueue.NextKeeps | internal/store/jobs.go:38-115 | Every step keeps the queue's invariant |
| JobWorker.BatchIs | internal/store/jobs.go:58-69 | A claim takes due jobs only, at most max, earliest first, and leaves a due job out only when the batch is full |
| JobWorker.BackoffIsCapped | internal/jobs/worker.go:47-61 | Backoff is 5 s doubled per failed attempt and capped at 10 minutes, for every count, and never decreases |
| JobWorker.ClaimedAgainIff | internal/store/jobs.go:54-69 | A claimed job can be claimed again exactly when its lease has run out and it has had fewer than eight attempts |
| JobWorker.FailedAgainIff | internal/jobs/worker.go:157-166 | A failed job is due again exactly after its back-off, unless that was its eighth attempt |
| JobWorker.EnqueuedIsDueIff | internal/store/jobs.go:38-43 | A new job is due exactly from the time asked for on |
| JobWorker.JobsTable.Dispatch | internal/jobs/worker.go:133-166 | Dispatch is the step RecordStep of the queue's protocol in any state; a row goes only on success, as an unknown kind, or on a shutdown with a live duplicate; a failed job stays with its key and attempts, no lease, the cleaned message of at most 500 characters, due after 5 s doubled per attempt up to 10 minutes; every other row is untouched |
| JobWorker.AfterEnds | internal/jobs/worker.go:133-166 | How each outcome ends a row, on the columns of the row alone: deleted, rescheduled with its error, or handed back with its attempt uncounted |
| JobWorker.JobsTable.RunOnce | internal/jobs/worker.go:94-131 | A batch processed alone is a run of the queue's protocol: every claimed job ends as its handler did, the rest of a batch is handed back on shutdown, and no other row changes |
| JobWorker.BatchIsRun | internal/jobs/worker.go:94-131 | The table a batch leaves, claimed, recorded and released job by job, is the one the run of claim and record steps leaves |
| JobWorker.BatchReturnsLeases | internal/jobs/worker.go:94-131 | After the batch no claimed row keeps its lease, and a job handed back has neither lease nor attempt counted |
| JobWorker.JobsTable.EnqueueJob | internal/store/jobs.go:38-43 | The upsert leaves a live row of the key due no later than asked, pulling a backing-off one forward instead of adding a second |
| JobWorker.JobsTable.ExpireJobs | internal/store/jobs.go:105-115 | Exactly the jobs dead for over a week go |
| JobWorker.JobsTable.ClaimJobs | internal/store/jobs.go:54-69 | The claim returns the first due jobs, no more than asked; each is leased until the given time with one more attempt and otherwise as it was, and every other row is untouched |
| JobWorker.JobsTable.ReleaseJob | internal/store/jobs.go:87-98 | A release keeps at most one live row per key, drops the row exactly when its lease is running and a duplicate is live, and otherwise hands back lease and attempt |
| SymbolFiles.RowsHaveTheirObjects | internal/symbolicate/files.go:35-72 | Under any interleaving of uploads, deletes, expiries, chunked imports and crashes every committed row with a blob key names a present object holding its bytes, and no two rows share a key |
| SymbolFiles.DeletedIsUnreferenced | internal/symbolicate/files.go:86-109 | An object about to be deleted is named by no row, and no process can still give its key to one |
| SymbolFiles.ReadsAreExact | internal/symbolicate/files.go:74-84 | A two-step read returns the bytes of the row it read, or not found because that row has moved to another key or gone |
| SymbolFiles.SwapKeeps | internal/symbolicate/files.go:51-71 | The upload's transaction under the row's lock, and its failure, keep the invariant |
| SymbolFiles.QueueLineKeeps | internal/export/export.go:1105-1143 | An import line puts its object, takes the row's lock and notes the key it replaces, its own unsent or sent rows included |
| SymbolFiles.PlainLineKeeps | internal/export/export.go:1112-1135 | A line imported by a process without a blob store writes the bytes into the row, notes the key it replaces all the same, and keeps every other row's object |
| SymbolFiles.ImportStoresLine | internal/export/export.go:1105-1143 | A line imported and committed leaves its row naming a new object with exactly the line's bytes |
| SymbolFiles.PlainImportStoresLine | internal/export/export.go:1112-1135 | Without a blob store the bytes are in the row itself |
| SymbolFiles.PlainUploadStoresFile | internal/symbolicate/files.go:42-46 | An upload without a blob store leaves its bytes in the row and no other row or object changed |
| SymbolFiles.CommitChunkKeeps | internal/export/export.go:749-765 | After a committed chunk the replaced objects are no row's, deleted or (without a blob store) left behind; after a failed one its own are not |
| SymbolFiles.DeleteFilesKeeps | internal/store/symbols.go:151-174 | Deleting or expiring rows without the lock dooms only their own objects |
| SymbolFiles.PlainUploadKeeps | internal/symbolicate/files.go:42-46 | An upload by a process without a blob store keeps every other row's object |
| SymbolFiles.RunKeeps | internal/symbolicate/files.go:35-131 | The ownership invariant survives any sequence of steps |
| SymbolLeaks.EveryObjectIsPlaced | internal/symbolicate/files.go:86-90 | Every present object is some row's, in the hands of a process that will give it to a row or delete it, or among the leaks |
| SymbolLeaks.LeaksHaveACause | internal/symbolicate/files.go:35-72 | An object is leaked only by an unacknowledged put, an upload or an import by a process without a blob store over an object's row, a failed delete, a crash, or an import that queues one file twice in one batch |
| SymbolLeaks.DuplicateLineLeaks | internal/export/export.go:1105-1143 | In any world, when one file is on two lines of a chunk, the committed chunk deletes the first line's object if and only if the batch was sent in between; otherwise no row names it and nobody will ever touch it |
| SymbolLeaks.AbandonedForGood | internal/symbolicate/files.go:86-90 | An object no row names and no process holds, dooms or replaces stays through any later run |
| SymbolLeaks.AbandonedIsLeaked | internal/symbolicate/files.go:86-90 | In any run such an object is among the leaks, whose causes are listed |
| SymbolLeaks.DuplicateImportLeaks | internal/export/export.go:1105-1143 | From the empty tables: an import of a dump that names one file twice leaves the first line's object behind for good |
| SymbolService.Service.PutSymbolFile | internal/symbolicate/files.go:42-72 | Object, transaction and cleanup in order, for every outcome of each: the run of the protocol they are, the new row and its object on success, the rows unchanged otherwise |
| SymbolService.Service.DeleteSymbolFile | internal/symbolicate/files.go:119-131 | The row goes, then its object; found exactly when there was a row |
| Envelopes.Parse | internal/sentry/envelope.go:462-559 | Terminates on arbitrary bytes, handles the framed items in order, and never holds more than 501 events, 5000 sessions or 8 attachments of at most 8 MB |
| Envelopes.NextItem | internal/sentry/envelope.go:483-504 | One item: an explicit length that fits wins over the line, an unreadable line is skipped alone |
| Envelopes.FramesRoundTrip | internal/sentry/envelope.go:483-504 | Framing undoes printing for sized bodies, newlines included, and for unsized ones of one line: every item body comes back byte for byte and in order |
| Envelopes.CutTooLong | internal/sentry/envelope.go:488-504 | A length that announces more than there is falls back to the line |
| Envelopes.CutUnended | internal/sentry/envelope.go:488-504 | A body of the announced length needs no newline after it, and the last line of an envelope none at its end |
| Envelopes.UnreadableIsSkipped | internal/sentry/envelope.go:483-487 | A blank line or an unreadable header costs its own line and nothing else |
| Envelopes.Print | internal/seed/seed.go:493-514 | The printer writes header, items and attachments as length-prefixed frames |
| Envelopes.ParseUndoesPrint | internal/sentry/envelope.go:462-559 | Parse of an envelope framed by the generator handles exactly the printed items, given that header decoding undoes encoding and prints no newline |
| Envelopes.EveryEventIsCountedOnce | internal/sentry/envelope.go:505-515 | For any items, each event item is counted exactly once as parsed, invalid or dropped; the rest of the drops are the other items' own |
| Envelopes.ItemsAreAccounted | internal/sentry/envelope.go:505-558 | What any item brings is kept or counted as dropped or invalid; an item past its limit counts as one |
| Envelopes.EventsAreTheFirst | internal/sentry/envelope.go:505-515 | The parsed events are the readable ones in order, up to one past the limit |
| Envelopes.SessionsAreTheFirst | internal/sentry/envelope.go:516-526 | The sessions are the items' sessions in order, up to the limit |
| Envelopes.AttachmentsAreTheFirst | internal/sentry/envelope.go:527-537 | The attachments are the first eight of those within the size limit, bodies untouched, names and types cleaned |
| Envelopes.AttachmentNameIsPlain | internal/sentry/envelope.go:581-593 | Whatever file name the SDK sends, the stored one is a non-empty base name of at most 255 characters that is neither "." nor ".." |
| Envelopes.AttachmentNameIs | internal/sentry/envelope.go:581-593 | A name that fits is kept, without the directory it may come with; "", "." and ".." become "attachment" |
| Envelopes.AttachmentTypesAre | internal/sentry/envelope.go:596-606 | The stored types are those sent, trimmed, lower-cased and cut to 128 characters, or the defaults; the bytes are untouched |
| Grouping.RelocationKeepsSignature | internal/sentry/analyze.go:16-50 | Moving each debug image by its own offset together with the frame addresses inside it (sized images, disjoint before and after, no 64-bit wrap, uncovered addresses staying uncovered) leaves the fingerprinted text unchanged |
| Grouping.NoiseKeepsSignature | internal/sentry/analyze.go:78-133 | Inserting SDK, runtime or placeholder frames anywhere leaves it unchanged |
| Grouping.EmptinessIgnoresFrames | internal/sentry/analyze.go:16-53 | Whether an event has a fingerprint at all depends on the event, not on its frames: symbolicating the frames moves it to another issue, never to none |
| Grouping.SignatureIs | internal/sentry/analyze.go:78-133 | For any stack the parts are, in order, those of the last five code frames (in-app ones when there is any): an earlier one is left out only for five that follow it; line numbers are kept exactly when there is at most one code frame or no picked one has a function name of its own |
| Grouping.NamedPart | internal/sentry/analyze.go:105-131 | A frame with a function is named by its file without directory and query, and the function; neither address nor package is in it |
| Grouping.UnnamedPart | internal/sentry/analyze.go:105-131 | A frame without a function is named as if its function were its image-relative address, else its package, else a question mark |
| Grouping.TypesSeparate | internal/sentry/analyze.go:44-68 | Two errors without an SDK fingerprint have one signature if and only if platform, chain of exception types and stack agree (none of the former with a colon in it) |
| Grouping.ChainsSeparate | internal/sentry/analyze.go:54-68 | Chains of more than one exception agree if and only if their types do, in order; a single one counts by the error type |
| Grouping.SdkFingerprintDecides | internal/sentry/analyze.go:16-41 | SDK fingerprints without the default token group events if and only if they are equal, whatever types, messages and stacks |
| Grouping.DefaultTokenSplits | internal/sentry/analyze.go:16-41 | Under one SDK fingerprint with the default token events fall together if and only if their usual signatures agree |
| Grouping.CodeFrameIff | internal/sentry/analyze.go:318-384 | By the repository's noise table a frame is code exactly when it has a name, is none of the runtime's own, and no row of the table matches it |
| Grouping.PrefixMatchesIff | internal/sentry/analyze.go:355-384 | A prefix row looks at the start of the file, the absolute path and the module, or of the one field it names |
| Grouping.InfixMatchesIff | internal/sentry/analyze.go:355-384 | Another row looks anywhere in its field |
| Regrouping.AnalysedStatsAreExact | internal/symbolicate/service.go:439-462 | Where every fingerprint is computed from the stored payload, on frames as sent or symbolicated, the statistics are exact in every run, with no hypothesis on the moves |
| Regrouping.AnalysedCountsAreConserved | internal/symbolicate/service.go:439-478 | In such runs with three or more RETENTION_DAYS the counts are conserved and no row loses its issue, with no step excluded |
| Regrouping.ImportedRowIsExactIff | internal/export/export.go:969-989 | Symbolicating a row with the dump's fingerprint on a clean hour keeps the statistics exact if and only if its payload has something to group by |
| Regrouping.RangedIsSeen | internal/store/issues.go:89-101 | The conserved range of an issue is what the expiry of its statistics asks for: no event of it is later than its last_seen |
| Regrouping.ExpiredIsForgotten | internal/retention/retention.go:279-306 | Every issue ExpireIssues deletes loses its rolled rows in its project, by one of the two cutoffs |
| Grouping.TheRange | internal/sentry/analyze.go:191-202 | A covered address is named by the one image that covers it |
| Grouping.UnsizedRange | internal/sentry/analyze.go:164-186 | An image without a size names every address from its base on |
| Grouping.RelativeMoved | internal/sentry/analyze.go:160-202 | An address keeps its image-relative name when its image moves |
| Grouping.OffsetsSeparate | internal/sentry/analyze.go:189-202 | Two names in one image agree only for the same offset |
| Grouping.ClassifyFrame | internal/sentry/analyze.go:355-384 | The loops over the noise table return the kind of the first matching row |
| Grouping.SignFrames | internal/sentry/analyze.go:78-133 | The two loops compute the signature of the last five code frames, in-app ones when there are any |
| Grouping.RelativeTo | internal/sentry/analyze.go:189-202 | The search of the image table names an address by the first image that contains it |
| Calendar.WeekStartIsMonday | internal/retention/retention.go:54-58 | weekStart is the last Monday midnight at or before the time |
| Retention.OneWeekPerInstant | internal/retention/retention.go:60-85 | Every instant from the retention window's start to two weeks ahead lies in exactly one Monday-aligned week among those ensured |
| Retention.EnsuredIsNotExpired | internal/retention/retention.go:60-66 | A sweep never drops a week it has just ensured |
| Retention.SqlRuleIsPartitionRule | internal/store/spool.go:154-181 | The day-granular SQL rule for packs and spool rows expires a week exactly when the partition rule does, and exactly when its rows are before the window's first week |
| Retention.PartitionedTable.EnsurePartition | internal/retention/retention.go:87-139 | A missing week is created with its strays moved out of the default partition |
| Retention.PartitionedTable.EnsurePartitions | internal/retention/retention.go:67-85 | Exactly the weeks of the window are added, no row is lost or made up, and no row is in the default partition while a week covers it |
| Retention.PartitionedTable.DropExpiredPartitions | internal/retention/retention.go:175-196 | Exactly the expired weeks are dropped, and of the rows exactly those of unexpired weeks and the default partition's recent ones survive |
| Retention.PartitionedTable.Sweep | internal/retention/retention.go:214-222 | Ensuring then dropping leaves exactly the rows from the start of the window's first week on, strays included, and all ensured weeks |
| Retention.PartitionedTable.Partitions | internal/retention/retention.go:147-173 | The weeks, each once, oldest first |
| Monitors.AlertingIff | internal/monitors/state.go:16-36 | After any outcome history a monitor is alerting exactly when some run of failure-threshold failures ended later than every run of recovery-threshold successes; int32 wrap-around of the counters does not matter |
| Monitors.SignalsAlternate | internal/monitors/state.go:8-36 | Failed and Recovered strictly alternate starting with Failed, and the last one says whether the monitor is alerting |
| Monitors.CountersAreRuns | internal/monitors/state.go:21-28 | The counters are the lengths of the last runs, in 32 bits with wrap-around |
| Monitors.ThresholdBelowOneAlerts | internal/monitors/state.go:29-34 | With a failure threshold below one a monitor that only ever succeeded alerts |
| Monitors.Threshold | internal/sentry/envelope.go:426-443 | The thresholds the config parser lets through are at least one |
| Paging.PagesVisitEveryRow | internal/store/events.go:204-207 | Following next-page cursors to the end visits every row that is there throughout exactly once, strictly newest first, whatever is inserted or removed between the pages |
| Paging.PageIsOk | internal/store/events.go:283-310 | A page has at most the limit, comes before everything it leaves out, and says there is more exactly when it leaves something out |
| Paging.PageIsFull | internal/store/events.go:283-310 | A page holds the limit asked for, 50 without one and never more than 500, or all rows there are |
| Paging.ListEvents | internal/store/events.go:283-310 | The limit rules and the extra row compute that page |
| Paging.FollowIsOk | internal/api/events.go:92-103 | The rows visited are in order, after the cursor, and were there; a finished walk has missed none |
| Paging.WalkEnds | internal/store/events.go:283-310 | On a table that stands still the walk ends |
| Paging.CursorExcludesItsRowIff | internal/store/cursor.go:10-19 | The page after a row's cursor leaves the row out exactly when its time is not the zero time; a zero-time cursor starts over |

## Left out

- Handlers, authentication, rate limits, streaming, pages, the command line: input, output and presentation.
- Postgres below the statement: row locks, READ COMMITTED visibility inside a transaction, statement failures other than those named.
- Strict lease exclusivity of jobs: RetryJob and ReleaseJob do not check who holds the lease, so it is not claimed.
- The releases, attachments, user reports, client reports and check-ins an ingest transaction also writes, its alert and symbolication jobs, and the session statistics (the same rollup over another table).
- Sampling decisions, generated ids and clocks are parameters.
- Gzip: payloads are opaque bytes; an empty payload does not occur.
- What the regular expression of normalizeMessage, isDefaultToken and the digest compute.
- Surrogates and code points in text: a string is a sequence of characters, and none of the bytes beyond ASCII is a separator or in the VLQ alphabet.
- The source map set of a release and ResolveAll: which map is asked, not what it answers.
- ProGuard and native symbolication: what frames come back is a parameter of the steps that use them.
- The sidecar cache, alert cooldowns and platform mismatch warnings: they change no table the theorems speak about.
- PII redaction: the stored payload is taken to say what the analysed event said (Regrouping relies on it).
- The importer's other tables, its batch size (a batch is sent at any time here) and its own update of pending and replaced in place: a chunk is a process of the state machine.
- SetSymbolFileRelease in the middle of an upload, two re-symbolications of one event at once, project deletion.
- The filters of the event list other than the cursor: they select the rows a page is taken from.
- PackLoop.Store.Pack: no other writer runs meanwhile; ingests, other packers and sweeps in between are covered by the protocol's runs. The same holds for ExpirePacks; without a blob store every object is one that could not be deleted.
- RollupJob.StatsTables.RollupAll: no writer and no failing statement; writers in between are covered by the runs of Rollup.
