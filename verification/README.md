# homeconnect, verified

A Dafny model of homeconnect's background pipelines: pulling drives from a comma device over SSH, registering and
aggregating them, pruning old ones, building movies and subtitles, deriving events and statistics from the logs,
syncing device parameters, and tracking which devices are online. Tables are maps, the blob store is a map or set of
keys, the device is a set of files, and every awaited database, file or SSH operation is one atomic step whose outcome
is arbitrary. `dafny verify dfyconfig.toml` checks everything.

## How it is built

Code that changes state is modelled as classes and loops (`SyncQueue`, `Library`, `Server`, `Builder`, `Transcriber`,
`Accum`, `ParamSync`), each method proved equal to a function on the abstract state; the promises are then proved about
those functions, or about runs of a step system built from them (`DevSync`, `Recomputes`, `MovieRaces`,
`ParamTasks`, `Athena`). Pure string code
(`Names`, `FileTypes`, `WebVtt`) is modelled as functions.

| file | what it holds |
|---|---|
| `Wrappers`, `Text`, `Decimal`, `Folds`, `Storage` | the string, number and collection operations the server uses |
| `Names`, `FileTypes` | blob keys, route and segment names, device paths, upload paths; the file-type classifiers |
| `SyncQueue`, `DevSync`, `Convergence`, `Overrides` | the pull queue, the concurrent sync, its progress, the per-drive type pins |
| `Registration` | the registrations of the sync system as columns of the segment table |
| `Segments`, `Ingest`, `Confluence`, `Recomputes`, `Links` | segment and route rows, registration, deletion, their order-independence, recomputes that overlap, and what the stored URLs serve |
| `Telemetry`, `DriveStats`, `Events` | per-segment statistics, shown figures, the event timeline |
| `Retention`, `CapLoop` | the pruning pass and `delete_route`; when the cap loop ends |
| `Movies`, `MovieRaces`, `Subtitles`, `WebVtt` | the artifact builders, their races with the user, the transcripts |
| `DeviceParams`, `ParamTasks`, `ParamSettling`, `Athena` | the parameter cache, several reconciles at once and when they settle a row for good, the liveness of device sockets |

## What turned out to hold only under a condition

Most of these are equivalences, with a proved counterexample beside them.

- Auto-prune never deletes a device file whose key is not held, but it loses content exactly when a prunable file shares
  its key with a different file (`ContentKeptIffKeySafe`, `LosingRun`). Such a pair exists (`CollidingPair`); names that
  can be read back from their keys exclude it (`WellNamedIsKeySafe`).
- A registration settles its file exactly if the name does not hold the qlog token together with a camera token
  (`RegisterSettles`, `ColumnsAgree`): the classifiers test the tokens in different orders, so such a file is registered
  in one column and looked for in another.
- The pin that a user's deletion sets holds exactly if the route row exists (`DeletionSticksIff`); retention deletes
  that row, so a pruned drive that is still on the device can be pulled again.
- Several recomputes of one route end with the right row exactly if the last snapshot written is up to date
  (`LastWriterDecides`), always from exactly the states in which nobody holds an overtaken snapshot and somebody will
  write or the row is right (`RecomputesSettleIff`), and always if they do not overlap (`SerialRecomputesAgree`);
  otherwise they can go wrong (`OverlapGoesStale`).
- A disabled movie stays disabled, but a later to-do list can still hold it, exactly if a sweep had read the rows before
  the veto and not yet made its list (`NeverListedIff`); and its file can come back, exactly if a sweep had it in flight
  (`BlobStaysGoneIff`). The end of that sweep or a restart ends both (`SweepEndsFlight`).
- Every URL in the segment table serves a stored blob as long as names can be read back from their keys
  (`NoLinkDangles`); deleting a file whose key is shared breaks a link of another route (`LinkCanDangle`).
- Two segments share a row name exactly if one is negative and the other's route name has a dash more
  (`RowNameSharedIff`).
- A flush keeps the user's last word on a key exactly if the last value he chose since the flush read it is the last
  one any task has written (`FlushKeepsIff`); a word is safe for good from exactly the states in which no flush holds
  an older value of it (`KeptForGoodIff`, `LostEditRun`). A refresh leaves a row settled exactly if an edit is pending or
  no task has meanwhile written another value (`RefreshSettlesIff`, `StaleRefreshRun`). A row
  is settled for good exactly if the cache, the device and all tasks under way agree on its value
  (`SettledForGoodIff`).
- An event's `lat` and `long` flags are right for a message exactly if they stand as they did when its run opened
  (`PartsShownIff`, `PartsGoStale`).
- The storage cap loop ends exactly if no route with a malformed name is left over the cap when everything older is gone
  (`CapLoopEndsIff`); `ensure_route` makes no such names, and the retention pass is proved for tables without them.
- `online` means heard from within 40 seconds on the clock of whole seconds the server uses; in real time it can be
  40.999 seconds (`OnlineWasHeard`, `BoundIsMet`).
- The connection map is right after a teardown exactly if the device had no other socket (`TeardownAgreesIff`).
- The comment at `src/retention.rs:7-8` says that a route's transcode cache is removed; the extracted audio of each
  segment is not (`AudioCacheStays`).

## Model

| member | source | states |
|---|---|---|
| Decimal.ParseShow | src/devsync.rs:481-491 | the segment number parser reads back exactly the printed 64-bit integers and rejects all others |
| Text.RSplitDashes | src/devsync.rs:481-491 | splitting at the last `--` gives back both sides if and only if the right side holds no `--` and does not start with a dash |
| Text.SplitJoin | src/devsync.rs:142-156 | splitting a comma-joined list of separator-free parts gives the parts back, for any non-empty list |
| Text.JoinSplit | src/subs.rs:333-352 | joining the pieces of any text restores it |
| Names.KeyInjective | src/storage.rs:78-80 | route-level and segment-level keys with equal text have equal dongle, time, middle and file |
| Names.BlobKeyInjective | src/storage.rs:78-80 | two well-named segment files share a blob key only if they are the same file |
| Names.RouteNameSplits | src/storage.rs:83-88 | a route name is split back into dongle and time |
| Names.RowNameInjective | src/parse.rs:756-757 | the primary key of the segment table identifies route and segment number |
| Names.RowNameSharedIff | src/parse.rs:756-757 | two segments share a primary key if and only if they are the same, or one is negative and the other has its absolute number on the route whose name has a dash more |
| Names.ParsedIsAddressable | src/devsync.rs:481-491 | whatever path the lister accepts names a file with a non-empty slash-free time, a non-negative 64-bit segment and a non-empty file name |
| Names.RemotePathRoundTrip | src/devsync.rs:400 | the lister inverts the path that the puller prints if and only if the file is addressable |
| Names.UploadPathSplits | src/api/v1.rs:22-38 | the upload URL has the right time, segment and file if and only if the file name is a dash tail |
| Names.UploadLandsAtPath | src/ingest.rs:95-103 | a file sent through the upload URL lands at key dongle, underscore, upload path |
| Names.UrlServesIff | src/serve.rs:91-126 | a registered URL serves a blob if and only if its parts are non-empty and slash-free and the segment fits 64 bits, and then it is the file's own blob |
| FileTypes.ColumnsAgree | src/devsync.rs:458-475 | the column written at registration and the column read by the scan agree if and only if the name does not hold the qlog token together with a camera token |
| FileTypes.WantedHasColumn | src/devsync.rs:561-566 | every wanted file has a column to be registered in, a non-qlog under its optional type |
| FileTypes.QlogHasKind | src/parse.rs:710-726 | a file treated as a qlog always has a kind |
| FileTypes.CamFileKind | src/api/manage.rs:21-31 | each camera's stored file name is classified as that camera |
| SyncQueue.Accepted | src/sync_queue.rs:42-61 | a batch adds exactly the keys neither waiting nor in flight, and keeps the queue consistent |
| SyncQueue.SyncQueue.Enqueue | src/sync_queue.rs:42-61 | the loop appends the accepted items in order and returns how many |
| SyncQueue.SyncQueue.Next | src/sync_queue.rs:63-76 | the front item moves to the in-flight map; an empty queue is left alone |
| SyncQueue.SyncQueue.Done | src/sync_queue.rs:78-81 | the key leaves the in-flight map and nothing else changes |
| SyncQueue.SyncQueue.Stats | src/sync_queue.rs:83-95 | the counts are those of distinct drives and of items, waiting or in flight |
| SyncQueue.PlayAccounted | src/sync_queue.rs:42-81 | one arrival, start or leave keeps first-in first-out order and the sum accepted = waiting + in flight + done |
| SyncQueue.QueueRuns | src/sync_queue.rs:42-81 | on every run items start in the order they were accepted, keys waiting and in flight are distinct, and every accepted item is accounted for |
| DevSync.ScanItems | src/devsync.rs:309-371 | a scan enqueues exactly the listed files that are wanted and not registered |
| DevSync.StepKeepsQueue | src/devsync.rs:204-222 | every step keeps the in-flight keys equal to the keys the workers hold, one worker each |
| DevSync.StepKeepsItems | src/devsync.rs:345-371 | every item waiting or in flight carries the key of an addressable file of a known type |
| DevSync.StepKeepsBlobs | src/devsync.rs:376-425 | every stored blob is the content of a device file of that key |
| DevSync.StepKeepsFiles | src/devsync.rs:543-552 | every file ever listed is on its device or held under its own key |
| DevSync.RunsKeepInv | src/devsync.rs:204-222 | all four invariants hold after every interleaving of scans, workers, uploads, setting changes and new files |
| DevSync.AtMostFourActive | src/devsync.rs:40 | on every run at most four items are in flight and no key is held by two workers |
| DevSync.NoFileLost | src/devsync.rs:543-552 | on every run each file ever on a device is still there or its key is in the store |
| DevSync.ContentKeptIffKeySafe | src/devsync.rs:376-425 | no run loses content if and only if no prunable file shares its key with a different file |
| DevSync.WellNamedIsKeySafe | src/storage.rs:78-80 | files whose names can be read back from their keys never share one |
| DevSync.LosingRun | src/devsync.rs:376-398 | for any two files with one key and different contents there is a run that deletes the only copy |
| DevSync.CollidingPair | src/storage.rs:78-80 | two names that the lister accepts and the puller pulls, `x--0/1--qlog.zst` and `x--0--1/qlog.zst`, share their key on every device |
| DevSync.CollidingPairIsLost | src/devsync.rs:376-425 | with that pair on a device and different contents some run loses one of them |
| Registration.RegistrationsAgree | src/ingest.rs:74-92 | the columns that the sync system registers are those that the ingest fills in the segment table, row for row |
| Convergence.NothingRaises | src/devsync.rs:309-371 | no step but a new file on the device or a changed type setting adds outstanding work for it or changes what a file needs |
| Convergence.RegisterSettles | src/devsync.rs:458-475 | registering an outstanding file removes it from the outstanding work, strictly shrinking it, if and only if its name does not mix the qlog token with a camera token |
| Convergence.RestingIsInOrder | src/devsync.rs:204-222 | a server that has just started, or whose queue has drained, is in order for every device |
| Convergence.SmoothKeepsOrder | src/devsync.rs:204-222 | any step without a failed pull, store or registration for the device, failures and uploads of other devices included, keeps the system in order for it: what a worker fetches for it is missing, what it is done with is registered |
| Convergence.SyncConverges | src/devsync.rs:309-371 | a scan begun in any such state, its reads and enqueue interleaved with other scans, workers, pruning toggles, failed removals, and failures and uploads of other devices, leaves nothing outstanding on its device once it has enqueued and the queue has drained |
| Convergence.NextScanFindsNothing | src/devsync.rs:309-371 | with nothing outstanding, any later scan enqueues nothing, whenever its reads happen and whatever fails, unless new files or settings make work |
| Convergence.WorkersTerminate | src/devsync.rs:204-222 | whatever succeeds or fails, the workers take boundedly many steps between two scans |
| Overrides.CleanTypes | src/devsync.rs:131-139 | the kept types are exactly the known ones among the given ones |
| Overrides.CleanTypesInOrder | src/devsync.rs:131-139 | they stand in the fixed order, none twice |
| Overrides.OverrideRoundTrip | src/devsync.rs:142-180 | a stored choice reads back as the cleaned choice, the empty choice staying different from no choice |
| Overrides.LoadedOverride | src/devsync.rs:183-200 | the scan's override table has exactly the drives that have a route row, with the choice stored there |
| Overrides.PinnedTypes | src/api/manage.rs:212-221 | after a deletion any later scan that resolves types, of all routes or of one, selects exactly the types effective before and not deleted, whatever the default becomes |
| Overrides.DeletionSticks | src/api/manage.rs:212-221 | while the override is untouched no later type-resolving scan, of all routes or of one, needs a file of a deleted type, qlogs apart |
| Overrides.DeletionSticksIff | src/devsync.rs:167-180 | for an unregistered file of a deleted type the pin holds under every default and every type-resolving scan if and only if the route row exists |
| Overrides.RunsKeepOverride | src/devsync.rs:345-355 | ingests, other drives' deletions and other overrides never change a drive's own override |
| Overrides.DeletionSticksOnRuns | src/api/manage.rs:182-222 | a deletion sticks through every such run |
| Storage.TotalRemove | src/retention.rs:46-72 | the stored total does not depend on the order in which files are counted |
| Segments.AggregatedFrame | src/parse.rs:889-1021 | the route aggregate depends on the route's own segment rows only |
| Ingest.CamUrlsExact | src/parse.rs:790-816 | exactly the stored cameras get a URL column, that of their own file |
| Ingest.TypeSpec | src/api/manage.rs:21-31 | a token stands for the file type of that name, and is unknown if there is none |
| Ingest.TypeFilesHaveKind | src/api/manage.rs:21-31 | the files deleted for a type are of that type's kind, so it is their column that is cleared |
| Ingest.ParseStats | src/parse.rs:430-470 | the accumulator loop and the telemetry loop give a segment row the statistics of its log |
| Ingest.Library.Store | src/ingest.rs:23-47 | an upload is stored if and only if its key is free, and never overwrites |
| Ingest.Library.SetSegmentFile | src/parse.rs:820-858 | creates missing rows and fills the one column of the file's kind |
| Ingest.Library.RegisterStoredCams | src/parse.rs:790-816 | registers the cameras whose blobs arrived before the qlog |
| Ingest.Library.UpsertSegment | src/parse.rs:747-816 | writes the segment's statistics, keeps other columns, and registers the stored cameras |
| Ingest.Library.RecomputeRoute | src/parse.rs:889-1021 | sets the route row to the aggregate of its segment rows, and changes nothing if there are none |
| Ingest.Library.RegisterSegmentFile | src/ingest.rs:74-92 | a qlog is parsed and upserted or refused unchanged, any other file gets its column; then the route is recomputed |
| Ingest.Library.IngestSegmentFile | src/ingest.rs:49-72 | a file already stored is refused; otherwise it is stored, then registered, staying stored if its log is bad |
| Ingest.Library.DeleteFiles | src/api/manage.rs:186-195 | exactly the named files of the segment go, with count and bytes of those that were there |
| Ingest.Library.DeleteTypes | src/api/manage.rs:184-204 | blobs and URL columns of these types go from one segment, with exact count and bytes |
| Ingest.Library.Delete | src/api/manage.rs:182-206 | the same for all segments of the drive, then the route is recomputed; removed and freed equal what left the store |
| Confluence.IngestKeepsRoutes | src/ingest.rs:49-92 | after every ingest each route row equals the aggregate of its segment rows |
| Confluence.DeleteKeepsRoutes | src/api/manage.rs:182-206 | after every deletion each route row equals the aggregate of its segment rows |
| Recomputes.LastWriterDecides | src/parse.rs:889-1021 | on every run of several tasks a route row is the aggregate of its segment rows if and only if the last snapshot written is |
| Recomputes.RecomputesSettleIff | src/parse.rs:921-1018 | from any state, every way in which the tasks can finish without further row changes ends with the right row if and only if nobody holds an overtaken snapshot and somebody will write or the row is right |
| Recomputes.SerialRecomputesAgree | src/parse.rs:889-1021 | whatever rows change meanwhile, if recomputes of a route do not overlap its row is right once all are done |
| Recomputes.OverlapGoesStale | src/parse.rs:921-1018 | from any state at rest, two tasks whose changes give different aggregates have a run that ends with the row wrong |
| Recomputes.NewRowShows | src/parse.rs:921-1018 | a new segment row always changes the aggregate |
| Recomputes.AloneIsSerial | src/ingest.rs:74-92 | a task that is not interrupted does what the serial ingest does |
| Links.IngestKeepsLive | src/parse.rs:820-858 | an ingest leaves every URL column linked to a stored file of its row and type |
| Links.DeleteKeepsLive | src/api/manage.rs:184-206 | so does a deletion: a column that survives it links to a file that survives it |
| Links.NoLinkDangles | src/serve.rs:111-126 | after any sequence of ingests and deletions, in any order, every URL in the segment table serves a stored blob |
| Links.LinkCanDangle | src/storage.rs:78-80 | with a file name that cannot be read back from its key, deleting a camera of one route leaves a link of another that serves nothing |
| Confluence.IngestsCommute | src/ingest.rs:49-92 | ingesting two files that are not of one type and segment, in either order, gives the same blobs, segment rows and route rows, from any state |
| Confluence.IngestIsConfluent | src/ingest.rs:49-92 | ingesting the same files, at most one per type and segment, in any order ends in the same state |
| Telemetry.RunsSnoc | src/parse.rs:98-117 | one more acceleration flag opens a new maximal run exactly when it rises |
| Telemetry.EdgesSnoc | src/parse.rs:91-97 | one more sample adds a falling edge exactly when engagement drops |
| Telemetry.TelemetryStats | src/parse.rs:85-120 | the counters are the numbers of maximal over-threshold runs and of falling edges; the sums are over the usable intervals; the maximum is attained |
| Telemetry.Marks | web/src/lib/DriveGraph.svelte:39-56 | the user interface finds the same numbers of brake and acceleration events, each at a sample |
| DriveStats.PrefixSane | src/parse.rs:85-120 | engaged distance and time are at most the total, and distance at most top speed times time |
| DriveStats.ParsedIsSane | src/parse.rs:85-120 | the statistics of every log whose car reports no negative speed are sane |
| DriveStats.AggregateSane | src/parse.rs:961-965 | sums and maxima of sane segment rows are sane |
| DriveStats.IngestKeepsSane | src/ingest.rs:49-92 | ingesting any such log, parsed or not, keeps all rows sane |
| DriveStats.DeleteKeepsSane | src/api/manage.rs:182-206 | deletions keep all rows sane |
| DriveStats.ShownBounds | src/api/v1.rs:471-477 | sane amounts show an autonomy in 0 to 100 and an average speed between 0 and the maximum |
| DriveStats.RouteShowsSane | src/api/v1.rs:471-477 | every route of a consistent and sane database shows such figures |
| DriveStats.RoutesAreSane | src/api/v1.rs:290-299 | every route row of such a database is sane for the totals |
| DriveStats.ServerStaysSane | src/ingest.rs:49-92 | from an empty server, every sequence of ingests and deletions keeps all rows consistent and sane |
| DriveStats.Accumulate | src/api/v1.rs:304-320 | the loop adds up exactly the rows that no ignore rule drops, and sane rows add up to sane totals |
| DriveStats.MyStats | src/api/v1.rs:283-331 | the totals of any rows under any ignore filter, and their figures, bounded if the rows are sane |
| DriveStats.AllTime | src/api/v1.rs:283-331 | over any selection of routes of a consistent and sane database autonomy is in 0 to 100 and the average at most the maximum |
| Events.Accum.EmitStateChange | src/parse.rs:511-537 | appends an event and closes the last one only when the combined state has changed |
| Events.Accum.Accumulate | src/parse.rs:606-671 | the engagement, alert, event and telemetry fields after one message |
| Events.ParseLog | src/parse.rs:430-470 | folds the accumulator over the log |
| Events.EventsAreRunLength | src/parse.rs:511-537 | for every log the events are the exact run-length encoding of the combined engaged and alert state: adjacent ones differ, each ends where the next starts, only the last is open |
| Events.TimelineDecodes | src/parse.rs:511-537 | the event in force at the time of an engagement message shows the state after it |
| Events.PartsShownIff | src/parse.rs:511-537 | for every log and message, the event's lateral and longitudinal flags are those of the message that opened its run; they are right for the message if and only if these stand as they did then, which is always so while disengaged |
| Events.RunShownIff | src/parse.rs:511-537 | an event shows the flags of all messages of its run so far if and only if they have not changed during it |
| Events.PartsGoStale | src/parse.rs:511-537 | a log on which they do change |
| Events.TelemetryFaithful | src/parse.rs:641-671 | telemetry samples are at least a quarter second apart and show a state the log has reached |
| Retention.UnlinkedKeysAreOfRoute | src/retention.rs:160-198 | every file that `delete_route` unlinks is a key of that route |
| Retention.OtherRoutesUntouched | src/retention.rs:160-213 | blobs, caches and rows of every other route stay as they are |
| Retention.RouteIsGone | src/retention.rs:160-213 | all listed artifacts, movies, the transcript and the rows of the route go, but for files that cannot be unlinked |
| Retention.AudioCacheStays | src/transcode.rs:390-393 | the extracted audio of a segment is never removed with its route |
| Retention.SurplusRoutes | src/retention.rs:91-111 | a device's surplus is all but its newest drives by start and creation |
| Retention.Server.DeleteRoute | src/retention.rs:160-213 | the artifact-by-artifact loop has exactly the effect of the specification |
| Retention.Server.DeleteRoutes | src/retention.rs:114-119 | deletes the chosen routes, in any order with the same effect |
| Retention.Server.ChooseRoutes | src/retention.rs:78-112 | the choice is the aged routes and each device's surplus |
| Retention.Server.ReclaimOrphans | src/retention.rs:121-133 | movie rows without a route go, with their files |
| Retention.Server.ShrinkTo | src/retention.rs:135-155 | the cap loop ends under the cap or with no routes, deleting a trace of oldest routes, each while over the cap; the count equals the rows removed |
| Retention.Server.RunOnce | src/retention.rs:74-157 | one pass is choice, deletion, reclaim and shrink, and returns the number of routes removed |
| Retention.PrunedInOrder | src/retention.rs:139-144 | the size phase deletes in the order of start and creation |
| Retention.PassEndsWithinLimits | src/retention.rs:74-157 | after a pass no route is past the age limit, each known device has at most its limit with the newest kept, storage is under the cap or no routes remain, no orphans remain, and every deletion was justified |
| CapLoop.CapLoopEndsIff | src/retention.rs:135-155 | whatever routes the table holds, the cap loop always ends, within one turn for each route, if and only if no route with a malformed name is left over the cap when everything older has been deleted |
| CapLoop.NotHeldUpEnds | src/retention.rs:135-155 | then no order of choices among equally old routes takes more turns than there are routes |
| CapLoop.NamedNeverHeldUp | src/parse.rs:733-745 | on a table of well-formed names it always ends |
| CapLoop.HeldUpGoesOn | src/retention.rs:161-164 | otherwise it can take any number of turns |
| Movies.BuiltIsSettled | src/movie.rs:275-387 | a recorded build, successful or failed, is not due again |
| Movies.SweepQuiesces | src/movie.rs:666-756 | if every build of a sweep was recorded and nothing else changed, nothing is due |
| Movies.Builder.NeedsBuild | src/movie.rs:708-742 | the checks of a sweep accept exactly the due movies: fully covered, with no row, another segment count, or a success whose file is gone |
| Movies.Builder.Gather | src/movie.rs:691-742 | the to-do list holds exactly the due movies, each once |
| Movies.Builder.Build | src/movie.rs:275-387 | file and freshness row after each outcome; a veto survives |
| Movies.Builder.Sweep | src/movie.rs:666-760 | builds the to-do list in order until switched off, and leaves nothing due if all builds were recorded |
| MovieRaces.BlobsDiffer | src/movie.rs:230-232 | different drives or cameras have different movie files |
| MovieRaces.DisabledStays | src/movie.rs:778-826 | on every run without a delete of its row, a disabled movie stays disabled and is never shown ready |
| MovieRaces.NeverListedIff | src/movie.rs:680-742 | after the veto, no to-do list of any run without a delete of its row holds the movie, if and only if no sweep has read the rows before the veto with its list still to make |
| MovieRaces.OutOfFlightStays | src/movie.rs:708-742 | once no sweep has it in flight, whether or not its file is stored, it enters no later to-do list and is never again in flight |
| MovieRaces.OutOfFlightStaysGone | src/movie.rs:750-756 | and if its file is gone then, it stays gone |
| MovieRaces.SweepEndsFlight | src/movie.rs:744-760 | whatever was in flight at the veto, the end of that sweep or a restart ends it, and no later to-do list holds the movie |
| MovieRaces.BlobStaysGoneIff | src/movie.rs:750-756 | its file stays gone on every run if and only if no sweep has it in flight |
| MovieRaces.Leak | src/movie.rs:750-756 | from any state with the movie in flight some run leaves its file behind |
| Subtitles.ChunkCount | src/subs.rs:177-199 | the number of chunks that begin before the end of the audio |
| Subtitles.Transcribe | src/subs.rs:175-200 | the chunk loop returns the merged transcript of the chunks, or the first reason to give up |
| Subtitles.TranscriptInOrder | src/subs.rs:191 | if each answer's cues lie in their chunk in order, so do the merged cues on the whole drive |
| Subtitles.StoredTranscriptReadsBack | src/subs.rs:203-212 | answers in whole milliseconds are stored without loss |
| Subtitles.Transcriber.Build | src/subs.rs:125-215 | transcript and freshness row after each outcome; a veto survives |
| Subtitles.Transcriber.Judge | src/subs.rs:489-509 | the checks of the sweep accept exactly the due drives |
| Subtitles.Transcriber.Sweep | src/subs.rs:460-514 | only drives due at the start are built, every row and key is as those builds leave it, and nothing is due at the end if no build gave up |
| WebVtt.PrintedClose | src/subs.rs:386-392 | printing moves a time by at most half a millisecond, and not at all if and only if it is whole milliseconds |
| WebVtt.ParseFmt | src/subs.rs:355-368 | a printed timestamp reads back as the time it denotes, also when its seconds print as 60.000 |
| WebVtt.ParseVtt | src/subs.rs:333-352 | the line loop computes the recursive reading of the lines |
| WebVtt.RenderVtt | src/subs.rs:378-384 | the loop writes the header and every cue in order |
| WebVtt.RenderedCues | src/subs.rs:378-384 | a rendered list of clean cues reads back with the printed times |
| WebVtt.ParsedTextIsOk | src/subs.rs:333-352 | the reader only returns texts of trimmed, non-blank lines |
| WebVtt.VttRoundTrip | src/subs.rs:333-392 | rendering and parsing gives the same cues if and only if texts are clean and times are non-negative whole milliseconds |
| DeviceParams.ReportReadsBackIff | src/device_params.rs:298-312 | the device's report reads back all values if and only if each is a single line |
| DeviceParams.ClearKeepsIff | src/device_params.rs:403-410 | with the written value on the device, clearing a row keeps the user's last word if and only if the row still holds that value |
| DeviceParams.UpsertSettlesIff | src/device_params.rs:416-422 | storing a read value never changes a pending row, any other row, or what is kept |
| DeviceParams.ParamSync.CacheSet | src/device_params.rs:361-375 | an edit sets the value and marks it pending |
| DeviceParams.ParamSync.ClearPending | src/device_params.rs:403-410 | only the pending mark of the key changes |
| DeviceParams.ParamSync.WriteParam | src/device_params.rs:315-330 | the device changes only for a writable value and a successful command |
| DeviceParams.ParamSync.FlushOne | src/device_params.rs:386-399 | with edits landing before each operation, the row stays kept unless it was edited in between or is not writable, and other rows are unaffected |
| DeviceParams.ParamSync.Flush | src/device_params.rs:379-401 | every row read is written, still pending, or dropped as invalid; only keys edited between the read and the clear lose an edit; the count is that of the rows written |
| DeviceParams.ParamSync.Refresh | src/device_params.rs:413-430 | pending rows are never altered, and after a successful read every allowlisted row is pending or shows the device's value |
| DeviceParams.ParamSync.Reconcile | src/device_params.rs:433-443 | both together: the user's last word is pending or on the device unless overtaken or invalid, and all rows are settled |
| ParamTasks.RefreshSettlesIff | src/device_params.rs:413-430 | on every run of any number of flushes and refreshes, when a refresh stores a row it is settled if and only if an edit of it is pending or the last value any task has written since the read, if any, is the one read |
| ParamTasks.FlushKeepsIff | src/device_params.rs:379-410 | on every such run, when a flush clears a key the user's last word is kept if and only if the last value he chose since the read, else the one read, is the last that any task has written |
| ParamTasks.KeptForGoodIff | src/device_params.rs:379-443 | from any state, the user's last word survives every run without another edit of the key if and only if it is kept now and no flush holds an older value of it or has written over it |
| ParamTasks.LosesWord | src/device_params.rs:379-410 | from every other state some run loses it |
| ParamSettling.StepKeepsUnanimous | src/device_params.rs:379-430 | once cache, device and all tasks under way agree on the value of a key, every step but an edit of it keeps them in agreement |
| ParamSettling.SettledForGoodIff | src/device_params.rs:379-443 | from any state with two tasks yet to start, a row stays settled on every run without another edit of its key, if and only if cache, device and all tasks under way already agree on its value |
| ParamSettling.Unsettles | src/device_params.rs:413-430 | from every other state some run leaves the row showing a value that the device has not |
| ParamTasks.StaleRefreshRun | src/device_params.rs:413-430 | a refresh that overlaps a flush can leave a settled row stale |
| ParamTasks.LostEditRun | src/api/device_params.rs:94-102 | an edit that falls while a flush holds an older value can be lost although its own flush has written it |
| Athena.StepKeepsInv | src/athena.rs:93-210 | every connect, frame, ping, teardown, delayed row update, reaper pass and tick keeps the freshness invariant |
| Athena.OnlineWasHeard | src/athena.rs:118-210 | on every run with any overlapping sockets, online implies a connect or frame at most 40.999 seconds ago, 40 on the clock of whole seconds |
| Athena.BoundIsMet | src/athena.rs:196-210 | a run reaches 40.999 seconds |
| Athena.SilentGoesOffline | src/athena.rs:146-156 | a silent device is shown offline in time, however many pings succeed |
| Athena.OpenSocketWasHeard | src/athena.rs:132-145 | a socket that is not hanging up has brought a frame within the same bound |
| Athena.ConnectedHasSocket | src/athena.rs:35-43 | a device listed as connected has an open socket |
| Athena.TeardownAgreesIff | src/athena.rs:38-40 | after a teardown the map is right about the device if and only if it had no other socket |
| Athena.Server.Serve | src/athena.rs:93-210 | the handlers and the reaper, run in any order that the clock admits from a fresh start, keep the bound for every row shown online |

## Left out

- Foreign formats and tools: log decoding and decompression, sprites, the model overlay, ffmpeg, ffprobe, ssh, scp, whisper and denoising are arbitrary inputs or outcomes.
- Database and file errors: queries that fail halfway are not modelled, apart from files that cannot be unlinked.
- HTTP handlers, authentication, access checks, settings, toggles and ignore rules: parameters or arbitrary predicates.
- Floating point: real numbers stand for `f64` and `f32`, and integers are unbounded but for the 64-bit segment parser.
- DevSync: the address of a queue item, uploads that are registered later, and temporary files of a pull are left out; deletions by the user and by retention are not steps of that system, so its no-loss claims are about a server that only adds.
- DevSync.NoFileLost: a removal takes exactly the file named; the shell is not modelled, and `maybe_prune` checks the file name but not the time for shell characters before it quotes both.
- Convergence.SyncConverges: about runs in which no pull, store or registration for the device fails and it does not upload directly, with files whose names can be read back from their keys and do not mix the qlog token with a camera token; with failures, termination and `NextScanFindsNothing` are claimed.
- DriveStats.ParsedIsSane: assumes that the car reports no negative speed, which the server does not check.
- Recomputes.RecomputesSettleIff: segment rows are changed and added but not dropped; retention drops a route's rows together with its route row.
- Confluence.IngestIsConfluent: about serial ingests of well-typed files, cameras under the names that the device gives them; `created_at`, platform and git metadata are left out, and so are the derived coordinate, event, telemetry, sprite and model files.
- Ingest.Library.Delete: the device half, the transcode cache and the movie delete of the handler are left out; the pin it sets is in `Overrides`.
- Ingest.Library.DeleteTypes: the transcode caches of a deleted camera, which the handler drops, are not part of these tables.
- Segments: rows are keyed by route and number; the text key agrees with that for non-negative segments, and the upload URL also accepts negative ones (`RowNameSharedIff`).
- Links.NoLinkDangles: about ingests and deletions one after the other; retention drops a route's rows with its files.
- Events.Accum.Accumulate: positions, metadata, health, driver monitoring and distances of the accumulator are left out.
- Retention.Server.RunOnce: requires route names with a separator; what the cap loop does on other tables is `CapLoopEndsIff`.
- Storage: the store is a map from keys; path sharding, name sanitising and the rename of a partial file are left out, and so is the public address in front of a URL.
- Movies: encoding settings, queue labels and the interval timer are left out; a build's permit only orders builds.
- MovieRaces: one sweeper runs at a time, as in the server; a build requested for a single movie is not a step. A to-do list is made in one step from the coverage and the files of the moment; which routes it considers is arbitrary.
- Subtitles: disabling, deleting, status and rebuild-all have the movies' form and are left out.
- WebVtt.ParseFmt: a timestamp field written with an exponent, `inf` or `nan` is not read by the model.
- DeviceParams.ParamSync.Reconcile: one reconcile with edits landing before each of its operations; several tasks at once are in `ParamTasks`, where a device's own changes to its settings are left out.
- Athena.OnlineWasHeard: assumes that the reaper and each ping task run on time and that a row update lands within a given delay; accepting a connection and issuing its update are one step, and the guard against two syncs of one device is left out.
