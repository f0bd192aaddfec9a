# Beacon: verified model of the report store, exports and boundary loader

Beacon collects damage reports from the public, groups them into crises, and exports them. This project models
the parts where state, concurrency and byte layouts meet, and proves what they keep.

* **Reports, buildings, crises** (`Tables`, `Intake`, `Sessions`). The tables are values; each SQL statement is a
  function on them. `Sessions` is the service as a state machine: any number of submits in flight, each at its own
  statement (guards, crisis assignment, building lock, version read, insert, damage refresh, commit, emergent gate,
  pull-in), interleaved with withdrawals, verification, photos, crisis status changes, footprint ingests, re-geocoding
  and new crises, over a read-committed database with row locks and unique indexes that make inserts wait. Results over
  all runs are in `Safety`, `Versions`, `Links`, `Damage`, `Lifecycle`, `Ownership`, `Dismissal`, `Arrivals`, `Limits`, `Bypasses`,
  `Replays` and `Audits`, with `Histories` for looking back along a run; facts about single tables in `Rows` and `Chains`; runs in
  which a stronger property fails in `Counterexamples` and `ErasureRuns`.
* **The same operations as the code writes them** (`Database`, `Service`): classes whose methods update fields statement
  by statement and roll back. Each is proved to do what those functions say, and states its result a second time from the
  fields, constants and distances themselves. `Atomic` shows that an uninterrupted submit of the state
  machine and the `Submit` method are the same thing; `Idempotency` is about runs of such submits.
* **Listing** (`Cursors`, `Filters`, `Paging`, `Walks`): the cursor codec, the filter compiler with an evaluator for the SQL
  conditions in three-valued logic, one page, and walks over pages while everything changes in between.
* **Exports and photos** (`Columns`, `Exports`, `Csv`, `Shapefile`, `Jpeg`): planners and printers, with parsers or readers
  that undo them.
* **Boundaries** (`Areas`, `Boundary`, `Loading`, `SoloLoads`, `Backfill`): the area table and reverse geocoder, the loader's
  goroutines, and the H3 backfill loop.

Distances and PostGIS shapes are uninterpreted functions, assumed symmetric and reflexive only where a statement says
`Geographic`. Times are integers (nanoseconds). In the database modules a string stands for its bytes and text is compared
byte by byte; in `Columns`, `Exports`, `Csv` and `Shapefile` it is a sequence of code points.

Places where the code does less than its comments or its shape suggest, each with the exact condition:

* A supersedes link can lead into another building: exactly when the superseded report is erased between a submit's
  version read and its commit, its id having been stored again elsewhere (`Links.LinkStaysInBuilding` for one insert,
  `Links.LinksHomeExactly` for whole runs, `Counterexamples.LinkIntoAnotherBuilding`).
* A report can arrive in a dismissed crisis that nobody reopens or names again: exactly when, at the dismissal, some
  submit in flight carries the crisis and can still store its report. What that takes is spelled out phase by phase in
  `Dismissal.MayStore`: rows in the way of its id and key that somebody can withdraw, a pin that the containment check
  keeps, guards that can be passed, and no link to its own id (`Arrivals.DismissalLeaksExactly`,
  `Dismissal.DismissedStaysEmpty`, `Counterexamples.DismissedCrisisReceives`).
* The guards are skipped for a stored id and not made up for when that report is gone by the time of the insert: a row
  is stored without having passed them exactly when its id was erased behind them and not stored again
  (`Bypasses.SkippedExactly`, `Bypasses.GuardedExactly`). With serialised submits the limits hold throughout exactly
  when every such row would have fitted anyway (`Bypasses.LimitsHoldExactly`, `Counterexamples.ReplayGuardHole`).
* Of two emergent detectors that both passed the gate, the second attaches only what the first leaves: nothing exactly
  when its cluster lies within the other's (`Lifecycle.SecondDetectorAttachesRest`, `Counterexamples.EmptyProposal`).
* A building's cached damage, once right, is left wrong in two ways, and in no other (`Damage.DamageFollowsNewest`).
  An erasure does it exactly when the report was the newest and the next newest has another damage
  (`Damage.ErasureOutdatesExactly`, `ErasureRuns.DamageOfErased`). A commit does it exactly when the report its
  refresh found newest was erased since and the newest now has another damage (`Damage.CommitOutdatesExactly`,
  `ErasureRuns.OutdatedCommit`); that takes a link that has left its building (`Damage.OutdatedIsMisled`), and every
  other commit makes the cache right from any value (`Damage.StoreRefreshes`).
* After erasures from a building numbered 1..n the next number is n + 1 less the number of reports erased; it is in
  use already exactly when something was erased but not the report of that number (`Links.VersionRecursExactly`,
  `ErasureRuns.NumberTwice`).
* The H3 backfill can stop with rows still to fill exactly when 2000 or more pending rows have no cell
  (`Backfill.BackfillCanStall`).
* `stripJPEGMetadata` loses a lone byte after the last segment (`Jpeg.TailVerbatim`, `Jpeg.LoneByteLost`).
* Page cursors hold 64-bit nanoseconds, so listing by cursor breaks at reports captured in 2262 or later
  (`Cursors.CursorRoundTrip`, `Walks.FarFutureEndsWalk`).

Check the project with `dafny verify dfyconfig.toml`.

## Model

| member | source | states |
|---|---|---|
| `Service.FillReport` | internal/service/report_service.go:93-244 | field by field from the request: a complete flat pair gives the point, else a complete nested pair its own latitude and longitude, else none, and none if unresolved; flat building and landmark before nested; only "footprint" is kept as source; aliases for empty lists; the capture time or now; a key made from the id; "auto" and empty mean no crisis |
| `Service.CheckReport` | internal/service/report_service.go:301-357 | accepts exactly a report with an id, values from the closed lists (named one by one), and a point in range or a landmark |
| `Service.ReportService.constructor` | internal/service/report_service.go:76-81 | a threshold of two or more is kept; any other configuration becomes 2 km, 24 hours, three submitters |
| `Service.ReportService.EnforceSubmitGuards` | internal/service/report_service.go:367-403 | rate-limited exactly with 5 rows of the submitter in the last 60 s or 20 in the last 600 s; otherwise a duplicate exactly when a pin, not of a footprint, has a candidate, and then the id of one no candidate is newer than |
| `Service.ReportService.DecideCrisis` | internal/service/report_service.go:442-465 | a report without point keeps its crisis; a pinned crisis is kept exactly within the greater of 1.5 radii and radius plus 5 km of its centre, or when it is unknown or has no radius; otherwise assignment by place and time decides |
| `Service.ScopeFromChain` | internal/service/report_service.go:571-583 | the ADM2 code if there is one, else the ADM1 code, else no scope |
| `Service.ReportService.Transact` | internal/service/report_service.go:486-516 | building row, lock and number, insert, refresh, in that order and rolled back on the first failure, is one all-or-nothing commit |
| `Service.ReportService.Submit` | internal/service/report_service.go:407-562 | tables and answer are those of `SubmitTables` and `SubmitAnswer`; refused, failed and key-replayed submits change nothing; a new row says what the request said (point, time, aliases, building, source), has the next number of its building and supersedes a newest report of it, its building shows the damage of a newest report, and other rows change only by being pulled into a crisis just proposed |
| `Service.DecisionExists` | internal/store/crisis.go:104-121 | crisis assignment has an answer for every table |
| `Database.Store.AssignCrisis` | internal/store/crisis.go:104-121 | an active or proposed crisis whose radius holds the point and whose time, give or take seven days, holds the capture; none is nearer; none only if there is no such crisis |
| `Database.Store.UpsertBuilding` | internal/store/write.go:148-168 | an existing row keeps its crisis and, without a new tier, its damage; a new one has the given crisis and damage; it fails exactly when a crisis that does not exist is needed; no other building changes |
| `Database.Store.UpsertBuildingFootprint` | internal/store/write.go:178-201 | a re-ingested footprint leaves crisis and crowd damage of the building alone; a new one starts without damage in its crisis, if that exists |
| `Database.Store.NextVersionForBuilding` | internal/store/write.go:206-219 | one more than the number of rows of the building, and the id of a row of it that no other row of it is newer than |
| `Database.Store.UpsertReport` | internal/store/write.go:41-145 | a stored id is a replay, else a stored key is taken, else a missing crisis, superseded report or building is a foreign key failure, and only then nothing is stored; a new row can be looked up at the end of the table, with ids and keys still unique and links and references still resolved |
| `Database.Store.RefreshBuildingCurrentDamage` | internal/store/write.go:226-232 | the cached damage becomes that of a report of the building which none of its reports is newer than, or none; every other column and building stays |
| `Database.Store.UpdateVerification` | internal/store/write.go:243-276 | not found exactly for an unknown id; verifying needs a photo or force; an update leaves exactly that report at the given status and adds one audit row of its old and new status, actor, note and force |
| `Database.Store.SetPhotoURL` | internal/store/reports.go:355-361 | found exactly when the id is stored; row by row only the photo of that id changes, and its verification is no longer refused for want of a photo |
| `Database.Store.UpdateReportAdmin` | internal/store/admin.go:209-218 | the admin chain of that report is replaced and nothing else |
| `Database.Store.WithdrawReport` | internal/store/reports.go:447-484 | erases exactly when the caller is the device registered for the submitter of the row; then that row, the links to it and its audit rows are gone and nothing else, and a row with its submitter and crisis records it; otherwise nothing changes |
| `Ownership.OnlyOwnerErases` | internal/store/reports.go:447-484 | along every run a stored report is gone after a step exactly when the step is its withdrawal by the device of its own submitter |
| `Database.Store.CountRecentBySubmitter` | internal/store/reports.go:864-870 | the number of the submitter's rows created since the time |
| `Database.Store.FindDuplicateBySubmitter` | internal/store/reports.go:885-909 | finds a duplicate exactly when a candidate exists, and one than which no candidate is newer |
| `Database.Store.SetCrisisStatus` | internal/store/crisis.go:253-281 | found exactly for a known crisis, which then has the given status and is otherwise as before, like every other crisis; on dismissal, and only then, exactly its reports and buildings are released |
| `Database.Store.UpsertCrisis` | internal/store/crisis.go:366-381 | a known id is left alone; a new crisis is active unless told otherwise and 40 km wide if no radius is given |
| `Lifecycle.StatusIsLastSet` | internal/store/crisis.go:253-256 | along every run the status of a crisis is that of the last status event on it, or the one it had, and nothing else of it changes |
| `Lifecycle.CrisisBegins` | internal/store/crisis.go:221-228 | a crisis appears as it was declared, or as a proposal with the configured radius |
| `Database.Store.DetectEmergentCrisis` | internal/store/crisis.go:168-248 | proposes exactly when enough distinct submitters have pending pins within the radius of the point, captured since the window began, in the area of the scope; then exactly the pending reports of that description join the new crisis, with the buildings without a crisis they are about, and nothing else changes |
| `Atomic.SubmitIsSolo` | internal/service/report_service.go:407-562 | an uninterrupted submit of the interleaved machine does what `SubmitTables` says, whatever else is in flight, and disturbs no other session |
| `Atomic.DriveReachable` | internal/service/report_service.go:486-516 | every statement of an unhindered submit is enabled, so its run is a run of the interleaved machine |
| `Safety.AlwaysGood` | internal/migrations/00001_init.sql:47-66 | in every reachable state ids and keys are unique, references resolve, each building is locked by at most one transaction, and every uncommitted row can still be committed |
| `Safety.StepReports` | internal/store/write.go:71-145 | every step stores one row at the end, erases one row, or leaves the identifying columns of every row alone |
| `Audits.IdsAndKeysUnique` | internal/store/write.go:66-71 | in every reachable state an id or a key belongs to one row, and looking it up finds that row |
| `Versions.VersionsCountUp` | internal/store/write.go:206-219 | under every interleaving without an erasure in the building, its stored versions are exactly 1..n in commit order, and the history is one linear chain exactly when it was stored in capture order |
| `Chains.LinearExactly` | internal/service/report_service.go:500-507 | a numbered history is linear exactly when every report but the last was newer, when stored, than the one before it |
| `Chains.CaptureOrderIsLinear` | internal/service/report_service.go:500-507 | strictly increasing capture times give one linear chain, version k superseding version k-1 |
| `Chains.NewestIsMaximal` | internal/store/write.go:213-215 | the newest report of a list is its maximum in the (captured_at, id) order |
| `Basics.BelowMeans` | internal/store/write.go:213-215 | ids are ordered by their first different byte, a beginning before what it begins |
| `Links.VersionRecursExactly` | internal/store/write.go:211-218 | after any erasures from a building numbered 1..n, the next number is n + 1 less the number erased, and it is still in use exactly when something was erased but not the report of that number |
| `ErasureRuns.NumberTwice` | internal/store/write.go:211-218 | a reachable state in which two reports of one building have the same version number |
| `Versions.SupersedesSafe` | internal/store/write.go:211-218 | in every reachable state, erasures included, no supersedes link dangles, each points to a row committed earlier, and no walk along them returns |
| `Rows.NoCycle` | internal/store/reports.go:469-474 | a walk along supersedes links strictly descends in commit order |
| `Links.LinkStaysInBuilding` | internal/service/report_service.go:496-510 | at an insert, the superseded report is of the inserting report's own building exactly when it was not erased since the number was read |
| `Links.LinksHomeExactly` | internal/service/report_service.go:496-510 | in every state of a run all links lead to reports of their own buildings, exactly when no step stores a row whose superseded report was erased after its number was read |
| `Links.LinksStayInBuilding` | internal/service/report_service.go:496-510 | in every run in which an id always means the same building, every link points to an earlier report of the same building |
| `Counterexamples.LinkIntoAnotherBuilding` | internal/store/reports.go:469-474 | a reachable state in which a report supersedes a report of another building |
| `Damage.DamageFollowsNewest` | internal/store/write.go:226-232 | in every state of a run the cached damage of a building with reports is that of its newest, exactly when no step erases its newest while the next newest has another damage and no step commits an outdated damage |
| `Damage.DamageAtHome` | internal/store/write.go:226-232 | in runs whose links into the building stay at home, exactly when no step erases its newest while the next newest has another damage |
| `Damage.CommitOutdatesExactly` | internal/service/report_service.go:506-514 | in every run, whatever the cache held, a commit leaves it wrong exactly when the report its refresh found newest was erased since and the newest now has another damage |
| `Damage.OutdatedIsMisled` | internal/service/report_service.go:496-514 | only a row whose superseded report was erased behind its version read can be committed with an outdated damage |
| `Damage.ErasureOutdatesExactly` | internal/store/reports.go:469-474 | a step that stores nothing in the building leaves a right cache wrong exactly when it erases the newest report and the newest of the others has another damage |
| `Damage.StoreRefreshes` | internal/service/report_service.go:506-514 | a commit whose link is at home makes the cache right, from any value and whatever was erased behind its refresh |
| `ErasureRuns.DamageOfErased` | internal/store/reports.go:469-474 | a reachable erasure that leaves a right cache wrong |
| `ErasureRuns.OutdatedCommit` | internal/service/report_service.go:506-514 | a reachable commit, behind an erasure of what its refresh found, that leaves the cache of its building wrong |
| `Lifecycle.StepMovesCrisis` | internal/store/crisis.go:221-270 | in any step a stored report keeps its crisis, is pulled from pending into a crisis just created, or is released to pending by the dismissal of its crisis |
| `Lifecycle.LeavesOnlyByDismissal` | internal/store/crisis.go:253-270 | along every run a stored report leaves a crisis only by its dismissal, and to pending |
| `Lifecycle.CountsAddUp` | internal/store/crisis.go:221-270 | in every reachable state pending reports and per-crisis counts add up to the total |
| `Arrivals.DismissalLeaksExactly` | internal/store/crisis.go:256-270 | after a dismissal some continuation without a reopening or a new pin stores a report in the crisis, exactly when some submit then in flight carried it and could still store its report |
| `Dismissal.DismissalReleases` | internal/store/crisis.go:256-270 | dismissal empties the crisis at once and changes nothing about what each submit in flight can still store |
| `Dismissal.DismissedStaysEmpty` | internal/store/crisis.go:256-270 | in every interleaving, a crisis dismissed while no submit in flight could still store in it stays dismissed and empty until it is reopened or a submit pins it |
| `Idempotency.DismissedForGood` | internal/store/crisis.go:256-270 | with atomic submits, a dismissed crisis stays dismissed and empty until it is reopened or pinned |
| `Counterexamples.DismissedCrisisReceives` | internal/service/report_service.go:448-465 | a reachable run in which a submit in flight stores its report in a crisis dismissed meanwhile |
| `Lifecycle.OnlyStatusActivates` | internal/store/crisis.go:253-256 | no step but SetCrisisStatus turns a proposed crisis active |
| `Lifecycle.PullAttaches` | internal/store/crisis.go:229-243 | on one snapshot the pull-in attaches exactly the rows the gate counted: pending, recent enough, within the radius of the pin, in the area; and their submitters |
| `Lifecycle.DetectionExact` | internal/service/report_service.go:535-541 | commit, gate and pull-in on one snapshot propose a crisis that holds exactly the pending reports within the radius of the new pin, captured no longer than the window before it, in its area; the new one included, from at least MinReports >= 2 distinct submitters |
| `Lifecycle.SecondDetectorAttachesRest` | internal/store/crisis.go:186-248 | of two submits that both passed their gates, the second to pull in attaches its cluster less the first one's, so nothing exactly when its cluster lies within the other |
| `Counterexamples.EmptyProposal` | internal/store/crisis.go:186-248 | a reachable run of two submits that leaves a proposed crisis without any report |
| `Limits.GuardsPassExactly` | internal/service/report_service.go:367-403 | the guards pass exactly when both windows are below their caps and no candidate duplicate is stored |
| `Bypasses.SkippedExactly` | internal/service/report_service.go:421-429 | the guards of a submit are skipped exactly when its id is stored then, and it goes on to insert something other than a replay exactly when that report was erased in between and not stored again |
| `Bypasses.GuardedExactly` | internal/service/report_service.go:421-429 | in every run, a stored row passed its guards exactly when its id was not erased behind them |
| `Bypasses.LimitsHoldExactly` | internal/service/report_service.go:47-64 | with serialised submits the limits hold in every state exactly when each row stored past its guards had room in both windows and no near pin of its submitter |
| `Bypasses.SubmitterIsLimited` | internal/service/report_service.go:47-64 | for a submitter whose submits are serialised, none of them with its id erased behind its guards, every closed 60-second window holds at most 5 and every 10-minute window at most 20 of its stored reports, and non-footprint pins captured within 600 seconds are more than 25 m apart |
| `Counterexamples.ReplayGuardHole` | internal/service/report_service.go:421-429 | a reachable run, with serialised submits, in which the skipped guards let a near-duplicate in because the replayed id was erased before the insert |
| `Replays.ReplaysLeaveNoTrace` | internal/service/report_service.go:484-527 | deleting from any interleaved run all events of a session whose inserts fail or are replays of what is stored for the same building leaves a run, with the same tables, clock and other sessions |
| `Idempotency.ReplaysAreInvisible` | internal/service/report_service.go:484-527 | deleting from any run of atomic operations all verbatim replays of accepted submits whose id is still stored leaves the final state unchanged |
| `Idempotency.ReplayExactly` | internal/service/report_service.go:484-527 | a submit of a stored id answers with the stored row or fails; it changes the tables exactly when it has to create its building |
| `Idempotency.TakenKey` | internal/service/report_service.go:517-527 | a submit whose key another id holds writes nothing: a guard refuses it, its building cannot be created, or the caller gets the holder |
| `Idempotency.PerformReachable` | internal/service/report_service.go:407-562 | atomic operations are runs of the interleaved machine |
| `Audits.TrailsAreComplete` | internal/store/write.go:243-276 | in every reachable state a report's audit rows run from pending, each starting where the one before ended and the last ending at its verification; a verified report has a photo or was last verified by force |
| `Cursors.Base64RoundTrip` | internal/store/reports.go:181-199 | base64url without padding (section 5 of RFC 4648) decodes to what was encoded, for every byte string |
| `Cursors.Base64Vectors` | internal/store/reports.go:181-183 | test vectors of section 10 of RFC 4648 and the ends of the URL-safe alphabet |
| `Cursors.CursorText` | internal/store/reports.go:181-183 | the text behind a cursor is its nanoseconds, a bar, and its id |
| `Cursors.CursorRoundTrip` | internal/store/reports.go:181-199 | a cursor decodes to itself exactly when its time fits a 64-bit nanosecond count, whatever bytes its id has, '|' included |
| `Cursors.CursorDecodes` | internal/store/reports.go:181-199 | in general the id comes back unchanged and the time as its 64-bit wrap |
| `Cursors.RefusedExactly` | internal/store/reports.go:185-199 | a token is refused exactly when it is not base64url, has no bar, or no number before its first bar |
| `Cursors.DecodesExactly` | internal/store/reports.go:185-189 | line breaks aside, base64url text decodes exactly when it has only letters of the alphabet and no single one left over |
| `Cursors.UnbrokenKeeps` | internal/store/reports.go:185-189 | only line breaks are skipped |
| `Cursors.ParsesExactly` | internal/store/reports.go:194-197 | a number is an optional sign and digits, and fits 64 bits |
| `Filters.WhereClause` | internal/store/reports.go:203-260 | from any start index every placeholder names a passed argument, and under any argument list that carries them the conditions select exactly the rows that meet each given criterion, spelled out column by column |
| `Filters.TestAgrees` | internal/store/reports.go:203-260 | a condition's truth depends on no argument but those its placeholders name |
| `Paging.KeysetSelects` | internal/store/reports.go:268-279 | the keyset condition at len(args)+1 reads only the two arguments appended with it, and is true exactly past the cursor |
| `Paging.ListingSorts` | internal/store/reports.go:280-280 | the listing holds exactly the matching rows, in strictly descending (captured_at, id) order |
| `Paging.List` | internal/store/reports.go:264-327 | of the sorted matching rows past the cursor, the page holds the first n (the limit, or 50 if it is not positive), after as many as the offset says when there is no cursor; a next cursor is given exactly when more remain, and is that of the last row; with the totals of the filter and of the crisis scope |
| `Walks.PageShape` | internal/store/reports.go:280-303 | a page is in order, after its cursor, passes over nothing, and ends exactly at its next cursor |
| `Walks.WalkIsComplete` | internal/store/reports.go:264-303 | a walk that ends returns every report stored and matching at every fetch exactly once, with any changes to table, filter and page size in between |
| `Walks.NothingTwice` | internal/store/reports.go:264-303 | no (captured_at, id) pair is returned twice, whatever happens between fetches |
| `Walks.WalkIsListing` | internal/store/reports.go:264-303 | on a fixed table and filter the pages concatenate to the sorted filtered list |
| `Walks.WalkEnds` | internal/store/reports.go:264-303 | on a fixed table and filter a walk that has not ended has no more pages than there are matching rows |
| `Walks.FarFutureEndsWalk` | internal/store/reports.go:181-183 | why the times must fit: a page that ends at a report captured in 2262 or later is followed by an empty page although rows remain |
| `Jpeg.StripJpegMetadata` | internal/handler/photo.go:247-280 | the loop computes `Strip`: parse into marker segments, drop APP1 and COM, print the rest and the tail |
| `Jpeg.ParseIsLossless` | internal/handler/photo.go:247-280 | the segments and the tail (sections B.1.1.3 and B.1.1.4 of ITU-T T.81) print back to the bytes they were parsed from |
| `Jpeg.ParseInverse` | internal/handler/photo.go:247-280 | printed segments parse back to themselves |
| `Jpeg.NoMetadataLeft` | internal/handler/photo.go:271-277 | the header part of the output has no segment marked 0xE1 or 0xFE, and all other segments, in order and byte for byte |
| `Jpeg.TailVerbatim` | internal/handler/photo.go:254-270 | the tail is copied verbatim exactly when it is not a single byte |
| `Jpeg.LoneByteLost` | internal/handler/photo.go:254-270 | an input whose last byte is lost |
| `Jpeg.ScanUntouched` | internal/handler/photo.go:261-263 | a tail of two bytes or more, so every scan and end marker, ends the output unchanged |
| `Jpeg.StripIdempotent` | internal/handler/photo.go:247-280 | stripping twice is stripping once, on every byte sequence |
| `Columns.CamelToSnake` | internal/service/export_service.go:156-169 | one pass over the key gives its snake_case name |
| `Columns.SafeKeyUnchanged` | internal/service/export_service.go:84-87 | a key that is a safe name already is exported under that name, fid and geom renamed |
| `Columns.SnakeLength` | internal/service/export_service.go:156-169 | a name is as long as its key plus one underscore for each capital after the first character |
| `Columns.SnakePlaces` | internal/service/export_service.go:156-169 | each character of a key stands as far behind its place as there are capitals before it, lowered if a capital, and then behind an underscore |
| `Columns.ListAnswersReadBack` | internal/service/export_service.go:130-152 | a list answer can be read back from its cell as long as no choice contains a semicolon |
| `Columns.ScalarAnswers` | internal/service/export_service.go:130-152 | what answers other than lists print as: nothing for null, true and false, the text itself |
| `Columns.FlattenModular` | internal/service/export_service.go:105-128 | the columns are the stable ones and those of the safe keys; every cell is the flat value of an answer under its column, or empty |
| `Columns.ExtrasFromRows` | internal/service/export_service.go:174-196 | the row-based planner yields all dynamic columns of the rows, once each, sorted |
| `Columns.ExtrasFromKeys` | internal/service/export_stream.go:57-85 | the key-based planner yields all dynamic columns of the keys, once each, sorted |
| `Columns.PlannersAgree` | internal/service/export_stream.go:53-56 | both planners give the same list whenever the keys are the union of the rows' keys |
| `Columns.PlanIsClean` | internal/service/export_service.go:84-97 | a plan has no duplicates and meets no fixed or stable column |
| `Columns.PlannedNames` | internal/service/export_service.go:84-97 | every planned name is a small letter followed by small letters, digits and underscores, and not fid, geom or a stable column |
| `Exports.ColumnNames` | internal/service/export_service.go:260-262 | the header lists, name by name, and that they name the exported quantities in the order the rows hold them |
| `Exports.CsvRowCells` | internal/service/export_stream.go:183-202 | each of the 25 fixed cells from the field of the report it stands for, then the answers of the dynamic columns |
| `Exports.Declare` | internal/service/export_stream.go:337-349 | one declaration and one placeholder per attribute column: the fixed columns, the three stable ones, the dynamic ones; and one more placeholder for the geometry |
| `Exports.GpkgRowArgs` | internal/service/export_stream.go:285-308 | as many arguments as placeholders: the geometry or none, each fixed column from its field of the report, then the stable and the dynamic answers |
| `Exports.SemicolonsJoin` | internal/service/export_stream.go:183-202 | lists in fixed columns are joined like list answers, and split back as long as no part contains a semicolon |
| `Exports.GpkgColumnsDistinct` | internal/service/export_stream.go:337-357 | fid, geom, fixed, stable and dynamic columns of the feature table are pairwise distinct |
| `Csv.StreamCsv` | internal/service/export_stream.go:206-228 | what is written parses back to the header, the HXL row and every row's raw cells, each from its field of the report; every record has as many cells as the header |
| `Csv.HxlTags` | internal/service/export_service.go:262-262 | the HXL tags, one by one |
| `Csv.FieldInverse` | internal/service/export_service.go:244-251 | any text printed as a cell is read back as that text (section 2 of RFC 4180, with LF records and CR as data) |
| `Csv.RecordsInverse` | internal/service/export_service.go:244-251 | parsing undoes printing for every list of non-empty records |
| `Shapefile.StreamShapefile` | internal/service/export_shapefile.go:61-177 | one pass over the rows writes the three members as `ShpFile`, `ShxFile` and `DbfFile` say, with the tight bounding box of the resolved reports, or zeros |
| `Shapefile.ReaderRecovers` | internal/service/export_shapefile.go:98-130 | a reader that follows the index recovers the coordinates of the resolved reports in order, record i at byte 100+28i, and the index says so exactly while 50+14i < 2^31; field k of table row i is the text of the same report's k-th attribute, at the sum of the widths before it |
| `Shapefile.HeadersAgree` | internal/service/export_shapefile.go:152-157 | all length words equal the member sizes exactly while 50+14n < 2^31, the table's count is right exactly while n < 2^32, and the three members hold the same number of records |
| `Shapefile.GeometryBytes` | internal/service/export_shapefile.go:182-196 | both geometry members start with code 9994, version 1000, type 1 and the box, byte by byte; each record has its number, a length of ten words and type 1, its index entry the same length |
| `Shapefile.TableBytes` | internal/service/export_shapefile.go:200-228 | the table says dBASE III and the day, and describes each field by name, as text, with its width |
| `Shapefile.RowFlag` | internal/service/export_shapefile.go:113-130 | every table record starts with the flag of a row that is not deleted |
| `Shapefile.FieldsShow` | internal/service/export_shapefile.go:34-43 | the eight fields by name and width, and which attribute of the report each shows |
| `Shapefile.FloatOrder` | internal/service/export_shapefile.go:105-110 | the order of coordinates is that of finite floats: negative ones reversed and first, the two zeros equal |
| `Shapefile.HullGrows` | internal/service/export_shapefile.go:105-110 | widening by one more point keeps the box tight, signed zeros included |
| `Shapefile.FillShpHeader` | internal/service/export_shapefile.go:182-195 | the zeroed buffer filled at its offsets is the 100-byte header |
| `Shapefile.WriteDbfHeader` | internal/service/export_shapefile.go:200-228 | the table header adds up to 289 bytes and announces records of 203 |
| `Shapefile.AsciiFixed` | internal/service/export_shapefile.go:232-249 | the cell is filled in place with the first code points, a question mark for what is not printable ASCII, and padded with spaces |
| `Shapefile.FieldAt` | internal/service/export_shapefile.go:34-43 | each field of a record sits where the widths before it put it |
| `Boundary.OneBodyPerCountry` | internal/boundary/loader.go:195-213 | in every reachable state a country has at most one body, is in flight exactly while one runs, and when all have left nothing is |
| `Boundary.StepAdvances` | internal/boundary/loader.go:195-268 | every step of a body brings it closer to its release, failed downloads included |
| `Boundary.NeverStuck` | internal/boundary/loader.go:195-268 | in every reachable state a running body has a next step of its own |
| `Boundary.NeverFetchedAgain` | internal/boundary/cod.go:52-55 | once a country has COD rows no body downloads COD or geoBoundaries data for it again, nor geoBoundaries data once its rows are there |
| `Loading.BoundaryLoader.IngestCodMember` | internal/boundary/cod.go:90-128 | the rows up to the first undecodable feature are upserted in order; a row counts unless its parent is missing, even when its code was present |
| `Loading.BoundaryLoader.EnsureCod` | internal/boundary/cod.go:52-84 | level 1 before level 2; nothing when the layer is present or the download fails |
| `Loading.BoundaryLoader.EnsureCountry` | internal/boundary/loader.go:195-268 | on every path the in-flight set is as before; a country in flight or with COD rows is left alone; geoBoundaries rows come only when no COD row could be had and none of them is there |
| `Loading.ReadFeature` | internal/boundary/cod.go:106-121 | the row of a feature: its code as name if it has none, a province under its country, a district under the area it names |
| `Loading.ReadRegion` | internal/boundary/loader.go:246-258 | the row of a region: its shape id behind "GB:", level 1, under its country |
| `Loading.LevelRowsAre` | internal/boundary/cod.go:90-106 | the rows of a level are exactly those of the features with geometry and code that stand before any undecodable one, in the members whose names stand for that level |
| `Loading.GbRowsAre` | internal/boundary/loader.go:246-252 | the rows of a collection are exactly those of its features with geometry and shape id |
| `SoloLoads.CallIsSolo` | internal/boundary/loader.go:195-268 | a body of the interleaved loader that nothing interrupts does to the area table what EnsureCountry does, and leaves in-flight set and other bodies as they were |
| `Loading.EnsuredGrows` | internal/boundary/loader.go:195-268 | a body only adds rows, keeps the parent order, and leaves a country with a COD layer alone |
| `Loading.CountryRowsLoad` | internal/boundary/cod.go:115-120 | level 1 rows are never refused once the baseline row of their country is there |
| `Loading.ArchiveLoads` | internal/boundary/cod.go:52-84 | because provinces go first, no row of an archive is refused wherever it stands, once the country row is there and each district names a known area or a province of the archive |
| `Areas.AlwaysRooted` | internal/store/admin.go:20-45 | whatever rows are offered, codes stay unique and every parent is an earlier row or the row itself |
| `Areas.ClimbDescends` | internal/store/admin.go:89-94 | the parent graph has no cycle but a row that names itself |
| `Areas.WalkEndsExactly` | internal/store/admin.go:89-95 | the recursive walk from a row ends exactly when it never reaches a row that names itself as parent |
| `Areas.ChoiceOnlyImproves` | internal/store/admin.go:77-88 | loading more areas never replaces the area chosen for a point by a worse one, COD before seed data before geoBoundaries before the baseline and deeper before higher, and never loses the point |
| `Areas.LineageClimbs` | internal/store/admin.go:89-95 | the query's rows start at the chosen area, climb one parent at a time, and end at one without a parent |
| `Areas.ResolveAdmin` | internal/store/admin.go:75-129 | nothing exactly outside all areas; otherwise the lineage of an area holding the point which none that does beats, and at each level code and name of the last row of that level |
| `Backfill.ReportTable.BackfillH3R8` | internal/store/reports.go:804-850 | terminates for any page order, changes only pending rows, each to its own non-empty cell, returns their number, and leaves no cellable row unfilled when fewer than 2000 pending rows have no cell |
| `Backfill.ReportTable.FillPage` | internal/store/reports.go:817-846 | a page fills exactly its rows that have a cell, and ends the loop exactly when it was not full or filled nothing |
| `Backfill.BackfillCanStall` | internal/store/reports.go:834-836 | some page of the table fills nothing although a row could be filled, exactly when one could be and 2000 or more pending rows have no cell |

## Left out

- Service.FillReport: does not model the removal of the "your location" placeholder from `place`, nor description, photos, size, accuracy, plus code, modular answers and sync state, because no modelled property reads them.
- Bypasses.SubmitterIsLimited: assumes that submits of one submitter do not overlap, because the guards read outside the transaction that inserts.
- Service.ReportService.Submit: is a submit without interleaving, with what the geocoder answers, a fresh crisis id, and the centre and start of a proposal given; translation, boundary loading and points are not modelled.
- Database.Store.UpsertBuildingFootprint: geometry and provenance columns are not modelled, because no modelled property reads them.
- Boundary.NeverFetchedAgain: assumes that count queries succeed, because on a failing count the code goes on to download.
- Database.Store.DetectEmergentCrisis: assumes the generated crisis id is new; title, area name, nature and report count of a proposal are not modelled.
- Sessions: a submit's three guard queries are one read, and so are its pin check and crisis assignment; the lock, version, insert, refresh, commit, gate and pull-in statements are separate.
- Sessions: a pull-in or dismissal does not wait for a building row locked by a submit, and a proposal's centre and start time are arbitrary, which allows more runs than the database does.
- Sessions: translation of descriptions, the boundary loading a submit starts, and the final read of the stored row do not change the tables and are not steps.
- The foreign key from reports to submitters, submitter profiles, points and badges.
- The seeder, form overrides, tile queries, the map-pin set (latest report per building), timelines and area groups.
- Database errors and timeouts on reads.
- PostGIS geometry, haversine and H3 cell arithmetic: uninterpreted; ILIKE patterns: an uninterpreted predicate.
- Collations other than byte order for text columns.
- Filters: the `::uuid` cast of the submitter argument is taken as equality of texts.
- Columns: the order in which a map is ranged over is arbitrary, so which of two keys with the same column name wins is open, as in the code.
- Columns: an answer that is a nested object, and the printed form of numbers, come with their text.
- Exports: number, time and geometry formatting; GeoJSON and KML; the SQLite file and its metadata tables; the ZIP container and the .prj member.
- Shapefile: NaN and infinite coordinates, which a validated report cannot have.
- Jpeg: fill bytes before markers, which the code treats as lost alignment or as part of a marker.
- Loading: trimming of property values, the token-level search for the features array, and the regular expression on member names, which is given as the levels it stands for.
- Boundary and Loading: HTTP downloads succeed or fail arbitrarily; re-geocoding writes reports and is a step without effect on areas.
- HTTP routing, authorization, encryption at rest, photo upload and file handling.
