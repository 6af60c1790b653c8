# tileserve-go, verified

Tileserve-go serves versioned map tiles. A version is an archive of tiles that is extracted to a directory and recorded in
PostgreSQL; versions arrive by upload, or by mirroring a remote server; requests are checked against users, groups,
per-map grants and API-key scopes, mostly through short-lived caches. This project models the parts of the server whose
correctness spans several functions, processes or stores, and proves what holds of them for every input and every run.

Check everything with `dafny verify dfyconfig.toml`.

## How the model is laid out

| files | what they model |
|---|---|
| `wrappers`, `numerals`, `lists`, `paths`, `entrynames` | options and results, decimal numerals with their int bounds, ordered filtering, slash-separated paths, the entry names an archive may use |
| `archive`, `tileindex`, `indexfile` | archives as entry sequences, the zip and tar extractors, the zip-streaming walk, `index.json` and its reader |
| `supervisor` | the sync manager and its worker goroutines as one transition system |
| `mirrorpull`, `mirrororder`, `mirrorpaths` | one mirrored map: its directories, rows, cached answers, sync tasks and index backfill, one file or table operation at a time, and what the operations of a pull come to in a row |
| `mirrorindex`, `mirrornames` | when a mirrored version is safe from the index backfill, and that its name is a directory of its own |
| `server`, `serverruns`, `serverfiles`, `progress`, `serverexamples` | manager, workers and mirrored maps together, the theorems about every run, what runs leave on disk, that reconciliations and triggers never get stuck, and the runs that show where hypotheses are needed |
| `syncdiff`, `geomirror`, `syncpass`, `syncmap`, `mirrorlink` | the decisions of a sync pass, what a pass leaves behind, the pass itself as a class, and that its pulls are those of the transition system |
| `upload`, `uploadpaths` | concurrent uploads to one local map, with the row lock that allocates version numbers, and the handler's way through |
| `staging` | that pulls and uploads leave no staging directory behind |
| `ttlcache`, `staleness` | the expiring cache, and cached lookups under full concurrency |
| `storemodel`, `coherence`, `store` | the tables with their cascades and the seven caches, as functions of calls and as a class |
| `authz`, `scope` | the single-map checks, the listing query, API-key scopes, version segments |
| `arraycodec`, `refresh` | the `text[]` codec, refresh-token rotation |

Two styles are used. Code that runs by itself (extractors, scanners, diffs, a sync pass, store methods, checks) is
imperative Dafny: methods with loops and classes with fields, each proved against a specification function or predicate,
about which the properties are then proved. Code whose point is what happens when several of it run at once (manager and
workers, `pullVersion`, uploads, rotations, cache fills) is a transition system: a state, the steps that can be taken in
it, an invariant kept by every step, and theorems about every run. A crash is a step that ends every task and keeps disk
and tables. Time, new identifiers, which call fails and in what order maps are iterated are free.

The single-worker guarantee of the manager is what the mirror's invariant needs: `Server.SingleWorkerGivesExclusive` is
where one proof becomes the other's hypothesis, and `MirrorPaths.TwoPullersLoseADirectory` is the run, from a fresh map,
that goes wrong without it.

## What does not hold, and exactly when it does

- A sync pass makes the geo objects of every listed version equal to the remote's if and only if no remote object's row
  is, before the pass, another map's, an unlisted version's or a later-reconciled version's: the upsert never moves a row
  (`GeoMirror.GeoConvergesIffAllHome`). That is equality by uuid and UpdatedAt. It makes them the remote's objects in all they
  hold if and only if, besides, no row dated like the remote's object differed from it before the pass
  (`GeoMirror.ContentsConvergeIff`).
- Aliases become the remote's if and only if every remote alias points at a recorded version
  (`SyncPass.AliasesConvergeIff`), and a pass as a whole mirrors if and only if `SyncPass.Mirrorable` holds before it. In
  particular a remote without a current version never clears one that is already here.
- The highest version number can be read if and only if no recorded number exceeds the largest 32-bit int
  (`Upload.HighestExistsIff`); once one does, no later step of the run reads or commits a number
  (`Upload.NumbersEndAtMaxInt`).
- Of an extracted tree the index leaves out tiles whose numbers do not fit an int (`TileIndex.IndexListsTiles`).
- Extraction succeeds if and only if no path is asked for both as a file and as a directory
  (`Archive.ExtractionSucceedsIff`); a regular tar entry named like a directory can bring that about
  (`Archive.MismatchedEntryFails`).
- The index backfill, which runs beside the manager after a start, may leave a recorded version with an index that is not
  its own. From any reachable state on a recorded version is complete whatever happens if and only if it is complete and
  the backfill does not have it in hand, between its look for `index.json` and its last write
  (`ServerFiles.StaysCompleteIff`); a version just pulled is safe for good if and only if it was not in hand when it was
  renamed into place (`ServerFiles.PullIsSafeIff`); and a backfill that gets to the end leaves a recorded version complete
  if and only if its scan missed none of the tiles (`ServerFiles.BackfillLeavesCompleteIff`). A run from the initial state
  gets there (`ServerExamples.BackfillReplacesAnIndex`).
- After shutdown two workers of one remote can be live, for `Stop` runs beside `reconcile` and empties the worker map
  without waiting (`ServerExamples.StopDuringReconcileDoublesAWorker`); of any two, one was born with a cancelled context
  and starts no map sync (`ServerRuns.AtMostOneWorker`).
- An invalidation does not stop a fill that is already under way, and the staleness bound is attained
  (`Staleness.BoundIsAttained`).
- A cached permissions row, grant, alias, key or scope entry differs from the tables only if a call of the kind its cache
  does not follow left it behind (`Coherence.WrongEntryWasLeftBehind`), and for each such entry a run does so
  (`Coherence.EveryEntryCanLag`): an alias of a deleted map, a revoked key, a cleared scope, a grant of a group the user
  has left, permissions whose update could not be read back.
- After Clear and a grant of one map a key is let in at another map as well if and only if an entry for that one is still
  cached (`Scope.ClearedEntryRevivesIff`).
- Someone may upload to a map without seeing it if and only if the global create flag is all the user has
  (`Authz.UploadWithoutViewIff`).

## Where comments and code differ

The model follows the code.

- `internal/store/api_keys.go:45-48` says a key with no scopes set is unrestricted regardless of its flag; in the code a
  scoped key whose last entry is deleted reaches nothing.
- `internal/sync/manager.go:71-73` says every worker has been stopped when `Start` returns; `Stop` cancels without
  waiting, so workers may outlive it, and `cmd/tileserve-go/main.go:265-268` calls it beside a reconcile that may then
  start workers anew. Until shutdown a remote has at most one live worker; after it, at most one that can still sync.
- `internal/sync/sync.go:97-103` says the geo-object diff is what makes local match remote; see above for when it does.
- `internal/store/maps.go:159-160` describes the visibility bypass as admin, edit or delete; the handler passes all six
  flags of `GrantsMapVisibility`.
- `internal/webserver/maps.go:191-192` names three per-map grants that imply visibility; the code has five.

## Model

| member | source | states |
|---|---|---|
| Numerals.DigitsOfItoa | internal/store/maps.go:310 | reading a printed version number back gives the number |
| Numerals.ItoaInjective | internal/store/maps.go:310 | different version numbers have different directory names |
| Numerals.AtoiOfItoa | internal/tilearchive/index.go:82-85 | Atoi inverts Itoa exactly up to the largest int and fails beyond it |
| Numerals.AtoiOfItoaInt | internal/tilearchive/index.go:82-85 | the same with a sign, down to the smallest int |
| Paths.TargetIsBelowDest | internal/tilearchive/extract.go:281-327 | every valid name resolves strictly below the clean staging directory, every other name is skipped; the containment test rejects no valid name |
| Paths.SplitOfJoin | internal/webserver/map_archive.go:59-67 | the relative path a zip entry is named by splits back into the same segments |
| Paths.TilePathHasNoDotDot | internal/tilearchive/extract.go:244-247 | the parent-traversal test never skips a valid tile name |
| EntryNames.EntryNamesIff | internal/tilearchive/extract.go:281-327 | a name is accepted if and only if, slashes in front aside, it spells numeric directories with a slash behind or a numeric png below numeric directories without one, and then it resolves to just that path below the staging directory |
| Archive.ExtractInto | internal/tilearchive/extract.go:135-174 | the extraction loop yields the entries' combined effect, or the first file-system error |
| Archive.StepSucceedsIff | internal/tilearchive/extract.go:181-222 | an entry is placed if and only if nothing that is there needs its path, or one above it, to be of the other kind |
| Archive.ExtractionSucceedsIff | internal/tilearchive/extract.go:135-222 | for every list of entries: extraction succeeds if and only if no path is asked for both as a file and as a directory, in either order, and then yields the last-writer tree |
| Archive.ExtractionIsLastWriterWins | internal/tilearchive/extract.go:229-272 | extraction of matched entries succeeds with a tree that holds exactly the accepted files, each with its last writer's contents, and exactly the directories they need |
| Archive.LastWriterTreeIsUnique | internal/tilearchive/extract.go:229-272 | that description determines the tree |
| Archive.ZipAndTarAgree | internal/tilearchive/extract.go:130-174 | zip and tar give the same tree for the same matched entries, whatever the staging directory |
| Archive.MismatchedEntryFails | internal/tilearchive/extract.go:199-221 | the concrete archive for which it does not |
| Archive.TileIsStored | internal/tilearchive/extract.go:229-272 | a tile's entry ends up under its path with its contents, with the directories above it, and changes nothing else |
| Archive.DirectoryIsMade | internal/tilearchive/extract.go:181-222 | a directory's entry makes the directory, in a tar also without the slash |
| Archive.SkippedLeavesNoTrace | internal/tilearchive/extract.go:135-222 | links, special files in a tar and names with a parent traversal change nothing |
| Archive.ZipDirectory | internal/webserver/map_archive.go:54-78 | the walk writes one entry for every file and none for a directory, in walk order |
| Archive.ZipThenExtract | internal/webserver/map_archive.go:54-78 | zipping a directory and extracting it keeps exactly the tile files with their contents and drops the rest |
| TileIndex.ReadDir | internal/tilearchive/index.go:70-73 | every name in a directory, each once |
| TileIndex.ScanZoomTiles | internal/tilearchive/index.go:100-134 | the coordinates of exactly the tiles below one zoom directory, each as often as it occurs |
| TileIndex.ScanTileCoords | internal/tilearchive/index.go:69-96 | the coordinates of exactly the tree's depth-three numeric tiles |
| TileIndex.SortTiles | internal/tilearchive/index.go:43-53 | the same tiles ordered by z, then x, then y |
| TileIndex.SortedIsUnique | internal/tilearchive/index.go:43-53 | two sorted lists of the same tiles are equal, so the unstable sort and the directory order do not matter |
| TileIndex.WriteTileIndex | internal/tilearchive/index.go:37-65 | the directory gains an index.json that depends only on which tiles there are, and nothing else changes |
| TileIndex.IndexListsTiles | internal/tilearchive/index.go:35-65 | of an extracted tree the index lists a path if and only if it is a depth-three tile whose numbers fit an int |
| IndexFile.DecodeOfEncode | internal/tilearchive/index.go:28-65 | reading the bytes by the field names tiles, z, x and y gives back every list of tiles, the null written for none included |
| IndexFile.IndexFileListsTiles | internal/tilearchive/index.go:28-65 | what a reader of index.json gets is ordered by z, x, y and has a coordinate if and only if the directory has the file z/x/y.png with those numbers, each file once |
| TileIndex.MirrorReproducesVersion | internal/sync/sync.go:457-488 | zip, extraction and a rebuilt index reproduce the same tile files, contents and index.json |
| Supervisor.StartKeepsCensus | internal/sync/manager.go:161-176 | a worker started after the wait is its remote's only live one |
| Supervisor.TriggerKeepsInv | internal/sync/manager.go:251-269 | a signal put into the slot, or found there, keeps every accepted trigger held |
| Supervisor.PassKeepsInv | internal/sync/worker.go:30-46 | a pass answers the triggers of its remote, unless it was cancelled, and then they are held elsewhere |
| Supervisor.StepKeepsInv | internal/sync/manager.go:74-224 | every step of reconciler, workers, Trigger and Stop, in any order, keeps handles, channels, the census of workers whose context was live at birth, the reconciled set and every accepted trigger |
| Supervisor.ScanLeavesIff | internal/sync/manager.go:133-150 | the scan leaves a worker exactly as it is if and only if its remote is wanted and base URL, key, poll interval and the three policy settings equal those of the row; another one is cancelled, waited for and, if wanted, restarted with the row |
| Supervisor.TriggerAcceptedIff | internal/sync/manager.go:248-269 | a trigger is refused exactly for a remote without a worker, and otherwise leaves a signal in the channel, put there if it was empty |
| Supervisor.StopCancels | internal/sync/manager.go:212-224 | every worker in the map is cancelled and the map emptied |
| MirrorPull.TaskStepKeepsInv | internal/sync/sync.go:444-498 | every file and table operation of a sync task, failures between any two included, keeps every recorded version complete and every answer resolving to a recorded version |
| MirrorPull.StageStepKeepsRest | internal/sync/sync.go:457-475 | up to the clearing a pull works in its staging directory only, and leaves the tree there as the next operation needs it |
| MirrorPull.ClearingKeepsRest | internal/sync/sync.go:478-483 | clearing, complete or not, removes only the unrecorded version being pulled |
| MirrorPull.RenameKeepsRest | internal/sync/sync.go:485-488 | the rename puts a complete directory in place, whose index is promised unless the backfill has the version in hand |
| MirrorPull.BackfillKeepsInPlace | internal/tilearchive/index.go:175-208 | whatever the backfill writes, and whenever, leaves every recorded directory its tiles, and its index unless the version was in hand when it was renamed |
| MirrorIndex.TaskKeepsSettled | internal/sync/sync.go:444-498 | no sync task makes a recorded and complete version incomplete, or puts it into the backfill's hands |
| MirrorIndex.NextWriteHarms | internal/tilearchive/index.go:37-65 | opening the index file of a version in hand, or finishing an index that is half written, leaves bytes that are not its index |
| MirrorIndex.BackfillCompletes | internal/tilearchive/index.go:175-208 | undisturbed, the backfill gives a version directory without index.json the index of its tiles and changes nothing else |
| MirrorIndex.CachesAreFilledAndDropped | internal/webserver/maps.go:366-382 | an answer that was read can be stored, is then what the cache holds, and goes when it is dropped |
| Staging.NoStagingIsLeft | internal/sync/sync.go:466-493 | in every run from an empty staging area, as long as nothing crashes and no removal fails, every staging directory of a mirrored map is that of a pull still under way |
| MirrorPull.RecordKeepsInv | internal/sync/sync.go:485-493 | recording happens only with the complete directory in place |
| MirrorPull.EnvKeepsInv | internal/webserver/maps.go:366-382 | remote publications, cache reads, fills and drops, and the backfill's looks and writes, at any time, keep the invariant |
| MirrorPull.CrashKeepsInv | internal/sync/sync.go:441-443 | so does a crash between any two operations |
| MirrorPaths.PullPath | internal/sync/sync.go:444-498 | the operations of a pull that meets no failure come, in a row, to the extracted and indexed directory in place and the version recorded with its listed time |
| MirrorPaths.TwoPullersLoseADirectory | internal/sync/manager.go:152-159 | with two tasks on one map: a run from a fresh map that ends with a recorded version without a directory |
| MirrorOrder.RecordKeepsTaskOrder | internal/sync/sync.go:266-273 | recording the head of the queue leaves no strictly older listed version missing |
| MirrorOrder.TaskStepKeepsOrder | internal/sync/sync.go:243-298 | every operation of a sync task keeps the local history downward closed by creation time |
| MirrorOrder.EnvKeepsOrder | internal/sync/sync.go:249-261 | so do the remote's publications as long as they come in order, even against version lists read earlier |
| Server.SingleWorkerGivesExclusive | internal/sync/manager.go:152-176 | the manager's census implies that at most one sync task works on a mirrored map |
| Server.StepKeepsInv | internal/sync/sync.go:199-234 | every step of the running server keeps the manager's and every map's invariant at once |
| ServerRuns.RecordedVersionsAreInPlace | internal/sync/sync.go:424-498 | in every run, the backfill beside it included, every recorded version has a directory equal to its extracted archive plus an index |
| ServerFiles.RecordedVersionsStayComplete | internal/sync/sync.go:424-498 | it is the right one, now and in every continuation, in every run in which no pull renamed the version into place while the backfill had it in hand |
| ServerFiles.StaysCompleteIff | internal/tilearchive/index.go:175-208 | from any reachable state on, a recorded version is complete in every continuation if and only if it is complete and the backfill does not have it in hand |
| ServerFiles.PullIsSafeIff | internal/sync/sync.go:478-493 | a version renamed and recorded is complete in every continuation if and only if the backfill did not have it in hand at the rename |
| ServerFiles.BackfillLeavesCompleteIff | internal/tilearchive/index.go:37-65 | in every run a backfill that gets to the end leaves a recorded version complete if and only if it saw every one of its tiles |
| IndexFile.IndexOfSomeIff | internal/tilearchive/index.go:37-65 | the index file of some of a version's tiles is that of all of them if and only if they are all of them |
| ServerFiles.VersionsHaveTheirOwnDirectories | internal/sync/sync.go:478-485 | in every run each version that is listed, recorded or on disk has a directory right below its map's, and no two the same one |
| ServerRuns.AtMostOneWorker | internal/sync/manager.go:152-176 | in every run at most one worker goroutine per remote is live until shutdown, and at most one that was not born cancelled ever |
| ServerRuns.AnswersAreComplete | internal/webserver/maps.go:366-382 | in every run "current" and aliases, cached or not, resolve only to recorded versions with their directory in place, complete unless the backfill had them in hand |
| ServerRuns.OldestVersionsFirst | internal/sync/sync.go:24-42 | if the remote publishes in order, then across any number of interrupted passes no missing version is strictly older than a present one |
| ServerRuns.AcceptedTriggerIsHeld | internal/sync/manager.go:248-269 | from its acceptance until a pass answers it, the remote is dropped or the server shuts down, a trigger is in a live worker's slot or in a restart that begins with a pass |
| ServerRuns.FullChannelAddsNoPass | internal/sync/manager.go:260-266 | every signal taken was put into an empty slot, and a trigger that finds it full changes no worker |
| ServerRuns.DesiredWasListed | internal/sync/manager.go:117-123 | what a reconciliation works towards is the enabled rows it read when it began |
| ServerRuns.ReconcileOutcome | internal/sync/manager.go:125-177 | when reconcile returns, the running workers are exactly the remotes enabled in the table it read, each with the base URL, key, poll interval, syncAllMaps, syncNewMaps and syncGeoObjects of its row |
| ServerRuns.AgreeingWorkerIsKept | internal/sync/manager.go:133-190 | in every run a worker whose six settings are those of its enabled row keeps running through the reconciliation, the same one and uncancelled |
| ServerRuns.ShutdownCancelsEveryone | internal/sync/manager.go:192-224 | after shutdown every worker goroutine is cancelled, whenever it was started |
| Progress.ReconcileCanFinish | internal/sync/manager.go:125-177 | from every reachable state inside a reconciliation, whatever workers and syncs are doing, some continuation of the run without a crash or Stop ends it, with workers for exactly the rows it read: the wait for cancelled workers blocks nothing it waits for |
| Progress.TriggerCanBeServed | internal/sync/worker.go:35-46 | from every reachable state before shutdown in which a trigger was accepted and not yet answered, some continuation without a crash or Stop begins a pass of that remote's worker |
| Progress.StartCanReturn | internal/sync/manager.go:74-94 | from every reachable state after shutdown some continuation without a crash lets Start return, with the worker map empty |
| ServerExamples.StopDuringReconcileDoublesAWorker | cmd/tileserve-go/main.go:265-270 | a run from the initial state with two live workers of one remote after shutdown |
| ServerExamples.BackfillReplacesAnIndex | cmd/tileserve-go/main.go:234-238 | a run from the initial state after which a recorded version has an index that is not its own |
| SyncDiff.VersionsToPull | internal/sync/sync.go:28-42 | exactly the versions that are not local, oldest first |
| SyncDiff.SortByCreation | internal/sync/sync.go:37-39 | a permutation in creation order |
| SyncDiff.ReconcileAliases | internal/sync/sync.go:49-73 | exactly the remote aliases that are new or point elsewhere, and exactly the local names the remote lacks |
| SyncDiff.ReconcileGeoObjects | internal/sync/sync.go:104-125 | exactly the remote objects that are new or dated differently, and exactly the local ones the remote lacks |
| SyncDiff.MapsToSync | internal/sync/sync.go:85-95 | exactly the selected maps and, if wanted, the unknown ones, in the remote's order |
| GeoMirror.RowsAreIndependent | internal/sync/sync.go:375-385 | what a pass does to a row depends on that row and the remote's objects of its uuid only |
| GeoMirror.Unlisted | internal/sync/sync.go:414-419 | a row whose uuid the remote does not list is deleted if it is this map's and a listed version's, and stays otherwise |
| GeoMirror.Listed | internal/store/sync_geo_objects.go:17-40 | a listed uuid's row ends under its version with the remote's date, or, if it was out of place, under none of the listed versions |
| GeoMirror.GeoConvergesIffAllHome | internal/sync/sync.go:389-422 | a pass makes every listed version's objects equal to the remote's by uuid and UpdatedAt if and only if every remote object's row was in place |
| GeoMirror.SyncVersionReconciles | internal/sync/sync.go:389-422 | row by row what one version's reconciliation leaves: an absent or redated row becomes the remote's object, fields included, keeping only its own map and version; one with the same date stays; one the remote lacks goes if it is this version's |
| GeoMirror.ListedRowIsRemotes | internal/store/sync_geo_objects.go:17-40 | after a pass over all versions a listed uuid whose row was in place equals the remote's object in every component, unless its date was the object's already, and then it is unchanged |
| GeoMirror.ContentsConvergeIff | internal/sync/sync.go:389-422 | a pass leaves every listed version exactly the remote's objects, contents and all, if and only if every object's row was in place and rows dated like their object equalled it |
| SyncPass.AliasPassIsFinal | internal/sync/sync.go:334-361 | name by name: the remote's target once it is recorded, the old target until then, and no other names |
| SyncPass.AliasesConvergeIff | internal/sync/sync.go:317-364 | the alias tables become equal if and only if every remote alias points at a recorded version |
| SyncPass.GeoPassIsSyncVersion | internal/sync/sync.go:402-419 | the upsert and delete loops amount to the row-by-row rule |
| SyncPass.PassMirrorsIff | internal/sync/sync.go:236-298 | an error-free pass against an unchanging remote makes row, versions, aliases, current version and geo objects mirror it if and only if its targets are listed and nothing is in the way |
| SyncPass.PassCopiesContentsIff | internal/sync/sync.go:236-298 | the same of the geo contents for the whole error-free pass |
| SyncPass.SecondPassFindsNothing | internal/sync/sync.go:261-273 | against a mirrored remote every diff of a further pass is empty |
| SyncPass.SecondPassChangesNothing | internal/sync/sync.go:243-298 | and the pass leaves every row and directory as it is |
| SyncMap.Mirror.LocalVersions | internal/sync/sync.go:302-315 | for each listed version, whether it is recorded |
| SyncMap.Mirror.PullVersion | internal/sync/sync.go:444-498 | exactly what success and each failure leave of rows and directories; no recorded version is harmed |
| SyncMap.Mirror.ReconcileMapAliases | internal/sync/sync.go:321-364 | the loops compute the alias pass, and even a failed run leaves every alias at a recorded version |
| SyncMap.Mirror.SyncGeoObjectsForVersion | internal/sync/sync.go:389-422 | the loops compute the geo pass of one version, and fail only if a call fails or an object refers to a version that does not exist; without error a listed object whose row was absent or dated otherwise is the remote's afterwards in every field, and unlisted rows of the version are gone |
| SyncMap.Mirror.SetCurrent | internal/store/sync_maps.go:84-103 | the current version advances only to a recorded version, and an unrecorded one is no error |
| SyncMap.Mirror.SyncMap | internal/sync/sync.go:243-298 | without error, the whole pass is done; with one, at whichever call, what was recorded stays, whatever came was listed, came oldest first and is complete, and aliases and current version stay at recorded versions |
| SyncMap.PulledInOrder | internal/sync/sync.go:261-273 | however far the pulls of a pass get, no version came before one that is strictly older |
| MirrorLink.PullVersionIsReached | internal/sync/sync.go:444-498 | every outcome of the sequential pull, success or failure, is reached by operations of one task of the transition system in a row |
| MirrorLink.AliasPassIsReached | internal/sync/sync.go:321-364 | and what the sequential pass does to aliases and the current version is what the task's operations lead to |
| Upload.StepKeepsInv | internal/webserver/upload.go:41-64 | every step of concurrent uploads, current-version edits, the index backfill, failures and crashes keeps the row lock honest, the numbers increasing and the directories inside the recorded versions |
| Upload.RunKeepsInv | internal/webserver/upload.go:21-70 | so every reachable state of any interleaving satisfies the invariant |
| Upload.VersionsIncrease | internal/store/maps.go:286-288 | the numbers given in any run increase strictly, each to an upload of its own |
| Upload.CommitIsFresh | internal/store/maps.go:279-284 | a commit gives the highest recorded number plus one, or 1 to a map without versions, whatever current_version was set to, records just that and makes it current |
| Upload.CurrentIsLastPut | internal/store/maps.go:233-254 | an edit of the current version lasts until the next edit or commit |
| Upload.RenameIsNeverBlocked | internal/webserver/upload.go:60-64 | the rename target never exists already |
| Upload.DirectoryIsItsUploads | internal/webserver/upload.go:43-64 | a version's directory holds its own upload's archive and index, and every directory is a recorded version's |
| Upload.DirectoryStays | internal/webserver/upload.go:60-64 | once in place a version's directory never changes if it has an index, and otherwise but for the index the backfill gives it, all of it or, cut off, a part |
| Upload.UploadNeverChanges | internal/webserver/upload.go:43-64 | an upload's directory never changes, the index backfill and crashes included |
| Upload.HighestExistsIff | internal/store/maps.go:306 | the highest number can be read if and only if no recorded number exceeds the largest 32-bit int |
| Upload.NumbersEndAtMaxInt | internal/store/maps.go:289-337 | once one does, no later step of the run reads the highest number or commits a new one |
| Upload.BackfillCompletes | internal/tilearchive/index.go:175-208 | the backfill of an uploaded version, opened and written to the end, leaves the index of its tiles |
| UploadPaths.UploadSucceeds | internal/webserver/upload.go:21-70 | from every reachable state with the row lock free an undisturbed upload records the highest number plus one, makes it current, puts the archive's tiles and their index in its directory, and leaves everything else as it was |
| UploadPaths.UploadSucceedsIff | internal/webserver/upload.go:21-70 | left to itself it gets to the end if and only if the archive extracts and all recorded numbers fit a 32-bit int |
| Staging.NoUploadIsLeft | internal/webserver/upload.go:43-64 | and of a local map, that of an upload still under way |
| TtlCache.Cache.Get | internal/store/cache.go:30-41 | a hit is an entry that has not expired, the instant of expiry included |
| TtlCache.Cache.Set | internal/store/cache.go:43-47 | the next lookup hits, and the entry lives for the ttl |
| TtlCache.Cache.Invalidate | internal/store/cache.go:49-53 | no later lookup hits until the next set |
| TtlCache.HitIffLastPut | internal/store/cache.go:30-63 | after any sequence of operations a lookup hits if and only if the last one on its key was a set within the ttl, and yields its value |
| Staleness.StepKeepsInv | internal/store/maps.go:210-229 | every interleaving of reads, fills, writes, invalidations and restarts keeps each entry traceable to a read |
| Staleness.HitsAreBounded | internal/store/cache.go:30-53 | a value returned at t was the database's answer at an instant no earlier than t minus the ttl minus that fill's delay |
| Staleness.BoundIsAttained | internal/store/cache.go:30-53 | and no better bound holds, invalidation or not |
| Staleness.EntryIffFilled | internal/store/cache.go:30-63 | in every run an entry is there if and only if some fill put it there and its key was not invalidated, cleared or filled since |
| StoreModel.CallsKeepKeys | internal/store/store.go:179-197 | every call, cascades included, leaves no dangling foreign key |
| Coherence.OtherCallsKeepPermissions | internal/store/store.go:322-351 | only the calls that name the user, or change a group, can change what the permissions query yields |
| Coherence.CurrentVersionHitsAreExact | internal/store/maps.go:205-229 | in non-overlapping runs every current-version and map hit equals the row, whatever the ttl |
| Coherence.PermissionHitsAreExact | internal/store/store.go:322-351 | every permissions hit is the OR over the user row and all its groups, as long as no update failed after its commit |
| Coherence.StepKeepsEntry | internal/store/map_permissions.go:74-119 | a cached permissions row, grant, alias, key or scope entry stays exact across every call but those its cache does not follow |
| Coherence.WrongEntryWasLeftBehind | internal/store/group_membership.go:97-103 | in every run, an entry that differs from the tables was cached when such a call committed, and has been ever since |
| Coherence.EveryEntryCanLag | internal/store/map_version_aliases.go:63-83 | for every entry of the five caches a run leaves it different from the tables |
| Coherence.MembershipResyncLeavesGrant | internal/store/group_membership.go:97-103 | among them a grant to edit that outlives the membership it came from |
| Coherence.FailedRereadLeavesPermissions | internal/store/users.go:186-191 | an update that fails on its second read leaves the old permissions cached |
| Coherence.CallsKeepCoherent | internal/store/groups.go:131-186 | all other calls keep all seven caches exact at once |
| Store.CoherentAnswers | internal/store/maps.go:190-229 | with coherent caches every lookup answers what the tables say |
| Store.Store.GetPermissions | internal/store/store.go:322-351 | a hit answers from the cache, a miss with the query's answer, which is then cached unless the user does not exist |
| Store.Store.GetMapPermission | internal/store/map_permissions.go:74-119 | a miss always caches, the absence of any grant included |
| Store.Store.ResolveAPIKeySigningKey | internal/store/api_keys.go:159-181 | a hit answers whatever became of the key, a miss only for an active key |
| Store.Store.ResolveAPIKeyMapScope | internal/store/api_key_scopes.go:275-304 | the flag comes from the cached key or the row, the entry only for a scoped key |
| Store.Store.UpdateMap | internal/store/maps.go:233-254 | name, current version and both flags are the given ones, each in its column, and are what the next lookups see |
| Store.Store.CreateMap | internal/store/maps.go:97-119 | the new row has the given name, current version and flags, and its creator as owner; every other table stays |
| Store.Store.RecordSyncedMapVersion | internal/store/sync_maps.go:60-70 | the version is recorded, whether or not it was, and nothing else |
| Store.Store.UpsertSyncedMap | internal/store/sync_maps.go:18-38 | the row is created or overwritten, its current version left as it was |
| Store.Store.SetSyncedCurrentVersion | internal/store/sync_maps.go:84-103 | succeeds exactly for a recorded version, which then is the answer |
| Store.Store.IncrementMapVersion | internal/store/maps.go:289-337 | the new number is what both caches' next lookups answer |
| Store.Store.DeleteMap | internal/store/maps.go:382-396 | the map is gone at once for map lookups, its versions, aliases, grants and scopes go with it, and no other row does |
| Store.Store.UpdateUser | internal/store/users.go:157-194 | after a call that returns without error the permissions answer is exact |
| Store.Store.CreateUser | internal/store/users.go:125-150 | the new user has exactly the given flags; an existing one is refused |
| Store.Store.UpdateGroup | internal/store/groups.go:131-167 | flags, name and links are replaced unless the group is missing or another one has the name or a link; then both permission caches answer exactly for everyone |
| Store.Store.DeleteGroup | internal/store/groups.go:172-186 | both permission caches answer exactly for everyone, and the group's name and links go with it |
| Store.Store.SetMapPermission | internal/store/map_permissions.go:186-218 | the grant answer for that user and map is exact afterwards |
| Store.Store.DeleteMapPermission | internal/store/map_permissions.go:221-232 | that user's grant on that map goes, and no other |
| Store.Store.SetGroupMapPermission | internal/store/group_map_permissions.go:62-93 | the grant answer is exact for every user and map |
| Store.Store.DeleteGroupMapPermission | internal/store/group_map_permissions.go:97-108 | that group's grant on that map goes, and no other, and every grant answer is exact |
| Store.Store.SetMapVersionAlias | internal/store/map_version_aliases.go:106-127 | succeeds exactly for a recorded version, which then is the answer |
| Store.Store.CreateAPIKey | internal/store/api_keys.go:83-103 | the new key is its user's, active and unrestricted, with the given public key |
| Store.Store.RevokeAPIKey | internal/store/api_keys.go:125-138 | succeeds exactly for the user's own active key, which is revoked and otherwise unchanged |
| Store.Store.SetAPIKeyScope | internal/store/api_key_scopes.go:148-186 | succeeds exactly for the user's own active key and an existing map, and the entry is the answer at once |
| Store.Store.DeleteAPIKeyScope | internal/store/api_key_scopes.go:193-209 | a scoped key loses the map at once |
| Store.Store.ClearAPIKeyScope | internal/store/api_key_scopes.go:215-241 | the key is unrestricted for every map at once, whatever is cached |
| Store.Store.ReplaceGroupMembership | internal/store/group_membership.go:79-106 | all or nothing: the user's groups become exactly the given ones, or nothing changes |
| Store.Store.GetOrCreateGroup | internal/store/group_membership.go:137-177 | a linked value keeps its group; another gets a group that grants nothing, under its display name or, if that is taken, with the suffix, and none exactly if that is taken too or no suffix could be drawn |
| Store.Store.SyncGroupMembership | internal/store/group_membership.go:50-70 | the user ends up in exactly the groups linked to its nonblank directory values, or, if a group could not be created or the user is unknown, where it was; nobody else's membership changes, and no permission is gained by a group's creation |
| Authz.AnyFlagCommutes | internal/store/map_permissions.go:53-55 | any flag of the column-wise OR is any flag of one of the rows |
| Authz.QueryAgreesWithCheck | internal/store/maps.go:162-184 | the query's condition and the single-map check agree on every map |
| Authz.UserCanViewMap | internal/webserver/maps.go:206-226 | with coherent caches the check decides by the tables, and changes no table |
| Authz.CanViewMap | internal/webserver/maps.go:195-202 | scope is asked only of what the user may see |
| Authz.OwnerOrMapAllowed | internal/webserver/maps.go:135-151 | owner or grant; a map that does not exist is no error |
| Authz.RequireMapPermission | internal/webserver/maps.go:99-130 | with coherent caches the check decides by the tables |
| Authz.MayByColumns | internal/webserver/maps.go:99-151 | by record fields, for each of the five rights: allowed if and only if a row of the user exists and has isAdmin or the right's own global column, or the user owns the map, or a grant of the user or its groups has the right's own column, and the key, if any, admits the map |
| Authz.ViewGrantsNothingElse | internal/webserver/maps.go:135-151 | whoever has no flag and no grant but that to view is refused all five |
| Authz.CanViewByColumns | internal/webserver/maps.go:195-226 | the same of viewing, with every column that implies it |
| Authz.GlobalColumns | internal/store/store.go:322-351 | each global flag is the OR of its own column over the user row and its groups |
| Authz.GrantColumns | internal/store/map_permissions.go:74-119 | and each per-map flag that of its own column over the grants |
| Authz.FilterMapsByAPIKeyScope | internal/webserver/maps.go:451-471 | exactly the maps in scope, in order, or an error if one of them cannot be checked |
| Authz.MapsList | internal/webserver/maps.go:404-446 | the listing holds exactly the maps for which the single-map check succeeds, and fails exactly if the user has no permissions row or a key cannot be checked |
| Authz.UploadWithoutViewIff | internal/webserver/upload.go:28-33 | a request may upload to a map it may not see if and only if the key admits the map and the global create flag is the user's only right to it |
| Authz.AddingGrantsAtLeast | internal/store/store.go:311-313 | creating users and groups, raising flags, adding memberships and raising grants only add |
| Authz.GrantsNeverRefuse | internal/webserver/maps.go:94-98 | no such call turns an allowed request into a refused one |
| Scope.EntryIffLastGranted | internal/store/api_key_scopes.go:148-241 | over every run a key has an entry for a map if and only if the last call concerning it granted the map, with that call's versions |
| Scope.ReachIffLastGranted | internal/store/api_key_scopes.go:308-315 | over every run a scoped key reaches a map if and only if the last call concerning its entry was a grant |
| Scope.ScopedNeverReachesAll | internal/store/api_key_scopes.go:308-315 | a scoped key never reaches every map |
| Scope.OnlyClearRestores | internal/store/api_key_scopes.go:211-241 | between a scoped state and one of full reach a Clear of the key was committed |
| Scope.ClearedEntryRevivesIff | internal/store/api_key_scopes.go:234-238 | after Clear and a grant of one map, another one is admitted if and only if its entry is still cached, and never by the tables |
| Scope.WrongScopeAnswerWasLeftBehind | internal/store/api_key_scopes.go:275-304 | in every run, a scope answer that differs from the tables' rests on a cached key or entry left behind by a revocation, a Clear or a deletion, and cached ever since |
| Scope.ApiKeyMapVersionAllowed | internal/store/api_key_scopes.go:321-340 | in scope, and on the whitelist if there is one |
| Scope.VersionAdmittedIff | internal/store/api_key_scopes.go:321-340 | a version is admitted if and only if there is no key, or an active unscoped one, or an entry for the map that lists no versions or this one; it is an error exactly for an unknown or revoked key |
| Scope.FilterVersions | internal/webserver/maps.go:615-627 | the whitelisted versions in order, or all of them without a whitelist |
| Scope.ListingIsExactIff | internal/webserver/maps.go:598-631 | the listing shows exactly the versions the version check admits if and only if the map check before it passes; past a refusal it would show all while none is admitted |
| Scope.ResolveVersionSegment | internal/webserver/maps.go:366-400 | the one way to a version: the map's current version for "current", digits for themselves, the alias's target for anything else, and only if the key's scope admits that version |
| ArrayCodec.Scan | internal/store/api_key_scopes.go:28-80 | the loop parses the literal, NULL becomes nil, other types are an error |
| ArrayCodec.Value | internal/store/api_key_scopes.go:84-114 | every element quoted and escaped, nil becomes NULL |
| ArrayCodec.ParseOfLiteral | internal/store/api_key_scopes.go:259-291 | Scan inverts every way of quoting that leaves bare only nonempty elements without quote or comma |
| ArrayCodec.ScanInvertsIffReadable | internal/store/api_key_scopes.go:45-77 | and no other: one such element left bare is lost |
| ArrayCodec.ScanOfValue | internal/store/api_key_scopes.go:28-114 | Scan inverts Value on every array, nil, empty and every special character included |
| ArrayCodec.ScanInvertsPostgres | internal/store/api_key_scopes.go:28-80 | and inverts PostgreSQL's own minimal quoting (section 8.15.6 of its manual) |
| ArrayCodec.PostgresReadsValue | internal/store/api_key_scopes.go:84-114 | PostgreSQL, reading a literal by the rules of the same section, gets from Value the array it was given |
| Refresh.StepKeepsInv | internal/store/refresh_tokens.go:59-131 | every step of concurrent rotations, logins, aborts and crashes keeps the redemption history sound |
| Refresh.RedeemedAtMostOnce | internal/store/refresh_tokens.go:75-80 | in every run each token is redeemed at most once |
| Refresh.OneLine | internal/store/refresh_tokens.go:84-121 | the tokens descending from one token form a single line |
| Refresh.OneSessionPerLogin | internal/store/refresh_tokens.go:59-131 | two tokens of one login are on one line, the same user's, and at most one of them is unrevoked |
| Refresh.CommitWasChecked | internal/store/refresh_tokens.go:81-103 | in every run a rotation that commits compared, at some earlier step of its own, the time with its token's expiry and found it not past |
| Refresh.TokenLivesItsTtl | internal/store/refresh_tokens.go:59-131 | every token expires its ttl after the login or the rotation that generated it |
| Refresh.RotationSucceedsIff | internal/store/refresh_tokens.go:59-131 | undisturbed, a rotation succeeds if and only if the token exists, is unrevoked and not past its expiry, that instant included; then exactly it is revoked and the new token is the same user's for its ttl |
| Refresh.FailedRotationLeavesNoTrace | internal/store/refresh_tokens.go:81-131 | a rotation that fails, at whatever point, has changed no token and lets go of the row |
| Refresh.LoginsStayApart | internal/store/refresh_tokens.go:59-73 | lines of different logins never meet |
| Refresh.LineOf | internal/store/refresh_tokens.go:115-118 | every token is on the line of some login |

## Left out

- HTTP, JSON, status codes, audit records, the sync log, client addresses and query parameters: they carry the answers proved here.
- Password hashing, JWTs, LDAP and OIDC, key generation: a token stands for its hash, new identifiers are new.
- The bytes of zip, tar and gzip files and the sniffing of formats: an archive is a sequence of entries. Download size caps are failures.
- `internal/webserver/map_bounds.go`: floating-point geometry over a minimum and maximum.
- Strings are sequences of characters: invalid UTF-8, which range loops replace, does not occur.
- Fairness and timeouts of schedulers, networks and the remote: progress is stated as a continuation that exists, convergence of passes that finish.
- GeoMirror.ContentsConvergeIff: a geo object's creation stamps, which the upsert leaves as they were, are not modelled.
- Deleting a map while it is uploaded to or pulled, two remotes mirroring one map, uploads to mirrored maps: the code promises nothing there.
- Loss of file data at a power failure: a rename or write that returned has happened.
- The bound of four concurrent map syncs per remote: the model allows any number.
- Supervisor.StepKeepsInv: manager and workers are a transition system rather than a class, because what is promised is about their interleaving; the same goes for the upload handler, rotation and the concurrent cache.
- Server.StepKeepsInv: geo objects and map names are not part of the interleaved machine; they are in the pass of `syncmap`.
- Server.SingleWorkerGivesExclusive: within one pass a map occurs at most once in the remote's list, as its primary key guarantees.
- SyncMap.Mirror.SyncMap: calls fail from some point on and do not recover within the pass, which is all a pass that returns at its first error can see.
- Store.Store.GetOrCreateGroup: calls do not overlap here, so the second look-up after a refused insert finds nothing; how a display name is cut from an LDAP name is a parameter.
- MirrorPull.EnvKeepsInv: a remote that does not number its versions; `internal/sync/client.go:42-46` has it run this same code, and names other than numerals are not published here.
- SyncMap.Mirror.PullVersion: version names stand for their directories, as `ServerFiles.VersionsHaveTheirOwnDirectories` has it for numerals. The sequential pull runs without the index backfill beside it; the transition system has both.
- Store.Store.UpdateUser: the password is not modelled.
- Coherence.CurrentVersionHitsAreExact: the map row's remote id, which deleting a remote clears without touching the cache, is not modelled; nor are timestamps and creators.
- Refresh.OneSessionPerLogin: deleting a user, which removes all its tokens, is not a step.
- Authz.MapsList: name, creator and flag filters narrow the query further and are not modelled; neither is the order of rows.
- The global checks that take no map (`RequirePermission`, `requireMapAdmin`) and the anonymous route: each is settled by its own body.
