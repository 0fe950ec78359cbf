# freqhole: verified models of its crash-safe and order-sensitive parts

This project models five parts of freqhole in Dafny and proves what they promise for every input, every
run and every place where the power can fail.

- **Moving storage** (`grimoire/src/storage_migration.rs`). A change of the data or fetch directory is
  queued as a journal file and carried out at the next start: plan, copy and verify, rewrite the paths in
  the databases, repair the transport index, switch preferences and config, delete the sources, remove the
  journal. `StorageMachine.Storage` is the disk, a map from paths to contents, changed one filesystem
  operation at a time; its field `power` is the number of writes that are left before a crash, so a
  contract that holds for every `power` holds for a crash at any point. `StorageApply` and `StorageMove`
  hold the phases and the whole `apply`. They are proved to leave exactly the disk of one *moment* of a
  fixed chain (`MoveSpec.DiskAt`), and to stop with an error exactly at the moments where a check fails
  (`MoveSpec.Refused`), so that the theorems of `MoveTheorems` about moments are about every disk that any
  number of crashed or refused starts can leave. `MovePlan` derives the precondition of that chain
  (`WellPlanned`) from what the preview accepts, `MoveOutlook` tells from the installation alone whether the
  move can be finished, `MoveEnd` compares the ends of two runs, `MoveScope` says in plain names which files a
  move takes along, where they go and when it is accepted, and `MoveJournal` is about the journal as a file
  among the others. `StorageLocks` is the protocol of queue locks, data locks and leases between processes, as
  actions of a state machine in any order, and `LockProgress` what it lets a process get done.
- **Updating Charnel on the Pi** (`scripts/raspberry-pi/charnel.py`). `PiSnapshot` and `PiRecovery` are the
  choice of backup roots, the snapshot and the restoring loop with its staged copies, two renames and
  progress file, on directory trees (`Trees`), again with a crash at any write. `LaunchGate` is the phase
  machine of update and recovery, cut off by crashes and exceptions anywhere, and the gate that lets the
  application start; `LaunchRecovery` proves that a recovery working on files, cut off after any write, makes
  just the changes of that machine.
- **The input engine of the hardware menu** (`scripts/raspberry-pi/menu.py`): `Encoder`, `VolumeQueue`,
  `Debounce`, with times in whole milliseconds and volume in steps from 0 to 40.
- **Config upgrades and version gates** (`grimoire/src/config.rs`, `updates.rs`, `upgrade.rs`):
  `ConfigMerge`, `ConfigUpgrade`, `ConfigRepair` (the repairs seen from every address of a document),
  `Versions`, `VersionForms` (versions by their text), `Upgrades`, `Backfill`.
- **Byte ranges and a code rewriter** (`server/src/static_files.rs`, `client-codegen/src/generator.rs`):
  `Ranges` and `RangeForms` (headers by their text), `Codegen` and `CodegenForms` (which letters and brackets
  count).

`Wrappers`, `Paths`, `Documents`, `Text` and `Trees` hold what several of them share; `Witnesses` shows that
the assumptions of the storage move, of the config upgrade and of the recovery can be met, and holds the
installations in which the failures listed below come about.

## How the storage model reads

A file's content is bytes, a document, a database (rows updated in one transaction), the transport index or
the journal. `Digest` is injective on contents. Strings that may hold paths are component lists. `site`
names the config, the databases and the transport directory; `report` is operation, source and destination,
as `roots` and `canonical_dir` resolve them. Names drawn by the `uuid` crate come from a function `uuids`
that is fresh for the disk at hand (`FreshUuids`). Nobody but the move changes the disk once a start has
planned it; what happens between queueing and that start is open. `Plannable` is what planning checks: the
preview is accepted, the config is the one that was queued, and the queued documents can be read.
`Orderly` lists what the code takes for granted without checking it:

- source, destination and transport directory are not files, and the destination is none of the move's own
  files (config, journal, backup, preferences);
- the preferences are another file than config, journal and backup, and do not lie in the destination
  (`StorageMove.ScheduledPreferencesOutside`: queueing checks this of all names but those of media and data locks);
- the two databases and the transport index do not carry media names or the name of the data lock, do not lie
  in the destination, are not the source and none of the move's own files, and the index is no database;
- the journal's name is not that of a media file.

Nothing is assumed about what databases, index and preferences hold, nor about where the config, the databases,
the index and the preferences lie relative to the source. Where that makes a move fail, it is part of the
model: see the next section.

## What turned out false

Each of these is a lemma with the exact condition, and each has a concrete input.

- A planned move need not be finishable. It is if and only if its journal lies outside the folder it moves, its
  databases and its index can be read, in a fetch move neither a database with a path into the folder nor an
  index with a reference to a moved blob lies in the folder, and the preferences are still there as they were
  queued (or are the new text already) and do not move along unless the rewriting leaves them as they are
  (`MoveOutlook.EndsExactly`, whose condition only looks at the installation before the move). Otherwise enough
  starts always end at the same error (`StorageMove.MoveThroughCrashes`, `StorageMove.RefusedForGood`), and since
  a manifest exists the move cannot be cancelled either. `Witnesses.SomeFetchStalls` is an accepted fetch move
  whose folder holds the config, and `Witnesses.SomeFetchSpoilsItself` one whose folder holds a database that
  names a file there: rewriting the database changes a source that must not change.
  `Witnesses.SomePreferencesEdited` is a data move whose preferences were saved again between queueing and the
  first start, and `Witnesses.SomePreferencesMove` one whose preferences lie in the directory that moves and
  name a file there: the cutover changes them at their source, and the deletion refuses that source, with the
  config switched already, or, after a crash between the two, the check of the sources does, with only the
  preferences switched. In all these cases nothing is lost (`MoveTheorems.NoLoss`,
  `MoveTheorems.StalledKeepsAll`).
- A fetch move that takes along a database which the rewriting leaves alone does end, and then the database is
  gone from the path that the config still names (`MoveTheorems.FetchedDatabaseIsGone`,
  `Witnesses.SomeFetchLosesItsDatabase`).
- A stored path to a file that a data move leaves behind below the source is redirected all the same. It leads
  to the same content if and only if the destination has that content under that name already
  (`MoveTheorems.RetainedPathExactly`); `Witnesses.SomePathMisleads` is an accepted move after which it leads
  to another file.
- `prepare_startup` leases the directory that the config named before the lease, while `init_config` uses the
  one that it names afterwards. Over runs without manual edits the lease covers the directory in use if and
  only if no move switches the config between the reading and the lease, or the last one that does switches it
  back (`StorageLocks.LeaseCoversUse`); `StorageLocks.MoveBeforeTheLease` and `StorageLocks.MoveThereAndBack`
  are runs of both kinds.
- A recovery changes data behind an open gate if and only if it starts from a phase that lets the application
  start, with the transaction marked as started and its roots not restored yet; every other recovery keeps the
  gate, and being cut off never brings it into that case (`LaunchGate.RecoverGatedExactly`,
  `LaunchGate.NotIntoTheOpen`). Runs come into it in two ways (`LaunchGate.OpenInTwoWays`): by an update cut off
  after saving ready-to-start (`LaunchGate.RecoveryFromReadyToStart`), or by one interrupted between marking the
  transaction as started and noting so (`LaunchGate.RecoveryFromTheMark`). Running a recovery again that was cut
  off after saving ready-to-start is harmless (`LaunchGate.RecoveryAgain`).
- `parse_version_tuple` and `is_newer` order plain versions alike, but disagree on a pre-release such as
  `0.3.13-rc1`; exactly when is `Upgrades.AgreeOnMarked`, and `Upgrades.PrereleaseSplitsTheGates` is that
  version between two gates.
- The documentation of the gates says that a migration is run exactly once. It is attempted at most once,
  and not at all when the config cannot be loaded again after the upgrade
  (`Upgrades.AttemptedOnceIfReloaded`, `Upgrades.NeverAttempted`).
- The backfill is documented to stop only when what remains cannot be hashed. It stops earlier when a whole
  batch of older blobs that cannot be hashed stands before one that can (`Backfill.RunBackfillRounds`, an
  if and only if, and `Backfill.OneBehindABatch`).
- A suffix range that is longer than the file is refused, where section 2.1 of RFC 7233 sends the whole
  file (`Ranges.SuffixRoundTrip`, `Ranges.SuffixTooLong`).

## Model

| member | source | states |
|---|---|---|
| Documents.MapTextsAt | grimoire/src/storage_migration.rs:549-580 | mapping the strings of a TOML or JSON document keeps every address and maps exactly the string that stands there |
| Documents.MapTextsIdempotent | grimoire/src/storage_migration.rs:702-717 | mapping strings twice is mapping them once when the function absorbs a second application |
| Documents.MapTextsFixes | grimoire/src/storage_migration.rs:549-580 | mapping leaves a document alone if and only if it leaves each of its strings alone |
| Remapping.RemapIdempotent | grimoire/src/storage_migration.rs:531-547 | remapping a remapped path changes nothing, given that source and destination are not nested |
| Remapping.RemapTouchesOnlyTheSource | grimoire/src/storage_migration.rs:531-547 | a path outside the source is kept; a path below it lands below the destination |
| Remapping.RewriteIdempotent | grimoire/src/storage_migration.rs:549-580 | rewriting a document twice is rewriting it once |
| Remapping.RewriteAt | grimoire/src/storage_migration.rs:549-580 | a rewritten document has the same addresses; strings outside the source, numbers and flags are untouched |
| Remapping.RewriteTransaction | grimoire/src/storage_migration.rs:725-787 | the row loop yields the rewritten rows, or fails exactly when a column that must hold JSON does not |
| Remapping.RewriteRowsIdempotent | grimoire/src/storage_migration.rs:719-790 | rewritten rows can be rewritten again, with the same result |
| Remapping.RewriteRowsFixes | grimoire/src/storage_migration.rs:719-790 | rewriting changes a database if and only if one of its cells holds a path at or below the source |
| Remapping.RepairAt | grimoire/src/storage_migration.rs:1053-1069 | after the repair the reference of a moved blob is at the destination of an entry with its digest, every other reference is kept |
| Remapping.RepairIdempotent | grimoire/src/storage_migration.rs:1049-1079 | repairing references twice is repairing them once |
| Remapping.RepairFixes | grimoire/src/storage_migration.rs:1053-1069 | repairing changes the index if and only if a reference to a moved blob is not at its new place yet |
| Remapping.DataConfigAt | grimoire/src/storage_migration.rs:585-594 | address by address, the new config of a data move: the data directory is the destination, every other string remapped, nothing else changed |
| Remapping.SetOutputDirAt | grimoire/src/storage_migration.rs:595-599 | setting one fetch folder changes that address and no other |
| Remapping.FetchConfigAt | grimoire/src/storage_migration.rs:595-599 | address by address, the new config of a fetch move: both fetch folders are the destination, nothing else changed |
| Remapping.PreferencesAt | grimoire/src/storage_migration.rs:863-875 | the new preferences keep where the config lies and remap every other string |
| StorageMachine.Storage.WriteAtomic | grimoire/src/storage_migration.rs:128-138 | the file is replaced as a whole or the disk is as it was |
| StorageMachine.Storage.PersistNoClobber | grimoire/src/storage_migration.rs:632-633 | an existing file is never replaced |
| StorageMachine.Storage.RemoveFile | grimoire/src/storage_migration.rs:1039-1040 | one file is gone or the disk is as it was |
| StorageMachine.Storage.CopyVerified | grimoire/src/storage_migration.rs:606-639 | refuses exactly when the destination holds something else or the source is not what was planned; otherwise the destination holds the source's content and nothing else changed |
| StorageMachine.Storage.CopyAll | grimoire/src/storage_migration.rs:887-889 | the disk after any number of entries is that of so many copies; a refusal or a crash stops at the entry it concerns |
| StorageMachine.Storage.RewriteDatabase | grimoire/src/storage_migration.rs:719-790 | all rows of a database are rewritten in one step, or none; a missing database is skipped |
| StorageMachine.Storage.RewriteDatabases | grimoire/src/storage_migration.rs:906-917 | the disk after any number of databases, and where a failure or crash stops |
| StorageMachine.Storage.HashDestinations | grimoire/src/storage_migration.rs:918-931 | records the digest of every destination; fails exactly when one is missing or a file that is not a database differs from its plan |
| StorageMachine.Storage.RehashTransport | grimoire/src/storage_migration.rs:951-957 | records fresh digests below the transport directory and no others |
| StorageMachine.Storage.SourcesUnchanged | grimoire/src/storage_migration.rs:964-977 | true exactly when every source still has its planned digest |
| StorageMachine.Storage.DeleteVerified | grimoire/src/storage_migration.rs:1013-1041 | deletes a source exactly when it is as planned and its copy as verified; a missing source is fine |
| StorageMachine.Storage.DeleteSources | grimoire/src/storage_migration.rs:1008-1042 | the disk after any number of deletions, and where a refusal or crash stops |
| MoveChain.CopyAt | grimoire/src/storage_migration.rs:887-889 | what the disk holds at every path after k copies of a sound manifest |
| MoveChain.CopyResumes | grimoire/src/storage_migration.rs:882-903 | copying again after k copies is copying on |
| MoveChain.CopyNeverFails | grimoire/src/storage_migration.rs:606-639 | no copy of a sound manifest is refused, at any point of the copying |
| MoveChain.CopiesPassExactly | grimoire/src/storage_migration.rs:606-639 | on any disk copying passes if and only if each destination holds the planned content already, or is free and its source holds it |
| MoveChain.CopiesHold | grimoire/src/storage_migration.rs:606-639 | on any disk and manifest, copies that passed left the planned content at each destination |
| MoveChain.RewriteToAt | grimoire/src/storage_migration.rs:906-917 | what the disk holds at every path after k databases were rewritten |
| MoveChain.RewriteResumes | grimoire/src/storage_migration.rs:904-917 | rewriting again after a crash equals running it once |
| MoveChain.RewriteKeepsFailing | grimoire/src/storage_migration.rs:719-790 | a database is refused after any number of rewrites if and only if it was refused before |
| MoveChain.RepairResumes | grimoire/src/storage_migration.rs:935-961 | repairing the index again after a crash equals running it once |
| MoveChain.DeleteAt | grimoire/src/storage_migration.rs:1008-1042 | k deletions remove exactly the first k sources |
| MoveChain.DeleteResumes | grimoire/src/storage_migration.rs:1008-1042 | deleting again after k deletions is deleting on |
| MoveChain.DeletesPassExactly | grimoire/src/storage_migration.rs:1008-1042 | on any disk deletion passes if and only if each source is gone, or it and its copy have the digests recorded for them |
| MoveChain.DeleteGuarded | grimoire/src/storage_migration.rs:1013-1041 | deletion removes nothing but sources with their planned digest, and changes no file, on any disk and manifest |
| MoveJournal.RewriteJournaled | grimoire/src/storage_migration.rs:719-790 | rewriting databases never changes the journal file, even where a config names it as one |
| MoveJournal.StallStays | grimoire/src/storage_migration.rs:882-903 | a manifest that lists the journal itself: the copies before that entry are made, from wherever a crash left them, and that entry is always refused |
| MovePlan.Walk | grimoire/src/storage_migration.rs:178-205 | a listing of a tree names every file once |
| MovePlan.ReviewDestination | grimoire/src/storage_migration.rs:261-270 | what stands at the destination and is not media is a blocker; whether there is media |
| MovePlan.ReviewParents | grimoire/src/storage_migration.rs:290-299 | the loop from a file's place upwards finds exactly the files among its parents below the destination |
| MovePlan.ReviewFile | grimoire/src/storage_migration.rs:281-299 | what one moved file meets at the destination: blockers or a collision |
| MovePlan.ReviewSource | grimoire/src/storage_migration.rs:275-303 | counts the files to be moved; what stands at a file's place without being media on both sides, directories at that place and files among its parents are blockers, different media files collisions |
| MovePlan.Review | grimoire/src/storage_migration.rs:238-303 | refuses exactly nested directories and a destination that contains the config; otherwise reports all blockers and collisions and whether the destination has media |
| MovePlan.ReviewIgnores | grimoire/src/storage_migration.rs:238-303 | a file outside both directories, such as a journal elsewhere, does not change whether a move is accepted |
| MovePlan.PlanEntries | grimoire/src/storage_migration.rs:825-860 | plans one entry for every file to be moved, which `MoveScope.MoveTakes` names, drawing a new name only for a media file that meets a different one; fails exactly when another file meets a different one or merging was not chosen |
| MovePlan.AcceptedNeverCollides | grimoire/src/storage_migration.rs:805-862 | when the fresh preview is accepted, planning on that disk never reaches the collision error |
| MovePlan.DestinationsDiffer | grimoire/src/storage_migration.rs:835-858 | distinct sources get distinct destinations, also when names are drawn |
| MovePlan.ManifestIsOk | grimoire/src/storage_migration.rs:825-860 | a planned manifest is sound: sources present with their digests, destinations distinct, free or identical, no source a destination |
| MovePlan.JournalInTheWay | grimoire/src/storage_migration.rs:876-903 | a planned fetch move can copy all its files if and only if its journal does not lie inside the folder that it moves |
| MovePlan.PlanIsWell | grimoire/src/storage_migration.rs:804-877 | a move that can be planned on an orderly installation yields a manifest on which the phases stay on their chain, unless it lists its own journal |
| MoveScope.MoveTakes | grimoire/src/storage_migration.rs:166-205 | a data move takes along exactly the files below its source but the config, the four files beside it (journal, both locks, backup) by their names, data locks at any depth and the six names of the host; a fetch move all but data locks; selecting none |
| MoveScope.MoveLands | grimoire/src/storage_migration.rs:831-858 | every file goes to the place with its name below the destination or, where something else has that name, beside it under the drawn name; its digest is that of its content |
| MoveScope.AcceptedExactly | grimoire/src/storage_migration.rs:238-307 | a move is accepted if and only if the directories are not nested, the destination does not hold the config and only media, and each file's place is free or both are media with equal content or for merging, with nothing below a free place and no file among its parents |
| MoveScope.MediaByExtension | grimoire/src/storage_migration.rs:160-164 | a named file is media if and only if what is behind its last dot is an extension of media |
| MoveScope.MediaWithoutExtension | grimoire/src/storage_migration.rs:160-164 | a name without a dot, or with one only in front, has no extension |
| MoveScope.SomeStem | grimoire/src/storage_migration.rs:166-170 | every named config has the four files beside it that the theorems speak of |
| MoveOutlook.PlanStalls | grimoire/src/storage_migration.rs:804-903 | a planned move whose folder holds its own journal stalls in front of it |
| MoveOutlook.WorkableExactly | grimoire/src/storage_migration.rs:904-958 | whether the databases and the index will be refused can be seen before the move |
| MoveOutlook.UndisturbedExactly | grimoire/src/storage_migration.rs:904-977 | a fetch move passes the digest check of its sources if and only if the rewriting changes neither a database nor an index in its folder |
| MoveOutlook.PreferencesFixes | grimoire/src/storage_migration.rs:863-875 | the new preferences are the old ones if and only if no string of them, other than where the config lies, is a path at or below the source |
| MoveOutlook.PreferencesExactly | grimoire/src/storage_migration.rs:979-994 | whether the preferences will stop the move can be seen before it: they are gone, hold neither text, or move along and do not hold the new one |
| MoveOutlook.EndsExactly | grimoire/src/storage_migration.rs:804-1047 | exactly when a planned move can be finished, as a condition on the installation before the move |
| MoveOutlook.RetainedNotLanded | grimoire/src/storage_migration.rs:835-858 | no moved file takes the place that a retained file would have had |
| MoveTrack.VerifiedHash | grimoire/src/storage_migration.rs:918-958 | the digest that the journal records for a destination is that of what stands there |
| MoveTrack.KeptUnlessFetched | grimoire/src/storage_migration.rs:964-977 | only a fetch move can change one of its own sources by rewriting, and exactly when the digest check will say so |
| MoveTrack.DeleteNeverFails | grimoire/src/storage_migration.rs:1013-1041 | once the cutover has passed, no deletion is refused but that of moved preferences which the cutover changed |
| MoveTrack.DeleteFailsForMoved | grimoire/src/storage_migration.rs:1013-1018 | preferences that are themselves a planned source and that the cutover changed are refused when their deletion comes |
| MoveTrack.FixedAt | grimoire/src/storage_migration.rs:982-1002 | what config and preferences hold at every moment |
| StorageApply.Save | grimoire/src/storage_migration.rs:140-146 | the journal file is replaced as a whole or the disk is as it was |
| StorageApply.CopyPhase | grimoire/src/storage_migration.rs:882-903 | from any moment of the copying, ends at a later moment of the chain or loses power at one; stalls where the manifest lists the journal; on any disk touches only free files and destinations and keeps a started journal |
| StorageApply.PointPaths | grimoire/src/storage_migration.rs:906-931 | rewrites the databases named by the journal and digests the destinations |
| StorageApply.PathsAdvance | grimoire/src/storage_migration.rs:904-931 | rewriting on the chain stays on it, and a failure means that the next database is none or has a malformed row |
| StorageApply.PathsPhase | grimoire/src/storage_migration.rs:904-934 | from any moment of the rewriting, ends at a later moment of the chain, loses power at one, or fails at a database that cannot be rewritten |
| StorageApply.RepairTransport | grimoire/src/storage_migration.rs:936-958 | repairs the index where there is one and digests what lies below the transport directory |
| StorageApply.ReferencesAdvance | grimoire/src/storage_migration.rs:935-958 | one repair from wherever a crash left it ends with the index repaired, and a failure means that the index is malformed |
| StorageApply.ReferencesPhase | grimoire/src/storage_migration.rs:935-961 | from any moment of the repair, ends at a later moment of the chain, loses power at one, or fails at a malformed index |
| StorageApply.CutPreferences | grimoire/src/storage_migration.rs:982-994 | switches the preferences once, refuses when somebody else changed them |
| StorageApply.CutOver | grimoire/src/storage_migration.rs:978-1002 | preferences, backup of the config and config are switched in this order; a crash leaves a prefix of them |
| StorageApply.Commit | grimoire/src/storage_migration.rs:962-1002 | checks the sources and cuts over: a prefix of the three steps, or none exactly where a check fails |
| StorageApply.CommitChecks | grimoire/src/storage_migration.rs:962-994 | on the chain the checks of the cutover pass if and only if the rewriting has left the sources alone and the preferences hold one of their two texts |
| StorageApply.CommitPhase | grimoire/src/storage_migration.rs:962-1005 | from any moment of the cutover, also with the config switched and the journal not yet saved, ends at a later moment of the chain, loses power at one, or fails exactly where the sources were changed by the rewriting or by the switch of moved preferences, or the preferences changed since queueing |
| StorageApply.DeletePhase | grimoire/src/storage_migration.rs:1006-1047 | from any moment of the deletion, ends with the sources and the journal gone, loses power at a moment of the chain, or fails exactly at moved preferences that the cutover changed |
| StorageApply.DeleteRefused | grimoire/src/storage_migration.rs:1013-1018 | an error of the deletion loop means that it has come to moved preferences which the cutover changed, with the entries before them deleted |
| StorageMove.Schedule | grimoire/src/storage_migration.rs:370-431 | queues exactly the moves that the review accepts, when none is pending, with the preferences found at the given or the usual place; adds the journal and changes nothing else |
| StorageMove.ScheduledPreferencesOutside | grimoire/src/storage_migration.rs:261-270 | a queued move has preferences outside its destination and apart from its journal, unless they are named like media or a data lock |
| StorageMove.Cancel | grimoire/src/storage_migration.rs:449-458 | removes a journal without a manifest and changes nothing else; refuses exactly when there is none, or one with a manifest or committed |
| StorageMove.PlanPhase | grimoire/src/storage_migration.rs:804-877 | saves the manifest with both new documents or changes nothing; fails exactly when the fresh preview is not accepted or a document cannot be read, never with the collision error |
| StorageMove.ApplyPlanned | grimoire/src/storage_migration.rs:878-1047 | a planned move goes on from any moment to a later one or to its end |
| StorageMove.Apply | grimoire/src/storage_migration.rs:792-1047 | one start, from any disk that earlier starts can have left: goes on to a later moment or finishes, and fails only where the move cannot be planned or at a moment where the planned move always is refused; on any disk at all, it refuses another version and a config edited in the meantime, only sources with their planned digest are removed, only free files and destinations written, and a started journal stays one |
| StorageMove.RefusedForGood | grimoire/src/storage_migration.rs:792-1047 | every further start of a refused move changes nothing, and ends with an error when it survives three writes |
| StorageMove.RankGrows | grimoire/src/storage_migration.rs:878-1047 | every step of the chain raises a rank that is bounded by twice the number of entries |
| StorageMove.MoveThroughCrashes | grimoire/src/storage_migration.rs:792-1047 | for any number of starts cut off or refused anywhere the disk is that of a moment; starts that survive three writes plan the move if and only if review, config and documents allow it, and 2n + 13 of them finish it if and only if nothing stops it |
| StorageMove.QueueThenCancel | grimoire/src/storage_migration.rs:370-458 | queueing and cancelling, with any crashed or refused starts in between, is the identity on all files of any installation whenever the cancellation succeeds |
| MoveTheorems.NoLoss | grimoire/src/storage_migration.rs:882-1042 | at every moment, also those from which no start gets further, each entry has its source as planned, or its destination with exactly the recorded digest, or, where a fetch move rewrites it, its destination with exactly the planned digest; a source is gone only when the config on disk is the new one |
| MoveTheorems.StalledKeepsAll | grimoire/src/storage_migration.rs:882-903 | a move that stalls in front of its own journal has changed no file and not switched the config |
| MoveTheorems.CutoverOrder | grimoire/src/storage_migration.rs:882-1005 | the config is always the old or the new text; the new one implies copies in place and updated, databases and index rewritten, preferences switched where they have not been moved and deleted since, old config backed up |
| MoveTheorems.Untouched | grimoire/src/storage_migration.rs:792-1047 | a file that is neither moved nor rewritten nor one of the move's own is the same at every moment |
| MoveTheorems.DestinationPreserved | grimoire/src/storage_migration.rs:825-862 | nothing that was at the destination is ever changed or removed |
| MoveTheorems.FinalDisk | grimoire/src/storage_migration.rs:1006-1047 | the end of a move, file by file: which paths there are and what each holds |
| MoveEnd.OneEnd | grimoire/src/storage_migration.rs:792-1047 | however the starts were cut off, whatever order the saved manifest lists the files in and whatever names it drew: a queued move that ends leaves one disk, if no moved file's place is taken by another file; only the index may tell equal files apart |
| MoveTheorems.StoredPathFollows | grimoire/src/storage_migration.rs:531-547 | after the move a remapped path leads to the content that the path led to, for moved files and files outside the source |
| MoveTheorems.DatabasePathsFollow | grimoire/src/storage_migration.rs:719-790 | every path column, opaque checkpoint and string at any address of a JSON column of a database still names the same content after the move |
| MoveTheorems.TransportFollows | grimoire/src/storage_migration.rs:1049-1079 | after the move every reference to a moved blob leads to a destination with the content of its digest, every other one is as it was |
| MoveTheorems.FetchedDatabaseIsGone | grimoire/src/storage_migration.rs:1006-1042 | a fetch move that takes a database along ends with the database gone from the path that the config names |
| MoveTheorems.RetainedPathDangles | grimoire/src/storage_migration.rs:166-176 | the remapped path of a retained file leads to its content if and only if the destination held that content under that name or a moved file with that content lands there |
| MoveTheorems.RetainedPathExactly | grimoire/src/storage_migration.rs:531-547 | for a planned move the second case cannot come about: the condition is whether the destination already has that content under that name |
| Witnesses.SomeMoveIsReady | grimoire/src/storage_migration.rs:370-431 | a merge of a data directory with database, index, preferences and colliding media that meets every assumption and can be finished |
| Witnesses.SomePathMisleads | grimoire/src/storage_migration.rs:531-547 | an accepted move after which the path of a retained file leads to another file |
| Witnesses.SomeFetchStalls | grimoire/src/storage_migration.rs:207-236 | an accepted fetch move whose folder holds the config |
| Witnesses.SomeFetchSpoilsItself | grimoire/src/storage_migration.rs:906-917 | an accepted fetch move whose folder holds a database that the rewriting changes |
| Witnesses.SomeFetchLosesItsDatabase | grimoire/src/storage_migration.rs:1006-1042 | a fetch move that ends with a database gone from where the config names it; that it is accepted is `Witnesses.QuietFetch` |
| Witnesses.SomePreferencesEdited | grimoire/src/storage_migration.rs:983-991 | a queued move whose preferences are edited before the first start: it can be planned, all else is in order, and it never ends |
| Witnesses.SomePreferencesMove | grimoire/src/storage_migration.rs:1013-1018 | a queued move that takes its preferences along: it can be planned, all else is in order, and it never ends |
| StorageLocks.Exclusion | grimoire/src/storage_migration.rs:475-499 | over all interleavings: while a process applies, nobody else holds a lease on its three directories, nobody else applies that config's journal, and the journal on disk is the one it read |
| StorageLocks.QueueAlone | grimoire/src/storage_migration.rs:87-106 | no two processes are past the queue lock of one config |
| StorageLocks.SomeMigrationGoesOn | grimoire/src/storage_migration.rs:484-488 | because roots are locked in sorted order, contending migrations are never all refused |
| StorageLocks.LeaseCoversUse | grimoire/src/config.rs:1214-1219 | over all runs without manual edits, the lease covers the directory in use if and only if no move switches the config between the reading and the lease, or the last one switches it back |
| StorageLocks.LeaseHoldsThrough | grimoire/src/storage_migration.rs:795-800 | while a process holds a lease on a directory, its config neither comes to name that directory nor ceases to, whatever other processes do |
| StorageLocks.MoveBeforeTheLease | grimoire/src/storage_migration.rs:501-504 | a run in which it does not |
| StorageLocks.MoveThereAndBack | grimoire/src/storage_migration.rs:501-504 | a run in which two moves leave the lease covering the directory in use |
| LockProgress.RefusedIsGone | grimoire/src/storage_migration.rs:87-106 | a process that ends or is refused a lock is gone with all its locks and has changed no config and no journal |
| LockProgress.EditedIsNotSwitched | grimoire/src/storage_migration.rs:797-800 | a config edited in the meantime is not switched, and the journal stays |
| LockProgress.QueueAndCancel | grimoire/src/storage_migration.rs:404-458 | a process that finds the queue unlocked queues a move and changes nothing but the journal; cancelling before it gives the queue back undoes that |
| LockProgress.QueueIsTaken | grimoire/src/storage_migration.rs:404-406 | while another process holds the queue nobody queues, cancels or starts to migrate |
| LockProgress.MoveIsMade | grimoire/src/storage_migration.rs:475-499 | a process that starts under a pending move, with nobody in its way, switches the config, removes the journal, leaves no lock and goes on to its config |
| LockProgress.LeaseIsTaken | grimoire/src/storage_migration.rs:499-505 | a process whose directory no move locks leases it and runs on it |
| LockProgress.StartWithoutMove | grimoire/src/storage_migration.rs:475-480 | where no move is pending a process goes straight to its config |
| PiSnapshot.SnapshotRoots | scripts/raspberry-pi/charnel.py:162-169 | refuses exactly when a path is too broad; otherwise requested, pairwise non-nested roots that cover every requested path |
| PiSnapshot.BroadPaths | scripts/raspberry-pi/charnel.py:162-165 | too broad are the root directory and what lies right in it, the home directory, and what the program's own directory is or lies in |
| PiSnapshot.ZonesApart | scripts/raspberry-pi/charnel.py:396-406 | sources, failed names and temporary names of all roots are pairwise separate, so work on one root is independent of the others |
| PiSnapshot.BackupApart | scripts/raspberry-pi/charnel.py:162-169 | none of them lies in the backup or contains it |
| PiRecovery.Device.Snapshot | scripts/raspberry-pi/charnel.py:172-198 | lists every root as it was and copies each existing one as a whole; nothing outside the backup changes |
| PiRecovery.SnapshotCanBeRecovered | scripts/raspberry-pi/charnel.py:172-198 | what a snapshot lists is what a recovery needs, as long as the backup is left alone and the other names are free |
| PiRecovery.Device.CopyTree | scripts/raspberry-pi/charnel.py:408-412 | copies a whole tree to a free place, or is cut off with only that place changed |
| PiRecovery.Device.StageCopy | scripts/raspberry-pi/charnel.py:404-413 | stages a file or tree under a new name beside its source |
| PiRecovery.MoveAway | scripts/raspberry-pi/charnel.py:418-422 | when a source is still to be moved away the failed name is free, and the rename is a step of the swap |
| PiRecovery.MoveIn | scripts/raspberry-pi/charnel.py:423-424 | renaming the staged copy to the source finishes the swap |
| PiRecovery.NothingToMove | scripts/raspberry-pi/charnel.py:418-427 | a swap with nothing to rename is finished; a missing staged copy means that the source is restored |
| PiRecovery.Device.Swap | scripts/raspberry-pi/charnel.py:417-427 | from any stage of a swap, ends with the root restored or is cut off at a stage; both error branches are unreachable |
| PiRecovery.Device.Prepare | scripts/raspberry-pi/charnel.py:399-416 | prepares a root unless an earlier run did; never finds the failed name taken |
| PiRecovery.Device.RestoreRoot | scripts/raspberry-pi/charnel.py:392-429 | restores a root from wherever an earlier run left it, within its number of writes, and keeps every other root in order |
| PiRecovery.Device.Recover | scripts/raspberry-pi/charnel.py:391-429 | restores every root or is cut off with all roots in order; never loses what is restored; restores at least one more root when it lasts long enough for one; changes nothing when every root is restored; how many writes it takes at most |
| PiRecovery.Device.RecoverThroughCrashes | scripts/raspberry-pi/charnel.py:384-429 | the same over any number of crashed runs, with no error reached, and when it must end |
| PiRecovery.RecoveryRestores | scripts/raspberry-pi/charnel.py:384-434 | at the end every root holds its backup or is absent if it was, the failed data is kept, the backup is untouched, nothing else changed |
| PiRecovery.RecoveriesEndAlike | scripts/raspberry-pi/charnel.py:391-429 | two recoveries of one disk that end leave the same disk, apart from temporary names |
| PiRecovery.RecoveryUndoesTheUpdate | scripts/raspberry-pi/charnel.py:172-198 | snapshot, any change to the roots, recovery: every root is as it was at the snapshot |
| Witnesses.SomeDiskIsRecoverable | scripts/raspberry-pi/charnel.py:384-392 | there is a disk that meets every assumption of a recovery |
| LaunchGate.Device.Update | scripts/raspberry-pi/charnel.py:264-335 | an update cut off by a crash or an exception after any of its changes leaves the state that the lemmas on commands and on the gate speak of |
| LaunchGate.Device.Recover | scripts/raspberry-pi/charnel.py:377-434 | the same for a recovery; one whose roots are restored already leaves the data alone |
| LaunchGate.FinishedUpdate | scripts/raspberry-pi/charnel.py:264-324 | an update that is not cut off ends with package and data at the new version, the gate open, the next update allowed and nothing to recover |
| LaunchGate.UpdateCutOff | scripts/raspberry-pi/charnel.py:280-324 | an update that loses power: which of package, data, mark and gate have changed, change by change |
| LaunchGate.UpdateRaised | scripts/raspberry-pi/charnel.py:325-335 | an exception before the start is noted leaves package, data and gate as they were; one after it shuts the gate until a recovery |
| LaunchGate.Refused | scripts/raspberry-pi/charnel.py:267-268 | a refused command changes nothing, and where an update is refused a recovery is allowed |
| LaunchGate.RecoveryCutOff | scripts/raspberry-pi/charnel.py:377-434 | a recovery that is cut off: package first, then data, then the gate; the phase stays until both are restored |
| LaunchGate.RecoveryOfNothing | scripts/raspberry-pi/charnel.py:384 | where the package was not started on, a recovery only opens the gate |
| LaunchGate.UpdateGated | scripts/raspberry-pi/charnel.py:280-335 | every change of an update, and its exception handler, keeps the gate |
| LaunchGate.RecoverGatedExactly | scripts/raspberry-pi/charnel.py:377-434 | a recovery keeps the gate at each of its changes if and only if it does not start with the gate open, the transaction marked as started and the roots not restored |
| LaunchGate.NotIntoTheOpen | scripts/raspberry-pi/charnel.py:377-434 | a recovery that keeps the gate never leaves, wherever it is cut off, a state from which the next one would not |
| LaunchGate.OpenInTwoWays | scripts/raspberry-pi/charnel.py:264-335 | the only states of a run from which a recovery changes data behind an open gate: ready-to-start saved, or marked as started and taken for a failure before the installation |
| LaunchGate.GateHolds | scripts/raspberry-pi/charnel.py:67-74 | through any sequence of updates and such recoveries, each cut off anywhere, a phase that lets the application start implies that package and data agree |
| LaunchGate.RecoveryOpensTheGate | scripts/raspberry-pi/charnel.py:384-434 | a recovery that finishes opens the gate on a package and data that agree |
| LaunchGate.RecoveryFromReadyToStart | scripts/raspberry-pi/charnel.py:378-434 | a run in which a recovery from ready-to-start leaves the gate open on mixed data |
| LaunchGate.RecoveryFromTheMark | scripts/raspberry-pi/charnel.py:299-327 | a run in which a recovery after an interruption at the mark leaves the gate open on mixed data |
| LaunchGate.RecoveryAgain | scripts/raspberry-pi/charnel.py:391-434 | a recovery that is run again after being cut off behind ready-to-start keeps the gate, wherever it is cut off |
| LaunchRecovery.Pi.RestoreData | scripts/raspberry-pi/charnel.py:391-429 | restoring the roots file by file leaves the data as it was, in between or restored, and restored roots alone |
| LaunchRecovery.Pi.Recover | scripts/raspberry-pi/charnel.py:377-434 | a recovery cut off after any write has made exactly some first changes of the gate's recovery, and all when it lasts long enough |
| LaunchRecovery.Pi.RecoverThroughCrashes | scripts/raspberry-pi/charnel.py:377-434 | recovering again and again keeps the gate after every write, and a run that lasts long enough ends the recovery |
| LaunchRecovery.RestoredData | scripts/raspberry-pi/charnel.py:391-429 | what the gate takes for restored data is every root holding its backup, or nothing where there was nothing |
| Encoder.Difference | scripts/raspberry-pi/menu.py:227-230 | the result is the difference modulo 2^32 in the signed range, and the plain difference when that is in range |
| Encoder.EncoderMotion.Update | scripts/raspberry-pi/menu.py:232-267 | one reading moves the remembered state and reports steps as the run lemmas assume |
| Encoder.Steps | scripts/raspberry-pi/menu.py:236-245 | at most 54 steps are reported at once |
| Encoder.Accounting | scripts/raspberry-pi/menu.py:232-267 | over any stretch of readings the reported steps and the unreported jumps add up to the movement of the baseline modulo 2^32 |
| Encoder.SettleReadsMean | scripts/raspberry-pi/menu.py:256-266 | the counter of settling reads is the number of latest readings that were off one unchanged baseline, each after the first near the one before |
| Encoder.SettlesOnlyAfterThree | scripts/raspberry-pi/menu.py:254-267 | the baseline jumps only after three consecutive readings off it, each after the first near the one before |
| Encoder.SettlesWithTheThird | scripts/raspberry-pi/menu.py:256-266 | a reading settles exactly when the counter stands at two and it is off the baseline and near the one before |
| Encoder.ThreeSettle | scripts/raspberry-pi/menu.py:254-266 | of three readings off one baseline, the later two near the one before, one becomes the baseline |
| Encoder.FirstBaseline | scripts/raspberry-pi/menu.py:254-267 | from the start the third such reading is the baseline, and the next one near it is reported as its difference |
| Encoder.TurnIsReported | scripts/raspberry-pi/menu.py:232-253 | a reading within reach of the baseline is reported as its difference and is the new baseline; any other reports nothing |
| Encoder.BaselineChanges | scripts/raspberry-pi/menu.py:237-266 | the baseline changes by a reported turn or by settling, in no other way |
| Encoder.SpikeForgotten | scripts/raspberry-pi/menu.py:254-260 | a single spike leaves no trace in state or sum |
| Encoder.TurnsAreBelieved | scripts/raspberry-pi/menu.py:232-245 | a reading counts as a turn if and only if it moved at most 54 steps and at most four more than 200 a second |
| VolumeQueue.QueuedMeans | scripts/raspberry-pi/menu.py:992-998 | queueing a turn means that turn for every level, whatever is pending |
| VolumeQueue.QueuedAlternates | scripts/raspberry-pi/menu.py:992-998 | pending batches stay nonzero, within 40 steps, and alternate in direction |
| VolumeQueue.JoiningIsExact | scripts/raspberry-pi/menu.py:993-997 | joining two batches keeps their meaning if and only if they do not go opposite ways |
| VolumeQueue.RunMeansRawTurns | scripts/raspberry-pi/menu.py:992-1029 | for every run of turns drained at any moments, the batches sent and pending move any level as the raw turns do |
| VolumeQueue.PayloadMeans | scripts/raspberry-pi/menu.py:353-356 | the lines sent for a batch, applied one at a time, are the batch; the state is asked for once, last |
| VolumeQueue.VolumeMenu.QueueVolume | scripts/raspberry-pi/menu.py:992-998 | the queue after a turn, with the meaning of all turns since it was emptied kept |
| VolumeQueue.VolumeMenu.PollState | scripts/raspberry-pi/menu.py:1000-1029 | which batch is handed out and when; a failed request empties the queue |
| Debounce.Button.Update | scripts/raspberry-pi/menu.py:478-485 | one sample moves the remembered state and reports an edge as the run lemma assumes |
| Debounce.ReportsAreSettled | scripts/raspberry-pi/menu.py:470-485 | an edge is reported only after the input read the same for the settling time, and always differs from the state before |
| Debounce.SettledIsReported | scripts/raspberry-pi/menu.py:478-485 | an input that read the same for the settling time is reported, at the latest with that sample |
| ConfigMerge.EditRoundTrip | grimoire/src/config.rs:2448-2476 | a value written into a document reads back as itself |
| ConfigMerge.DottedSplits | grimoire/src/config.rs:2213-2227 | splitting a dotted path gives back the place, for keys without dots |
| ConfigMerge.SetExisting | grimoire/src/config.rs:1784-1840 | setting a value at an existing place replaces exactly that item |
| ConfigMerge.ConfigDocument.SetNestedValue | grimoire/src/config.rs:1784-1840 | sets the value along its path, or changes nothing when something on the way is not a table |
| ConfigMerge.ConfigDocument.MergeValuesIntoDoc | grimoire/src/config.rs:2162-2210 | the loop over dotted paths, which navigates from the root at each leaf, equals the structural overlay |
| ConfigMerge.OverlayAddsNothing | grimoire/src/config.rs:2191-2208 | the merge adds no place that the template lacks |
| ConfigMerge.OverlayTakesValues | grimoire/src/config.rs:2201-2208 | a user's value is taken wherever the template has an item, unless it is one of the two exceptions |
| ConfigMerge.OverlayKeepsTemplate | grimoire/src/config.rs:2191-2208 | where the user says nothing the template stays |
| ConfigMerge.CarriedOver | grimoire/src/config.rs:2195-2208 | every other value of the user is taken wherever the template has an item |
| ConfigMerge.NotCarriedOver | grimoire/src/config.rs:2174-2195 | the version, the placeholder of a fetch folder, and a table where the template has something else are not taken |
| ConfigUpgrade.FixStaleVideoTranscodeArgs | grimoire/src/config.rs:2278-2327 | both loops leave the document that `ConfigRepair.ArgsAreRepaired` describes |
| ConfigUpgrade.RepairIsDone | grimoire/src/config.rs:2278-2290 | the repair leaves nothing for another one and only replaces stock strings |
| ConfigRepair.ArgsAreRepaired | grimoire/src/config.rs:2278-2327 | in arrays of both styles, a rendition called compatible with a stock string up to its version holds the current arguments afterwards; every other address of the document is as it was |
| ConfigUpgrade.FixMissingFetchVideoOutputDir | grimoire/src/config.rs:2344-2390 | the early returns amount to one condition, and the folder is taken over from the music fetch |
| ConfigRepair.VideoIsRepaired | grimoire/src/config.rs:2344-2390 | up to 0.3.12, where fetching videos is on without a folder and that for music is set, that folder is entered and nothing else changed; otherwise nothing is |
| ConfigRepair.VersionIsStamped | grimoire/src/config.rs:2120-2126 | the stamp enters the binary's version and changes nothing else |
| ConfigRepair.VersionOf | grimoire/src/config.rs:2088-2095 | a config without a version is of 0.0.0 |
| ConfigUpgrade.UpgradeConfig | grimoire/src/config.rs:2088-2128 | merge, repairs and version stamp in order equal the functional upgrade |
| ConfigRepair.UpgradedAt | grimoire/src/config.rs:2088-2126 | what an upgraded config holds at every address, given what the merge left there |
| ConfigUpgrade.OverlayFits | grimoire/src/config.rs:2162-2210 | what a merge yields has the template's tables, and nothing where it would not be carried over again |
| ConfigUpgrade.FitIsStable | grimoire/src/config.rs:2162-2210 | merging such a document again gives the same values |
| ConfigUpgrade.UpgradeSettles | grimoire/src/config.rs:2047-2064 | after an upgrade no other one is called for |
| ConfigUpgrade.SecondUpgradeChangesNothing | grimoire/src/config.rs:2075-2128 | a second whole upgrade by the same binary, newer than the gates, leaves every value as it is |
| Witnesses.SomeUpgradeSettles | grimoire/src/config.rs:2088-2128 | a template, a config and a binary that meet every assumption of the second upgrade |
| Versions.ParseVersion | grimoire/src/updates.rs:156-189 | the nested loops with their early exit yield the numbers and pre-release that the recursive reading gives |
| Versions.IsNewer | grimoire/src/updates.rs:203-220 | decides the order: the first differing number of the zero-padded cores, then any pre-release below its final release |
| VersionForms.ParsedRelease | grimoire/src/updates.rs:156-189 | any number of numeric parts, each with ignored letters, within white space and v's, is read as those numbers; beyond 64 bits as 0 |
| VersionForms.ParsedPrerelease | grimoire/src/updates.rs:156-189 | behind a hyphen or plus sign the number at the end of the marker is that of the pre-release, and everything after it is ignored |
| VersionForms.ParsedBuild | grimoire/src/updates.rs:156-189 | the same for a pre-release that is a part of its own |
| VersionForms.DigitsGathered | grimoire/src/updates.rs:182-184 | all digits of a marker count, wherever they stand |
| VersionForms.MarkedOrder | grimoire/src/updates.rs:203-220 | of two pre-releases, also with v's in front, the numbers of the versions decide first, then those of the pre-releases |
| VersionForms.FirstDifferenceDecides | grimoire/src/updates.rs:206-213 | the first number that differs decides |
| VersionForms.LongerIsNewer | grimoire/src/updates.rs:206-213 | missing numbers are zeros |
| VersionForms.PrereleasesDecide | grimoire/src/updates.rs:214-219 | with the same numbers a release is above a pre-release, and the higher pre-release number above the lower |
| VersionForms.SecondCandidateIsNewer | grimoire/src/updates.rs:203-220 | 0.3.13-rc2 is newer than 0.3.13-rc1, also spelled with a v |
| Versions.NewerIsAStrictWeakOrder | grimoire/src/updates.rs:191-220 | never both ways, transitive, and incomparability is transitive, over all version strings |
| Upgrades.ParsedPlain | grimoire/src/updates.rs:156-189 | a plain version x.y.z is read as its three numbers |
| Upgrades.ParsedMarked | grimoire/src/updates.rs:156-189 | a version x.y.z-marker is read as its three numbers and a pre-release |
| Upgrades.ParsedDev | grimoire/src/updates.rs:142-189 | a development build x.y.z.preN is read as its three numbers and pre-release N |
| Upgrades.DevBuildsOrder | grimoire/src/updates.rs:191-202 | a development build is older than its release, and the higher build number is newer |
| Upgrades.TuplePlain | grimoire/src/config.rs:2259-2266 | the tuple of a plain version is its three numbers |
| Upgrades.TupleShort | grimoire/src/config.rs:2259-2266 | missing parts of a version, and numbers beyond 32 bits, read as 0 |
| Upgrades.TupleMarked | grimoire/src/config.rs:2259-2266 | the tuple of a marked version has 0 for the marked number |
| Upgrades.AgreeOnPlain | grimoire/src/config.rs:2259-2266 | the two readings order plain versions alike |
| Upgrades.AgreeOnMarked | grimoire/src/config.rs:2253-2266 | on marked versions they agree if and only if the marked number does not decide |
| Upgrades.PrereleaseSplitsTheGates | grimoire/src/config.rs:2344-2349 | 0.3.13-rc1 is past one gate and not past the other |
| Upgrades.Installation.UpgradeConfigAndMigrate | grimoire/src/upgrade.rs:278-455 | records the binary's version and attempts, in order, exactly the migrations whose gates fire for the old one; none if the config cannot be loaded |
| Upgrades.DueByRelease | grimoire/src/upgrade.rs:201-222 | which migrations a config of a release is due for, and their order: all up to 0.3.1, three up to 0.3.6, two up to 0.3.12 |
| Upgrades.GateStaysShut | grimoire/src/upgrade.rs:201-212 | once a binary newer than a gate has upgraded the config the gate never fires again, through any later upgrades that do not go down |
| Upgrades.AttemptedOnceIfReloaded | grimoire/src/upgrade.rs:278-307 | a needed migration is attempted by the first upgrade only, and by it if and only if the config could be loaded |
| Upgrades.NeverAttempted | grimoire/src/upgrade.rs:278-307 | two upgrades past a gate between which a needed migration is never attempted |
| Backfill.RunBackfillRounds | grimoire/src/upgrade.rs:232-266 | the rounds end after the first one that hashes or leaves nothing, or with an error at the round that fails; in the first case nothing hashable is left if and only if no hashable blob stood behind a whole batch of older ones that cannot be hashed |
| Backfill.OneBehindABatch | grimoire/src/upgrade.rs:232-266 | a hashable blob behind a whole batch of others that every round leaves there |
| Backfill.RoundKeepsReachable | grimoire/src/blobz/blake3.rs:447-506 | a round does not change whether every hashable blob can be reached |
| Ranges.ParseRangeHeader | server/src/static_files.rs:343-405 | the loop yields the satisfiable ranges in order, each with start <= end < size, or one of the two errors |
| Ranges.ServeRange | server/src/static_files.rs:273-318 | sends exactly the bytes of a single parsed range; the bounds check never refuses one, and no subtraction underflows |
| RangeForms.ListRead | server/src/static_files.rs:343-405 | a list of ranges in any of the three forms, with white space around them, is read as those the file can satisfy, in order |
| RangeForms.MisshapenRefused | server/src/static_files.rs:343-405 | one misshapen range makes the whole header invalid, whatever the others are |
| RangeForms.OtherUnit | server/src/static_files.rs:352-354 | another unit makes the header invalid |
| RangeForms.NoDash | server/src/static_files.rs:382-398 | text without a dash asks for nothing |
| Ranges.RangeRoundTrip | server/src/static_files.rs:382-397 | a written range s-e is read back as that pair, cut to the file |
| Ranges.PrefixRoundTrip | server/src/static_files.rs:372-381 | a written range s- is read back as everything from s on |
| Ranges.SuffixRoundTrip | server/src/static_files.rs:362-371 | a written range -n is read back as the last n bytes if and only if the file has that many |
| Ranges.SuffixTooLong | server/src/static_files.rs:362-371 | the last five bytes of a file of three are refused, the last three are the whole file |
| Ranges.EmptyFile | server/src/static_files.rs:343-405 | of an empty file nothing is served, whatever the header |
| Ranges.Reassembled | server/src/static_files.rs:280-318 | consecutive chunks of any positive length concatenate to exactly the file |
| Codegen.PascalToSnake | client-codegen/src/generator.rs:349-364 | the loop yields the snake-case form of the name |
| Codegen.PascalRoundTrip | client-codegen/src/generator.rs:349-364 | a Pascal-case name can be read back from its snake-case form |
| CodegenForms.CapitalWord | client-codegen/src/generator.rs:349-364 | a capital becomes the small letter of its place in the alphabet, with an underscore in front unless it is the first letter of the name |
| CodegenForms.SmallName | client-codegen/src/generator.rs:349-364 | a name without capitals stays as it is |
| Codegen.ScanBlock | client-codegen/src/generator.rs:315-327 | finds the end of the block: behind the first semicolon at bracket depth 0, or the end of the text |
| CodegenForms.BlockEndIs | client-codegen/src/generator.rs:310-327 | the block ends behind the first semicolon in front of which as many brackets of the three kinds are closed as opened |
| Codegen.RewriteKindLiteralsToSnakeCase | client-codegen/src/generator.rs:305-347 | the loops keep the text before and after the block and rewrite the block |
| CodegenForms.FirstDeclaration | client-codegen/src/generator.rs:305-347 | what is behind the first declaration of that name, up to the end of its block, is rewritten and nothing else |
| CodegenForms.NoDeclaration | client-codegen/src/generator.rs:305-309 | a text without one is left alone |
| CodegenForms.ClosedLiteral | client-codegen/src/generator.rs:331-346 | the first closed literal is put into snake case and the rewriting goes on behind it |
| CodegenForms.UnclosedLiteral | client-codegen/src/generator.rs:331-346 | a literal that is not closed is left alone with all that follows |
| CodegenForms.NoLiteral | client-codegen/src/generator.rs:331-346 | a block without literals is left alone |
| Codegen.OnlyLiteralsChange | client-codegen/src/generator.rs:328-347 | the contents of the closed literals become snake case, everything else is kept, and a second pass changes nothing |
| Codegen.DepthOfRewritten | client-codegen/src/generator.rs:315-327 | the rewriting keeps the bracket structure |
| Codegen.SameBlockAgain | client-codegen/src/generator.rs:305-347 | in the output the same declaration is found and its block is the rewritten block |
| Codegen.RewrittenTwice | client-codegen/src/generator.rs:305-347 | the whole rewriting is idempotent for every text and name |

## Left out

- Directories, symbolic links, permissions, free space and `fsync` in the storage move: a disk is its files, and a write or rename is atomic and durable once it returns.
- SQLite's write-ahead log, checkpoints and `quick_check`; the iroh store behind the transport index; the twelve digits of a digest in a drawn name.
- `roots`, which derives source and destination from the config, and redundant separators or `.` inside stored paths.
- The order in which a directory walk lists files: the model allows any.
- Preview fields that nothing depends on, the number of bytes and of identical files, and `blocked_reason` of a destination that is full or read-only.
- StorageMove.MoveThroughCrashes: nobody else changes the disk from the start that plans the move to its last one; that other app processes do not while a start runs is `StorageLocks.Exclusion`, that users and the host do not is taken for granted, as is `Orderly`, which is listed above clause by clause.
- StorageLocks.Exclusion: a process that holds a lease and calls `prepare_startup` again is not modelled; it takes no lock.
- PiRecovery.RecoveryRestores: a file's mode and times, sockets that a snapshot skips, and mount points are not part of a tree; the names derived from the time stamp and from `mkstemp` are taken to be new (`PiSnapshot.Orderly`).
- LaunchGate.GateHolds: the installer's own partial states are not modelled; a package is replaced in one change, and an update changes the data in two, of which only the last leaves it whole. Process control, the checks before an update and the migration report only show as the exceptions they raise.
- VolumeQueue.VolumeMenu.QueueVolume: a turn of zero steps, which the menu never queues.
- Encoder.EncoderMotion.Update: the warnings it prints.
- ConfigMerge.ConfigDocument.MergeValuesIntoDoc: keys that are empty or contain a dot, comments and formatting.
- ConfigUpgrade.SecondUpgradeChangesNothing: the fallback to bundled ffmpeg, which runs other programs, and a config whose `server` is not a table, which never loads.
- Versions.ParseVersion: white space and digits outside ASCII.
- Ranges.ServeRange: multipart responses do not exist in the source; validators, headers and caching are not modelled.
- Codegen.RewriteKindLiteralsToSnakeCase: text outside ASCII, and a bracket depth beyond 32 bits. `rewrite_status_literals_to_snake_case` scans the same block and replaces five fixed words of equal length.
- The OLED screens, storage and disk menus, routes, federation, radio and the other generators.
