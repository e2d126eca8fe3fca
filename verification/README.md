# Verified models of the local evidence and backup tools

These Dafny files model the hard parts of the repository's local tooling and prove
what those parts promise. Nothing here runs the tools: each file restates one
component's data, its steps and its error paths, and proves properties of every
input, every pattern of failing calls or every schedule.

| component | files |
|---|---|
| bundle publisher, one builder with faults | LocalDisk, BundleFiles, BundleState, BundlePublish |
| any number of builders on one `.local` | BuilderSteps, ConcurrentBuilders, BuilderRuns, BuilderSafety, BuilderSuccess, BuilderTermination, BuilderProgress, BuilderFairness |
| logical fingerprint of a database | Encoding, Fingerprint, CatalogDigest |
| cold backup, verification, atomic restore | BackupManifest, BackupVerify, Backup, Restore, BackupRoundTrip, SampleBackup |
| owned-tree capture and removal | OwnedTree |
| corruption drill | CorruptCopy |
| fault correlation | Incidents |
| sorting | SetOrder, TextOrder |
| release-evidence gate | Inventory, SbomGraph, ScanReport, ReleaseGate |
| recorder, aggregates, acceptance verdict | Observability, Recorder, ObservationChecker |

Conventions. A file system call that may fail asks an arbitrary function of time
(`reply`), so a contract over a method holds of every run. SHA-256, hexadecimal and
JSON printing are function parameters; where a result needs them to be collision
free or inverse to each other, that is a stated `requires` (`Injective`,
`CollisionFree`). Where a method follows the source check by check, the predicate it is
proved against is written out apart from it, and lemmas whose names end in `Spelled`,
`Reads` or `IsBefore` say what the small functions mean without using them. A digest's
fixed length is never assumed together with injectivity. Code that mutates state in
the source is a class with the same fields; pure code is functions and lemmas.
Schedules are arbitrary sequences of turns; a process that crashes is one that gets no
more turns.

Three findings. A restore into a workspace that has a write-ahead log but no database
goes through and leaves that log beside the restored file
(`Restore.StateDirectory.Restore` says exactly when a log is left,
`BackupRoundTrip.OrphanLogMisleads` what a reader may then see, and
`SampleBackup.RestoredButUnreadable` gives a concrete case). An incident lookup that
errors counts as nothing found: it opens a second incident exactly when one of its
fault is open (`Incidents.ErrorDuplicatesIff`; `Incidents.LookupErrorsDuplicate` is a
run from the start in which that happens). A backup whose checkpoint leaves a log beside
the workspace database refuses before it has recorded the copied file, so that its own
cleanup takes the file for a stranger's: the answer is `backup_failed` instead of
`workspace_busy`, and the partial directory stays (`Backup.BackupArea.Backup`, under
`LeavesLog`).

`dafny verify dfyconfig.toml` checks everything.

## Model

| member | source | states |
|---|---|---|
| BundlePublish.FileSystem.PublishNewOutput | tools/local-stack/build_submission_bundle.py:2162-2285 | for every pattern of failing calls and of source checks: True means `.local` is what it was plus exactly the five files with link count 1 and no lock or stage; False or any error but `cleanup_failed` means `.local` is unchanged; success means that no call failed, that each file, the stage, the complete output and `.local` were synced with their full content, that the source check passed before the manifest was linked and again on the output last verified; a source that is never the same is never published and leaves `.local` unchanged; without faults the outcome is determined by what was on disk and by the source |
| BundlePublish.FileSystem.PublishAgain | tools/local-stack/build_submission_bundle.py:2182-2198 | after a first success a second build with the same files returns False, one with other files is refused (without faults and with a steady source), and unless the second reports leftovers the disk is exactly the one between the two builds; in every case, faults included, the first bundle stays in place |
| BundlePublish.FileSystem.PublishUnderLock | tools/local-stack/build_submission_bundle.py:2180-2285 | the same all-or-nothing result, with the same checks and syncs, for the part that holds the lock, measured against the disk before the lock was taken |
| BundlePublish.FileSystem.Work | tools/local-stack/build_submission_bundle.py:2180-2262 | publishing either hands back a session whose every created file is on record, or has changed nothing; success means a self-describing output that was verified and then checked against the source, in this order, on the disk as it is |
| BundlePublish.FileSystem.BuildOutput | tools/local-stack/build_submission_bundle.py:2199-2260 | a finished build has no stage left and an output directory that verifies against its own manifest, with the source checked before the manifest and after the verification; without failing calls only a changed source stops it, and everything is then on record |
| BundlePublish.FileSystem.StageFiles | tools/local-stack/build_submission_bundle.py:2199-2213 | on success the staging directory holds exactly the five files with the rendered bytes, each recorded; on failure all that was created is accounted for |
| BundlePublish.FileSystem.PublishOne | tools/local-stack/build_submission_bundle.py:2222-2250 | link, unlink and read back move one file from the stage to the output and its record with it; nothing else changes |
| BundlePublish.FileSystem.LinkFiles | tools/local-stack/build_submission_bundle.py:2214-2250 | after the loop the stage is empty and the output holds all five recorded files |
| BundlePublish.FileSystem.CleanupSession | tools/local-stack/build_submission_bundle.py:2266-2279 | cleaning up removes exactly what the session created, or reports failure and removes nothing of anyone else's |
| BundlePublish.FileSystem.CleanupOwnedDirectory | tools/local-stack/build_submission_bundle.py:2141-2159 | a directory is removed only if all it holds is on record; every file that goes is a recorded one, also when the removal fails half way |
| BundlePublish.FileSystem.AcquireLock | tools/local-stack/build_submission_bundle.py:2104-2122 | the lock is taken exactly when nobody has it; failure changes nothing, or is reported as `cleanup_failed` with only the lock file added |
| BundlePublish.FileSystem.SafeUnlink | tools/local-stack/build_submission_bundle.py:2125-2138 | removes a name only if it still is the very file the caller recorded |
| BundlePublish.FileSystem.ExclusiveWrite | tools/local-stack/build_submission_bundle.py:1888-1934 | through short writes of any size, success means a new file with exactly the payload; failure adds at most that one file |
| BundlePublish.FileSystem.ReadBoundFile | tools/local-stack/build_submission_bundle.py:1842-1885 | through short reads of any size, success means the whole content of a regular single-link file within the limit |
| BundlePublish.FileSystem.VerifyExistingOutput | tools/local-stack/build_submission_bundle.py:2037-2077 | accepts exactly an output that carries its own valid manifest and equals the expected bytes; distinguishes a foreign directory from a different bundle |
| BundleFiles.ParseManifest | tools/local-stack/build_submission_bundle.py:1967-2034 | the checks of the ownership manifest, one by one, accept exactly what the specification of the parser accepts |
| BundlePublish.FileSystem.LinkEach | tools/local-stack/build_submission_bundle.py:2218-2250 | after the loop the stage is empty and the output holds all five recorded files, and the source check has passed when the output held every file but the manifest |
| BundleFiles.RenderedBundleIsDescribed | tools/local-stack/build_submission_bundle.py:1967-2034 | producer and parser agree: the rendered manifest is accepted and describes the rendered payloads, given a JSON printer that the decoder inverts |
| BundleState.CleanedUp | tools/local-stack/build_submission_bundle.py:2266-2273 | removing both owned directories gives back the disk as it was before staging |
| BundleState.PublishStepRecorded | tools/local-stack/build_submission_bundle.py:2222-2250 | linking and unlinking a staged file leaves it at link count 2, then 1, under the output name, with both records true of the disk |
| LocalDisk.CreateConserves | tools/local-stack/build_submission_bundle.py:1895-1905 | creating a file keeps every inode's links in step with its names |
| LocalDisk.AddLinkConserves | tools/local-stack/build_submission_bundle.py:2228-2233 | a hard link adds one link and one name to the same inode |
| LocalDisk.RemoveLinkConserves | tools/local-stack/build_submission_bundle.py:2125-2130 | an unlink removes one of each, and frees the inode with the last one |
| LocalDisk.SingleName | tools/local-stack/build_submission_bundle.py:1822-1829 | a file with one link has no second name in `.local` |
| BuilderSafety.MutualExclusion | tools/local-stack/build_submission_bundle.py:2104-2138 | under every interleaving at most one builder is between taking and releasing the lock, and the lock file there is the one it created |
| BuilderSafety.ForeignUntouched | tools/local-stack/build_submission_bundle.py:2125-2159 | no step of a builder removes, rebinds or edits a file it did not itself create, nor a directory another builder made, although check and unlink are separate steps |
| BuilderSafety.NothingPublished | tools/local-stack/build_submission_bundle.py:2162-2285 | when all builders have stopped without leftovers and none published, `.local` is exactly what it was at the start |
| BuilderSafety.OnePublished | tools/local-stack/build_submission_bundle.py:2162-2285 | when one published, `.local` is what it was plus exactly that builder's five files |
| BuilderSafety.PublishesOnce | tools/local-stack/build_submission_bundle.py:2182-2218 | at most one builder ever publishes |
| BuilderSafety.SuccessesAgree | tools/local-stack/build_submission_bundle.py:2182-2198 | builders that return success have published or found the same bytes |
| BuilderSafety.SuccessIsPermanent | tools/local-stack/build_submission_bundle.py:2162-2285 | after a success no later step of any builder changes the output directory, its names, bytes or inodes |
| BuilderSafety.InitialContentKept | tools/local-stack/build_submission_bundle.py:2162-2285 | no run changes any file or directory that was in `.local` at the start |
| BuilderSafety.LinksAreNames | tools/local-stack/build_submission_bundle.py:2206-2250 | in every reachable state a file that a builder created has exactly as many links as names, and the surplus of every other file is unchanged |
| BuilderSafety.ManifestLast | tools/local-stack/build_submission_bundle.py:2219-2257 | moving forward, each of the five files is in the stage or the output with the rendered bytes; once the output holds a manifest it holds all five and the source check has passed |
| BuilderSuccess.SuccessHadNoFailure | tools/local-stack/build_submission_bundle.py:2162-2285 | in every schedule a builder of which some call failed, a source check or the last fsync included, never reports success |
| BuilderSuccess.EarlierStageBlocks | tools/local-stack/build_submission_bundle.py:2180-2181 | on a `.local` that already has a staging directory no builder of any run ever succeeds, not even one whose bundle is there |
| BuilderSuccess.RemovesOnlyRecorded | tools/local-stack/build_submission_bundle.py:2148-2156 | in every run a builder about to remove a file has every entry of that directory on record, and none of its files was there at the start |
| BuilderSuccess.GateWasPassed | tools/local-stack/build_submission_bundle.py:2219-2221 | a builder counts the source as checked only if it had a turn at the source check in which the check passed |
| BuilderProgress.QuietBuilderPublishes | tools/local-stack/build_submission_bundle.py:2162-2285 | from every reachable state in which a builder has not begun and no lock, stage or output is there, some continuation of its own moves alone ends in publishing |
| BuilderProgress.SmoothStep | tools/local-stack/build_submission_bundle.py:2180-2280 | each fault-free move of an unobstructed builder succeeds, and leaves it unobstructed until it has published |
| BuilderFairness.FairRunPublishes | tools/local-stack/build_submission_bundle.py:2162-2285 | from a `.local` without lock, stage or output, every run of one or more builders of small files in which no call fails (writes may be short) and each gets its budget of turns ends with exactly one published bundle and nothing else added; every other builder was refused the lock, found the same bundle, or failed because its files differ |
| BuilderFairness.CheckingGoesOn | tools/local-stack/build_submission_bundle.py:2182-2198 | a builder that gets the lock after a publication compares, and lets go with the answer that fits its files, without leftovers |
| BuilderTermination.BuildersStop | tools/local-stack/build_submission_bundle.py:2162-2285 | in every run, whatever fails and however moves are interleaved, a builder that has had a number of turns fixed by its rendered files alone has stopped |
| BuilderTermination.FairRunsEnd | tools/local-stack/build_submission_bundle.py:2162-2285 | so a run in which every builder gets that many turns ends with `.local` as it was, or with exactly one bundle added, or with a builder that reported an abandoned lock or leftovers |
| BuilderTermination.OwnMoveFalls | tools/local-stack/build_submission_bundle.py:2104-2285 | every move of a builder that has not stopped lowers its bound, in short writes, failures and cleanup alike |
| BuilderTermination.OtherMoveKeepsFuel | tools/local-stack/build_submission_bundle.py:2104-2122 | nobody else's move changes it: while a builder holds the lock no other changes the disk |
| BuilderRuns.StepInv | tools/local-stack/build_submission_bundle.py:2162-2285 | one step of any builder keeps the whole system invariant (soundness of each builder, separation of any two, everything new accounted for) |
| BuilderRuns.RunInv | tools/local-stack/build_submission_bundle.py:2162-2285 | every schedule of any length keeps it |
| BuilderRuns.HolderStep | tools/local-stack/build_submission_bundle.py:2180-2280 | whatever the lock holder does next, success or failure, keeps its phase facts and touches only what it owns |
| BuilderRuns.OutsiderStep | tools/local-stack/build_submission_bundle.py:2104-2122 | a builder without the lock changes nothing until it creates a lock file where there was none |
| ConcurrentBuilders.StepUnstageUnlink | tools/local-stack/build_submission_bundle.py:2241-2242 | unlinking the staged name keeps the file, now single-linked, in the output |
| ConcurrentBuilders.StepDrop | tools/local-stack/build_submission_bundle.py:2148-2152 | a cleanup unlink removes one of the builder's own single-link files and nothing else |
| ConcurrentBuilders.StepReleaseUnlink | tools/local-stack/build_submission_bundle.py:2274-2280 | releasing removes the builder's own lock and leaves its outcome true of the disk |
| Fingerprint.FramesCancel | tools/local-stack/local_stack.py:694-697 | frames are prefix-free: type name, rendering and what follows can be read off the bytes |
| Fingerprint.ValuesCancel | tools/local-stack/local_stack.py:663-697 | framed values are uniquely decodable at every depth of nesting, for a collision-free nested digest |
| Fingerprint.SequencesDiffer | tools/local-stack/local_stack.py:677-688 | equal streams of frames come from equal value sequences |
| Fingerprint.Digest.FingerprintValue | tools/local-stack/local_stack.py:663-697 | the running digest absorbs exactly the frame of the value, and fails exactly when a length does not fit its field |
| Fingerprint.FrameReads | tools/local-stack/local_stack.py:694-697 | a frame reads back as two bytes of length, the type name, eight bytes of length and the rendering, and exists exactly when the lengths fit |
| Fingerprint.TypeNamesSpelled | tools/local-stack/local_stack.py:664-664 | each value carries the name of its Python type |
| Fingerprint.RenderingsSpelled | tools/local-stack/local_stack.py:665-693 | booleans are words, containers the digest of their frames in order, dictionaries with each key before its value |
| CatalogDigest.LogicalCatalogSha256 | tools/local-stack/local_stack.py:699-797 | the nested loops and the cursor batches digest exactly the labelled stream; success exactly on catalogs within the limits whose lengths fit |
| CatalogDigest.EqualDigestsEqualCatalogs | tools/local-stack/local_stack.py:699-797 | with the same table list and row counts, equal digests mean equal metadata rows in all nine sections and equal row sequences in every table |
| CatalogDigest.CountsAreNeeded | tools/local-stack/local_stack.py:785-796 | without the counts two different catalogs share a digest: a table header and a two-string row are framed alike |
| CatalogDigest.StreamSpelled | tools/local-stack/local_stack.py:702-797 | the stream is the nine named sections in order and then the tables |
| CatalogDigest.TableSpelled | tools/local-stack/local_stack.py:779-796 | a table is the pair of its schema and name, then its rows as tuples |
| CatalogDigest.DigestCursor | tools/local-stack/local_stack.py:786-796 | fetching in batches digests every row once, in order |
| Encoding.BigEndianInjective | tools/local-stack/local_stack.py:694-696 | fixed-width lengths determine the number |
| Encoding.BigEndianReads | tools/local-stack/local_stack.py:694-696 | reading the bytes in base 256, most significant first, gives the number |
| Encoding.SignedDecimalReads | tools/local-stack/local_stack.py:673-674 | the text is a minus sign for a negative number and digits that spell its magnitude in base ten |
| Encoding.SignedDecimalInjective | tools/local-stack/local_stack.py:673-674 | the text of an integer determines it |
| BackupManifest.CatalogSummary | tools/local-stack/local_stack.py:613-660 | one pass that stops at the first limit crossed: success exactly on catalogs within the limits, with the counts of the whole list |
| BackupManifest.ValidateManifest | tools/local-stack/local_stack.py:1015-1152 | accepts exactly manifests with a valid head, limits, ordered distinct tables and matching totals, with the error code the source gives |
| BackupManifest.BuiltManifestAccepted | tools/local-stack/local_stack.py:2736-2759 | a built manifest is accepted if and only if the copied file is not empty and the tables ascend |
| BackupManifest.SortedCatalogAccepted | tools/local-stack/local_stack.py:613-622 | every sorted, duplicate-free catalog gives an accepted manifest |
| BackupManifest.AscendingIff | tools/local-stack/local_stack.py:1138-1143 | the validator's order check and its distinctness check together say strictly ascending |
| BackupManifest.KeyLessIsBefore | tools/local-stack/local_stack.py:1138-1141 | tables are ordered by schema and then by name, each in Python's order on text |
| BackupManifest.AcceptedSpelled | tools/local-stack/local_stack.py:1015-1152 | what an accepted manifest looks like, every constant, limit and order written out |
| BackupManifest.BuiltSpelled | tools/local-stack/local_stack.py:2736-2759 | what the producer puts in each field of the manifest |
| BackupManifest.SummarySpelled | tools/local-stack/local_stack.py:613-660 | the summary lists exactly the base tables with their row counts, and counts schemas, tables and views |
| BackupVerify.ManifestHashPinsBackup | tools/local-stack/local_stack.py:1304-1380 | two directories that verify under one manifest hash hold the same manifest and database, byte for byte |
| BackupVerify.VerifiesIff | tools/local-stack/local_stack.py:1304-1380 | verification succeeds exactly on a directory with the two files and no other, no sidecar, a canonical and acceptable manifest, and a database with the length, hash and metadata it says |
| BackupVerify.LoadBackup | tools/local-stack/local_stack.py:1304-1380 | the checks of the source in its order, with validation and metadata by their own methods, give that verdict and that error |
| BackupVerify.DatabaseMetadata | tools/local-stack/local_stack.py:800-824 | summary, schema versions, engine and digest, read in order, are the metadata of the content |
| BackupVerify.MetadataSpelled | tools/local-stack/local_stack.py:800-824 | each version, the engine, the summary and the digest stand in their place, within their limits |
| BackupVerify.EqualMetadataEqualContent | tools/local-stack/local_stack.py:1364-1377 | equal metadata means equal content: sections, base tables, schema versions and engine |
| BackupVerify.BuiltBackupVerifies | tools/local-stack/local_stack.py:2736-2790 | the directory a backup builds verifies, if and only if its database is not empty and its tables ascend |
| Backup.BackupArea.Backup | tools/local-stack/local_stack.py:2572-2860 | somebody else may change the destination at every moment before the answer: each change of what the path shows is on record, at most one is this run's, and that one puts a directory that verifies where nothing was; success means it is still there, holds the two files and no other, that no call failed, and that its manifest says what its database holds and carries this run's identifier, time and marker; the workspace keeps its content, and one that does not open keeps its bytes and its log and is never backed up; a staging directory that is left is reported as `backup_failed`, and stays without a failed call only if a log is left beside the workspace database after its checkpoint, in which case it always stays, or the copy leaves a log without a database |
| Backup.BackupArea.Stage | tools/local-stack/local_stack.py:2644-2790 | what is staged is exactly the database and the manifest, verifies, is wholly recorded, and describes the source as read through the open connection |
| Backup.BackupArea.Admit | tools/local-stack/local_stack.py:2575-2612 | what is refused before anything is created, with which error, and that nothing else is |
| Backup.BackupArea.CleanupPartial | tools/local-stack/local_stack.py:1383-1430 | a stranger or a replaced child means nothing is deleted; success means the staging directory is gone |
| Backup.BackupArea.Publish | tools/local-stack/local_stack.py:958-1006 | whatever appears at the destination between the last look and the rename is not replaced; the rename moves the staged directory as it is to a path that shows nothing, and otherwise staging stays |
| Backup.ChangeFollows | tools/local-stack/local_stack.py:958-1006 | a change that starts from what the path shows, and is this run's only where nothing is, keeps the record connected and free of replacements |
| Backup.BackupArea.WriteManifest | tools/local-stack/local_stack.py:1434-1486 | success adds exactly the manifest file with the payload and records it; a single failing call leaves nothing of it behind |
| Restore.StateDirectory.Restore | tools/local-stack/local_stack.py:2862-3107 | in every state of every run the database is the prior content (byte for byte with its log when it does not open) or has the manifest's length and hash, a log beside a database goes only by being folded into one that opens, and a temp file of somebody else stays; a database that does not open and has a log is never restored over; nothing changes before the directory was, at two moments, a backup with exactly the two files, a canonical acceptable manifest of the expected hash and the database it describes; a replacement comes after the directory held just the two files and the manifest had that hash at two later moments as well; a temp file of this run stays behind only if a call failed, and the answer is then `restore_failed`; success means that no call failed and no sidecar stood in the way; a log is left exactly when there was one and no database; each refusal has the source's error; without faults a verified backup is restored |
| Restore.StateDirectory.Pin | tools/local-stack/local_stack.py:2862-2913 | the manifest handed on belongs to a genuine backup of the expected hash at two different moments, the second under the lock; a directory that stays as it is gets the error of one verification, or `manifest_mismatch`, and is accepted when it verifies under that hash |
| Restore.StateDirectory.ReplaceDatabase | tools/local-stack/local_stack.py:2979-3079 | the replace happens only with a temp file whose bytes and logical metadata are the manifest's, without a sidecar, and after the directory held just the two files and a manifest of the expected hash both before and after the copy |
| Restore.StateDirectory.CopyToTemp | tools/local-stack/local_stack.py:1488-1620 | success means a temp file of this run with the manifest's length and hash, whatever the source showed while it was read; on failure the temp file is gone unless a further call failed, and then the answer is `restore_failed` |
| Restore.StateDirectory.CopyLoop | tools/local-stack/local_stack.py:1541-1551 | the temp file holds exactly the bytes read, within the limit; a quiet source is copied whole |
| Restore.StateDirectory.CheckpointCurrent | tools/local-stack/local_stack.py:2914-2950 | folding keeps the content and leaves no log; a log beside a database that does not open stops the restore and stays, with the database, as it was; a locked database is `workspace_busy`, an unreadable one with a log `restore_failed` |
| BackupRoundTrip.RoundTrip | tools/local-stack/local_stack.py:2572-3107 | backup, restore elsewhere (also over a database that does not open and has no log), restore again: the target gets the source's content and the backup's bytes, and the second restore changes nothing |
| BackupRoundTrip.OneManifestOneContent | tools/local-stack/local_stack.py:1364-1377 | whatever one manifest describes is one content |
| BackupRoundTrip.OrphanLogMisleads | tools/local-stack/local_stack.py:2914-3107 | for every verified backup, every log and every content there are libraries under which a restore into a workspace with that log and no database succeeds and the database then shows that content |
| BackupRoundTrip.RestoreBesideOrphanLog | tools/local-stack/local_stack.py:2914-3107 | such a restore goes through, reports success, and leaves the file to be read with the stray log |
| SampleBackup.SampleVerifies | tools/local-stack/local_stack.py:1304-1380 | a concrete backup of one empty table verifies, under concrete libraries without collisions |
| SampleBackup.RestoredButUnreadable | tools/local-stack/local_stack.py:2914-3107 | a concrete restore beside a stray log that reports success and leaves a database that does not open, although the restored file alone holds the backup's content |
| OwnedTree.VisitExact | tools/local-stack/run_bubbleran_defense_demo.py:275-302 | a capture exists exactly when nothing but files and directories is in the tree; it lists each once, directories after their content |
| OwnedTree.Volume.CaptureOwnedTree | tools/local-stack/run_bubbleran_defense_demo.py:267-303 | the recursive visit computes that capture for the expected root, and only for it |
| OwnedTree.Visitor.VisitDirectory | tools/local-stack/run_bubbleran_defense_demo.py:275-302 | the two lists grow by exactly the capture of the directory |
| SetOrder.SortSet | tools/local-stack/run_bubbleran_defense_demo.py:277-277 | sorting a set of names, or of labels, lists each once in ascending order |
| SetOrder.OneOrder | tools/local-stack/run_bubbleran_defense_demo.py:277-277 | a set has one ascending listing, so the visit order is determined |
| OwnedTree.Volume.RemoveCapturedTree | tools/local-stack/run_bubbleran_defense_demo.py:314-352 | a tree that differs in any path or identity is left alone; otherwise success removes the whole tree; a failure leaves it without the captured files up to some point and, once those are gone, the captured directories up to some point; nothing outside it ever changes |
| OwnedTree.Volume.RemoveDirectories | tools/local-stack/run_bubbleran_defense_demo.py:339-342 | each directory is empty when its turn comes |
| OwnedTree.Volume.RemoveFiles | tools/local-stack/run_bubbleran_defense_demo.py:335-338 | whatever fails, exactly the captured files up to some point of the captured order are gone; all of them on success, which a run without faults reaches; what is left is a tree |
| OwnedTree.ReadyToRemove | tools/local-stack/run_bubbleran_defense_demo.py:339-342 | the k-th captured directory is still there, identified and empty |
| Incidents.OneOpenIncidentPerFault | logservices/faultservice/src/main.py:68-138 | from every table with at most one open incident per fault, under every interleaving of events, resolutions, failing inserts and torn-down handlers, at most one open incident per kind and value pair, as long as lookups err only where their fault has no open incident |
| Incidents.ErrorDuplicatesIff | logservices/faultservice/src/incidentdb.py:131-148 | the exact condition: in every state with the invariant, a lookup that errs and the insert after it keep one open incident per fault if and only if none of this fault was open |
| Incidents.ErrorHarmlessIff | logservices/faultservice/src/incidentdb.py:131-148 | an erring lookup is harmless in every continuation whose later lookups meet the condition if and only if it meets the condition itself |
| Incidents.IncidentTable.ProcessFaultEvent | logservices/faultservice/src/main.py:103-118 | by the names of the fields: with an answered lookup and a working insert an event of either kind changes nothing if an unresolved incident has its two values, and otherwise adds its own; any other event, and one whose lookup errs, is added; at most one open incident per fault is kept if and only if the lookup does not err, nothing is inserted, or none of this fault was open |
| Incidents.HandlerProcesses | logservices/faultservice/src/main.py:103-118 | in the interleaved model a handler's lookup and insert, made without a turn between them, do to the table what that method does |
| Incidents.FaultsTakeTurns | logservices/faultservice/src/main.py:86-118 | in every run, from every table, lookups that err included, two handlers of one fault are never both past the lock |
| Incidents.KeysCollide | logservices/faultservice/src/main.py:68-84 | two different faults can share a correlation key, which the result above does not mind |
| Incidents.FaultSpelled | logservices/faultservice/src/correlate.py:19-48 | which fault an event reports, by logger and by the names of the two fields |
| Incidents.SameFaultIff | logservices/faultservice/src/main.py:68-84 | two events report one fault exactly when their kind and both values agree |
| Incidents.KeySpelled | logservices/faultservice/src/main.py:68-84 | the correlation key is the logger and the two values with colons between, and none for any other event |
| Incidents.OpenSpelled | logservices/faultservice/src/incidentdb.py:131-148 | the lookup finds exactly an unresolved incident with both values in the two named fields |
| Incidents.LockRegistry.GetLockForKey | logservices/faultservice/src/main.py:86-91 | a lock once handed out for a key is never replaced |
| Incidents.IncidentTable.CreateIncident | logservices/faultservice/src/incidentdb.py:103-129 | a created incident is found by its own fault's lookup; a failing insert changes nothing |
| Incidents.InsertInv | logservices/faultservice/src/fault_client.py:128-139 | inserting under the lock keeps at most one open incident per fault |
| Incidents.LookUpInv | logservices/faultservice/src/correlate.py:19-48 | a handler that goes on to insert has no open incident of its fault, whether its lookup found none or erred where there was none |
| Inventory.InventoryDigestIsMultiset | tools/local-container/container_release_evidence.py:149-153 | equal digests exactly for equal multisets, whatever digits, colons or line ends the values contain |
| Inventory.DigestOfAscending | tools/local-container/container_release_evidence.py:149-153 | what is digested is the items of the ascending list, one after the other |
| Inventory.JoinedAppend | tools/local-container/container_release_evidence.py:150-152 | the items follow each other in the order of the list, none added or left out |
| Inventory.JoinedInjective | tools/local-container/container_release_evidence.py:150-152 | the length-prefixed text determines the list |
| Inventory.ItemSpelled | tools/local-container/container_release_evidence.py:150-152 | a value is its length in base ten, a colon, itself and a line end |
| TextOrder.Sort | tools/local-container/container_release_evidence.py:150-150 | sorting gives an ascending list with the same elements |
| TextOrder.LessIsBefore | tools/local-container/container_release_evidence.py:150-150 | the order is Python's: a proper prefix first, and otherwise the first character that differs decides |
| TextOrder.SortComparesMultisets | tools/local-container/container_release_evidence.py:1124-1125 | comparing sorted lists compares multisets |
| SbomGraph.Reachable | tools/local-container/container_release_evidence.py:1108-1115 | the worklist ends on every graph and finds exactly what a path from the root leads to |
| SbomGraph.SbomSummary | tools/local-container/container_release_evidence.py:962-1139 | accepted exactly when references, edges, reachability, coverage, system, layers and packages are all as required |
| SbomGraph.CheckComponents | tools/local-container/container_release_evidence.py:1044-1083 | the component loop accepts exactly valid components with distinct references and packages |
| SbomGraph.CheckDependencies | tools/local-container/container_release_evidence.py:1084-1107 | the dependency loop accepts exactly edges within the references and builds their graph |
| ScanReport.ScanSummary | tools/local-container/container_release_evidence.py:741-959 | goes through exactly on valid reports, with the lists and counts of the whole report; the finding of each vulnerability carries its result's scope and kind and its own fields, and the fixable count is the number of vulnerabilities with a fixed version; passes iff the command succeeded and, for the gate, nothing was found |
| ScanReport.ScanPackages | tools/local-container/container_release_evidence.py:834-867 | the package loop accepts exactly valid packages that are new and within the limit |
| ScanReport.ScanFindings | tools/local-container/container_release_evidence.py:868-925 | the finding loop's checks, counters and lists, written as in the source, are those of the findings |
| ScanReport.CountsConserved | tools/local-container/container_release_evidence.py:896-925 | fixable and unfixed add up to all findings, and so do high and critical |
| ScanReport.FindingsConserved | tools/local-container/container_release_evidence.py:917-921 | the fixable and the unfixed list split the findings; the fixable list is empty iff none is fixable |
| ReleaseGate.Assemble | tools/local-container/container_release_evidence.py:1252-1465 | the verdict is PASS if and only if the evidence is releasable (every condition on files, image, tool, three reports and timeline), and each of the eighteen failures is reported exactly when its own condition holds |
| ReleaseGate.PassMeans | tools/local-container/container_release_evidence.py:1252-1465 | PASS means: no result of the gate report has a vulnerability, no vulnerability of the full report has a fixed version, one package multiset in three reports, base layers a strict prefix, every component reachable |
| Recorder.RecordingRunner.AppendChild | tools/local-stack/run_observability_demo.py:420-456 | an event is appended exactly when the command is known and there is room; the log stays numbered, gapless and bounded, and a log without violations is exactly the calls that came back, in order |
| Recorder.RecordingRunner.Call | tools/local-stack/run_observability_demo.py:458-494 | the delegate's result passes through; the event carries the next attempt number of its stage and branch, the measured whole milliseconds and the outcome; each violation is recorded for its cause and no other; a call that is interrupted is not recorded |
| Recorder.RecordingRunner.AddFinalize | tools/local-stack/run_observability_demo.py:504-525 | after any number of child calls the final event fits the limit and the overflow branch is not taken |
| Recorder.RecordingRunner.constructor | tools/local-stack/run_observability_demo.py:385-401 | the limit is clamped to 1..24, with a violation exactly when it had to be |
| Recorder.RecordingRunner.ValidateGraph | tools/local-stack/run_observability_demo.py:496-502 | a recorder has no violation afterwards if and only if it had none before and the commands that came back are those of the expected graph, in order, each with its attempt number |
| Recorder.GraphIsCalls | tools/local-stack/run_observability_demo.py:496-502 | a gapless log has the expected graph exactly when its calls are the graph's and the graph numbers them as they come |
| ObservationChecker.RecordedRunMatches | tools/local-stack/run_slo_evidence_demo.py:662-683 | what the recorder logs for a run of the producer's graph, all of it succeeding, and its final event are matched by the checker, event by event |
| Observability.AggregateMetrics | tools/local-stack/run_observability_demo.py:667-697 | one series per label that occurs, in label order, with its exact count and duration; refused exactly on an unknown label |
| Observability.LabelLessIsBefore | tools/local-stack/run_observability_demo.py:680-680 | series are ordered by branch, error class, outcome and stage |
| Observability.MetricsConserve | tools/local-stack/run_observability_demo.py:667-697 | no event and no millisecond is lost or counted twice by the series |
| Observability.TimingSnapshot | tools/local-stack/run_observability_demo.py:700-720 | exact totals by branch and by stage; raises exactly on an unknown branch or stage |
| Observability.TimingConserves | tools/local-stack/run_observability_demo.py:700-720 | branch totals and stage totals each add up to the whole list |
| ObservationChecker.MetricsValid | tools/local-stack/run_slo_evidence_demo.py:755-803 | accepts exactly non-empty lists of objects with the seven keys, known labels and a duration, together with their true aggregate, whatever else the fields hold |
| ObservationChecker.ChildTimingValid | tools/local-stack/run_slo_evidence_demo.py:806-848 | accepts exactly the true timing of objects with a known branch, a known stage and a duration, whatever other keys they have |
| ObservationChecker.CheckAgainstProducer | tools/local-stack/run_slo_evidence_demo.py:755-848 | for well-formed events the checker accepts exactly what the producer computed |
| ObservationChecker.AlertCount | tools/local-stack/run_slo_evidence_demo.py:718-752 | counts the expected alerts whose first record is as prescribed; valid exactly when the list is the four expected alerts, each once |
| ObservationChecker.NormalizeObservation | tools/local-stack/run_slo_evidence_demo.py:851-961 | the contract flag is set exactly when the whole observation contract is met |
| ObservationChecker.ContractForcesCounts | tools/local-stack/run_slo_evidence_demo.py:851-961 | the contract forces 22 stages in order and 2/2/2 business counts |
| ObservationChecker.EvaluateWindows | tools/local-stack/run_slo_evidence_demo.py:964-1028 | each of the five indicators, in order, sums its own field of the three windows over its own denominator and shows the floor of the ratio in parts per million; it is met iff its numerator reaches its denominator iff it shows 1,000,000 ppm, which it never exceeds; the state is OK iff all three windows are full |
| ObservationChecker.PpmReachesObjective | tools/local-stack/run_slo_evidence_demo.py:1002-1016 | floored parts per million reach the objective exactly with the denominator |
| ObservationChecker.Accept | tools/local-stack/run_slo_evidence_demo.py:1090-1100 | three child runs are accepted if and only if each meets the whole contract |
| CorruptCopy.Copier.CopyBounded | tools/local-stack/run_backup_restore_demo.py:803-879 | with arbitrary short reads and writes a finished copy equals the source; an unfinished one is a prefix of it |
| CorruptCopy.Copier.WriteAll | tools/local-stack/run_backup_restore_demo.py:839-844 | a chunk is written whole in however many pieces, or the copy fails |
| CorruptCopy.Copier.CorruptFirst | tools/local-stack/run_backup_restore_demo.py:953-961 | the copy ends up with its first byte complemented, or is refused |
| CorruptCopy.FlipIsXor | tools/local-stack/run_backup_restore_demo.py:953-961 | the byte is inverted bit by bit, on every pattern of eight bits |
| CorruptCopy.CorruptedDiffersInOneByte | tools/local-stack/run_backup_restore_demo.py:953-961 | the damaged file has the same length and differs in byte 0 only |
| CorruptCopy.DamageIsDetected | tools/local-stack/local_stack.py:1335-1342 | a verified backup with one damaged byte is refused as invalid |
| CorruptCopy.RefuseDamaged | tools/local-stack/run_backup_restore_demo.py:1405-1500 | under every pattern of failing calls and reads a restore from the damaged copy is refused and the workspace stays as it was |
| CorruptCopy.Drill | tools/local-stack/run_backup_restore_demo.py:1405-1500 | in a run without faults the damaged copy is refused as invalid and the workspace untouched, the good backup then restores, also over a database that does not open and has no log, and again without change |

## Left out

- BundlePublish.FileSystem.PublishNewOutput: `lstat` never fails, devices, modes and ownership bits are not modelled, repeated re-reads of one identity are read once, and the codes `io_failure` and `unsafe_filesystem` are folded into the two write and workspace errors.
- BundlePublish.FileSystem.CleanupOwnedDirectory: the order in which the owned files go is unspecified (the source sorts), so the result holds of every order; the second listing before `rmdir` is the emptiness that `rmdir` itself demands.
- BuilderSuccess.SuccessHadNoFailure: the final verification, and the comparison with an existing output, are one step together with the source check after them.
- BuilderSafety.ForeignUntouched: builders compare an existing output by its bytes; that it also carries a valid manifest is part of the single-builder model.
- BuilderSafety.ManifestLast: not claimed during failure cleanup, which removes files in name order.
- Fingerprint.ValuesCancel: a string is its UTF-8 bytes, a float its `hex()` text and a timestamp its ISO text; that these texts determine the Python values is Python's own promise. Subclasses of built-in types are values of another type name.
- CatalogDigest.LogicalCatalogSha256: query results are given as row lists in the queries' order; SQL and DuckDB itself are not modelled.
- BackupManifest.ValidateManifest: works on a document that has the right keys and JSON types; the checks for missing, extra and ill-typed members and for duplicate JSON keys belong to parsing.
- BackupVerify.ManifestHashPinsBackup: one verification reads the directory at one moment; between the verifications of a restore, and during its copy, the directory may show anything.
- Restore.StateDirectory.Restore: nobody else edits the state directory while the maintenance lock is held; a failed checkpoint leaves the files alone.
- Backup.BackupArea.Backup: the check after the rename that the destination still is the staged directory compares contents, where the source compares identities (inode, size, times); what others do after the answer is not looked at. The staging directory's random name is new; the marker hash, identifier and time are arguments; the ownership digest in the response is not modelled.
- OwnedTree.Volume.RemoveCapturedTree: link counts of files inside the tree are part of the identity number, and nothing else edits the tree while it is removed.
- CorruptCopy.Drill: `_remove_backup_directory` (check the whole capture, then delete file by file) is the removal pattern already modelled twice, in `Backup.BackupArea.CleanupPartial` and in OwnedTree, and is not repeated.
- Incidents.OneOpenIncidentPerFault: one process with one lock map; identifiers drawn for incidents are new; values are strings; waiting handlers may be served in any order.
- ReleaseGate.Assemble: checks that compare document heads, file digests, tool binaries and the timeline with constants enter as flags of the evidence; the identity text of a finding is a function parameter.
- ObservationChecker.NormalizeObservation: comparisons of fixed literals (privacy, coverage, schema, correlation, alert texts) enter as flags.
- Recorder.RecordingRunner.Call: the command-to-stage table is a parameter; what matters is whether it gives a stage and branch of the fixed graph.
- Crash durability: fsync is a step that may fail and changes nothing; when it was done, and on which content, is on record.
- Windows paths, reparse points and path-type checks: platform detail.
- Subprocess handling (git, Docker, Compose, Trivy), threads and timeouts.
- HTML rendering, the privacy scan and the fixed ledger constants.
- HTTP, A2A and MCP clients, agent cards, the dashboard, the operator, the log collector and SQL string escaping: wrappers over code that is not part of this model.
