# Volume life cycle of the Xen Orchestra CSI driver

The driver keeps no state of its own. Everything it knows about a volume is in Xen Orchestra (XO):
disks, their names, their descriptions and their attachments. It encodes the phases of its protocols
in names (`csi-…`, `csi-temp-…`) and descriptions (`csi:info: …`, `csi:deletion-candidate: …`), may be
interrupted between any two remote calls, and shares XO with migrations and disk creations that go on
after it has given up on them. This project models that and proves what the driver relies on.

## Layout

| file | content |
|---|---|
| `DiskNames`, `VolumeIds`, `Json`, `Metadata`, `StorageParameters` | names, handles, descriptions and parameters as text; what they are read back as |
| `SrPicking`, `SrSelection`, `SrOrders`, `StorageSelections` | choosing a storage repository: loops against specification functions, what the functions guarantee, what the order of the listing decides, and the `storageSelection` object |
| `Xo`, `XoClient` | XO as the driver sees it: values, and a client object whose calls can fail before or after taking effect |
| `CreationProtocol`, `CreationSafety`, `CreationRuns`, `CreationAccounts` | creators, the cleaner, the readers/writer lock, late server-side creation, restarts: transition system, invariant, theorems over runs, accounting of disks |
| `StaleListings` | when the cleaner can delete a finished disk, exactly |
| `CleanupPasses`, `LeakLifetimes` | how long a leaked disk lives: for passes that take time, and in every run |
| `TempCleaner`, `VolumeCreator` | the cleaner's and `CreateVolume`'s code, each proved to be a stretch of a run of the creation protocol |
| `MigrationProtocol`, `MigrationSafety`, `MigrationRuns`, `MigrationTargets`, `MigrationRecovery`, `MigrationScenes` | publishing, expanding, unpublishing, deleting against XO's own migrations: transition system, invariant, theorems over runs, where migrations go, recovery, one run in full |
| `VolumeHandover` | `CreateVolume` with both protocols looking on: what it leaves behind, made or reused, is what the migration protocol hands out as a volume; and the cleaner's steps followed in both |
| `CreationFollows` | the other direction: what happens to the disks of volumes handed out, followed in the creation protocol |
| `VolumePublisher`, `VolumeUnpublisher`, `VolumeUpkeep` | the code of publishing, unpublishing, deleting and expanding, each proved to be a stretch of a run of the migration protocol |

The two protocols are transition systems over *readings*: `DiskNames.ReadName` and
`Metadata.FromDescription` say what a label or a description means, and the round-trip lemmas show
that what the driver writes is read back as what it meant. A step is a call that starts, one remote
operation of a call with any of its possible outcomes, a step of the cleaner, a step of XO, a restart,
or something done by somebody else. A `Run` is any finite sequence of such steps. The imperative
classes receive a run as a ghost argument and return one that continues it: each operation of the code
is shown to be a step of its protocol. That is proved for executions in which nobody else acts between
two calls of one method, and whatever fails; interleavings live in the transition systems, whose
theorems hold for every run. What a call does and why it fails is stated besides in terms of its arguments
and the state before it: success, and every error but "retry later", have their cause there whatever
fails; "retry later" is answered only if a remote call failed (`faults` grew).

## Assumptions

- One controller process at a time; its lock is in memory only (pkg/csi/creationlock.go:28-30).
- At most one call in flight per volume, as in the "Concurrency" section of the CSI specification
  v1.11.0. Calls for different volumes overlap freely.
- An edit, a deletion, an attachment takes effect before it returns or never, though the reply may be
  lost; `disk.create` and `vdi.migrate` may take effect after the caller has given up.
- XO gives a migrated disk the name and description of its source, removes the source last, never
  reuses uuids, and refuses to delete a disk it is copying.
- Volume names do not start with `temp-` (`DiskNames.Ordinary`; `DiskNames.FinalMeetsTemporary` shows
  what happens otherwise).
- `CreateVolume` is repeated with the same parameters, and not while XO migrates the volume.
- The driver's disks are renamed and described by nobody else. Finished disks are resized and migrated by
  the driver's other calls only, and deleted by `DeleteVolume` or by the cleaner acting on a stale listing
  (`MigrationProtocol.CleanerErases`; `StaleListings` says when). What is said of a volume handed out holds
  until one of these deletes it. Temporary disks may also be deleted by anybody, at any time. Disks with
  other names and all attachments may be changed by anybody.
- For shared repositories, equal hosts lie in equal pools (`MigrationProtocol.Placed`). Local ones need no such thing.

## Where the obvious claim is false

- The cleaner deletes on the word of its listing (pkg/csi/temp_cleanup.go:129-132).
  `CreationRuns.StaleSnapshotErasesFinishedDisk` is a run in which that costs a finished disk;
  `CreationRuns.ErasesTemporaryExactlyWhen` says when what it deletes is still temporary, and
  `StaleListings.CanBeErasedExactlyWhen` which finished disks are in danger: those that the pass under way
  has listed as marked temporary ones and not dealt with yet. `VolumeHandover.Provide` says what that means
  for a volume just created.
- `pickSRWithMostSpace` looks at usage, not at free space (pkg/csi/sr_selection.go:286-296):
  `SrPicking.PickMissesFreeSpace`, and `SrPicking.MissesExactlyWhenLeastUsedIsFull`.
- Its sum can overflow: `SrPicking.OverflowPicksFullSr`, and `SrPicking.RoomTestIsExactUpToOverflow`.
- The listing comes out of a Go map in any order. Ties in usage make the choice depend on it:
  `SrPicking.TiesMakeOrderMatter`; exactly when is said by `SrOrders.SuccessIgnoresOrderExactlyWhen`,
  `SrOrders.ChoiceIgnoresOrderExactlyWhen` and, for migrations, `SrOrders.MovesInEveryOrderExactlyWhen`.
- `pickSRForHost` filters by host even where validity goes by pool (pkg/csi/sr_selection.go:257-274), so
  a disk can be sent to where it is: `SrSelection.SharedTargetCanBeTheSource`; exactly when, in some
  order and in every order, is said by `SrOrders.TargetCanBeSourceExactlyWhen` and
  `SrOrders.TargetIsSourceExactlyWhen`. And `SrSelection.NoContainerOnHostNoMigration`.
- A migration that comes to nothing leaves its marker, so retrying alone never helps:
  `MigrationRecovery.FailedMigrationSticks`; `MigrationRecovery.StuckExactlyWhen` says exactly when a volume
  is stuck, and `MigrationRecovery.LookupLeadsOnExactlyWhen` when publishing goes on.
- `DeleteVolume` takes "no such object" for success (pkg/csi/controller.go:201-203). If a migration finishes between its
  lookup and its deletion, the copy stays: `MigrationScenes.DeletionCanMissTheCopy`, and
  `MigrationRecovery.WhatDeletionLeaves`.

- A temporary disk left over from an earlier attempt is reused whatever its size
  (pkg/csi/controller.go:601-610), so a success can have another size than requested:
  `VolumeCreator.RightSizeExactlyWhen`.
- `ControllerGetVolume` restores a selection and asks it for a topology without looking up its repositories
  (pkg/csi/controller.go:516-520): `VolumeUpkeep.Keeper.GetVolume` never succeeds.
- What publishing has checked can have changed when it acts on it: `MigrationRuns.VmCanMoveAway`,
  `MigrationRuns.DiskCanBeAttachedMeanwhile`, `MigrationRuns.TargetCanFillUp`.

The code was followed where it and its prose disagree: the cleaner's comment says every 5 minutes, the
constant is 2 (pkg/csi/temp_cleanup.go:26, 57); docs/disk-migrations.md:7 says that migration works for
shared repositories, but a target is only found among those whose container is the VM's host.

## Model

| member | source | states |
|---|---|---|
| DiskNames.NewGenerator | pkg/csi/diskname_generator.go:30-35 | the name prefix is the given one, or `csi-`, and so never empty; the temporary prefix is that and `temp-` |
| DiskNames.NameIsRecoveredFromItsReading | pkg/csi/diskname_generator.go:37-52 | reading a label loses nothing: the label is rebuilt from its reading |
| DiskNames.LabelsAgreeWithReadings | pkg/csi/temp_cleanup.go:170-173 | two labels are equal exactly when their readings are, so comparing readings is what the cleaner's comparison of labels does |
| DiskNames.TemporaryNameReading | pkg/csi/diskname_generator.go:41-43 | the temporary name of a volume is read as temporary, of that volume |
| DiskNames.FinalNameReading | pkg/csi/diskname_generator.go:37-39 | the final name is read as final, of that volume, exactly when the volume's name does not start with `temp-` |
| DiskNames.FinalMeetsTemporary | pkg/csi/diskname_generator.go:34-43 | the final name of `temp-x` is the temporary name of `x` |
| VolumeIds.NameHandleRoundTrip | pkg/csi/volume_id.go:32-50 | a handle made from a name parses back to that name |
| VolumeIds.UuidHandleRoundTrip | pkg/csi/volume_id.go:36-50 | a handle made from a uuid parses back to it exactly when it is not empty and does not look like a name handle |
| VolumeIds.ParsedHandleIsRebuilt | pkg/csi/volume_id.go:40-50 | parsing loses nothing, so two handles never denote the same volume |
| Json.QuotedRoundTrip | pkg/csi/embedded_vdi_metadata.go:123-137 | an escaped string, with anything behind it, is read back as itself and the rest |
| Json.DecimalRoundTrip | pkg/csi/embedded_vdi_metadata.go:52-54 | a number written in decimal is read back as itself |
| Json.ObjectRoundTrip | pkg/csi/embedded_vdi_metadata.go:42-50 | an object with two optional fields is read back with the same fields present and the same values |
| Metadata.MigratingRoundTrip | pkg/csi/embedded_vdi_metadata.go:47-50 | the migration part of a record is read back as itself, with or without a target |
| Metadata.StorageInfoReadsBack | pkg/csi/embedded_vdi_metadata.go:96-129 | what a written record is read as, for every record: itself with the flag set, or a rejection when it migrates without a tag |
| Metadata.StorageInfoRoundTrip | pkg/csi/embedded_vdi_metadata.go:96-129 | a written record is read back as itself exactly when it migrates only with a tag and with the flag set |
| Metadata.DeletionCandidateRoundTrip | pkg/csi/embedded_vdi_metadata.go:113-137 | a written mark is read back as a mark with the same time |
| Metadata.TextsInFull | pkg/csi/embedded_vdi_metadata.go:29-50 | the texts of the records and marks the driver writes, in full, for every tag, target and time |
| Metadata.KindsAreDisjoint | pkg/csi/embedded_vdi_metadata.go:85-94 | no text is read as both kinds: a written record is never read as a mark and a written mark never as a record |
| Metadata.UnmarkedTextsAgreeWithReadings | pkg/csi/temp_cleanup.go:165-168 | for descriptions without metadata, equal texts and equal readings are the same thing |
| StorageParameters.LoadStorageParameters | pkg/csi/storage_parameters.go:43-62 | which parameters are rejected, and what is made of the others, for every map |
| SrPicking.RoomTestIsExactUpToOverflow | pkg/csi/sr_selection.go:294-296 | the room test in 64 bits decides whether the disk fits, except that it passes whenever the sum overflows |
| SrPicking.PickSrWithMostSpace | pkg/csi/sr_selection.go:281-299 | the loop returns the first of the least used repositories if that one passes the room test; otherwise the error that applies |
| SrPicking.LeastUsedIsLeast | pkg/csi/sr_selection.go:286-291 | the candidate is in the list and nothing in the list is used less |
| SrPicking.FilterSrsByTopology | pkg/csi/sr_selection.go:301-323 | the nested loops compute the filter of the specification; the result holds exactly the repositories of the input that some listed topology permits, in fields: under host scope by an absent, empty or equal host segment and pool segment, under pool scope by the pool segment alone, under global scope always |
| SrPicking.MatchesExactlyWhen | pkg/csi/sr_selection.go:304-319 | the test of one repository against one topology is what its segments say: only segments that are set and count under the scope constrain |
| SrPicking.FilterMultiplicity | pkg/csi/sr_selection.go:301-323 | each repository appears in the result once per occurrence in the input and topology that permits it |
| SrPicking.FilterMembers | pkg/csi/sr_selection.go:301-323 | the result holds exactly the repositories of the input that some listed topology permits under the scope |
| SrPicking.RepetitionIsHarmless | pkg/csi/sr_selection.go:281-323 | removing the repetitions changes neither the least used repository nor success or failure |
| SrPicking.TiesMakeOrderMatter | pkg/csi/sr_selection.go:286-291 | two lists with the same repositories for which the choice succeeds in one order and fails in the other |
| SrPicking.FilterSrsForHost | pkg/csi/sr_selection.go:271-279 | the loop keeps the repositories on the host, in order |
| SrPicking.OnHostMembers | pkg/csi/sr_selection.go:271-279 | the result holds exactly the repositories of the input on that host |
| SrPicking.PickSr | pkg/csi/sr_selection.go:325-354 | the code computes the two-tier choice, for every requirement |
| SrPicking.PickMeetsSpecification | pkg/csi/sr_selection.go:325-354 | independent specification: the result is a best one of the preferred tier; or that tier is empty or full and it is a best one of the eligible tier; and what each error means |
| SrPicking.PickHonoursRequisite | pkg/csi/sr_selection.go:325-354 | with preferred within requisite and requisite not empty, a success is in the input and some requisite topology permits it |
| SrPicking.PickIsCompleteForEqualSizes | pkg/csi/sr_selection.go:281-354 | with equal sizes and no overflow the choice fails exactly when nothing preferred or eligible fits, and is a preferred one whenever a preferred one fits |
| SrPicking.PickMissesFreeSpace | pkg/csi/sr_selection.go:286-296 | a list with room on which the choice reports none |
| SrPicking.MissesExactlyWhenLeastUsedIsFull | pkg/csi/sr_selection.go:281-299 | for every list, success means that something fits exactly unless the least used one lacks room while another has it |
| SrPicking.OverflowPicksFullSr | pkg/csi/sr_selection.go:294-296 | a repository picked although the disk cannot fit |
| SrSelection.ChosenInfoIsStorable | pkg/csi/sr_selection.go:105-113 | accepted parameters plus a successful lookup give a record that is read back as itself, so the driver never rejects its own output |
| SrSelection.SelectsExactlyWhen | pkg/csi/sr_selection.go:152-211 | a CreateVolume call finds repositories exactly when the named one exists, or tagged ones exist and agree on being shared; and it selects exactly those |
| SrSelection.RestoredInfoIsStorable | pkg/csi/sr_selection.go:115-133 | so does every record that publishing writes, marked or not; starting a migration shows its target and ending it restores the record |
| SrSelection.StoreThenRestore | pkg/csi/sr_selection.go:84-211 | storing a selection in the description and restoring it on the same directory, with the tag query in any order, keeps handle type, scope, topology, migration and current repository |
| SrSelection.NonMigratingNeverMigrates | pkg/csi/sr_selection.go:235-250 | what a non-migrating volume stores is never restored to a selection that migrates; where the repository does not serve the VM, publishing fails |
| SrSelection.PickedForHost | pkg/csi/sr_selection.go:266-279 | a migration target is a selected repository on the host, passes the room test, none there is used less, and when it serves the VM |
| SrSelection.MigrationTargetIsElsewhere | pkg/csi/controller.go:755-763 | the target of a needed migration is never the repository the disk is on, and serves the VM; shared repositories need one assumption, local ones none |
| SrSelection.SharedTargetCanBeTheSource | pkg/csi/sr_selection.go:253-279 | a shared repository that the driver decides to leave and picks as target |
| SrOrders.SuccessIgnoresOrderExactlyWhen | pkg/csi/sr_selection.go:281-299 | whether a repository is picked is the same in every order of the list exactly when all least used ones agree on the room test |
| SrOrders.ChoiceIgnoresOrderExactlyWhen | pkg/csi/sr_selection.go:281-299 | which one is picked is the same in every order exactly when the least used one is unique or none of them passes the room test |
| SrOrders.MovesInEveryOrderExactlyWhen | pkg/csi/sr_selection.go:235-299 | a needed migration finds a target in every order of the tag query exactly when a tagged repository is on the VM's host and every least used one there passes the room test |
| SrOrders.MovableFindsTarget | pkg/csi/sr_selection.go:232-279 | in whatever order XO lists the repositories, the selection restored for such a disk decides to migrate and finds a target |
| SrOrders.TargetCanBeSourceExactlyWhen | pkg/csi/sr_selection.go:253-279 | in some order the target is the very repository to be left: exactly when that one is shared, bears the tag, is on the VM's host but in another pool, passes the room test and is used no more than any tagged one there |
| SrOrders.TargetIsSourceExactlyWhen | pkg/csi/sr_selection.go:253-279 | in every order: exactly when, besides, every other tagged repository there is used more |
| SrSelection.NoContainerOnHostNoMigration | pkg/csi/sr_selection.go:266-284 | no target is found exactly when no selected repository has the VM's host as its container |
| SrSelection.FreshTopologyIsRequisite | pkg/csi/sr_selection.go:213-230 | for a tagged volume without migration whose disk is on the repository picked for it, the topology handed out names that repository's pool and host and agrees with some requisite topology on every segment |
| SrSelection.SelectionOwes | pkg/csi/sr_selection.go:90-148 | handle, topology and record of a volume, told from the parameters and the disk's repository: the uuid exactly for a shared repository without migration, else `name:` and the volume's name; no topology exactly with migration, else the pool, and the host exactly for a local repository under host topology; the tag recorded exactly with migration |
| SrSelection.PlaceIsBest | pkg/csi/sr_selection.go:213-230 | where a new disk goes, told from the directory in any order of the tag query: on the named repository; or on a least used tagged one with room that a preferred topology lets use; or, where these are given up, that a requisite one lets use; and otherwise nowhere. The host segment counts for local repositories only |
| StorageSelections.StorageSelection.FromParameters | pkg/csi/sr_selection.go:72-88 | the object built from storage class parameters |
| StorageSelections.StorageSelection.FromStorageInfo | pkg/csi/sr_selection.go:117-133 | the object restored from a record and the disk it was read from |
| StorageSelections.StorageSelection.FindSrs | pkg/csi/sr_selection.go:152-211 | what looking up the repositories makes of the object, for every directory, listing order and failing call |
| StorageSelections.StorageSelection.AdoptListing | pkg/csi/sr_selection.go:181-207 | the tag half: uniform sharing, and the disk's own repository from the listing or asked for separately |
| StorageSelections.StorageSelection.PickSrForTopology | pkg/csi/sr_selection.go:215-230 | the choice at creation, local repositories by host and shared ones by pool |
| StorageSelections.StorageSelection.PickSrForHost | pkg/csi/sr_selection.go:266-269 | the choice of a migration target |
| StorageSelections.StorageSelection.GetTopologyForVdi | pkg/csi/sr_selection.go:356-392 | fails exactly when the disk's repository is not a selected one; otherwise hands out none exactly with migration, else that repository's pool, and its host exactly under host topology for local repositories |
| XoClient.Client.GetVdiByName | pkg/xoa/jsonrpc_client.go:340-362 | the none, one or many answer to a lookup by name |
| XoClient.Client.EditVdi | pkg/xoa/jsonrpc_client.go:370-395 | an edit changes the given fields of the given disk before it returns, or nothing |
| XoClient.Client.MigrateVdi | pkg/xoa/jsonrpc_client.go:729-747 | where a migration can be when the caller stops waiting, and what that does to the disks |
| CreationSafety.InitialInv | pkg/csi/temp_cleanup.go:44-54 | a freshly started driver is in order over any pool without marked or doubled finished disks |
| CreationSafety.RenameStep | pkg/csi/controller.go:612 | renaming a disk and clearing its description keeps all invariants, including that the cleaner's pending edit cannot hit it |
| CreationSafety.CleanerStep | pkg/csi/temp_cleanup.go:92-182 | every step of the cleaner keeps them: a mark only goes on a disk that is still temporary under the exclusive lock |
| CreationSafety.StepKeepsInv | pkg/csi/controller.go:571-622 | every step of every call, of the cleaner, of the server and of the world keeps them |
| CreationRuns.InvAlways | pkg/csi/controller.go:571-622 | they hold in every state of every run |
| CreationRuns.FinalsNeverMarked | pkg/csi/creationlock.go:19-30 | in every state of every run, no disk with a final name carries a deletion mark |
| CreationRuns.FinalForever | pkg/csi/controller.go:612 | once a disk has its final name it keeps it, and no mark ever follows |
| CreationRuns.SuccessfulCreateRenamed | pkg/csi/controller.go:571-622 | every createDisk that succeeds renamed its disk to the final name with an empty description, and from then on that disk is never marked |
| CreationRuns.NoResurrection | pkg/csi/temp_cleanup.go:101-106 | a deleted disk never comes back under its uuid |
| CreationRuns.TemporaryUnlessRenamed | pkg/csi/controller.go:612 | a temporary disk that still exists has its temporary name exactly if no createDisk renamed it, and else the final name of the same volume |
| CreationRuns.SnapshotTaken | pkg/csi/temp_cleanup.go:95-104 | all that a pass does is based on one listing it took at its beginning |
| CreationRuns.SightingOf | pkg/csi/temp_cleanup.go:119-128 | a remembered time is that of a sighting by this process, with no restart since |
| CreationRuns.MarkingOf | pkg/csi/temp_cleanup.go:175-181 | a mark on a temporary disk was there when the run began or was written in it, with the time it says |
| CreationRuns.DeletionHistory | pkg/csi/temp_cleanup.go:129-138 | every disk the cleaner deletes was, in the listing used, temporary with a mark more than 30 minutes old, and never had a final name before |
| CreationRuns.MarkHistory | pkg/csi/temp_cleanup.go:92-151 | unless the mark is older than the run, the disk was in every listing since a first sighting more than 10 minutes before the mark, without a restart, and more than 40 minutes before the deletion |
| CreationRuns.ErasesTemporaryExactlyWhen | pkg/csi/temp_cleanup.go:95-137 | what the cleaner deletes is temporary at that moment exactly if no createDisk renamed it since the listing |
| CreationRuns.StaleSnapshotErasesFinishedDisk | pkg/csi/temp_cleanup.go:129-132 | a run in which CreateVolume succeeds and the cleaner then deletes the finished disk |
| StaleListings.NeverErased | pkg/csi/temp_cleanup.go:95-142 | a finished disk that the pass under way does not hold as a marked temporary one is not deleted by the cleaner, in this pass or any later one |
| StaleListings.CondemnedCanBeErased | pkg/csi/temp_cleanup.go:101-142 | one that it does hold can be deleted: from any state of any run, whatever calls are in flight, the pass can come to it without touching another disk |
| StaleListings.CanBeErasedExactlyWhen | pkg/csi/temp_cleanup.go:95-142 | so, over all continuations of any run, a finished disk can be deleted by the cleaner exactly when the pass under way still holds it as a marked temporary one |
| CreationAccounts.AtMostOneFinished | pkg/csi/controller.go:96-121 | no volume that never migrates ever has two finished disks, however often CreateVolume is repeated |
| CreationAccounts.Conservation | pkg/csi/controller.go:601-610 | the disks made for a volume are its finished, its temporary and its deleted ones, and as many as the requests that were carried out |
| CreationAccounts.LeftoversAreFailures | docs/disk-creation-leakage.md:11-20 | leftover temporary disks and unanswered requests of a volume together number at most its failed calls, plus the call in flight if that one is just creating a disk |
| CreationAccounts.LeftoversAfterSuccess | docs/disk-creation-leakage.md:11-20 | once the volume has its finished disk, they number at most its failed calls |
| CreationAccounts.TemporariesAccounted | docs/disk-creation-leakage.md:11-20 | every temporary disk of a volume was made by one of its requests or was there when the run began |
| CreationAccounts.AtMostOneCreate | pkg/csi/controller.go:601-608 | each CreateVolume call sends at most one request to create a disk |
| CleanupPasses.LifeOfALeak | pkg/csi/temp_cleanup.go:119-138 | after every pass since its first sighting a leaked disk is known, marked or gone, with bounds on each time, for passes of any length up to a given one |
| CleanupPasses.LeakLivesFortyMinutesToTwoGapsMore | pkg/csi/temp_cleanup.go:25-29 | for every gap between passes, every length of a pass and every schedule: a leak is left by every pass that ends within 40 minutes of its first sighting, and a pass deletes it within two gaps and two lengths after that |
| LeakLifetimes.PassesPresent | pkg/csi/temp_cleanup.go:92-151 | in every run, whatever calls do between its steps: a pass that found the disk, and did not fail on it, has dealt with it by its end as CleanupPasses says |
| LeakLifetimes.RunsAreSchedules | pkg/csi/temp_cleanup.go:56-72 | the passes of a run, however interleaved with calls, are such a schedule for every disk that is left to the cleaner |
| LeakLifetimes.LeakedDiskIsGoneInTime | pkg/csi/temp_cleanup.go:25-29 | in every run, a leaked disk is there for 40 minutes after its first sighting and gone two gaps and two lengths later |
| TempCleaner.CreationLock.AcquireCreation | pkg/csi/creationlock.go:36-38 | one more creator, while no marker holds the lock |
| TempCleaner.CreationLock.ReleaseCreation | pkg/csi/creationlock.go:40-42 | one creator fewer |
| TempCleaner.CreationLock.AcquireDeletion | pkg/csi/creationlock.go:44-46 | the marker alone holds the lock |
| TempCleaner.CreationLock.ReleaseDeletion | pkg/csi/creationlock.go:48-50 | the lock is free again |
| TempCleaner.Cleaner.SetDeletionCandidate | pkg/csi/temp_cleanup.go:153-182 | lock, refetch, compare, edit, unlock: a stretch of a run; without failures an unchanged disk is marked with the current time |
| TempCleaner.Cleaner.ProcessUnmarked | pkg/csi/temp_cleanup.go:120-128 | a temporary disk without metadata is remembered, or marked once seen for more than 10 minutes |
| TempCleaner.Cleaner.ProcessCandidate | pkg/csi/temp_cleanup.go:129-138 | a marked one is deleted if its mark is more than 30 minutes old, and else left |
| TempCleaner.Cleaner.Process | pkg/csi/temp_cleanup.go:104-142 | one round of the loop, whatever kind of disk it meets |
| TempCleaner.Cleaner.Prune | pkg/csi/temp_cleanup.go:144-150 | sightings of disks that were not listed are forgotten, the others kept with their times |
| TempCleaner.Cleaner.Sweep | pkg/csi/temp_cleanup.go:101-142 | the loop over the listing is a stretch of a run; without failures every listed disk has been dealt with, at a time during the loop, and nothing else has been touched |
| TempCleaner.Cleaner.Cleanup | pkg/csi/temp_cleanup.go:92-151 | one pass is a stretch of a run; without failures, and however long it takes, it has done to every disk and every sighting what CleanupPasses reasons about |
| VolumeCreator.Creator.DeleteRest | pkg/csi/controller.go:825-831 | the loop deletes nothing but the listed leftovers after the first, and all of them if no call fails |
| VolumeCreator.Creator.GetOneDiskAndDeleteRest | pkg/csi/controller.go:810-834 | keeps one temporary disk of the volume and loses only others of them; without failures it is then the only one |
| VolumeCreator.Creator.FindLeftover | pkg/csi/controller.go:582-594 | finds a temporary disk of the volume to reuse, or none because there is none |
| VolumeCreator.Creator.ProvideTemporary | pkg/csi/controller.go:596-610 | reuses the leftover, or creates at most one disk with the requested size on the picked repository; fails because none is picked or for a failing call, and says which |
| VolumeCreator.Creator.CreateLocked | pkg/csi/controller.go:574-622 | createDisk under the shared lock, which it gives back whatever happens |
| VolumeCreator.Creator.CreateDisk | pkg/csi/controller.go:571-622 | a success leaves a disk with the final name and no metadata; a disk is made only when there is no temporary one to reuse, with the requested size on the picked repository; nothing but temporary disks of this volume and the one made is touched; it fails only because no repository is picked or for a failing call, and says which |
| VolumeCreator.Creator.FindOrCreate | pkg/csi/controller.go:96-121 | the one existing finished disk is handed back untouched, or refused for its size; several are refused as duplicates; a disk is made only when the volume has none, finished or temporary, and then has the requested size and is on the picked repository; every error names its cause |
| VolumeCreator.Creator.Describe | pkg/csi/controller.go:123-134 | the description then holds the selection, and the topology handed out is that of the disk's repository |
| VolumeCreator.Creator.SelectSrs | pkg/csi/controller.go:84-92 | on success the selection is a completed one whose record can be stored; it fails exactly for a failing call or because the parameters lead to no usable repositories, and says which |
| VolumeCreator.Creator.DescribeObtained | pkg/csi/controller.go:123-134 | describing the disk just obtained is all that remains: what the whole call leaves behind then holds |
| VolumeCreator.Creator.CreateSelected | pkg/csi/controller.go:96-153 | CreateVolume from the lookup on, as a stretch of a run from start to end: a success leaves the finished, described disk, a made one with the requested size, on the picked repository and with an allowed topology; no disk of anything else is touched |
| VolumeCreator.Creator.CreateFrom | pkg/csi/controller.go:94-153 | the same from the first step of the call to its answer, also when it fails |
| VolumeCreator.Creator.CreateVolume | pkg/csi/controller.go:84-153 | told from parameters, directory and disks: a success leaves a finished disk of the volume on a repository that the parameters lead to, with the handle, topology and record owed for it (uuid exactly when shared without migration; no topology exactly with migration; host exactly when local under host topology); it is the finished disk there was, of the right size, or a temporary one where none was finished, or a new one where there was none, of the requested size in the best place; nothing else is touched. A permanent error has its cause in the state, whatever fails, and retry-later means that a call failed; without failures the state settles the answer. All of it is a stretch of a run |
| VolumeCreator.StateSettles | pkg/csi/controller.go:84-153 | when no call fails: no repositories, duplicates, a wrong size, a finished disk elsewhere and a finished disk in place each have their one answer; without disks of the volume one is made or none has room |
| VolumeCreator.RightSizeExactlyWhen | pkg/csi/controller.go:601-610 | the disk of a success has the requested size exactly unless it is a reused temporary one of another size |
| VolumeHandover.Follows | pkg/csi/controller.go:571-622 | whatever a creating call did to disks of a volume not handed out yet, and whatever uuids XO gave meanwhile, is a stretch of a run of the migration protocol |
| VolumeHandover.CreatedVolumeCanBeHandedOut | pkg/csi/controller.go:123-153 | whatever a successful CreateVolume leaves behind, made or reused, may be handed out: one described disk, a storable record without a marker, a uuid handle only where nothing migrates, a known repository |
| VolumeHandover.Concludes | pkg/csi/controller.go:94-153 | every outcome of a CreateVolume call is a stretch of a run of the migration protocol, which on success ends with the volume handed out and its one disk unmarked |
| VolumeHandover.CleanerFollows | pkg/csi/temp_cleanup.go:92-151 | every step of the cleaner is a stretch of a run of the migration protocol, too; it costs exactly the volumes whose disk it deletes |
| VolumeHandover.OnlyCondemnedAreLost | pkg/csi/temp_cleanup.go:129-132 | only a volume whose disk the pass under way holds as a marked temporary one can be lost that way |
| VolumeHandover.Provide | pkg/csi/controller.go:84-153 | CreateVolume continues a run of either protocol; on success the volume is handed out in the second, with exactly one disk and the handle that is returned; the cleaner never deletes that disk, in however the run goes on, exactly if the pass under way at the call does not hold it as a marked temporary one, as it never does when the call made the disk |
| VolumeHandover.HandleIsUnderstood | pkg/csi/controller.go:136-145 | the handle handed out is understood as that volume exactly when it is a name, or a uuid that does not look like one |
| CreationFollows.StepFollowed | pkg/csi/controller.go:156-472 | the other direction: every step of a publish, expand, unpublish or delete call and of XO, from the handing out of a volume to its deletion, is a stretch of a run of the creation protocol with the same disks, as long as no CreateVolume call for that volume is in flight |
| MigrationSafety.ChosenIsGood | pkg/csi/controller.go:246-272 | what publishing decides is sound: an attachment where the repository serves the VM, or a migration to another one that does |
| MigrationSafety.FinishesDisks | pkg/csi/controller.go:675-676 | when XO finishes, one disk is left, still marked, and it is where the mark says |
| MigrationSafety.FailsDisks | pkg/csi/controller.go:669-673 | when XO fails, the source is left, marked for a repository it is not on |
| MigrationSafety.EffectFrames | pkg/csi/controller.go:624-806 | no operation on one volume changes anything that concerns another |
| MigrationSafety.StepKeepsInv | pkg/csi/controller.go:211-472 | every step of every call, of XO, of the cleaner and of the world keeps the invariant of all volumes |
| MigrationRuns.InvAlways | pkg/csi/controller.go:211-472 | it holds in every state of every run |
| MigrationRuns.WhatMigrationLooksLike | pkg/csi/controller.go:637-643 | while XO migrates a volume, either its only disk says so and is not on the target, or exactly two disks bear its name |
| MigrationRuns.LookupDuringMigration | pkg/csi/controller.go:632-659 | a lookup then yields that marked disk, "many", or no answer |
| MigrationRuns.MigratingVolumeIsLeftAlone | pkg/csi/controller.go:447-458 | no step then attaches, connects, resizes, rewrites a description or starts a second migration |
| MigrationRuns.PublishGivesUpOnMigratingVolume | pkg/csi/controller.go:668-673 | publishing and expanding then end at their lookup and change nothing |
| MigrationRuns.EveryVolumeHasItsDisk | pkg/csi/controller.go:636-646 | a volume handed out, and since neither deleted nor erased by the cleaner on a stale listing, has exactly one disk while XO is not migrating it, whatever crashed before |
| MigrationRuns.HandleResolves | pkg/csi/controller.go:632-659 | its handle, by name or uuid, resolves to that disk or gets no answer |
| MigrationRuns.UuidHandleIsStable | pkg/csi/sr_selection.go:90-103 | a volume handed out by uuid keeps that uuid and is never migrated, until it is deleted or erased by the cleaner on a stale listing |
| MigrationRuns.ArrivedByCopy | pkg/csi/controller.go:668-676 | a disk marked for the repository it is on got there as a copy made by XO |
| MigrationRuns.MarkerGoesWithTheCopy | pkg/csi/controller.go:675-683 | publishing removes a marker only from a disk that XO copied to where the marker points, when it is the one disk left |
| MigrationRuns.HeldVmWasRead | pkg/csi/controller.go:228-233 | the VM record a call works with is one that XO gave to this call |
| MigrationRuns.NewAttachmentServesItsVm | pkg/csi/controller.go:274-277 | every attachment the driver makes is of the volume's one disk, unmarked, not being migrated, on a repository that serves the VM as this call read it |
| MigrationRuns.VmCanMoveAway | pkg/csi/controller.go:228-277 | and no more than that: the VM may have moved to any host by then, so that the new attachment does not serve it |
| MigrationRuns.DiskCanBeAttachedMeanwhile | pkg/csi/controller.go:765-782 | from any state about to send the request, the disk to be migrated can have been attached by somebody else |
| MigrationRuns.TargetCanFillUp | pkg/csi/controller.go:759-782 | likewise, the target can have any usage when the request is sent |
| MigrationRuns.SizeWasAskedFor | pkg/csi/controller.go:460 | the size an expansion works with is the one its call began with |
| MigrationRuns.ExpansionResizes | pkg/csi/controller.go:462-472 | in every run, an expansion that takes effect leaves the volume's one disk with the size its call asked for, its name, description and repository kept and every other disk and all attachments as they were; one that XO refuses changes nothing |
| MigrationRecovery.LookupLeadsOnExactlyWhen | pkg/csi/controller.go:661-696 | publishing gets past its lookup exactly when XO is not migrating and the disk carries no marker, or one for the repository it is on |
| MigrationRecovery.MigratesExactlyWhen | pkg/csi/controller.go:258-272 | it migrates exactly when the repository does not serve the VM, the volume migrates and a target is found; a well placed disk is attached as it is |
| MigrationRecovery.FailureSticks | pkg/csi/controller.go:669-673 | a failed migration leaves the volume stuck |
| MigrationRecovery.FailedMigrationSticks | pkg/csi/controller.go:669-673 | it stays stuck in every later state until CreateVolume is repeated for it or it is deleted |
| MigrationRecovery.StuckExactlyWhen | pkg/csi/controller.go:668-673 | in every run, a volume is stuck exactly from a migration that came to nothing on (failed in XO; or marked, with the request not sent or not accepted, or the caller crashed before) until CreateVolume is repeated for it or it is deleted |
| MigrationRecovery.StuckVolumesAreNotAttached | pkg/csi/controller.go:668-673 | a stuck volume is neither attached nor resized nor migrated, however often that is retried |
| MigrationRecovery.RepeatedCreateUnsticks | pkg/csi/controller.go:123-128 | repeating CreateVolume restores the plain record |
| MigrationRecovery.WhatDeletionLeaves | pkg/csi/controller.go:200-208 | a deletion that takes effect leaves no disk of the volume; one that finds its disk gone leaves another one behind |
| MigrationScenes.DeletionCanMissTheCopy | pkg/csi/controller.go:200-208 | a full run, migration included, in which DeleteVolume reports success and the copy stays |
| VolumePublisher.Publisher.ReadRecord | pkg/csi/controller.go:661-696 | the record of a usable disk, its marker removed if there was one; refused as being migrated exactly for a marker to another repository, as bad metadata exactly without a record, and as to be retried only for a failing call |
| VolumePublisher.Publisher.FindDisk | pkg/csi/controller.go:624-697 | a stretch of a run; a failure other than retry-later has its cause in the state: an empty handle, no disk for the handle, two disks of the name or one marked for elsewhere, a disk without a record, each with its own error and nothing changed; retry-later means that a call failed; without failures the cause that holds is the answer |
| VolumePublisher.Publisher.Preferred | pkg/csi/controller.go:718-730 | an attached one of the attachments if there is one |
| VolumePublisher.Publisher.CheckDiskAttachment | pkg/csi/controller.go:710-753 | an attachment of this disk to this VM with a device, or none because there is none; no other attachment is changed; without failures it succeeds |
| VolumePublisher.Publisher.MarkForMigration | pkg/csi/controller.go:765-779 | the marker is written only on a disk attached to no VM; in-use is answered only for an attached disk, with nothing changed |
| VolumePublisher.Publisher.AdoptCopy | pkg/csi/controller.go:789-802 | the copy bears the plain record |
| VolumePublisher.Publisher.Migrate | pkg/csi/controller.go:781-805 | on success the source has been replaced by a new disk on the target with the plain record |
| VolumePublisher.Publisher.MigrateTo | pkg/csi/controller.go:765-806 | from the attachment check on: on success the source has been replaced by a new disk on the target with the plain record; it fails for a disk in use, or for a failing call, and says which |
| VolumePublisher.Publisher.MigrateVdi | pkg/csi/controller.go:757-806 | a stretch of a run; a success has moved the disk to the target picked; it fails because none is picked, the disk is in use, or a call fails, and says which |
| MigrationTargets.TargetsTaggedAlways | pkg/csi/controller.go:755-779 | in every state of every run, the target a call has chosen and the target of every migration of XO is a repository with the volume's tag, and the tag can be used |
| MigrationTargets.ArrivedIsTagged | pkg/csi/controller.go:668-676 | in every state of every run, a volume's disk that is marked for the repository it is on is on one that bears the volume's tag |
| VolumePublisher.FinishedMigrationArrives | pkg/csi/controller.go:668-676 | when XO finishes, the copy is such a disk, on the target |
| VolumePublisher.ArrivedDiskIsAccepted | pkg/csi/controller.go:668-683 | whatever has happened since, crashes included: the handle leads to it, publishing accepts it with the volume's own record, and it is well placed for every VM that its repository serves |
| VolumePublisher.Publisher.PublishArrived | pkg/csi/controller.go:211-299 | the next publish to such a VM attaches the disk where it is and clears the marker, changing no other disk |
| SrSelection.RestoresExactlyWhen | pkg/csi/sr_selection.go:152-264 | in whatever order XO lists the repositories: a selection restored for a disk is completed exactly when the disk's own repository is there and those with the recorded tag are and agree on being shared; it then asks for a migration exactly when that repository does not serve the VM and the record allows it |
| SrOrders.PickedTarget | pkg/csi/sr_selection.go:266-299 | and its choice of a target is a least used tagged repository on the VM's host that passes the room test; without one, some least used one there fails the test or there is none |
| VolumePublisher.Publisher.RestoreSelection | pkg/csi/controller.go:246-254 | the selection restored from the record and completed, exactly when no call fails and the repositories are there; it decides as the record and the directory demand |
| VolumePublisher.Publisher.Decide | pkg/csi/controller.go:246-265 | whether to migrate, as a step of a run: no for a well placed disk, yes for one that has to move and may; missing repositories and a disk that may not move are refused, each with its own error |
| VolumePublisher.Publisher.Place | pkg/csi/controller.go:246-272 | the disk to attach: itself, if it is well placed; or its copy with the plain record on a least used tagged repository of the VM's host that had room, if it had to move and was in use nowhere; nothing else changed; and every refusal has its cause in the state |
| VolumePublisher.Publisher.Attach | pkg/csi/controller.go:274-298 | a new attachment of this disk to this VM, with a device; every other attachment stays as it was, also on a failure, and none but of this disk to this VM is new |
| VolumePublisher.Publisher.PublishVolume | pkg/csi/controller.go:211-299 | for the handle of a volume handed out, or one that leads to no disk or to one without a usable record: a success leaves the one usable disk it leads to attached and unmarked and no other disk changed; a new attachment is made only where there was none, of a disk that was well placed, or had to move and went to a least used tagged repository with room, and it is on a repository that serves the VM: a local one on its host, a shared one of its pool. Every permanent error has its cause in the state (handle, disks, VM, repositories, attachments), and retry-later means that a call failed; without failures a cause not to find the disk is the answer, a well placed disk is attached where it is and a movable one is migrated and attached |
| VolumePublisher.OneReasonNotToFind | pkg/csi/controller.go:624-697 | the state never gives two of findDisk's reasons at once |
| VolumePublisher.VerdictSettles | pkg/csi/controller.go:211-299 | when no call fails, the state before the call settles what publishing does, as said of PublishVolume |
| VolumeUnpublisher.RemovedExactlyWhen | pkg/csi/controller.go:329-356 | what unpublishing is to leave: of all ways to take away some attachments of the disk to the VM, or to any VM, and nothing else, the one that leaves none of them |
| VolumeUnpublisher.RetryReachesTheSameState | pkg/csi/controller.go:345-356 | however far an attempt got, what a retry has to reach is what the attempt had to reach |
| VolumeUnpublisher.Unpublisher.UnpublishTwice | pkg/csi/controller.go:345-356 | an attempt and a retry: however far the first got before it failed, a success of the second ends where a successful first one would have, and only failures in both prevent that |
| VolumeUnpublisher.Unpublisher.DeleteVbds | pkg/csi/controller.go:345-355 | the loop stops at the first failure; it removes nothing but listed attachments, and all of them on success |
| VolumeUnpublisher.Unpublisher.Resolve | pkg/csi/controller.go:304-327 | the one disk of the name; none, if no disk bears it; several, if two do; a uuid is taken as it is |
| VolumeUnpublisher.Unpublisher.Detach | pkg/csi/controller.go:329-356 | lists and deletes: a success leaves what unpublishing is to leave, a failure has removed some of the rest and nothing else |
| VolumeUnpublisher.Unpublisher.UnpublishVolume | pkg/csi/controller.go:301-357 | for any handle: a success leaves no attachment of the disk to the VM, or to any VM, and every other one as it was, or no disk bears the name; a failure has removed some of them and nothing else, and says whether the handle is invalid, several disks bear the name, or a call failed; without failures, one disk means success, several mean being-migrated with nothing changed, and none means success with nothing changed |
| VolumeUpkeep.Keeper.DeleteVolume | pkg/csi/controller.go:156-209 | a success leaves no disk for the handle and every other disk as it was, so that a repetition succeeds; several disks of the name are refused untouched; every other failure comes from a failing call |
| VolumeUpkeep.Keeper.ExpandVolume | pkg/csi/controller.go:403-473 | a success gives the one disk of the handle the new size and changes nothing else; no disk, several disks, a missing record, any marker and an attached disk are refused, each with its own error, its cause in the state and nothing changed |
| VolumeUpkeep.Keeper.GetVolume | pkg/csi/controller.go:475-529 | never succeeds: for every disk with a record it asks for the topology without having looked up any repository |
| VolumeUpkeep.DeletionFollows | pkg/csi/controller.go:156-209 | what a deletion does to the disk of a volume's handle is a stretch of a run of the migration protocol, at the end of which the volume is gone exactly if its disk was deleted; the handle never leads nowhere before that |
| VolumeUpkeep.ExpansionFollows | pkg/csi/controller.go:403-473 | what an expansion does is such a stretch, too |

## Left out

- JSON-RPC, websockets, authentication, reconnection and polling timers: the client object stands for
  them, with calls that fail before or after taking effect.
- gRPC status codes and message texts: results distinguish success and the reasons for failure only. Errors
  of XO other than "no such object" and "in use" are one: retry later.
- `ValidateVolumeCapabilities`: the lookup of `VolumePublisher.Lookup` and single branches.
- Node service, mounting, identity service, command-line tools, Kubernetes metadata, charts, logging.
- VolumePublisher.Publisher.FindDisk: a handle that leads to a disk with a usable record although
  CreateVolume never handed it out under that handle, such as the uuid of a volume handed out by name.
  Static volumes are covered: they have no record, and publishing refuses them
  (pkg/csi/controller.go:690-691).
- VolumePublisher.Publisher.PublishVolume: likewise.
- Volume capability checks and the default capacity: single branches.
- JSON beyond the layout the driver itself prints: other spacing, field order, unknown fields, invalid
  UTF-8 and surrogate pairs. Timestamps are whole numbers written in decimal.
- TempCleaner.CreationLock.AcquireCreation: waiting for the marker is a precondition; in the transition
  system taking the lock is a step that is possible only when it is free. Fairness and starvation are
  not modelled.
- TempCleaner.CreationLock.AcquireDeletion: waiting for the creators is a precondition, likewise.
- The ticker and the one-minute limit of a pass: passes happen at any increasing times and any call of a
  pass may fail. The bounds on the life of a leak take the gap and the length as parameters.
- Removal or retagging of repositories during a migration: usage changes freely, the rest of the
  directory is constant in the migration protocol.
- CleanupPasses.LeakLivesFortyMinutesToTwoGapsMore: passes in which a call about the disk fails are not
  covered; they can put a deletion off for as long as calls keep failing.
- VolumeUnpublisher.Unpublisher.UnpublishVolume: its deletions are one step of the migration protocol,
  whose invariant does not depend on attachments.
