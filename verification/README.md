# NAZMan: backup chains, restore, and the arithmetic around them

NAZMan backs ZFS datasets up to rotating sets of disks and restores them from whatever volumes are
attached. This project models that machinery in Dafny, together with four smaller algorithms of the same
program, and proves what they promise.

## What is modelled

- **The backup chain protocol** (`Streams`, `Protocol`, `Invariants`, `Steps`, `Safety`, `Recording`). The
  durable effects of `backup_dataset`, one at a time, as a state machine over the run table, the `backup-*`
  snapshots of the pool, and the streams, indexes and sidecars on the disks. Any number of writes are in
  flight, of different datasets; every command can fail; the process can stop between any two effects and
  recover. `Invariants` says what every state has, `Steps` that every action keeps it, `Safety` what that
  means for chains, anchors, pruning and crashes.
- **The code that drives it** (`Manager`). `backup_dataset`, the anchor lookups, pruning, manifest recording
  and startup recovery as methods over mutable tables. Each durable change is shown to be the next step of
  the protocol.
- **The volume index** (`Manifest`): the aggregate manifest and the per-stream sidecars it can be rebuilt from.
- **Restore** (`Restore`, `ReadingOrder`, `EndToEnd`, `Descriptions`): merging the manifests of a set, cutting the
  latest chain, finding each stream and receiving it; the theorem that this undoes backup, from any of the set's
  volumes and into any target; and what the entries on the media say.
- **Groups and sessions** (`Cycle`, `Rotation`, `Groups`, `Requests`, `Sessions`, `MidSession`, `Triggers`): the
  books of a group, with the disks and sets of other groups beside its own; everything that can be asked of them;
  one session with whatever is asked between two of its writes; and the rotation over many sessions.
- **A session's writes in the protocol** (`Composition`): what a session does to the run table is a sequence of the
  protocol's actions, so the invariant and the restore theorem hold after sessions.
- **Losing a disk** (`DiskLoss`): what the warning lists and what is really lost, by any number of losses.
- **The pool-rebuild allocator** (`PoolMapping`), with the used-set's string keys as they are.
- **The restore progress bar** (`Progress`), **the descriptors of a pipeline** (`Pipeline`), **usable capacity**
  (`Capacity`) and **the smb.conf region** (`Text`, `Smb`).

`dafny verify dfyconfig.toml` checks the whole project.

## What holds only under a condition

Where the code does not keep a promise on all inputs, the model keeps the code and says exactly when it does.

- An incremental becomes a full not only when its set has no successful run but also when listing the pool's
  snapshots fails, because a failed listing reads as an empty one (`Safety.PromotedExactly`,
  `Examples.PromotionShows`).
- A committed success is taken back to `failed` exactly when that write's own pruning raises
  (`Safety.SuccessChangedExactly`, `Examples.SuccessLossShows`).
- After a crash, recovery drops the snapshot in hand only if its name was already in a row still marked
  running: a crash between taking the snapshot and committing its name leaks it, and so does one after the row
  left `running` (`Safety.CrashLeaksExactly`, `Examples.CrashLeakShows`). A later prune clears what leaked.
- A restore reaches the last successful snapshot exactly when every run from the latest full on can be read,
  which is to say that it got into an index or a sidecar and its disk is attached; or when the target is already
  at a snapshot of the chain and just the incrementals behind that one can be read, as after a restore that
  failed (`EndToEnd.RestoreReachesEndExactly`).
- Merging the volumes of a set does not depend on the order they are read in, unless two volumes list two streams
  of one creation time in different orders, one of them alone on its volume included (`Restore.MergeCanonical`,
  `ReadingOrder.ReadingOrderShowsExactly`, `ReadingOrder.ReadingOrderShows`).
- `full_anchor` names the oldest full of the chain, which is the latest one only while there is just one
  (`EndToEnd.FullAnchorExactly`).
- A set can be created only at the end of the cycle, whatever position is given, and moved only to the end
  (`Groups.BackupGroup.CreateSet`, `Groups.BackupGroup.UpdateSet`).
- While a session runs a disk in use can still be attached to another set, of this group or of another one,
  deregistered, or, once it is filed under a set of a group that runs no session, detached there. A stream goes to
  a member of the set being written exactly when, of what was asked since its disk was picked, nothing touches the
  disk or the last to do so files it under that set (`MidSession.StreamGoesToMemberExactly`). After an attachment
  elsewhere the session writes on to a disk that is no member (`MidSession.AttachedElsewhereShows`,
  `MidSession.AttachedToOtherGroupShows`). Once the disk is undeclared the row of the next run cannot be inserted,
  nothing catches that, and the session stays marked running, so that every later trigger is refused until the next
  start (`MidSession.SetRaisesExactly`, `MidSession.DeregisteredShows`, `MidSession.DetachedFromOtherGroupShows`).
  A volume declared in between gets the id of the one deregistered if that was the highest, and the session then
  writes on to it (`MidSession.RedeclaredShows`).
- A set activated while a session runs is the active one afterwards exactly when the session did not move the
  group, or moved it there anyway: the rotation goes by the cycle as it was when the session began
  (`MidSession.ActivationStandsExactly`).
- Detaching the disk a set points at leaves the pointer dangling (`Groups.BackupGroup.DetachDisk`).
- With several copies, the counters of a running session start again at each set; only the final ones are
  totals (`Sessions.BackupSession.WriteOneSet`, `Sessions.BackupSession.ExecuteSession`).
- Before a disk is detached, datasets are listed as lost that can still be restored: with every run recorded, only
  what the disk holds from the latest full on matters (`DiskLoss.StillReachesExactly`).
- A mirror's capacity drops when a device of unknown size turns out smaller than the rest
  (`Capacity.MirrorDropsExactly`, `Capacity.MirrorDropShows`).
- A printed share is read back unchanged exactly when its dataset's name has no line break and no space at its
  end (`Smb.ParsesBackExactly`), and rewriting the region resets the flags of all other shares
  (`Smb.FlagsReset`).
- Rewriting a well-formed region changes the managed datasets by exactly the one set or removed when the name set
  is such a name and every kept name comes back as itself, and not otherwise (`Smb.RewriteChangesOne`). The line
  `path = / a /` is read as ` a ` and written back as `a` (`Smb.UnstableLine`).

## Assumptions

The datasets backed up are not nested in one another and each belongs to one group, so two writes in flight are
of different datasets; nobody else destroys `backup-*` snapshots. The clock in snapshot names and completion times only grows. Table updates are atomic
commits; renumbering the sets of a group is one of them. `zfs receive` either fails and changes nothing, or
takes the target to the snapshot of the stream: a full from anything when forced, an incremental only from its
base. Fractions of the progress bar are exact rationals, and between counting a dataset and clearing `current`
nobody looks.

## Model

| member | source | states |
|---|---|---|
| Protocol.LastIsNewest | nazman/managers/zfs_backup_manager.py:1310-1320 | the run looked up is successful, none after it is, and it is found whenever there is one |
| Protocol.FirstFullIsOldest | nazman/managers/zfs_backup_manager.py:1338-1349 | the run looked up is a successful full, none before it is one, and it is found whenever there is one |
| Steps.TickKeepsInv | nazman/managers/zfs_backup_manager.py:1120-1281 | every durable effect of a write, failures included, keeps the invariant: linked chains, whole streams, anchors in the pool, sound media |
| Steps.ApplyKeepsInv | nazman/services/backup_group_service.py:700-718 | beginning, retrying on another disk, abandoning, adding a disk, crashing and recovering keep it too |
| Steps.ReachableInv | nazman/managers/zfs_backup_manager.py:1120-1281 | every state reachable from a fresh installation has the invariant |
| Invariants.Won | nazman/managers/zfs_backup_manager.py:1246-1256 | committing a success extends its chain by one sound link and disturbs no other write |
| Invariants.PcFrame | nazman/managers/zfs_backup_manager.py:1120-1281 | where a write stands depends on its own dataset alone, so writes of different datasets may interleave |
| Invariants.IndexSaved | nazman/managers/zfs_backup_manager.py:1457-1504 | saving the scanned index with the run in it keeps every medium's content true to the run table |
| Invariants.SidecarSaved | nazman/managers/zfs_backup_manager.py:1505-1508 | so does writing the sidecar |
| Safety.ChainLinked | nazman/managers/zfs_backup_manager.py:1148-1161 | the successful runs of a dataset in a set start with a full, and every incremental's base is the snapshot of the run just before it |
| Safety.ReachableChainsLinked | nazman/managers/zfs_backup_manager.py:1297-1330 | this holds in every reachable state, for every dataset and set, with completion times in id order |
| Safety.NamedIsOwn | nazman/managers/zfs_backup_manager.py:1246-1256 | whatever a successful run names is a snapshot some successful run was cut from, and is in the pool |
| Safety.NothingNamedDestroyed | nazman/managers/zfs_backup_manager.py:1369-1398 | no action destroys a snapshot a successful run names |
| Safety.AnchorExact | nazman/managers/zfs_backup_manager.py:1297-1330 | the anchor is the last snapshot of the chain, missed only when there is no chain or the listing fails |
| Safety.PromotedExactly | nazman/managers/zfs_backup_manager.py:1148-1161 | an incremental becomes a full exactly when its set has no successful run of the dataset or the listing fails |
| Safety.SendHasItsSnapshots | nazman/managers/zfs_backup_manager.py:1223-1244 | a send succeeds exactly when its command does: snapshot and base are always in the pool |
| Safety.PruneLeavesNewestTwo | nazman/managers/zfs_backup_manager.py:1392-1398 | after a prune whose destroys worked, behind a success, a snapshot of the dataset that no run names is one of its newest two |
| Safety.SuccessChangedExactly | nazman/managers/zfs_backup_manager.py:1256-1278 | an action changes a successful row exactly when that row's own prune raises |
| Safety.CrashAnywhere | nazman/services/backup_group_service.py:700-718 | stopping anywhere and recovering fails exactly the running rows, drops exactly their snapshots, touches no other row and no medium, and restores the invariant |
| Safety.RecoverTwice | nazman/services/backup_group_service.py:700-718 | a second recovery does nothing |
| Safety.CrashLeaksExactly | nazman/managers/zfs_backup_manager.py:1166-1184 | the snapshot in hand survives crash and recovery exactly when its name was not committed yet or the row had left running |
| Recording.RecordsStay | nazman/managers/zfs_backup_manager.py:1457-1510 | no action takes the record of a successful run off its medium |
| Recording.SaveRecordsExactly | nazman/managers/zfs_backup_manager.py:1497-1504 | a success gets recorded exactly when saving the index works, unless it was recorded before |
| Manifest.Canonical | nazman/utils/backup_manifest.py:177-179 | a list in strict creation order is determined by its entries |
| Manifest.UpsertRowElements | nazman/utils/backup_manifest.py:176-179 | an upsert replaces the entry of the same stream and keeps all others |
| Manifest.UpsertRowGood | nazman/utils/backup_manifest.py:176-179 | an upsert keeps a dataset's runs in strict creation order |
| Manifest.FoldRowUnion | nazman/utils/backup_manifest.py:187-191 | folding sidecars into a dataset's runs gives their union, in creation order |
| Manifest.ScanIsUnion | nazman/utils/backup_manifest.py:223-258 | a scan returns the union of index and sidecars, whichever is ahead |
| Manifest.ScanIdempotent | nazman/utils/backup_manifest.py:223-258 | scanning what a scan has saved changes no list |
| Manifest.ScanOrderIrrelevant | nazman/utils/backup_manifest.py:243-258 | the order of the directory walk does not matter |
| Manifest.ScanSurvivesLosingIndex | nazman/utils/backup_manifest.py:200-220 | when every indexed stream has its sidecar, rebuilding gives back what the index held |
| Manifest.RecordAllAgrees | nazman/managers/zfs_backup_manager.py:1457-1510 | after any completed recordings, index and sidecars of a volume describe the same streams |
| Manifest.IndexAgreesWithSidecars | nazman/utils/backup_manifest.py:200-220 | so the index saved on a volume equals the one rebuilt from its sidecars, dataset by dataset |
| Manifest.Aggregate.UpsertDatasetBackup | nazman/utils/backup_manifest.py:151-179 | the in-place upsert is the function the index lemmas are about |
| Manifest.Aggregate.FoldSidecars | nazman/utils/backup_manifest.py:243-258 | folds every sidecar met into the manifest |
| Manifest.BuildFromSidecars | nazman/utils/backup_manifest.py:200-220 | rebuilds the manifest from the sidecars alone |
| Manifest.ScanVolume | nazman/utils/backup_manifest.py:223-258 | the index with the sidecars folded in, or the rebuilt one when it is lost |
| Manager.BackupManager.constructor | nazman/managers/zfs_backup_manager.py:72-90 | a fresh installation, which has the invariant |
| Manager.BackupManager.DeclareDisk | nazman/managers/zfs_backup_manager.py:404-418 | a disk declared under a set is the protocol's action of that name and keeps the invariant |
| Manager.BackupManager.NewRun | nazman/services/backup_group_service.py:1166-1181 | a new row of the dataset, set, disk and kind given, running and with nothing else in it; the write then stands at its start |
| Manager.BackupManager.TryNextDisk | nazman/services/backup_group_service.py:994-1000 | the retry on another disk keeps row and snapshot, and the write stands at its start again |
| Manager.BackupManager.NewestSuccess | nazman/managers/zfs_backup_manager.py:1310-1320 | the loop finds the newest successful run |
| Manager.BackupManager.ChainFullAnchor | nazman/managers/zfs_backup_manager.py:1332-1349 | the loop finds the snapshot of the oldest successful full |
| Manager.BackupManager.ResolveAnchor | nazman/managers/zfs_backup_manager.py:1140-1161 | mounting and resolving the anchor is the protocol's first step; a failed mount fails the row |
| Manager.BackupManager.CaptureDataset | nazman/managers/zfs_backup_manager.py:1163-1171 | a refused write's snapshot is reused, otherwise a new one is taken and committed |
| Manager.BackupManager.CheckWorthAndRoom | nazman/managers/zfs_backup_manager.py:1173-1221 | skipped exactly when it is an incremental with a base and nothing has changed, refused exactly when it is not and the room is not there; otherwise the write goes on to send; what each leaves in the pool |
| Manager.BackupManager.SendStream | nazman/managers/zfs_backup_manager.py:1223-1244 | sends the stream; on failure unlinks it, discards the snapshot and fails the row, and only then; no other file on any disk changes |
| Manager.BackupManager.CommitSuccess | nazman/managers/zfs_backup_manager.py:1246-1256 | one commit makes the run successful with its base and full anchor |
| Manager.BackupManager.ListBackupSnapshots | nazman/managers/zfs_backup_manager.py:1351-1367 | exactly the dataset's own snapshots, in ascending order |
| Manager.BackupManager.ReferencedBy | nazman/managers/zfs_backup_manager.py:1383-1391 | exactly the snapshots successful runs of the dataset name, as their own, their base or their chain's full |
| Manager.NewestTwoAreLast | nazman/managers/zfs_backup_manager.py:1392 | the last two of the listing are the newest two of the dataset |
| Manager.BackupManager.PruneOldAnchors | nazman/managers/zfs_backup_manager.py:1369-1398 | destroys one by one exactly what is neither kept, nor among the newest two, nor named, which leaves the pool tidy; a raise takes the success back; nothing else leaves the pool |
| Manager.BackupManager.RecordManifest | nazman/managers/zfs_backup_manager.py:1457-1510 | saves the index, then the sidecar; a failure leaves the run successful; the index then lists all it listed and all that lay beside the streams, and an entry that says of the run, field by field, what its row says, as does the sidecar; the streams are untouched |
| Manager.BackupManager.BackupDataset | nazman/managers/zfs_backup_manager.py:1120-1281 | every durable change is the protocol's next step, every state on the way is sound, no other row or write is touched; a success adds exactly its own run to its own chain, with its stream whole on the disk, its record there if saving the index works, and the pool tidy if pruning works; any other end leaves all chains alone; which answer is given, as a condition on the row, the chain and what the outside world answers (unchanged, no room, sent or not), with the row's kind, base and full anchor; and what each end leaves in the pool and on the disks: the snapshot of a skipped or failed send gone unless destroying it did nothing, that of a refused write there, of those pruned none named and none of the newest two |
| Manager.BackupManager.RecoverOrphanedBackups | nazman/services/backup_group_service.py:700-718 | drops the snapshots of running rows and then fails them in one commit |
| Manager.ChainAfterWrite | nazman/managers/zfs_backup_manager.py:1246-1256 | a write can change no chain but its own, and that one only by its own run at the end |
| Restore.MergedIsUnion | nazman/services/system_restore.py:234-293 | merging gives each offered stream once, in strict creation order |
| Restore.MergeCanonical | nazman/services/system_restore.py:234-293 | in whatever order the volumes are read, and however often, the merged runs of a dataset are the same |
| ReadingOrder.ReadingOrderShowsExactly | nazman/services/system_restore.py:275-292 | for any volumes that agree on each stream: reading them in another order, or again, changes a dataset's merged runs exactly when two volumes list two streams of one creation time in different orders |
| ReadingOrder.ReadingOrderShows | nazman/services/system_restore.py:275-292 | two volumes with a stream each of one creation time, whose merged runs are in the order of reading |
| ReadingOrder.StrictClash | nazman/services/system_restore.py:285-292 | with each volume's runs in strict creation order, any two streams of one creation time are such a pair |
| Restore.MergeManifests | nazman/services/system_restore.py:234-293 | the merge loops compute that list for every dataset of any volume |
| Restore.ChainOf | nazman/services/system_restore.py:590-599 | the latest full and what follows it in creation order; everything when there is no full |
| Restore.LocateExactly | nazman/services/system_restore.py:971-990 | a stream is found exactly when some volume has it, on its recorded medium whenever that one has it |
| Restore.RestoreOne | nazman/services/system_restore.py:912-951 | stops at the first stream that is missing or refused, with exactly the streams before it received, in order |
| Restore.StepEndsAtSnapshot | nazman/services/system_restore.py:938-942 | a received stream leaves the target at the snapshot it was cut from, and an incremental only starts from its base |
| EndToEnd.StampIsOwner | nazman/managers/zfs_backup_manager.py:1434-1455 | every entry on a medium carries that medium and the set its disk belongs to |
| EndToEnd.MergedIsChain | nazman/services/system_restore.py:234-293 | merging any of a set's volumes gives back the set's chain in the run table, entry for run recorded on one of them, in order |
| EndToEnd.FullAnchorExactly | nazman/managers/zfs_backup_manager.py:1332-1349 | the full anchor is the head of the chain, and the latest full exactly when there is no other |
| Descriptions.HeldIsTrue | nazman/managers/zfs_backup_manager.py:1484-1496 | in every reachable state, every entry on a medium is of a stream that lies there whole under the name it gives, from the base to the snapshot it names, and carries its medium and set |
| Descriptions.MergedDescribes | nazman/services/system_restore.py:275-292 | whatever volumes of a set are merged, every entry describes a run of the chain: as its base the snapshot before it, as its anchor the full the chain began with, and none of either for a full |
| Descriptions.MergedIsLinked | nazman/services/system_restore.py:275-292 | when every run can be read, the merged list begins with a full, each incremental names the entry before it as its base and the first as its anchor, and a full names nothing |
| EndToEnd.RestoreReachesEndExactly | nazman/services/system_restore.py:912-951 | from any reachable state, with any of the set's volumes, into any target, and no receive refused: the restore reaches the last successful snapshot exactly when every run from the latest full on is recorded on an attached volume, or the target is at a snapshot of the chain and just the incrementals behind it are |
| EndToEnd.RestoreIsPrefixSafe | nazman/services/system_restore.py:912-951 | whatever is attached and whatever is refused, each stream received leaves the target at the snapshot of its run of the chain |
| EndToEnd.RestoreDataset | nazman/services/system_restore.py:860-910 | backup then restore, after any sessions, refusals, retries, crashes and recoveries, from any volumes of the set into any target: with every run readable and nothing refused, the target ends at the last successful snapshot; always it is untouched or at a snapshot of the chain |
| Rotation.CopiesFor | nazman/services/backup_group_service.py:1075 | as many as copies are asked for, at least one set and at most all |
| Cycle.WrapIsMod | nazman/services/backup_group_service.py:1081 | the place in the cycle is the remainder the code takes |
| Rotation.TargetSets | nazman/services/backup_group_service.py:1071-1081 | that many consecutive sets from the active one, or from the first when it is not in the list |
| Rotation.Rotate | nazman/services/backup_group_service.py:1091-1102 | the set so many places after the current one, going round; nothing when the current one is unknown |
| Rotation.WindowDistinct | nazman/services/backup_group_service.py:1071-1081 | the sets of one session are all different |
| Rotation.UnbrokenRound | nazman/services/backup_group_service.py:889-897 | the sets written by the sessions that moved the group form one unbroken round |
| Rotation.BalancedRotation | nazman/services/backup_group_service.py:1071-1102 | after m such sessions with k of n sets each, every set was written floor(mk/n) or ceil(mk/n) times |
| Groups.ByPosition | nazman/services/backup_group_service.py:311-316 | the sets in ascending order of position |
| Groups.Renumber | nazman/services/backup_group_service.py:308-320 | positions become 0..n-1 in the order the sets had |
| Groups.BackupGroup.constructor | nazman/models/backup_zfs.py:11-48 | a new group has no sets, no sessions and nothing active, and sound pointers, beside the disks and the other groups' sets there are |
| Groups.BackupGroup.CreateSet | nazman/services/backup_group_service.py:231-252 | which positions are accepted, and that the set then goes to the end of the cycle and becomes active if it is the first |
| Groups.BackupGroup.UpdateSet | nazman/services/backup_group_service.py:254-270 | which positions are accepted, and that the set keeps its place or goes to the end |
| Groups.BackupGroup.DeleteSet | nazman/services/backup_group_service.py:272-297 | refused while a session runs; the other sets keep their order, the disks are unassigned, and a deleted active set is followed by the first that is left |
| Groups.BackupGroup.ActivateSet | nazman/services/backup_group_service.py:299-306 | the active set of the group is now this one and no disk is called for; a set that is not the group's leaves it alone |
| Groups.BackupGroup.AttachDisk | nazman/services/backup_group_service.py:323-350 | the disk becomes a member of this set alone, running session or not, and even if the set is another group's; a set of this group points at it if it pointed at nothing, the set it leaves is realigned, and every pointer stays sound; the set it leaves goes to the lowest id it has left if it pointed at the disk, every other pointer stays |
| Groups.BackupGroup.DeclareDisk | nazman/managers/zfs_backup_manager.py:404-440 | a new disk with an id behind all others is filed under the set given, which points at it if it pointed at nothing; every pointer stays sound |
| Groups.BackupGroup.Realign | nazman/services/backup_group_service.py:452-461 | a set that lost its disk points at the first it has left, or at nothing, and then needs a disk |
| Groups.BackupGroup.DetachDisk | nazman/services/backup_group_service.py:352-380 | refused while a session runs; the set's pointer dangles exactly when it was at this disk |
| Groups.BackupGroup.DetachElsewhere | nazman/services/backup_group_service.py:352-370 | a disk is undeclared through another group's set exactly when it is filed there and no session of that group runs, whatever runs here |
| Groups.BackupGroup.DeleteElsewhere | nazman/services/backup_group_service.py:272-297 | another group's set goes, and its disks are unassigned, exactly when no session of that group runs |
| Groups.BackupGroup.DeregisterDisk | nazman/managers/zfs_backup_manager.py:971-1002 | a disk that is still filed goes, running session or not; a set that pointed at it points at the first it has left, or at nothing and then needs a disk |
| Groups.BackupGroup.AdvanceDisk | nazman/services/backup_group_service.py:411-426 | the pointer moves to the next higher id among the set's disks, or to the lowest when there is none or the pointer was lost; no other pointer moves |
| Groups.BackupGroup.SetActiveDisk | nazman/services/backup_group_service.py:428-441 | only a member can be chosen, and not while a session runs |
| Groups.BackupGroup.StartSession | nazman/services/backup_group_service.py:782-810 | a session starts exactly when there are datasets and sets and none is running |
| Groups.BackupGroup.RecoverOrphanedSessions | nazman/services/backup_group_service.py:720-731 | sessions left running have failed, no other changes |
| Groups.BackupGroup.PickDisk | nazman/services/backup_group_service.py:1108-1130 | the first disk that mounts, going round from the pointer, which then is there: the one pointed at if it mounts, else the next higher id that does, else the lowest |
| Groups.BackupGroup.AdvanceForSpace | nazman/services/backup_group_service.py:1132-1164 | the first other disk of the set with room in order of the ids, which the set then points at; none exactly when there is none |
| Requests.Perform | nazman/services/backup_group_service.py:231-441 | whatever is asked, of this group or of another, keeps the books valid and does to cycle, active set, disks and other sets what the specification says; while a session runs the pointers stay sound, and a request is refused if it would delete a set of the group, detach a disk of one or move a pointer |
| Requests.PerformAll | nazman/services/backup_group_service.py:231-441 | so do any requests one after the other |
| Requests.MemberAfter | nazman/services/backup_group_service.py:323-380 | where a request leaves each disk: under the set it files it under, nowhere once undeclared, or where it was |
| Requests.StaysExactly | nazman/services/backup_group_service.py:323-370 | a member of a set is still one after any requests exactly when nothing touches it or the last to do so files it under that set |
| Requests.KnownExactly | nazman/managers/zfs_backup_manager.py:971-1002 | a declared disk is still declared after any requests exactly when the last that touches it does not undeclare it |
| Requests.SparedStays | nazman/services/backup_group_service.py:352-370 | a disk stays declared when nothing deregisters a disk, or detaches one through another group's set |
| Requests.LastActivationStands | nazman/services/backup_group_service.py:299-306 | the set activated last is the active one, whatever else is asked |
| Sessions.BackupSession.WriteDataset | nazman/services/backup_group_service.py:945-1017 | one dataset on the disk in use, or on the first other member with room; stuck exactly when there is no such disk; the set then points at the disk moved to, and every other pointer stays |
| Sessions.EventMeans | nazman/services/backup_group_service.py:945-1017 | reply by reply: where the stream goes, as what kind, how the pair counts, and that it moves to the lowest other disk of the set with room, if there is one |
| Sessions.BackupSession.WriteOneSet | nazman/services/backup_group_service.py:910-1023 | with anything asked of the group between the datasets: one event a dataset, in order, from a usable member on, a full on the first visit; where and how the set ends; the counters count the events, and the books are as the requests leave them; with nothing asked, the set points at the disk of its last event, or at the one picked, and no other pointer moves |
| Sessions.BackupSession.ActiveSet | nazman/services/backup_group_service.py:1084-1089 | the active set, or the first when it names none of the group's |
| Sessions.BackupSession.ExecuteSession | nazman/services/backup_group_service.py:836-908 | with anything asked meanwhile: the sets targeted, the pairs reached, the totals, the status they call for, the sets marked used, and where the group stands afterwards; a session whose disk in use is deregistered stays running; the status said of the pairs reached: success when none is broken, partial when some are and some are not, failed when all are; and with nothing asked each set written points at the disk of its last event, every other where it did |
| Sessions.SessionAccounts | nazman/services/backup_group_service.py:858-901 | done, skipped and failed add up to the pairs reached, all sets times datasets if the session got through; the group moves exactly when it did and something was done or skipped |
| MidSession.StreamGoesToMemberExactly | nazman/services/backup_group_service.py:955-961 | a stream goes to a member of its set exactly when nothing asked since its disk was picked touches the disk, or the last that does files it under the set |
| MidSession.SessionStreamsGoToMembersExactly | nazman/services/backup_group_service.py:836-908 | so it is for every set, dataset and point of a whole session |
| MidSession.SetRaisesExactly | nazman/models/backup_zfs.py:171 | the writing of a set dies exactly when datasets are left and the last request that touches the disk in use since it was picked undeclares it |
| MidSession.CalmNeverRaised | nazman/services/backup_group_service.py:945-960 | a session during which nothing is deregistered, nor detached through another group's set, does not die |
| MidSession.AttachedElsewhereShows | nazman/services/backup_group_service.py:337-350 | a session that writes a stream to a disk attached elsewhere after the first dataset |
| MidSession.AttachedToOtherGroupShows | nazman/services/backup_group_service.py:330-350 | so does one whose disk is attached to a set of another group |
| MidSession.DeregisteredShows | nazman/api/zfs_backup.py:217-228 | a session that dies because its disk is deregistered after the first dataset |
| MidSession.DetachedFromOtherGroupShows | nazman/services/backup_group_service.py:352-370 | so does one, with nothing deregistered by request, whose disk is attached to a set of an idle group and detached there |
| MidSession.RedeclaredShows | nazman/managers/zfs_backup_manager.py:404-415 | a session that writes on to a volume declared with the id of the one deregistered |
| MidSession.ActivationStandsExactly | nazman/services/backup_group_service.py:1091-1102 | the set activated last during a session is active afterwards exactly when the session did not move the group, or moved it there anyway |
| Triggers.Trigger | nazman/services/backup_group_service.py:782-834 | a trigger is refused exactly when a session is still marked running; otherwise it targets the sets from the active one on, and moves the group past them or leaves it |
| Triggers.RunTriggers | nazman/services/backup_group_service.py:782-908 | any number of triggers, with restarts and requests between and during the sessions that leave the cycle alone, sessions that die included: the sessions that moved the group wrote its sets in one unbroken round and equally often |
| Composition.FollowsPlays | nazman/managers/zfs_backup_manager.py:1120-1281 | every state a write passes through is the protocol played on from its start |
| Composition.EnactedKeeps | nazman/services/backup_group_service.py:945-1017 | a pair carried out by the actions of one write keeps the invariant, adds one row that says how it ended, and adds its run to its own chain if it was stored, to no other |
| Composition.SessionIsPlay | nazman/services/backup_group_service.py:836-908 | a session's writes are a sequence of the protocol's actions; its end has the invariant, the table a row for each pair, and each chain as many runs more as pairs of its dataset and set were stored |
| Composition.SessionCountersAreRows | nazman/services/backup_group_service.py:858-901 | done, skipped and failed are the rows of that status the session added |
| Composition.StoredEndsChain | nazman/services/backup_group_service.py:945-1017 | the chain of a dataset and set ends with the run of the pair of theirs that was stored last, on the disk of its event |
| Composition.SessionThenRestore | nazman/services/system_restore.py:275-292 | after a session from any reachable state, a restore from the set's volumes gets to what the session stored last exactly when the chain's tail is readable or the target resumes it |
| Composition.WritePair | nazman/services/backup_group_service.py:945-1000 | writing a dataset with `backup_dataset`, again on the next disk with room if it is refused: the event is one a session may have for the reply given, and it was carried out by the protocol |
| Composition.WriteSet | nazman/services/backup_group_service.py:944-1017 | so is the writing of a whole set |
| Examples.PromotionShows | nazman/managers/zfs_backup_manager.py:1297-1330 | a reachable state in which an incremental becomes a full although its set has a chain, because the listing fails |
| Examples.SuccessLossShows | nazman/managers/zfs_backup_manager.py:1256-1278 | a reachable state in which a successful run is taken back to failed because the listing for its prune raises |
| Examples.CrashLeakShows | nazman/managers/zfs_backup_manager.py:1166-1184 | a reachable state in which a crash leaks a snapshot |
| DiskLoss.LifeOwn | nazman/managers/zfs_backup_manager.py:988 | whatever writes, crashes and losses of disks came before, what a row names is a snapshot of its own dataset |
| DiskLoss.ChainDependencies | nazman/services/backup_group_service.py:388-409 | on any such table: lists exactly the datasets with a successful stream of the set on the disk, each once; the second loop adds nothing |
| DiskLoss.BuiltOnIsListed | nazman/services/backup_group_service.py:404-408 | on any such table, a run built on a stream of the disk is of a dataset with a stream on the disk |
| DiskLoss.LossExactly | nazman/managers/zfs_backup_manager.py:988 | deleting a disk's runs changes the chain of a dataset exactly when it was listed |
| DiskLoss.StillReachesExactly | nazman/services/backup_group_service.py:352-380 | with every run recorded, restoring from the volumes left after a disk is gone reaches the last snapshot exactly when that disk held nothing from the latest full on, or the target is already that far |
| DiskLoss.RecycledStartsOver | nazman/managers/zfs_backup_manager.py:1004-1034 | after recycling the only disk a set ever used, its chains are empty and the next write of any dataset there is a full |
| PoolMapping.KeysDiffer | nazman/services/system_restore.py:548-557 | the string keys and prefixes tell disks and slots apart |
| PoolMapping.AttachedDisks | nazman/services/system_restore.py:410-471 | no system disk, no backup media, no disk a pool holds whole or leaves nothing of; all others, with the slots pools hold on them |
| PoolMapping.MatchDisk | nazman/services/system_restore.py:543-573 | the first usable disk with the by-id, else the first usable one with the serial, none exactly when there is none |
| PoolMapping.TakenExactly | nazman/services/system_restore.py:551-557 | the test on the used-set holds exactly when something given out before rules the disk out |
| PoolMapping.PlanPoolMapping | nazman/services/system_restore.py:501-540 | each device gets a fitting disk it identifies unless all of them are ruled out; the disks still available are exactly the untouched ones; the disk given is the first with the by-id, or with the serial if none that can be given has the by-id |
| PoolMapping.NothingSharedTwice | nazman/services/system_restore.py:501-525 | no slot is given twice, and a disk given whole is shared with no other device |
| PoolMapping.NothingHeldGiven | nazman/services/system_restore.py:410-471 | no slot a pool holds, no backup media and no system disk is ever given |
| PoolMapping.OwnDiskExactly | nazman/services/system_restore.py:542-573 | a device that identifies one disk gets it exactly when it fits and nothing given before rules it out |
| PoolMapping.EveryoneGetsTheirOwn | nazman/services/system_restore.py:501-525 | when every device identifies one disk, the greedy order costs nothing: only an earlier device of the same disk that clashes can take it away |
| Progress.PctInRange | nazman/services/system_restore.py:836-858 | the percentage is in 0..100, and below 100 while the restore runs |
| Progress.PctGrows | nazman/services/system_restore.py:836-858 | more work done, no less shown |
| Progress.ShowsDatasets | nazman/services/system_restore.py:847-858 | with d of n datasets done and none under way a running job shows 100 d / n rounded down, at most 99 |
| Progress.ShowsStreams | nazman/services/system_restore.py:847-858 | each of the s streams of the current dataset counts for 1 / (s n) |
| Progress.ShowsBytes | nazman/services/system_restore.py:847-858 | and y of the x bytes expected of a stream for y / (x s n), never for more than the stream |
| Progress.ShowsFailed | nazman/services/system_restore.py:847-858 | a failed job goes on to show 100 d / n |
| Progress.RestoreJob.BeginStream | nazman/services/system_restore.py:929-937 | starting on the next stream, of known or unknown size, takes nothing back |
| Progress.RestoreJob.Report | nazman/services/system_restore.py:954-968 | a growing byte count never lowers the percentage |
| Progress.RestoreJob.EndStream | nazman/services/system_restore.py:943-948 | nor does finishing a stream |
| Progress.RestoreJob.EndDataset | nazman/services/system_restore.py:901-906 | nor does finishing a dataset, received or not |
| Progress.RestoreJob.RestoreDatasets | nazman/services/system_restore.py:860-910 | over a whole restore what is shown never goes back, stays in 0..99 until the end, and ends at 100; the datasets that lacked a stream are counted |
| Pipeline.Kernel.constructor | nazman/utils/commands.py:185-204 | whatever the parent has open at the start, no pipe end is among it |
| Pipeline.Kernel.Pipe | nazman/utils/commands.py:213 | two new descriptors for the two ends of a new pipe |
| Pipeline.StartStage | nazman/utils/commands.py:205-232 | a stage reads the pipe behind the one before it and writes to its own; the parent then keeps only the read end for the next |
| Pipeline.FirstNonZero | nazman/utils/commands.py:268-272 | the first non-zero exit code in order |
| Pipeline.CloseAll | nazman/utils/commands.py:315-320 | whatever the parent still holds is closed |
| Pipeline.RunPipeline | nazman/utils/commands.py:154-325 | for any number of stages and whatever fails: the table ends as it began, each pipe end made is closed exactly once, the stages are wired in a row, and nothing is held while they are waited for |
| Capacity.RaidzIs | nazman/managers/zfs_manager.py:41-46 | all three raidz cases leave the total less the p least sizes |
| Capacity.RaidzUsable | nazman/managers/zfs_manager.py:28-48 | a raidz-p vdev holds the largest total of any n-p of its known devices |
| Capacity.OrderIrrelevant | nazman/managers/zfs_manager.py:28-48 | the order of the devices does not matter |
| Capacity.MoreParity | nazman/managers/zfs_manager.py:41-48 | raidz3 at most raidz2 at most raidz1 at most stripe |
| Capacity.RaidzAtLeast | nazman/managers/zfs_manager.py:28-48 | at least n-p times the smallest known device |
| Capacity.MirrorIsSmallest | nazman/managers/zfs_manager.py:39-40 | a mirror holds what its smallest known device does |
| Capacity.NeverDrops | nazman/managers/zfs_manager.py:28-48 | raidz and stripe never lose capacity when a device grows or is first recognised |
| Capacity.MirrorDropsExactly | nazman/managers/zfs_manager.py:28-40 | a mirror does exactly when a device unknown before turns out smaller than the rest |
| Capacity.MirrorDropShows | nazman/managers/zfs_manager.py:28-40 | a mirror that drops from 100 to 50 |
| Capacity.PoolNeverDrops | nazman/managers/zfs_manager.py:80-84 | neither does the pool, for a device of a vdev that is not a mirror |
| Smb.ShareNamedAfter | nazman/managers/smb_manager.py:110-114 | the last component of the path, in lower case, all but letters, digits and underscores masked, without underscores at its ends; "share" if nothing is left |
| Smb.SplitSections | nazman/managers/smb_manager.py:132-148 | the loop computes the sections the lemmas are about |
| Smb.SettingParses | nazman/managers/smb_manager.py:145-147 | a printed setting is read back with its value stripped at the end |
| Smb.PathKeepsName | nazman/managers/smb_manager.py:40-41 | a normalized name survives its path line exactly when it does not end in a space |
| Smb.ParsesBackExactly | nazman/managers/smb_manager.py:132-199 | parsing printed shares gives back every name and flag exactly when no name has a line break or ends in a space |
| Smb.Markers | nazman/managers/smb_manager.py:168-173 | the last of each marker |
| Smb.ManagedShares | nazman/managers/smb_manager.py:166-178 | the shares described between the markers, none when they are missing or out of order |
| Smb.KeptExactly | nazman/managers/smb_manager.py:234-244 | exactly the managed datasets stay that are named and are neither the one set nor the one removed |
| Smb.KeptInOrder | nazman/managers/smb_manager.py:234-244 | in the order they had |
| Smb.BlockIs | nazman/managers/smb_manager.py:183-199 | the block printed for a share is the one text with its name, path and flags in it |
| Smb.NewTextLines | nazman/managers/smb_manager.py:250-262 | the text written, read back, has all lines outside the region that are not blank, in order |
| Smb.FlagsReset | nazman/managers/smb_manager.py:246-248 | every kept share is writable and enabled afterwards, the one set has its own flags |
| Smb.RewriteChangesOne | nazman/managers/smb_manager.py:246-262 | a region written where no marker is left is read back as the datasets kept and the one set exactly when all their names print soundly; the lines around it stay, in order, unless the name set breaks its line |
| Smb.UnstableLine | nazman/managers/smb_manager.py:40-41 | a managed line that is read as one name and written back as another |
| Smb.RewriteRegion | nazman/managers/smb_manager.py:210-262 | the text written; with at most one well-formed region before, the managed datasets change by exactly the one set or removed if and only if the names print soundly, and nothing outside the region but blank lines changes; the text written, letter by letter; and, unless the name set breaks its line, the region reads as one section for each kept dataset and the one set, each with its path and flags, open to guests and forced to the anonymous user and group |

## Left out

- Restore.Receive: abstract; what `zfs receive` does with data is not modelled, only when it succeeds and where it leaves the target.
- Restore.MergeManifests: the datasets' runs only; pool topology, properties, configuration bundles and labels of the merged manifest are not modelled.
- Manager.BackupManager.RecordManifest: the run entries only; dataset specifications, pool specifications and the group's name in the manifest are not modelled.
- Manager.BackupManager.BackupDataset: the environment's answers are fixed for one call, sizes and checksums are left out, and the polling of the stream file's size is no step.
- Sessions.BackupSession.WriteDataset: recycling a full disk inside a session is not modelled, because recycling deletes the row of the write in flight that the retry then commits.
- Sessions.BackupSession.WriteOneSet: what is asked comes between two writes, not during one; asked while a stream is being sent it counts as asked afterwards, though deregistering the disk then loses that run too.
- Sessions.BackupSession.ExecuteSession: the configuration bundle written to the disks used is not modelled, nor what becomes of it when such a disk was deregistered after its last dataset.
- Groups.BackupGroup.DeregisterDisk: the deletion of the disk's runs is not part of the books; it is treated in `DiskLoss`.
- Groups.BackupGroup.AttachDisk: the pointers of another group's sets, and whether that group needs a disk, are not part of these books; so with `Groups.BackupGroup.DeclareDisk` and `Groups.BackupGroup.DeleteElsewhere`.
- Requests.Perform: what a request for another group's set does to that group's cycle, active set and pointers is not part of these books.
- Composition.WriteSet: the disks of the set stay filed under it meanwhile; a write to a disk filed elsewhere is no action of the protocol.
- Composition.WritePair: the row of a dataset that is not there is inserted as failed, here as a write whose first effect is to fail.
- Groups.BackupGroup.DeleteSet: the deletion of the set's runs and sessions is not modelled.
- PoolMapping.PlanPoolMapping: sizes, and which existing partition a slot would reuse, are only reported by the code and not modelled; the devices of all vdevs are one list.
- PoolMapping.NothingHeldGiven: what is held by a pool or is backup media is given as flags, and only labelled partitions can be held.
- PoolMapping.AttachedDisks: how identities are compared with pool members and media is given per disk and partition.
- Pipeline.RunPipeline: files given for input and output, captured output and the byte reports are not modelled.
- Smb.RewriteRegion: writing the file is left out; text outside ASCII is lower-cased as it is.
- Progress.RestoreJob.RestoreDatasets: a job that ends with an exception is not modelled.
- Recycling, detaching and deregistering are no actions of the protocol: they delete rows of a chain, which is treated in `DiskLoss` for deletions between writes. Neither is filing a disk under another set.
- The order in which several selected datasets are restored, and the choice of their targets.
- Declaring, formatting, waking, probing and mounting disks, RAID, partitioning and device names.
- Database sessions, locking and migrations; tables are sequences and maps with atomic commits.
- Configuration bundles, the scheduler, alerts, logs and metrics.
- The web interface, authentication and NFS sharing.
