# Verified models of the remoteposix driver, the runner, KQL and the backup check

This project models the hard parts of oCIS in Dafny and proves what they promise.

**The `remoteposix` storage driver** keeps ordinary files on a remote mount and its
metadata in SQLite. Several processes share both. The model has

- the node table, journal, trash, upload sessions and outbox as one value changed by
  whole transactions (`Metadata`), and what keeps the table a tree (`Trees`, `TreeChanges`,
  `Scans`, `Maintenance`, `TrashRestore`); the two large transactions statement by statement
  (`Transactions`, with `ScanCommit` and `RowUpdates`) and the path text that SQL works on
  (`PathText`);
- lock planning, as the recursive definition (`LockPlan`) and as the appending loops
  (`Planner`, `LockLists`), what plans cover (`LockCoverage`) and why operations with
  disjoint locks do not interfere (`Interference`);
- what each request looks up, checks and asks for (`Requests`);
- the processes as a transition system (`Protocol`): session, operation and resource
  locks, planning and replanning, journalling, recovery, metadata edits, purges, scans and
  upload sessions, one shared effect per step, with an abort possible at every step. What
  every step keeps (`ProtocolLocks`, `ProtocolBase`, `ProtocolBaseSteps`) gives the theorems
  about all runs (`ProtocolRuns`, `ProtocolProgress`, `ProtocolMemory`, `ProtocolSessions`,
  `ProtocolWalks`, `ProtocolTree`, `ProtocolRevisions` with `Revisions`). A stronger invariant
  (`ProtocolInv`, `ProtocolSteps`, `ProtocolChanges`, `ProtocolCommits`) is kept as long as every
  change is backed by locks (`ProtocolBacked`). `PlanChanges` and `ProtocolExact` say exactly which
  steps keep it, and `ProtocolLimits`, `ProtocolLate` and `ProtocolBroken` are runs of the driver that
  do not (built with `ProtocolReach`);
- a journal entry on the mounted tree (`Files`, `Journal`, `JournalPeers`, `JournalStuck`): renames
  and the commit, each of which can be the last effect before a crash; and purging (`Purges`);
- the bytes of a resumable upload (`Uploads`), the mount-generation lease (`Mount`) and
  event delivery (`Outbox`).

**The runner package** is a transition system over goroutines and channels (`Runner`,
`GroupRunner`). **KQL** has the implicit-operator rewriting (`KqlConnect`) and the parser: the
meaning of parsing expression grammars (`Peg`) and its laws (`PegLaws`), the interpreter with its position and stacks
(`PegParser`) and the query grammar (`KqlGrammar`, `KqlParser`). **The backup check** matches
events online (`Backup`).

SQLite transactions are atomic, renames are atomic, `flock` locks are shared or exclusive and
vanish with their holder, SHA-256 digests are injective (a digest is the tree it was taken of),
and UUIDs are new values: a new node's ID occurs in no row and no held or recorded lock when it is
journalled, a new session's in no entry and no process. Where a theorem needs more than that of a
UUID, it says so (`ProtocolMemory.NewIds`). One transaction draws one new revision. Clocks and
timeouts are arbitrary choices.

## Results that differ from what one might expect

- Deadlock freedom, progress, the uniqueness of paths, the scan's table and "no lost update" hold in
  every run. So do the theorems about upload sessions, if an upload's journal entry gets a new UUID.
  That the table stays a tree, that the trash stays intact and that plans stay current does not hold
  in every run, for two reasons:
  - A reference by ID to a node inside a trashed directory is not covered by a lock on that
    directory (`LockCoverage.TrashNotCovered`). If the directory is restored after such a request
    has planned, the request acts under locks that do not cover the way to its node.
    `ProtocolLate.LateEntry` is a run, without any recovery, in which another request then has a
    conflicting journal entry in its way after it had been told there is none;
    `ProtocolLate.BrokenTrash` continues it to a trash entry that lists a directory which is elsewhere
    in the trash. The table is still a tree then, but not for good: in `ProtocolBroken.BrokenTree` the
    inner directory is restored by its own entry, a new directory is made in it, and the outer
    directory is restored by the entry that lists both. The inner one is taken away from under the new
    one, whose path no longer begins with its parent's.
  - A restore reuses the ID of the entry that trashed the node. `recoverOne` reads the journal
    again by ID, so a recovery of the older entry can finish the restore with the older entry's
    locks. `ProtocolLimits.StalePlan` is a run in which this leaves a request with a plan that planning
    no longer gives. If all entries but restores get new UUIDs, a recovery finds the entry it had read
    or a restore (`ProtocolMemory.RecoveryFinds`).
- The exact condition for the tree is about single commits: a commit, in whatever state of the table,
  leaves a tree if and only if its entry still fits (`TreeChanges.CommitTreeIff`), and in any run the
  table is a tree throughout if and only if every entry committed in it fitted then
  (`ProtocolTree.RunTreeIff`). Nothing else in the driver can break the tree. For a restore that means
  three things (`TrashRestore.RestoreKeepsTreeIff`): each row that comes back has its directory come
  back, no other row is left with a directory that comes back elsewhere, and it does not go into a
  directory of its own.
- A process could rule out both reasons by itself, with what it has at hand: by comparing the locks
  that an entry records with those it holds, before it journals its own entry or finishes a found one,
  by looking again whether its own entry can be carried out, and by planning its reference again before
  an edit (`Protocol.Backed`). The comparison of locks is the right one: a process holds the recorded
  locks if and only if nobody whose locks do not conflict with its own can have locks that conflict with
  the entry (`ProtocolExact.OwnLocksIff`). The theorems of `ProtocolBacked` are about the runs in which
  these comparisons would succeed. Runs whose requests act on nothing that was not public when they
  planned, and whose recoveries find the entry they read, are such runs (`ProtocolExact.SteadyRun`). The
  exact conditions are weaker, and enough for the same conclusions (`ProtocolExact.HarmlessAlways`). A
  commit changes a plan if and only if it puts a row on the reference's way or takes one from it
  (`PlanChanges.PlanChangesIff`). A recovery does harm if and only if it does so to a request between
  its second planning and its look at the journal, or finishes the entry of a publisher that is still at
  it (`ProtocolExact.SparedIff`); a request that has looked at the journal is never hit. A request holds
  the locks of the entry it journals if and only if planning its references again would ask for nothing
  new (`ProtocolExact.JournalBackedIff`). The invariant holds throughout a run if and only if every step
  meets its condition (`ProtocolExact.RunInvIff`).
- One mount generation is not one file system: while requests of one process still work on the old
  root after a remount, another process can have the stored generation and the new root, and its
  requests are admitted (`Mount.TwoRoots`). It may have started after the remount, or have had that
  root already. From a state of any run no continuation without a remount leads there if and only if
  every request that is in is on what is mounted (`Mount.OneRootIff`). So if remounts happen only while
  no request is in, there is one root always (`Mount.OneRootAlways`). In every run no root is changed
  under a request (`Mount.OneRoot`).
- A row still marked missing at the target of a create keeps its journal entry pending as long as it
  is there (`Journal.CreateCompletesIff`, `JournalStuck.NeverDone`): `apply` looks only at the files. A
  request to make a directory gets there from a consistent database (`JournalStuck.CreateStuck`), and
  while its entry is pending no scan takes the row away (`ProtocolRuns.ScanAlways`).
- Restoring revives rows that were marked missing when their directory was deleted. From an intact
  trash the tree survives exactly if their directories are in the snapshot
  (`TrashRestore.IntactRestoreIff`).
- A failed chunk beyond the end of a complete upload blocks `FinishUpload` until another chunk,
  which may be empty, has been accepted (`Uploads.PublishesTaken`, `Uploads.LeftoverBlocks`).
- A comment in `locks.go` says that live publishers own all resource locks of their operation. The
  lock on a newly created node's ID is not among those they hold; the model follows the code.
- The backup check's reports depend on event order exactly if a link leads to an existing node that
  needs none and has no inconsistencies (`Backup.OrderVisible`).

## Model

| member | source | states |
|---|---|---|
| `LockLists.NormalizeLocks` | ocis-pkg/storage/remoteposix/locks.go:32-43 | The result is strictly ascending by key and stands for the same lock map as the input: every key asked for, in the strongest mode asked for |
| `LockLists.NormalUnique` | ocis-pkg/storage/remoteposix/locks.go:32-43 | Two ascending lists with the same map are the same list, so neither input order nor map iteration order shows in what `normalizeLocks` returns |
| `LockLists.Overlap` | ocis-pkg/storage/remoteposix/locks.go:203-212 | True exactly when the two lists, as lock maps, share a key that one of them wants to write |
| `Planner.Planning.AddNode` | ocis-pkg/storage/remoteposix/locks.go:118-144 | The loop from a node to the root appends exactly the locks and stamps of the recursive plan of its ancestor chain, and fails exactly when that plan does (lost parent, parent cycle) |
| `Planner.Planning.Walk` | ocis-pkg/storage/remoteposix/locks.go:179-195 | The loop along a path, stopping at the first entry that does not exist, collects exactly the plan of the path |
| `Planner.Planning.PlanAll` | ocis-pkg/storage/remoteposix/locks.go:99-201 | Planning all references with appended lists, then normalizing, yields the joined plan of the references: same locks, same stamp, same failures |
| `LockCoverage.SpellingIrrelevant` | ocis-pkg/storage/remoteposix/locks.go:145-195 | A reference by ID with a relative path gets the same locks as the full path spelled from the space root |
| `LockCoverage.Coverage` | ocis-pkg/storage/remoteposix/locks.go:99-212 | Lock coverage: in every tree, a write plan for a public node, live or missing in a live directory, and a plan for any reference to it or below it, existing or not, conflict |
| `LockCoverage.PlanNames` | ocis-pkg/storage/remoteposix/locks.go:99-201 | The other direction: a plan locks no nodes but those on the way to where its reference leads, and none but the last for writing |
| `LockCoverage.TrashNotCovered` | ocis-pkg/storage/remoteposix/locks.go:127-131 | Coverage ends at the trash: plans for two trashed nodes conflict if and only if they are the same node |
| `Interference.OpLocksHold` | ocis-pkg/storage/remoteposix/locks.go:235-251 | The locks recorded in a journal entry hold its node, its target entry and every node above them |
| `Interference.RefStable` | ocis-pkg/storage/remoteposix/locks.go:97-201 | A reference's plan (locks and stamp) is unchanged by any table change that keeps the rows and free entries its own locks hold |
| `Interference.OpKeeps` | ocis-pkg/storage/remoteposix/store.go:748-819 | Committing an operation keeps the rows and free entries of every lock set that does not conflict with its locks |
| `Interference.EnabledStable` | ocis-pkg/storage/remoteposix/store.go:748-819 | Non-interference: after one of two operations with disjoint locks commits, the other can still commit and would record the same locks |
| `Requests.AnswerEnabledIff` | ocis-pkg/storage/remoteposix/driver.go:392-485 | After the lookups and checks of any request the operation it asks for can be carried out if and only if its UUIDs are new, no row is at or below its target and a restored snapshot is complete |
| `Requests.AnswerNamed` | ocis-pkg/storage/remoteposix/retention.go:189-257 | The references of a request that start at live nodes lead to the public paths of the operation it asks for, all of them and no others, whenever their bases became public; a restore's trashed node is named by its ID |
| `Requests.WriteEnabledIff` | ocis-pkg/storage/remoteposix/upload.go:388-474 | A file write, new or over the expected revision of a live or missing row whose file on the mount is as recorded, needs nothing more than new UUIDs and a free place |
| `Requests.ParentRight` | ocis-pkg/storage/remoteposix/driver.go:152-166 | The directory and name that a destination is resolved to spell the same path as the reference, outside the reserved directory |
| `Maintenance.PurgeStable` | ocis-pkg/storage/remoteposix/retention.go:258-312 | Purging a trash entry leaves every pending operation on another node possible, with the same locks |
| `Maintenance.EditStable` | ocis-pkg/storage/remoteposix/metadata.go:310-347 | Changing a node's metadata under a lock chain down to it leaves every operation with disjoint locks possible, with the same locks |
| `Maintenance.EditEnabledIff` | ocis-pkg/storage/remoteposix/metadata.go:310-347 | A metadata change leaves a pending operation possible if and only if it is not a replacement of the same node and not a deletion whose snapshot has the node |
| `Trees.CommitKeepsDb` | ocis-pkg/storage/remoteposix/store.go:748-856 | In every consistent database an operation that meets its request-time checks commits (no constraint fails) and leaves a tree: unique paths, each live public row in a live directory under its own name, trash snapshots matching trash rows |
| `Maintenance.PurgeKeepsDb` | ocis-pkg/storage/remoteposix/retention.go:258-312 | Purging keeps the tree and every other trash entry |
| `Purges.Mounted.Purge` | ocis-pkg/storage/remoteposix/retention.go:258-312 | Versions, then the trashed tree entry by entry, then the transaction, stopped after any number of effects |
| `Purges.AttemptMeans` | ocis-pkg/storage/remoteposix/retention.go:283-312 | A purge that was cut off leaves the database and all other files alone; a complete one removes exactly the entry's tree and its nodes' versions |
| `Purges.PurgeConverges` | ocis-pkg/storage/remoteposix/retention.go:283-312 | Any series of cut-off purges in which one completes ends in exactly the files and database of one undisturbed purge |
| `TreeChanges.CommitTreeIff` | ocis-pkg/storage/remoteposix/store.go:748-856 | The commit of an entry of any kind, in any later state of the table, leaves a tree if and only if the entry still fits: a new row's directory is live and where the entry says, a revived row has a live directory, what is at a move's source is the node that is moved and goes into its directory, every restored row goes into a directory that is there |
| `TrashRestore.RestoreKeepsTreeIff` | ocis-pkg/storage/remoteposix/store.go:774-787 | In any tree, whatever has become of the trash, a restore that passes its checks can be written, and keeps the tree if and only if each row that comes back has its directory come back, no other row is left with a directory that comes back elsewhere, and it does not go into its own subtree |
| `TrashRestore.SubtreeLinked` | ocis-pkg/storage/remoteposix/driver.go:454-485 | What a deletion records of a tree is a linked subtree, which is all that `RestoreKeepsTreeIff` asks of a snapshot |
| `TrashRestore.IntactRestoreIff` | ocis-pkg/storage/remoteposix/store.go:774-787 | From an intact trash it keeps the tree if and only if every restored row's directory is in the snapshot; missing-marked rows are revived |
| `TrashRestore.RoundTrip` | ocis-pkg/storage/remoteposix/store.go:774-819 | Delete then restore to the recorded path, with no missing rows: both commit; every row is back with its ID, parent, name, path, size and time; only revisions in the subtree and above it differ; no retained entry is left |
| `TrashRestore.FilesRoundTrip` | ocis-pkg/storage/remoteposix/retention.go:220-257 | Moving a tree into the trash and back restores every file system entry |
| `PathText.SelectsSubtree` | ocis-pkg/storage/remoteposix/store.go:788-792 | The SQL prefix test on path text selects exactly the rows at and below the path, for names with any characters |
| `PathText.RewritesPath` | ocis-pkg/storage/remoteposix/store.go:808-814 | The SQL rewrite of path text yields the text of the rebased path |
| `PathText.RenderedInjective` | ocis-pkg/storage/remoteposix/store.go:278-292 | Path text determines the path, the root's dot included |
| `Transactions.Transaction.RefreshDirectories` | ocis-pkg/storage/remoteposix/store.go:553-573 | The climbing loop gives new revisions to exactly the directories on the way from a changed public path to the root |
| `Transactions.Transaction.CommitScan` | ocis-pkg/storage/remoteposix/store.go:471-549 | The two loops over walked paths and known nodes, with deletes, upserts, missing marks, events and the final refresh, leave exactly the reconciled table and append the notices of the walk |
| `ScanCommit.NoticesRight` | ocis-pkg/storage/remoteposix/store.go:497-545 | A scan announces a node if and only if its row is new, has another size or time, or is gone with nothing at its path |
| `Transactions.Transaction.MoveRows` | ocis-pkg/storage/remoteposix/store.go:788-792 | Rewriting paths row by row, each needing its new path free at that moment, succeeds if and only if the final paths are unique, in every row order |
| `Transactions.Transaction.RestoreRows` | ocis-pkg/storage/remoteposix/store.go:775-784 | The same for the loop over a restored snapshot, rows that are gone included |
| `Transactions.Transaction.CommitOperation` | ocis-pkg/storage/remoteposix/store.go:748-856 | The finishing statements in their order have exactly the outcome of the whole transaction, and a failed statement leaves everything as it was |
| `Transactions.EnabledClear` | ocis-pkg/storage/remoteposix/store.go:748-819 | In a consistent database every operation that passed its checks meets what `CommitOperation` needs |
| `Scans.ScanTree` | ocis-pkg/storage/remoteposix/store.go:360-549 | A committed scan of any complete walk keeps the tree and does not touch trash rows |
| `Scans.ScanKeepsIds` | ocis-pkg/storage/remoteposix/store.go:497-545 | A live row keeps its ID, place and parent or is only marked missing; a row goes only if it was already missing and its path is back or the grace period is over |
| `ProtocolLocks.NoCircle` | ocis-pkg/storage/remoteposix/locks.go:32-95 | From the lock discipline alone: no processes wait for each other in a circle, over session, operation and resource locks |
| `ProtocolCommits.CommitOps` | ocis-pkg/storage/remoteposix/locks.go:345-379 | Committing one entry keeps every other pending entry possible, with the locks it recorded, and conflict-free |
| `ProtocolCommits.SameEntryCovered` | ocis-pkg/storage/remoteposix/locks.go:345-379 | If the journal still has the entry a recovery read, the recovery holds that entry's locks and session |
| `ProtocolRuns.RunBase` | ocis-pkg/storage/remoteposix/locks.go:253-379 | Every run of any number of processes, with aborts at any step, keeps the lock discipline, the drained sessions, unique paths under one root, and what scans have read |
| `ProtocolRuns.NoDeadlock` | ocis-pkg/storage/remoteposix/locks.go:253-379 | No state of any run has a circular wait |
| `ProtocolRuns.RootedAlways` | ocis-pkg/storage/remoteposix/store.go:748-856 | In every state of any run no two rows share a path, there is one root, and every other row has a parent |
| `ProtocolRuns.DropAlways` | ocis-pkg/storage/remoteposix/upload_cleanup.go:61-105 | In any run a session row is deleted only when no journal entry names the session |
| `ProtocolRuns.ScanAlways` | ocis-pkg/storage/remoteposix/store.go:360-496 | In every state of any run, a scan past its epoch check holds the present table, and the journal is empty |
| `ProtocolTree.RunTreeIff` | ocis-pkg/storage/remoteposix/store.go:748-856 | In any run from a consistent start, with any recoveries and under any locks, the table is a tree throughout if and only if every entry committed in it still fitted the table; edits, purges and scans never break it |
| `ProtocolProgress.Progress` | ocis-pkg/storage/remoteposix/locks.go:45-95 | In every state of any run with a waiting process, some waiting process can take its lock at once or waits for one that is not waiting |
| `ProtocolWalks.RunWalksIff` | ocis-pkg/storage/remoteposix/store.go:360-496 | In any run the driver renames nothing behind a walk that the epoch does not show to be out of date, in all its states, if and only if no rename happens while there is one |
| `ProtocolWalks.WalkAlways` | ocis-pkg/storage/remoteposix/store.go:360-496 | In such a run the driver has renamed nothing while a scan that is past its epoch check walked the tree |
| `ProtocolWalks.PendingUnseen` | ocis-pkg/storage/remoteposix/store.go:360-496 | Runs whose renames happen while an entry is pending are such runs |
| `ProtocolWalks.RenameSpoilsIff` | ocis-pkg/storage/remoteposix/store.go:476-496 | A rename slips into a walk if and only if there is a walk that the epoch does not show to be out of date; there is none while an entry is pending |
| `ProtocolMemory.KeptAlways` | ocis-pkg/storage/remoteposix/locks.go:345-379 | In any run, for any kind of entry that gets new UUIDs: whoever remembers an ID under which such an entry is pending remembers this very entry |
| `ProtocolMemory.RecoveryFinds` | ocis-pkg/storage/remoteposix/locks.go:345-379 | If all entries but restores get new UUIDs, a recovery finishes the entry it had read, or a restore |
| `ProtocolSessions.OnceAlways` | ocis-pkg/storage/remoteposix/upload.go:475-510 | In any run whose upload entries get new UUIDs: at most one operation per session has committed; the session has a result if and only if one has; a pending entry's session row exists and has none |
| `ProtocolSessions.ResultStays` | ocis-pkg/storage/remoteposix/store.go:821-840 | In such a run a session's result, once set, is the same in every later state, or the row is gone for good |
| `ProtocolBacked.RunInv` | ocis-pkg/storage/remoteposix/locks.go:253-379 | A run in which every change is backed by locks, and every entry journalled can be carried out, keeps the whole invariant: consistent tables, pending entries that can commit, conflict no other and have the locks planning gives them, and plans that are current |
| `ProtocolBacked.TreeAlways` | ocis-pkg/storage/remoteposix/store.go:676-856 | In every state of such a run the table is a tree, the trash is intact and every pending entry can be committed |
| `ProtocolBacked.PlanAlways` | ocis-pkg/storage/remoteposix/locks.go:253-320 | Lock stability: once `beginRefs` has returned, replanning any of its public references gives the same locks and stamp, whatever others did, and no pending entry conflicts |
| `ProtocolBacked.RenamesPend` | ocis-pkg/storage/remoteposix/store.go:676-726 | In such a run every rename happens while an entry is pending |
| `PlanChanges.PlanChangesIff` | ocis-pkg/storage/remoteposix/locks.go:97-201 | A commit of any kind changes the plan of a public reference if and only if its target or its source is on the way to where the reference leads |
| `ProtocolExact.SparedIff` | ocis-pkg/storage/remoteposix/locks.go:345-379 | Whoever commits a pending entry, under whatever locks: what another process relies on survives if and only if it is not a verified request with a touched way, nor the entry's own publisher |
| `ProtocolExact.RecoveryKeepsIff` | ocis-pkg/storage/remoteposix/locks.go:345-379 | Finishing the entry that a recovery finds keeps the invariant if and only if every other process is spared |
| `ProtocolExact.JournalBackedIff` | ocis-pkg/storage/remoteposix/store.go:630-674 | When a request journals, it holds every lock the entry records, except that of a node not created yet, if and only if planning its references again would ask for nothing new, however they were spelled |
| `ProtocolExact.KnownBasesBack` | ocis-pkg/storage/remoteposix/store.go:630-674 | It does so if the entry can be carried out and the bases of its references that are live now were public when it planned |
| `ProtocolExact.JournalKeepsIff` | ocis-pkg/storage/remoteposix/store.go:630-674 | Journalling keeps the invariant if and only if the entry can be carried out and the request holds those locks |
| `ProtocolExact.EditKeepsIff` | ocis-pkg/storage/remoteposix/metadata.go:310-347 | A metadata change keeps the invariant if and only if it runs into no pending replacement or deletion |
| `ProtocolExact.RunInvIff` | ocis-pkg/storage/remoteposix/locks.go:253-379 | The invariant holds throughout a run if and only if every recovery, journalled entry and edit in it meets its condition |
| `ProtocolExact.HarmlessAlways` | ocis-pkg/storage/remoteposix/locks.go:253-379 | In such a run the table is a tree, the trash is intact, every pending entry can be committed, and replanning a public reference of a request that has begun gives the same plan |
| `ProtocolExact.HarmlessPends` | ocis-pkg/storage/remoteposix/store.go:676-726 | In such a run every rename happens while an entry is pending |
| `ProtocolExact.SteadyRun` | ocis-pkg/storage/remoteposix/locks.go:253-379 | Every change is backed by locks in every run whose requests act only on bases that were public when they planned and journal what can be carried out, and whose recoveries find the entry they read |
| `ProtocolExact.OwnLocksIff` | ocis-pkg/storage/remoteposix/locks.go:203-212 | The locks of an entry, but for a new node's, are among those held if and only if no lock set without conflict with the held ones conflicts with the entry's |
| `ProtocolRevisions.NoLostUpdate` | ocis-pkg/storage/remoteposix/store.go:753-819 | Over every run, a node that stayed in the table and has the revision it had before also has the kind, size and time it had before |
| `Revisions.CommitStamps` | ocis-pkg/storage/remoteposix/store.go:553-573 | A committed operation gives a revision never used before to its node and to every directory above its public paths |
| `Revisions.CommitReports` | ocis-pkg/storage/remoteposix/store.go:748-856 | After a commit the node is at its target in the named directory with new or kept content, and exactly one event, newer than all others, tells of it |
| `ProtocolLimits.StalePlan` | ocis-pkg/storage/remoteposix/locks.go:345-379 | Concrete run: a file is trashed and its restore begun under the same ID; a recovery that had read the trash entry finishes the restore under the wrong locks, and another process is told that its stale plan is free of conflicts |
| `ProtocolLate.LateEntry` | ocis-pkg/storage/remoteposix/locks.go:127-131 | Concrete run without recoveries: a request planned for a directory in the trash journals its deletion after the directory was restored, and another request that had found no conflicting entry has one |
| `ProtocolLate.BrokenTrash` | ocis-pkg/storage/remoteposix/store.go:788-819 | The run goes on: both requests commit; the table is still a tree, but the trashed outer directory's entry lists the inner one, which is elsewhere in the trash |
| `ProtocolBroken.BrokenTree` | ocis-pkg/storage/remoteposix/store.go:774-787 | Concrete run without recoveries, from a consistent start, that goes on from there: restoring both directories, with a new one made in between, leaves a table that is not a tree |
| `Journal.Store.Apply` | ocis-pkg/storage/remoteposix/store.go:630-674 | A refused request changes nothing; otherwise the durable entry is the first effect and the rest is an attempt to finish it, for every number of effects before a stop |
| `Journal.Store.Finish` | ocis-pkg/storage/remoteposix/store.go:676-856 | One pass through the code, stopped after any number of effects, has exactly the outcome of deciding each effect afresh from disk |
| `Journal.Store.RetainPrevious` | ocis-pkg/storage/remoteposix/store.go:686-713 | The replacement's backup step, alone: either it ends the attempt as the step-by-step definition says, or the backup holds the previous version |
| `Journal.WrittenStage` | ocis-pkg/storage/remoteposix/store.go:640-673 | A new entry starts with everything where it was |
| `Journal.OnePlace` | ocis-pkg/storage/remoteposix/store.go:676-735 | In every state that cut-off recoveries and others' work elsewhere lead to, the staged tree is at its source until it is at its target, the replaced version at the target until it is at the backup, and the target never holds both |
| `Journal.AttemptStages` | ocis-pkg/storage/remoteposix/store.go:676-856 | From each stage and for every number of effects: which stage is reached, whether the commit happens, with which size and time, and that all other files are untouched |
| `Journal.Converges` | ocis-pkg/storage/remoteposix/locks.go:345-379 | Crash convergence: after any sequence of cut-off recoveries and of others working elsewhere, one undisturbed recovery puts the trees in place and commits the rows with the size and time the staged root had at the start, or changes nothing if that had been done |
| `Journal.SameAsWithoutCrashes` | ocis-pkg/storage/remoteposix/store.go:676-856 | Undisturbed, any series of cut-off attempts followed by a complete one ends in exactly the files and database of a single complete run |
| `Journal.AttemptConserves` | ocis-pkg/storage/remoteposix/store.go:676-735 | On any files at all, success, failure or stop: every entry survives unchanged somewhere, none is overwritten or made up, and the journal goes only with the commit |
| `Journal.CompletesIff` | ocis-pkg/storage/remoteposix/store.go:676-746 | Recovery completes if and only if the files are at one of the three stages; everything else is an error that keeps the journal |
| `Journal.CreateCompletesIff` | ocis-pkg/storage/remoteposix/store.go:640-644 | A create entry completes if and only if no row, live or missing, has its target path, which the request did not check |
| `JournalStuck.NeverDone` | ocis-pkg/storage/remoteposix/store.go:640-644 | As long as a row has its target path, no attempt at a create entry commits or changes the database, whatever the files are |
| `JournalStuck.CreateStuck` | ocis-pkg/storage/remoteposix/store.go:640-644 | Concrete: in a consistent database a request to make a directory at a path that is free on the mount and missing in the table passes its checks, is journalled, and cannot be finished by any number of attempts |
| `JournalPeers.RootsApart` | ocis-pkg/storage/remoteposix/store.go:676-735 | The trees and places that two entries with disjoint locks move between never contain one another |
| `JournalPeers.PeerElsewhere` | ocis-pkg/storage/remoteposix/store.go:676-735 | Any rename of one entry leaves alone all files that another entry with disjoint locks relies on |
| `Uploads.Staging.WriteChunk` | ocis-pkg/storage/remoteposix/upload.go:230-270 | A chunk is refused, or fails at any point and leaves the session as it was, or is taken whole; truncation, the one-byte-over limit and the size check included |
| `Uploads.Staging.DeclareLength` | ocis-pkg/storage/remoteposix/upload.go:293-309 | The length is declared once, never below the offset |
| `Uploads.Staging.Prepare` | ocis-pkg/storage/remoteposix/upload.go:327-387 | The copy published is the staged file, and only if it has exactly the declared length |
| `Uploads.RunUpload` | ocis-pkg/storage/remoteposix/upload.go:230-309 | After every sequence of chunks, faults, declarations and removals the offset counts the acknowledged bytes, stays within a declared size, and the staged file begins with those bytes |
| `Uploads.PublishesTaken` | ocis-pkg/storage/remoteposix/upload.go:475-510 | What is published is exactly the acknowledged bytes, of the declared length; a complete upload can be published if and only if no failed chunk left bytes behind them |
| `Uploads.ChunkCleans` | ocis-pkg/storage/remoteposix/upload.go:244-262 | The next acknowledged chunk removes what failed chunks left |
| `Uploads.LeftoverBlocks` | ocis-pkg/storage/remoteposix/upload.go:255-262 | Concrete: a chunk beyond the end that fails after one byte makes a complete upload unfinishable until then |
| `Mount.NextInv` | ocis-pkg/storage/remoteposix/reconnect.go:46-171 | Every step of `enter`, `reopen`, a remount, shutdown or process death keeps the lease invariant and never lowers the stored generation |
| `Mount.OneGeneration` | ocis-pkg/storage/remoteposix/reconnect.go:46-75 | In every run an admitted request's process has the stored generation, so no two generations are in use, and none while one is being replaced |
| `Mount.OneRoot` | ocis-pkg/storage/remoteposix/store.go:225-256 | In every run a request works, as long as it is admitted, on the root that was mounted when it was admitted |
| `Mount.TwoRoots` | ocis-pkg/storage/remoteposix/reconnect.go:46-75 | Concrete run: requests of two processes are in with one generation and two different roots |
| `Mount.OneRootIff` | ocis-pkg/storage/remoteposix/reconnect.go:46-75 | From any state of any run: in no continuation without a remount are two requests in on different roots, if and only if every request that is in now is on what is mounted now |
| `Mount.OneRootAlways` | ocis-pkg/storage/remoteposix/store.go:225-256 | In every run that remounts only while no request is in, all requests that are in are on what is mounted |
| `Mount.NeverBack` | ocis-pkg/storage/remoteposix/reconnect.go:107-171 | The stored generation never decreases over a run |
| `Mount.ReopenedFits` | ocis-pkg/storage/remoteposix/reconnect.go:153-170 | A process that completes `reopen` has the stored generation and held the gate alone |
| `Runner.NextOk` | ocis-pkg/runner/runner.go:135-201 | No step of a runner's goroutines sends on a closed channel, closes one twice, runs the stopper again, or yields anything but its own result or a timeout of its own duration |
| `Runner.NeverStuck` | ocis-pkg/runner/runner.go:135-201 | An interrupted runner, or one whose task has ended, always has a step towards its result |
| `GroupRunner.GroupReturns` | ocis-pkg/runner/grouprunner.go:116-234 | For n runners, `Run` and `RunAsync`, and every interleaving: n results on return, or n handed over one by one, each a runner's own report or a group timeout of the configured duration, and no known runner twice |
| `GroupRunner.NothingBreaks` | ocis-pkg/runner/grouprunner.go:251-274 | Every stopper runs at most once and no channel is misused, in every interleaving |
| `GroupRunner.NeverFull` | ocis-pkg/runner/grouprunner.go:116-174 | The result channel always has room for a runner that has a result, also after the group has returned |
| `GroupRunner.CollectorMoves` | ocis-pkg/runner/grouprunner.go:146-166 | Once the group timer has fired the collector can always take its next step, if the caller of `RunAsync` takes what it is handed |
| `GroupRunner.EmptyGroupOvershoots` | ocis-pkg/runner/grouprunner.go:116-174 | Concrete: a group without runners returns one result after an interrupt |
| `KqlConnect.ConnectNodes` | ocis-pkg/kql/connect.go:10-25 | The backward loop with the connected tail as context equals the forward definition on the plain nodes |
| `KqlConnect.ConnectNode` | ocis-pkg/kql/connect.go:28-48 | The scan for the nearest operand and the operators before it decides the same glue as the forward definition |
| `KqlConnect.Connect` | ocis-pkg/kql/connect.go:62-129 | The connector's decision from neighbour and operators is the forward definition's |
| `KqlConnect.EraseUndoes` | ocis-pkg/kql/connect.go:10-25 | Erasing the inserted operators gives back the query |
| `KqlConnect.ConnectedJoins` | ocis-pkg/kql/connect.go:62-129 | Every operand with another after it is directly followed by AND or OR |
| `KqlConnect.InsertedWhere` | ocis-pkg/kql/connect.go:62-129 | Every inserted operator stands between an operand and the next, and is the same-key operator if and only if both keys are equal, non-empty, ignoring case, and no NOT follows |
| `KqlConnect.ConnectTwice` | ocis-pkg/kql/connect.go:10-25 | A second pass changes nothing |
| `Peg.Sem` | ocis-pkg/kql/dictionary_gen.go:2513-2970 | What each expression matches, by recursion that is proved to end; a match moves forward only, and stays in place only for expressions that may be empty |
| `PegParser.Parser.ParseExpr` | ocis-pkg/kql/dictionary_gen.go:2542-2591 | The interpreter ends on every input and yields exactly the defined match; failure leaves the position, all outer label scopes and the rule stack as they were |
| `PegParser.Parser.ParseSeq` | ocis-pkg/kql/dictionary_gen.go:2893-2912 | The loop with backtracking matches a sequence as defined and restores the position on failure |
| `PegParser.Parser.ParseChoice` | ocis-pkg/kql/dictionary_gen.go:2747-2769 | The first alternative that matches, each in a scope of its own |
| `PegParser.Parser.Repeat` | ocis-pkg/kql/dictionary_gen.go:2842-2862 | Greedy repetition as defined; every round consumes input |
| `PegParser.Parser.ParseLit` | ocis-pkg/kql/dictionary_gen.go:2786-2806 | A literal matches exactly where the text occurs, and a partial match is undone |
| `PegParser.Parser.ParseClass` | ocis-pkg/kql/dictionary_gen.go:2666-2727 | Character lists and ranges, inverted or not; the end of input never matches |
| `PegParser.Parser.ParseRule` | ocis-pkg/kql/dictionary_gen.go:2513-2520 | A rule is matched in a fresh scope, and both stacks are balanced |
| `PegLaws.Shift` | ocis-pkg/kql/dictionary_gen.go:2542-2591 | What an expression matches at a position depends only on the input from there on: text put in front moves the match and changes nothing else |
| `PegLaws.StarStops` | ocis-pkg/kql/dictionary_gen.go:2942-2958 | Repetition is greedy: where it ends the body does not match |
| `PegLaws.FirstWins` | ocis-pkg/kql/dictionary_gen.go:2747-2769 | A choice equals its first matching alternative, whatever the later ones would do |
| `KqlGrammar.KqlWellFounded` | ocis-pkg/kql/dictionary_gen.go:20-1296 | In the query grammar no rule can reach itself without consuming input, and nothing that may be empty is repeated |
| `KqlParser.ParseQuery` | ocis-pkg/kql/dictionary_gen.go:2400-2475 | Parsing any query ends with exactly the match the grammar defines, and a match consumes something |
| `Backup.Consistency.GatherData` | ocis/pkg/backup/backup.go:78-134 | The event loop and the marking loops compute the fold of single events and its report |
| `Backup.SeeAllMeans` | ocis/pkg/backup/backup.go:78-134 | With one event per node, link target, reference and blob, the tables are plain set differences of the events, but for links to plain nodes that came late |
| `Backup.AnyOrder` | ocis/pkg/backup/backup.go:78-134 | Every order of the same events gives the same four reports, if links lead only to nodes that need one, have inconsistencies, or do not exist |
| `Backup.OrderVisible` | ocis/pkg/backup/backup.go:95-115 | Otherwise two orders of the same events give different reports, so the condition is exact |
| `Outbox.Queue.Publish` | ocis-pkg/storage/remoteposix/driver.go:487-537 | Cut off after any number of effects: what left the queue was sent, in order, and at most one sent row is still queued |
| `Outbox.Delivered` | ocis-pkg/storage/remoteposix/driver.go:487-537 | Over every run with crashes and concurrent commits: each committed event is published or queued, nothing else is published, the log never goes back, and repeats are adjacent |

## Left out

- ProtocolBacked.PlanAlways: only for references whose base was a public row when planned; a reference by ID into the trash or to a node that does not exist has no stability claim, see `LockCoverage.TrashNotCovered`.
- ProtocolBacked.RunInv: only for runs in which every change is backed by locks; `ProtocolExact.RunInvIff` has the exact condition, `ProtocolLimits.StalePlan`, `ProtocolLate.BrokenTrash` and `ProtocolBroken.BrokenTree` the runs in which it fails.
- ProtocolBacked.TreeAlways: only for such runs; `ProtocolTree.RunTreeIff` has the exact condition for the tree.
- ProtocolWalks.WalkAlways: only for runs whose renames no current walk sees, which `ProtocolWalks.RunWalksIff` shows to be necessary; all harmless runs are such runs (`ProtocolExact.HarmlessPends`). A publisher whose entry another process has finished may still try a rename.
- TrashRestore.RestoreKeepsTreeIff: only for entries that recorded a linked subtree, as every deletion from a tree does (`TrashRestore.SubtreeLinked`); `TreeChanges.CommitTreeIff` has the condition for any snapshot.
- Planner.Planning.PlanAll: references have a base in this space and a clean path; nil references, IDs of other spaces and the refusals of `cleanPath` come before.
- Journal.Converges: others are assumed to keep off the entry's trees and to leave room for its renames; `JournalPeers.PeerElsewhere` shows this of the driver's own operations, not of outside writers.
- Mount.OneRoot: the identity file and the control directories that `healthy` and `validateRoot` read are not modelled, only which file system the pathname leads to.
- Uploads.RunUpload: 64-bit overflow of offsets is not modelled; sizes are below the largest 64-bit value.
- PegParser.Parser.ParseExpr: decoded characters instead of UTF-8 bytes, no error messages or statistics, no memoization (a memo hit skips label binding), and literals never contain U+FFFD, which would match the end of input.
- PegParser.Parser.ParseLit: no `ignoreCase`, which no literal of the query grammar sets.
- PegParser.Parser.ParseClass: no `ignoreCase` and no Unicode classes, which no class of the query grammar has.
- KqlConnect.Connect: keys are compared with ASCII case folding; the grammar only produces ASCII keys.
- Requests.AnswerEnabledIff: permissions are not part of a request here; an upload's parent is a directory, as `start` checked.
- Requests.WriteEnabledIff: permissions, as above.
- Backup.Consistency.GatherData: the maps from blobs to nodes and from nodes to links, which only `PrintResults` reads, are not kept.
- The processes in `Protocol` do not record the events of a scan; `Transactions.Transaction.CommitScan` does.
- `acquire` retries and timeouts: a lock attempt waits until the lock is free or the process aborts.
- The scan's walk of the mount, its limit of 25 percent vanished entries and its refusal of symlinks: the walk is a parameter.
- The upload's expiry after 24 hours, its user and metadata checks, and `mtime` parsing.
- `Runner.Run` for a single runner and `GroupRunner.Add`: easier than the group.
- Semantic actions of the parser, AST validation and date ranges.
- Permissions, grants, quota, JWT transfer, CS3 responses, spaces, the registry, services, configuration and the crawlers of the backup provider.
