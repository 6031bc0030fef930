# Verified model of the DocketWorks backend's protocols and invariants

This project models the parts of the DocketWorks backend whose correctness rests on interleavings, on
histories, or on two pieces of code agreeing with each other, and proves what they keep. `dafny verify
dfyconfig.toml` checks everything. Each module stands for one component:

| module | component | form |
|---|---|---|
| `Push` | the coalescing data-version publish: a lease in the shared cache, a leading and a trailing event | interleaved steps; class `Publisher` |
| `OnCommit` | one publish callback per transaction, under nested savepoints | state machine with a stack; class `Connection` |
| `Fingerprint` | table version strings (newest timestamp, row count) as fingerprints of whole tables | functions over runs of writes |
| `PdfQueue` | the JobSummary.pdf refresh queue: the QUEUED and RUNNING flags and chained follow-ups | interleaved steps; class `RefreshQueue` |
| `FileStore` | the private file store: temporary names, rename against hard link, cleanup, crashes | interleaved system calls over entries and inodes; class `PrivateFileStore` |
| `Retention` | the backup pruner | declarative rules, and the script's loops proved against them |
| `Primary`, `Phone` | demote-then-write, and the two `save()` methods that guard each other's phone numbers | classes `CompanyTables`, `ContactBook` |
| `Merge` | following a merge pointer to the final company | a loop with a cycle guard |
| `Wage` | the derived wage column and its two writers | class `Payroll` |
| `Errors` | one error row per failure across converted exceptions | a heap of exception objects |
| `RingCollapse` | the call list that shows one row per burst of ring attempts | set functions |
| `PoNumber` | purchase-order numbering | class `PurchaseOrders` |
| `KanbanVersion`, `Calendar`, `Text` | the Kanban version's printer and parser, civil time, decimal and separator strings | functions |

Where the source changes state step by step, a class holds the state and each method's contract equates
the new state with a specification function of the old one; the lemmas are about those functions and the
runs they make up. `Processes` holds facts about lists of concurrent processes, `Wrappers` the `Option`
and `Result` types.

## What was found

Where the code and its own documentation differ, or a call has an effect its caller may not expect, the
code is modelled as it is, and a lemma gives the exact condition.

- `_model_version` says the string changes whenever the table's contents change. Exactly those writes show
  that change the row count or move a stamp at the top of the table (`Fingerprint.VersionMovesIff`,
  `Fingerprint.EveryChangeShowsIff`). So two kinds of change stay unseen: a partial save that leaves out
  `updated_at` (`Fingerprint.UnstampedSaveIsInvisible`; `Staff`, `PhoneCallRecord` and
  `PhoneCallRecording` do not add the column to partial saves, the other source models do), and a save whose
  transaction commits behind a later stamp of the same table (`Fingerprint.OvertakenSaveIsInvisible`). When
  stamps do arrive in commit order, the promise holds exactly when every row-changing save names
  `updated_at` (`Fingerprint.EveryChangeShowsIffSavesStamp`).
- `KanbanDatasetVersion.decode` documents one error for bad input. A well-formed timestamp whose UTC
  instant falls off the calendar raises `OverflowError` instead (`KanbanVersion.DecodeEscapesIffOutOfRange`).
- The refresh task says a follow-up is chained when work or a new request is left, so that backlogs drain.
  A lone chain ends, drained, under every schedule (`PdfQueue.LoneChainEnds`, `PdfQueue.LoneChainDrains`).
  With several processes outstanding, runs can take each other's QUEUED flag for a new request. From every
  state with at most one run, follow-ups can go on for ever if and only if two processes are outstanding of
  which one owes a follow-up or will if it goes on now, or two are waiting tasks and the backlog is more than
  one batch (`PdfQueue.ChainsForeverIff`).
- A task delivered while a run is active skips. Exactly when that does harm is
  `PdfQueue.SkippedDeliveryIsHarmlessIff`; the 30-second countdown is what keeps deliveries out of the gap
  between the QUEUED test and the RUNNING release. A timeout of QUEUED can lose work exactly when a run that
  left nothing behind is about to test, no follow-up is about to queue, and work has come up since
  (`PdfQueue.TimeoutLosesIff`, and a run where it does: `PdfQueue.TimeoutLosesAWakeup`).
- A stranded flag swallows every request until it times out (`PdfQueue.StrandedUntilTheKeyLapses`; only an old
  task that is redelivered comes through). The timeout brings nothing back by itself: with nobody
  outstanding, no pass is made until another request's callback runs or an old task is redelivered
  (`PdfQueue.LostUntilARequest`). That request, whenever it comes, recovers everything
  (`PdfQueue.RequestAfterTheLapseRecovers`).
- Data-version events can reach the stream out of order. The last event can be of a read that began before
  the newest write exactly when a trailing task holds such a read (`Push.LastEventOldIff`); the newest
  version has nevertheless been sent.
- `get_final_company` on a circle of two or more returns a company whose own answer differs
  (`Merge.IdempotentIff`, `Merge.CircleDisagrees`).
- The grandfather test of `check_phone_assignment` compares number and owner but not the method type, so
  turning an e-mail row into a phone row can take over a forbidden number (`Phone.RetypingEscapesTheCheck`);
  partial saves from stale instances can too (`Phone.StaleOwnerEscapesTheCheck`, `Phone.StaleNumberEscapesTheCheck`).
  So can two saves that both check before either writes, exactly when each stored row fails its guard
  against the other (`Phone.TwoRacersKeepOwnershipIff`).
  Removing a company link is guarded exactly (`Phone.RemovingLinkKeepsOwnershipIff`), archiving a person is
  not (`Phone.ArchiveKeepsOwnershipIff`).
- A save that demotes the old primary and is then refused by a constraint leaves the group without a
  primary, unless the caller has a transaction open (`Primary.RefusedSaveStrandsIff`, `Phone.RefusedSaveStrandsIff`).
  Two saves whose demotions both come before both writes leave two (`Primary.PutKeepsRaceInvIff`,
  `Primary.RivalsMakeTwoPrimaries`).
- Narrowing the call list by a filter that splits a burst hides matching calls or shows wrong counts
  (`RingCollapse.CountsAreTrueIffWholeBursts`, `RingCollapse.BurstShowsIffSmallestKept`).
- Two purchase orders numbered at once get the same number, and exactly one is stored
  (`PoNumber.SameReadSameNumber`, `PoNumber.OneSaverWins`, `PoNumber.RefusedIffOvertaken`). A number is issued
  again when the newest order is deleted (`PoNumber.ReissuedIff`), and numbering under a prefix stops for good
  past the integer cast (`PoNumber.NumberingContinuesIff`, `PoNumber.StoppedForGood`).

## Model

| member | source | states |
|---|---|---|
| Push.StepKeepsInv | apps/operations/push.py:95-151 | Each atomic step of any process keeps the global invariant: a held lease has a releasing task still ahead, no asked-for write is lost, every version read reaches the stream, sends balance leases. |
| Push.RunKeepsInv | apps/operations/push.py:95-151 | The invariant holds after every run, whatever the interleaving, lease expiries and redeliveries. |
| Push.NoWriteIsLost | apps/operations/push.py:119-144 | At every moment of every run, a write whose callback has run is covered by a version whose first query began after it committed, or a process that will still begin a read is outstanding. |
| Push.QuiescenceMeansPublished | apps/operations/push.py:100-144 | When nothing is outstanding, every committed write is in a published version, and the version holding all of them was published. |
| Push.EventsPerLease | apps/operations/push.py:119-144 | Conservation: at rest, events sent are exactly two for each lease taken plus one for each redelivery, and leases taken and freed balance. |
| Push.EventsCarryTheirWrites | apps/operations/push.py:95-144 | In every interleaving, once a leader or a trailing task has sent, the stream has a version with every write made while its read was still ahead. |
| Push.LeaderPublishesItsWrite | apps/operations/push.py:119-144 | The process that takes the lease publishes the very write it ran for: however the run goes on, once it has sent, a version in the stream has that write. |
| Push.OutsideSteps | apps/operations/push.py:119-151 | A commit makes the next write and its callback, a redelivery one more trailing task and only of a task dispatched before, an expiry only lets the lease go. |
| Push.BurstIsSilent | apps/operations/push.py:135-136 | Any number of commits against a held lease send nothing and dispatch nothing. |
| Push.InternalStepProgresses | apps/operations/push.py:100-144 | Every step that is not a new commit, an expiry or a redelivery strictly lowers the work left. |
| Push.DrainIsBounded | apps/operations/push.py:100-144 | Left alone, the protocol takes at most the measured number of steps, in any order of processes. |
| Push.StuckMeansQuiescent | apps/operations/push.py:100-144 | It can stop only with nothing outstanding: no deadlock. |
| Push.LastEventOldIff | apps/operations/push.py:95-144 | From any state of the protocol, without a further commit, some run comes to rest with an event last whose read began before the newest write if and only if a trailing task holds such a read now, or all is at rest and the last event already is one; expiries and redeliveries change nothing in this. |
| Push.RunEndsNewest | apps/operations/push.py:95-144 | Without such a task, every run that comes to rest ends with the newest event, whatever leaders were overtaken. |
| Push.OvertakenCanBeLast | apps/operations/push.py:115-116 | From such a task, a schedule that lets all others finish first ends with the old event. |
| Push.LastEventMayBeOlder | apps/operations/push.py:115-116 | It does happen from the start: the instance of the condition after a second write. |
| Push.Publisher.AddLease | apps/operations/push.py:135-136 | The cache add succeeds for exactly the caller that finds no key; the state moves by one callback step. |
| Push.Publisher.PublishDataVersionsNow | apps/operations/push.py:95-97 | Undisturbed: sends one event, which carries every write made so far. |
| Push.Publisher.ApplyAsync | apps/operations/push.py:144 | Dispatching puts exactly one trailing task in the broker. |
| Push.Publisher.ScheduleDataVersionsPublish | apps/operations/push.py:119-144 | Undisturbed, the lease winner sends one event with every write made so far and dispatches one trailing task; with the lease standing, nothing happens. |
| Push.Publisher.PublishTrailingDataVersions | apps/operations/push.py:100-116 | Undisturbed, a trailing run frees the lease and sends one event with every write made so far. |
| OnCommit.StepKeepsInv | apps/operations/push.py:154-187 | Opening, releasing and rolling back savepoints, saving rows, registering other callbacks, committing and rolling back all keep the callback tied to the surviving writes. |
| OnCommit.RollbackKeepsInv | apps/operations/push.py:177-182 | Rolling a savepoint back drops the callback only if it undoes every surviving source-model write as well. |
| OnCommit.OneCallbackIffAWriteSurvives | apps/operations/push.py:154-182 | Through any nesting, the list holds exactly one publish callback if a source-model write survives and none otherwise. |
| OnCommit.OnePublishPerWritingCommit | apps/operations/push.py:154-187 | Over any run, publish callbacks run exactly once for each commit that held a source-model write. |
| OnCommit.CommitPublishesIffWritten | apps/operations/push.py:154-187 | A commit runs the callback once if a source-model write survived and not at all otherwise, and leaves the list empty. |
| OnCommit.SaveRowTakesEffect | apps/operations/push.py:154-187 | In a transaction a saved row is recorded under all open savepoints, and the first one standing registers the callback under the same; outside, it publishes at once. |
| OnCommit.OthersPublishNothing | apps/operations/push.py:154-187 | A transaction begins empty, another function's callback is only kept, and nothing but a write outside a transaction or a commit publishes. |
| OnCommit.AbortPublishesNothing | apps/operations/push.py:177-182 | Rolling the whole transaction back runs nothing and leaves nothing. |
| OnCommit.SavepointsTakeEffect | apps/operations/push.py:177-182 | A rolled-back savepoint undoes exactly the writes and callbacks made under it; opening and releasing undo nothing. |
| OnCommit.Connection.OnCommit | apps/operations/push.py:182 | Inside a transaction the callback is appended with the savepoints then open; outside it runs at once. |
| OnCommit.Connection.PublishDataVersionsAfterCommit | apps/operations/push.py:154-182 | The scan registers the callback exactly when the list does not hold it yet. |
| OnCommit.Connection.SaveSourceRow | apps/operations/push.py:185-187 | A saved row moves the connection by one specified step and keeps the invariant. |
| Fingerprint.LatestIsMax | apps/operations/api.py:56-57 | The aggregate is a true maximum: no row exceeds it and, unless it is the empty table's zero, some row attains it. |
| Fingerprint.WriteStores | apps/operations/api.py:47-58 | What one write changes: one row of one table; an insert sets both timestamps, a save keeps the creation time and moves the stamp only when it names it. |
| Fingerprint.ModelVersionIs | apps/operations/api.py:47-58 | The string is the newest stamp of the table's rows and its row count, in that order. |
| Fingerprint.KanbanVersionDecodes | apps/operations/api.py:65-74 | Decoding the Kanban string gives the newest `updated_at`, the newest `created_at` and the row count of the Job table, in that order. |
| Fingerprint.DatasetVersionSplits | apps/operations/api.py:61-104 | The tables each dataset speaks of, in order: the four behind Kanban cards, the six behind the call list, and Stock alone. |
| Fingerprint.ModelVersionInjective | apps/operations/api.py:47-58 | Two tables with one version string agree on newest timestamp and row count. |
| Fingerprint.JobVersionInjective | apps/operations/api.py:65-74 | The same for the Kanban triple. |
| Fingerprint.JoinedVersionsInjective | apps/operations/api.py:77-104 | Joining with a bar loses nothing: equal composites agree on every table's aggregates. |
| Fingerprint.SameFingerprintSameRows | apps/operations/api.py:47-58 | If touched rows carry later stamps, equal newest timestamp and equal count mean equal tables. |
| Fingerprint.RunStampsWhatItTouches | apps/operations/api.py:47-58 | Over a run of stamping writes that commit in stamp order each row is either as it was or stamped after the run began. |
| Fingerprint.NoAba | apps/operations/api.py:47-125 | If a dataset's version string comes back after any run of inserts, stamping saves and deletes that commit in the order of their stamps, every table behind the dataset holds exactly its former rows. |
| Fingerprint.VersionMovesIff | apps/operations/api.py:47-125 | In whatever order writes commit: a write moves a dataset's string if and only if its model is one of the dataset's and it changes the row count, or its old and new stamps differ and the larger exceeds those of all other rows. |
| Fingerprint.WriteMovesExactlyItsDatasets | apps/operations/push.py:71-83 | A stamping write that commits in order changes a dataset's version string exactly when the push registry lists its model for that dataset: push and poll agree. |
| Fingerprint.UnstampedSaveIsInvisible | apps/operations/api.py:47-58 | A row-changing save that leaves the timestamp out changes the table and no version string. |
| Fingerprint.OvertakenSaveIsInvisible | apps/operations/api.py:47-58 | A stamping save that commits behind a later stamp of the same table changes the table and no version string. |
| Fingerprint.StepShowsIff | apps/operations/api.py:47-125 | One write leaves no unseen change if and only if it is not the dataset's, or it shows by the condition above, or it stores the row it found. |
| Fingerprint.EveryChangeShowsIff | apps/operations/api.py:47-125 | Over any run, with commits in any order, every change to a dataset shows if and only if each of its writes does so or changes nothing. |
| Fingerprint.EveryChangeShowsIffSavesStamp | apps/operations/api.py:47-125 | When stamps arrive in commit order that is so if and only if every row-changing save to those tables names the timestamp. |
| PdfQueue.RunsExclude | apps/job/tasks.py:129-154 | At most one run is ever between acquire and release, and RUNNING is set exactly then, timely or not. |
| PdfQueue.StepKeepsInv | apps/job/tasks.py:46-158 | Each timely step, harmless timeouts of QUEUED included, keeps the invariant: a set QUEUED flag has a process behind it, and work asked for has one outstanding. |
| PdfQueue.RunKeepsInv | apps/job/tasks.py:46-158 | The invariant holds over every timely run. |
| PdfQueue.StepMovesFields | apps/job/tasks.py:46-158 | Which steps move which field and by how much: only a pass refreshes, the smaller of limit and backlog; only requests raise the flag; only a delivery that finds no run takes RUNNING. |
| PdfQueue.StepMovesOneProcess | apps/job/tasks.py:46-158 | Each step moves one process, along the order of statements of its function. |
| PdfQueue.RunAccounts | apps/job/tasks.py:46-158 | Over any run, every change newer than all those asked for still has its callback to run, and the backlog is at most the changes made and at least those less one batch for each pass. |
| PdfQueue.NoLostWakeup | apps/job/tasks.py:46-158 | Every change whose callback has run is covered by a pass that started after it committed, or a process that will lead to one is outstanding. |
| PdfQueue.QuiescenceMeansDrained | apps/job/tasks.py:46-158 | When nothing is outstanding, nothing is stale and both flags are down. |
| PdfQueue.SkippedDeliveryIsHarmlessIff | apps/job/tasks.py:130-154 | Exactly which deliveries that find a run active are harmless: those after which another process stands behind a set flag and another is outstanding for work asked for; and the flag is stranded exactly when it is set and no other stands behind it. |
| PdfQueue.TimeoutLosesIff | apps/job/tasks.py:48-52 | Exactly which timeouts of QUEUED can lose work: after one, some timely schedule comes to work left with nobody outstanding if and only if a run that left nothing behind is about to test, no follow-up is about to queue, and work has come up since. |
| PdfQueue.TimeoutLosesAWakeup | apps/job/tasks.py:48-52 | It happens in a real run every other step of which is timely. |
| PdfQueue.UntimelyDeliveryLosesAWakeup | apps/job/tasks.py:147-154 | The condition fails in a real run: a delivery between the QUEUED test and the RUNNING release ends with a stale job and the flag stranded. |
| PdfQueue.StrandedUntilTheKeyLapses | apps/job/tasks.py:48-55 | From any state whose flag is set with nobody behind it, until the key times out or an old task is redelivered, every request finds the flag: no task is dispatched and no pass runs. |
| PdfQueue.LostUntilARequest | apps/job/tasks.py:46-59 | With nobody outstanding, no pass is made, no task dispatched and no stale job refreshed until some request's callback runs or an old task is redelivered, whether or not the flag times out. |
| PdfQueue.RequestAfterTheLapseRecovers | apps/job/tasks.py:46-59 | That request recovers everything, whenever it comes: in every reachable state, timely or not, with the flag down and nobody behind it, a callback queues a task and the invariant of all the theorems holds. |
| PdfQueue.ChaseCanStart | apps/job/tasks.py:147-158 | Two requests are enough to reach a pair of runs that owe each other a follow-up. |
| PdfQueue.FollowUpsCanChaseForever | apps/job/tasks.py:147-158 | From such a pair, any number of further passes can follow without a new request, in timely steps. |
| PdfQueue.LoneChainEnds | apps/job/tasks.py:121-158 | With at most one process that is not idle, the length of every schedule without a new request is bounded by the backlog. |
| PdfQueue.NotIdleCanStep | apps/job/tasks.py:121-158 | And no process that is not idle is ever stuck. |
| PdfQueue.LoneChainDrains | apps/job/tasks.py:121-158 | Whatever the schedule of a lone pending task, when everybody is idle nothing is stale and the passes made are the backlog over the limit, rounded up. |
| PdfQueue.FuseChases | apps/job/tasks.py:121-158 | From any state with one run at most, two outstanding processes of which one is a spark lead to any number of passes in timely steps. |
| PdfQueue.SpentEnds | apps/job/tasks.py:121-158 | Without such a pair, or two tasks with more than one batch between them, every schedule without a new request is bounded. |
| PdfQueue.ChainsForeverIff | apps/job/tasks.py:121-158 | From every state with one run at most, follow-ups can go on for ever without a new request if and only if there is such a pair, in timely schedules and in all. |
| PdfQueue.ChainsForeverFromRestIff | apps/job/tasks.py:121-158 | From rest that comes down to two pending tasks and a backlog of more than one batch. |
| PdfQueue.ChainLengthIsCeiling | apps/job/tasks.py:120-158 | The number of passes of an undisturbed chain is the backlog over the limit, rounded up. |
| PdfQueue.RoundAlone | apps/job/tasks.py:121-158 | One undisturbed run refreshes a batch and leaves one new task exactly while work remains, and otherwise nothing and no flag. |
| PdfQueue.RefreshQueue.QueueRefresh | apps/job/tasks.py:46-59 | Adds QUEUED and dispatches one task, or does nothing more when the flag stands. |
| PdfQueue.RefreshQueue.RunOnce | apps/job/tasks.py:129-154 | The guarded part is exactly acquire, clear, pass, test, release, and asks for a follow-up exactly when the backlog exceeds the limit. |
| PdfQueue.RefreshQueue.RefreshTask | apps/job/tasks.py:121-158 | The task skips when a run is active, and otherwise runs once and requeues if needed. |
| PdfQueue.RefreshQueue.Drain | apps/job/tasks.py:121-158 | With one worker and no new request the chain ends, drained, after exactly the ceiling number of passes. |
| FileStore.StepKeepsInv | apps/core/file_store.py:49-98 | Every system call of any writer, a crash or a deletion keeps temporary files private and the targets equal to the replayed history. |
| FileStore.RunKeepsInv | apps/core/file_store.py:49-98 | So does every run. |
| FileStore.StoreIsOneStep | apps/core/file_store.py:49-98 | Concurrent writers refine a one-step store: the targets always show what the completed operations leave one after another, in a legal order. |
| FileStore.PublishTakesEffectIff | apps/core/file_store.py:81-84 | Among concurrent writers: publishing succeeds if and only if the call may overwrite or nothing stands at its path; then the path leads to its payload, and otherwise nothing changes; no other path ever changes. |
| FileStore.DeleteTakesEffect | apps/core/file_store.py:96-98 | A deletion empties its path and leaves every other name, inode and writer as it was. |
| FileStore.FailuresTouchNothing | apps/core/file_store.py:77-87 | A call may fail while it writes, and its process may die at any point before the end; neither touches a file. |
| FileStore.UndisturbedWrite | apps/core/file_store.py:49-87 | The steps of one undisturbed call of the state machine end as the contract of `write` says: stored, or refused exactly when it may not overwrite, with no temporary entry left. |
| FileStore.TargetIsNeverPartial | apps/core/file_store.py:49-87 | A target always leads to the whole payload of a published call for its path, whatever crashed. |
| FileStore.FinishedLeavesNoTemp | apps/core/file_store.py:85-87 | A call that has ended leaves no temporary entry. |
| FileStore.TempsAreNotDisturbed | apps/core/file_store.py:77-87 | No step of another process removes a writer's temporary file or changes its bytes. |
| FileStore.CreatesAreRationed | apps/core/file_store.py:83-84 | Between two no-overwrite writes of one path that both succeeded, the path was deleted. |
| FileStore.AtMostOneCreator | apps/core/file_store.py:83-84 | In any run without a deletion of a path, at most one of any number of its no-overwrite writers succeeds. |
| FileStore.StandingBytesStay | apps/core/file_store.py:81-84 | A standing target keeps its bytes under every step but its deletion or an overwriting write of it. |
| FileStore.ReaderSeesOnePayload | apps/core/file_store.py:89-94 | A reader that has opened a target reads one whole published payload, however slowly, whether or not the name is replaced or removed before it finishes. |
| FileStore.PrivateFileStore.Write | apps/core/file_store.py:49-87 | The payload is stored, or the write is refused exactly when it may not overwrite a standing target; other paths and temporary entries are as before. |
| FileStore.PrivateFileStore.Read | apps/core/file_store.py:89-94 | Returns the stored payload, or reports it missing. |
| FileStore.PrivateFileStore.Delete | apps/core/file_store.py:96-98 | The path is gone, whether or not it stood; nothing else changes. |
| Retention.TsDirConfluent | scripts/cleanup_backups.py:92-118 | For the nested rule, pruning early and again later equals pruning once later, for any entries made in between. |
| Retention.RecentConfluent | scripts/cleanup_backups.py:137-149 | The same for the keep-the-newest rule. |
| Retention.KeepConfluent | scripts/cleanup_backups.py:233-257 | The same for each of the managed styles. |
| Retention.PruneConfluent | scripts/cleanup_backups.py:233-265 | The same for the whole directory. |
| Retention.HistoryIsOnePrune | scripts/cleanup_backups.py:233-265 | Any history of prunes leaves exactly what one prune at the end of everything ever made would. |
| Retention.EveryMonthKeepsOne | scripts/cleanup_backups.py:111-116 | A month that has a nested backup always keeps one. |
| Retention.UnionOfRules | scripts/cleanup_backups.py:97-118 | The rule is the union of newest, last day, latest of each day of the week and oldest of each month. |
| Retention.NestedSurvivesIff | scripts/cleanup_backups.py:92-118 | In seconds: exactly which nested backups a prune of the directory leaves, by the newest, one day, the latest of each day up to a week, and the oldest of each month. |
| Retention.DayOfTheWeekKeepsOne | scripts/cleanup_backups.py:103-109 | For every nested backup less than 604800 seconds old, one of its day at least as late survives. |
| Retention.PastTheWeekOnlyMonthsStay | scripts/cleanup_backups.py:92-118 | One 604800 seconds old or more that is neither the newest nor the oldest of its month is deleted. |
| Retention.OtherStylesSurviveIff | scripts/cleanup_backups.py:121-149 | Exactly which others survive: thirty days of predeploy, seven of pre-reset, the fourteen newest daily, the twelve newest monthly, no stale temporary file, everything unmanaged. |
| Retention.SortSorts | scripts/cleanup_backups.py:89 | Sorting orders by moment and keeps exactly the entries. |
| Retention.RecentIsSuffix | scripts/cleanup_backups.py:149 | The newest `count` are the suffix of the sorted list, none for a count of zero. |
| Retention.ComputeTsDirKeep | scripts/cleanup_backups.py:92-118 | The three passes compute exactly the names the nested rule means. |
| Retention.LatestPerDay | scripts/cleanup_backups.py:103-109 | The scan from the newest down finds the latest entry of each day in the week's window. |
| Retention.OldestPerMonth | scripts/cleanup_backups.py:111-116 | The dictionary ends holding the oldest entry of each month. |
| Retention.ComputeWindowKeep | scripts/cleanup_backups.py:121-134 | Exactly the entries inside the window are kept. |
| Retention.ComputeRecentKeep | scripts/cleanup_backups.py:137-149 | Exactly the `count` newest are kept. |
| Retention.BucketEntries | scripts/cleanup_backups.py:225-230 | Each style receives its entries in their order, and no others. |
| Retention.ComputeKeepSets | scripts/cleanup_backups.py:241-257 | Each style's keep set is what its rule means. |
| Retention.PlanRetention | scripts/cleanup_backups.py:233-265 | What is deleted is exactly what does not survive; no unmanaged name is deleted, and kept and deleted split the managed names. |
| Retention.DeletedNames | scripts/cleanup_backups.py:259-264 | Managed minus kept names are the names of the non-survivors, disjoint from the unmanaged ones. |
| Primary.DemotingIsSafe | apps/company/models.py:503-507 | Clearing the flag of the others never creates a second primary. |
| Primary.PartialSaveSafeIff | apps/company/models.py:491-513 | A save keeps one primary if and only if the stored row claims no place, the place just cleared, or one nobody else holds. |
| Primary.SaveKeepsOne | apps/company/models.py:491-513 | Accepted or refused, a save whose stored row claims what it cleared keeps at most one primary. |
| Primary.RefusedSaveStrandsIff | apps/company/models.py:503-513 | A refused save changes the table exactly when no transaction undoes the demotion of another holder, and then nobody holds the place. |
| Primary.RunKeepsOnePrimary | apps/company/models.py:491-513 | Over any run of saves and deletions each company has at most one active primary person and one primary pickup address. |
| Primary.RunOfOne | apps/company/models.py:491-513 | A run of one step is that save, refused ones with what they leave, or that deletion, on its own table. |
| Primary.PutKeepsRaceInvIff | apps/company/models.py:503-513 | Of any number of saves in progress, a write leaves every cleared place free for its saver if and only if no rival has demoted and not yet written. |
| Primary.RivalsMakeTwoPrimaries | apps/company/models.py:503-513 | Two rival saves that have both demoted before either writes end with two primaries. |
| Primary.QuietRunKeepsOne | apps/company/models.py:503-513 | As long as no write falls between a rival's demotion and its write, any interleaving keeps one primary each. |
| Primary.UnracedSaverSaves | apps/company/models.py:503-513 | A saver whose demotion and write nobody comes between ends with what the sequential save leaves; it cannot write before it has demoted, nor twice. |
| Primary.StaleMoveMakesTwoPrimaries | apps/company/models.py:503-513 | A partial save from an instance stale in its flag makes two primaries. |
| Primary.SaveTouchesOnlyTheDisplaced | apps/company/models.py:503-513 | An accepted save changes nothing in other rows but the displaced primary's flag. |
| Primary.LinkSaveStores | apps/company/models.py:491-513 | Column by column: an accepted save leaves the instance's named columns in its row, the stored ones otherwise, and clears the flag of the company's other active primary only. |
| Primary.SavedLinkIsThePrimary | apps/company/models.py:503-513 | A full save of an active primary link stores it as given, and it is then the company's one active primary. |
| Primary.LinkSaveRefusedIff | apps/company/models.py:503-513 | It is refused exactly when it is partial and its row is gone, or the stored company and person are linked by another row; in a transaction a refusal changes nothing. |
| Primary.AddressSaveStores | apps/company/models.py:1071-1079 | The same, column by column, for pickup addresses. |
| Primary.SavedAddressIsThePrimary | apps/company/models.py:1071-1079 | A full save of a primary address stores it as given, and it is then the company's one primary. |
| Primary.AddressSaveRefusedIff | apps/company/models.py:1071-1079 | Exactly when an address save is refused. |
| Primary.CompanyTables.SaveCompanyPersonLink | apps/company/models.py:491-513 | The method's new table and whether it raised are those of the specification. |
| Primary.CompanyTables.SaveSupplierPickupAddress | apps/company/models.py:1071-1079 | The same for pickup addresses. |
| Phone.NormalizePhoneIdempotent | apps/company/models.py:731-740 | A normalized number is its own normal form. |
| Phone.SpellingsOfANumber | apps/company/models.py:731-740 | The national spelling (0 and the rest) and the international one (64 and the rest) are one number, +64 and the rest; other digits only gain a plus. |
| Phone.SeparatorsDoNotMatter | apps/company/models.py:731-740 | Whatever is put between the digits changes nothing. |
| Phone.EmailSpelling | apps/company/models.py:722-729 | An e-mail address is the value without the whitespace around it, in small letters. |
| Phone.SaveMethodKeepsOwnershipIff | apps/company/models.py:621-684 | An accepted save that stores what it checked keeps ownership if and only if it is not an unchecked retyping the guard would have refused. |
| Phone.SaveMethodKeepsOwnershipIffStoredRowPasses | apps/company/models.py:621-684 | For every accepted save, stale and partial ones included: ownership is kept if and only if the row as stored would pass the guard. |
| Phone.RowKeepsOwnership | apps/company/models.py:806-875 | A row that is no phone, passes the guard, or keeps its number and owner as a phone leaves ownership intact. |
| Phone.CompaniesOfOwners | apps/company/models.py:751-765 | A company owner stands for itself, a person for the companies of their active links. |
| Phone.GuardPassesIff | apps/company/models.py:806-875 | The guard passes exactly when no active line of our own has the number and every other phone that has it shares a company with the owner. |
| Phone.FullSaveAcceptedIff | apps/company/models.py:621-684 | Exactly which full saves of a contact method are accepted. |
| Phone.PartialSaveAcceptedIff | apps/company/models.py:621-684 | Exactly which partial ones: checked by the instance, constrained by the row as stored. |
| Phone.SaveStores | apps/company/models.py:639-684 | Column by column what an accepted save leaves: named columns, the normalized value always, the displaced primary's flag, nothing else. |
| Phone.RefusalsMeanWhatTheySay | apps/company/models.py:621-684 | What each refusal of a contact save says about the tables. |
| Phone.OtherSpellingIsRefused | apps/company/models.py:767-875 | A new contact is refused one spelling of a number while an active line has it under the other, and the other way round. |
| Phone.UnguardedRowBreaksOwnership | apps/company/models.py:806-875 | A stored phone row that fails the guard breaks ownership: the guard refuses nothing harmless. |
| Phone.SaveEndpointKeepsOwnershipIff | apps/crm/models.py:79-130 | An accepted endpoint save keeps ownership exactly when its stored row was the one checked, or is inactive, unchanged, or has a number no contact has. |
| Phone.EndpointSaveAcceptedIff | apps/crm/models.py:79-130 | Exactly which endpoint saves are accepted. |
| Phone.EndpointSaveStores | apps/crm/models.py:94-111 | Column by column what an accepted one leaves. |
| Phone.LinkKeepsOwnership | apps/company/models.py:751-765 | Activating a person-company link keeps ownership. |
| Phone.RemovingLinkKeepsOwnershipIff | apps/company/services/person_service.py:471-510 | The guard of a removal is exact: removing an active link keeps ownership if and only if it is not refused. |
| Phone.RemovalRefusedIffLastSharedCompany | apps/company/services/person_service.py:491-502 | It is refused if and only if the company is the only one that some phone of the person shares with another holder of its number. |
| Phone.ArchiveKeepsOwnershipIff | apps/company/services/person_service.py:458-468 | Archiving a person keeps ownership if and only if no phone of theirs has a number that another phone method has. |
| Phone.SaveNeverMeetsPrimaryConstraint | apps/company/models.py:604-613 | A faithful save is never refused by the primary-uniqueness constraints. |
| Phone.SaveKeepsOnePrimary | apps/company/models.py:661-677 | After any accepted save each owner has at most one primary of each type. |
| Phone.LeftoverKeepsInv | apps/company/models.py:661-684 | A refused save keeps ownership and single primaries, whatever it leaves behind. |
| Phone.RefusedSaveStrandsIff | apps/company/models.py:661-684 | It changes the table exactly when the write failed after demoting another holder outside a transaction, and then the place is empty. |
| Phone.StepKeepsInv | apps/company/models.py:621-684 | Every disciplined save of either kind, deletion, new link, removed link or archiving keeps both invariants. |
| Phone.RunKeepsInv | apps/company/models.py:767-875 | Over any disciplined run: no active endpoint has a contact's number, phones with one number share a company, one primary each. |
| Phone.RunOfOne | apps/company/models.py:621-684 | A run of one step is that save, refused ones with what they leave, that change of a link, that archiving or that deletion, on its own table. |
| Phone.FullSavesAreDisciplined | apps/company/models.py:621-684 | Which full saves the discipline of the runs excludes: exactly the retyping of an e-mail row under its own value; every full endpoint save, deletion and change of a link is in. |
| Phone.AcceptedSavesPass | apps/company/models.py:621-684 | An accepted full save stores a row that passes its guard, exempted rows included unless retyped: the savers of the race are these saves. |
| Phone.AcceptedLinesPass | apps/crm/models.py:79-130 | The same for endpoint saves. |
| Phone.UnracedRacerStores | apps/company/models.py:639-684 | A racer nobody comes between checks, exactly when its row passes, then stores it; it cannot store unchecked, nor twice. |
| Phone.TwoRacersKeepOwnershipIff | apps/company/models.py:639-684 | Two saves, of contacts or endpoints, that both check before either writes keep ownership if and only if neither stored row fails its guard against the other. |
| Phone.StoreKeepsRaceInvIff | apps/company/models.py:639-684 | Of any number of saves in progress, a write leaves every checked one good if and only if no rival has checked and not yet written. |
| Phone.QuietRunKeepsOwnership | apps/company/models.py:639-684 | Any interleaving without a write between a rival's check and its write keeps ownership. |
| Phone.RetypingEscapesTheCheck | apps/company/models.py:841-847 | A concrete e-mail row retyped as a phone takes an active endpoint's number unchecked. |
| Phone.StaleOwnerEscapesTheCheck | apps/company/models.py:639-684 | A partial save checked against the owner in memory is stored under the old one and breaks ownership. |
| Phone.StaleNumberEscapesTheCheck | apps/crm/models.py:94-111 | A partial endpoint save activates a stored number after checking another one. |
| Phone.ContactBook.SaveContactMethod | apps/company/models.py:621-684 | The method raises what the specification raises and leaves exactly its state, refusals included. |
| Phone.ContactBook.SavePhoneEndpoint | apps/crm/models.py:79-111 | The same for endpoints. |
| Phone.ContactBook.RemoveCompanyLink | apps/company/services/person_service.py:471-510 | Testing the phones in any order, the link is removed or refused exactly as specified. |
| Merge.GetFinalCompany | apps/company/models.py:279-295 | The loop ends on every merge graph, having followed one chain without repetition to an unmerged company or one pointing back into the chain. |
| Merge.FinalFollowsAChain | apps/company/models.py:285-295 | The same of the specification function, from any point of the walk. |
| Merge.EveryoneOnTheChainAgrees | apps/company/models.py:279-295 | Every company on a chain that ends gets the company at its end. |
| Merge.FinalIsTerminalIffChainEnds | apps/company/models.py:279-295 | The answer is unmerged if and only if a chain of merges from here ends. |
| Merge.IdempotentIff | apps/company/models.py:279-295 | Asking again gives the same answer if and only if it is unmerged or merged into itself. |
| Merge.CircleDisagrees | apps/company/models.py:289-291 | Two companies merged into each other are each other's answer. |
| Merge.CircularAnswerIsOnTheCircle | apps/company/models.py:289-291 | An answer that is itself merged lies on a circle of merges. |
| Wage.RoundHalfUpIsNearest | apps/core/models.py:157-159 | Rounding gives the one whole cent nearest to the amount, halves away from zero. |
| Wage.LoadedIsNearestCent | apps/core/models.py:142-159 | The loaded rate is the one cent amount nearest to base times one plus loading. |
| Wage.RateIsWithinHalfACent | apps/core/models.py:142-159 | In figures: the rate is at most half a cent from base times one plus loading, and at a tie on the side away from zero. |
| Wage.SaveDefaultsKeepsConsistent | apps/core/models.py:835-875 | Saving the defaults, stale or partial, keeps every wage right; leaving the loading out changes nothing. |
| Wage.SaveStaffKeepsConsistentIff | apps/accounts/models.py:315-357 | Exactly which saves of a staff row, by the columns they name and the loading they read, keep its wage right. |
| Wage.SaveDefaultsRepricesIffChanged | apps/core/models.py:835-919 | A save of the defaults keeps every row and base; exactly when it writes a changed loading, every row with a positive base gets its loaded rate, and no other wage moves. |
| Wage.SaveStaffStores | apps/accounts/models.py:315-357 | Column by column what a staff save stores; no other row and no loading is touched. |
| Wage.StepKeepsConsistent | apps/accounts/models.py:315-357 | Every disciplined save of either kind keeps the derived column in step. |
| Wage.RunKeepsConsistent | apps/core/models.py:835-919 | Over any sequence of such saves every wage is the loaded rate of its base at the stored loading. |
| Wage.RunOfOne | apps/core/models.py:835-919 | A run of one step is that save or that deletion. |
| Wage.Payroll.SaveStaffRow | apps/accounts/models.py:315-357 | Computes the wage when the base is named and stores exactly the named columns. |
| Wage.Payroll.RecomputeAllStaffWageRates | apps/core/models.py:907-919 | In any row order, exactly the rows with a positive base get their loaded rate. |
| Wage.Payroll.SaveCompanyDefaults | apps/core/models.py:835-875 | The recompute runs exactly when the save writes a changed loading. |
| Errors.ExistingAppError | apps/core/errors.py:91-108 | The walk ends on every cause graph, circular ones included, with the first row found along the causes. |
| Errors.NearestPersistedIff | apps/core/errors.py:91-108 | The walk finds a row if and only if a chain of causes leads to an exception persisted as that row with none persisted before it: the nearest wins, the exception itself first. |
| Errors.PersistAppError | apps/core/errors.py:201-266 | The row already standing for the failure, or one new row that the exception from then on leads to. |
| Errors.NewFailuresDoNotMatter | apps/core/errors.py:91-108 | Later exceptions never change what an earlier one leads to. |
| Errors.ChainedFailureIsOneRow | apps/core/errors.py:91-108 | With every conversion chained, a failure gets exactly one row if any layer persists it. |
| Errors.RowsBoundedByBreaks | apps/core/errors.py:91-108 | Over any propagation, rows are at most one more than the unchained conversions. |
| Errors.BreaksCanCostARowEach | apps/core/errors.py:91-108 | The bound is reached for every number of unchained conversions. |
| Errors.Propagate | apps/core/errors.py:87-108 | On the real objects: the rows created are those counted, existing rows stand, and with chained conversions every layer gets the same row back. |
| RingCollapse.KeysAreExact | apps/crm/api.py:217-227 | Reading NULL as blank confuses no two identities, given that blanks are banned. |
| RingCollapse.ShownRows | apps/crm/api.py:236-280 | Recorded or linked rows show alone with count one; a collapsible row shows exactly when its id is the smallest of its burst. |
| RingCollapse.ListedIff | apps/crm/api.py:236-280 | In the table's own columns: a row is listed unless it is neither recorded nor linked and such a row of the same identity has a smaller id, and it counts those rows. |
| RingCollapse.BurstShowsSmallest | apps/crm/api.py:268-279 | Of one burst the smallest id shows and no other. |
| RingCollapse.GroupShowsOnce | apps/crm/api.py:236-280 | Taking one burst out of the list takes out one shown row, which counts exactly what was taken. |
| RingCollapse.AttemptsAddUp | apps/crm/api.py:236-280 | On any queryset of whole bursts the shown counts add up to the number of rows. |
| RingCollapse.WholeTableAddsUp | apps/crm/api.py:236-280 | In particular on the unfiltered table. |
| RingCollapse.CountsAreTrueIffWholeBursts | apps/crm/api.py:283-289 | A filtered list shows every burst with its true count if and only if the filter keeps whole bursts. |
| RingCollapse.BurstShowsIffSmallestKept | apps/crm/api.py:283-289 | A filtered list shows a burst exactly when the filter kept its smallest id. |
| PoNumber.GenerateSpellsTheNext | apps/purchasing/models.py:161-180 | Generation succeeds exactly when all numbers in use fit the cast, and then spells the least number at or above the start, at least one, and above all in use. |
| PoNumber.SpellReadsBack | apps/purchasing/models.py:172-180 | The padded printer and the digit parser undo each other for every natural number and prefix. |
| PoNumber.MatchesIff | apps/purchasing/models.py:172-176 | What counts as a number under the prefix: the prefix and at least one digit; its value is that of the digits. |
| PoNumber.SuffixWidth | apps/purchasing/models.py:180 | The suffix has the larger of four characters and the number's own digits, zeros first. |
| PoNumber.GeneratedIsFresh | apps/purchasing/models.py:161-180 | The number generated is in no row of any table, overlapping prefixes included, and above all under its prefix. |
| PoNumber.SavingAloneNeverCollides | apps/purchasing/models.py:149-154 | An order numbered and stored with nothing stored in between never meets the unique constraint. |
| PoNumber.SaveStores | apps/purchasing/models.py:149-154 | Exactly which saves are accepted, with which error the others fail, and what is stored where. |
| PoNumber.IssuingIsRecorded | apps/purchasing/models.py:149-154 | The numbers counted as issued are exactly those that successful saves of unnumbered orders stored, in order. |
| PoNumber.MovesTakeEffect | apps/purchasing/models.py:149-180 | Among savers that race: a read takes the next number by the table of that moment, or fails exactly when the table cannot be read, and stores nothing. |
| PoNumber.RaceOn | apps/purchasing/models.py:149-180 | A race is its moves one after the other: racing on continues from where the first moves led. |
| PoNumber.SameReadSameNumber | apps/purchasing/models.py:161-180 | Savers that read the same table under one prefix and start are after the same number, which is free. |
| PoNumber.OneSaverWins | apps/purchasing/models.py:149-154 | Of any number of savers after one number, in any order of moves, exactly one stores it as soon as any has inserted, and every other that inserts is refused. |
| PoNumber.RefusedIffOvertaken | apps/purchasing/models.py:149-154 | A saver is refused if and only if somebody stored the very number it holds after it read the table. |
| PoNumber.RacingStoresIncrease | apps/purchasing/models.py:149-180 | Savers of one prefix and start issue increasing numbers however they race: a number stored is above every other in use. |
| PoNumber.StepKeepsInv | apps/purchasing/models.py:149-180 | Saves one at a time: one that takes no number away keeps issued numbers distinct and increasing under each prefix. |
| PoNumber.IssuedNumbersIncrease | apps/purchasing/models.py:149-180 | Over any run of saves one at a time without deletions or renumberings, with prefix and start changing freely, issued numbers never repeat and increase under each prefix. |
| PoNumber.DeletingUndoesIssuing | apps/purchasing/models.py:161-180 | Deleting the order just numbered leaves the table as if it had never been. |
| PoNumber.ReissuedIff | apps/purchasing/models.py:164-180 | The next order then gets the same number exactly when the start has not moved or does not matter. |
| PoNumber.NumberingContinuesIff | apps/purchasing/models.py:172-180 | After issuing a number, another can be generated exactly when the one issued fits the cast. |
| PoNumber.StoppedForGood | apps/purchasing/models.py:172-176 | Once a number past the cast is in use, generation under the prefix fails in every later state that still has it. |
| PoNumber.IssuedIsReportedLast | apps/purchasing/services/purchase_order_service.py:253-264 | The number just issued is the one, and the only one, reported as the last. |
| PoNumber.PurchaseOrders.GeneratePoNumber | apps/purchasing/models.py:161-180 | The number read off the table is in no row of it. |
| PoNumber.PurchaseOrders.Store | apps/purchasing/models.py:149-154 | Stores the number at its row, or refuses exactly when another row has it and changes nothing. |
| PoNumber.PurchaseOrders.SaveOrder | apps/purchasing/models.py:149-154 | With no other saver in between: stores the given or a generated number at its row, or raises and changes nothing; a generated one was in no row. |
| KanbanVersion.ToUtc | apps/job/kanban_version.py:37-38 | Conversion to UTC keeps the instant, and fails exactly when it falls off the calendar. |
| KanbanVersion.FromValuesKeepsInstants | apps/job/kanban_version.py:20-40 | Accepts exactly the aware, in-range, non-negative inputs, and keeps their instants and count. |
| KanbanVersion.ParsePrintDateTime | apps/job/kanban_version.py:42-57 | The RFC 3339 timestamp printer and its parser undo each other. |
| KanbanVersion.PrintedForm | apps/job/kanban_version.py:42-46 | A printed timestamp is 32 characters: date, T, time with six fraction digits, offset. |
| KanbanVersion.ParsedDateTimeIsPrinted | apps/job/kanban_version.py:48-57 | And what parses is what prints, up to the sign of a zero offset: nothing else is read as a timestamp. |
| KanbanVersion.ParseIntReads | apps/job/kanban_version.py:48-57 | A count is read from digits, after a minus sign as the negative number, and from nothing else. |
| KanbanVersion.EncodedParts | apps/job/kanban_version.py:42-46 | The encoding is the newest update, a bar, the newest creation, a bar, and the count. |
| KanbanVersion.ErrorsMeanWhatTheySay | apps/job/kanban_version.py:20-59 | Which error a refused input raises, and that decode reports the documented one for whatever it cannot split or read. |
| KanbanVersion.EmptyTableIsTheEpoch | apps/job/kanban_version.py:20-40 | An empty dataset reads as the first of January 1970, twice, and zero. |
| KanbanVersion.DecodeSpell | apps/job/kanban_version.py:48-59 | Decoding any spelling of three values is what building from those values gives, failures included. |
| KanbanVersion.DecodeEncode | apps/job/kanban_version.py:42-59 | Every valid version decodes back to itself. |
| KanbanVersion.EncodeInjective | apps/job/kanban_version.py:42-46 | Different versions have different strings. |
| KanbanVersion.EncodeAlikeIffSameInstants | apps/job/kanban_version.py:20-46 | Two accepted inputs encode alike exactly when they name the same instants, in whatever offsets, and the same count. |
| KanbanVersion.DecodeEscapesIffOutOfRange | apps/job/kanban_version.py:48-59 | For a spelled version, the undocumented overflow is raised exactly when an instant falls off the calendar. |
| KanbanVersion.FirstInstantEastIsOutOfRange | apps/job/kanban_version.py:37-38 | A concrete such timestamp: the first instant of year 1 one minute east of UTC. |
| Calendar.CivilAt | apps/job/kanban_version.py:37-38 | The function that reads a clock: the civil fields of an instant stand for that instant, over all years 1 to 9999. |
| Calendar.CivilAtMicros | apps/job/kanban_version.py:37-38 | And the fields of a valid reading's instant are that reading. |
| Calendar.DaysFollow | apps/job/kanban_version.py:37-38 | The day after each date is the next one of the Gregorian calendar, month lengths and leap years included. |
| Calendar.EpochDay | apps/job/kanban_version.py:20-40 | The first of January 1970 is day 719162. |
| Calendar.InstantCounts | apps/job/kanban_version.py:37-38 | An instant is its day of 86400 seconds and its time of day. |
| Text.SplitJoin | apps/job/kanban_version.py:46-52 | Splitting at the separator undoes joining when no part holds it. |
| Text.ValueOfPad | apps/purchasing/models.py:180 | Zero-padding does not change the number read back. |
| Text.ValueOfDigits | apps/purchasing/models.py:172-176 | Each digit counts ten times the one to its right. |
| Text.PadOfValue | apps/purchasing/models.py:180 | A run of digits is the padded spelling of its value, and of no other number. |

## Left out

- Failures inside the two cache protocols (a raise after taking a key, a timeout of the RUNNING key): the code leaves recovery to the key timeouts; both models assume that no step raises, and `PdfQueue` that RUNNING outlives its run.
- Push.NoWriteIsLost: speaks of versions read and sent, not of what a browser does with them; the client's code is not part of this model. A read's dozen queries are a start and an end with other steps between; which of the writes made meanwhile it sees is left open.
- PdfQueue.NoLostWakeup: assumes that no task is delivered between the QUEUED test and the RUNNING release and that no timeout of QUEUED meets the condition of `PdfQueue.TimeoutLosesIff`; `PdfQueue.SkippedDeliveryIsHarmlessIff` is the exact condition on deliveries.
- PdfQueue.RefreshQueue.Drain: one task run after the other; all schedules are in `PdfQueue.LoneChainDrains` and `PdfQueue.ChainsForeverIff`. `refresh_stale` is taken to refresh the smaller of limit and backlog; its body is not part of this model.
- Fingerprint.NoAba: assumes that each table's stamps arrive in commit order, strictly increasing, which `Fingerprint.OvertakenSaveIsInvisible` shows to be needed; microseconds are exact, so the float conversion of `timestamp()` is not modelled. Queryset `.update()` writes are outside the version's meaning, as the source declares.
- OnCommit.OneCallbackIffAWriteSurvives: `atomic(savepoint=False)` blocks are not modelled.
- KanbanVersion.Decode: reads the fixed layout that the printer emits, any offset, or none; the other ISO 8601 spellings that `fromisoformat` accepts, and `int()`'s spaces, underscores and plus signs, are not modelled.
- Retention.PlanRetention: takes entries as already parsed and returns the deletion list as a set; regular expressions, calendar parsing, its `ValueError`s and the sorted order are not modelled. Moments are distinct within the styles whose rule compares them.
- FileStore.PrivateFileStore.Write: path resolution, the escape check and directory creation are left out, and one caller at a time is what this class shows; concurrency is in the state machine. Temporary names are taken to be unique, as random UUIDs are.
- Phone.RunKeepsInv: assumes that partial saves do not leave out a changed column that was checked, that no e-mail row is retyped under its own value, and that nobody is archived who shares a phone number; the lemmas named above show each is needed. It takes one save at a time; full saves that race are in `Phone.QuietRunKeepsOwnership`. Company and person merges, which also move links and methods, are not part of this model. Prefetch caches and database aliases are not modelled, and every method has exactly one owner, as the table demands. Text is ASCII.
- Primary.RunKeepsOnePrimary: one save at a time (interleaved full saves are in `Primary.QuietRunKeepsOne`), and partial saves from instances that are not stale in the flag's own columns, which `Primary.StaleMoveMakesTwoPrimaries` shows to be needed.
- Wage.RunKeepsConsistent: assumes that `get_solo` returns the stored loading and that a partial staff save names both rate columns or neither; the singleton's cache and its creation are not part of this model, and column overflow is not modelled. Money is in whole cents: `Staff.save` computes the wage from the instance's own decimal, so a base given with more than two decimals is loaded before the column rounds it, and the stored wage can then differ from the loaded rate of the stored base.
- Errors.PersistAppError: a row is its message; caller context, JSON cleaning and a failing insert are left out.
- PoNumber.SavingAloneNeverCollides: one save at a time, and so are the runs of `PoNumber.IssuedNumbersIncrease`; savers that race are in `PoNumber.OneSaverWins` to `PoNumber.RacingStoresIncrease`.
- PoNumber.Generate: the prefix holds no regular-expression metacharacter (the source does not escape it), digits are ASCII, the column's length limit and saves that leave `po_number` out are not modelled.
- RingCollapse.AttemptsAddUp: how rows come to be recorded, linked or filtered is not modelled; a queryset is any subset of the table.
- HTTP routers, schemas, middleware, authentication and status mapping: single-branch translation over libraries.
- The stock, stocktake, job, kanban and company-merge services: their bodies would add members of another kind.
- Redis, Celery, Postgres and the file system themselves: only the atomic steps the code uses.
