# A verified model of the tenant worker

The tenant worker runs as two kinds of process. *Schedulers* form a group through Redis: they announce
themselves, divide the buckets among the members they see, and for each time slot claim and enqueue the
periodic tasks. *Workers* consume tasks: they scan buckets into a table of object records, delete, copy and
move objects in batches, clean the trash, and turn audit logs into request statistics. The API lists a bucket
from the record table in folded pages.

The project models four parts of this and proves what they keep. `dafny verify dfyconfig.toml` checks all of it.

**The scheduler group** (`Sched`, `Protocol`, `Planning`, `ProtocolFacts`, `ProtocolExact`, `ProtocolCoverage`,
`ProtocolViews`, `ProtocolExpiry`, `ProtocolOrphans`, `Scheduler`). Any number of processes, with views that may
disagree, crash between any two steps; replies and messages may be late, lost or sent again by the client. The state
is a transition system; `Scheduler` is the imperative code of one process, whose every call is a step of that system
with the others at work in between. `Protocol.Assumptions` names what may be assumed of the world: a SET NX executes
before its slot ends, a DEL takes effect at most once, an enqueue that is not known to have stored its task stored
nothing, and how long the queue knows a task's id (`Retention`). Under the first three no task is ever stored twice
for one slot. `ProtocolExact.StoresOnceIff` is the exact condition: the first, and besides either the second and third
or a queue that knows an id as long as somebody may still enqueue it. Coverage needs no assumption about the past:
what clean ticks of a group's members have claimed since any moment stays claimed unless a DEL lands after that
moment.

**The request statistics** (`Requests`, `Aggregate`, `Aggregator`, `Conservation`, `Windows`, `Publishing`,
`Selection`). One pass over the logs fills the tables, counter object by counter object, with the windows of each log
visited in any order. Each row is shown to be the count, sum and set over the logs that belong to it; conservation
between the tables, growth with the window and independence of the order follow from that alone.

**Folded listing** (`Text`, `Keys`, `Like`, `Listing`, `Paging`, `Repeats`). A page folds a bounded scan into items
and common prefixes and resumes from a token. Following the tokens is shown to give the one unbounded listing.

**Objects and records** (`Objects`, `Operations`, `Batch`, `Expansion`, `Worker`, `Inventory`, `Scanner`,
`TrashExpiry`). The storage and the record table are two maps that a backend changes call by call; any call may fail
before or after it took effect. An operation's `Course` says how many of its effects took place. The inventory is a
transition system in which others write objects and records between any two calls of the scan.

## What turned out false

- The repository's `README.md` says that a peer's buckets are made up for within the slot when it drops out. A
  peer that dies between SET NX and enqueue leaves a claim nobody enqueues for, in a run where the survivor finishes
  a clean tick over that bucket in the slot (`ProtocolOrphans.SurvivorsMissAnOrphanedClaim`).
  Nobody need die for it: a SET NX whose reply is lost and which the client sends again is answered that the key is
  taken, so that a single process misses its own claim in a clean tick (`ProtocolOrphans.CleanTickMissesItsOwnClaim`).
  `ProtocolCoverage.SettledClaimIsStoredOnceUnlessOrphaned` says exactly when a claimed task is stored.
- A DEL that takes effect twice, or an enqueue that stored its task but reported a failure, as a client's retries and lost
  replies make possible, can have a task stored twice even if the queue knows each id until its slot ends
  (`ProtocolFacts.RepeatedDelEnqueuesTwice`, `ProtocolFacts.FalseFailureEnqueuesTwice`).
- The repository's `README.md` says that the hourly trash job removes what has expired in a bucket's trash. Expiry goes
  by the stamp of the last scan that saw the object, and scans list the trash too: what a scan has seen there never
  expires for a cut-off up to the scan's start, so that with a scan every 15 minutes and a retention of days the job
  finds no stored object. `TrashExpiry.TrashExpiresIff` is the exact condition.
- A batch move whose item has its source for destination deletes the object if the storage accepts copying an
  object onto itself, though every call succeeds. `Batch.MovesLoseNothingIff` is the exact condition.
- A soft delete replaces what an earlier one put under the same trash key. `Batch.DiscardLosesOldTrashIff` is the
  exact condition.
- The record of a trashed object carries the tag the object had before the copy. On every disk with the object, every
  successful soft delete leaves a true record exactly if the storage's copies keep their source's tag
  (`Batch.DiscardsRecordTheTagIff`).
- The inventory's sweep can remove the record of an object that was there all along if another writer carries a
  stamp from before the scan, as a long batch or an overlapping scan does, or if a truncated page comes without a
  token. `Inventory.SweepIsSafeIff` is the exact condition.
- A common prefix can show on two pages. `Repeats.NextPageRepeatsIff` is the exact condition.

## Model

| member | source | states |
|---|---|---|
| Sched.Members | internal/sched/sched.go:53-87 | whatever SCAN returns, in any order and with repeats, the view is strictly sorted and holds exactly this process and the names whose key `osspilot:sched:<role>:<name>` was returned (a key without that prefix would count as a name itself), none of them empty; it fails exactly when a SCAN call fails |
| Sched.ShardingIsAPartition | internal/sched/sched.go:119-129 | every id, negative ones included, belongs to exactly one member of a sorted group |
| Sched.MembersOwnTheirShares | internal/sched/sched.go:119-129 | of n sorted members the i-th owns i, i + n, i + 2n and so on; a negative id counts as the one 2^64 further on; a stranger owns nothing, and without members everybody owns everything |
| Sched.ConsecutiveIdsAreSpreadEvenly | internal/sched/sched.go:119-129 | of any n consecutive ids each of n members owns exactly one |
| Sched.SlotsTileTime | internal/sched/sched.go:135-144 | slots are disjoint, cover time and start at multiples of the interval; a claim made at any moment of a slot lives exactly to its end, or a second if less is left |
| Sched.DigitsRoundTrip | internal/sched/sched.go:146-148 | decimal ids read back as the number they were made from |
| Sched.IDStringRoundTrip | internal/sched/sched.go:146-148 | an id's name reads back as the id, sign included, and has no leading zeros |
| Sched.IDStringIsInjective | internal/sched/sched.go:146-148 | different ids have different names, none with a colon, none equal to `all` |
| Sched.ClaimKeyIsInjective | internal/sched/sched.go:131-133 | keys of claims coincide only when slot, type and id do, though slots contain colons |
| Sched.RedisNames | internal/sched/sched.go:111-133 | heartbeats and claims are named as documented, and no claim is taken for a heartbeat of any role |
| Protocol.RedisNamesSeparateClaims | internal/sched/sched.go:131-144 | two slots' claims have one Redis key only if they are the same claim, for any injective format of whole seconds |
| Planning.PlansAreShares | cmd/scheduler/main.go:98-145 | a tick plans exactly: the statistics, and each kind of work for each listed bucket of the process's share; in the slot of 15, 60 or 360 minutes that now falls in, with what is left of it to live |
| Protocol.StepKeepsInv | cmd/scheduler/main.go:98-145 | every step of any process, of Redis and of the queue keeps the protocol's invariant |
| ProtocolFacts.RunKeepsInv | cmd/scheduler/main.go:98-145 | the invariant holds after every run |
| ProtocolFacts.AtMostOneEnqueue | cmd/scheduler/main.go:98-145 | in every interleaving of any number of processes, under the first three assumptions and whatever the queue's memory, each claim's task is stored at most once, ever |
| ProtocolFacts.NoTaskIdConflict | cmd/scheduler/main.go:118-124 | under them the claims alone keep enqueues apart: the branch for a conflict of task ids is never reached |
| ProtocolFacts.ClaimLivesUnlessItsHolderDropsIt | internal/sched/sched.go:93-105 | a claim lives to the end of its slot and is overwritten by nobody; only a DEL its own holder sent removes it |
| ProtocolFacts.LateClaimEnqueuesTwice | cmd/scheduler/main.go:75-85 | if a SET NX may execute after its slot's end, whatever else is assumed, there is a run, with views the processes really get, that stores a task twice |
| ProtocolFacts.RepeatedDelEnqueuesTwice | internal/sched/sched.go:101-105 | if a DEL may take effect twice there is such a run, even if the queue knows each id until its slot ends |
| ProtocolFacts.FalseFailureEnqueuesTwice | cmd/scheduler/main.go:118-123 | if an enqueue may store its task and report a failure there is such a run, even if the queue knows each id until its slot ends |
| ProtocolExact.RetentionKeepsTasksApart | cmd/scheduler/main.go:118-124 | with timely SET NX, whatever DELs and failures do, each task is stored at most once if the queue knows its id as long as somebody may still enqueue it |
| ProtocolExact.StoresOnceIff | cmd/scheduler/main.go:98-145 | each task is stored at most once in every run iff SET NX is timely and either DELs are single and failures honest or the queue knows an id as long as somebody may still enqueue it |
| ProtocolExact.NeverConflictsIff | cmd/scheduler/main.go:118-124 | the branch for a conflict of task ids is dead iff SET NX is timely, DELs are single and failures honest |
| ProtocolCoverage.OwnedBucketIsPlanned | cmd/scheduler/main.go:98-103 | a tick plans exactly the listed buckets that are its own |
| ProtocolCoverage.EveryBucketIsClaimed | cmd/scheduler/main.go:60-86 | once every member of a group has finished an error-free tick in a slot seeing that group, each at its own time and whatever it did afterwards, every bucket is claimed for the slot unless a DEL of it has landed since a moment the ticks began after; nothing is assumed of what came before |
| ProtocolCoverage.OwnersTickClaims | cmd/scheduler/main.go:98-112 | for one owner: a clean tick finished at any point since the moment claims the bucket again after an earlier claim was dropped |
| ProtocolCoverage.SettledClaimIsStoredOnceUnlessOrphaned | cmd/scheduler/main.go:105-124 | once nobody works on a claim, its task was stored exactly once if and only if the claim was not orphaned, by a crash, a SET NX whose reply was lost (given up or sent again) or a lost DEL |
| ProtocolCoverage.GroupStoresEachTaskOnce | cmd/scheduler/main.go:60-86 | both together, drops and retries included: once nobody works on a bucket its task was stored exactly once if it is claimed and not orphaned, never otherwise, and it is claimed unless a DEL has landed since the ticks of the members, finished each at its own time, began |
| ProtocolViews.RunSeesTheGroup | internal/sched/sched.go:49-87 | if from a moment on the live heartbeats are those of V and SCAN misses nobody, every view read since is V |
| ProtocolViews.StableGroupClaimsEveryBucket | cmd/scheduler/main.go:60-86 | with heartbeats stable and SCANs exact since a moment, a clean tick of every member, each at its own time, leaves every bucket claimed: those of peers that left before are made up for |
| ProtocolExpiry.HeartbeatsLastFifteenSeconds | internal/sched/sched.go:13-16 | a member is seen for exactly fifteen seconds after its last heartbeat, and never without one |
| ProtocolExpiry.NobodyWorksUnannounced | cmd/scheduler/main.go:60-75 | in every run nobody reads the view, claims or enqueues without having announced itself |
| ProtocolExpiry.ClaimsRunOut | internal/sched/sched.go:93-99 | though nobody clears claims away, none is left when the slot after its own is over |
| ProtocolOrphans.OrphanedClaimsAreNeverStored | cmd/scheduler/main.go:105-124 | once a claim is orphaned its task is never stored, however the run goes on |
| ProtocolOrphans.FinishTick | cmd/scheduler/main.go:98-145 | from any reachable state a tick whose slots have not ended can be worked off cleanly, leaving live claims and their tasks alone |
| ProtocolOrphans.SurvivorsMissAnOrphanedClaim | cmd/scheduler/main.go:105-124 | a run in which a survivor that owns a dead peer's bucket finishes cleanly in the slot, after which the bucket's task is never stored in any continuation |
| ProtocolOrphans.CleanTickMissesItsOwnClaim | internal/sched/sched.go:93-99 | a run of a single process that never dies in which a SET NX sent again is answered that the key is taken: the tick is error-free and the bucket's task is never stored in any continuation |
| Scheduler.Scheduler.Claim | cmd/scheduler/main.go:105-112 | the three outcomes of SET NX, sent again or not, with the others at work before it, are steps of the protocol; a failure moves on with the tick no longer clean |
| Scheduler.Scheduler.Enqueue | cmd/scheduler/main.go:118-124 | stored, conflicting (with its own first attempt, if sent again, or another's) or failed and dropped: each way is a run of protocol steps and moves on to the next job |
| Scheduler.Scheduler.EnqueueBuckets | cmd/scheduler/main.go:98-126 | the loop works off exactly the jobs the plan has for its kind, in order, whatever the others do |
| Scheduler.Scheduler.EnqueueKinds | cmd/scheduler/main.go:80-83 | the four bucket loops work off the plan but for the stats job, which is the last |
| Scheduler.Scheduler.EnqueueStats | cmd/scheduler/main.go:128-145 | the last job of the plan is claimed and enqueued like the others |
| Scheduler.Scheduler.Prepare | cmd/scheduler/main.go:61-75 | the clock is read, during this call, exactly if beat and view come through, and a failure of either leaves the process idle |
| Scheduler.Scheduler.Run | cmd/scheduler/main.go:60-86 | a tick whose beat and view come through works off the whole plan of a clock reading of this run, the view and the bucket list, cleanly if nothing fails, and ends idle; any other leaves no trace of a tick |
| Requests.ActionGroupsAreDisjoint | internal/stats/request.go:12-15 | no action is in two of the groups |
| Requests.FirstLevelEndsAtTheFirstSlash | internal/stats/request.go:50-59 | the first level of a key is its part up to and with the first slash; top-level files and the trash have none |
| Requests.TransfersAndDeletesAreRequests | internal/stats/request.go:44-48 | no put, get or delete is among the actions left out |
| Requests.PlusCountsOneMore | internal/stats/request.go:61-100 | adding a log turns the counts, sums and actors of some logs into those of one more |
| Requests.Counter.Add | internal/stats/request.go:61-81 | the object's fields take the log, so that by `PlusCountsOneMore` they stay the counts, sums and actors of the logs it has seen |
| Requests.UserCounter.Add | internal/stats/request.go:83-100 | the same for a user's counter, whose branches are in another order and which counts accesses with a key separately |
| Aggregate.HitsIsRowFor | internal/stats/aggregate.go:88-142 | in each table and window a log belongs to at most one row, the one the loop looks up |
| Selection.RowsTakeTheLogsThatBelong | internal/stats/aggregate.go:75-142 | each log counts in a row, as often as it was loaded, exactly if it belongs there: by action, age in days, account, user, bucket name, first level of the key and UTC day |
| Aggregate.TracksAdvances | internal/stats/aggregate.go:92-135 | doing one more window brings a table up to date by changing that one row |
| Aggregate.AttributeJudges | internal/stats/aggregate.go:235-248 | one more claim keeps the verdict on a bucket right: its only claimant, or none once there are two |
| Aggregate.CounterTable.Ensure | internal/stats/aggregate.go:99-101 | a missing row starts at zero in a counter of its own |
| Aggregate.CounterTable.Add | internal/stats/aggregate.go:97-110 | exactly one row's counter takes the log |
| Aggregate.UserTable.Add | internal/stats/aggregate.go:111-125 | exactly one user row takes the log, and a new one has the user's name |
| Aggregate.UserTable.Read | internal/stats/aggregate.go:206-211 | the user rows with their names, as they are written |
| Aggregator.AllAdvance | internal/stats/aggregate.go:92-142 | the updates of one window keep all tables right for the windows done so far |
| Aggregator.Aggregator.Open | internal/stats/aggregate.go:43-46 | platform rows exist from the start |
| Aggregator.Aggregator.AddWindow | internal/stats/aggregate.go:92-135 | the loop body for one window keeps all tables right |
| Aggregator.Aggregator.AddWindows | internal/stats/aggregate.go:92-135 | any order of the windows does them all |
| Aggregator.Aggregator.AddDay | internal/stats/aggregate.go:136-142 | the day's counter keeps all tables right |
| Aggregator.Aggregator.AddLog | internal/stats/aggregate.go:82-142 | one log moves every table on by exactly that log |
| Aggregator.Ignored | internal/stats/aggregate.go:79-81 | skipping a log that is no object request is right for every table |
| Aggregator.Aggregator.Aggregate | internal/stats/aggregate.go:78-143 | after the pass, in any row order, each table has a row exactly where some log belongs (platform rows always), with exactly the counts, sums, actors and account of the logs that belong there |
| Conservation.RowsPartitionTheirLogs | internal/stats/aggregate.go:92-142 | for anything additive, the rows of one table and window add up to the logs they share out |
| Conservation.MidnightIsInRange | internal/stats/aggregate.go:75-76 | no loaded log is too old for the daily table |
| Conservation.DailyConservesThePlatform | internal/stats/aggregate.go:136-142 | each additive column of the daily table sums to the platform's 30-day figure |
| Conservation.PrefixesConserveTheirBucket | internal/stats/aggregate.go:104-134 | a bucket's prefix counts sum to its keyed puts and gets, at most its puts and gets, and to exactly those iff each names a key |
| Conservation.UsersConserveTheirAccount | internal/stats/aggregate.go:97-125 | an account's user figures sum to at most the account's, with equality iff every counted log has an actor |
| Conservation.UserRowIffActor | internal/stats/aggregate.go:111-125 | an account has user rows for exactly the actors of its logs |
| Conservation.ActiveUsersAreTheUserRows | internal/stats/aggregate.go:97-125 | an account's active users are those with a row, and their number is the number of rows |
| Windows.LongerWindowsTotalMore | internal/stats/request.go:102-104 | anything non-negative adds up to at least as much over a longer window |
| Windows.CountersGrowWithTheWindow | internal/stats/aggregate.go:92-110 | a platform, account or bucket row has a row for each longer window with nothing less in any column and no active user fewer |
| Windows.UsersGrowWithTheWindow | internal/stats/aggregate.go:111-125 | the same for user rows |
| Windows.PrefixesGrowWithTheWindow | internal/stats/aggregate.go:126-134 | the same for prefix rows |
| Windows.OrderDoesNotMatter | internal/stats/aggregate.go:78-143 | all tables are determined by the multiset of logs: row order and window order do not matter |
| Windows.AttributedIffOnlyClaimant | internal/stats/aggregate.go:126-134 | a bucket is given to account a iff a is the only account among its keyed puts and gets, and to nobody iff there are several |
| Windows.ClaimsCommute | internal/stats/aggregate.go:235-248 | claims commute, repeat without effect, and never undo a conflict |
| Publishing.IndexNames | internal/stats/aggregate.go:70-73 | the name index finds a bucket of that name for each name, in any order of the map |
| Publishing.AllBucketsAreFoundIffNamesAreUnique | internal/stats/aggregate.go:70-73 | every bucket is found by its name iff no two share one |
| Publishing.Write | internal/stats/aggregate.go:162-190 | a table's rows are all written, each as its line |
| Publishing.WriteOwned | internal/stats/aggregate.go:191-225 | the rows written are exactly those of known buckets, each with its line, which for a bucket row begins with the bucket's name, and its bucket's account |
| Publishing.NoRowIsSkipped | internal/stats/aggregate.go:193-196 | the check for unknown buckets never skips a row |
| Publishing.LinesHaveFigures | internal/stats/aggregate.go:162-205 | each column of a written line has the figure it is named for; buckets have no errors column, only the platform and accounts have active users |
| Publishing.BucketsAreShown | internal/stats/aggregate.go:192-205 | a bucket row is written iff some log belongs to it, with its bucket's name, the figures of its logs column by column, and its only claimant |
| Publishing.BucketNamesAreTheLogs | internal/stats/aggregate.go:192-205 | the name written in a bucket row is the one every log of the row carries |
| Publishing.PrefixesAreShown | internal/stats/aggregate.go:215-225 | the same for prefix rows |
| Publishing.AggregateRequests | internal/stats/aggregate.go:22-225 | the job from end to end: each row of all six tables is written exactly where some log belongs, and each column is the count, sum or number of actors of those logs that it is named for, with the bucket name, user name and account those logs say |
| Keys.ValidKeysAreOutsideTheTrees | internal/objects/key.go:18-23 | users may have any key but the empty one, the two reserved directories and what is in them |
| Keys.DirectoryKeysAreNamesWithASlash | internal/objects/key.go:40-42 | a directory key is anything with a character other than a slash, followed by a slash |
| Keys.TrashRoundTrip | internal/objects/key.go:25-38 | trashing is reversible, injective and leaves the user's name space |
| Keys.ChildrenOfValidDirectoriesAreValid | internal/objects/key.go:18-42 | nothing below a valid directory key is in the trash or the versions |
| Like.LikePrefixMatchesPrefix | internal/objects/list.go:83-86 | under LIKE with a backslash escape the pattern matches exactly the strings with that prefix, `%`, `_` and backslash included |
| Listing.LineOf | internal/objects/list.go:36-50 | the line a row asks for: itself, its common prefix, or none |
| Listing.CutIsLargest | internal/objects/list.go:55-58 | the rows shown are the most whose listing fits |
| Listing.FoldList | internal/objects/list.go:26-81 | the page: the listing of the most rows that fit, truncated iff rows remain or may, with the last row shown as token |
| Paging.WhereIsLiveBeyond | internal/objects/store.go:51-60 | the query's conditions accept exactly the rows past the token that the fold's own filters accept |
| Paging.Folded | internal/objects/store.go:20-37 | one call gives the fold of the bounded query, at most as many lines as asked for, at least one and at most 1000 being asked for; a truncated page has exactly that many unless it consumed 2000 rows |
| Paging.ResumeSelectsTheRest | internal/objects/store.go:54 | resuming after a row selects exactly the rows after it |
| Paging.PageConsumes | internal/objects/list.go:74-80 | a page has a token iff it is truncated, and the token selects exactly what the page did not consume, which is less than before |
| Paging.PagesAreOneListing | internal/objects/list.go:26-81 | from any token on, the pages' items and prefixes are those of the rows past it |
| Paging.PagingRefinesOneFold | internal/objects/list.go:26-81 | the pages from the start are the unbounded fold: its items in order and once each, its prefixes up to immediate repeats |
| Paging.WholeListing | internal/objects/list.go:26-81 | the unbounded fold shows exactly the live rows directly under the prefix, and exactly one prefix per group, all in order |
| Repeats.PrefixRepeatsOnlyAtScanCap | internal/objects/store.go:27-31 | a prefix shows on two pages only if the scan cap cut the first in the middle of its group |
| Repeats.NextPageRepeatsIff | internal/objects/store.go:27-31 | two pages in a row show a prefix iff the scan cap cut the first in the prefix's group and a row of the group is still to come |
| Repeats.BigGroupRepeats | internal/objects/store.go:27-31 | a bucket whose listing does repeat a prefix |
| Objects.Backend.Head | internal/storage/client.go:116-129 | size and tag of the object, or not found |
| Objects.Backend.Copy | internal/storage/client.go:241-254 | the destination gets the source's content, under its tag if the storage keeps tags and any tag otherwise, or nothing happens |
| Objects.Backend.Delete | internal/storage/client.go:256-259 | the object is gone, or nothing happens |
| Objects.Backend.List | internal/storage/client.go:372-403 | a page lists keys past the token in order, skips none, and says where to go on |
| Objects.Backend.Upsert | internal/objects/store.go:115-133 | the record is written and keeps its creator |
| Objects.Backend.UpsertSeen | internal/objects/store.go:231-247 | the record is written with the scan's stamp and keeps its creator |
| Objects.Backend.PurgeUnseen | internal/objects/store.go:249-257 | exactly the bucket's records without a stamp or with an older one go |
| Objects.Backend.Unrecord | internal/objects/store.go:188-194 | exactly this record goes |
| Objects.Backend.MoveKey | internal/objects/store.go:196-229 | the statements of the transaction leave the rows without both keys plus one row for the new key that keeps the old one's creator, or leave everything |
| Operations.ApplyDelete | internal/objects/apply.go:12-31 | a delete stops after some of its effects: object then record, or copy, object, record; it reports success only after all |
| Operations.Relocate | internal/objects/apply.go:24-30 | copy, delete and record move, stopping at the first that fails |
| Operations.RejectIfExists | internal/objects/apply.go:35-44 | the check passes only if the destination is free |
| Operations.ApplyCopy | internal/objects/apply.go:46-59 | a copy touches nothing unless the destination is free and the source there |
| Operations.ApplyMove | internal/objects/apply.go:61-79 | a move touches nothing unless the destination is free (or is the source) and the source there |
| Batch.StepKeepsContent | internal/objects/apply.go:12-79 | whatever fails, an operation keeps every object's content in place or at its target, but for the dangers listed in `Endangers` |
| Batch.LeadsIsAChain | internal/worker/batch.go:111-118 | where moves take an object is where some of them, in the order of the batch, each begin where the last one ended |
| Batch.NothingIsOverwritten | internal/objects/apply.go:46-79 | no copy or move puts other content where an object was |
| Batch.MovesKeepContent | internal/worker/batch.go:111-118 | at every moment of a batch of moves, what was stored is still stored, in place or where a chain of items leads |
| Batch.MovesKeepCreators | internal/worker/batch.go:111-118 | however a batch of moves shifts objects about, each is at the end of its chain with the creator it had, if no move stops half-way |
| Batch.MovesLoseNothingIff | internal/objects/apply.go:61-79 | a batch of moves loses nothing, with or without failures, iff no item moves an object onto itself or the storage refuses such copies |
| Batch.DiscardsKeepLiveContent | internal/worker/batch.go:39-46 | at every moment of a soft batch delete a live object is in place or, if asked for, at its trash key |
| Batch.DiscardLosesOldTrashIff | internal/objects/apply.go:23-30 | a soft delete, failing or not, loses content iff other content is already under its trash key |
| Batch.CopiesOnlyAdd | internal/worker/batch.go:69-88 | a batch of copies changes no object and adds only destinations, with content that was there |
| Batch.FinishedAgreesIff | internal/objects/apply.go:12-79 | an operation with all its effects leaves record and object in step at each place it touched, but for a move onto itself and for the trash key of a copy with another tag |
| Batch.FinishedRecordsAreSigned | internal/objects/store.go:115-229 | a finished operation's target record bears the batch's stamp and keeps its creator across moves and soft deletes; the asker becomes the creator only of what had no record or was moved onto itself; an unfinished one changed no record |
| Batch.DiscardsRecordTheTagIff | internal/objects/apply.go:24-30 | on every disk with the object, every successful soft delete leaves a true record at the trash key iff the storage's copies keep their tags |
| Batch.BatchesKeepRecordsInStep | internal/worker/batch.go:39-46 | after any mixed batch record and object agree at a place just as the last operation with an effect there left them: as at the start if there was none, in step but for the two cases above if it had all its effects |
| Batch.AgreementSurvivesIff | internal/objects/apply.go:12-79 | from full agreement an operation, failed or not, leaves full agreement iff it had no effect, or all with the right tag and not onto itself, or only copied over an object of the same size and tag |
| Expansion.ListPrefixKeys | internal/objects/apply.go:121-139 | page after page gives exactly the keys under the prefix, in order |
| Expansion.TokenAdvances | internal/objects/apply.go:134-137 | each token leaves less to list |
| Expansion.MeantKeysAreValid | internal/objects/apply.go:86-106 | everything a usable key stands for is a valid user key |
| Expansion.AddNew | internal/objects/apply.go:107-113 | keys seen before are dropped, others appended |
| Expansion.ExpandOne | internal/objects/apply.go:86-106 | a key is refused for exactly one of three reasons or replaced by what it stands for |
| Expansion.ExpandDeleteKeys | internal/objects/apply.go:81-119 | the resolved keys are valid, without repeats, and exactly what the usable inputs stand for; every other input is reported with its reason, in order |
| Expansion.ExpansionsAreWhatWasAskedFor | internal/objects/apply.go:81-119 | on a reliable storage the resolved keys are exactly the usable keys that are no directories and everything stored under those that are |
| Worker.DeleteAll | internal/worker/batch.go:39-46 | the loop deletes each key in turn, passes over failures and counts successes |
| Worker.BatchDelete | internal/worker/batch.go:17-49 | a soft batch delete loses no live object; on a reliable backend exactly the live objects the request stands for are gone from their places, soft or not, and the count is theirs; a request is refused for its first reason |
| Worker.MoveAll | internal/worker/batch.go:109-118 | the loop moves each item in turn, passes over failures and counts successes |
| Worker.BatchMove | internal/worker/batch.go:93-121 | a batch move in which no item has its source for destination loses no object |
| Worker.CopyAll | internal/worker/batch.go:67-88 | a missing destination bucket fails its item, a failed look-up ends the job |
| Worker.BatchCopy | internal/worker/batch.go:51-91 | a batch copy changes no object there was |
| Worker.Trash | internal/worker/jobs.go:179-217 | only records strictly under `.trash/`, last seen or else updated before the cut-off, in the bucket given if any, go, each after its object; without failures all of them do; the count is that of the records that went |
| TrashExpiry.ScannedTrashDoesNotExpire | internal/objects/store.go:273-279 | after any scan nothing in the bucket is expired trash for a cut-off up to the scan's start; if tokens come and other writers' stamps are no older, each object that was there throughout is on record with a fresh stamp |
| TrashExpiry.TrashExpiresIff | internal/worker/jobs.go:122-147 | some scan leaves an object that stayed as expired trash iff the cut-off lies after the scan's start |
| Inventory.NothingIsLeftBehind | internal/worker/jobs.go:125-142 | at every moment an object that stays is freshly recorded or still ahead of the scan |
| Inventory.SweepKeeps | internal/worker/jobs.go:122-147 | the sweep spares every object that was there all along |
| Inventory.SweepIsSafeIff | internal/worker/jobs.go:122-147 | it does so for every run iff no other writer carries a stamp from before the scan and every truncated page has a token |
| Inventory.OldStampRun | internal/objects/store.go:231-257 | a writer with an older stamp makes the sweep remove a record of an object that is there |
| Inventory.LostTokenRun | internal/worker/jobs.go:138-143 | a truncated page without a token does too |
| Inventory.SurvivorsAreListedOrRecorded | internal/objects/store.go:249-257 | what survives was listed by this scan, recorded by another with a stamp no older, or had such a stamp when the scan began; other buckets' rows all survive |
| Inventory.UnsweptScansRemoveNothing | internal/worker/jobs.go:125-142 | a scan that fails before the sweep removes no record |
| Inventory.ScansKeepCreators | internal/objects/store.go:231-247 | what no other writer touched is as it was or has the scan's stamp in both time columns, and either way the creator it had, or none if the scan added it |
| Inventory.UndisturbedScansConverge | internal/worker/jobs.go:122-147 | undisturbed and with older records only, the scan leaves in the bucket exactly a record for each object, with its size and tag and the creator it had, and other buckets untouched |
| Scanner.StampPage | internal/worker/jobs.go:130-137 | stamping a page is a run of scan steps with others in between |
| Scanner.StampAll | internal/worker/jobs.go:125-142 | the loop over pages is a run of the scan, and ends without error only when nothing is left |
| Scanner.ScanBucket | internal/worker/jobs.go:122-147 | the job is such a run followed by the sweep; without failures it sweeps unless it runs out of pages it may take, which undisturbed it does not if it may take more pages than there are keys; before the sweep it removes nothing, after it every object that stayed has a record, and each record a stamp no older, and undisturbed the records are exactly the objects; in any case whatever no other writer touched keeps its creator |

## Left out

- The Redis, asynq, database and S3 clients: what they do is stated as the steps of `Protocol` and the contracts of `Objects.Backend`; configuration, logging, audit entries, health endpoints and JSON payloads are not part of this model.
- Clock skew between hosts: Redis and the schedulers share one clock. go-redis sends the time to live in milliseconds; the model keeps nanoseconds.
- A failed JSON encoding of a payload after a claim counts as an enqueue that failed and stored nothing.
- RFC 3339 and calendar formatting: a slot's name is any injective function of whole seconds, a UTC day is 24 hours from the zero time.
- Integer wrap-around of counters and byte sums, which are unbounded here; `uint64(id)` is modelled.
- Aggregate.CounterTable.Add: the platform, account, bucket and daily maps are one map keyed by tagged rows, because four maps of counter objects differ in nothing but their keys.
- The counts in `AggregateResult`, the collection time in each row, and the transaction that replaces the old statistics.
- The order of strings is by code point, as under the C collation; `Paging` takes a bucket's rows as a sorted sequence with unique keys.
- Paging.Folded: the columns of a row other than key, size and tag are not modelled, nor a change of the table between two pages.
- Objects.Backend.List: the storage answers from its state at the call and its tokens are the last key listed; a page without a token is a case of `Inventory`.
- A bucket's name and its id are taken for one another; content type and storage class are not modelled.
- Operations.ApplyMove: batches do not interfere with each other or with uploads in the middle of an operation; the inventory is where interference is modelled.
- The retry of a whole task by the queue: a retried batch is another batch.
- Scanner.ScanBucket: a scan takes a bounded number of pages, as its deadline makes it, because others can add keys ahead of it forever; and the storage always sends tokens.
- `uniqueOriginalKeys`, presigned URLs, policies, CORS, grants, platform settings and the clean-up of versions and multipart uploads, which repeat the trash job's loop.
