# Ranking tracker: model and proofs

The repository polls a game ranking, stores only what changed, and serves it through
a two-level cache. This project models four linked parts of it in Dafny and proves
what they promise.

**Cache.** `CacheProtocol` is a transition system: one writer brackets its transactions
with Redis commands while any number of API processes read, fetch and publish. Each
Redis script and each plain command is one step, INCR and DEL are two, a fetch reads the
database at several instants, and a conditional write may run long after its sender gave
up. The endpoint is any function of the rows it reads, gzip any function with a left
inverse. `CacheInvariant` and `CacheSteps` hold the invariant, `CacheTheorems` the
results. `SingleFlight` is a model of its own of the in-flight entries, at the grain of their locks,
`CacheKeys` renders the keys as strings, and `L1Shard` is a shard of the local cache.

**Tracker.** `RankDiff`, `WorldBloomRows`, `UserTable`, `Database` and `Tracker` are the
tick as methods over mutable state, with failures at every statement, proved against
the predicates of `Storage` and `Tracker`. Over runs of those predicates, `SparseLog` and
`SparseChanges` relate the log of changes to a history of whole snapshots,
`RestartLog` says what a tick leaves that goes on from another state than the log's,
`ChapterLog` and `AbsentUser` do the same for a World Bloom chapter, whose state is kept by
user while its log is read by rank, `WorldBloomExact` shows the World Bloom pre-diff exact,
and `BorderSkip` the skipped border merge. `WriterRuns` shows that brackets are runs of the
writer that `CacheProtocol` assumes, and `TrackerRuns` drives a tracker through any calls:
its tables go through a run of the sparse log and the cache protocol follows its commands.
`SparseWitnesses` and the last sections of `BorderSkip` and `AbsentUser` hold concrete runs.

**Lifecycle.** `Lifecycle` is the daemon and its tracker instances as classes proved against
a tick function; `LifecycleRuns` is about runs of that function, and `ChapterRuns` about when
they finalise a chapter, and when again.

**Algorithms.** `Paging`, `RoundMetrics` and `RealtimeHub`.

## Assumptions

- One writer per server; `begin_event_update` and `finish_event_update` succeed; the
  dirty mark does not expire during an update. The code relies on these without
  enforcing them.
- The coherence theorem is about ranking rows. User rows are upserted before the
  transaction, so an aborted update may leave them changed without a new epoch, and
  idle heartbeats are outside the bracket.
- The clock does not go back, within a tick or between ticks. `db/query/web.rs` says that
  time ids are monotone with timestamps; that rests on this.

## Where the obvious claim is false

- *Paging.* The row used as cursor is neither returned on its page nor on the next one.
  `Paging.PagesAreExact` says exactly which rows are seen.
- *Eviction.* The comment promises to evict the oldest quarter; when deadlines tie, a full
  shard may keep everything. `L1Shard.TiesStay` says exactly when, `L1Shard.TiesOutgrow` that
  the shard then grows.
- *Sparse log.* A user at two ranks, a nameless changed row, or a second change within one
  second advances the state without a matching row. `SparseLog.TickIsExact` gives the
  condition, in terms of the tables and the payload before the tick, under which
  log and state agree, and shows it necessary. `SparseWitnesses` has such ticks.
- *Border skip.* If the World Bloom insert fails after a merged main insert, the rank state
  has moved on but the stored hash has not, and the old border is skipped when it comes
  back. `BorderSkip.SkipAfterChapterFailureIff` says exactly when that loses a change,
  `BorderSkip.ChapterFailureBreaksTheSkip` is a run on which it does.
- *World Bloom log.* A user who is back where it was last seen is not written again, even
  if another held the rank in between. `ChapterLog.ChapterTickIsExact` gives the condition,
  `AbsentUser.AbsentUserIsLost` the family that fails it, `AbsentUser.ReturningUserIsARun` a run.
- *Event id.* It can fall when the two master-data reads of one tick disagree
  (`LifecycleRuns.IdFallsExactlyIf`).
- *Chapters.* A chapter can be finalised more than once. `ChapterRuns.ChapterFinalIff` and
  `ChapterRuns.ForgottenIff` say exactly when a tick finalises one and when it forgets one,
  `ChapterRuns.FinalisedTwiceFromStartIff` on which runs it happens twice: those that list it
  as ended, drop it, and list it as ended again while the event is in play.
- *Keys.* Families are disjoint only for suffixes that do not end in `:gz` or `:not_found`
  (`CacheKeys.EntriesCollideIff`).

## Model

| member | source | states |
|---|---|---|
| CacheTheorems.CacheIsCoherent | src/api/cache.rs:412-637 | In every reachable state of any interleaving, each entry under an epoch, in Redis or in any node's L1, of any family, is the endpoint's answer on the ranking rows at the instant that epoch was published |
| CacheTheorems.PublishedOnce | src/api/cache.rs:1834-1846 | The instant at which an epoch was published is unique, so coherence pins one snapshot per epoch |
| CacheTheorems.SiblingsAgree | src/api/cache.rs:1208-1247 | Entries of one epoch and suffix agree wherever they are held: a gzip entry decodes to its identity sibling, and a negative entry excludes both |
| CacheTheorems.AnswersAreFresh | src/api/cache.rs:429-637 | Bounded staleness: an answer is the query on a snapshot whose epoch was current and clean when its control was read, or database reads made inside the request's own flight or a flight it joined |
| CacheTheorems.IdentityIsPlain | src/api/cache.rs:697-733 | No identity request and no bytes waiter ever receives gzip bytes, whatever path the answer took |
| CacheTheorems.CleanInstantsShowPublishedRows | src/api/cache.rs:1821-1855 | At every instant without a dirty mark the ranking rows are those published with the epoch of that instant |
| CacheTheorems.ReachableInv | src/api/cache.rs:412-910 | The protocol invariant holds in every reachable state |
| CacheTheorems.StepAppends | src/api/cache.rs:26-60 | A step adds one instant to the history and publishes the next epoch there or none |
| CacheProtocol.AnswerIsUnique | src/api/cache.rs:412-428 | An endpoint run on one fixed snapshot has one answer, however many reads it makes |
| CacheSteps.NextKeeps | src/api/cache.rs:412-910 | Every step of writer, requests, delayed writes, expiry, eviction, failure and cancellation keeps the invariant |
| CacheSteps.ExecWriteKeeps | src/api/cache.rs:45-60 | The conditional write stores an entry only while its epoch is current and clean, and then the entry is right |
| CacheSteps.ScriptOk | src/api/cache.rs:26-44 | What the read script replies is right at that instant, and a clean reply carries a clean instant |
| CacheSteps.KeysNextOk | src/api/cache.rs:1296-1330 | Three plain reads at three instants never combine into a wrong answer |
| CacheSteps.SteadyReadsAnswer | src/api/cache.rs:1066-1127 | A fetch whose reads all saw one snapshot computed the answer on it |
| CacheSteps.FetchedEntryOk | src/api/cache.rs:1066-1127 | While its epoch is stable, what a fetch found is what the entry should hold, in each family |
| CacheSteps.FetchMoveOk | src/api/cache.rs:1156-1225 | Every way a fetch can end sends a sound write or gives a sound answer |
| CacheSteps.TakeOk | src/api/cache.rs:1786-1819 | What a waiter makes of a shared result is sound for the waiter |
| CacheSteps.DeliverKeeps | src/api/cache.rs:1768-1784 | Finishing a flight hands on a sound result and leaves the other flights alone |
| CacheSteps.ReplyKeeps | src/api/cache.rs:520-635 | Storing the local control and following the script's reply keeps the invariant |
| CacheSteps.PeekKeeps | src/api/cache.rs:429-470 | A request that trusts a stale local control is still sound |
| CacheInvariant.IssueKeeps | src/api/cache.rs:1821-1855 | Each of the tracker's commands, INCR and DEL apart, keeps the invariant |
| CacheInvariant.EntryLater | src/api/cache.rs:45-60 | No later step invalidates an entry |
| CacheKeys.EntriesCollideIff | src/api/cache.rs:1857-1873 | Two entry keys are one string exactly if server, event and epoch agree and the suffixes with the family endings are one string |
| CacheKeys.EntriesAreDisjoint | src/api/cache.rs:1857-1873 | For suffixes that do not end in a family ending, keys are injective and the families disjoint |
| CacheKeys.UnsafeSuffixCollides | src/api/cache.rs:1871-1873 | A value key whose suffix ends in the gzip ending is another suffix's gzip key |
| CacheKeys.ScriptKeyAgrees | src/api/cache.rs:26-44 | The key that the read script concatenates is the key the other paths use |
| CacheKeys.ControlsAreApart | src/api/cache.rs:1900-1913 | Epoch, dirty mark and local control are never an entry's key, and are apart |
| CacheKeys.FlightsAreDisjoint | src/api/cache.rs:1875-1898 | Flight keys are injective over mode, kind, epoch and suffix, epoch -1 included |
| CacheKeys.UnderIsInjective | src/api/cache.rs:1857-1925 | Server, event and tail can be read back from a key |
| CacheKeys.IntegerIsInjective | src/api/cache.rs:1857-1860 | Decimal numbers are written injectively, sign included |
| SingleFlight.NextKeeps | src/api/cache.rs:1745-1819 | Every step of begin, wait and finish, at the grain of the locks, keeps the invariant |
| SingleFlight.OneFlightPerKey | src/api/cache.rs:1748-1766 | At most one unfinished flight per key, and it is the registered one |
| SingleFlight.FinishRemovesItsOwn | src/api/cache.rs:1768-1784 | finish removes its own registration and never another flight's |
| SingleFlight.WaitersAgree | src/api/cache.rs:1786-1801 | All waiters of a flight take the same result, whenever they look |
| SingleFlight.NoLostWakeup | src/api/cache.rs:1786-1801 | A blocked waiter has a wake-up pending, or its flight's owner has yet to notify |
| SingleFlight.AtMostTwoTurns | src/api/cache.rs:1786-1801 | A waiter's loop runs at most twice, and the second time finds the flight done |
| SingleFlight.WaitChainsAreShort | src/api/cache.rs:548-563 | Nested lookup-to-dirty waits form chains of at most two links and never a cycle |
| SingleFlight.SomebodyMoves | src/api/cache.rs:1729-1801 | Deadlock freedom, owners dropped at any await included: whoever has not ended can move, or waits on somebody who can |
| UserTable.UserTable.GetOrCreateKeys | src/db/query/batch.rs:197-330 | A total, injective map of keys that are those of the table, for any number of chunks and failures; keys and stored teams survive; nothing is written if and only if nothing differs |
| UserTable.UserTable.WriteChunks | src/db/query/batch.rs:247-297 | Chunked upserts: each row is brought up or untouched, a failed statement ends the call |
| UserTable.UserTable.Compare | src/db/query/batch.rs:211-234 | Exactly the stored rows that differ are marked for writing, with the effective team |
| UserTable.UserTable.UpsertRow | src/db/query/batch.rs:269-296 | An upsert keeps the key of an existing row and gives a new one a fresh key |
| UserTable.UserTable.ReadBack | src/db/query/batch.rs:302-328 | The keys of the inserted rows are added to the result |
| UserTable.UserTable.Plan | src/db/query/batch.rs:203-245 | What is to be written is exactly the missing users and those that differ |
| UserTable.UpsertSettles | src/db/query/batch.rs:189-196 | Repeating a successful call finds nothing to write |
| UserTable.ExtendsCompose | src/db/query/batch.rs:189-196 | Over successive calls a key never changes, and a team is never replaced by null |
| UserTable.SettledIsUpToDate | src/db/query/batch.rs:218-227 | The change test is exact: a row passes it if and only if the upsert would not change it |
| RankDiff.DiffRankBased | src/tracker/diff.rs:55-84 | Exactly the complete rows that differ from the state, in payload order, and the state they leave, later rows winning |
| RankDiff.MergeRankings | src/tracker/diff.rs:89-103 | The top 100 followed by the border rows whose rank the top 100 do not cover |
| RankDiff.MergeCovers | src/tracker/diff.rs:86-103 | The merge covers the ranks of both, each from the top 100 where listed, and keeps ranks distinct |
| RankDiff.BuildEventRecords | src/tracker/diff.rs:197-222 | One record per user, from its first named row |
| RankDiff.FirstNamedOf | src/tracker/diff.rs:193-222 | With distinct users every named row gets its own record |
| RankDiff.CommittedStateAgrees | src/tracker/diff.rs:45-54 | Once committed, the state agrees with every complete row of the payload |
| RankDiff.ChangedRowsAre | src/tracker/diff.rs:55-84 | A row is in the diff if and only if it is complete and differs from the state |
| WorldBloomRows.ExtractWorldBloomRankings | src/tracker/diff.rs:120-191 | Per character the last chapter that is listed, not aggregating, and ongoing or ended but not finalised; it is merged with the last border listed for the character if it is also the first such chapter, else with none |
| WorldBloomRows.BuildWorldBloomRows | src/tracker/diff.rs:228-260 | The records of all chapters, in the map's order, without the rows the callback skips |
| WorldBloomRows.RowsOfChapterAre | src/tracker/diff.rs:228-260 | A record is built for a chapter exactly if it is that of a named row the callback does not skip |
| WorldBloomRows.RowsOfAre | src/tracker/diff.rs:228-260 | A record is in the list exactly if its own chapter's list has it |
| Database.Database.GetOrCreateTimeIds | src/db/query/batch.rs:55-95 | Every timestamp gets the id of its row, new ids above all old ones, none for a timestamp already stored |
| Database.Database.WriteHeartbeat | src/db/query/heartbeat.rs:40-62 | A heartbeat adds its timestamp unless it is there |
| Database.Database.InsertEventRankings | src/db/query/batch.rs:450-517 | All rows land under their time and user keys, conflicts doing nothing, or only the user dimension may have moved |
| Database.Database.InsertWorldBloomRankings | src/db/query/batch.rs:521-640 | Changed rows land and the state moves on, or neither; the memo is fed from the stored keys; an unchanged call opens no transaction |
| Storage.InsertedRows | src/db/query/batch.rs:499-510 | A row that conflict-ignoring inserts add is one that was handed in, and each key handed in is taken afterwards |
| Tracker.EventTracker.PersistMain | src/tracker/base.rs:348-374 | The rank state moves on only when the records landed; an error clears the dirty mark |
| Tracker.EventTracker.PersistChapters | src/tracker/base.rs:376-417 | The World Bloom exits: no-op, success, failure after and without a main commit, each with its commands |
| Tracker.EventTracker.WriteRows | src/tracker/base.rs:305-417 | Rows, states and commands up to the decision whether to publish |
| Tracker.EventTracker.PersistRankingData | src/tracker/base.rs:305-446 | Every exit leaves dirty clear and the epoch one higher exactly if a ranking transaction committed; states move on only for committed rows; hash and saved state only on completion |
| Tracker.EventTracker.CloseTick | src/tracker/base.rs:419-427 | Publish what was written, else a heartbeat on live ticks only |
| Tracker.EventTracker.HandleRankingData | src/tracker/base.rs:448-496 | The payload is merged unless the border's hash is the stored one; the chapters are the extracted ones on World Bloom events and none otherwise |
| Tracker.EventTracker.RecordRankingData | src/tracker/base.rs:278-299 | A live tick: nothing once ended, a heartbeat if upstream failed, else a persist |
| Tracker.EventTracker.RefreshAfterEnd | src/tracker/base.rs:216-263 | The post-end refresh: gated, no heartbeat, a persist and then a bracket of its own for exactly the users visible in the payload; rows and epoch end where its commands say |
| Tracker.EventTracker.CollectVisibleUserRecords | src/tracker/base.rs:499-511 | Somebody has a record exactly if a named row of the main ranking or of a chapter is theirs; all are stamped with the record time |
| WriterRuns.BracketIsARun | src/tracker/base.rs:341-427 | The commands of a persist are accepted by the writer automaton of the cache protocol, however many transactions committed |
| WriterRuns.BracketBumps | src/tracker/base.rs:341-427 | A persist publishes once if it committed and not at all otherwise |
| WriterRuns.TrackerLogIsARun | src/tracker/base.rs:305-446 | Every sequence of persists and user brackets is a run of that automaton and leaves it idle |
| WriterRuns.ProtocolFollows | src/api/cache.rs:1821-1855 | The cache protocol can follow any such log and arrives at the tracker's epoch and rows |
| TrackerRuns.Perform | src/tracker/base.rs:216-299 | One call, whatever fails: its acts are a run of the sparse log, its commands are pieces of the writer's, and rows and epoch are those the commands name |
| TrackerRuns.Drive | src/tracker/daemon.rs:162-214 | Any sequence of calls: the tables went through one run of the sparse log, and from any state with the writer idle the cache protocol can follow the commands and ends at the tracker's rows and epoch |
| TrackerRuns.LogIsFollowed | src/api/cache.rs:1821-1855 | What the pieces of a tracker's log add up to, the protocol can follow |
| TrackerRuns.BracketLast | src/tracker/base.rs:341-427 | The rows a bracket commits last are those it leaves |
| TrackerRuns.RunAppend | src/tracker/base.rs:305-446 | Runs of the sparse log compose |
| SparseLog.SparseLogIsDense | src/db/query/web.rs:514-625 | Refinement: over runs with any failures, the latest-before-cutoff query for any rank and cutoff returns, in one row, what the last landed payload at or before the cutoff that contained the rank said of it |
| SparseLog.TickIsExact | src/tracker/diff.rs:45-84 | Once a tick landed, the log answers with the state gone on from if and only if the changed rows are named, of distinct users, and collide with no row of the same instant |
| SparseLog.FollowsOnlyIfFaithful | src/tracker/diff.rs:193-222 | Only-if half: an answered changed rank has a row of its own |
| SparseLog.FaithfulFollows | src/tracker/base.rs:368-374 | If half: a faithful tick keeps the log at the state |
| SparseLog.CleanPayloadIsFaithful | src/tracker/diff.rs:193-222 | Distinct named users at strictly increasing record times are faithful |
| SparseWitnesses.FirstTickIsARun | src/tracker/base.rs:305-446 | The hypotheses of the refinement can be met: a first tick from empty tables, and the answers before and after it |
| SparseWitnesses.UserAtTwoRanksIsLost | src/tracker/diff.rs:193-222 | A payload with one user at two ranks makes log and state part |
| SparseWitnesses.SameInstantIsLost | src/db/query/batch.rs:506-513 | A score that changes within one second is not inserted although the state moves on |
| SparseWitnesses.TwoRanksLand | src/tracker/diff.rs:193-222 | A tick with one user at two ranks does land |
| SparseWitnesses.SameInstantLands | src/db/query/batch.rs:506-513 | A tick whose only row meets a conflict does land |
| SparseLog.TimeIdsFollowTime | src/db/query/web.rs:781-787 | With a clock that does not go back, time ids and timestamps have one order in every reachable time table |
| SparseLog.TidyAct | src/tracker/base.rs:287-299 | Ticks, heartbeats, chapter passes and refreshes keep the time table in order |
| SparseLog.ActKeeps | src/tracker/base.rs:305-446 | Each act keeps log, state and dense history together, whichever exit it takes |
| SparseLog.FetchLines | src/db/query/lines.rs:133-142 | One line per requested rank that has a row, in order of first request |
| SparseLog.LinesAreDense | src/db/query/lines.rs:36-111 | The lines are those of the dense history: same ranks, same scores |
| RestartLog.WrittenOrAnswered | src/tracker/diff.rs:45-84 | Once some rows of a clean payload have landed, the log answers the whole payload if and only if it answered the other rows already |
| RestartLog.RestartIsExact | src/tracker/base.rs:172-180 | A tick that goes on from any loaded state, however old, leaves a log that answers its clean payload if and only if the log already answered the rows that state takes for unchanged |
| ChapterLog.ChapterTickIsExact | src/db/query/batch.rs:521-640 | Once a chapter's clean payload landed, its log, read by rank, answers all of it if and only if it answered the rows whose users are remembered at the same rank and score already |
| ChapterLog.ChapterRefinesExactly | src/db/query/web.rs:627-742 | Under the same condition, and only then, the chapter's log refines the history with the payload added, for all ranks and cutoffs |
| ChapterLog.ChapterLogIsDense | src/db/query/web.rs:627-742 | Over runs with any failures whose landed payloads meet it, the chapter's latest-before-cutoff query returns, in one row, what the last landed payload at or before the cutoff that contained the rank said of it |
| ChapterLog.ChapterLanding | src/db/query/batch.rs:560-640 | Pre-diff and diff together land in the chapter's part of the table exactly the rows that are not remembered |
| ChapterLog.SaneStays | src/tracker/base.rs:305-446 | Every act keeps memo, chapter states and tables of a chapter fitting together |
| AbsentUser.AbsentUserIsLost | src/db/query/batch.rs:560-600 | A user who leaves its rank to another for a tick and comes back with its old score is not written again: the log keeps answering the other |
| AbsentUser.StaysRemembered | src/db/query/batch.rs:636-638 | A user that a landed payload does not list stays remembered as it was |
| AbsentUser.ReturningUserIsARun | src/db/query/batch.rs:560-600 | A run from empty tables, with clean payloads, after which that has happened |
| SparseChanges.EveryRowIsAChange | src/tracker/diff.rs:45-84 | Minimality: each stored row differs from what the landed payloads said of its rank up to the second before |
| WorldBloomExact.PreDiffIsExact | src/tracker/base.rs:325-339 | Runs with and without the pre-diff match step by step: same inserted rows, time ids, states, memos and user keys, failures included |
| WorldBloomExact.MemoAlwaysHolds | src/tracker/base.rs:71-74 | The memo agrees with the user table in every reachable state |
| WorldBloomExact.Filtered | src/tracker/diff.rs:224-260 | The rows that the filter drops are rows the diff would have found unchanged |
| WorldBloomExact.Simulate | src/db/query/batch.rs:544-638 | Either way of building the rows can do what the other does, on success, on a failed upsert and on a failed transaction |
| BorderSkip.SkipIsExactWhen | src/tracker/diff.rs:86-103 | Skipping the merge changes nothing if and only if the state holds every border row the merge would add |
| BorderSkip.SkipIsSound | src/tracker/base.rs:472-488 | On runs where each merged payload's hash was stored, a skipped merge would have found the same changed rows |
| BorderSkip.StepKeeps | src/tracker/cache.rs:33-61 | The state holds the border whose hash is stored |
| BorderSkip.SkipAfterChapterFailureIff | src/tracker/base.rs:376-437 | After a World Bloom failure that follows a merged main insert the old hash remains, so the old border may be skipped when it comes back; the skip is then exact if and only if no row it would add says otherwise than the failed tick's payload |
| BorderSkip.ChapterFailureBreaksTheSkip | src/tracker/base.rs:432-437 | A run of three ticks from empty tables on which such a skip loses a change |
| L1Shard.EvictionIsFair | src/api/cache.rs:1557-1577 | Eviction drops expired entries and live ones that end strictly before every kept one, at most max(1, n/4), and exactly the quota when deadlines are distinct |
| L1Shard.TiesStay | src/api/cache.rs:1572-1576 | A full shard stays as it is exactly if more entries than the quota share the earliest deadline |
| L1Shard.ShardStaysBounded | src/api/cache.rs:1541-1548 | With distinct deadlines no insertion sequence takes a shard beyond max(2, max) |
| L1Shard.TiesOutgrow | src/api/cache.rs:1560-1577 | With all deadlines equal a full shard grows |
| L1Shard.Shard.EvictIfFull | src/api/cache.rs:1560-1577 | The eviction, against its specification |
| L1Shard.Shard.SelectNth | src/api/cache.rs:1573-1575 | The deadline at the quota's position in ascending order |
| L1Shard.Shard.Insert | src/api/cache.rs:1541-1548 | Evict, then store |
| L1Shard.Shard.Get | src/api/cache.rs:1528-1539 | A lookup answers only with the last value inserted under its key and before its deadline, and removes an expired entry |
| L1Shard.MaxPerShard | src/api/cache.rs:1480-1481 | The shard limit is the least that holds all entries, and at least one |
| Paging.SearchPage | src/db/query/web.rs:784-800 | A page is the first limit rows beyond the cursor; the surplus row becomes the next cursor |
| Paging.FollowCursors | src/db/query/web.rs:760-801 | Following the cursors ends and yields a fixed sequence |
| Paging.PagesAreExact | src/db/query/web.rs:1263-1278 | That sequence is exactly the rows at positions i with i mod (limit + 1) != limit, once each and in order |
| Paging.PagingIsCompleteIff | src/db/query/web.rs:794-800 | All rows are seen if and only if they fit one page |
| Paging.BeyondIsSuffix | src/db/query/web.rs:434-445 | Where a row's cursor keeps exactly the later rows, the page after it is a page of the suffix |
| Paging.PlainListingIsOrdered | src/db/query/web.rs:434-445 | The plain listing, ordered by time id and cut by timestamp, is strictly ordered by (timestamp, rank, user key), and the filter of a row's cursor keeps exactly the rows after it, in every reachable time table |
| Paging.FollowPlainListing | src/db/query/web.rs:781-800 | Following its cursors shows exactly the rows at positions i with i mod (limit + 1) != limit |
| Paging.LatestRowsAreListed | src/db/query/web.rs:514-625 | With the time filter alone the rank window's rows are the latest-before-cutoff rows of their ranks |
| Paging.WindowListingIsOrdered | src/db/query/web.rs:484-508 | The rank window, main or of a chapter and under any filter, is strictly ordered by (rank, user key), and the filter of a row's cursor keeps exactly the rows after it |
| Paging.FollowRankWindow | src/db/query/web.rs:784-800 | Following its cursors shows exactly the rows at positions i with i mod (limit + 1) != limit |
| Paging.UserListingIsOrdered | src/db/query/web.rs:1263-1268 | The user search is strictly ordered by user key and its cursor filter keeps exactly the rows after the cursor row |
| Paging.FollowUserSearch | src/db/query/web.rs:1263-1278 | Following its cursors shows exactly the rows at positions i with i mod (limit + 1) != limit |
| RoundMetrics.RecoveryRecordStartAt | src/api/handler/leaderboard/round_metrics.rs:247-273 | The time of the last rise out of a maximal flat run of at least two samples that began at least 300 s before, else of the first sample |
| RoundMetrics.RecoveryTest | src/api/handler/leaderboard/round_metrics.rs:254-270 | What the loop tests is that declarative condition |
| RoundMetrics.FindWindowBaselineIndex | src/api/handler/leaderboard/round_metrics.rs:224-238 | The end of the leading samples at or before the window start |
| RoundMetrics.CutIsBaseline | src/api/handler/leaderboard/round_metrics.rs:224-238 | On a sorted trace that is the last sample at or before the start, else the first |
| RoundMetrics.TrimKeepsBaseline | src/api/handler/leaderboard/round_metrics.rs:155-176 | Trimming to the last twelve hours does not move a nearer baseline |
| RoundMetrics.GainsAreNested | src/api/handler/leaderboard/round_metrics.rs:162-181 | On non-decreasing scores the gain is the telescoped sum and the twenty-minute gain is at most the hour's |
| RoundMetrics.GainTelescopes | src/api/handler/leaderboard/round_metrics.rs:166-172 | A gain is the sum of its steps |
| RoundMetrics.AverageIsBetween | src/api/handler/leaderboard/round_metrics.rs:133-148 | The average lies between the least and greatest of the averaged steps |
| RoundMetrics.SortIsStable | src/api/handler/leaderboard/round_metrics.rs:118 | Samples are put in order of their second, those of one second in trace order |
| RoundMetrics.ConversionsAgree | src/api/handler/leaderboard/round_metrics.rs:196-210 | The second and the millisecond conversion name the same second |
| RoundMetrics.PerHour | src/api/handler/leaderboard/round_metrics.rs:170-171 | The speed is the hourly rate rounded down; the elapsed time is positive |
| RoundMetrics.RankInfo.ApplyTraceMetrics | src/api/handler/leaderboard/round_metrics.rs:108-181 | Which fields are set, from which samples, with baselines of the whole trace, and which are left alone |
| RoundMetrics.RankInfo.ApplyWindows | src/api/handler/leaderboard/round_metrics.rs:150-181 | Hour and twenty-minute metrics, unless fewer than two samples survive the trim |
| RoundMetrics.RankInfo.ApplyPoints | src/api/handler/leaderboard/round_metrics.rs:130-148 | Latest and average points from the last ten positive steps |
| RoundMetrics.CountPositiveDeltas | src/api/handler/leaderboard/round_metrics.rs:240-245 | The number of positive steps |
| Lifecycle.Daemon.TrackRankingData | src/tracker/daemon.rs:110-157 | A tick takes the daemon where the specification says, with the passes it says |
| Lifecycle.Daemon.HandleTrackerMatch | src/tracker/daemon.rs:162-193 | Ended, aggregating, finalising and live ticks |
| Lifecycle.Daemon.HandleWorldBloom | src/tracker/daemon.rs:216-231 | Statuses are replaced only if they differ, then every chapter is looked at once |
| Lifecycle.Daemon.HandleChapter | src/tracker/daemon.rs:233-277 | An ended chapter that is not done gets its final pass and is done |
| Lifecycle.Daemon.Init | src/tracker/daemon.rs:82-105 | A failed initialisation changes nothing, a successful one installs a new instance |
| Lifecycle.BaseTracker.SetWorldBloomStatuses | src/tracker/base.rs:133-149 | Finalised chapters stay finalised while listed |
| Lifecycle.BaseTracker.Record | src/tracker/base.rs:282-285 | Nothing is recorded once ended |
| LifecycleRuns.EventIdNeverDecreases | src/tracker/daemon.rs:123-140 | With agreeing reads the tracked event id never decreases |
| LifecycleRuns.IdFallsExactlyIf | src/tracker/daemon.rs:123-140 | The id falls in a tick exactly if a switch finds an older event on its second read |
| LifecycleRuns.EndedIsAbsorbing | src/tracker/daemon.rs:162-180 | Ended is absorbing and nothing, no heartbeat either, is recorded for an ended event |
| LifecycleRuns.FinalPassIsLast | src/tracker/daemon.rs:195-214 | At most one final pass per event, and no recording after it |
| ChapterRuns.ChapterFinalIff | src/tracker/daemon.rs:216-277 | A tick makes a chapter's final pass if and only if its working instance has the event and has not ended, the event is World Bloom in play, the chapter is listed as ended, and the replaced statuses do not have it done |
| ChapterRuns.ForgottenIff | src/tracker/base.rs:133-149 | A done chapter stops being done on the same instance if and only if such a tick replaces the statuses by ones without it |
| ChapterRuns.FinalisedIff | src/tracker/daemon.rs:233-277 | Over all runs with agreeing reads: a chapter that is not done is finalised if and only if a tick before the end lists it as ended |
| ChapterRuns.FinalisedAgainIff | src/tracker/daemon.rs:233-277 | A done chapter is finalised again if and only if a tick in play does not list it and a later one, before the end, lists it as ended |
| ChapterRuns.FinalisedTwiceFromStartIff | src/tracker/daemon.rs:216-277 | From any daemon yet to reach the event: a chapter is finalised more than once if and only if the run lists it as ended, not at all, and as ended again, in this order, while the event is in play |
| ChapterRuns.DoneStayListed | src/tracker/base.rs:133-149 | Only listed chapters are ever down as done |
| ChapterRuns.ListedChapterFinalOnce | src/tracker/daemon.rs:250-274 | A chapter that every tick in play lists gets at most one final pass |
| ChapterRuns.UnlistedChapterFinalTwice | src/tracker/base.rs:133-149 | A run of three ticks with two final passes of a chapter |
| LifecycleRuns.TickPasses | src/tracker/daemon.rs:110-157 | All passes of a tick are for the instance it works on; a final pass is the only one of its tick and ends the event |
| RealtimeHub.CountsAreExact | src/api/realtime.rs:69-105 | Over any interleaving the total is the number of open connections, each topic count the number registered, with no call pending the number holding it; no zero entries |
| RealtimeHub.NeverSaturates | src/api/realtime.rs:91-105 | A removal always finds its entry and never saturates; the total never goes below zero |
| RealtimeHub.StepKeeps | src/api/ws.rs:139-199 | Opening, subscribing, unsubscribing, closing and each pending hub call keep the counts exact |
| RealtimeHub.CountsStep | src/api/ws.rs:304-362 | A hub call moves the count of its topic by one and no other |
| RealtimeHub.Hub.AddTopicSubscription | src/api/realtime.rs:80-89 | The count of the topic goes up by one |
| RealtimeHub.Hub.RemoveTopicSubscription | src/api/realtime.rs:91-105 | The count goes down and an empty entry is removed |
| RealtimeHub.Hub.ConnectionClosed | src/api/realtime.rs:73-78 | The total goes down at once, the topics one by one |
| RealtimeHub.Hub.ConnectionOpened | src/api/realtime.rs:69-71 | The total goes up |

## Left out

- Static (replay) cache entries: they bypass epoch and dirty by design and claim no coherence.
- Redis outages as faults of their own and expiry of the dirty mark: assumed away as stated above; a failed read, fetch or write of a request is modelled.
- Time-to-live values: entries and local controls may expire at any step instead of after a set time.
- Answers' wall-clock fields (fetch time, age, window bounds): not functions of the rows.
- JSON encoding, SHA-256, gzip internals, shard hashing: uninterpreted, with only the laws stated.
- SQL text, dialects, migrations and drivers: tables are keyed rows, statements are atomic, and a transaction whose commit fails has no effect.
- i64 overflow and the 64-bit wrap-around of counters: integers are unbounded.
- Upper-case server names: keys are rendered for the lower-case form that all callers pass.
- Profile columns of user rows: represented by their stored digest.
- The status column of the time table and the reads of heartbeats.
- A restart within a run: runs start with empty tables and an empty state; the first tick after a restart, whatever state was loaded, is `RestartLog.RestartIsExact`.
- Chapter payloads that are not clean (a nameless row, a rank or user twice, a second payload of one instant): `ChapterLog` says nothing of them.
- A tracker without an API cache connection: it issues no commands; the rows and states are the same.
- Filters of the latest-before-cutoff queries other than the cutoff (score and lower time bounds, rank lists); for paging, any filter is allowed.
- Master-data parsing, remaining-time text, search and parameter clamping: the daemon takes any status as input.
- Semaphore limiter, WebSocket tickets, message routing and broadcast of counts.
- A socket task aborted while it waits for the hub's lock: connections run their close handling.
- CacheProtocol.State: one event of one server; other events have keys of their own (`CacheKeys.UnderIsInjective`).
- Lifecycle.Daemon.TrackRankingData: passes are recorded as events; what a pass does to the tables is `Tracker.EventTracker.RecordRankingData` and `RefreshAfterEnd`.
- L1Shard.Shard.SelectNth: a search for the deadline at the position; the in-place selection of the library is not modelled.
- RoundMetrics.SortIsStable: an insertion sort stands for the library's stable sort.
- WorldBloomExact.PreDiffIsExact: non-key user columns may differ, since a skipped row's profile is not refreshed.
