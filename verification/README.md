# Collaborative blackboard: a verified model

The blackboard server keeps each room's board, version counter, action history, snapshot cache and
last snapshot time in Redis; many goroutines act on them at once, one Redis command at a time. A hub
keeps the connected clients and one Pub/Sub subscriber per non-empty room. This project models both
and proves what survives every interleaving, and where something does not survive, exactly when.

Four kinds of file:

- **State machines.** `RoomMachine` is one room with any number of goroutines running
  `handleClientAction`, `generateSnapshot` and `GetSnapshotForClient`, whose steps interleave with
  worker deliveries, cache writes and expiries, clock ticks, command failures and room cleanups.
  `HubMachine` is the hub with its message loop, subscriber loops, client pumps and ping sweep. Their
  `Step` is total (an event that is not enabled changes nothing) and a run is any sequence of events, so
  a theorem about `Run(es)`, or about every `Reachable` state, is about every interleaving. An epoch of
  a room is what happens between two cleanups. A few fields only record what happened and never decide a
  step; those that appear as hypotheses are `overlapped` (two generations ran at the same time), `unwritten`
  (the snapshots whose cache write failed), `slack` (the trims that failed since the last that ran), `unclean`
  (the rooms where a loop died by itself, StopAll removed an entry, or the room reopened before its stopped
  loops ended) and `contended` (the rooms ever subscribed beside a live loop).
- **Classes in the source's form.** `RedisStateRepository`, `CollaborationService`, `SnapshotService`,
  `SnapshotCheckHandler`, `ActionPersistenceHandler`, `Database`, `Limiter`, `Client`, `Hub`, `ActionRow`
  and `SnapshotRow` have the source's methods with its branches and error returns. Their contracts state
  the whole new state; `CallIsSchedule`, `GenerationIsSchedule`, `QueryIsSchedule`, `DeliveryIsStep`,
  `RegisterIsTwoSteps` and `UnregisterIsTwoSteps` say that an undisturbed call is a stretch of a run.
- **Both machines together.** `ClientView` joins a room and a hub that agree on the room's publications,
  and says when a client that got a snapshot and then its messages shows the live board. `JointRun` makes
  them one machine, in which the room's publications are the hub's, and says it over one run.
- **Pure parts.** Replay and last-writer-wins (`Board`), the key formats (`Decimal`, `Domain`, `Keys`),
  snapshot pacing (`Pacing`) and JSON (`Json`, `JsonRoundTrip`, `Codec`, `Decoding`).

Every remote command may fail, and a failed command may or may not have been executed (`Reply`), but not
twice. Clock readings, failures, deliveries and the choice of the next step are parameters or events.

Where code and documentation disagree, the model follows the code:

- `README.md` of the repository calls the persistence of actions reliable; a failed enqueue is only
  logged (`internal/hub/hub.go:483-486`). `RowsCompleteExactly` and `RowsRestoreBoardExactly` say when the
  rows are complete and when they give the board; `LostEnqueueLosesTheDraw` is a run that loses a draw.
- Each action makes two increments (`internal/service/collaboration.go:81` and `:91`), so versions are
  strictly increasing but not consecutive.
- The recorded type of an action is the client's, while the script uses the one its colour implies
  (`internal/infra/state/redis/state_repository.go:376-384`); `RecordedTypes` says when that matters and
  `TypesDisagree` is a run where it does.
- Comments promise one subscription per non-empty room; a loop that ends late deletes its successor's
  entry (`internal/hub/hub.go:583-585`). `ReopeningIsSafeExactly` says when that can happen, and
  `OrphanHappens` is a run where it does.

## Model

| member | source | states |
|---|---|---|
| BoardSafety.LiveBoard | internal/infra/state/redis/state_repository.go:34-52 | In every reachable state the script's versions are strictly increasing in application order, the counter equals the increments since the cleanup, and the live board is both the replay of the applied actions and the last-version-wins board of that set. |
| BoardSafety.CollectedByVersion | internal/service/collaboration.go:81-139 | Whoever collects the epoch's actions in any order, with repeats, and replays them by version obtains the live board, however pushes and publishes were reordered. |
| BoardSafety.CellShowsLatest | internal/infra/state/redis/state_repository.go:371-402 | Cell (x, y) shows the colour of the highest-versioned action at (x, y), or nothing if that one erased or none came. |
| BoardSafety.BoardShowsCells | internal/infra/state/redis/state_repository.go:371-402 | Read field by field, each split at its ':' and both parts parsed, the hash shows a colour at (x, y) if and only if that is the non-empty colour of the highest-versioned action at (x, y). |
| BoardSafety.OneFieldPerCell | internal/infra/state/redis/state_repository.go:371-402 | No two fields of the live hash stand for the same cell. |
| BoardSafety.RecordedTypes | internal/service/collaboration.go:91-112 | Replaying the recorded actions by their recorded type gives the live board if and only if each cell's last action has the type its colour implies. |
| BoardSafety.TypesDisagree | internal/service/collaboration.go:91-112 | A run in which an erase sent with a colour draws on the live board while its record says erase. |
| BoardSafety.StepKeeps | internal/service/collaboration.go:55-139 | Every step of every goroutine, tick and cleanup keeps the board, counter and log invariant. |
| Provenance.AppliedWasSent | internal/service/collaboration.go:55-112 | Every action in a log of a run is the message one goroutine was started with: that user's, of that type and with that data, under the room's number; its script ran later in the run and found the counter one below the action's version. |
| Board.SortedReplayIsLww | internal/infra/state/redis/state_repository.go:42-49 | A replay in version order, repeats included, yields on each cell the effect of the highest version and leaves untouched cells absent. |
| Board.LwwUnique | internal/infra/state/redis/state_repository.go:42-49 | Last-version-wins determines the board: two boards that satisfy it for one set of actions are equal. |
| Board.SortedListingsAgree | internal/infra/persistence/gorm/action_repository.go:68-79 | Any two version-sorted listings of the same actions replay to one board. |
| Board.SameAfter | internal/infra/state/redis/state_repository.go:42-49 | Two boards agree after the same actions if and only if they agree on every cell those actions leave alone. |
| Board.OverlapAbsorbed | internal/infra/state/redis/state_repository.go:42-49 | Replaying again from any earlier point than the one reached changes nothing. |
| Board.ByTypeAgreesIff | internal/infra/state/redis/state_repository.go:111-131 | ApplyActionToState's replay equals the script's if and only if on each cell the last action's type agrees with its colour. |
| Snapshots.SavedSnapshotMeans | internal/service/snapshot.go:167-199 | A saved snapshot's board is the replay of a prefix of one epoch's log; with no cleanup between the two reads its version covers that prefix, and it never exceeds the live counter of its epoch. |
| Snapshots.CatchUpWithOverlap | internal/service/snapshot.go:171-189 | From a snapshot's board, replaying every action applied since any point at or before its board read gives the live board. |
| Snapshots.CatchUpByVersion | internal/service/snapshot.go:171-189 | Replaying only the actions above the snapshot's version gives the live board if and only if each cell is written by such an action or was left unchanged by the actions between the two reads. |
| Snapshots.TornSnapshot | internal/service/snapshot.go:171-189 | A run whose snapshot carries a draw's version but not the draw, so that catching up by version misses it. |
| Snapshots.AboveIsSuffix | internal/infra/state/redis/state_repository.go:134-148 | The actions above the version read are exactly the log's suffix applied after that read. |
| OldEpochs.CleanupForgets | internal/infra/state/redis/state_repository.go:349-369 | A cleanup leaves nothing of the room in Redis, begins an empty epoch, and keeps what goroutines, queue and tables have. |
| OldEpochs.AheadExactly | internal/hub/hub.go:255-265 | A saved snapshot's version exceeds the live counter if and only if it was read before the last room cleanup and the increments since then are fewer than that version. |
| OldEpochs.ServedAheadExactly | internal/service/snapshot.go:43-128 | And so for whatever a client is served, from the cache or the table. |
| OldEpochs.AsksForAllExactly | internal/infra/state/redis/state_repository.go:349-369 | The actions above a version are the whole live log if and only if its first action is above it, and none of it if the version is not below the counter. |
| OldEpochs.OldSnapshotHidesTheDraw | internal/infra/state/redis/state_repository.go:349-369 | A run in which, after a cleanup, a client is served an older epoch's snapshot ahead of the counter, no live action is above it, and its board is not the live one. |
| SavedOrder.VersionsFollowTime | internal/service/snapshot.go:186-199 | With non-overlapping generations and a clock that does not go back, saved rows are in CreatedAt order and their versions never go down within an epoch. |
| SavedOrder.LatestHasHighestVersion | internal/infra/persistence/gorm/snap_repository.go:35-38 | With distinct times the row picked by created_at DESC is the last saved and has the highest version saved in its epoch. |
| Cache.ServesOnlySaved | internal/service/snapshot.go:43-128 | In every interleaving the cache holds, and a client is served, only a snapshot already saved for the room. |
| Cache.EmptyWasNone | internal/service/snapshot.go:72-84 | For a client that got the empty version-0 board the run has the one event that gave it to that client: a database query that succeeded when no snapshot of the room had been saved yet. |
| Cache.QuietCacheIsLatest | internal/service/snapshot.go:202-211 | If no cache write failed, they ran in CreatedAt order and none is pending, a present entry is GetLatestSnapshot's answer. |
| Cache.LatestIsNewest | internal/infra/persistence/gorm/snap_repository.go:30-51 | The row picked is the first saved of the newest ones. |
| Persistence.EveryActionAccounted | internal/hub/hub.go:464-489 | Every applied action is still carried by its goroutine, queued, saved, or lost to a named failure, once its goroutine finished it is no longer carried, and no row was invented. |
| Persistence.SettledStays | internal/worker/handler.go:52-65 | No delivery, retry or archival of any task makes a settled action unaccounted for. |
| Persistence.LostWasFailure | internal/worker/handler.go:52-65 | For every lost action the run has one event before which it was not lost and after which it was, and that event is a script that ran with its answer lost, the failed enqueue of that action, or the archiving of its task, retried 25 times, with no row inserted. |
| Persistence.CompletedLostWasFailure | internal/hub/hub.go:464-489 | An action that completed the pipeline and is lost was lost by its failed enqueue or by the archiving of its task; after a lost script answer no goroutine ever carries or completes it. |
| Persistence.ArchivedAtThe26th | internal/worker/handler.go:38-66 | The task of an enqueued action survives 25 failed deliveries with nothing lost; the 26th archives it, and with no row inserted the action is lost. |
| Persistence.DeliveryIsStep | internal/worker/handler.go:28-66 | A delivery takes its task off the queue with the row in the table if the insert was answered; otherwise the task stays for another of its 26 tries or is archived, and the row may be there all the same; no other task is touched. |
| Persistence.DrainedEpochRestores | internal/infra/persistence/gorm/action_repository.go:29-45 | When nothing of an epoch is carried, queued or lost, its rows are exactly its applied actions, and sorted by version, duplicates included, they replay to the epoch's board. |
| PersistenceExact.RowsRestoreBoardExactly | internal/worker/handler.go:52-65 | An epoch's rows sorted by version, duplicates included, replay to the epoch's board if and only if on each cell the newest row has the effect of the cell's final action, or there is no row and the final action erased. |
| PersistenceExact.RowsCompleteExactly | internal/hub/hub.go:464-489 | When nothing of an epoch is carried or queued, the actions missing from its rows are exactly the lost ones, so the rows are complete if and only if none was lost. |
| PersistenceExact.StepExclusive | internal/hub/hub.go:464-489 | Every step keeps each action in one place: carried by one goroutine, in one task, and never lost while carried, queued or saved. |
| Persistence.SavedRowsRestoreBoard | internal/worker/handler.go:52-65 | In particular it is enough that each cell's final action was saved. |
| Persistence.LostEnqueueLosesTheDraw | internal/hub/hub.go:483-486 | A run in which a published draw reaches no row because its enqueue failed, so the rows do not give the board. |
| History.HistoryIsSuffix | internal/infra/state/redis/state_repository.go:207-222 | Entry by entry, the history list is the newest pushes of the epoch in order: all of them or at least 100, and at most 100 plus the trims still owed. |
| History.RecentActions | internal/infra/state/redis/state_repository.go:185-204 | A read with limit n answers the newest min(n, length) pushes, entry by entry, and n is 100 for a limit of 0 or less; with no trim owed the list's length is min(100, pushes). |
| Domain.FieldKeyInjective | internal/infra/state/redis/state_repository.go:374 | The field of a cell determines both integers, negative ones included. |
| Domain.FieldNamesCell | internal/infra/state/redis/state_repository.go:374 | For all 64-bit x and y the text before the field's ':' parses as x and the text after it as y, and as no other cell. |
| Keys.RoomKeyInjective | internal/infra/state/redis/state_repository.go:69-95 | Under one prefix no two rooms and no two kinds of data share a key. |
| Keys.RoomKeyText | internal/infra/state/redis/state_repository.go:69-95 | A key is the prefix, the word room, the room's number in base ten and the literal name of its kind. |
| Keys.PutWrites | internal/infra/state/redis/state_repository.go:69-95 | Writing one key changes that part of that room, and no key of any other room. |
| Keys.DropWrites | internal/infra/state/redis/state_repository.go:349-369 | Deleting some kinds of one room empties exactly those and touches no key of any other room. |
| Decimal.ParseIntOfFormat | internal/infra/state/redis/state_repository.go:322-338 | Parsing a formatted integer gives it back if it lies between -2^63 and 2^63 - 1 and fails otherwise. |
| Decimal.ParseIntExactly | internal/infra/state/redis/state_repository.go:322-338 | A text parses exactly if it is an optional sign and digits whose positional value in base ten fits 64 bits, and then as that value. |
| RedisStateRepository.RedisStateRepository.GetBoardState | internal/infra/state/redis/state_repository.go:100-108 | An answered read returns the room's board, an absent key being the empty board. |
| RedisStateRepository.RedisStateRepository.GetCurrentVersion | internal/infra/state/redis/state_repository.go:134-148 | An answered read returns the counter, an absent key being 0; a failed one, or one whose answer does not parse, is an error. |
| RedisStateRepository.RedisStateRepository.IncrementVersion | internal/infra/state/redis/state_repository.go:151-159 | Adds one to the room's counter if executed and returns the new value if answered; other rooms are unchanged. |
| RedisStateRepository.RedisStateRepository.RunApplyAndIncr | internal/infra/state/redis/state_repository.go:34-52 | The script sets or deletes one field and increments the counter, as one step. |
| RedisStateRepository.RedisStateRepository.ApplyActionDataAndIncrementVersionAtomically | internal/infra/state/redis/state_repository.go:371-402 | A colour is stored under the cell's field and an empty one deletes that field, whatever the caller's type; the answer is the new version. |
| RedisStateRepository.RedisStateRepository.ApplyActionToState | internal/infra/state/redis/state_repository.go:111-131 | The recorded type decides; other types do nothing; data that does not parse is an error before any command. |
| RedisStateRepository.RedisStateRepository.PushActionToHistory | internal/infra/state/redis/state_repository.go:207-222 | If only the push ran the list is one longer; if the trim ran too it is the last 100 of that; otherwise it is the old one. |
| RedisStateRepository.RedisStateRepository.IncrementOpCount | internal/infra/state/redis/state_repository.go:162-172 | Adds one to the room's operation counter if executed, and touches nothing else. |
| RedisStateRepository.RedisStateRepository.ResetOpCount | internal/infra/state/redis/state_repository.go:175-182 | Sets it to 0 if executed. |
| RedisStateRepository.RedisStateRepository.GetRecentActions | internal/infra/state/redis/state_repository.go:185-204 | The answer lists in order exactly those of the newest min(limit, length) entries whose text decodes, a limit of 0 or less meaning 100. |
| RedisStateRepository.RedisStateRepository.GetSnapshotCache | internal/infra/state/redis/state_repository.go:225-240 | Tells a cached snapshot, a missing one and a failed read, an undecodable one included, apart. |
| RedisStateRepository.RedisStateRepository.SetSnapshotCache | internal/infra/state/redis/state_repository.go:243-257 | Replaces the room's cache slot if executed. |
| RedisStateRepository.RedisStateRepository.PublishAction | internal/infra/state/redis/state_repository.go:282-302 | Appends the action to the room's own channel if executed. |
| RedisStateRepository.RedisStateRepository.GetLastSnapshotTime | internal/infra/state/redis/state_repository.go:307-332 | A missing time, or one that does not parse, reads as the zero time, and any other as that many seconds. |
| RedisStateRepository.RedisStateRepository.SetLastSnapshotTime | internal/infra/state/redis/state_repository.go:335-347 | Stores the time's Unix seconds in decimal. |
| RedisStateRepository.RedisStateRepository.CleanupRoomState | internal/infra/state/redis/state_repository.go:349-369 | Empties the whole room in one command and no other room. |
| RedisStateRepository.StoredTimeRoundTrip | internal/infra/state/redis/state_repository.go:307-347 | A stored time reads back floored to the second. |
| Collaboration.CollaborationService.ProcessIncomingAction | internal/service/collaboration.go:55-139 | Invalid input changes nothing; a failed increment or script aborts after its effect; later failures do not stop the action; the answered action has the room's number, the sender, the type and the data of the message and the version two above the counter before the call; it is published on the room's channel, and other rooms are unchanged. |
| Collaboration.ProcessMeans | internal/service/collaboration.go:55-139 | The verdict, the answered action field by field, and the room's counter, board and history after the call, each in terms of the message and of which commands ran. |
| Collaboration.CallIsSchedule | internal/service/collaboration.go:55-139 | An undisturbed call is a stretch of a run of the room machine with the same data, verdict and publication. |
| Pacing.SnapshotsSpaced | internal/service/snapshot.go:225-239 | With the stored time floored and checks that do not overlap, successive snapshots are more than 59 s apart, more than 4:59 with at most 100 actions since, more than 14:59 with at most 20. |
| Pacing.SpacingIsTight | internal/service/snapshot.go:225-239 | Two snapshots 59 s and 1 ns apart do occur. |
| Pacing.SpacingNeedsReadAndStore | internal/worker/snapshot_handler.go:75-100 | Neither hypothesis can be dropped: with the read or the store of the time failing once, two snapshots of an idle room are 1 ns apart. |
| Pacing.DecidedInTime | internal/worker/snapshot_handler.go:65-106 | With checks at most P apart the next decision comes within 15 minutes and P, within 5 minutes and P if every check counts more than 20 actions, and within one minute and P if more than 100. |
| Pacing.FailuresKeepTime | internal/service/snapshot.go:155-159 | Over any stretch of checks that do not snapshot, failed ones included, the stored time stays what it was. |
| Pacing.DueUntilDone | internal/service/snapshot.go:155-163 | A due snapshot that could not be generated is decided again at every later check until it succeeds. |
| Pacing.ExpiryNeverDecides | internal/worker/snapshot_handler.go:95-97 | The seven-day expiry of the stored time never changes a decision. |
| SnapshotService.SnapshotService.GetSnapshotForClient | internal/service/snapshot.go:43-128 | A readable cache entry is answered; otherwise the newest row, whose cache write is started; otherwise the empty board, exactly when the room has no row; a failed query or a row whose state does not parse is an error. |
| SnapshotService.SnapshotService.GenerateSnapshot | internal/service/snapshot.go:167-221 | The row saved has the room's live board, or the empty one if the board read failed, the live counter as version, and the given room and time; a failed version read saves nothing; a success starts the row's cache write and resets the operation counter. |
| SnapshotService.SnapshotService.RunPending | internal/service/snapshot.go:203-211 | An asynchronous cache write fills the slot of the snapshot's own room, which still holds only saved rows. |
| SnapshotService.SnapshotService.CheckAndGenerateSnapshot | internal/service/snapshot.go:133-164 | Generates exactly when no time is given or a minute has passed and more than 100 rows were counted, 5 minutes and more than 20, or 15 minutes; moves the time only on success. |
| SnapshotService.SnapshotCheckHandler.CheckRoom | internal/worker/snapshot_handler.go:67-105 | The stored time moves exactly as the pacing rule says, a due check saves the room's board at the room's version and starts its cache write, and nothing else of any room changes. |
| SnapshotService.CheckedMeans | internal/worker/snapshot_handler.go:67-105 | What CheckRoom's outcome comes to in full: when it is due, whether it fails, the row it saves, the cache write it starts, and the time it stores, cut to whole seconds. |
| SnapshotService.SnapshotCheckHandler.ProcessTask | internal/worker/snapshot_handler.go:42-123 | Every active room is checked once against its data before the task: its stored time, its row and its cache write are those of that check, the failed rooms are exactly the errors collected, and other rooms are untouched. |
| SnapshotSchedules.GenerationIsSchedule | internal/service/snapshot.go:167-221 | An undisturbed generation is a stretch of a run of the room machine that saves the same row, starts the same cache write and leaves Redis alone. |
| SnapshotSchedules.QueryIsSchedule | internal/service/snapshot.go:43-128 | So is an undisturbed GetSnapshotForClient: it is answered from the cache, else with the first of the newest rows, whose cache write it starts, else with the empty board, and a failed query is refused. |
| SnapshotSchedules.WriteIsStep | internal/service/snapshot.go:203-211 | So is a pending cache write. |
| SnapshotSchedules.StaleCache | internal/service/snapshot.go:43-60 | A run in which a client is served a cached snapshot a second older than the newest row. |
| SnapshotSchedules.ExpiryServesNewest | internal/service/snapshot.go:62-128 | In any run, once the cache entry expired an undisturbed query is served the first of the newest rows. |
| Database.LatestOfRoom | internal/infra/persistence/gorm/snap_repository.go:30-51 | The query finds the first of the room's newest rows, and nothing exactly when the room has none. |
| Database.LatestAgrees | internal/infra/persistence/gorm/snap_repository.go:35-38 | On one room's rows it is the query of the room machine. |
| Database.Database.GetCountSince | internal/infra/persistence/gorm/action_repository.go:48-66 | Answers the number of table positions that hold a row of this room created after the time, or any row of this room for the zero time. |
| Database.CountAfterRow | internal/infra/persistence/gorm/action_repository.go:48-66 | Appending a row adds one to the counts of its own room from an earlier time and changes no other room's count. |
| Database.Database.SaveBatch | internal/infra/persistence/gorm/action_repository.go:29-45 | The batch's rows are appended in order with the clock's time if the insert ran, which a failed one may have; an empty batch is not sent. |
| Database.ActionPersistenceHandler.ProcessTask | internal/worker/handler.go:28-66 | A task is done only with its row in the table; a failed save is retried, an unreadable payload never. |
| RateLimit.AtMostMaxPerWindow | internal/middleware/ratelimit.go:40-75 | Every half-open interval of one window's length admits at most maxRequests. |
| RateLimit.ChainAdmitsFirst | internal/middleware/ratelimit.go:40-75 | In a maximal chain of requests less than a window apart exactly the first maxRequests are admitted. |
| RateLimit.Limiter.Handle | internal/middleware/ratelimit.go:28-75 | The middleware's decision is the trace rule's, an unanswered command being an error. |
| RateLimit.Limiter.CheckRateLimit | internal/infra/state/redis/state_repository.go:260-279 | The repository method makes the same decisions. |
| Membership.OnlyLiveMembers | internal/hub/hub.go:139-242 | In every run no room entry is empty, a client is only under its own room and with an open channel, and every client a broadcast still has to try is known and has an open channel. |
| Membership.ClosedOnce | internal/hub/hub.go:217-242 | In a whole run at most one unregistration of a client reaches its channel, whatever duplicates come, so the close branch is taken at most once, and the channel is closed exactly when it was taken. |
| Membership.RetiringFindsOpen | internal/hub/hub.go:222-227 | The unregistration that reaches the channel finds it open. |
| Membership.GoneStaysGone | internal/hub/hub.go:202-242 | A client once unregistered is never a member again. |
| Membership.LeftOpenStaysOpen | internal/hub/hub.go:222-227 | A channel left open by its client's unregistration stays open in every later state. |
| Membership.LeavingDecides | internal/hub/hub.go:222-227 | The unregistration that reaches a client's channel decides for good: in every later state the channel is open if and only if a message was waiting in it at that moment. |
| Membership.LeftOpenHappens | internal/hub/hub.go:222-227 | A run that leaves a channel open so: the client leaves with its snapshot still queued. |
| Membership.PanicsExactlyOnLateReply | internal/hub/hub.go:367-457 | Of all operations on the clients' channels, a step's panics if and only if it sends an initial snapshot or error text to a client whose channel was closed. |
| Membership.PanicsExactlyOnClosed | internal/hub/hub.go:367-457 | In any state of the hub a step panics on a client's channel exactly if it is a reply to, or a broadcast to, a client whose channel is closed. |
| Membership.LateReplyHappens | internal/hub/hub.go:198 | A run in which that happens: the client leaves before its snapshot was fetched. |
| Membership.StepKeeps | internal/hub/hub.go:139-242 | Every step of the hub, its clients, loops and sweep keeps the membership invariant. |
| Subscription.SubscribedRoomsAreLive | internal/hub/hub.go:498-545 | At message boundaries a subscribed room has a client, and its entry cancels a started, uncancelled loop that has not done its final delete. |
| Subscription.StartAlwaysStarts | internal/hub/hub.go:498-514 | startRoomSubscription never finds an old entry. |
| Subscription.CleanRoomsAreExact | internal/hub/hub.go:164-199 | In a room where no loop died by itself, StopAll removed no entry and each stopped loop ended before the room reopened, the room is subscribed exactly when it has clients, with exactly one uncancelled loop, its entry, and all others dead. |
| Subscription.LateDeleteOrphans | internal/hub/hub.go:583-585 | Any older loop of the room that is exiting, or cancelled and not dead, sending ones included, can go on by loop steps alone to a final delete that leaves a room with clients and an uncancelled live loop that no entry can cancel. |
| Subscription.ReopeningIsSafeExactly | internal/hub/hub.go:562-587 | In any run, whatever loops are broadcasting, the new subscription survives every further sequence of loop steps in which no loop dies by itself if and only if no earlier loop of the room is exiting, or cancelled and not yet dead. |
| Subscription.CleanRoomLingers | internal/hub/hub.go:562-587 | In a clean room that condition is that all earlier loops are dead. |
| Subscription.OrphanHappens | internal/hub/hub.go:583-585 | A run that ends with a client, a live uncancelled loop, and no entry for their room. |
| Subscription.FirstExactlyInNewRoom | internal/hub/hub.go:178-187 | The one-client test is true exactly when the room had no entry. |
| Hearing.HearsOnlyLater | internal/hub/hub.go:548-600 | In any run a subscriber loop hears only messages published after its subscription. |
| Hearing.HearsInOrder | internal/hub/hub.go:589-600 | And it never hears one twice, or an older one after a newer one. |
| Delivery.OnlyOwnRoomsActions | internal/hub/hub.go:610-625 | A buffer holds at most 256 messages, and every action message a client was sent is a publication of its own room by another user. |
| DeliveryCount.EveryMessageAccounted | internal/hub/hub.go:616-621 | For a registered client, the eligible messages received by its room's loops since it registered are those written, queued, dropped on a full buffer, and in a loop's hands. |
| DeliveryCount.EveryPublicationHandled | internal/hub/hub.go:610-625 | And each single one of them, by its position, is written or queued, or was dropped, or is in a loop's hands. |
| DeliveryCount.DropsOnlyWhenFull | internal/hub/hub.go:617-621 | A message is dropped for a client only by a broadcast that finds 256 messages in its buffer, and then nothing of the channel changes. |
| DeliveryOrder.DeliveredInOrder | internal/hub/hub.go:589-626 | With one live loop per room, what entered any client's buffer, gone clients included, is a subsequence of its room's publications, and what it was written or holds is all of that, or for a gone client all but the one message its unregistration may have taken. |
| DeliveryOrder.TwoLoopsDeliverTwice | internal/hub/hub.go:589-626 | With a second live loop a client can get the next publication twice. |
| DeliveryOrder.TwoLoopsHappen | internal/hub/hub.go:589-626 | A run in which a client gets its room's first publication twice. |
| DeliveryExact.InOrderExactly | internal/hub/hub.go:589-626 | In any run, of everything that can still happen before another loop starts, nothing brings a registered client a publication twice or out of order if and only if at most one loop of its room is live. |
| ClientView.ViewIsLiveExactly | internal/hub/hub.go:368-423 | Whatever actions of the epoch a client received, and whatever its snapshot, what it shows is the live board if and only if on each cell the newest received action has the final action's effect, or none was received and the snapshot has it, and the snapshot is empty on untouched cells. |
| ClientView.CaughtUpExactly | internal/hub/hub.go:589-626 | If every action above the snapshot's version was published, received by a loop after the client registered, by another user, not dropped and in no loop's hands, the client shows the live board if and only if each cell is written by such an action or was unchanged between the snapshot's two reads. |
| ClientView.ReceivedWasApplied | internal/service/collaboration.go:129-136 | Whatever a client receives was applied to its room. |
| ClientView.ReachedWasReceived | internal/hub/hub.go:610-625 | An action that a loop received after the client registered, that was not dropped for it while no loop is about to offer it a message, the client has received. |
| ClientView.LateClientMissesTheDraw | internal/hub/hub.go:198 | A run in which the snapshot is older than a publication the client registered too late for, and the client does not show the live board. |
| JointRun.Projects | internal/service/collaboration.go:129-136 | A joint run is a run of the room on its own events, and a run of the hub whose publications of that room are the room's own, in order. |
| JointRun.NeverOwnAction | internal/hub/hub.go:610-625 | In a joint run, whatever a client of the room is sent is the message of an earlier reception by another user, with that message's type and data. |
| JointRun.CaughtUpOverRun | internal/hub/hub.go:589-626 | Over one joint run: a client registered before the snapshot's board read shows the live board exactly under that condition, if since its registration the room's loops skipped no publication and each action above the version was published, by another user, not dropped and is in no loop's hands. |
| CleanupSweep.FailedClientsAreRemoved | internal/hub/hub.go:293-365 | After a sweep and an emptied queue, a client that failed its ping is registered only if its unregistration found the queue full. |
| CleanupSweep.FailedPingLeadsOut | internal/hub/hub.go:319-365 | From a failed ping to the end of its sweep and an emptied queue, the client is out unless its unregistration was dropped. |
| CleanupSweep.SweepPingsEveryone | internal/hub/hub.go:298-344 | A sweep queues nothing before it has pinged every client that was registered at its scan. |
| CleanupSweep.DroppedOnlyWhenFull | internal/hub/hub.go:353-360 | An unregistration of the sweep is dropped only when 512 messages are waiting. |
| CleanupSweep.QueuesOnlyFailed | internal/hub/hub.go:319-360 | Whenever the sweep queues an unregistration, its client was registered when this sweep began, and this sweep saw its ping fail and no ping of it succeed. |
| CleanupSweep.SweepRemovesOnlyFailed | internal/hub/hub.go:319-360 | Every sweep message waiting in the queue was queued so. |
| CleanupSweep.UnqueuedClientsRemain | internal/hub/hub.go:349-360 | A client whose unregistration was dropped stays registered whatever the hub processes. |
| CleanupSweep.DropHappens | internal/hub/hub.go:353-360 | A run in which 512 messages are waiting, the sweep's unregistration is dropped, and the client whose ping failed is still registered when the queue is empty. |
| RoomHub.Hub.RegisterClient | internal/hub/hub.go:164-199 | Adds the client to its room and nothing else, and for the room's first client starts and enters a loop unless there is an entry. |
| RoomHub.Hub.UnregisterClient | internal/hub/hub.go:202-268 | Removes the client, takes the oldest queued message or else closes the channel, and for the last client drops the room, cancels and removes its subscription and asks for cleanup; an unknown client changes nothing. |
| RoomHub.Hub.StartRoomSubscription | internal/hub/hub.go:498-514 | An existing entry is left alone; otherwise a loop is started and entered. |
| RoomHub.Hub.StopRoomSubscription | internal/hub/hub.go:517-531 | Cancels the entry's loop and removes the entry; a missing one is no error. |
| RoomHub.Hub.StopAllSubscriptions | internal/hub/hub.go:534-545 | Cancels exactly the loops that have an entry, empties the map and counts them. |
| RoomHub.Hub.ExitLoop | internal/hub/hub.go:573-587 | A loop's last act removes its room's entry, whoever put it there. |
| RoomHub.Hub.Broadcast | internal/hub/hub.go:612-625 | Every other client of the room is offered the message once, the sender's clients are left alone. |
| RoomHub.Hub.QueueMessage | internal/hub/hub.go:635-648 | Queues the message, or answers false when 512 are waiting. |
| RoomHub.Hub.ReadPump | internal/hub/client.go:43-106 | The text messages before the first read error, counted by position, are queued as far as there is room among 512, others are skipped, and then the unregistration is queued if there is still room. |
| RoomHub.TextsAreCounted | internal/hub/client.go:76-101 | The number offered is the number of positions that hold a text message with no read error at or before them. |
| RoomHub.Hub.GetActiveRoomIDs | internal/hub/hub.go:653-662 | Lists exactly the non-empty rooms, each once. |
| RoomHub.Hub.AllClients | internal/hub/hub.go:298-306 | Lists exactly the registered clients, each once. |
| RoomHub.Hub.PerformClientCleanup | internal/hub/hub.go:293-365 | Exactly the registered clients whose ping failed are offered to the queue, each once. |
| RoomHub.EnqueueAllFits | internal/hub/hub.go:349-355 | Of the offered unregistrations exactly the ones that fit are queued, in order. |
| RoomHub.Hub.ProcessNext | internal/hub/hub.go:139-156 | The oldest message is taken and handled to the end. |
| RoomHub.RegisterIsTwoSteps | internal/hub/hub.go:178-195 | A whole registerClient is the machine's two steps with nobody between them. |
| RoomHub.UnregisterIsTwoSteps | internal/hub/hub.go:217-249 | And so is unregisterClient. |
| Clients.Client.Offer | internal/hub/hub.go:617-621 | With 256 messages waiting the message is dropped, otherwise it is taken at the end. |
| Clients.Client.Pump | internal/hub/client.go:120-140 | The oldest message is written, or the pump stops at a closed empty channel; nothing is lost between buffer and output. |
| JsonRoundTrip.EscapeReads | internal/domain/action.go:47-65 | Every character is read back from its escape and nothing more is consumed (section 7 of RFC 8259). |
| JsonRoundTrip.EscapeText | internal/domain/action.go:55-67 | The letters of each character's escape (section 7 of RFC 8259), and that every other character stands for itself. |
| JsonRoundTrip.PairReads | internal/domain/action.go:47-51 | A character beyond the basic plane is also read back from its surrogate pair (section 7 of RFC 8259). |
| JsonRoundTrip.BlankSkipped | internal/domain/action.go:47-51 | The four blanks of section 2 of RFC 8259 may stand before a value, and no other control character. |
| JsonRoundTrip.DepthLimit | internal/domain/action.go:47-51 | Nesting is refused beyond 10000, the limit of the JSON library, and not before. |
| JsonRoundTrip.IntReads | internal/domain/action.go:47-65 | An integer's decimal text is a JSON number and is read back whole (section 6 of RFC 8259). |
| JsonRoundTrip.NumberIsNumber | internal/domain/action.go:47-51 | What the reader takes for a number matches the grammar of section 6 of RFC 8259, without leading zeros, and no character is lost. |
| JsonRoundTrip.ObjectReads | internal/domain/snapshot.go:29-51 | A flat object of strings and integers comes back member by member (section 4 of RFC 8259). |
| Codec.DrawRoundTrip | internal/domain/action.go:36-67 | For all coordinates and colours the decoder inverts the encoder, and the text is never empty or null. |
| Codec.DrawText | internal/domain/action.go:36-67 | The text is the object with members x, y and, unless empty, color, in this order and without blanks. |
| Decoding.DrawTexts | internal/domain/action.go:36-53 | A text is drawing data exactly if it is null or an object whose coordinates are null or 64-bit integers and whose colours are null or strings, names in any case; each field is what the last member of its name that is not null says, and other members count for nothing. |
| Codec.StateRoundTrip | internal/domain/snapshot.go:23-53 | For every board and every order of its keys the board comes back. |
| Decoding.StateTexts | internal/domain/snapshot.go:22-39 | A text is a board exactly if it is empty, null, or an object of strings and nulls; a cell has what the last member of its very name says. |
| Codec.ActionRow.SetData | internal/domain/action.go:55-67 | After SetData, ParseData answers the same drawing data, whatever the action type. |
| Codec.ActionRow.ParseData | internal/domain/action.go:36-53 | Missing data is an error for a draw or an erase, and the zero data for any other type. |
| Codec.SnapshotRow.SetState | internal/domain/snapshot.go:41-53 | After SetState, ParseState answers the same board, a nil one becoming empty. |

## Left out

- HTTP handlers, routing, CORS, configuration, logging and bootstrap: no state worth a proof.
- Registration, login, JWT and bcrypt: mostly foreign library calls.
- Room creation and invite codes: a bounded retry over a unique index.
- WebSocket frames, deadlines and pongs: a ping is an oracle, and a read error is the event `Leave`.
- GORM, MySQL and asynq inside: a list of rows, queries by room and time, a queue that delivers at least
  once and archives after 25 retries. A row's `created_at` has the model's clock precision, not MySQL's.
- Whether a WebSocket write succeeds: a message taken by the write pump counts as written, and a pump that
  stops is one that takes no more.
- The operation counter in the machines: the classes state its value, but nothing reads it to decide.
- Expiry inside a class: a key with a time to live may lapse between calls, which for the snapshot cache is the
  machine's event `ExpireCache`, for the stored time does not matter (`ExpiryNeverDecides`), and the operation
  counter decides nothing.
- Action ids, `Timestamp` and `CreatedAt` of actions: no modelled decision reads them on an action.
- The client's `basedOnVersion`: decoded and never used.
- Overflow of the 64-bit counters: versions are unbounded.
- Panics other than on the clients' channels, such as the WebSocket library's on concurrent writes: the ping
  sweep (`internal/hub/hub.go:329`) and the write pump use one connection.
- The JSON that carries whole actions and snapshots through Redis and the task queue: those values are
  kept typed; the texts inside their `Data` are modelled in `Codec`.
- Text that is not valid Unicode: strings are sequences of Unicode scalar values.
- The order in which json.Marshal lists map keys: `StateRoundTrip` holds for every order.
- sendInitialSnapshot and handleClientAction as methods: their sends are `HubMachine`'s event `Reply`,
  their calls and the enqueue are events of `RoomMachine`.
- Consecutive versions, history or publications in version order, and restoring the live board from the
  database: the code does not provide them.
- Several server processes: one hub and one set of loops per process; the Redis side has no such limit.
- Persistence.EveryActionAccounted: a command runs at most once per call; the Redis client is built with its library's default retries (`internal/infra/setup/config.go:60-64`), under which a script whose answer was lost may run twice, and the first run's action would be neither carried nor lost.
- RateLimit.ChainAdmitsFirst: for the same reason a retried INCR would count twice.
- ClientView.CaughtUpExactly: what a client does with its messages is not in this repository; the view replays them by version, and the client's own actions, which are not sent back, are not part of it.
- RateLimit.Limiter.Handle: INCR and EXPIRE are one step, and the window is a whole number of the time unit; the Redis client rounds windows below one second.
- SnapshotService.SnapshotService.GenerateSnapshot: says what an undisturbed generation does; the interleaved one is `Snapshots.SavedSnapshotMeans`.
- SnapshotService.SnapshotCheckHandler.ProcessTask: checks the rooms one after the other, where the source starts a goroutine for each; the rooms share no data but the table, so only the order of the new rows shows it.
- RoomHub.Hub.ReadPump: says what the pump queues while the hub takes nothing; the one-second wait for room at the end is `HubMachine`'s freedom to place `Leave` late.
- RoomHub.Hub.PerformClientCleanup: says what an undisturbed sweep does; the interleaved one is `CleanupSweep`.
- Pacing.SnapshotsSpaced: holds between cleanups, which forget the stored time, and for checks whose read and store succeed.
