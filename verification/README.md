# A verified model of flex-templates

flex-templates is a Python template for Flet and FastAPI applications. This project models the parts of it that
hold state and make promises, and proves those promises for all inputs, all runs and all interleavings.

| file | models |
|---|---|
| `PongEngine.dfy`, `PongRally.dfy`, `PongTracker.dfy` | the Pong demo: its step function, whole rallies, and the controller that plays the right side |
| `Orm.dfy`, `Ledgers.dfy`, `Transactions.dfy` | the database session and the repository operations on it, the same operations on a bare table, and how one follows the other |
| `Scopes.dfy`, `Captures.dfy`, `Preview.dfy`, `Staging.dfy`, `UnitOfWork.dfy` | session scopes, proxied or not, the preview of a stage, and stage/confirm/cancel over a unit of work |
| `RateLimiter.dfy` | the sliding-window rate limiter, in its in-process and in its Redis form |
| `Rooms.dfy` | the WebSocket rooms, with broadcasts interleaved at every `await`, and the endpoint on top of them |
| `Navigation.dfy`, `UrlSync.dfy`, `Events.dfy` | the back and forward history, its synchronisation with the page's URL, and the event bus |
| `EnvFile.dfy`, `SecretVault.dfy` | the encrypted vault and the env file with its keys |
| `Paging.dfy`, `Routes.dfy`, `ResetTokens.dfy` | repository paging, parameterised routes, one-time password reset tokens |

`Wrappers.dfy` has the two shapes that stand for `None` and for raised exceptions, and `Collections.dfy` what several
modules need of numbers, sequences and sets. Objects that the program updates
in place are classes here; each of their methods is proved equal to a function of the old state, and the lemmas are
about those functions. `dafny verify dfyconfig.toml` checks everything.

## Main results

- **Pong.** The left side never scores against the controller, whatever the left player does, for every configuration
  whose paddle is fast enough, the default one included. Rallies end within floor(width / |dx|) + 1 steps, and between
  points the ball's height is a triangle wave in closed form.
- **Staging.** A stage followed by a confirmation commits exactly what the same repository operations would have
  committed one by one, association rows included, and succeeds exactly when they would and no operation needs the key
  or a unique value of a row whose deletion is not flushed yet. Over any sequence of stage, confirm and cancel with any
  failures, what is committed is the initial state plus the confirmed stages, in order, and every staged unit that stops
  being pending is closed exactly once. Repositories may send commits, rollbacks and closes to their proxied sessions:
  nothing comes of them.
- **Preview.** For every sequence of operations it is decided which changes a preview shows: of rows all changes that
  leave a row, and of the others those of the keys that rows had when they were deleted; of association rows none. A
  change of a row is shown unless an update moved the row under that very key away. Shown rows are committed as shown,
  created rows are listed as new and modified ones as modified, and it is decided which listed deletions take place.
- **Rate limiter.** The pruned list stands for the full log; no window ever holds more than `limit` admitted requests; the
  two forms decide alike.
- **Rooms.** Under every interleaving each broadcast attempts exactly the members its room had at the start, once each,
  what a connection says goes to its own room and nowhere else, and a message to all rooms goes once to each room of its
  snapshot.
- **Navigation.** The two stacks refine a list with a cursor, the URL feedback loop comes to rest exactly when the
  chain of view redirects ends, and a page at rest shows the service's URL.
- **Vault.** The disk always holds what was saved last, a fresh service restores it, and the env file round trip works for
  exactly the keys that are on one line with no space or quote at an end.
- **Tokens.** Each reset token yields at most one successful reset, before its expiry, for its owner only.

## Where the code does not keep a promise

Each of these is proved together with the exact condition under which the promise does hold, and with a case in which it
does not.

- A preview never lists the association rows that its confirmation inserts or deletes, such as the roles of a user that
  the user service stages: it is complete only if they stay as they are (`Preview.FullyCompleteIff`,
  `Preview.UserPreview`, `Preview.RoleIsMissed`).
- A preview does not show the old key of a row whose primary key an update changes (`Preview.PreviewIsExact`,
  `Preview.MoveIsMissed`), and it lists a row as deleted that stays when a row is deleted and then updated to the other
  one's key (`Preview.DeletionHoldsIff`, `Preview.DeletionsHoldIff`, `Preview.KeptRowIsListedAsDeleted`).
- A link that is pending while an update moves one of its rows moves along in one transaction, and stays behind one by
  one (`Staging.StageAndConfirmIsOneByOne`, `Ledgers.MovedLinkDiffers`).
- Deleting a row and creating another one with the same unique value works one by one but not in one stage
  (`Transactions.StagedIsSequential`, `Transactions.ReplacementIsBlocked`).
- The vault's two-key description says that the confirmation key is needed to persist changes; the code persists them
  without one and only refuses a wrong one (`SecretVault.SaveNeedsNoConfirmation`, `SecretVault.UnconfirmedSave`). The
  model follows the code.
- A first-run unlock that fails leaves the vault open (`SecretVault.FailedUnlockOpens`, `SecretVault.FailedFirstRun`).
- A bootstrap that fails may leave an env file whose keys are not the vault's (`SecretVault.BootstrapOutcome`,
  `SecretVault.HalfBootstrap`).
- A publish skips a subscriber when an earlier one unsubscribes during it (`Events.PublishReachesAll`,
  `Events.SubscriberIsSkipped`), and does not end when one subscribes itself at every call (`Events.NeverEnds`).
- An endpoint that ends by anything else than a disconnect leaves its connection in the room, until a broadcast there
  fails on it (`Rooms.EndpointLeavesIffDisconnected`, `Rooms.CrashLeavesMember`).
- With a window that is not positive and a limit of 0, the two forms of the rate limiter disagree on every request
  (`RateLimiter.FormsAgree`, `RateLimiter.FormsDiffer`); with repeated timestamps the Redis form is more lenient
  (`RateLimiter.RedisIsMoreLenient`, `RateLimiter.RepeatedTimesDiffer`).
- A page whose route is set to the empty string at the root keeps the empty route (`UrlSync.BlankStep`,
  `UrlSync.StartsBlank`).
- Going back and then forward by the same number of steps can overshoot (`Navigation.BackThenForward`,
  `Navigation.Overshoots`).

## Assumptions

- SQLAlchemy's session is the specification in `Orm.dfy`: an identity map, new, modified and deleted objects, no
  autoflush, flushed writes visible to the session only, and a commit that flushes first. A flush sends inserts and
  updates before deletions; an insert onto the key of a row deleted in the same flush replaces that row. It raises when
  a statement meets a primary key or a unique value that is taken at that moment. Every other constraint can make a
  stage or a commit fail. A session after a rollback or a close behaves like a new one. Appending to a relationship
  marks both objects as modified; the flush inserts the association row unless it is there, and deletes the association
  rows of every row it deletes.
- A query without an ORDER BY returns the rows of a table in the same order every time.
- SQLite ignores a negative OFFSET or LIMIT, and other databases refuse it.
- Fernet and JSON are an abstract pair with decrypt(encrypt(d, k), k) = d. Whether a key is usable does not depend on
  the data.
- A Redis pipeline is executed as one, on the application's clock. Timestamps are not negative.
- `page.go` sets the route at once and queues one notification, which reads the route when it is handled.
- Hashing a reset token is injective.
- Regular expressions are matched by backtracking, longest group first; `$` also accepts one final line break.

## Model

| member | source | states |
|---|---|---|
| PongEngine.Engine.Advance | games/engine.py:23-28 | the stored state becomes, and the call returns, the state after both paddles and then the ball have moved |
| PongEngine.PaddlesTravel | games/engine.py:30-44 | how far each paddle moves in the field: its speed or what is left, on its own keys only, and what holding both keys does |
| PongEngine.PlayfieldKept | games/engine.py:30-99 | one step keeps paddles and ball inside the field, conserves both speeds, turns the ball away from a wall it rests on, and does exactly one of: fly on, one paddle contact, one point with the ball recentred |
| PongEngine.OutcomeDecided | games/engine.py:54-90 | exactly when a step is a contact or a point for each side, by the overlap of paddle and ball intervals |
| PongEngine.PlayfieldAlways | games/engine.py:23-28 | the playfield invariant over all input sequences, with at most one point per step in total |
| PongEngine.DefaultIsCentred | games/contracts.py:17-37 | in the default state the ball is in the centre of the field and the paddles in the middle, and nobody has scored |
| PongEngine.StepCommutesWithMirror | games/engine.py:30-99 | turning the field upside down commutes with a step iff no paddle near an end has both keys down, and no point is scored or the ball has no size |
| PongEngine.RallyCommutesWithMirror | games/engine.py:23-28 | until a point is scored, mirrored input leads to the mirrored state over whole runs |
| PongRally.RallyBound | games/engine.py:46-90 | a contact or a point comes within floor(width / abs(dx)) + 1 steps whatever the inputs |
| PongRally.WaveStep | games/engine.py:54-57 | a step without a point moves the ball one phase along the triangle wave |
| PongRally.ClosedForm | games/engine.py:46-57 | between points the height after n steps is the triangle wave of (y0 + n dy) modulo twice the floor, and the sign of dy is given by the phase |
| PongRally.DefaultStaysOnWave | games/contracts.py:21-37 | with the default sizes and speeds a state on the wave leads to states on the wave, serves included |
| PongRally.DefaultAlwaysOnWave | games/contracts.py:21-37 | from the default state every state is on the wave, whatever the inputs |
| PongTracker.GapCloses | games/mock_neural_adapter.py:20-31 | one step of the controller brings the ball within the paddle's reach or closes in by the paddle's gain |
| PongTracker.ControllerMoves | games/mock_neural_adapter.py:20-31 | what one step with the controller does to the paddles: the right one rests iff the centres are within the dead zone or it is at the end on the ball's side, and otherwise moves towards the ball by its speed or what is left; the left one follows its own keys; without a state no key is pressed |
| PongTracker.ApproachStep | games/engine.py:69-90 | while the ball approaches, the left side does not score and the paddle stays in time |
| PongTracker.RecedeStep | games/engine.py:59-90 | when a receding ball turns round, by the left paddle or a serve, the paddle can still cross the field in time |
| PongTracker.NeverConcedes | games/mock_neural_adapter.py:20-31 | for every catchable configuration and every behaviour of the left player the left score never changes |
| PongTracker.DefaultNeverConcedes | games/contracts.py:21-37 | from the default state the left score is 0 after any number of steps |
| Orm.FlushKeepsCoherent | lib/database/uow.py:77-79 | a flush keeps the identity map, the objects and the visible rows consistent |
| Transactions.FetchIsSilent | lib/repositories/base.py:49-53 | loading an object changes nothing of what the session stands for |
| Ledgers.AssignSetsKnownColumns | lib/repositories/base.py:24-27 | an assignment sets the given columns the model knows, and no other |
| Ledgers.TableOpMeaning | lib/repositories/base.py:42-65 | key by key, what each plain operation does to a table and exactly when a primary key or a unique value makes it fail |
| Ledgers.CreateFailsIff | lib/repositories/base.py:42-47 | a create fails iff its key is taken or a row of its model has the same value in a unique column |
| Ledgers.UpdateFailsIff | lib/repositories/base.py:49-57 | an update fails iff its row is there and changes, and the new key or a unique value belongs to another row |
| Ledgers.NamesAreUnique | lib/models/user.py:27-28 | "alice" is created beside "bob", and may not take his name |
| Transactions.PerformRefines | lib/repositories/base.py:42-65 | each repository operation in a unit of work does to the table it stands for what the plain operation does, and raises exactly when that does or a deletion that is not flushed yet is in its way |
| Transactions.OneStatement | lib/repositories/base.py:42-57 | at every flush of a create or an update all other objects show their rows, so that at most one insert or update is sent |
| Transactions.StagedIsSequential | lib/core/interfaces.py:84-90 | any sequence of operations staged in one transaction leaves exactly the table of doing them one by one, and fails iff they would or one of them needs what a pending deletion still holds |
| Transactions.ReplacementIsBlocked | lib/models/user.py:27-28 | deleting "bob" and creating another "bob" works one by one and fails in one stage |
| Ledgers.FlushedDeletesUnblock | lib/repositories/base.py:59-65 | no operation is in the way of another if every deletion is flushed at once |
| Ledgers.LinksAfterAre | lib/repositories/user_repository.py:26-36 | one transaction leaves the association rows of the operations one by one, if it moves no row with a pending link |
| Ledgers.LinkOpMeaning | lib/repositories/user_repository.py:26-36 | link by link, what each plain operation does to the association rows |
| Ledgers.MovedLinkDiffers | lib/repositories/base.py:49-57 | a row moved while a link of it is pending: one transaction links the new key, one by one the old one stays linked |
| Scopes.ScopeCommits | lib/database/session.py:23-34 | a scope of its own around any body, commits and rollbacks among it: what was done since the last commit is committed at the end, or given up if something raises |
| Scopes.CommitKeepsObjects | lib/database/session.py:22 | a commit keeps the objects with their attributes, and committing again changes nothing |
| Scopes.ProxyLeavesTable | lib/database/uow.py:6-40 | whatever is sent to a proxied session, what is committed stays as it is and the session is as if commits, rollbacks and closes had not been sent |
| Scopes.ProxyPerformsAll | lib/database/uow.py:33-40 | a proxied run is a run of its operations in one transaction, and raises exactly when that does |
| Captures.FlushTracks | lib/database/uow.py:61-71 | what is captured before each flush accounts for every row the session has written |
| Captures.StageLists | lib/database/uow.py:61-71 | of a stage, new are exactly the objects that a create of the run added, modified those that an operation modified and that were not about to be deleted at the next flush, deleted those that a delete found |
| Captures.LoadedIsNotNew | lib/database/uow.py:63-65 | an object that is there at some point, and was not created until then, is never listed as new |
| Captures.MarkedIsPersistent | lib/database/uow.py:66-68 | whatever an operation modifies is persistent and not among the objects to be inserted |
| Captures.SilentLists | lib/database/uow.py:77-85 | without a create nothing is new, without an update or append nothing is modified, without a delete nothing is deleted |
| Preview.ShownRowsAreCommitted | lib/database/uow.py:77-85 | every row shown as new or modified and not deleted afterwards is committed with exactly the values shown |
| Preview.UncapturedIsUntouched | lib/database/uow.py:59-71 | an object that is in no pending list still shows its committed row, and the confirmation leaves that row alone |
| Preview.PreviewIsExact | lib/database/uow.py:59-85 | for every sequence of operations a key whose row changes is shown iff it still has a row or a row was under it when it was deleted |
| Preview.ChangeIsShown | lib/database/uow.py:77-85 | a key whose row changes is shown unless an update moved the row under that very key away |
| Preview.MovedKeyIsUnshown | lib/repositories/base.py:49-57 | a key that loses its row without a deletion and without another row moving there is not shown |
| Preview.DeletionHoldsIff | lib/database/uow.py:83-84 | a key shown as deleted, and for no object that is kept, has a row after the confirmation iff it had one before the stage and after each operation |
| Preview.DeletionHolds | lib/database/uow.py:83-84 | if no update moved a row to it, a key shown as deleted, and for no object that is kept, has no row after the confirmation |
| Preview.HeldIsLiveIffModified | lib/database/uow.py:63-71 | a key with a row all the time is shown for an object that is kept iff an operation modified it, and then as modified and not as new |
| Preview.CreatedIsShownAsNew | lib/database/uow.py:63-65 | a row that is committed under a key that had none, and to which no update moved a row, is shown as new |
| Preview.GoneIsDeleted | lib/database/uow.py:83-84 | a committed row that goes, and that no update moved away, is shown as deleted |
| Preview.DeletionsHoldIff | lib/database/uow.py:77-85 | the deletions that a preview lists take place iff every key listed as deleted that has a row all the time was modified |
| Preview.CompleteIffErased | lib/database/uow.py:77-85 | a preview misses no row iff every committed key that ends without a row had one when it was deleted |
| Preview.PreviewIsComplete | lib/database/uow.py:59-85 | if no update changes a primary key, every changed key is shown, and every key shown only as deleted is gone afterwards |
| Preview.SingleUpdatePreview | lib/repositories/base.py:49-57 | the preview of one update of a committed row is complete iff the update leaves the primary key alone |
| Preview.LinksAreNeverShown | lib/database/uow.py:77-85 | which association rows a confirmation changes, and that no preview lists one |
| Preview.FullyCompleteIff | lib/database/uow.py:59-85 | a preview lists all changes, association rows included, iff every committed key that ends without a row had one when it was deleted and the operations leave the association rows as they are |
| Preview.AppendsAreMissed | lib/services/user_service.py:116-121 | without deletions and moves a preview is complete iff no append adds a link |
| Preview.UserPreview | lib/services/user_service.py:98-123 | the preview of a staged user is complete iff none of the given roles exists |
| Preview.RoleIsMissed | lib/services/user_service.py:116-121 | a user staged with the one role there is: the link is committed and not listed |
| Preview.MoveIsMissed | lib/repositories/base.py:54-55 | moving the row "a" to "b": the preview does not mention "a" |
| Preview.KeptRowIsListedAsDeleted | lib/repositories/base.py:49-65 | deleting "a" and then updating it to the key "b": the preview lists "b" as deleted, and it stays |
| Staging.CommitAppliesStage | lib/core/interfaces.py:95-97 | committing a staged unit applies exactly its operations, to the rows and to the association rows |
| Staging.HandleKeepsInvariant | lib/core/interfaces.py:79-108 | every request keeps: what is committed is the replayed log, each confirmation follows the stage it names, and the closed units are the staged ones no longer pending |
| Staging.EveryRequestIsLogged | lib/core/interfaces.py:79-110 | what comes of every request: staged, failed, confirmed, cancelled, nothing pending, or a rollback that raised |
| Staging.StagingRuns | lib/core/interfaces.py:79-108 | over all runs what is committed is the initial state plus the confirmed stages in order, and units are closed exactly once |
| Staging.OnlyConfirmChangesTable | lib/database/uow.py:16-40 | only a confirmation changes what is committed: nothing a stage does reaches it before, commits on its proxied sessions included |
| Staging.FailedStageIsNeverClosed | lib/core/interfaces.py:84-89 | a stage that fails leaves nothing pending and its unit is never closed |
| Staging.StageAndConfirmIsOneByOne | lib/database/session.py:24-34 | staging and confirming commits the rows that the same operations commit each in a session of its own, and the association rows too if no row moves with a link pending; the stage succeeds iff they do and no pending deletion is in the way |
| Staging.FlushedDeletionsStageAlike | lib/database/session.py:22-34 | operations that flush their deletions at once succeed in one stage iff they succeed one by one |
| UnitOfWork.Collect | lib/database/uow.py:63-71 | the pending list gains each object of the session's set once and keeps its order |
| UnitOfWork.UnitOfWork.Capture | lib/database/uow.py:61-71 | the pending lists gain the new, modified and deleted objects, each once |
| UnitOfWork.UnitOfWork.Flush | lib/database/uow.py:77-79 | captures and then writes everything pending, or raises for a violated key |
| UnitOfWork.UnitOfWork.Perform | lib/repositories/base.py:42-65 | one create, update, delete or get on the bound session, with its flush |
| UnitOfWork.UnitOfWork.Append | lib/services/user_service.py:118-121 | both objects are loaded, and linked if both are there |
| UnitOfWork.UnitOfWork.Stage | lib/database/uow.py:77-85 | flushes and lists the captured objects with their current attributes |
| UnitOfWork.StageTells | lib/database/uow.py:77-85 | in terms of tables: under created the committed row of each key that gets its first row by a create, under modified that of each row that was modified, under deleted id and type of each row that was deleted; and nothing of a kind that was not asked for |
| UnitOfWork.OneOperationListing | lib/database/uow.py:80-84 | the listing of one create, update or delete is that row under its own heading, and nothing under the other two |
| UnitOfWork.UnitOfWork.Commit | lib/database/uow.py:87-90 | rows and association rows change to the flushed state exactly on success |
| UnitOfWork.UnitOfWork.Rollback | lib/database/uow.py:92-94 | an empty session with the pending lists kept; a rollback that raises leaves the unit as it was |
| UnitOfWork.UnitOfWork.Close | lib/database/uow.py:96-98 | one more close, and the session lets go of its objects |
| UnitOfWork.SessionProxy.Send | lib/database/uow.py:6-29 | what concerns rows reaches the session, and a commit, rollback or close does nothing |
| UnitOfWork.StagingService.RunImpl | lib/core/interfaces.py:74-77 | the commands in order on a proxied session, ending with the first that raises |
| UnitOfWork.StagingService.Settle | lib/core/interfaces.py:95-103 | commit or, after an exception, rollback; one close in any case, and nothing stays pending |
| UnitOfWork.StagingService.Stage | lib/core/interfaces.py:79-90 | follows the stage transition; a pending unit is rolled back and closed once first; what it shows lists created, modified and deleted rows under their own names |
| UnitOfWork.StagingService.Confirm | lib/core/interfaces.py:92-103 | follows the confirm transition; the unit is closed once whether or not the commit succeeds |
| UnitOfWork.StagingService.Cancel | lib/core/interfaces.py:105-110 | follows the cancel transition and is idempotent |
| RateLimiter.Limiter.CheckLocal | lib/api/rate_limiter.py:55-63 | the client's list becomes what is inside the window plus this request; admitted iff it is not longer than the limit |
| RateLimiter.RedisLimiter.CheckRedis | lib/api/rate_limiter.py:42-53 | the sorted set after add, eviction by score and expiry; admitted iff it is not larger than the limit |
| RateLimiter.PrunedIsWindow | lib/api/rate_limiter.py:55-61 | for a nondecreasing clock the pruned list is the full log restricted to the last window |
| RateLimiter.DecisionIsWindowCount | lib/api/rate_limiter.py:55-63 | admitted iff fewer than `limit` earlier attempts of the client fall inside the window |
| RateLimiter.NeverOverLimit | lib/api/rate_limiter.py:55-63 | at every instant at most `limit` requests of a client were admitted in the window ending there |
| RateLimiter.ClientsAreIndependent | lib/api/rate_limiter.py:57-61 | a client's list depends on its own requests only |
| RateLimiter.SilentClientIsAdmitted | lib/api/rate_limiter.py:55-63 | with a limit of at least 1 a client silent for a whole window is admitted |
| RateLimiter.ScoresAreHeld | lib/api/rate_limiter.py:42-51 | the sorted set holds exactly the listed times, and whole-key expiry only forgets what eviction would remove |
| RateLimiter.FormsAgree | lib/api/rate_limiter.py:42-63 | for strictly increasing times both forms decide alike iff the window is positive or the limit is not 0 |
| RateLimiter.RedisIsMoreLenient | lib/api/rate_limiter.py:42-63 | with repeated times the Redis form never rejects what the local form admits; they differ iff the limit lies between the distinct times and all times in the window, or the window is not positive and the limit is 0 |
| RateLimiter.FormsDiffer | lib/api/rate_limiter.py:42-63 | one request under a limit and a window of 0: refused by the local form, admitted by the Redis form |
| RateLimiter.RepeatedTimesDiffer | lib/api/rate_limiter.py:42-63 | two requests at one instant under a limit of 1: only the Redis form admits the second |
| Rooms.ConnectionManager.Connect | lib/api/websocket/manager.py:19-22 | the connection joins its room |
| Rooms.ConnectionManager.Disconnect | lib/api/websocket/manager.py:24-28 | the connection leaves, and the room goes with its last connection |
| Rooms.ConnectionManager.Recipients | lib/api/websocket/manager.py:34 | the snapshot lists every member once |
| Rooms.ConnectionManager.Prune | lib/api/websocket/manager.py:39-42 | exactly the failed connections leave, and a vanished room stays vanished |
| Rooms.ConnectionManager.RoomSize | lib/api/websocket/manager.py:53-55 | the number of members, 0 for an unknown room |
| Rooms.StepKeepsInvariant | lib/api/websocket/manager.py:19-42 | between any two atomic blocks no room is empty and every broadcast's progress matches what was attempted |
| Rooms.StepOnMembers | lib/api/websocket/manager.py:39-42 | what a block does to every room's members: the end of a broadcast removes exactly the connections that failed in it, from its own room, and creates none |
| Rooms.LeavesIffDropped | lib/api/websocket/manager.py:30-42 | while nobody connects or disconnects it, a member leaves its room iff a broadcast there ends in which its send failed |
| Rooms.DeliveryIsExact | lib/api/websocket/manager.py:30-38 | under every interleaving a finished broadcast has attempted each connection in its room at its start, once, and nobody else |
| Rooms.BroadcastAllReaches | lib/api/websocket/manager.py:44-47 | under every interleaving each room of the snapshot gets exactly one broadcast, in order, to exactly those who are in it when its turn comes |
| Rooms.ServingKeepsMembers | lib/api/routes/ws.py:60-79 | every event of the endpoints keeps: only connections whose endpoint serves them, or crashed, are in a room |
| Rooms.AnnouncingEffects | lib/api/routes/ws.py:60-79 | a joining, relaying or leaving endpoint starts a broadcast in its own room, to exactly those who are to hear of it, and waits for it |
| Rooms.QuietEffects | lib/api/routes/ws.py:63-76 | what every other event does to its endpoint, and that it leaves the rooms alone |
| Rooms.MessagesStayInTheirRoom | lib/api/routes/ws.py:73-79 | over every run, what a connection announces or relays is sent to nobody but those in its own room at that time, each once, and in the end to all of them |
| Rooms.OneAtATime | lib/api/routes/ws.py:60-76 | an endpoint receives its next frame only when the broadcast of its joining or last relaying has ended |
| Rooms.DepartedNeverReturns | lib/api/routes/ws.py:77-79 | over all runs a connection that hung up is in no room again |
| Rooms.EndpointLeavesIffDisconnected | lib/api/routes/ws.py:60-79 | an endpoint that ends has left its room iff it ended by a disconnect or its connection had been dropped already |
| Rooms.CrashedStaysUntilDropped | lib/api/websocket/manager.py:30-42 | over every run of the server the connection of a crashed endpoint stays in its room until a broadcast there fails on it, and no longer |
| Rooms.CrashLeavesMember | lib/api/routes/ws.py:63-76 | a run in which an endpoint crashes and its connection is still in the room |
| Navigation.NavigationService.Dispatch | lib/services/navigation_service.py:26-39 | what each message asks for, its defaults, an unknown action, and steps that are no number |
| Navigation.MessagesMove | lib/services/navigation_service.py:26-39 | what every message, by its action name and data, does to the history around its cursor |
| Navigation.NavigationService.Execute | lib/services/navigation_service.py:73-119 | each action's effect on the stacks, its success, the reported state and the published event |
| Navigation.ReportShowsHistory | lib/services/navigation_service.py:110-119 | the reported state is the reference history around its cursor |
| Navigation.EventsAreChanges | lib/services/navigation_service.py:73-108 | an event is published iff a visit, back or forward changes the history; a back or forward that changes nothing is refused |
| Navigation.NavigationService.GoBack | lib/services/navigation_service.py:86-88 | the top pages move one by one from the back to the forward stack |
| Navigation.NavigationService.GoForward | lib/services/navigation_service.py:95-97 | the top pages move one by one from the forward to the back stack |
| Navigation.StacksRefineHistory | lib/services/navigation_service.py:73-103 | the two stacks refine a list with a cursor: visit truncates and appends, back and forward move and stop at the ends, clear keeps one entry |
| Navigation.HistoryAlways | lib/services/navigation_service.py:63-103 | over all runs the history is the reference's, and no two adjacent URLs are equal |
| Navigation.BackThenForward | lib/services/navigation_service.py:82-98 | back n then forward n is the identity exactly when n pages can be gone back, or nothing is ahead, or n is below 1 |
| Navigation.Overshoots | lib/services/navigation_service.py:82-98 | back by two and forward by two from the second of three pages ends on the third |
| UrlSync.Shell.OnRouteChanged | lib/ui/adapter.py:32-38 | the page is driven only if it does not show the URL yet |
| UrlSync.Shell.Request | lib/services/navigation_service.py:105-108 | a request with the adapter's reaction to its event |
| UrlSync.Shell.RouteChange | lib/ui/router.py:68-89 | the handler reports the page's URL and builds the view, whose own requests follow |
| UrlSync.AgreesWhenQuiet | lib/ui/router.py:68-89 | for every mix of steps, a page with no queued notification agrees with the service |
| UrlSync.RouteIsCurrentWhenQuiet | lib/ui/router.py:74-85 | from a start that is not an empty route at the root, and if nobody sets one there, a quiet page's route is the current URL |
| UrlSync.NoEmptyUrl | lib/ui/router.py:74 | nobody sets one there if nobody ever sets the empty route |
| UrlSync.HandledRouteIsCurrent | lib/ui/router.py:68-89 | handling a notification makes the route the current URL iff there was no empty route at the root before, or the view navigates |
| UrlSync.BlankStep | lib/ui/router.py:74-85 | a step leaves an empty route at the root iff it sets one there, or there was one and the step neither navigates nor sets another URL |
| UrlSync.RouteIsCurrentIffRecovered | lib/ui/router.py:74-85 | over every run, a quiet page's route is the current URL iff every empty route set at the root was followed by such a step |
| UrlSync.StartsBlank | lib/ui/router.py:74 | started at the root with an empty route, the page is quiet after its first view and keeps the empty route |
| UrlSync.OwnNotificationIsNoOp | lib/ui/adapter.py:35-38 | the notification after a navigation leaves stacks and page alone, iff it did not lead to the empty URL |
| UrlSync.EnteredUrlIsVisited | lib/ui/router.py:68-85 | any URL that is entered queues a notification, by which the service visits it, or the root for an empty one |
| UrlSync.SettlesIfChainEnds | lib/ui/layouts/protected_view.py:21-28 | if the chain of redirects ends, the page comes to rest at its end |
| UrlSync.SettlesIffChainEnds | lib/ui/layouts/protected_view.py:21-28 | the loop comes to rest iff the chain of redirects ends |
| Events.EventBus.Subscribe | lib/core/events.py:35-36 | the callback is appended |
| Events.EventBus.Unsubscribe | lib/core/events.py:38-43 | the first occurrence is removed, and an unknown callback is ignored |
| Events.EventBus.Publish | lib/core/events.py:45-51 | the first n calls of the loop over the live list, whether it is over, and who is subscribed then; other events are untouched |
| Events.UnsubscribeUndoes | lib/core/events.py:35-43 | unsubscribing undoes the subscription of a new callback |
| Events.FirstIsRemoved | lib/core/events.py:38-43 | the first occurrence is taken out, and the others keep their order |
| Events.PublishReachesAll | lib/core/events.py:45-51 | if callbacks only unsubscribe, the loop ends, and everybody is called once and in order iff no subscriber but the last unsubscribes a subscriber |
| Events.SubscriberIsSkipped | lib/core/events.py:46 | the first of two subscribers unsubscribes itself, and the second is not called |
| Events.SubscribersJoinTheLoop | lib/core/events.py:45-51 | if callbacks only subscribe, whoever is subscribed in the end has been called once and in order, those that joined meanwhile too |
| Events.NeverEnds | lib/core/events.py:45-51 | a subscriber that subscribes itself at every call keeps the loop going for ever |
| EnvFile.ReadEnvFile | lib/security/vault_service.py:214-229 | the keys a text holds, the last line winning |
| EnvFile.WrittenLine | lib/security/vault_service.py:219-224 | a written line is parsed into its key and its stripped value, whatever '=' the value contains |
| EnvFile.LineHasKey | lib/security/vault_service.py:219-224 | white space around a key does not count, quotes around it do, and the value is all that follows the first '=' |
| EnvFile.LastLineWins | lib/security/vault_service.py:218-228 | each key has the value of its last line |
| EnvFile.NoLineNoValue | lib/security/vault_service.py:216-229 | a key without a line is empty |
| EnvFile.SilentLines | lib/security/vault_service.py:219-221 | comments and lines without '=' say nothing |
| EnvFile.QuotesComeOff | lib/security/vault_service.py:224 | of quotes around a value, double ones come off before single ones |
| EnvFile.WhiteSpace | lib/security/vault_service.py:219-224 | which characters are stripped as white space |
| EnvFile.AnyLineEnd | lib/security/vault_service.py:217-218 | lines may end as on any system |
| EnvFile.ReadAfterWrite | lib/security/vault_service.py:213-238 | reading what was written returns it iff both keys are on one line without a space or quote at either end |
| SecretVault.Disk.Save | lib/security/vault_store.py:27-41 | the file after a save and how the save ends |
| SecretVault.VaultService.constructor | lib/security/vault_service.py:21-39 | explicit keys win over the env file's, and the vault starts locked |
| SecretVault.KeysOfANewService | lib/security/vault_service.py:34-39 | a new service takes each key from its caller, or from the env file if the caller gives none, and is unlocked and saved by that key alone |
| SecretVault.VaultService.Unlock | lib/security/vault_service.py:82-107 | the unlock transition, first run included |
| SecretVault.VaultService.Get | lib/security/vault_service.py:109-118 | the secret, or a refusal |
| SecretVault.VaultService.Set | lib/security/vault_service.py:126-133 | the secret is set in memory only |
| SecretVault.VaultService.Delete | lib/security/vault_service.py:135-145 | the secret is removed in memory only |
| SecretVault.VaultService.Save | lib/security/vault_service.py:147-165 | the save transition |
| SecretVault.VaultService.Lock | lib/security/vault_service.py:167-169 | nothing stays in memory |
| SecretVault.VaultService.Bootstrap | lib/security/vault_service.py:182-209 | the bootstrap transition, which leaves the vault locked |
| SecretVault.DurabilityAlways | lib/security/vault_service.py:82-169 | over every undisturbed run the blob decrypts under the current master key to what was saved last |
| SecretVault.UnlockRestores | lib/security/vault_service.py:82-107 | an unlock succeeds iff the key matches and something was saved, and restores exactly that |
| SecretVault.SaveNeedsNoConfirmation | lib/security/vault_service.py:154-165 | a save persists the map iff the confirmation key is empty or right |
| SecretVault.UnconfirmedSave | lib/security/vault_service.py:154-165 | a vault with a confirmation key persists a new secret without being given that key |
| SecretVault.FailedUnlockOpens | lib/security/vault_service.py:93-99 | a failed unlock leaves a locked vault open iff it was a first run with the right key |
| SecretVault.FailedFirstRun | lib/security/vault_service.py:93-99 | a first run whose save cannot open the file is refused and leaves the vault open |
| SecretVault.FaultySave | lib/security/vault_store.py:32-41 | what a save leaves when the file cannot be written, and that an interrupted write loses the secrets |
| SecretVault.FaultyFirstRun | lib/security/vault_service.py:93-99 | what a first unlock leaves on disk, and how it ends, for every fault |
| SecretVault.BootstrapOutcome | lib/security/vault_service.py:189-206 | when a bootstrap succeeds, and what it leaves in memory and in both files otherwise |
| SecretVault.HalfBootstrap | lib/security/vault_service.py:196-202 | a bootstrap that cannot write its blob leaves an env file by which no later service can unlock the old vault |
| SecretVault.EditsAreMapEdits | lib/security/vault_service.py:109-145 | an unlocked vault is a map in memory: what is set is found, what is deleted is not, other secrets and the disk are left alone |
| SecretVault.EmptyKeysAreRefused | lib/security/vault_service.py:109-145 | an empty key is refused, even if a secret is stored under it |
| SecretVault.LockedRefuses | lib/security/vault_service.py:109-169 | a locked vault refuses every access and changes nothing for it |
| SecretVault.BootstrapThenReopen | lib/security/vault_service.py:189-206 | after a bootstrap a fresh service unlocks to an empty map, and a second bootstrap is refused and changes nothing |
| SecretVault.ReopeningRestores | lib/security/vault_service.py:34-39 | after any undisturbed run a fresh service with empty keys restores what was saved last |
| SecretVault.SetAll | lib/config/cli.py:22-23 | all given secrets are overlaid in memory, unless one has an empty key |
| SecretVault.ScriptsUnlock | lib/config/cli.py:20-21 | what a script reads is what unlocking a new service by its own key restores |
| SecretVault.EncryptToVault | lib/config/cli.py:14-24 | on success reopening yields the old map overridden by the new one, and when it succeeds; a failure leaves the blob alone unless the write itself fails, which tears it |
| Paging.Paginate | lib/repositories/base.py:79-92 | the page of the rows satisfying all filters, with its metadata, or the error, for every page number and size |
| Paging.MatchingMembers | lib/repositories/base.py:81-82 | the matching rows are the rows satisfying every filter, each as often as in the table |
| Paging.MatchingRows | lib/repositories/base.py:81-82 | row by row, the next match is the next row with the required value in every filtered column: in table order, none missed, none twice |
| Paging.OneMoreFilter | lib/repositories/base.py:81-82 | narrowing a query filter by filter is filtering by all of them |
| Paging.PagesIsLeast | lib/repositories/base.py:91 | `pages` is the least number of pages that hold all rows |
| Paging.PagesPartition | lib/repositories/base.py:83-92 | the pages give every matching row once and in order; all but the last are full, and those beyond are empty |
| Paging.OutOfRange | lib/repositories/base.py:84 | where negative numbers are ignored, a page below the first is the first one and a negative size gives all rows |
| Paging.StrictRefuses | lib/repositories/base.py:84 | a strict database refuses exactly the pages below the first and negative sizes |
| Paging.PagesOfNegativeSize | lib/repositories/base.py:91 | for a negative size the number of pages is rounded down as well |
| Routes.Router.Register | lib/ui/router.py:43-51 | the compiled pattern is appended, unless a group name repeats or starts with a digit |
| Routes.Router.Resolve | lib/ui/router.py:99-116 | the first registered pattern that matches decides; otherwise the view of the path by convention or the fallback; whatever else raises shows the error view |
| Routes.ConventionalModule | lib/ui/router.py:136-141 | the path of some segments, with any number of slashes before and behind, stands for the module of the same segments |
| Routes.HomeModule | lib/ui/router.py:136-138 | the root stands for the home view, and more slashes for a module without a name |
| Routes.FallbackShows | lib/ui/router.py:107-116 | what is shown by convention: the module's view, the not-found view, or the error view |
| Routes.MatchIsInstance | lib/ui/router.py:102-105 | what a match returns fills the pattern to the path, up to one final line break |
| Routes.InstanceMatches | lib/ui/router.py:102-105 | every instance of a pattern is matched |
| Routes.FillThenMatch | lib/ui/router.py:49-50 | filling a whole-segment pattern and matching returns exactly the values |
| Routes.CompileThenPrint | lib/ui/router.py:49 | compiling a printed pattern gives the pattern back |
| Routes.PrintThenCompile | lib/ui/router.py:49 | printing a compiled pattern gives the pattern back, whatever it is |
| Routes.CompiledNames | lib/ui/router.py:49 | the groups of a compiled pattern have words as names |
| Routes.GroupsAreFound | lib/ui/router.py:49 | every group of a pattern is found, whatever is before and behind it |
| Routes.GroupNames | lib/ui/router.py:49-50 | the characters of group names, and those that may not come first |
| Routes.RouteRoundTrip | lib/ui/router.py:102-105 | a registered pattern filled with values yields those values, each under the name of the group it fills |
| ResetTokens.ResetService.Request | lib/services/user_service.py:192-225 | the request transition: a token for a known email, stored before its mail is sent, nothing for an unknown one |
| ResetTokens.ResetService.Reset | lib/services/user_service.py:227-246 | the reset transition: the token is marked as used before anything that can fail |
| ResetTokens.RequestAnswers | lib/services/user_service.py:192-225 | what a request answers and stores: an unknown email is answered like a known one, and nothing is stored for it |
| ResetTokens.ResetAnswers | lib/services/user_service.py:227-246 | what a reset answers and changes, row by row, and which of several errors comes first |
| ResetTokens.FreshTokenWorks | lib/repositories/password_reset_token_repository.py:14-48 | after any run an issued token resets its own user's password, and no other, iff it has not expired and no reset of the run has used it |
| ResetTokens.SpentForever | lib/repositories/password_reset_token_repository.py:26-57 | a used token never becomes valid again |
| ResetTokens.AtMostOnce | lib/services/user_service.py:227-246 | each token yields at most one successful reset in any run |
| ResetTokens.SuccessIsAuthorised | lib/repositories/password_reset_token_repository.py:14-48 | a successful reset goes back to a request with that token, precedes its expiry, and changes only its owner's password |
| ResetTokens.FailedResets | lib/services/user_service.py:234-238 | a missing new password does not consume the token; a failure after marking does |

## Left out

- Rounding of Pong's floating-point numbers: positions are reals; with the default configuration all reachable values are small whole numbers.
- An association row appended twice before a flush, which violates its primary key, and what the database does with the association rows of a row that gets another primary key; both can make a stage fail.
- The columns of a row that replaces one deleted in the same flush under the same key: the database only updates those that were set, while the model replaces the row.
- Unique constraints over several columns, foreign keys, and the order of flushes with several inserts or updates, which do not occur here.
- Other writers between a stage and its confirmation, concurrent calls of one service, and a `close` that raises.
- Stage implementations that catch a repository's exception and go on.
- The order of the preview's lists: a session's sets have no order that the code relies on.
- Files edited by others while the vault is in use, and file path resolution.
- What callbacks do to the subscribers of other events while one is published.
- Views, layouts, HTTP routers and adapters, e-mail, the scheduler, migrations, settings and the registries of connections and caches.
- Token checks before a WebSocket is accepted, JWT and bcrypt internals, concurrent resets, `authenticate` and `find_for_auth`.
- Filter operators other than equality, and serialisation hooks.
- Routes.Router.Register: does not cover letters outside ASCII in group names and literal characters with a meaning in regular expressions, because those make the pattern a regular expression of its own.
- Query strings.
- `remove_role`; `add_role` is an append in a scope of its own, without its answer.
- Switching the rate limiter between its two forms during a run.
