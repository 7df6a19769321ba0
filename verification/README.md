# TicketLens, verified

A Dafny model of the parts of TicketLens where several operations have to agree with one another: protocols, shared
state, resumable procedures and fast forms of simple queries. Each part states what its operations do, shows that the
step-by-step code does exactly that, and proves properties over every input, every run or every interleaving.

`dafny verify dfyconfig.toml` checks the whole project.

## Parts

| files | component |
|---|---|
| `rooms`, `hub_spec`, `hub_safety`, `hub_delivery`, `hub` | WebSocket hub: room keys, the two indexes of one relation, channels closed once, who hears what |
| `transactions` | nested units of work joining one database transaction |
| `invitations`, `invitation_race` | invitation acceptance as one call, and as racing READ COMMITTED transactions |
| `migrations`, `migration_files`, `migrate_runs` | the migration runner as a resumable procedure |
| `triage`, `triage_safety`, `triage_meaning`, `tenants`, `default_category`, `triage_store` | departments, tickets, analyses and human corrections |
| `triage_race`, `late_writes`, `lost_updates` | the same use cases overlapping step by step: what is kept, what late writes undo |
| `bus`, `consumer` | the in-process event bus and the at-least-once consumer behind it |
| `rate_limit` | the gateway's fixed-window counter |
| `permissions`, `browser_access`, `rbac_cache` | wildcard matching, its browser copy, and the cache in front of the grants |
| `calibrate`, `corpus`, `corpus_rows` | choosing the review threshold; filtering the corpus |
| `stable_sort`, `queue`, `queue_views`, `timestamps`, `workforce` | the staff queue, printed timestamps and the workload table |
| `options`, `sequences`, `runs`, `text`, `text_order` | shared helpers |

## How it is built

A component that changes state has a specification on values (a state datatype and one function per operation), a class
whose methods work the way the source does and are proved equal to those functions, and lemmas about every run of the
specification. Code made of expressions is a function with lemmas about it.

What the code cannot decide becomes a parameter: clocks, fresh ids, password hashes, the classifier's answer, which
statement of a transaction fails, whether a failed commit was durable after all. Databases and Redis are maps, sequences
and multisets with the constraints their schemas declare; Postgres transactions see what READ COMMITTED lets them see and
wait where a unique index or a row lock makes them wait. Text from outside that has to be one of a fixed set of labels is
either `Known` or `Unknown`. Reals stand for floating point in calibration and confidences.

Some expensive functions of text (`ReadRow`, `HasUpSection`, `IsSql`) are passed as parameters to the code that uses
them; thin wrappers fix them to what the program uses.

## Where the code differs from what is said about it

Each of these is proved, with the exact condition under which the code does what was meant.

- `session.go` tears down through a second client value that remembers no rooms. Teardown keeps the indexes in agreement
  if and only if the object torn down remembers every room of the registered one; on that path it does not, room entries
  stay behind, and a later broadcast to such a room sends on a closed channel.
- `checkRateLimit` is described as a sliding window; it is a fixed one. A span of one window's length can admit
  `2 * limit - 1` requests, never more. If the expiry of the first increment is lost, reaching the limit closes the
  endpoint for good.
- Permission matching chains through a second grant exactly unless the outer grant is a doubled wildcard (`*:*`, `q:*:*`,
  `*:read:*`).
- A permission list read before an invalidation and cached after it undoes the invalidation for up to one more TTL.
- `MigrateUp` ignores the listing's row error. Listings cut short are harmless over any sequence of runs, except that one
  cut to nothing makes an up-to-date-looking database skip files for ever. The bootstrap is not one transaction:
  interrupted, it makes the next run execute a file on a schema that already has it exactly if the first file that run
  tries lies beyond the interruption and lands. A file with a Down marker and no Up marker runs its Down section. Files
  with a blank Up section stay pending for ever.
- `choose_threshold` is documented as the lowest threshold within the budget; it returns the largest one with the same
  auto-accept set. The fallback 0.60 is also the answer when 0.60 itself was swept and chosen, and in no other case.
- An acceptance is as good as one made at the moment it commits, unless the account it joins was deactivated after it was
  looked up, or the invitation expired after it was resolved, where alone expiry is checked. In those cases, and only
  then, the order of commits is no longer a serial one; with expiry judged when the token is resolved, some serial order
  always exists.
- `AnalyzeTicket` says it leaves every field a human has corrected alone. A correction made before the first analysis is
  not flagged, as `UpdateTicket` admits, so the first analysis overwrites it unless the model happens to agree. A move is
  not flagged either when the department the newest analysis named has been deleted, so the next analysis takes it back.
- An analysis reads the ticket row before asking the classifier and writes the whole row back afterwards. If it writes at
  all, everything a human did to the row meanwhile is undone, flags included. A correction does the same to an analysis
  that comes between its read and its write, and an edit of a department to another edit of it.
- An analysis that was stored but whose ticket update failed is never retried by the consumer, because the ticket now
  has an analysis.
- Deleting a department is two statements without a transaction. A ticket that arrives between them, and only that,
  leaves the department standing with the others moved out. Stopped in between, tickets are housed, but those moved no
  longer show the prediction that put them where they were.
- The department model says the default department carries no category; `UpdateDepartment` allows giving it one. Over a
  run it carries none exactly if every such update was followed by one that clears it.
- The workload table's "last active" compares timestamps as text and calls that correct. It is the order in time exactly
  unless two share the second and one fraction, its trailing zeros dropped, begins the other; then the older one wins.
  Sorting the table by most recent is right under the same condition.
- "Under an hour of SLA left" rounds to minutes before it compares, so a ticket needs attention from 59.5 minutes on.

## Model

| member | source | states |
|---|---|---|
| `HubSafety.HubIsSafe` | backend/internal/infrastructure/websocket/hub.go:38-222 | after any lawful run from a new hub the two indexes agree, no room is empty, the cap is the configured one or 1000 and holds, and nothing was sent on, or closed on, a closed channel |
| `HubSafety.RunKeeps` | backend/internal/infrastructure/websocket/hub.go:179-222 | the full invariant (agreement both ways, sound channels, distinct clients) is kept by every run from any state that has it |
| `HubSafety.ClosedStaysClosed` | backend/internal/infrastructure/websocket/client.go:94-101 | a channel closed at any point of a run is never open again |
| `HubSafety.RemoveRegisteredKeeps` | backend/internal/infrastructure/websocket/hub.go:197-222 | removing the registered client object, or one no longer registered, keeps the invariant and leaves its id unregistered |
| `HubSafety.CloseKeeps` | backend/internal/infrastructure/websocket/hub.go:166-177 | closing the hub keeps the invariant and closes the channel of every registered client |
| `HubSafety.RunKeepsOwn` | backend/internal/infrastructure/websocket/hub.go:67-98 | over any run a client's rooms all belong to its own organization and app |
| `HubSafety.OrgBroadcastReachesExactly` | backend/internal/infrastructure/websocket/hub.go:125-156 | an organization broadcast offers the message once to the channel of each registered client of that organization in that channel, and changes no other channel |
| `HubSafety.OneMatchingRoomPerClient` | backend/internal/infrastructure/websocket/hub.go:128-136 | a client is in at most one of the rooms such a broadcast walks |
| `HubSafety.TeardownExactly` | backend/internal/infrastructure/websocket/hub.go:197-222 | teardown through any client object keeps the indexes in agreement if and only if its id is unregistered or it remembers every room of the registered client |
| `HubSafety.SessionTeardownLeavesEntry` | backend/internal/infrastructure/websocket/session.go:19-36 | tearing down through the session's private client leaves the room entry behind, the closure removes nothing, and the next broadcast sends on a closed channel |
| `HubDelivery.SubscribedIsIn` | backend/internal/infrastructure/websocket/hub.go:67-81 | a subscription succeeds exactly for a registered client and a valid channel; then the client is addressed on that channel and both indexes hold that pair and precisely the others they held |
| `HubDelivery.UnsubscribedIsOut` | backend/internal/infrastructure/websocket/hub.go:84-98 | it succeeds under the same condition; then that pair is gone from both indexes and every other one stays |
| `HubDelivery.RegisteredIsIn` | backend/internal/infrastructure/websocket/hub.go:38-64 | a client is admitted exactly if the hub is open and below its cap, and then is in its "events" room and no other; refused, it is not registered, and at the cap its channel is closed |
| `HubDelivery.RegisteredAfter` | backend/internal/infrastructure/websocket/hub.go:38-64 | after a step a client is registered exactly if the step admitted it, or it was and the step neither removed it nor closed the hub |
| `HubDelivery.OneClientHears` | backend/internal/infrastructure/websocket/hub.go:101-115 | a message to a client is put at the end of that client's buffer, if there is room, and of no other |
| `HubDelivery.RoomHears` | backend/internal/infrastructure/websocket/hub.go:118-122 | a room broadcast is put into the buffers of exactly the registered clients that are in the room |
| `HubDelivery.OrganizationHears` | backend/internal/infrastructure/websocket/hub.go:125-156 | an organization broadcast is put into the buffers of exactly the registered clients of the organization that are on the channel |
| `HubDelivery.OnByLastWord` | backend/internal/infrastructure/websocket/hub.go:38-98 | after any run a registered client is on a channel exactly if its last registration, subscription or unsubscription that concerns the channel put it there |
| `HubDelivery.BroadcastFollowsLastWord` | backend/internal/infrastructure/websocket/hub.go:125-156 | after any run from a new hub an organization broadcast reaches a registered client exactly if it is of that organization and its last word on the channel was to be on it |
| `HubDelivery.BufferInOrder` | backend/internal/infrastructure/websocket/client.go:32-45 | over any run, what was written to a client and what still waits in its buffer are what was there at the start and messages that were sent, in the order they were sent, some left out, none repeated |
| `WebSocketHub.HubObject.Register` | backend/internal/infrastructure/websocket/hub.go:38-64 | the method takes exactly the specified step: refused when closed, channel closed at the cap, otherwise enrolled in both indexes and its default room |
| `WebSocketHub.HubObject.Subscribe` | backend/internal/infrastructure/websocket/hub.go:67-81 | the new hub state and the answer are those of the specification, errors included, of which `HubDelivery.SubscribedIsIn` says what they are |
| `WebSocketHub.HubObject.Unsubscribe` | backend/internal/infrastructure/websocket/hub.go:84-98 | the new hub state and the answer are those of the specification, of which `HubDelivery.UnsubscribedIsOut` says what they are; an emptied room disappears |
| `WebSocketHub.HubObject.SendToClient` | backend/internal/infrastructure/websocket/hub.go:101-115 | one non-blocking send to that client's channel, nothing else |
| `WebSocketHub.HubObject.Broadcast` | backend/internal/infrastructure/websocket/hub.go:118-122 | one non-blocking send to each member of the room, nothing else |
| `WebSocketHub.HubObject.BroadcastLocked` | backend/internal/infrastructure/websocket/hub.go:139-156 | under the lock each channel of a member took the message at most once and every other channel is as it was |
| `WebSocketHub.HubObject.BroadcastToOrganization` | backend/internal/infrastructure/websocket/hub.go:125-137 | walking all rooms one by one adds up to one send to each matching channel |
| `WebSocketHub.HubObject.RemoveClient` | backend/internal/infrastructure/websocket/hub.go:197-222 | membership goes from both indexes before the channel is closed, and the state is the specified one |
| `WebSocketHub.HubObject.Close` | backend/internal/infrastructure/websocket/hub.go:166-177 | every registered client is closed and both indexes are emptied |
| `WebSocketHub.HubObject.AddToRoomLocked` | backend/internal/infrastructure/websocket/hub.go:179-185 | both halves of the index gain the pair |
| `WebSocketHub.HubObject.RemoveFromRoomLocked` | backend/internal/infrastructure/websocket/hub.go:187-195 | both halves of the index lose the pair, and the room if it is then empty |
| `WebSocketHub.ClientObject.CloseSend` | backend/internal/infrastructure/websocket/client.go:94-101 | the channel is closed on the first call and left alone afterwards |
| `Rooms.MatchIsFieldEquality` | backend/internal/infrastructure/websocket/hub.go:128-136 | the prefix-and-suffix test on a key is equality of organization and channel, for every channel text |
| `Rooms.KeyInjective` | backend/internal/domain/realtime/model/room.go:22-31 | two keys are equal only if organization, app and channel are |
| `Rooms.ChannelMarkPosition` | backend/internal/domain/realtime/model/room.go:22-31 | a channel marker after the organization field is the real one |
| `Transactions.TxManager.WithinTx` | backend/internal/shared/database/tx.go:55-74 | joins the context's transaction or opens one and commits or rolls back, exactly as the specification of nested units says |
| `Transactions.TxManager.Run` | backend/internal/shared/database/tx.go:32-37 | a body's writes go to the context's transaction when there is one |
| `Transactions.NestedIsInlined` | backend/internal/shared/database/tx.go:55-60 | inside a transaction, any finite tree of nested units runs exactly like its inner bodies written out in place |
| `Transactions.OutermostOwnsEverything` | backend/internal/shared/database/tx.go:55-74 | running an outermost unit equals running it with all inner bodies inlined |
| `Transactions.UnitOfWork` | backend/internal/shared/database/tx.go:55-74 | a unit succeeds exactly if BEGIN, body and COMMIT do; it leaves behind the bypassing writes whenever it began, and the joined ones in order exactly if it succeeded |
| `Transactions.AllOrNothing` | backend/internal/shared/database/tx.go:55-74 | when every repository joins, the store ends with every performed write in order if BEGIN, body and COMMIT succeed, and exactly as it was if any of them fails |
| `Transactions.RollbackIsExact` | backend/internal/shared/database/tx.go:55-74 | a unit that fails, at BEGIN, in its body or at COMMIT, leaves the store unchanged if and only if it never began or none of its writes bypassed the transaction |
| `Invitations.Database.Execute` | backend/internal/application/iam/usecase/accept_invitation.go:119-192 | whatever statement fails, either everything the acceptance writes takes effect as specified or nothing does; a success leaves the account there was untouched, or one new active row with the hash drawn for the password and the name from the request |
| `Invitations.Database.FindOrCreate` | backend/internal/application/iam/usecase/accept_invitation.go:203-239 | an existing active account is reused untouched, an inactive one refused; a new one carries the invited address, the hash drawn for the password, the name from the request, and is active |
| `Invitations.AcceptedMeans` | backend/internal/application/iam/usecase/accept_invitation.go:119-192 | success means a live token, one more grant, the seat the invitation names, one account for the address, the old one untouched or a new one with the hash and name that came with the call, and nothing else changed; failure means nothing changed |
| `Invitations.AnswersInOrder` | backend/internal/application/iam/usecase/accept_invitation.go:203-254 | which of the four refusals a call gets, each exactly when: a token that cannot be used, an inactive account, a missing field, a failed hash |
| `Invitations.AcceptKeepsValid` | backend/internal/infrastructure/postgres/iam/user_repository.go:26-43 | acceptance keeps addresses and ids unique and placements in departments that exist |
| `Invitations.SpentOnce` | backend/internal/domain/iam/model/invitation.go:52-73 | after a success the same token is refused for ever, whatever the request and the clock |
| `InvitationRace.SerialInCommitOrderExactly` | backend/internal/application/iam/usecase/accept_invitation.go:132-170 | an interleaving of acceptances and other events leaves the database as the one-at-a-time order of commits does if and only if no commit joins an account deactivated meanwhile or, judged by the commit's own clock, takes up an expired invitation; losers do not occur in that order |
| `InvitationRace.EveryRunIsSerial` | backend/internal/application/iam/usecase/accept_invitation.go:132-170 | every interleaving whatsoever leaves the database as some one-at-a-time order of the same acceptances and events does, each acceptance in it succeeding for the same account |
| `InvitationRace.CommitIsAccept` | backend/internal/application/iam/usecase/accept_invitation.go:119-170 | a commit equals one whole acceptance on the database as it then is, by the resolving or by the committing clock, exactly unless the account was deactivated since it was looked up or, by the committing clock, the invitation expired; then a whole acceptance is refused with the error named, and the commit writes all the same |
| `InvitationRace.AtMostOneWins` | backend/internal/infrastructure/postgres/iam/invitation_repository.go:111-127 | of all acceptances of one token, in any interleaving, at most one commits |
| `InvitationRace.RedeemedOnce` | backend/internal/infrastructure/postgres/iam/invitation_repository.go:111-127 | a token is redeemed at most once in a run, never if it was spent before, and is spent at the end exactly if it was at the start or was redeemed |
| `InvitationRace.AccountsEndure` | backend/internal/application/iam/usecase/accept_invitation.go:203-222 | an account that was there before keeps its whole row, password hash included, through any acceptances |
| `InvitationRace.WinnerKeepsItsHash` | backend/internal/application/iam/usecase/accept_invitation.go:223-238 | an acceptance that made its account leaves it, over any run after its commit, at the invited address under its own request's name, and with its own password's hash until a change of that account's password |
| `InvitationRace.RowOverRun` | backend/internal/application/iam/usecase/accept_invitation.go:197-212 | over any run an account keeps id, address and name, and has the newest hash and status set for it |
| `InvitationRace.SessionsRemember` | backend/internal/application/iam/usecase/accept_invitation.go:119-131 | over any run a call keeps the token, request and hash it came with |
| `InvitationRace.ArrivesAsCalled` | backend/internal/application/iam/usecase/accept_invitation.go:119-131 | a call begins with the token and request it was made with and the hash drawn for it |
| `InvitationRace.RevokedStays` | backend/internal/infrastructure/postgres/iam/invitation_repository.go:111-127 | a token that is revoked and not spent stays so over any run, and nobody redeems it, not even who resolved it before |
| `InvitationRace.RevokeMeans` | backend/internal/infrastructure/postgres/iam/invitation_repository.go:129-145 | revoking marks exactly an invitation that is not spent and leaves every other as it is |
| `InvitationRace.OneAccountPerAddress` | backend/internal/infrastructure/postgres/iam/user_repository.go:26-43 | at the end of any run at most one account carries an address |
| `InvitationRace.RunKeeps` | backend/internal/application/iam/usecase/accept_invitation.go:119-192 | what sessions hold (row locks, uncommitted users, placements, marks) stays consistent with the database over any run |
| `InvitationRace.UndisturbedWithoutDeactivation` | backend/internal/application/iam/usecase/accept_invitation.go:203-212 | as long as nobody is deactivated, every commit joins an account that is still active |
| `InvitationRace.OvertakenByDeactivation` | backend/internal/application/iam/usecase/accept_invitation.go:203-222 | a run in which an account deactivated after the lookup is given the role all the same |
| `InvitationRace.RedeemedAfterExpiry` | backend/internal/application/iam/usecase/accept_invitation.go:243-254 | a run that redeems an invitation after it expired, because it was resolved before |
| `Migrations.UpSectionIsBetweenMarks` | backend/internal/infrastructure/postgres/migrate.go:195-208 | for a file of the usual shape the executed text is the trimmed text between the first Up marker and the first Down marker after it |
| `Migrations.DownRunsExactly` | backend/internal/infrastructure/postgres/migrate.go:195-208 | the executed text holds a Down marker exactly if the file has one and no Up marker |
| `MigrationFiles.Listing` | backend/internal/infrastructure/postgres/migrate.go:74-89 | the names are exactly those of the non-directory entries that qualify, in strictly increasing order |
| `MigrationFiles.MigrationFiles` | backend/internal/infrastructure/postgres/migrate.go:74-89 | the same for names ending in .sql |
| `MigrationFiles.OrderIsDetermined` | backend/internal/infrastructure/postgres/migrate.go:72-89 | the order of execution does not depend on how the directory lists its entries |
| `MigrationFiles.IncreasingIsDistinct` | backend/internal/infrastructure/postgres/migrate.go:72-89 | an increasing listing gives the runner distinct names |
| `MigrateRuns.Database.MigrateUp` | backend/internal/infrastructure/postgres/migrate.go:96-193 | one run does to schema and records exactly what the specification says, for every fault |
| `MigrateRuns.Database.ApplyFile` | backend/internal/infrastructure/postgres/migrate.go:172-187 | a file's SQL and its record take effect together or not at all |
| `MigrateRuns.Database.Bootstrap` | backend/internal/infrastructure/postgres/migrate.go:143-150 | rows are written one by one, as many as the database answered for |
| `MigrateRuns.Database.ApplyAll` | backend/internal/infrastructure/postgres/migrate.go:156-192 | the loop applies, in order, every file not listed as applied whose Up section is not blank, until one fails |
| `MigrateRuns.Database.PendingMigrations` | backend/internal/infrastructure/postgres/migrate.go:27-70 | the names at strictly increasing positions of the files, a file among them exactly if there is no table or it is not recorded; an error exactly if a query or a row's scan fails |
| `MigrateRuns.ResumedEqualsUninterrupted` | backend/internal/infrastructure/postgres/migrate.go:96-193 | any runs that fail or crash anywhere, with listings complete or cut short as long as the bootstrap does not fire, and then one that succeeds, execute each runnable file exactly once in order and record exactly those |
| `MigrateRuns.AllRunsBuild` | backend/internal/infrastructure/postgres/migrate.go:96-193 | any sequence of such runs leaves a prefix of the runnable files executed and recorded |
| `MigrateRuns.BuiltIsConsistent` | backend/internal/infrastructure/postgres/migrate.go:172-187 | at every instant a file took effect exactly if it is recorded, and none twice |
| `MigrateRuns.BootstrapNeverFires` | backend/internal/infrastructure/postgres/migrate.go:129-142 | on a schema this runner built, a complete listing never reaches the bootstrap |
| `MigrateRuns.PendingAreBlank` | backend/internal/infrastructure/postgres/migrate.go:27-70 | after a successful run exactly the files with a blank Up section are pending |
| `MigrateRuns.PendingIsWhatRunsNext` | backend/internal/infrastructure/postgres/migrate.go:27-70 | on any database this runner built, the pending names with something to run are, in order, precisely what the next run without faults and with a complete listing then executes |
| `MigrateRuns.RowsHaveTable` | backend/internal/infrastructure/postgres/migrate.go:113-125 | over any such runs what is recorded is recorded in a table |
| `MigrateRuns.RunsExactly` | backend/internal/infrastructure/postgres/migrate.go:156-170 | a file counts as having something to run exactly if its executed text has something other than space in it |
| `MigrateRuns.SecondRunIsNoOp` | backend/internal/infrastructure/postgres/migrate.go:156-170 | a second run succeeds and changes nothing |
| `MigrateRuns.TruncatedListingsAreHarmless` | backend/internal/infrastructure/postgres/migrate.go:113-125 | over any sequence of runs whose listings may be cut short, unless the bootstrap fires, what was executed stays in place and nothing is executed twice |
| `MigrateRuns.TruncatedToNothingSkips` | backend/internal/infrastructure/postgres/migrate.go:129-153 | a listing cut to nothing marks files applied, all of them or as many as the bootstrap gets to; of the marked ones exactly those are recorded without effect that have something to run and had not been executed, and of the others none |
| `MigrateRuns.InterruptedBootstrap` | backend/internal/infrastructure/postgres/migrate.go:143-150 | after a bootstrap stopped at n rows, a next run of any faults and any listing executes something on a schema that already has it if and only if it gets past its listing, sees a row, and the first file it tries comes after the n-th and lands |
| `Triage.HandlerOf` | backend/internal/application/triage/usecase/analyze_ticket.go:176-182 | the department of the organization that claims the category, or none if there is none |
| `Triage.DefaultOf` | backend/internal/application/triage/usecase/analyze_ticket.go:184-189 | the default department of the organization, or none if there is none |
| `TriageSafety.RunKeeps` | backend/internal/application/triage/usecase/delete_department.go:27-59 | any run of the use cases keeps exactly one default department per organization, distinct names, at most one department per category, every ticket, prediction and placement in a live department of its own organization, and every uncorrected field equal to the newest prediction |
| `TriageSafety.LookupsAreDetermined` | backend/internal/domain/triage/model/department.go:9-16 | in a consistent state the default and the handler of a category are unique, so lookups cannot disagree |
| `TriageSafety.CreateDepartmentKeeps` | backend/internal/application/triage/usecase/create_department.go:27-74 | creation keeps names and categories unique and never makes a second default |
| `TriageSafety.UpdateDepartmentKeeps` | backend/internal/application/triage/usecase/update_department.go:31-94 | a rename or a category change keeps both unique |
| `TriageSafety.DeleteDepartmentKeeps` | backend/internal/application/triage/usecase/delete_department.go:27-59 | deletion keeps the invariant and succeeds exactly for an existing non-default department |
| `TriageSafety.DeletionMovesExactly` | backend/internal/application/triage/usecase/delete_department.go:44-48 | deletion conserves the tickets, moves precisely the department's own to the default, and changes nothing else about any |
| `TriageSafety.DeletionUnassigns` | backend/internal/application/triage/usecase/delete_department.go:50-58 | the department's people come back unassigned and nobody else moves |
| `TriageSafety.HalfDeletion` | backend/internal/application/triage/usecase/delete_department.go:44-58 | with only the first statement done every ticket is housed, and fields still show their predictions exactly if no ticket was there on a prediction |
| `TriageSafety.AnalysisForMeans` | backend/internal/application/triage/usecase/analyze_ticket.go:85-131 | when an analysis is made and what it says: labels and confidences are the classifier's, fallback holds exactly if no department handles the category, and review is not asked for exactly if one does and neither confidence is below the threshold |
| `TriageSafety.AnalyzeMeans` | backend/internal/application/triage/usecase/analyze_ticket.go:131-152 | success adds one record with the classifier's labels and confidences, whose review mark is off exactly if a department handles the category and neither confidence is below the threshold, and sets exactly the uncorrected fields to it; failure leaves no trace; no other ticket is touched |
| `TriageSafety.CorrectionsStand` | backend/internal/application/triage/usecase/analyze_ticket.go:135-152 | however often a ticket is analysed again, a corrected field keeps its value and its flag |
| `TriageSafety.AnalysesOnlyGrow` | backend/internal/application/triage/usecase/analyze_ticket.go:116-133 | over any run no analysis is lost, reordered or rewritten, except that a deleted department is cleared |
| `TriageSafety.CorrectionOutlivesAnalysis` | backend/internal/application/triage/usecase/update_ticket.go:103-150 | a new priority, whatever the flag was, survives the next analysis exactly if the model agrees or there was a prediction to disagree with |
| `TriageSafety.CorrectionIsLost` | backend/internal/application/triage/usecase/update_ticket.go:103-133 | a state in which a priority set before the first analysis is taken back by it |
| `TriageSafety.MoveOutlivesAnalysis` | backend/internal/application/triage/usecase/update_ticket.go:135-145 | a move to another department survives the next analysis exactly if the model agrees, or the newest analysis names another department, or it names none any more and the ticket was flagged already |
| `TriageSafety.DeletionHidesMoves` | backend/internal/application/triage/usecase/update_ticket.go:135-145 | whenever the department the newest analysis names is deleted, a move made afterwards is not flagged and the next analysis takes it back |
| `TriageSafety.MoveIsLost` | backend/internal/application/triage/usecase/update_ticket.go:135-145 | a state in which exactly that happens |
| `DefaultCategory.DefaultTakesACategory` | backend/internal/application/triage/usecase/update_department.go:56-78 | giving the default department a free category succeeds, and it stays the default one |
| `DefaultCategory.BareExactly` | backend/internal/domain/triage/model/department.go:9-16 | over any run a default department that starts without a category ends without one exactly if every update that gave it one was followed by one that cleared it |
| `TriageSafety.CustomerOnlyReopens` | backend/internal/application/triage/usecase/update_ticket.go:33-55 | a customer's successful patch is reopening their own resolved ticket and nothing else |
| `TriageSafety.ForeignIsMissing` | backend/internal/application/triage/usecase/scope.go:87-108 | somebody else's ticket answers a customer exactly as a missing one |
| `TriageSafety.CustomersFileForThemselves` | backend/internal/application/triage/usecase/create_ticket.go:131-146 | a customer's ticket is their own whomever the request names, and holds its first message |
| `TriageSafety.UpdateTicketKeeps` | backend/internal/application/triage/usecase/update_ticket.go:103-165 | a correction keeps the meaning of the flags and the resolution stamp |
| `TriageMeaning.CreatedDepartment` | backend/internal/application/triage/usecase/create_department.go:27-74 | which of three answers a creation gets, each exactly when; a new department has the name, description and category that were asked for and is not the default one; nothing else changes |
| `TriageMeaning.EditedDepartment` | backend/internal/application/triage/usecase/update_department.go:31-94 | which of four answers an edit gets; what it mentions is set or cleared, everything else of the department and of the others stays |
| `TriageMeaning.RefusedDeletions` | backend/internal/application/triage/usecase/delete_department.go:27-40 | a deletion fails exactly for a department that is not there or the default one, with these two errors |
| `TriageMeaning.FiledTicket` | backend/internal/application/triage/usecase/create_ticket.go:60-146 | which answers a new ticket gets; it is open, normal, uncorrected, unanalysed, in the default department, its owner's, with the body as its first message |
| `TriageMeaning.CorrectedByStaff` | backend/internal/application/triage/usecase/update_ticket.go:103-165 | when a staff patch succeeds and with which error it fails; every field, flag and the resolution time afterwards, what is not mentioned unchanged |
| `TriageMeaning.CorrectedByCustomer` | backend/internal/application/triage/usecase/update_ticket.go:33-55 | which of four answers a customer gets, each exactly when |
| `Tenants.OthersChangeNothing` | backend/internal/infrastructure/postgres/triage/department_repository.go:49-76 | whatever other organizations do, over any run, an organization's departments, tickets, analyses and placements stay as they are |
| `TriageSafety.StartIsValid` | backend/internal/domain/triage/model/department.go:9-16 | a new organization with its default department satisfies the invariant |
| `TriageRace.OverlapKeeps` | backend/internal/application/triage/usecase/analyze_ticket.go:74-152 | however analyses, corrections, deletions and edits of departments overlap step by step, with one another and with every other use case, all of the invariant but the meaning of the flags is kept |
| `TriageRace.UnhurriedIsAnalyze` | backend/internal/application/triage/usecase/analyze_ticket.go:74-152 | an analysis nothing overtakes is the one-step analysis |
| `TriageRace.UnhurriedIsUpdate` | backend/internal/application/triage/usecase/update_ticket.go:103-165 | a correction nothing overtakes is the one-step correction |
| `TriageRace.UnhurriedIsDelete` | backend/internal/application/triage/usecase/delete_department.go:27-59 | a deletion nothing overtakes is the one-step deletion |
| `TriageRace.UnhurriedIsEdit` | backend/internal/application/triage/usecase/update_department.go:31-94 | an edit of a department nothing overtakes is the one-step update |
| `LateWrites.LateWrite` | backend/internal/infrastructure/postgres/triage/ticket_repository.go:83-101 | over any run, at the end of an analysis the row is the row it read with the prediction applied, whatever happened in between, if that changes something and its department is still there; otherwise it is as the others left it |
| `LateWrites.LateWriteExactly` | backend/internal/application/triage/usecase/analyze_ticket.go:74-152 | over any run, priority, department and both flags stay as the others left them exactly if the prediction changes nothing about the row that was read, or the department it would put is gone, or the same was left anyway |
| `LateWrites.LatePatch` | backend/internal/application/triage/usecase/update_ticket.go:103-165 | over any run, a correction ends by writing the row it read, patched with flags from the analysis that was newest when it compared, whatever happened to the row in between |
| `LateWrites.LatePatchExactly` | backend/internal/application/triage/usecase/update_ticket.go:103-165 | over any run, priority, department and both flags stay as the others left them through a late correction exactly if the department it would put is gone or the same was left anyway |
| `LateWrites.TracksAfterWriteBack` | backend/internal/application/triage/usecase/analyze_ticket.go:135-152 | over any run, after an overlapped analysis the unflagged fields show the newest prediction exactly if, where it wrote, the newest one agrees with it on them, and where it did not write, exactly if they did before |
| `LateWrites.TracksAfterPatch` | backend/internal/application/triage/usecase/update_ticket.go:103-165 | over any run, after an overlapped correction they do exactly if, where it wrote, the newest prediction says of them what the correction saw, and where it did not, exactly if they did before |
| `LateWrites.LateEdit` | backend/internal/infrastructure/postgres/triage/department_repository.go:103-118 | over any run, an edit of a department ends by writing the row it read, patched, unless the department is gone or a unique index refuses |
| `LateWrites.LateEditExactly` | backend/internal/application/triage/usecase/update_department.go:31-81 | over any run, what the others left of the department survives a late edit exactly if it is gone, or an index refuses the row, or the same was left anyway |
| `LateWrites.LateDrop` | backend/internal/application/triage/usecase/delete_department.go:41-59 | over any run, a deletion ends half done, its tickets moved and the department still there, exactly if a ticket sits in the department when it comes to delete; each of those came after the tickets had been moved |
| `LostUpdates.OvertakenCorrectionIsLost` | backend/internal/application/triage/usecase/analyze_ticket.go:135-152 | whenever a flagged priority is set while an analysis that will write is under way, the run is lawful and ends with it overwritten and unflagged |
| `LostUpdates.AnalysisIsTakenOff` | backend/internal/application/triage/usecase/update_ticket.go:103-165 | whenever an analysis comes and goes while a correction that leaves the priority alone is under way, the run is lawful and ends with an unflagged priority that is not the newest prediction |
| `LostUpdates.MoveInKeepsDepartment` | backend/internal/application/triage/usecase/delete_department.go:41-59 | whenever a ticket is moved into the department between a deletion's two statements, the run is lawful, the department stays with that ticket, and the tickets moved out stay out |
| `LostUpdates.ClearedCategoryComesBack` | backend/internal/application/triage/usecase/update_department.go:31-81 | whenever a category is cleared while somebody edits the description, the run is lawful and ends with the category back |
| `LostUpdates.ItHappens` | backend/internal/application/triage/usecase/update_ticket.go:103-165 | one valid state that meets the conditions of all four |
| `TriageStore.Store.CreateDepartment` | backend/internal/application/triage/usecase/create_department.go:27-74 | the method's new state and answer are the specification's, for trimmed text |
| `TriageStore.Store.UpdateDepartment` | backend/internal/application/triage/usecase/update_department.go:31-94 | the method's new state and answer are the specification's, though it looks names and categories up and compares ids |
| `TriageStore.Store.DeleteDepartment` | backend/internal/application/triage/usecase/delete_department.go:27-59 | reassign then delete equals the specification; stopped in between, only the reassignment happened |
| `TriageStore.Store.CreateTicket` | backend/internal/application/triage/usecase/create_ticket.go:60-106 | ticket and first message appear together or not at all |
| `TriageStore.Store.Analyze` | backend/internal/application/triage/usecase/analyze_ticket.go:74-152 | record and ticket update equal the specification, of which `TriageSafety.AnalyzeMeans` says what they are; when the update fails only the record is left |
| `TriageStore.Store.Mapped` | backend/internal/application/triage/usecase/analyze_ticket.go:176-190 | the handling department, or the default one marked as a fallback |
| `TriageStore.Store.UpdateTicket` | backend/internal/application/triage/usecase/update_ticket.go:103-165 | the field-by-field patch equals the specification, errors in the same order |
| `TriageStore.Store.constructor` | backend/internal/application/triage/usecase/analyze_ticket.go:38-50 | a store starts consistent, with the configured threshold or 0.6 |
| `Bus.FifoAlways` | backend/internal/shared/events/inprocess.go:58-108 | after any run what was accepted is what was dispatched followed by what waits, in order, within the buffer's capacity |
| `Bus.CallsAreDispatched` | backend/internal/shared/events/inprocess.go:95-108 | with subscriptions in place first, handlers were called with exactly the dispatched events in order |
| `Bus.SubscribersHear` | backend/internal/shared/events/inprocess.go:80-108 | over any run each dispatched event is handed, once for each subscription to its topic so far and in their order, to those handlers and to no other |
| `Bus.InProcessBus.constructor` | backend/internal/shared/events/inprocess.go:31-43 | an empty bus whose capacity is 256 when none is given |
| `Bus.InProcessBus.Publish` | backend/internal/shared/events/inprocess.go:58-78 | the event is accepted at the end of the queue or reported dropped, and dropped only if no room came while waiting |
| `Bus.InProcessBus.DispatchNext` | backend/internal/shared/events/inprocess.go:97-107 | the oldest event goes to each handler of its topic once, in subscription order |
| `Bus.InProcessBus.Close` | backend/internal/shared/events/inprocess.go:89-93 | closing waits until everything accepted was dispatched, each waiting event to every handler of its topic |
| `Consumer.TicketConsumer.HandleEvent` | backend/internal/infrastructure/triage/consumer.go:48-80 | handling does exactly what the specification says and keeps the triage invariant |
| `Consumer.DecodesExactly` | backend/internal/infrastructure/triage/consumer.go:87-108 | the consumer takes exactly the event, a pointer to it, or an envelope of its type that parses to ids that are not nil |
| `Consumer.FirstDeliveryAnalyzes` | backend/internal/infrastructure/triage/consumer.go:48-80 | the first delivery to a ticket puts the classifier's answer about its subject and first message on record, and nothing if that answer cannot be used |
| `Consumer.DuplicatesChangeNothing` | backend/internal/infrastructure/triage/consumer.go:48-62 | any delivery sequence ends where handling only the first occurrence of each ticket's event does |
| `Consumer.AtMostOneAnalysisEach` | backend/internal/infrastructure/triage/consumer.go:54-62 | however often events are delivered, at most one analysis is added to a ticket and none to one that has one |
| `Consumer.AddedAtMostOnce` | backend/internal/infrastructure/triage/consumer.go:54-62 | the same for deliveries interleaved with any other use cases, re-analyses included |
| `Consumer.RedeliveriesChangeNothing` | backend/internal/infrastructure/triage/consumer.go:48-80 | in a run of any use cases, leaving out every delivery of an event that had been delivered before, its ticket being there, changes nothing |
| `Consumer.AcceptedEventsDecide` | backend/internal/shared/events/inprocess.go:89-108 | behind a drained bus the tickets are as if the consumer had handled the first accepted event of each ticket, in order |
| `Consumer.HandleSettles` | backend/internal/infrastructure/triage/consumer.go:48-80 | handling an event twice in a row is handling it once, also when the first attempt failed |
| `Consumer.FirstOccurrencesAre` | backend/internal/infrastructure/triage/consumer.go:87-108 | what it keeps are the events at exactly the positions that bring a new payload, in order of arrival |
| `Consumer.HalfAnalyzedIsNeverRetried` | backend/internal/infrastructure/triage/consumer.go:54-62 | once the analysis is stored without the ticket update, no redelivery changes anything |
| `RateLimit.Limiter.CheckRateLimit` | backend/internal/gateway/pipeline.go:230-249 | the counter and the answer are the specification's for every outcome of INCR and EXPIRE, an INCR whose reply was lost included |
| `RateLimit.Limiter.Enforce` | backend/internal/gateway/pipeline.go:147-153 | requests are counted only with a positive limit and Redis |
| `RateLimit.EachWindowAtMostLimit` | backend/internal/gateway/pipeline.go:230-249 | no window admits more than the limit |
| `RateLimit.AnySpanAtMostTwiceLimit` | backend/internal/gateway/pipeline.go:230-249 | any half-open span of one minute admits at most 2 * limit - 1, for every request sequence and every fate of the expiry |
| `RateLimit.TwiceLimitLessOneIsReached` | backend/internal/gateway/pipeline.go:230-249 | that bound is reached |
| `RateLimit.WindowSlots` | backend/internal/gateway/pipeline.go:236-248 | the slots taken in the current window, by admissions or by increments whose reply was lost, are what the counter saw, capped by the limit |
| `RateLimit.RejectedOnlyWhenFull` | backend/internal/gateway/pipeline.go:245-248 | a counted request is rejected only when exactly limit slots were taken since the window opened, which are admissions unless a reply was lost |
| `RateLimit.AdmittedExactly` | backend/internal/gateway/pipeline.go:230-249 | a request is admitted exactly if its increment was heard of and fewer than limit slots of its window were taken before it |
| `RateLimit.RecoversExactly` | backend/internal/gateway/pipeline.go:236-248 | a full counter admits again exactly when its expiry has passed |
| `RateLimit.LostExpiryBlocksForever` | backend/internal/gateway/pipeline.go:241-243 | with the first expiry lost, a full counter admits nothing ever again |
| `Permissions.MatchersAgree` | frontend/src/lib/auth/permissions.ts:85-96 | the browser's matcher and the server's agree on every pair of strings |
| `Permissions.WildcardMeaning` | backend/internal/infrastructure/auth/rbac_service.go:94-111 | p:* matches exactly the requirements whose segments begin with p's |
| `Permissions.GrantMeaning` | backend/internal/infrastructure/auth/rbac_service.go:94-111 | what any grant matches, in segments: itself, everything for *, all that begins with its segments before a last *, and for *:read everything of several segments that ends in read |
| `Permissions.SegmentsArePrefix` | backend/internal/infrastructure/auth/rbac_service.go:94-111 | segments are a prefix exactly if the strings are equal or one continues the other after a colon |
| `Permissions.ChainsExactly` | backend/internal/infrastructure/auth/rbac_service.go:94-111 | matching chains through a second grant exactly unless the outer grant is a doubled wildcard |
| `Permissions.DoubleStarBreaks` | backend/internal/infrastructure/auth/rbac_service.go:94-111 | every doubled wildcard has a pair on which chaining fails |
| `Permissions.NoStarSegmentChains` | backend/internal/infrastructure/auth/rbac_service.go:94-111 | p:* chains when no segment of p is a star |
| `BrowserAccess.CanMirrorsServer` | frontend/src/lib/auth/permissions.ts:99-118 | with a known role the browser says yes exactly when the server's matcher grants it to a template; with none it always says yes |
| `BrowserAccess.CanAnyMirrorsServer` | frontend/src/lib/auth/permissions.ts:121-126 | the same for any of several permissions, against the server's question of any grant matching any of them |
| `BrowserAccess.MoreRolesMoreAccess` | frontend/src/lib/auth/permissions.ts:109-118 | a further role never takes a permission away |
| `BrowserAccess.CaseIsIgnored` | frontend/src/lib/auth/permissions.ts:109-118 | role names that differ in ASCII case only give the same answers |
| `BrowserAccess.SpelledOutExactly` | frontend/src/lib/auth/permissions.ts:60-77 | a session known as customer, agent or developer and nothing else is shown exactly the permissions listed for that role; a customer never the organization-wide ticket:read |
| `BrowserAccess.TemplatesChain` | frontend/src/lib/auth/permissions.ts:42-77 | matching chains through a second grant for every grant of every template |
| `RbacCache.AnswersAreRecent` | backend/internal/infrastructure/auth/rbac_service.go:32-57 | over any interleaving every list returned is the table's value at a moment no older than the TTL plus the delay before it was cached |
| `RbacCache.FirstCheckIsCurrent` | backend/internal/infrastructure/auth/rbac_service.go:87-92 | with no fetch in flight the first check after an invalidation reads the table as it is |
| `RbacCache.FlyingFetchUndoesInvalidation` | backend/internal/infrastructure/auth/rbac_service.go:46-56 | a fetch in flight puts its list back; the next check is current exactly if that list still is |
| `RbacCache.StaleAfterInvalidation` | backend/internal/infrastructure/auth/rbac_service.go:32-57 | a run in which a revoked grant is still answered after invalidation |
| `RbacCache.RbacService.GetUserPermissions` | backend/internal/infrastructure/auth/rbac_service.go:32-57 | an error exactly without a readable live entry and with a failed query; otherwise the cached list or the table's row, which is the list the last step of the call's own run returns, and was the table's row within the TTL, if it was cached, plus the time it waited; a non-empty row is cached if SET succeeds |
| `RbacCache.RbacService.HasPermission` | backend/internal/infrastructure/auth/rbac_service.go:59-70 | yes exactly if some permission on such a list matches, that is on the cached one or the table's row; an error exactly when the list cannot be had |
| `RbacCache.RbacService.HasAnyPermission` | backend/internal/infrastructure/auth/rbac_service.go:72-85 | yes exactly if some permission on such a list matches one of those asked for; an error exactly when the list cannot be had |
| `RbacCache.RbacService.InvalidateCache` | backend/internal/infrastructure/auth/rbac_service.go:87-92 | the entry is gone at every later moment and others stay |
| `Calibrate.FitTemperature` | backend/ml/src/ticketlens_ml/calibrate.py:20-33 | the first temperature of the grid with the smallest loss, 1.0 for an empty grid |
| `Calibrate.SweepThreshold` | backend/ml/src/ticketlens_ml/calibrate.py:43-71 | one row per threshold, in order, with the counts of that threshold |
| `Calibrate.RowsSplitTheSample` | backend/ml/src/ticketlens_ml/calibrate.py:53-70 | accepted and reviewed add up to the sample; the error rate is missing exactly if nothing is accepted |
| `Calibrate.RowMeans` | backend/ml/src/ticketlens_ml/calibrate.py:54-70 | a sample is accepted exactly if neither head is below the threshold and wrong if either head was; both rates are those of these counts |
| `Calibrate.WithinBudgetMeans` | backend/ml/src/ticketlens_ml/calibrate.py:76-78 | a threshold is within the budget exactly if it accepts something and its errors are at most that share of it |
| `Calibrate.AutoSetsNest` | backend/ml/src/ticketlens_ml/calibrate.py:56 | a higher threshold accepts a subset |
| `Calibrate.ChoiceIsLargestEquivalent` | backend/ml/src/ticketlens_ml/calibrate.py:74-83 | over an ascending sweep the choice is the largest threshold with the auto-accept set of the lowest one within the budget |
| `Calibrate.ChoiceIsWithinBudget` | backend/ml/src/ticketlens_ml/calibrate.py:76-83 | if any threshold is within the budget, the choice is a swept one within it |
| `Calibrate.FallbackWhenNoneQualifies` | backend/ml/src/ticketlens_ml/calibrate.py:79-80 | 0.60 if none is |
| `Calibrate.FallbackExactly` | backend/ml/src/ticketlens_ml/calibrate.py:74-83 | over an ascending sweep the answer is 0.60 exactly if no threshold is within the budget or 0.60 was swept and is the one chosen |
| `Calibrate.SweptSixty` | backend/ml/src/ticketlens_ml/calibrate.py:74-83 | a sample on which 0.60 is the answer although a threshold is within the budget |
| `Calibrate.NotTheLowest` | backend/ml/src/ticketlens_ml/calibrate.py:74-83 | a sample on which the choice is not the lowest threshold within the budget |
| `Corpus.FilterEnglish` | backend/ml/src/ticketlens_ml/external_english.py:126-207 | the rows written are the kept lines, projected; the report's per-file and total counters add up and agree with them; no files is an error |
| `Corpus.FilterFile` | backend/ml/src/ticketlens_ml/external_english.py:158-198 | one file's pass extends the kept lines, the dedupe set and the counters by that file's lines |
| `Corpus.UnionColumns` | backend/ml/src/ticketlens_ml/external_english.py:141-147 | the header is the set of all columns, each once, in the order in which they first occur |
| `CorpusRows.HeaderInOrder` | backend/ml/src/ticketlens_ml/external_english.py:141-147 | the columns sit at the increasing positions at which their names first occur in the files' headers |
| `Corpus.Decide` | backend/ml/src/ticketlens_ml/external_english.py:174-184 | a line is written unless dedupe is on and its non-empty body was seen; the set is updated accordingly |
| `Corpus.KeptPositions` | backend/ml/src/ticketlens_ml/external_english.py:170-198 | the kept lines are the subsequence at exactly the positions whose body is empty or new |
| `Corpus.BodiesOnceEach` | backend/ml/src/ticketlens_ml/external_english.py:174-184 | with dedupe no body is lost and no non-empty body is written twice |
| `Corpus.KeptTwice` | backend/ml/src/ticketlens_ml/external_english.py:174-184 | filtering the result again changes nothing |
| `Corpus.WithoutDedupeAllKept` | backend/ml/src/ticketlens_ml/external_english.py:181-184 | without dedupe every English row is written |
| `CorpusRows.EnglishIsRead` | backend/ml/src/ticketlens_ml/external_english.py:115-123 | a row is English exactly if the first column that names the language holds a value that starts with en in either case, space aside |
| `CorpusRows.BodyIsRead` | backend/ml/src/ticketlens_ml/external_english.py:176 | the body is the stripped body column |
| `CorpusRows.SubjectIsRead` | backend/ml/src/ticketlens_ml/external_english.py:189-190 | the subject counts as empty exactly if there is none or nothing but space in it |
| `CorpusRows.EnglishPositions` | backend/ml/src/ticketlens_ml/external_english.py:165-176 | a file's lines sit, in order, at exactly its English rows and say what those say |
| `CorpusRows.AllLinesInFileOrder` | backend/ml/src/ticketlens_ml/external_english.py:158-165 | the input is the lines of the files, one file after the other |
| `CorpusRows.WrittenRowHolds` | backend/ml/src/ticketlens_ml/external_english.py:192-197 | a written row has every column of the header, its own value where it has one and nothing elsewhere, and its file's name |
| `StableSort.AnyStableSortIsThisOne` | frontend/src/lib/staff/filters.ts:172-191 | any sorted rearrangement that keeps ties in order is the one the model computes |
| `StableSort.StableArrangementIsUnique` | frontend/src/lib/staff/filters.ts:172-191 | a sorted arrangement with ties in a given order is unique |
| `Queue.OrdersAreConsistent` | frontend/src/lib/staff/filters.ts:82-106 | every order the queue offers, byPriority included, is a total preorder |
| `Queue.PriorityIsLexicographic` | frontend/src/lib/staff/filters.ts:82-90 | byPriority compares priority, then who waits, then how long |
| `Queue.WaitStartsAtLastWord` | frontend/src/lib/staff/filters.ts:40-54 | a ticket that waits for us has waited since its last visible message |
| `Queue.LastCustomerIsLatest` | frontend/src/lib/staff/filters.ts:49-54 | the wait counts from the customer's latest message if there is one |
| `Queue.FourFiltersAreOne` | frontend/src/lib/staff/filters.ts:172-178 | the four filters in a row select what their conjunction does |
| `Queue.SelectionIsOrdered` | frontend/src/lib/staff/filters.ts:172-180 | the tickets behind a query are exactly the selected ones, sorted, ties in their original order |
| `Queue.PagesAreTheSelection` | frontend/src/lib/staff/filters.ts:172-191 | pages one to pageCount put together are that list, none lost or repeated |
| `Queue.OutOfRangeIsClamped` | frontend/src/lib/staff/filters.ts:180-190 | a page out of range is the page it is clamped to |
| `Queue.CountsMatchTotals` | frontend/src/lib/staff/filters.ts:194-202 | the sidebar's count of a view is the queue's total for it |
| `QueueViews.QueueMeans` | frontend/src/lib/staff/filters.ts:172-191 | behind a query are exactly the tickets of the view that pass both facets and the search, any two of them in the order the menu names |
| `QueueViews.OpenOrClosed` | frontend/src/lib/staff/filters.ts:96-106 | every ticket is in exactly one of All Open and Closed; open, waiting and on hold split the first |
| `QueueViews.OpenIsSomebodys` | frontend/src/lib/staff/filters.ts:94-106 | an open ticket is unassigned or assigned to one agent, and only open tickets are in those views |
| `QueueViews.MineIsOpenResolvedOrClosed` | frontend/src/lib/staff/filters.ts:94-106 | an agent's own tickets are those in Assigned to Me, in Resolved by Me, or closed |
| `QueueViews.AttentionExactly` | frontend/src/lib/staff/filters.ts:39-72 | a ticket needs attention exactly if it is open, the customer spoke last, notes aside, and at most 59.5 minutes are left |
| `QueueViews.WaitCountsFrom` | frontend/src/lib/staff/filters.ts:49-54 | the wait is counted from the customer's latest message, or from the opening if there is none |
| `QueueViews.SearchExactly` | frontend/src/lib/staff/filters.ts:151-161 | what a search finds: everything for blank text, else the trimmed text in one of four fields regardless of case or in a tag |
| `QueueViews.CountsAddUp` | frontend/src/lib/staff/filters.ts:194-202 | the counts of All Open and Closed add up to all tickets |
| `QueueViews.PagesAreFull` | frontend/src/lib/staff/filters.ts:180-190 | every page but the last holds six tickets |
| `Workforce.IndexByAssignee` | frontend/src/lib/admin/workforce.ts:52-75 | the one-pass index holds for each person exactly the totals of counting their own tickets |
| `Workforce.TotalsMean` | frontend/src/lib/admin/workforce.ts:55-72 | those totals are the number of tickets, those of priority high or urgent, and a greatest timestamp |
| `Workforce.EveryTicketIsCounted` | frontend/src/lib/admin/workforce.ts:52-75 | loads on the roster, unassigned and off-roster tickets add up to the input |
| `Workforce.DeriveStaff` | frontend/src/lib/admin/workforce.ts:85-112 | each person of the roster, in order, with their own load |
| `Workforce.DeriveDepartments` | frontend/src/lib/admin/workforce.ts:157-176 | each department, in order, with the number of its tickets |
| `Workforce.SummaryAccounts` | frontend/src/lib/admin/workforce.ts:119-147 | the summary's figures account for the whole queue and the whole roster |
| `Workforce.SummaryMeans` | frontend/src/lib/admin/workforce.ts:119-147 | who is counted in each figure: people, active ones, ones without a department, active ones holding nothing, and tickets nobody holds |
| `Workforce.StaffOrdersAreConsistent` | frontend/src/lib/admin/workforce.ts:247-276 | every order of the table is a total preorder for any consistent collation |
| `Workforce.SortStaffSorts` | frontend/src/lib/admin/workforce.ts:247-276 | the sorted table is a rearrangement in order with ties kept |
| `Workforce.TableIsInOrder` | frontend/src/lib/admin/workforce.ts:247-276 | any two rows are in the order the header names, ties by name, people without a department or without activity last |
| `Timestamps.TextOrderExactly` | frontend/src/lib/admin/workforce.ts:64-68 | of two printed UTC timestamps the text order is the order in time exactly unless they share the second and one fraction, trailing zeros dropped, begins the other |
| `Workforce.LastActiveIsLatest` | frontend/src/lib/admin/workforce.ts:64-71 | "last active" is the latest moment among the tickets exactly if none of them was updated in that second with a fraction that begins the latest one's |
| `Workforce.LastActiveCanBeOlder` | frontend/src/lib/admin/workforce.ts:64-71 | two tickets for which "last active" shows the older moment |
| `Workforce.MostRecentExactly` | frontend/src/lib/admin/workforce.ts:256-262 | the table sorted by most recent shows the latest first, under a collation that orders printed timestamps by their characters, exactly if no two of its timestamps share the second with one fraction beginning the other |

## Left out

- HTTP handlers, the router, JWT, bcrypt, SMTP, and the Redis, Kafka and Postgres clients: replaced by values and explicit faults.
- WebSocket read and write pumps, ping timers and deadlines: a send channel is a bounded queue with a closed flag.
- `GetClientInfo`, `ConnectionCount`, `ParseRoomKey` and connection-manager wiring: plain reads.
- The welcome message the WebSocket handler sends on a channel the hub may already have closed: handler code is not part of this model.
- The gateway's SQL handler, HTTP proxy and the other pipeline steps around `checkRateLimit`.
- `Preview` of an invitation, creating invitations beyond their table constraints, deleting users and renaming their addresses: no use case in scope does the last two.
- InvitationRace.EveryRunIsSerial: expiry is judged by the clock that resolved the token; by the commit's clock an acceptance that expired in between fits in no serial order, which CommitIsAccept says.
- The order in which blocked transactions are woken, deadlock detection and isolation levels other than READ COMMITTED.
- Postgres's refusal of further statements after a failed one inside a transaction: a body that swallows a repository error and goes on is modelled as continuing.
- Two `MigrateUp` runs at the same time, and files added by a newer build between runs.
- Column widths, `updated_at` stamps and the ticket's assignee, which other use cases own.
- Adding later messages to a ticket, audit logging and the events published by the triage use cases.
- TriageRace.OverlapKeeps: a use case's checks between its read and its write are one step; creating a department or a ticket is one step, as the table's unique indexes decide at its insert.
- Consumer.DuplicatesChangeNothing: assumes storage does not fail, as HasAnalysis answers "no" to a failed query; the classifier answers the same input the same way.
- The per-language counter of the corpus report, writing its files and its Markdown summary.
- Lower-casing beyond ASCII and the exact white-space sets of Python and JavaScript; `TrimSpace` uses Go's.
- Queue.OutOfRangeIsClamped: page numbers are integers; a fractional or non-numeric page is not modelled.
- `applyQuery`, `busiestLoad`, `loadBand` and the SLA clocks' formatting: they would only add easy members.
- Calibration's softmax and negative log likelihood: the loss is any function of the temperature.
- Role names that collide with JavaScript's built-in object properties in the browser's table lookup.
- Metrics, logging and best-effort publishing whose errors the code ignores.
