# Notification delivery, verified

A Dafny model of the real-time notification platform, with machine-checked proofs of what it promises.
The platform is a set of gateway instances that share one Redis and one PostgreSQL database. A backend posts a
notification for a user; it is stored once, and pushed to the user's WebSocket when some instance holds one. A client
connects with a single-use ticket, gets its unread backlog, sends heartbeats, presence updates and read receipts, and
receives live notifications over the instance's own Pub/Sub channel.

## How the model is built

* **Components.** Every object that changes state is a class whose methods are proved against functions on values:
  the limiter, the presence store and manager, the instance registry, the heartbeat handler and the liveness loop, the
  repository, the connection manager, the publisher and subscriber, tickets, the idempotency guard, the message router,
  the two endpoints and the shutdown. `TtlStore` is one Redis keyspace with a clock; a key is visible exactly while
  `now < expiry`, and EXPIRE on an absent or lapsed key does nothing.
* **System.** `Protocol` uses the same functions in one state machine: any number of requests, sessions and instances,
  each with a program counter, where one Redis command or one committed transaction is one step. Further steps let time
  pass, lose a message, fail a send, fail a request or a session at any point, crash, restart or shut down an instance.
  A step that is not enabled changes nothing, so a run is any sequence of steps at all, and "in every run" below means
  every interleaving of all of these. An instance's restarts are told apart by an epoch.
* **Link.** `Gateway.SessionRunsInSystem`, `Notifications.RequestRunsInSystem` and `Lifespan.ShutdownRunsInSystem` say that
  the imperative code is the runs of the system in which nothing comes in between; `Connections.DeliveryIsSend` says the same of a delivery.

Timestamps of rows are whatever the database chooses. Ties in `ORDER BY created_at` may be broken in any way: a query
answers with any page that `IsPage` allows, and every theorem holds for all of them.

## Where the code and its documentation differ

* The limiter is called a token bucket; the script is a fixed-window counter. The model follows the script, and the
  bound over sliding intervals is the one that script has. It is one lower than `limit * (ceil(T / window) + 1)`, because
  the call that opened the first window came before the interval. That bound is reached unless `T - 1` is a multiple of
  the window and the limit is above one (`SlidingBoundIsTight`); `MostIsReached` gives the exact maximum for every `T`.
* README.md:289-292 puts the backlog before live traffic. The code adds and registers the socket first, awaits the
  query, awaits the close of the database session, and only then writes the backlog frame; the listener writes to the
  same socket all the while. Query and frame are two steps of the model (`Snapshotting`, `SendingBacklog`).
  `Overlap.LiveFrameBeforeBacklog` gives a run with a live frame before the query, `Overlap.UnseenFrameBeforeBacklog`
  one with a live frame between the query and the backlog frame. `Ordering.FrameMayComeFirstIff` says exactly when a
  live frame can come first: until the backlog frame is written, whenever a message for the user has been handed to
  the subscription of the session's process and is still on its way. The row of a frame that comes before the query is
  in the table the query sees (`Ordering.EarlyFramesAreSeen`); that of a frame in between need not be. In general the
  query saw the row of a live frame exactly when the row was committed before the query (`Commits.FrameSeenIff`).
* Cleanup deletes by user, not by session. `Overlap.RouteLostIff` and `Overlap.StatusChangesIff` say, for any state,
  exactly which steps take a route or a status away, older sessions' cleanup among them. For every configuration
  `Overlap.OverlapLosesNotifications` gives a run in which that loses a notification; whether a session is sent one is
  in all cases decided by the creating request's own lookup and check (`Decisions.SentIffNamedAndAlive`). Theorems that
  need sessions of one user not to overlap say so (`NoOverlap`); persistence, at-most-once, tickets, isolation and
  registry ownership do not need it.
* A routable user is never shown offline when the commands of one event run together
  (`Heartbeat.RoutableImpliesPresentIff`). The platform does not run them together. For a user's only session
  `Reachability.RoutableYetOfflineIff` gives the two windows in which it happens: between the registration and the first
  status (`Overlap.RoutableBeforePresent`), and between the two expiries when time passed between the two refreshes of
  a heartbeat (`Overlap.SplitHeartbeat`). With overlapping sessions it can last as long as the newer session does:
  an older session's mark_offline deletes the status, and no number of heartbeats brings it back
  (`Overlap.HeartbeatsDoNotHelp`).

## Model

| member | source | states |
|---|---|---|
| Coverage.NoGap | app/websocket/gateway.py:27-53 | A session past its backlog query that overlaps with no other, on a process still up, with its registry entry and its instance's liveness key refreshed in time: every completed notification for its user was published to the channel its process listens on, or is in the backlog, already read, or younger than a full backlog. (That the backlog frame is then written: `Queries.BacklogIsOldestUnread`.) |
| Decisions.SentIffNamedAndAlive | app/api/routes/notifications.py:53-64 | With no such hypotheses, overlaps included: a notification committed after the query and completed is sent to the session's channel iff its request's own lookup named the instance and its own check found it alive. |
| Decisions.VettedRequestsPublish | app/api/routes/notifications.py:63-80 | A request past a successful check publishes to that instance and flags the row, unless it fails. |
| Decisions.Always | app/pubsub/publisher.py:7-17 | What is published to a live session's instance after its query goes to the subscription of its own process. |
| Coverage.Always | app/websocket/gateway.py:27-34 | The invariant behind it: every committed request is in the session's snapshot or on its way to the session's instance. |
| Coverage.NextReaches | app/api/routes/notifications.py:52-78 | While the user is found and alive, no command of a committed request can lead to a reply that skips the publish. |
| Coverage.LookingCovers | app/websocket/gateway.py:50-53 | The backlog query sees the row of every request that has committed by then. |
| Overlap.OverlapLosesNotifications | app/websocket/gateway.py:44-47 | For every configuration some run with two overlapping sessions loses a notification for a session that is still served, so NoGap needs its hypothesis. |
| Overlap.RouteLostIff | app/pubsub/instance_registry.py:29-36 | In any state a step takes a user's route away exactly when it lets the entry lapse, registers the user elsewhere, or deletes by user. |
| Overlap.StatusChangesIff | app/presence/presence_store.py:25-38 | In any state a step takes a visible status away iff it lets it lapse or is some session's or shutdown's mark_offline, and brings an invisible one back iff it is a mark_online or mark_away; a heartbeat never is. |
| Overlap.RoutableBeforePresent | app/websocket/gateway.py:28-31 | A run in which a user is routable and offline between the two commands of a connect. |
| Overlap.SplitHeartbeat | app/websocket/heartbeat.py:26-28 | A run without overlap in which time passes between the two refreshes of a heartbeat, and the user ends routable and offline. |
| Overlap.HeartbeatsDoNotHelp | app/websocket/gateway.py:44-47 | For any number of heartbeats, a run in which an older session's mark_offline leaves the user routable, served and offline through all of them. |
| Overlap.LiveFrameBeforeBacklog | app/websocket/gateway.py:27-34 | A run in which a session gets a live frame before its backlog query. |
| Overlap.UnseenFrameBeforeBacklog | app/websocket/gateway.py:50-67 | A run in which a live frame comes between the backlog query and the backlog frame, and its row is not in what the query saw. |
| Ordering.FrameMayComeFirstIff | app/websocket/gateway.py:27-67 | Once the socket is in the map and until the backlog frame is written, the listener alone can show a live frame first iff a message for the user is on its way to the subscription of the session's process. |
| Ordering.FramesWereHandedOver | app/main.py:43-48 | Every live frame shows a message published for the session's user to the subscription of the session's own process. |
| Ordering.EarlyFramesAreSeen | app/websocket/gateway.py:50-53 | The row of a frame that comes before the backlog query is in the table the query sees. Frames between the query and the backlog frame are not covered; for those see the next row. |
| Commits.FrameSeenIff | app/websocket/gateway.py:50-67 | Any live frame, however early: some step of the run committed its row, and the query saw the row iff that step came before the query. |
| Commits.RowsWereCommitted | app/db/repository.py:26-39 | Every row was inserted by a step of the run, with the id, user, kind and payload its request was posted with, and the database's time. |
| Commits.FramesAreAsPosted | app/api/routes/notifications.py:63-77 | And so was every live frame. |
| Commits.SeenIff | app/websocket/gateway.py:50-53 | The query saw exactly the rows committed before it: a row is in the snapshot iff its commit comes before the session's query in the run. |
| Commits.CommittedIff | app/db/repository.py:26-39 | A row is in the table at exactly the moments of the run after the insert that committed it. |
| Clients.ConformingClientsStayReachable | app/websocket/message_router.py:40-52 | A client within its message limit whose heartbeats are never more than `gap` apart, handled within `lag`, with gap + lag below the TTL, in a session that overlaps with no other: no message was ever denied, lookup answers its instance, and from the first status on it is not shown offline. |
| Clients.Always | app/websocket/heartbeat.py:26-28 | For such a client every heartbeat passes the limiter and both its refreshes are effective. |
| Reachability.RoutableAndPresentIff | app/pubsub/instance_registry.py:29-42 | However late the refreshes: a user's only connected session is routable exactly while its last effective refresh of the entry is less than a TTL old, and present exactly while that of the status is. |
| Reachability.RoutableYetOfflineIff | app/websocket/heartbeat.py:11-28 | The two windows in which such a user is routable and shown offline, exactly. |
| Reachability.SocketsLeadToSessions | app/websocket/connection_manager.py:42-53 | However late the refreshes: the map of a running instance leads to the user's only session, unless a send failed. |
| Drops.SocketOrFailedSend | app/websocket/connection_manager.py:42-53 | The same with the run as witness: the map leads to the session, or a send to the user failed on that process after the user's socket was last added there. |
| Reachability.Always | app/websocket/heartbeat.py:26-28 | Without overlap the entry and the status carry exactly the expiry of the session's last effective refresh, and the map leads to it. |
| Reachability.OtherStep | app/websocket/gateway.py:44-47 | No step of any other session touches what a session without overlap holds. |
| Ownership.LookupNamesLatestSession | app/pubsub/instance_registry.py:29-42 | In every run, overlaps and crashes included: an answer `i` means the user's last session to register did so on `i` and has not unregistered, or was aborted between the two. |
| Ownership.Always | app/pubsub/instance_registry.py:29-36 | Every registry entry belongs to the user's latest registered session, not yet unregistered or aborted before it could. |
| Delivery.AtMostOnce | app/api/routes/notifications.py:37-80 | In every run there is at most one row, one persisted reply and one publish per notification id. |
| Delivery.Always | app/api/routes/notifications.py:30-84 | What every step keeps about requests, rows, publishes, flags and dedup keys; in particular only committed ids are marked seen. |
| Delivery.RepliesAreHonest | app/api/routes/notifications.py:82-84 | A persisted reply's row is there with exactly the replied delivered_live; a duplicate reply names a row that exists. |
| Delivery.RepliesAreFinal | app/api/routes/notifications.py:82-84 | A reply never changes, so the above holds for ever after. |
| Delivery.UncommittedIdsAreNeverBlocked | app/core/idempotency.py:17-35 | Whatever failed before, an id with no row passes the guard and is inserted. |
| Receipts.OnlyOwnersMarkRead | app/db/repository.py:70-83 | In every run a row that is marked read was marked by its own user: a session with a ticket issued to that user was sent a receipt for that id at exactly the recorded time, and then recorded it. |
| Receipts.StepReads | app/main.py:35-38 | In any state a step changes read marks and receipts only if it records a receipt, and then exactly the rows of that id and that user, and one receipt if there is one. |
| Delivery.RowsPersist | app/db/repository.py:41-48 | Rows are never lost and change only by becoming live or read. |
| Delivery.ReadRowsStayRead | app/db/repository.py:68-100 | In every run read_at agrees with the receipts, and a read row is in no later unread query. |
| Guard.GuardIsTransparent | app/core/idempotency.py:10-35 | Refinement: every run with the guard is matched by one in which the cache always misses, with the same replies, tables, messages, sessions and frames. |
| Callers.Always | app/api/routes/notifications.py:23-28 | In every run the counter of a caller is what the limiter keeps after one call for each request of that caller that has run its first command, and nothing else. |
| Callers.RequestsAreLimited | app/api/routes/notifications.py:23-28 | In every run a request that is past the limiter, or was answered 429, asked it exactly once, and it is past it iff its call is admitted in the sequence of all calls of its caller. |
| Callers.TooManyMeansTooMany | app/api/routes/notifications.py:23-28 | A 429 follows exactly `limit` requests of the same caller that were let through less than a window before. |
| Seen.SeenIff | app/core/idempotency.py:30-35 | In every run an id is in the cache iff some request marked it less than a TTL ago. |
| Seen.AnsweredIdsWereMarked | app/api/routes/notifications.py:30-48 | Any id a request was answered about, other than by 429, was marked. |
| Seen.GuardAnswersIff | app/api/routes/notifications.py:30-33 | In every run the guard answers a request as a duplicate iff its id was marked less than a TTL ago, and otherwise the request goes on to the table. |
| Guard.HitErased | app/api/routes/notifications.py:30-48 | A cache hit is answered exactly as insert, conflict and mark would answer it. |
| Vetting.PublishesAreVetted | app/api/routes/notifications.py:52-64 | Every publish in every run goes to an instance that the lookup of the inserting request itself named, after the commit and before any publish of the row, and that the same request's later check found alive. |
| Vetting.LiveRowsWereVetted | app/api/routes/notifications.py:63-80 | In every run a row with delivered_live set was published to an instance that its own request's lookup named and that the same request's later check found alive. |
| PublishOrder.FramesComeInPublishOrder | app/pubsub/subscriber.py:46-63 | In every run, whatever is lost or fails: of two live frames on sockets of one process the one shown first was published first. |
| Fanout.AlwaysBalanced | app/pubsub/subscriber.py:46-63 | Conservation: every published message is exactly one of on the wire, being sent, shown, lost. |
| Fanout.OneFramePerNotification | app/pubsub/subscriber.py:46-63 | Every frame shows a published message and no notification is shown live twice, on any sockets. |
| Isolation.FramesAreFaithfulAndIsolated | app/main.py:43-54 | Every live frame has exactly the fields of a committed row, on a socket whose ticket was issued to the row's user. |
| Isolation.Always | app/websocket/connection_manager.py:21-53 | Connection maps, messages in flight and frames lead only to sessions of their own user. |
| Queries.BacklogIsOldestUnread | app/websocket/gateway.py:50-67 | In every run a session's backlog is a sorted choice of the `limit` oldest rows unread for its ticket's user in the table as it was at one moment of the run, when the session was about to query, after it had registered; no id twice. Once the session takes client messages the backlog frame has been written. |
| Queries.RegistersMeans | app/websocket/gateway.py:28-30 | That registration made the user routable to the session's instance for a TTL. |
| Cleanup.LeavingIsCleanedUp | app/websocket/gateway.py:33-47 | From any state: an exception anywhere in the try block, or a disconnect, and the session's next three commands leave its user with no socket, entry or status. |
| Cleanup.EndedMeansCleanedUp | app/websocket/gateway.py:33-47 | In every run a session that ended left the try block and then ran remove, unregister and mark_offline in this order. |
| Cleanup.AbortedOutsideTheTry | app/websocket/gateway.py:27-47 | In every run a session that ended without its whole cleanup raised outside the try block, and in the cleanup itself if it had queried its backlog. |
| Tickets.TicketsAreLinear | app/websocket/auth_handshake.py:23-33 | Accepted sessions have distinct tickets, each issued to the session's user, redeemed within its TTL and not redeemable again. |
| Tickets.RedeemedIff | app/websocket/auth_handshake.py:23-33 | In every run a redemption answers `u` iff the ticket was issued to `u`, less than its TTL ago, and no session was accepted with it before. |
| Limits.MessageHandledIff | app/websocket/message_router.py:40-69 | In every run a session handles a message iff it is admitted in the sequence of the session's own messages, and each kind leads to its own command with the status, the id and the time it names. |
| Gateway.AnswersInRuns | app/websocket/message_router.py:44-73 | In every run a message is answered rate_limited iff it is not admitted in that sequence, and an error iff it is admitted and malformed. |
| Limits.ConformingClientsAreNeverLimited | app/websocket/message_router.py:40-46 | In every run, a client with at most `limit` messages in every half-open window has its next message handled. |
| Limits.Always | app/core/rate_limiter.py:10-18 | A session's counter is a function of its own messages alone, whatever else runs. |
| Liveness.CrashIsDetected | app/api/routes/notifications.py:53-61 | Once an instance is down and not restarted, no liveness check succeeds from one TTL on. |
| Liveness.HandedOrLost | app/pubsub/publisher.py:15-17 | In every run a message for an instance waits for its current process if that is up, and otherwise is lost for good. |
| Liveness.AliveIff | app/pubsub/instance_registry.py:44-48 | The check succeeds exactly while the instance's last refresh is less than a TTL old. |
| RateLimiting.RateLimiter.Allow | app/core/rate_limiter.py:10-44 | The script's INCR, EXPIRE and comparison are one hit on the key's window, for every state of the key. |
| RateLimiting.SlidingBound | app/core/rate_limiter.py:10-18 | In any interval of length T at most limit * (ceil(T / window) + 1) - 1 calls are admitted (0 for limit 0), and at most the exact maximum `Most`. |
| RateLimiting.SlidingBoundIsTight | app/core/rate_limiter.py:10-18 | For a positive limit, some run reaches that bound in some interval of length T iff T - 1 is no multiple of the window or the limit is one. |
| RateLimiting.MostIsReached | app/core/rate_limiter.py:10-18 | For every length some run and interval admit exactly `Most` calls: limit * ceil(T / window), or limit - 1 + limit * ceil((T - 1) / window) where that is more. |
| RateLimiting.DenialIsJustifiedAndTemporary | app/core/rate_limiter.py:10-18 | A denied call follows exactly `limit` admissions in its window, all less than a window old; calls are denied until the window ends and the first one after is admitted. |
| RateLimiting.WindowOf | app/core/rate_limiter.py:10-18 | Every call belongs to a window opened by a call that found no live counter, whose first `limit` calls are the admitted ones. |
| RateLimiting.CounterExpires | app/core/rate_limiter.py:10-13 | Every counter carries an expiry, at most a window away. |
| RateLimiting.ConformingNeverDenied | app/core/rate_limiter.py:10-18 | At most `limit` calls in every half-open window are all admitted. |
| RateLimiting.KeysAreIndependent | app/core/rate_limiter.py:22-23 | However calls interleave, a key's counter depends on its own calls only. |
| Presence.StatusAgreesWithHistory | app/presence/presence_manager.py:21-52 | The status shown is the one the event log alone supports: the last online or away since the last clear, with no gap of a TTL up to now; offline when there is none. |
| Presence.LastSeenAgreesWithHistory | app/presence/presence_store.py:46-54 | last_seen is the time of the last online, away or heartbeat event. |
| PresenceLog.StatusInRuns | app/websocket/gateway.py:28-47 | In every run of the system the visible status is the one that the log of what the sessions and shutdowns did supports, in the sense of the first of these rows. |
| PresenceLog.LastSeenInRuns | app/presence/presence_store.py:25-38 | And last_seen is the time of the user's last online, away or heartbeat event in that log. |
| PresenceLog.Always | app/presence/presence_store.py:25-54 | Statuses and last_seen in Redis are the replay of the run's own log, whatever interleaves. |
| Presence.HeartbeatsNeverRevive | app/presence/presence_store.py:33-35 | Once offline, no heartbeat of anyone brings the status back. |
| Presence.PresenceStore.SetOnline | app/presence/presence_store.py:25-27 | SET with the TTL, then last_seen; nobody else's keys change. |
| Presence.PresenceStore.SetAway | app/presence/presence_store.py:29-31 | The same for away. |
| Presence.PresenceStore.Refresh | app/presence/presence_store.py:33-35 | EXPIRE, a no-op on a lapsed status, then last_seen. |
| Presence.PresenceStore.Clear | app/presence/presence_store.py:37-38 | Deletes the status and keeps last_seen. |
| Presence.PresenceManager.MarkOnline | app/presence/presence_manager.py:37-38 | Online with the manager's TTL. |
| Presence.PresenceManager.MarkAway | app/presence/presence_manager.py:40-41 | Away with the manager's TTL. |
| Presence.PresenceManager.Heartbeat | app/presence/presence_manager.py:43-44 | Refreshes with the manager's TTL. |
| Presence.PresenceManager.MarkOffline | app/presence/presence_manager.py:46-47 | Clears the status at once. |
| Presence.PresenceManager.Get | app/presence/presence_manager.py:49-52 | Offline exactly when no status is visible; last_seen whatever the status. |
| Registry.InstanceRegistry.Register | app/pubsub/instance_registry.py:29-30 | SET with the TTL, replacing any other instance. |
| Registry.InstanceRegistry.Refresh | app/pubsub/instance_registry.py:32-33 | EXPIRE, a no-op on a lapsed entry. |
| Registry.InstanceRegistry.Unregister | app/pubsub/instance_registry.py:35-36 | Deletes the user's entry, whoever made it. |
| Registry.InstanceRegistry.MarkAlive | app/pubsub/instance_registry.py:44-45 | Sets the liveness key with its TTL. |
| Heartbeat.HeartbeatHandler.Handle | app/websocket/heartbeat.py:26-28 | Presence first, then the registry entry, both refreshed. |
| Heartbeat.RoutableImpliesPresentIff | app/main.py:64-76 | A routable user is present in every run of whole events, overlaps included, exactly when presence is kept at least as long as the registry entry. |
| Heartbeat.CoveredAlways | app/websocket/heartbeat.py:11-28 | In those runs a registry entry comes with a status that expires no earlier. |
| Heartbeat.InstanceLivenessLoop.Run | app/websocket/heartbeat.py:101-121 | After a start and any pattern of refreshes the key's expiry is a TTL from the last successful one. |
| Heartbeat.MissesToleratedIff | app/websocket/heartbeat.py:94-117 | Up to `m` consecutive misses never let the key lapse exactly when (m + 1) * max(1, ttl // 3) < ttl. |
| Heartbeat.RefreshSlack | app/websocket/heartbeat.py:98-98 | Which TTLs tolerate none, one and two misses. |
| Repository.NotificationRepository.Create | app/db/repository.py:26-39 | Returns the row iff no row has the id; the table then has this one row more, not live and unread, and otherwise is unchanged. |
| Repository.NotificationRepository.MarkDeliveredLive | app/db/repository.py:41-48 | Sets the flag of that id's row and changes nothing else. |
| Repository.NotificationRepository.MarkRead | app/db/repository.py:68-90 | Exactly the rows of that id and that user get that time, every other row stays as it was, and there is one more receipt iff there was such a row; says which. |
| Repository.NotificationRepository.GetUnreadBacklog | app/db/repository.py:92-100 | Unread rows of the user only, oldest first, none twice; one left out means `limit` rows, none of them newer. |
| Repository.NotificationRepository.GetHistory | app/db/repository.py:102-113 | Rows of the user only, older than the cursor, newest first, none twice; one left out means `limit` rows, none of them older. |
| Repository.RecordReadKeeps | app/db/repository.py:68-90 | Ids stay unique, receipts stay the owners', read_at stays the latest receipt's time, no read mark is lost. |
| Repository.InsertKeeps | app/db/repository.py:26-39 | An insert keeps all of that and afterwards the id has a row. |
| Repository.Query | app/db/repository.py:98-99 | Sorting and cutting off gives a page that ORDER BY and LIMIT allow. |
| Repository.PlaceSorts | app/db/repository.py:98-98 | Placing a row into a sorted list without repeats keeps it so. |
| Backlog.BacklogDrains | app/websocket/gateway.py:50-67 | With no new rows, ceil(n / limit) acknowledged backlogs show each of the n unread rows exactly once, oldest first, none of them empty, whatever the tie order. |
| Backlog.PageRemoved | app/db/repository.py:68-100 | Acknowledging a backlog removes exactly its rows from the unread ones. |
| Backlog.UnreadAfterAcks | app/db/repository.py:68-80 | After any acknowledgements a row is unread iff it was and none of them names it. |
| Backlog.EmptyBacklogIff | app/db/repository.py:92-100 | A backlog is empty exactly when nothing is unread. |
| History.GetHistory | app/api/routes/history.py:23-30 | The page holds rows of the asked user older than the cursor, and one left out means `limit` rows none of which is older; the next cursor is the last row's time exactly when the page is full. |
| History.PagesAreMine | app/db/repository.py:102-113 | All pages together hold rows of the asked user only. |
| History.PagesAreAllMine | app/db/repository.py:102-113 | With distinct times the finished pages hold exactly the user's rows in the table. |
| History.PagingTerminates | app/api/routes/history.py:25-30 | Following the cursor ends after at most n / limit full pages. |
| History.PagingNeverRepeats | app/api/routes/history.py:25-30 | No row comes twice and times descend across pages. |
| History.PagingIsExact | app/api/routes/history.py:25-30 | With distinct timestamps the pages are the whole history. |
| History.MissedRowsTieWithACursor | app/db/repository.py:109-111 | In general a missed row was created at exactly the time of a cursor that was followed. |
| History.PagingExactIff | app/api/routes/history.py:25-30 | For every limit and tie order the finished pages are the whole history iff no group of equal timestamps is cut by the end of a page, counted from the newest row. |
| History.SingleRowPagingExactIff | app/db/repository.py:109-111 | One row a page is complete exactly when no two timestamps are equal. |
| Connections.ConnectionManager.Add | app/websocket/connection_manager.py:21-23 | The user's socket here is now this one. |
| Connections.ConnectionManager.Remove | app/websocket/connection_manager.py:25-27 | The user has no socket here, whichever it was. |
| Connections.ConnectionManager.SendJson | app/websocket/connection_manager.py:42-53 | The user's socket takes the frame, or the user is not here, or the failed send drops the user. |
| Connections.ConnectionManager.ConnectedUserIds | app/websocket/connection_manager.py:35-36 | Every connected user, each once. |
| Connections.ConnectionManager.CloseAll | app/websocket/connection_manager.py:55-72 | Whatever other tasks do to the map while a close is awaited: it returns exactly the users connected at the start, closes in turn the socket each of them has by then, and only sockets opened meanwhile remain; undisturbed, it empties the map and closes every socket. |
| Connections.UntouchedAreClosed | app/websocket/connection_manager.py:61-72 | The socket of every user no other task touches meanwhile is closed in its turn. |
| Connections.SocketAfter | app/websocket/connection_manager.py:21-27 | What other tasks leave behind: a user's socket is the one opened last, unless it left or was closed since. |
| Connections.DeliveryIsSend | app/main.py:43-48 | In the system a pickup and its completion are one such send. |
| Messaging.Publisher.PublishToInstance | app/pubsub/publisher.py:15-17 | The message goes to the instance's current subscription or is lost. |
| Messaging.Subscriber.Listen | app/pubsub/subscriber.py:46-63 | The loop handles every notification in the stream and outlives every bad message, while sessions open and leave. |
| Messaging.ListenDeliversInOrder | app/pubsub/subscriber.py:46-63 | The frames shown are exactly, in order, the notifications that the socket the user has at that point takes. |
| Messaging.MapAgreesWithEvents | app/websocket/connection_manager.py:21-53 | That socket is the last one opened for the user, or the one here from the start, if it has neither left nor refused a frame since. |
| Credentials.WSTicketAuth.RedeemTicket | app/websocket/auth_handshake.py:28-33 | Answers and removes in one command. |
| Credentials.IdempotencyGuard.HasSeen | app/core/idempotency.py:30-32 | Whether the key is visible. |
| Credentials.IdempotencyGuard.MarkSeen | app/core/idempotency.py:34-35 | The key is visible for one TTL. |
| Gateway.MessageRouter.Route | app/websocket/message_router.py:40-73 | Every message counts; rate_limited iff not admitted, an error iff admitted and malformed; an update sets that status, a heartbeat refreshes both live keys, a receipt reads the user's own row, and nothing else changes. |
| Gateway.RouteIsSteps | app/websocket/message_router.py:40-73 | Routing a message is the session's taking it and running its commands in the system. |
| Gateway.WebsocketGateway.WebsocketEndpoint | app/websocket/gateway.py:15-47 | The call is the run of exactly these session steps: redeem, open, each message with its commands, clean up. Each message is answered as the router answers it, and the user ends with no socket, entry or status here. |
| Gateway.WebsocketGateway.Serve | app/websocket/gateway.py:36-40 | The loop routes every message in order; answer k is rate_limited iff call k is not admitted in the sequence of the connection's calls, an error iff admitted and malformed, nothing otherwise. |
| Gateway.WebsocketGateway.Open | app/websocket/gateway.py:27-34 | Add, register, mark online, then the query and the backlog frame: in this order a run of the session, after which socket, entry, status and last_seen are the user's and nothing else has changed. |
| Gateway.WebsocketGateway.Close | app/websocket/gateway.py:44-47 | Remove, unregister, mark offline: in this order a run of the session, after which exactly socket, entry and status are gone. |
| Gateway.SessionRunsInSystem | app/websocket/gateway.py:15-47 | From any state of the system an uninterrupted session does what the endpoint does. |
| Notifications.NotificationsApi.CreateNotification | app/api/routes/notifications.py:18-84 | The endpoint's branches are exactly the request's commands run to its reply; the call counts against the caller, and reply, new row and dedup key follow from the stores before the call. |
| Notifications.NotificationsApi.Deliver | app/api/routes/notifications.py:52-80 | Lookup, liveness check, publish and flag, or the fall-back to the backlog. |
| Notifications.UninterruptedRequest | app/api/routes/notifications.py:23-84 | The reply, the table and everything in Redis after a request, directly from what the stores held before it. |
| Notifications.RetryIsNoOp | app/api/routes/notifications.py:30-48 | Once a request was answered, a later retry changes no row and publishes nothing. |
| Notifications.RequestRunsInSystem | app/api/routes/notifications.py:18-84 | From any state of the system an uninterrupted request does what the endpoint does. |
| Lifespan.Application.Shutdown | app/main.py:111-117 | Closes every socket and clears exactly their users' entries and statuses. |
| Lifespan.ShutdownRunsInSystem | app/main.py:111-117 | In the system the shutdown steps of an instance, in any order of its users, do what the method does: exactly the users with a socket there end neither routable nor present, and nothing else changes. |

## Left out

- Lifespan.Application.Shutdown: the closing of all sockets is one step; interference while sockets close is in `CloseAll`, and between the deletions in the system's tear-down steps.
- Gateway.WebsocketGateway.WebsocketEndpoint: the method covers a client that disconnects; an exception at any point, and what the `finally` block then does, is the `Break` input of the system.
- Notifications.NotificationsApi.CreateNotification: the method covers the uninterrupted request; failures and interleavings are steps of the system.
- Heartbeat.RoutableImpliesPresentIff: the commands of one connect, heartbeat, update or disconnect run together; the interleavings are in `Reachability.RoutableYetOfflineIff`, `Overlap.StatusChangesIff` and the runs beside them.
- Heartbeat.CoveredAlways: as above.
- Clients.ConformingClientsStayReachable: heartbeats are timed when the platform takes them; how long a message is under way is not modelled.
- Presence.PresenceManager.Get: the two reads are taken at one moment.
- Presence.PresenceStore.SetOnline: in the system the status and last_seen, two commands, are written in one step; nothing but last_seen's own readers can tell.
- Coverage.NoGap: "the channel its process listens on" is the subscription of the process. In the model it lasts as long as the process; in app/pubsub/subscriber.py:46-63 an exception from `listen()` itself, as opposed to one from a message or its handler, ends the listener while the process and its liveness loop go on.
- Receipt of a published message: Pub/Sub is fire-and-forget, so the theorems speak of publication, conservation and at-most-once, not of guaranteed receipt.
- `ReconciliationLoop`: it only logs, so it has no effect to state.
- JWT decoding, schemas, JSON encoding, middleware, metrics, logging, health checks, engine and pool: library behaviour. Payloads are opaque strings and malformed client messages are one kind.
- Task creation, cancellation and pauses of the loops: the listener, the liveness loop and the message loop are modelled by what they do per round.
- Ticket randomness: tickets are fresh by assumption. Users are canonical UUID strings on both sides.
- Redis key strings: one typed keyspace per prefix.
- `delivery_log`, which no code writes, the read-receipt listing, and the surrogate `id` columns.
- Clock differences: Redis, the database and the processes read one clock, except that `created_at` is arbitrary.
