# CollabBoard in Dafny

A model of the concurrent and stateful parts of CollabBoard, a Go API with a
Next.js client, and proofs about it:

- **The ordered board and its event stream** (`Board`, `Ranks`, `RankedList`,
  `Ordering`, `BoardRefinement`, `BoardEdits`, `Replica`, `ReplicaProofs`,
  `FullRead`, `TenantStore`, `Stamps`, `Outlines`, `Replay`, `SteadyLogs`,
  `SteadyReplay`, `ReplayLost`, `TwoMoves`). Positions are fractional ranks a
  client never sees; events carry anchors. Rank-sorted rows refine plain lists; a
  client that draws only the published events has the server's columns, order,
  placement and details, and `Stamps` says when it also has their timestamps;
  `SteadyReplay` says which logs can be drawn twice.
- **The client's live layer** (`LiveLog`, `CardMoves`): a log retired by counting
  reads, and per-card chains of queued moves.
- **The realtime hub** (`Rooms`, `Hub`, `HubRuns`, `HubRaces`, `Connection`,
  `Fanout`, `Drain`, `Maintain`, `MemoryBroker`, `RedisBroker`, `Routing`): two
  locks, a reference count, one dispatcher, bounded queues, drain and re-authorization.
- **Sessions, budgets and accounts** (`KeyValue`, `Sessions`, `SessionRaces`,
  `RateLimit`, `Accounts`) and **the web tier's refreshes** (`BrowserRefresh`,
  `AuthenticatedCall`, `RefreshWindow`).

Where the source updates state in place there is a class whose methods are proved
against functions on values; the properties are proved about those functions, and
over every run or interleaving of them. A concurrent component is a transition
system whose steps are its locked sections, channel operations, transactions or
store calls; `Legal` says which sequences of steps can happen and `Run` where they
lead. For most of these systems one lemma says what the steps of a run make of its
state, as `Drain.DrainFollowsItsSteps` does, and another that what was begun is
finished, as `Drain.DrainFinishes` does. Token hashes and generated identifiers are
taken not to collide, ranks are exact reals with a decimal scale, and clocks, the
network, the authorizer and a crash are inputs.

`dafny verify dfyconfig.toml` checks everything.

## Where the code and its own words part

- `use-board-live.ts` and `apply.ts` say replaying a log costs nothing because each
  event is idempotent. One event is. A longer log is free when it is steady
  (`SteadyReplay`), and `ReplayLost` has runs whose logs are not: two of them leave
  columns in another order, one loses a card.
- Every body carries the time of its row's last update and the card panel shows it,
  but the reducer never writes it, and a renumbering updates rows no event names
  (`Stamps`: exactly which drawn times are stale).
- `leave` unsubscribes after it has released the lock, so a join in between can be
  silenced; the re-authorization sweep runs beside the read pump, so a room can be
  revoked before it is remembered, and a leave and its forgetting can be pulled
  apart (`HubRaces`: for each a run that loses the guarantee, and over every run
  exactly when it is kept).
- A revocation that meets a rotation between its lookup and its mint does not last
  (`SessionRaces.ARotationOutlivesALogout`, and exactly when in
  `SessionRaces.RevokedForGood`).
- The cap on owned organizations is a cap only while creations come one at a time,
  as its comment says (`Accounts.TwoChecksAtOnceMakeSix`); `Accounts.OwnableExactly`
  says when it can be exceeded.
- A refresh attempt's `finally` clears whatever attempt is pending, so after a
  sign-out two can be in flight (`BrowserRefresh.SignOutDoublesTheFlight`, and
  exactly when in `BrowserRefresh.SingleFlightExactly`).
- A fixed window lets through up to twice its budget less one in one window's
  length, and that is reached (`RateLimit`).

## Model

The first 88 rows, down to `RefreshWindow.NoReplayInTheWindow`, are the main results. The rows after
them are what those are built from: operations, refinements, invariants and helpers.

| member | source | states |
|---|---|---|
| ReplicaProofs.ReplicaFollowsServer | apps/api/internal/api/events.go:139-237 | over every serial run of requests on any boards, refused and rolled-back ones included, a client that starts from a full read of one board and draws only that board's published events in commit order has the columns, order, placement and details a full read of the rows returns; its timestamps are `Stamps` |
| Stamps.StampsAgreeExactly | apps/api/migrations/00003_domain.sql:130-136 | over every run from a full read, a drawn card's or column's last-updated time is its row's if and only if no update, move, rename or renumbering has rewritten that row since it was read or drawn, or the last to do so bore the same time; everything else drawn is the full read's |
| BoardEdits.UpdateReadsBack | apps/api/internal/store/query.sql:385-407 | a full read after a PATCH shows each field the PATCH named as it named it and every other field of the card as before |
| ReplicaProofs.RanksStayPrecise | docs/adr/0004-card-ordering.md:145-150 | after any run of requests no committed rank has been rounded and none needs more than 100 decimal places |
| BoardRefinement.MoveCardRefines | apps/api/internal/api/cards.go:424-512 | a successful card move: distinct ranks; the target column is remove-then-insert after the anchor, every other column only loses the card, the card set and every other field are kept, a rebalance changes no order |
| BoardRefinement.MoveColumnRefines | apps/api/internal/api/columns.go:237-297 | the same of a board's columns; no card and no other board changes |
| BoardRefinement.MoveCardRefusals | apps/api/internal/api/cards.go:424-512 | a card move is refused exactly for a missing column, a missing card, a column of another board, or an anchor that is not among the target's other cards, the card itself included |
| TenantStore.TenantRows.MoveCard | apps/api/internal/api/cards.go:424-512 | the statements of a card move run in place leave the rows the move specifies, and a refusal leaves them untouched |
| TenantStore.TenantRows.MoveColumn | apps/api/internal/api/columns.go:237-297 | the same of a column move |
| FullRead.GroupedReadIsTheBoard | apps/web/lib/board/snapshot.ts:84-116 | applied to the API's two flat lists it rebuilds exactly the rank-sorted board, with nothing unplaced |
| Replay.ApplyTwice | apps/web/lib/realtime/apply.ts:138-153 | drawing any one event a second time changes nothing, on every board |
| SteadyReplay.SteadyReplayIsFree | apps/web/components/boards/use-board-live.ts:50-56 | over every run: when the included part of the room's log is steady (a last move's anchor neither moves nor goes later, nothing moves into a column deleted later, no id is created again), the whole log folded again over a read that has that part draws what a full read taken now returns |
| ReplayLost.ReplayIsFreeExactlyUpToOne | apps/web/components/boards/use-board-live.ts:50-56 | every run with a log of length k replays freely if and only if k is at most one, although the comment promises it for any log |
| TwoMoves.TwoMovesReplayExactly | apps/web/components/boards/use-board-live.ts:50-56 | a run whose log is two column moves replays freely if and only if they move one column, or the second does not move the first one's anchor, or moves it right behind the first, or the first is right behind its anchor in the read all the same |
| ReplayLost.AMovedAnchorIsLost | apps/web/components/boards/use-board-live.ts:50-56 | a run whose second move moves the first one's anchor: the replay orders the columns differently |
| ReplayLost.ADeletedAnchorIsLost | apps/web/components/boards/use-board-live.ts:50-56 | a run with one move, behind a column deleted later: the replay orders the columns differently |
| ReplayLost.ADetourLosesTheCard | apps/web/components/boards/use-board-live.ts:50-56 | a run that moves a card through a column deleted later: the replay loses the card |
| LiveLog.LiveLogConverges | apps/web/components/boards/use-board-live.ts:156-170 | in every schedule of frames, timers, resubscribes and overlapping reads, a quiescent hook has an empty log and shows a full read that includes every event it ever observed, skipped creates and cleared entries included |
| LiveLog.QuiescentScreenIsTheServer | apps/web/components/boards/use-board-live.ts:193-307 | end to end: having observed the last event, a quiescent client shows the server's rank-sorted board |
| LiveLog.ScreenIsWhatCameSince | apps/web/components/boards/use-board-live.ts:154-170 | counting reads is keeping two lists: over every run the screen is the last snapshot with, in arrival order, the changes observed since the start of the last read this hook had started when it arrived, and those after; none from before a resubscribe |
| LiveLog.FramesAreDrawn | apps/web/components/boards/use-board-live.ts:256-294 | a live change is drawn over what is on screen as it arrives, all but a create while one of this client's own is pending, and a read is due; news of the board itself draws nothing, and a deletion reads at once |
| LiveLog.LiveLogComesToRest | apps/web/components/boards/use-board-live.ts:211-220 | from any point of a run, if nothing more is announced, the timer fires at most once and the reads in flight arrive, in exactly so many steps, and then the hook is quiescent with an empty log |
| CardMoves.OneInFlightInUserOrder | apps/web/components/boards/card-moves.ts:128-180 | in every schedule of drags and answers one card's requests go out in user order, each once, never two in flight |
| CardMoves.AnswersDecide | apps/web/components/boards/board-mutation.ts:156-170 | over every run, a success settles its move as accepted and clears the message, any other answer settles it as refused and reports a failure, a conflict for a 409 only; exactly one report names the move |
| CardMoves.SentOnlyAfterAccepted | apps/web/components/boards/card-moves.ts:154-163 | once a move's request has gone out every move it was queued behind has been answered with a success |
| CardMoves.RefusalDisownsTheQueue | apps/web/components/boards/board-mutation.ts:138-190 | a move answered with a failure abandons everything queued behind it, without a request, an answer or a report |
| CardMoves.MapHoldsTheUnsettled | apps/web/components/boards/card-moves.ts:128-180 | the map holds a card exactly while it has an unsettled move, the entry being its latest |
| CardMoves.ChainsDrain | apps/web/components/boards/board-mutation.ts:138-190 | once dragging stops only so many gates and answers remain, and when none can be taken every move has settled and the map is empty |
| HubRuns.ReferenceCountsAreConserved | apps/api/internal/realtime/hub.go:301-390 | at every interleaving point a room's count is its members plus joins counted but not inserted plus leaves removed but not decremented, and is absent exactly when that is zero |
| HubRuns.SubscriptionsAgree | apps/api/internal/realtime/hub.go:314-390 | with the last decrement and its unsubscribe one step, and nothing else paired, the transport is subscribed exactly to the counted rooms |
| HubRuns.MembershipIsAuthorized | apps/api/internal/realtime/conn.go:284-344 | in every interleaving, the sweep's included: a member is of the room's tenant and was authorized for its board before insertion; a connection never holds more than the cap; a finished one holds nothing; the hub lists exactly the others |
| HubRuns.MembersKnowTheirRooms | apps/api/internal/realtime/conn.go:392-406 | with the sweep's leave and its forgetting one step, a member has the room in its own set, up to the insertion still to be remembered, and a finished connection is in no room |
| HubRuns.ClosingAdmitsNobody | apps/api/internal/realtime/hub.go:301-312 | the hub can start closing at any point, and from then on, in any continuation, it registers nobody and lets no join through that had not passed its check before |
| HubRuns.MembersWereSaidYesTo | apps/api/internal/realtime/conn.go:292-336 | in every interleaving a member of a room was said yes to for its board, by an authorizer answering while it was asking for it |
| HubRaces.LateUnsubscribeSilencesARoom | apps/api/internal/realtime/hub.go:374-389 | a run in which the unsubscribe outside the lock undoes a join that came in between |
| HubRaces.LiveExactlyWhenInTime | apps/api/internal/realtime/hub.go:374-389 | over every run, whatever is paired with what, counted rooms stay subscribed throughout if and only if each unsubscribe on its own still finds its room uncounted |
| HubRaces.RevokedBeforeRemembered | apps/api/internal/realtime/conn.go:306-344 | a run in which a sweep revokes a new subscription between its insertion and its being remembered, leaving a room held but never delivered |
| HubRaces.DeliveredExactlyWhenStillIn | apps/api/internal/realtime/conn.go:306-344 | over every run, whatever is paired with what, each connection is delivered every room it holds and is not giving up if and only if no insertion is undone before it is remembered |
| HubRaces.SplitForgettingLeaksAMember | apps/api/internal/realtime/conn.go:591-592 | a run in which the sweep's leave and its forgetting, apart, leave a finished connection in a room |
| HubRaces.KnownExactlyWhenForgottenInTime | apps/api/internal/realtime/conn.go:591-592 | over every run, whatever is paired with what, every member knows its room throughout if and only if each forgetting on its own finds the room left, or about to be remembered |
| HubRaces.ConservedExactlyWhenInsertionsAreNew | apps/api/internal/realtime/hub.go:301-390 | over every run, whatever is paired with what, the reference counts are conserved throughout if and only if nobody is inserted who is a member already |
| Fanout.NoSilentGap | apps/api/internal/realtime/hub.go:186-242 | in every interleaving the events queued on a connection during a membership are a gapless run of the room's messages from the moment of insertion, and between dispatches an open connection has all of them |
| Fanout.NoGapInThePast | apps/api/internal/realtime/hub.go:186-242 | the same of every membership that has ended, complete if the connection had kept up until then |
| Fanout.DeliveryCompletes | apps/api/internal/realtime/hub.go:186-242 | whatever joins, leaves, answers, closes and writes do meanwhile, the dispatcher takes no more steps than its budget for what has arrived and always has one to take; when it has none, an open member has been queued every message of its room since it was inserted |
| Fanout.NoEventAfterRefusal | apps/api/internal/realtime/conn.go:616-636 | once refused it is never queued another event, in any continuation |
| Fanout.WireIsAPrefix | apps/api/internal/realtime/conn.go:434-449 | what is written to the socket is a prefix of the queue, which never outgrows its buffer |
| Drain.NobodySlipsPastTheDrain | apps/api/internal/realtime/hub.go:282-293 | in every interleaving of registrations with a shutdown, whoever is registered once the hub is closing is in the drained snapshot |
| Drain.DrainIsComplete | apps/api/internal/realtime/hub.go:434-498 | a shutdown that returns has closed everything it found and stopped the dispatcher with nothing undelivered; one that did not time out has also seen all of them finish, and nobody is being served |
| Drain.DrainFinishes | apps/api/internal/realtime/hub.go:434-498 | without its timeout a begun drain takes no more onward steps than its budget and one for each message that still arrives, and until it has returned there is one it can take |
| Drain.DrainFollowsItsSteps | apps/api/internal/realtime/hub.go:282-498 | over every run the hub is closing once it was shut down, the transport holds what came in and was not dispatched, a shutdown timed out exactly if its deadline passed, each connection is closed for the first reason it was given, and it serves exactly if it registered before the shutdown and has not left |
| Maintain.OverrunIsBounded | apps/api/internal/realtime/conn.go:474-549 | whichever ready timer the select picks, the loop has ended by token expiry plus the longer of one pong timeout and one full sweep |
| Maintain.OverrunIsReached | apps/api/internal/realtime/conn.go:474-549 | that bound is met |
| Maintain.RevokedExactly | apps/api/internal/realtime/conn.go:577-594 | a board is revoked exactly when its own check said forbidden |
| MemoryBroker.CloseIsSafe | apps/api/internal/realtime/broker.go:180-222 | in every interleaving of deliveries and closes nothing is sent on the closed channel, nothing is closed twice, and no delivery holds the channel once it is closed |
| MemoryBroker.CloseFinishes | apps/api/internal/realtime/broker.go:206-222 | close always finishes: a bounded number of helpful steps remain once the broker is marked, and one of them can be taken without any consumer until it has finished |
| MemoryBroker.BrokerFollowsItsSteps | apps/api/internal/realtime/broker.go:130-223 | over every run a message is counted in exactly if its section found the broker open and subscribed to its room, what is buffered was sent and not consumed and fits, subscriptions are what was asked for before the close, and no call of a close returns before it has finished |
| RedisBroker.SubscribeWaitsForItsConfirmation | apps/api/internal/realtime/redisbroker.go:109-137 | in every interleaving no waiter is closed twice, a successful subscribe had its channel confirmed after it registered, a waiting one will be woken by the next confirmation, and a returned one has left nothing in the map |
| RedisBroker.SubscribeAnswersWhatItSaw | apps/api/internal/realtime/redisbroker.go:109-137 | over every run a call answers a failure if the request could not be sent, and otherwise whatever its select saw first: the confirmation, the cancellation, or the broker's close once it was closed |
| RedisBroker.RoutedToItsChannelOnly | apps/api/internal/realtime/redisbroker.go:237-265 | whatever is on the wire, a message is forwarded only as the one complete room whose channel it arrived on |
| Rooms.ChannelInjective | apps/api/internal/realtime/event.go:58-60 | two rooms share a channel name only if they are the same room |
| Routing.ReachesOnlyItsRoom | apps/api/internal/realtime/redisbroker.go:237-265 | what was read on a room's channel reaches only connections of its tenant that were authorized for its board |
| Sessions.StoreRefinesMachine | apps/api/internal/auth/session.go:126-271 | over every sequential run the expiring store answers exactly as a machine with one current token per session, and goes on representing it |
| Sessions.StoreAnswersAsMachine | apps/api/internal/auth/session.go:126-271 | from an empty store on, every answer over every sequential run is the machine's |
| Sessions.GoneForGood | apps/api/internal/auth/session.go:126-149 | a superseded or ended token never rotates again, in any continuation |
| Sessions.RefreshWithoutMembership | apps/api/internal/auth/service.go:574-620 | a refresh whose membership is gone leaves neither the token presented nor its successor usable |
| SessionRaces.AtMostOneLiveToken | apps/api/internal/auth/session.go:196-271 | at the granularity of store calls, in every interleaving at most one token of a session is accepted, and a pointer never expires before the record it names |
| SessionRaces.UndisturbedIsTheOperation | apps/api/internal/auth/session.go:110-271 | a rotation, a logout, an ending or a login whose store calls nothing comes between leaves the store exactly as the whole operation does, and returns a token exactly when it mints one |
| SessionRaces.RevokedForGood | apps/api/internal/auth/session.go:160-189 | once a session's pointer is gone, no token of it is ever accepted again if and only if no thread was between its lookup and the end of its mint |
| SessionRaces.ARotationOutlivesALogout | apps/api/internal/auth/session.go:126-170 | a run from the start: login, a rotation stopped after its lookup, a logout that removes everything, then the rotation's two writes, and a token of the session is accepted again |
| SessionRaces.DeadExactlyWhenDoomed | apps/api/internal/auth/session.go:126-271 | exactly which states a session can never come back from, in any continuation without a new login |
| RateLimit.AllowedExactly | apps/api/internal/auth/ratelimit.go:129-170 | over any run from an empty store the next attempt is allowed if and only if it is within the account's configured number among the attempts on that account in its current window, however its name was spelt, and within the address's among those from that address |
| RateLimit.AtMostTwoBudgetsLessOne | apps/api/internal/auth/ratelimit.go:129-170 | in any run with a monotone clock and an available store, any half-open interval of one window holds at most twice the per-account number less one of allowed attempts for an account, and twice the per-address number less one for an address |
| RateLimit.TwoBudgetsLessOneIsReached | apps/api/internal/auth/ratelimit.go:129-170 | both bounds are met by the limiter itself, under every configuration whose window is at least two ticks, from an empty store |
| RateLimit.AttemptsNeverExtendAWindow | apps/api/internal/auth/kv.go:110-134 | an open window ends when it was always going to, whatever is attempted in it |
| RateLimit.RetryAfterIsLongEnough | apps/api/internal/auth/ratelimit.go:151-166 | at refusal time plus retry-after every budget that refused has reset |
| Accounts.AccountsStayInOrder | apps/api/internal/auth/service.go:249-416 | over every interleaving of transactions with crashes in between: exactly one owner per organization; at most four owned plus the most checks the account itself ever had outstanding at once, so at most five while its own come one at a time; every token names a tenant its subject belongs to, with its role there |
| Accounts.OwnableExactly | apps/api/internal/auth/organizations.go:314-324 | with no further check an account can come to own n organizations if and only if what it owns and what it has been cleared for reach n; so the cap can be exceeded exactly when those two exceed it |
| Accounts.TwoChecksAtOnceMakeSix | apps/api/internal/auth/organizations.go:314-324 | a run from the start: four organizations one at a time, then two checks at once, leave six |
| Accounts.AdditionsGrantWhatWasAsked | apps/api/internal/auth/members.go:171-225 | an owner may ask for a member or an admin, an admin for a member only; an addition that began makes the target an admin exactly if one was asked for and a member otherwise, whatever happens before the row is written, unless the target has become a member meanwhile |
| Accounts.OnlyOwnersMakeAdmins | apps/api/internal/auth/members.go:171-262 | adding a member never makes an owner, and makes an admin only when the actor owns the organization as the row is written |
| Accounts.StrandedAccountRecovers | apps/api/internal/auth/organizations.go:199-265 | an account a crashed registration left without an organization can get one, once |
| BrowserRefresh.OneRefreshSharedByAll | apps/web/lib/api/browser.ts:96-167 | in every schedule a call sends at most two requests, whoever joined an attempt is told its outcome, and listeners fire once per definitive failure; without a sign-out one refresh at a time |
| BrowserRefresh.CallsFinish | apps/web/lib/api/browser.ts:96-167 | every call comes to an end, sign-outs or not: no more than five steps for each call begun, and until all have returned there is one to take |
| BrowserRefresh.SingleFlightExactly | apps/web/lib/api/browser.ts:129-135 | two refreshes can come to be in flight, without another sign-out, if and only if some attempt still going is not the pending one; a sign-out leaves such an attempt exactly when it finds one pending |
| BrowserRefresh.SignOutDoublesTheFlight | apps/web/lib/api/browser.ts:177-183 | a run from the start: a sign-out while a refresh is in flight, and the next call's 401, put two in flight |
| AuthenticatedCall.SpentAtMostOnce | apps/web/lib/api/authenticated.ts:74-145 | on every path the refresh token is spent at most once and only by a caller that can store the result, at most two requests are sent, a second only after a 401 and with the refreshed token |
| AuthenticatedCall.EveryPath | apps/web/lib/api/authenticated.ts:74-145 | what a call does on each path, event by event: a 401 is recovered from by one refresh, its tokens stored, and one retry; a refresh that brings nothing leaves the 401 |
| RefreshWindow.NoReplayInTheWindow | apps/web/lib/session/refresh.ts:139-190 | in every schedule a token is exchanged again only when none of its outcomes is still answerable; a caller shares an attempt for its own token or is given an outcome from inside its window; the memory is bounded |
| ReplicaProofs.RequestAgrees | apps/api/internal/api/crud.go:214-231 | one request: drawing its event on the board read before it gives the columns, order, placement and details read after it, on every board; a refused request publishes nothing and changes nothing |
| ReplicaProofs.CreateCardAgrees | apps/api/internal/api/cards.go:114-187 | a created card is drawn where the rows put it: last in its column |
| ReplicaProofs.UpdateCardAgrees | apps/api/internal/api/cards.go:250-340 | an edited card is drawn with its new details, in place and nowhere else; not its timestamp |
| ReplicaProofs.DeleteCardAgrees | apps/api/internal/api/cards.go:539-568 | a deleted card disappears from its column and from no other |
| ReplicaProofs.MoveCardAgrees | apps/api/internal/api/cards.go:342-420 | removing the card and placing it after the anchor gives the rank-sorted columns of the moved rows and their details, renumbered or not; not their timestamps |
| ReplicaProofs.CreateColumnAgrees | apps/api/internal/api/columns.go:58-102 | a created column is drawn last and empty |
| ReplicaProofs.RenameColumnAgrees | apps/api/internal/api/columns.go:128-177 | a renamed column has its new name and keeps its place and its cards; not its timestamp |
| ReplicaProofs.MoveColumnAgrees | apps/api/internal/api/columns.go:179-229 | removing the column and placing it after the anchor gives the rank-sorted columns of the moved rows and their names; not their timestamps |
| ReplicaProofs.DeleteColumnAgrees | apps/api/internal/api/columns.go:305-331 | a deleted column takes its own cards and nothing else off the drawn board |
| ReplicaProofs.PlaceCardInAt | apps/web/lib/board/mutations.ts:280-337 | what the client's card move draws in every column once the card, the target column and the anchor are found |
| ReplicaProofs.FindDrawn | apps/web/lib/board/mutations.ts:410-424 | looking a card up on a drawn board finds its row's body, and only on its own board |
| ReplicaProofs.FilterIsWithout | apps/web/lib/board/mutations.ts:426-428 | filtering a drawn column by id is lifting that id out of its sorted list |
| Stamps.ARewriteIsMissed | apps/web/lib/board/mutations.ts:151-169 | whatever a request rewrites takes its transaction's time, and the drawn card keeps the one it came with |
| Stamps.ARenumberingIsSilent | apps/api/internal/store/query.sql:477-489 | a move past the threshold rewrites every card of its column and its one event names only the card moved; any other move rewrites that one |
| Stamps.UnwrittenCardsStand | apps/api/internal/store/query.sql:385-489 | every card row not rewritten, created or deleted is as it was |
| Stamps.UnwrittenColumnsStand | apps/api/internal/store/query.sql:276-340 | every column row not rewritten, created or deleted is as it was |
| Stamps.NotedAfter | apps/web/lib/realtime/apply.ts:138-153 | of all events only a create brings a watcher a timestamp, the created entity's |
| BoardEdits.UpdateWritesWhatItNames | apps/api/internal/store/query.sql:385-407 | a PATCH writes each field it names as named, clearing included, leaves every other field and row alone, and announces the whole card; refused exactly for a missing card or an assignee who is no member |
| BoardEdits.CreateWritesWhatItNames | apps/api/internal/api/cards.go:150-187 | a created card is stored as asked for on its column's board; refused exactly for a missing column or an assignee who is no member |
| BoardEdits.RenameWritesTheName | apps/api/internal/api/columns.go:150-177 | a rename writes the name and nothing else |
| BoardEdits.CreateColumnWritesTheName | apps/api/internal/api/columns.go:77-102 | a created column is stored under its name on the board asked for |
| BoardEdits.DeleteTakesTheCard | apps/api/internal/api/cards.go:539-568 | a delete takes the card's row and says from which column |
| BoardEdits.DeleteTakesTheColumn | apps/api/internal/api/columns.go:305-331 | a delete takes the column's row and its cards' rows, and no other |
| BoardEdits.MoveColumnRefusals | apps/api/internal/api/columns.go:237-297 | a column move is refused exactly for a missing column, a missing board, or an anchor that is not another column of its board |
| BoardEdits.PlacesExactly | apps/api/internal/store/query.sql:409-475 | the statement writes a row exactly if the card is there, the column is on its board, and the anchor is another card of the column |
| BoardEdits.MoveCardAnnounces | apps/api/internal/api/cards.go:342-420 | a card move announces the card as it is in its new column, where from, and the anchor asked for |
| BoardEdits.CreateReadsBack | apps/web/lib/board/snapshot.ts:84-116 | a full read after a create shows the card as asked for |
| BoardEdits.RenameReadsBack | apps/web/lib/board/snapshot.ts:84-116 | a full read after a rename shows the column under its new name |
| BoardEdits.CreateColumnReadsBack | apps/web/lib/board/snapshot.ts:84-116 | a full read after a column's creation shows it under its name |
| BoardRefinement.CreateCardRefines | apps/api/internal/store/query.sql:352-372 | a created card is last in its column; no other list changes |
| BoardRefinement.CreateColumnRefines | apps/api/internal/store/query.sql:253-261 | a created column is last on its board and has no cards |
| BoardRefinement.DeleteCardRefines | apps/api/internal/store/query.sql:491-497 | every list only loses the card |
| BoardRefinement.DeleteColumnRefines | apps/api/internal/store/query.sql:342-350 | a deleted column's list goes with exactly its own cards |
| BoardRefinement.EditsKeepOrder | apps/api/internal/store/query.sql:385-407 | editing a card or renaming a column moves nothing |
| BoardRefinement.HandleKeepsValid | apps/api/internal/api/cards.go:424-512 | every request keeps the row invariant: cards on their column's board, no two equal ranks within one list |
| BoardRefinement.MoveIntoList | apps/api/internal/store/query.sql:409-475 | on one list: the allocated rank puts the row after the anchor, and renumbering past the threshold changes no order |
| BoardRefinement.MoveCardKeepsPrecision | apps/api/internal/store/query.sql:477-489 | a card move with its rebalance keeps every rank exact within the threshold |
| BoardRefinement.MoveColumnKeepsPrecision | apps/api/internal/store/query.sql:328-340 | a column move with its rebalance does too |
| BoardRefinement.HandleKeepsPrecision | docs/adr/0004-card-ordering.md:145-150 | every request keeps every committed rank exact |
| RankedList.AllocatePlaces | apps/api/internal/store/query.sql:409-475 | the rank computed from the anchor and the next sibling sorts the row right after the anchor, or first |
| RankedList.NextAppends | apps/api/internal/store/query.sql:352-372 | the next rank sorts after every sibling |
| RankedList.RenumberedKeepsOrder | apps/api/internal/store/query.sql:477-489 | renumbering by row number keeps the order, ties broken by id included |
| RankedList.OrderIsPosition | apps/api/internal/store/query.sql:379-383 | a row sorts before another exactly when it is listed before it |
| RankedList.RemovalKeepsOrder | apps/api/internal/store/query.sql:491-497 | deleting a row keeps the order of the rest |
| Ranks.BetweenSeparates | apps/api/internal/store/query.sql:409-475 | the new rank lies strictly between its neighbours, or beyond the one it has |
| Ranks.MidpointIsExact | docs/adr/0004-card-ordering.md:76-104 | a midpoint by multiplication is exact and needs one decimal place more than its operands |
| Ranks.BetweenIsPrecise | docs/adr/0004-card-ordering.md:76-104 | a rank needs at most one decimal place more than its neighbours |
| Ordering.ListingUnique | apps/api/internal/store/query.sql:379-383 | rows keyed by rank and id have exactly one order |
| TenantStore.TenantRows.PlaceCardRow | apps/api/internal/store/query.sql:409-475 | the update rewrites one row, or none when the card, the board or the anchor does not fit |
| TenantStore.TenantRows.RebalanceColumn | apps/api/internal/store/query.sql:477-489 | every rank of one column is renumbered in place, nothing else changes |
| TenantStore.TenantRows.PlaceColumnRow | apps/api/internal/store/query.sql:282-326 | the column update rewrites one row or none |
| TenantStore.TenantRows.RebalanceBoard | apps/api/internal/store/query.sql:328-340 | every rank of one board's columns is renumbered in place |
| TenantStore.TenantRows.MoveCardAndPublish | apps/api/internal/api/crud.go:214-231 | commit, then publish: exactly one event for a committed move, none for a refused one |
| TenantStore.AllocateRank | apps/api/internal/store/query.sql:409-475 | one scan above the anchor finds the rank the specification allocates |
| TenantStore.LowestRow | apps/api/internal/store/query.sql:379-383 | a scan finds the first row in rank order, ties broken by id |
| TenantStore.NumberRows | apps/api/internal/store/query.sql:477-489 | taking the rows in order and numbering them from one is the renumbering specified |
| FullRead.GroupCardsIntoColumns | apps/web/lib/board/snapshot.ts:84-116 | one pass to bucket and one to emit: every column gets exactly its cards in the order sent, the rest are unplaced |
| FullRead.BucketIsTheColumn | apps/api/internal/store/query.sql:39-45 | a column's bucket is its rank-sorted list although the cards arrive grouped by column id |
| Replay.UpToOneEventAgrees | apps/web/lib/realtime/apply.ts:19-34 | one event already in the read never shows, on every board and whatever follows it in the log |
| Outlines.DrawsItsOutline | apps/web/lib/realtime/apply.ts:138-153 | drawing an event does to the order of columns and of cards exactly what plain list operations do |
| SteadyReplay.SteadyLogReplays | apps/web/components/boards/use-board-live.ts:50-56 | the same of any board in order and any steady log whose events found what they name |
| SteadyReplay.RoomIsFound | apps/api/internal/api/events.go:139-237 | every event a run publishes finds on its board, as drawn so far, what it names |
| SteadyReplay.LostCard | apps/web/lib/board/mutations.ts:194-202 | a card is only lost by its own deletion, or with its column if it stayed in it |
| SteadyLogs.PlacesAgree | apps/web/lib/board/mutations.ts:280-337 | one placing on two lists that agree but for the thing placed leaves them agreeing on it as well |
| LiveLog.StepKeepsInv | apps/web/components/boards/use-board-live.ts:230-307 | every callback keeps: each observed event is covered by the pending timer or by the last read this hook started |
| LiveLog.AtFirstNothingIsDue | apps/web/components/boards/use-board-live.ts:154-170 | a fresh hook is quiescent and shows its snapshot |
| LiveLog.AReadIsAPrefix | apps/api/internal/api/events.go:139-237 | a read that includes the first so many writes shows the board with exactly those drawn |
| LiveLog.AroundTheHook | apps/web/components/boards/use-board-live.ts:230-307 | what the world around the hook can do, and when |
| LiveLog.SeenIsWhatWasObserved | apps/web/components/boards/use-board-live.ts:230-294 | what counts as seen in a run is what the run observed |
| LiveLog.OtherReadsAreNotCounted | apps/web/components/boards/use-board-live.ts:56-60 | a read somebody else started leaves the hook as it was |
| LiveLog.BoardLive.Render | apps/web/components/boards/use-board-live.ts:154-170 | a new snapshot retires exactly the entries logged before the last read was started |
| LiveLog.BoardLive.OnFrame | apps/web/components/boards/use-board-live.ts:230-294 | what each kind of frame does to the log, the timer and the reads |
| LiveLog.BoardLive.OnResubscribed | apps/web/components/boards/use-board-live.ts:300-307 | the log is cleared and a read started |
| LiveLog.BoardLive.ScheduleRead | apps/web/components/boards/use-board-live.ts:211-220 | at most one timer is pending |
| LiveLog.BoardLive.TimerFired | apps/web/components/boards/use-board-live.ts:216-219 | the timer clears itself and starts one read |
| LiveLog.BoardLive.StartRead | apps/web/components/boards/use-board-live.ts:193-196 | a read is counted when it is started |
| CardMoves.NeverStranded | apps/web/components/boards/card-moves.ts:128-180 | every unsettled move has one at or before it on its card that is in flight or may pass its gate |
| CardMoves.CardsAreIndependent | apps/web/components/boards/card-moves.ts:128-180 | whatever happens on other cards, a card's moves, its tail and which of its gates are open stay as they were |
| CardMoves.StepKeepsInv | apps/web/components/boards/card-moves.ts:128-180 | every drag, gate and answer keeps the chain invariant |
| CardMoves.MoveQueue.Drag | apps/web/components/boards/card-moves.ts:132-144 | a drag queues behind the card's current tail and becomes the tail |
| CardMoves.MoveQueue.PassGate | apps/web/components/boards/board-mutation.ts:147-154 | behind an accepted move it sends; behind any other it settles without sending |
| CardMoves.MoveQueue.OnAnswer | apps/web/components/boards/board-mutation.ts:156-190 | the answer is reported before the move settles |
| CardMoves.MoveQueue.OnSettled | apps/web/components/boards/card-moves.ts:157-165 | the tail is dropped only if nobody queued behind it |
| HubRuns.CoherentKept | apps/api/internal/realtime/conn.go:392-406 | every step but a late forgetting keeps the hub's membership within the connection's own set, up to the insertion still to be remembered |
| HubRuns.MembersAreSubscribed | apps/api/internal/realtime/hub.go:314-390 | with both pairings nobody is in a room whose subscription is not live |
| HubRuns.UnsubscribesStayInTheTenant | apps/api/internal/realtime/conn.go:392-406 | while it serves, a client leaves rooms of its own tenant only |
| HubRuns.CarryingOnEnds | apps/api/internal/realtime/conn.go:284-344 | each step that carries on with a join or a leave brings its connection nearer to being done, and touches no other |
| HubRuns.NothingBegunIsStuck | apps/api/internal/realtime/conn.go:284-406 | a join or a leave that was begun can always be carried on with |
| HubRuns.ConservedStep | apps/api/internal/realtime/hub.go:301-390 | a step keeps the reference counts if and only if it inserts nobody who is a member already |
| HubRuns.SoundKept | apps/api/internal/realtime/conn.go:284-344 | every step, whatever is paired with what, keeps authorization, the cap, the lists and positive counts |
| HubRuns.RoutedKept | apps/api/internal/realtime/conn.go:292-336 | every step keeps tenant and authorization right for everything held or being given |
| HubRuns.AgreedKept | apps/api/internal/realtime/hub.go:314-390 | every step keeps the subscription agreement |
| HubRaces.InTimeForgettingInsertsNew | apps/api/internal/realtime/conn.go:591-592 | forgetting in time is enough for that |
| HubRaces.WholeSubscribe | apps/api/internal/realtime/conn.go:284-344 | a subscribe with nothing in between authorizes, joins and remembers |
| Hub.JoinThenLeave | apps/api/internal/realtime/hub.go:301-390 | joining and then leaving restores the registry |
| Hub.JoinKeepsSettled | apps/api/internal/realtime/hub.go:301-337 | a whole join keeps counts, members and subscriptions matched, and adds one member |
| Hub.LeaveKeepsSettled | apps/api/internal/realtime/hub.go:341-390 | a whole leave does too, and removes one |
| Hub.RemoveForgets | apps/api/internal/realtime/hub.go:397-407 | the cleanup takes a connection out of every room it held and moves nobody else |
| Hub.Hub.Register | apps/api/internal/realtime/hub.go:282-293 | a closing hub admits nobody |
| Hub.Hub.CountJoin | apps/api/internal/realtime/hub.go:314-326 | subscribe on the first, count on all, nothing when the transport refuses |
| Hub.Hub.InsertMember | apps/api/internal/realtime/hub.go:327-334 | the member is added to the room's set |
| Hub.Hub.Join | apps/api/internal/realtime/hub.go:301-337 | refused exactly for an incomplete room, a closing hub, or a transport that refuses a first subscription |
| Hub.Hub.RemoveMember | apps/api/internal/realtime/hub.go:341-363 | the member is removed, and the room with its last one |
| Hub.Hub.Decrement | apps/api/internal/realtime/hub.go:365-374 | the count goes down, and the key with the last one |
| Hub.Hub.Leave | apps/api/internal/realtime/hub.go:341-390 | the three sections of a leave in order |
| Hub.Hub.Remove | apps/api/internal/realtime/hub.go:397-407 | every held room is left, then the connection is deregistered |
| Fanout.RefusedIsClosed | apps/api/internal/realtime/hub.go:220-241 | a connection refused for a full buffer is closed before the next message is taken up |
| Fanout.AFailedWriteIsTheLast | apps/api/internal/realtime/conn.go:434-468 | a failed write closes the connection, and a write pump that stopped, by that or otherwise, has written its last, in any continuation |
| Fanout.FanoutFollowsItsSteps | apps/api/internal/realtime/hub.go:186-242 | over every run the stream is what arrived, a connection is in a room from insertion to removal, each successful write put one frame on the wire, and whatever was closed, found slow or failed to be written to is closed |
| Fanout.AroundTheDispatcher | apps/api/internal/realtime/conn.go:434-449 | messages arrive and connections are closed at any time; a write pump looks at its close only between writes |
| Fanout.OfferExactly | apps/api/internal/realtime/conn.go:616-636 | a message offered to a member is queued if there is room; otherwise the member, if open, is found slow and remembered as refused |
| Fanout.AnswerExactly | apps/api/internal/realtime/conn.go:638-653 | a frame of the connection's own is queued if there is room, or closes it as slow; once closed only what raced the close is queued |
| Fanout.OnlyMembersAreSent | apps/api/internal/realtime/hub.go:209-218 | fan-out offers a message only to members of its room |
| Fanout.StepKeepsInv | apps/api/internal/realtime/hub.go:186-242 | every step of the dispatcher, the connections and the write pumps keeps these |
| Connection.Deliver | apps/api/internal/realtime/hub.go:209-242 | one message fanned out to a set of connections: each open one has it queued or is closed as slow, each closed one is untouched |
| Connection.DrainAll | apps/api/internal/realtime/hub.go:451-468 | the two passes of a drain over the connections found |
| Connection.SentOrClosed | apps/api/internal/realtime/conn.go:638-653 | an open connection takes the frame or is closed as slow, never neither; a closed one keeps its reason and queue |
| Connection.RefusedExactly | apps/api/internal/realtime/conn.go:616-636 | a queueing attempt is refused exactly by an open connection whose buffer is full; a closed one swallows the frame |
| Connection.DrainKeepsTheFirstReason | apps/api/internal/realtime/conn.go:662-684 | a drain closes every connection and renames no reason already given |
| Connection.Conn.TrySend | apps/api/internal/realtime/conn.go:616-636 | never blocks: a full buffer refuses, a closed connection swallows |
| Connection.Conn.SendFrame | apps/api/internal/realtime/conn.go:638-653 | refusal closes the connection |
| Connection.Conn.Close | apps/api/internal/realtime/conn.go:675-684 | the first caller wins |
| Connection.Conn.Take | apps/api/internal/realtime/conn.go:434-449 | frames are taken in queue order |
| Connection.CloseAll | apps/api/internal/realtime/hub.go:466-468 | every connection given is closed, keeping an earlier reason |
| Drain.AroundTheDrain | apps/api/internal/realtime/hub.go:434-498 | what the world around a drain can do, and when; a drain pauses only if it found somebody |
| Drain.FirstReasonStands | apps/api/internal/realtime/conn.go:675-684 | the first reason a connection is closed for stands in every continuation |
| Drain.DrainIsNeverStuck | apps/api/internal/realtime/hub.go:434-498 | a drain that has begun can always go on without its timeout |
| Maintain.SelectExactly | apps/api/internal/realtime/conn.go:474-549 | when each case of the select can be picked: never past the deadline, the deadline only once it has come |
| Maintain.Reauthorize | apps/api/internal/realtime/conn.go:553-597 | a sweep ends the connection exactly on a refused membership and takes away exactly the boards refused, not those that could not be checked |
| Maintain.MaintainLoop | apps/api/internal/realtime/conn.go:474-524 | the loop runs as specified |
| MemoryBroker.Bus.Publish | apps/api/internal/realtime/broker.go:159-178 | every attached broker gets the message once and keeps it exactly if open and subscribed; a closed sender publishes nothing |
| MemoryBroker.Instance.Subscribe | apps/api/internal/realtime/broker.go:130-141 | refused exactly when closed |
| MemoryBroker.Instance.Unsubscribe | apps/api/internal/realtime/broker.go:144-155 | refused exactly when closed; a room never subscribed is not an error |
| MemoryBroker.Instance.Deliver | apps/api/internal/realtime/broker.go:180-200 | dropped when closed or not subscribed |
| MemoryBroker.DeliveredExactly | apps/api/internal/realtime/broker.go:180-200 | a broker takes a message exactly if it is open and subscribed to its room, and puts it last |
| MemoryBroker.CrashesExactly | apps/api/internal/realtime/broker.go:180-223 | what would be fatal: a send on the closed channel, a count below zero, a second close |
| MemoryBroker.WaitsExactly | apps/api/internal/realtime/broker.go:180-200 | a counted delivery waits exactly while the buffer is full and the broker is not being released |
| RedisBroker.PublishedArrives | apps/api/internal/realtime/redisbroker.go:152-171 | a published message is forwarded with the room and payload it was published with; an incomplete room is refused |
| RedisBroker.SelectExactly | apps/api/internal/realtime/redisbroker.go:109-137 | what a waiting call's select can see |
| RedisBroker.CrashesExactly | apps/api/internal/realtime/redisbroker.go:215-228 | a second close of a waiter would be fatal, and only that |
| RedisBroker.Waiters.AddWaiter | apps/api/internal/realtime/redisbroker.go:267-275 | the new waiter is registered last, and is open |
| RedisBroker.Waiters.RemoveWaiter | apps/api/internal/realtime/redisbroker.go:280-299 | exactly that waiter is dropped, and the key with the last one |
| RedisBroker.Waiters.HandleSubscription | apps/api/internal/realtime/redisbroker.go:215-228 | a confirmation wakes everybody waiting on its channel, each once, and only a subscribe confirmation does |
| Routing.PublishReachesTheRoom | apps/api/internal/realtime/redisbroker.go:152-171 | a publish reaches every connection in the room |
| Sessions.LookupAnswers | apps/api/internal/auth/session.go:196-243 | success exactly for the current unexpired token, reused exactly for an unexpired superseded token of an open session, unknown otherwise |
| Sessions.LookupRefines | apps/api/internal/auth/session.go:228-243 | a replay ends the session and forgets the token presented |
| Sessions.MintRefines | apps/api/internal/auth/session.go:247-271 | a mint makes the new token current and the old one spent; pointer and record expire together |
| Sessions.RevokeRefines | apps/api/internal/auth/session.go:160-170 | revoking by token ends its session; an unknown or replayed token is no error |
| Sessions.RevokeSessionRefines | apps/api/internal/auth/session.go:176-189 | revoking by id ends the session and forgets its current token |
| Sessions.ARefusedMintKeepsTheToken | apps/api/internal/auth/session.go:247-271 | a store that takes no record mints nothing and keeps the token there was |
| Sessions.SessionStore.Issue | apps/api/internal/auth/session.go:110-118 | a session's first token, stamped with the time |
| Sessions.SessionStore.Mint | apps/api/internal/auth/session.go:247-271 | record then pointer; a store that refuses the ttl leaves nothing |
| Sessions.SessionStore.Lookup | apps/api/internal/auth/session.go:196-243 | the reads and deletes of a lookup, in order |
| Sessions.SessionStore.Rotate | apps/api/internal/auth/session.go:126-149 | lookup then mint; a failed lookup mints nothing |
| Sessions.SessionStore.Revoke | apps/api/internal/auth/session.go:160-170 | both keys go, or nothing |
| Sessions.SessionStore.RevokeSession | apps/api/internal/auth/session.go:176-189 | the pointer and what it names go together |
| SessionRaces.RevocationsRemoveThePointer | apps/api/internal/auth/session.go:228-243 | a replay, a logout and an ending by id each remove the pointer |
| SessionRaces.StoppedForGood | apps/api/internal/auth/session.go:126-271 | time passes only as it is let to, and a call stopped anywhere makes no further call of the store |
| KeyValue.Store.Get | apps/api/internal/auth/kv.go:65-76 | an expired key reads as absent |
| KeyValue.Store.Set | apps/api/internal/auth/kv.go:79-89 | a non-positive ttl is refused |
| KeyValue.Store.Delete | apps/api/internal/auth/kv.go:92-102 | exactly the named keys go |
| KeyValue.Store.Increment | apps/api/internal/auth/kv.go:110-134 | a live counter keeps its window, any other starts one |
| RateLimit.BudgetAlone | apps/api/internal/auth/ratelimit.go:129-170 | what the limiter allows for a key, that key's counter alone would pass at its configured number |
| RateLimit.BudgetDecides | apps/api/internal/auth/ratelimit.go:129-170 | when no attempt shares the other budget's key, the limiter allows exactly what the one counter passes at its configured number |
| RateLimit.OneCounterPasses | apps/api/internal/auth/kv.go:110-134 | one counter passes two budgets less one across a window's end |
| RateLimit.OneNamePerAccount | apps/api/internal/auth/ratelimit.go:192-194 | capitals and surrounding blanks never make a second account of an address |
| RateLimit.NormalIsTrimmedAndLower | apps/api/internal/auth/ratelimit.go:185-195 | an account's name is what was typed without the blanks around it, in small letters |
| RateLimit.ValidBudgets | apps/api/internal/auth/ratelimit.go:72-84 | a budget of one is a budget; none, and no window, are not |
| RateLimit.Limiter.Allow | apps/api/internal/auth/ratelimit.go:129-170 | each reachable budget is counted under its own key whatever the other says, an unreachable one allows, each is held to its own configured number, and a refusal names the budget with the longer wait |
| Accounts.ACrashedRegistrationIsStranded | apps/api/internal/auth/service.go:249-341 | a registration cut off between its transactions leaves an account with no organization and nothing that will still make one |
| Accounts.TokensAreIssuedToMembers | apps/api/internal/auth/service.go:678-790 | a token for a tenant is issued to its members, with the role the membership has, and to nobody else |
| Accounts.RolesStick | apps/api/internal/auth/members.go:210-225 | memberships are only added and never change role |
| Accounts.AdditionsExactly | apps/api/internal/auth/members.go:171-207 | exactly when an addition begins, what it is to grant, and which refusal comes first: an ownership asked for, the actor's standing, the address |
| Accounts.WritesExactly | apps/api/internal/auth/members.go:210-235 | exactly when the row is written, and the refusal otherwise |
| Accounts.Service.Register | apps/api/internal/auth/service.go:249-341 | two transactions; a crash between them keeps the account and makes no organization |
| Accounts.Service.CreateFirstOrganization | apps/api/internal/auth/organizations.go:199-265 | refused exactly for an account that belongs somewhere |
| Accounts.Service.CreateAdditionalOrganization | apps/api/internal/auth/organizations.go:325-393 | refused exactly at the cap |
| Accounts.Service.CountOwned | apps/api/internal/auth/organizations.go:346-352 | the loop counts the owned organizations of the list |
| Accounts.Service.BeginAddition | apps/api/internal/auth/members.go:171-207 | role, authorization and address are checked in that order, and nothing is written; what that comes to is `Accounts.AdditionsExactly` |
| Accounts.Service.WriteAddition | apps/api/internal/auth/members.go:210-235 | authorized again in the transaction that writes; a duplicate is refused |
| BrowserRefresh.OnlyA401Refreshes | apps/web/lib/api/browser.ts:144-167 | over every run only a 401 makes a call join a refresh; any other first answer is what the call returns, after one request |
| BrowserRefresh.Browser.RefreshOnce | apps/web/lib/api/browser.ts:96-135 | join the pending attempt or start one |
| BrowserRefresh.Browser.OnResponse | apps/web/lib/api/browser.ts:103-128 | listeners are told of a 401 only |
| BrowserRefresh.Browser.OnFinally | apps/web/lib/api/browser.ts:129-131 | whatever is pending is cleared, its own attempt or not |
| BrowserRefresh.Browser.Detach | apps/web/lib/api/browser.ts:177-183 | a sign-out detaches the pending attempt |
| AuthenticatedCall.Caller.Call | apps/web/lib/api/authenticated.ts:74-145 | the exact events and answer of a call in every case |
| AuthenticatedCall.Caller.RefreshOnce | apps/web/lib/api/authenticated.ts:90-98 | a second asking gets nothing and does nothing |
| RefreshWindow.RefreshFollowsItsSteps | apps/web/lib/session/refresh.ts:139-225 | over every run what is remembered is what was settled and when, unavailable outcomes left out; asking leaves the token in flight or was answered from memory, settling takes it out of flight |
| RefreshWindow.Refresher.RefreshSession | apps/web/lib/session/refresh.ts:139-190 | join, answer from memory, or start |
| RefreshWindow.Refresher.Remember | apps/web/lib/session/refresh.ts:202-225 | an unavailable outcome is not remembered; expired ones go first, then the oldest |
| RefreshWindow.Refresher.MakeRoom | apps/web/lib/session/refresh.ts:213-222 | the oldest go until there is room |
| RefreshWindow.Refresher.DropExpired | apps/web/lib/session/refresh.ts:207-211 | exactly the expired entries go |
| RefreshWindow.ExpiredExactly | apps/web/lib/session/refresh.ts:207-211 | an outcome has expired once its time has come, to the instant |

## Left out

- HubRuns.SubscriptionsAgree: takes transport calls that succeed, and a last decrement and its unsubscribe as one step; what the two-step version loses, and exactly when, is in `HubRaces`.
- HubRuns.MembersKnowTheirRooms: takes the sweep's leave and its forgetting as one step; over every run, that pair apart, the exact condition is `HubRaces.KnownExactlyWhenForgottenInTime`.
- HubRuns.ReferenceCountsAreConserved: takes that pair as one step too; over every run the exact condition is `HubRaces.ConservedExactlyWhenInsertionsAreNew`.
- HubRuns.MembersAreSubscribed: takes both pairs as one step each.
- ReplicaProofs.ReplicaFollowsServer: is about columns, order, placement and details; last-updated times are `Stamps.StampsAgreeExactly`, and created times, which nothing ever changes, are not modelled.
- SteadyReplay.SteadyReplayIsFree: goes one way: a log that is not steady may still replay freely over some boards. `ReplayLost` has runs that do not, one for each way a move can fail to be steady; for the shortest such logs the exact condition is `TwoMoves.TwoMovesReplayExactly`, for longer ones it is not known.
- LiveLog.LiveLogConverges: speaks of one board and of quiescent moments; between them a replayed log can draw moves in another order, as `ReplayLost` shows.
- Maintain.OverrunIsBounded: counts `hub.leave` as instantaneous, and the ping and the authorizer as bounded by their timeouts.
- RateLimit.AtMostTwoBudgetsLessOne: needs a store that answers; one that does not allows every attempt, as `RateLimit.Limiter.Allow` states.
- RateLimit.OneNamePerAccount: is about ASCII letters and blanks; other scripts' case folding is not modelled.
- Accounts.AccountsStayInOrder: has no removal of members and no change of role, because the service has no such operation.
- RefreshWindow.NoReplayInTheWindow: is one process; two processes with the same token can still race.
- Sessions.StoreRefinesMachine: has a store that always answers; calls that stop half way are the threads of `SessionRaces`.
- Request parsing, status codes, validators, configuration, logging, migrations, row-level security and SQL text: each statement is its effect on the rows.
- Renaming, deleting and archiving boards and projects, which change no list of cards or columns; in the live layer they only start reads.
- A publish that fails after its commit: it is logged and lost, and the board agrees again at the next full read; `LiveLog` allows for it by never requiring that an event be observed.
- Concurrent writers on one board: runs are serial in commit order, and events are taken to be published in that order; that a rebalance can deadlock with another move is not modelled.
- Optimistic edits while they are pending, drag geometry, React's batching, and switching the hook to another board.
- A throw inside a queued move before its gate, which settles like a refusal.
- The WebSocket handshake, the close handshake's timing and the wire bytes of frames: a frame is what it announces.
- Redis, its reconnects and go-redis: confirmations and messages arrive in any order and number.
- Password hashing, token signing and parsing, and the timing of failed logins: library calls behind an abstract answer.
