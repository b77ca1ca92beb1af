# Verified model of the Remote Tab engine

This project models the parts of the Remote Tab engine where asynchronous steps interleave over shared
tables, together with the algorithms those parts rely on, and proves what they promise over every run.
A run is a sequence of steps; a step is one stretch of code between two awaits. Timers are armed or
not, clocks do not run backwards, and a WebSocket that stopped being open stays so. Networks, Chrome,
extension runtimes, ticket verifiers and ICE providers answer at any time, in any order, or never.

Each component is written twice: as step functions on an immutable state, about which the theorems are
proved, and as a class in the shape of the source, whose methods update the fields in place and are
proved to have exactly the effect of the step functions.

| file | component |
|---|---|
| `Gateway.dfy`, `PairingKey.dfy`, `MessageRate.dfy` | the signaling Gateway: connections, binds, pair completion, relay, expiry |
| `GatewayInvariant.dfy`, `GatewaySteps.dfy`, `GatewayRuns.dfy`, `GatewayRelay.dfy`, `GatewayHandshake.dfy` | what its steps keep, what they send, and its safety over whole runs |
| `GatewayEffects.dfy` | what each message, answer and timer gets its sender, from below as well as from above |
| `WindowCatalog.dfy` | `splitWindowState` and `WindowCatalogReceiver`, a printer and its parser |
| `WindowProtocol.dfy` | window selection between Core and the client over arbitrary channels |
| `WindowEffects.dfy` | what selections, closes and losses achieve, up to the client's screen |
| `ControlQueue.dfy` | the control queue with hover coalescing against a plain FIFO |
| `TargetClosure.dfy` | the two loops that compute opener ancestry |
| `TargetResolution.dfy` | resolving a Chrome target to exactly one extension runtime |
| `ResolutionEffects.dfy` | how each answer, loss and timer decides a resolution |
| `Transfers.dfy` | chunked senders and the receivers' checks |
| `TemporaryQuota.dfy` | upload policy and temporary-byte accounting |
| `QuotaEffects.dfy` | which offers and reports are taken, and what each end gives back |
| `QualityPolicy.dfy` | the automatic quality controller |
| `QualityEffects.dfy` | when it acts and by how much, told by the samples alone |
| `NoticeRequests.dfy` | notice requests and their limiter |
| `NoticeEffects.dfy` | what asking and answering gets a caller |

The chain of each run theorem is short. For the Gateway, `GatewayInvariant.StepKeepsInv` is proved from one
lemma per event; `GatewaySteps.StepIsFramed` says that no step lets a socket come back; from these two
follow that sockets bind once, and from that the single use of tickets and of completions. For window
selection, `WindowProtocol.EntryOk` ties every state ever published to Core's present, so
`WindowProtocol.GateIsExact` can compare a command with the state its sender saw, however old.

The `...Effects` files state the other half: not only what never happens, but that what should happen does.
Their lemmas speak of the state a caller sees before and after, whichever helper a step goes through.

## Where code and promise differ

- The two ancestry loops differ on an empty opener identifier: one tests for `undefined`, the other for
  truthiness. `TargetClosure.EmptyIdentifiersSeparateTheLoops` gives a snapshot on which they differ,
  `TargetClosure.AncestryLoopsAgree` the exact condition under which they agree.
- A reduction followed by a raise can leave the frame rate one frame lower, exactly from 11, 16, 21, ...
  frames per second (`QualityPolicy.DecreaseThenIncrease`). Bitrate and resolution never end worse.
- The message limiter counts in fixed windows, so an interval of one window's length can hold twice the
  maximum: `MessageRate.TwiceTheMaximumIsReached` gives the messages, for every maximum and window, and
  `MessageRate.AtMostTwicePerWindow` excludes more. `MessageRate.MaximumHoldsIffWindowStarts` says when the
  plain maximum holds: exactly for intervals whose first message starts a window.
- Committed uploads are meant to consume quota until the Session is cleaned up, because the page reads its
  files lazily. An upload whose files are delivered can lose its bytes all the same. A chunk that is still
  being written when its transfer expires arms a timer for the aborted transfer; if the Viewer uses the
  identifier again, that timer may fire while the second transfer is being completed.
  `TemporaryQuota.StaleTimerTakesDeliveredBytes` is such a run. `TemporaryQuota.KeptIffNoStaleTimer` gives
  the exact condition, visible when the completion begins; `TemporaryQuota.DeliveredHoldsIffUninterrupted`
  the exact condition over a run, in which the cleanup of a close is the only other cause and a job of the
  control queue never one.

## Model

| member | source | states |
|---|---|---|
| `PairingKey.KeysAreInjective` | apps/signaling/src/index.ts:821-823 | two Session generations with one pairing key are the same generation, even if a Session identifier contains the separator |
| `MessageRate.AdmitRemembers` | apps/signaling/src/index.ts:381-390 | the fixed-window counter keeps enough knowledge of all earlier admissions to bound them |
| `MessageRate.AtMostTwicePerWindow` | apps/signaling/src/index.ts:381-390 | no interval of one window's length holds more than twice the maximum of admissions |
| `MessageRate.NoResetFillsOneWindow` | apps/signaling/src/index.ts:386-390 | as long as no message finds the window over, at most one maximum is admitted |
| `MessageRate.MaximumHoldsIffWindowStarts` | apps/signaling/src/index.ts:386-390 | an interval of one window's length that begins with an admission holds at most the maximum, whatever follows, if and only if that admission starts a window |
| `MessageRate.TwiceTheMaximumIsReached` | apps/signaling/src/index.ts:386-390 | for every window and maximum, twice the maximum of messages within two milliseconds are all admitted |
| `Gateway.SignalingGateway.AcceptSocket` | apps/signaling/src/index.ts:296-317 | admits a connection within both caps and counts it for its address; otherwise changes no table |
| `Gateway.SignalingGateway.OnMessage` | apps/signaling/src/index.ts:331-368 | one message: counted, then rejected, relayed or taken as the first bind, with the same order of checks |
| `Gateway.SignalingGateway.ConsumeMessage` | apps/signaling/src/index.ts:381-408 | accepts exactly a live connection's message within its rate; one over the rate loses its peer, connection and socket |
| `Gateway.SignalingGateway.Dispatch` | apps/signaling/src/index.ts:333-367 | a second message during a bind, a malformed one, a relay and a first bind are told apart as in the source |
| `Gateway.SignalingGateway.StartBind` | apps/signaling/src/index.ts:419-429 | suspends a ticket or a Core binding that names this Gateway, and refuses the rest (`GatewayEffects` says which, without naming the step) |
| `Gateway.SignalingGateway.ResumeViewerBind` | apps/signaling/src/index.ts:431-480 | the whole effect of a ticket verification that answers, including every refusal |
| `Gateway.SignalingGateway.BindVerified` | apps/signaling/src/index.ts:443-480 | prunes, checks Gateway, validity, replay, capacity and conflict in order, and only then consumes the ticket and binds |
| `Gateway.SignalingGateway.ResumeCoreBind` | apps/signaling/src/index.ts:483-518 | the whole effect of a Core authorization that answers |
| `Gateway.SignalingGateway.EnterAndComplete` | apps/signaling/src/index.ts:520-551 | files the pairing and the peer, and for a full pairing clears the timer and starts its completion |
| `Gateway.SignalingGateway.ResumeCompletion` | apps/signaling/src/index.ts:553-585 | after each ICE lookup goes on only for a current pair; announces after the second |
| `Gateway.SignalingGateway.FinishBind` | apps/signaling/src/index.ts:358-363 | a finished bind of a live open connection allows the next message |
| `Gateway.SignalingGateway.Relay` | apps/signaling/src/index.ts:606-684 | relays in an allowed direction to an open partner, or rejects the sender; `GatewayEffects.MessageReachesPartner` pins the directions from below |
| `Gateway.SignalingGateway.RemovePeer` | apps/signaling/src/index.ts:686-720 | empties the slot of a lost peer, tells the partner, arms the timer again |
| `Gateway.SignalingGateway.RemoveConnection` | apps/signaling/src/index.ts:410-417 | forgets a connection and takes it off its address's count |
| `Gateway.SignalingGateway.OnGone` | apps/signaling/src/index.ts:369-379 | a closed or failed socket leaves all tables |
| `Gateway.SignalingGateway.ExpirePair` | apps/signaling/src/index.ts:722-751 | deletes the pairing and rejects whoever holds a slot |
| `Gateway.SignalingGateway.PruneConsumedTickets` | apps/signaling/src/index.ts:760-766 | forgets exactly the expired tickets |
| `GatewayInvariant.WithoutPeerAgrees` | apps/signaling/src/index.ts:686-720 | losing a peer keeps peers and slots inverse and the pairings tracked |
| `GatewayInvariant.GetOrCreateIsJoinable` | apps/signaling/src/index.ts:520-542 | the pairing a bind obtains is of the generation it asked for: the one on file, or a new empty one within capacity |
| `GatewayInvariant.EnterAgrees` | apps/signaling/src/index.ts:471-480 | entering a socket that is no peer into a free slot keeps peers and slots inverse and the timer rule |
| `GatewayInvariant.ExpireAgrees` | apps/signaling/src/index.ts:722-751 | expiry keeps peers and slots inverse |
| `GatewayInvariant.AcceptCounts` | apps/signaling/src/index.ts:296-317 | accepting keeps every address count equal to its live connections and both caps |
| `GatewayInvariant.DropCounts` | apps/signaling/src/index.ts:410-417 | removing a connection keeps every address count equal to its live connections |
| `GatewayInvariant.BeginBindKeeps` | apps/signaling/src/index.ts:356-365 | a live open connection has at most one suspended bind, and is not a peer while it has |
| `GatewayInvariant.EnterKeeps` | apps/signaling/src/index.ts:431-518 | a resumed bind finds its socket unbound, and binding it keeps the whole invariant |
| `GatewayInvariant.StepKeepsInv` | apps/signaling/src/index.ts:296-766 | every step keeps the agreement of the five maps, the capacities and the marks of suspended binds |
| `GatewaySteps.StepIsFramed` | apps/signaling/src/index.ts:296-766 | no step reopens, reconnects or rebinds a socket; a peer that leaves is closed or disconnected; a pairing keeps its identity while a peer stays in it |
| `GatewaySteps.BindingStep` | apps/signaling/src/index.ts:431-518 | a step that binds finds a live, open, unbound socket and a free slot |
| `GatewaySteps.RefusedTicketIsQuiet` | apps/signaling/src/index.ts:431-469 | a refused Viewer bind changes no peer, pairing or completion and consumes no ticket |
| `GatewayRuns.StepKeepsBoundOnce` | apps/signaling/src/index.ts:431-518 | whoever was ever bound is a peer still or gone for good, and a newly bound socket was never bound |
| `GatewayRuns.PrunedTableRefinesSet` | apps/signaling/src/index.ts:445-455 | for an unexpired ticket the pruned table answers as the unbounded set of all bound tickets |
| `GatewayRuns.ConsumedExactlyWhenBound` | apps/signaling/src/index.ts:444-473 | a step consumes a ticket exactly when it binds it; every other step at most forgets expired ones |
| `GatewayRuns.StepKeepsTicketCapacity` | apps/signaling/src/index.ts:455-459 | no step lets the table of consumed tickets outgrow its capacity |
| `GatewayRuns.TicketsAreSingleUse` | apps/signaling/src/index.ts:444-473 | in any run no two steps bind the same ticket identifier |
| `GatewayRuns.TicketBindsIffUnused` | apps/signaling/src/index.ts:431-473 | in any run an authentic ticket is bound if and only if it is presentable and no earlier step of the whole run bound it |
| `GatewayRuns.SocketsBindOnce` | apps/signaling/src/index.ts:346-365 | in any run no two steps bind the same socket |
| `GatewayRuns.LostPeersStayLost` | apps/signaling/src/index.ts:686-751 | a socket that was bound and is no peer never becomes one again |
| `GatewayRuns.CouplesCompleteOnce` | apps/signaling/src/index.ts:544-586 | in any run no two steps complete the same Core and Viewer sockets |
| `GatewayRuns.LostCouplesNeverComplete` | apps/signaling/src/index.ts:553-557 | after a member of a couple was lost or closed no step completes the couple, however its lookups end |
| `GatewayRuns.CurrentMeansStillBoundAndOpen` | apps/signaling/src/index.ts:588-604 | for a completion in flight the check holds if and only if both its sockets are still bound and open |
| `GatewayRuns.CompletionAnnouncesInOrder` | apps/signaling/src/index.ts:566-585 | a completion sends exactly four messages, both ready messages before both peer-ready ones, to the two bound sockets of that generation |
| `GatewayRuns.RateIsBounded` | apps/signaling/src/index.ts:381-408 | in any run a connection has at most twice the maximum of messages admitted in any window's length |
| `GatewayRuns.ExpiryMissesARole` | apps/signaling/src/index.ts:544-551 | in any run a tracked pairing's timer can fire if and only if a role is missing |
| `GatewayRuns.EveryRunKeepsInv` | apps/signaling/src/index.ts:296-766 | every reachable state satisfies the map invariant and the invariants on binds, tickets, completions and rates |
| `GatewayRelay.StepSends` | apps/signaling/src/index.ts:296-766 | everything a step sends is a notice of refusal or loss, or the relayed message, or the handshake of the couple it completes |
| `GatewayRelay.RelaysStayWithinPairs` | apps/signaling/src/index.ts:606-684 | any step relays nothing, or exactly the received message to the opposite role of the sender's own pairing in an allowed direction |
| `GatewayRelay.PartnerHearsOfLoss` | apps/signaling/src/index.ts:710-714 | the open partner of a lost peer is told which role left, stays a peer, and nobody else is told anything |
| `GatewayRelay.ExpiryRejectsItsPeers` | apps/signaling/src/index.ts:739-750 | expiry tells, closes and unbinds exactly the peers of its own pairing |
| `GatewayRelay.PeersAndSlotsAreInverse` | apps/signaling/src/index.ts:471-480 | in any run a socket is recorded as peer of a role and key if and only if that slot of that pairing holds it |
| `GatewayRelay.PairingsAreGenerations` | apps/signaling/src/index.ts:520-542 | in any run two peers share a pairing if and only if their pairings are of the same Session generation |
| `GatewayRelay.BindsIntoNamedGeneration` | apps/signaling/src/index.ts:461-474 | a bind enters the slot of its role in the pairing of the generation its ticket or request names |
| `GatewayRelay.CapacitiesHold` | apps/signaling/src/index.ts:296-317 | in any run address counts are those of live connections, the caps on connections, addresses, pairings and consumed tickets hold, and every peer is a live connection |
| `GatewayHandshake.EveryCoupleShakesHandsOnce` | apps/signaling/src/index.ts:566-585 | over everything sent in a run, the ready and peer-ready messages are one ordered block of four for each completed couple, and no couple has two |
| `GatewayEffects.AcceptedIffRoom` | apps/signaling/src/index.ts:296-317 | a new connection is taken if and only if the Gateway and its address have room |
| `GatewayEffects.OverRateIsDropped` | apps/signaling/src/index.ts:392-407 | a message over the rate costs the connection its socket, its place and its pairing slot |
| `GatewayEffects.UntimelyMessageIsRefused` | apps/signaling/src/index.ts:336-351 | a message during a bind, or a malformed one, is answered with its error and the socket closed; nobody else hears of it |
| `GatewayEffects.MessageReachesPartner` | apps/signaling/src/index.ts:617-683 | an offer from Core, an answer from the Viewer, a candidate from either, a restart from the Viewer or an error from Core reaches the open partner and nobody else, and the sender stays open and bound |
| `GatewayEffects.WrongMessageIsRefused` | apps/signaling/src/index.ts:617-683 | with an open partner any other message is answered as invalid and closes its sender |
| `GatewayEffects.UnpairedMessageIsRefused` | apps/signaling/src/index.ts:606-622 | without an open partner every message is answered as not paired and closes its sender |
| `GatewayEffects.TicketIsTakenUp` | apps/signaling/src/index.ts:419-434 | the ticket of a newcomer is always handed to the verifier |
| `GatewayEffects.CoreBindIsTakenUpIffItNamesThisGateway` | apps/signaling/src/index.ts:483-489 | a newcomer's Core binding is handed to the authorizer, with its Session and generation, if and only if it names this Gateway; otherwise it is told and closed |
| `GatewayEffects.OtherFirstMessagesAreRefused` | apps/signaling/src/index.ts:419-429 | whatever else a newcomer says first is refused |
| `GatewayEffects.CoreIsBoundIffAuthorizedWithPlace` | apps/signaling/src/index.ts:483-518 | an authorized Core that is still there is bound if and only if its generation has a place for it; otherwise it is told why |
| `GatewayEffects.BindTakesEffect` | apps/signaling/src/index.ts:470-480 | a bind fills its slot and sends nothing; with the partner there it stops the timer and starts exactly their completion |
| `GatewayEffects.RefusedTicketIsToldWhy` | apps/signaling/src/index.ts:440-468 | in any run an authentic ticket that is not bound is refused with the first reason that applies |
| `GatewayEffects.UnverifiedTicketIsRefused` | apps/signaling/src/index.ts:431-442 | a ticket the verifier rejects is refused as such |
| `GatewayEffects.LookupGoesOn` | apps/signaling/src/index.ts:553-556 | the first good lookup leads to the second, a failed one refuses the binder, one that finds the pair broken ends in silence |
| `GatewayEffects.CoupleCompletes` | apps/signaling/src/index.ts:553-585 | in any run two good lookups in a row announce a couple whose members are still bound and open |
| `GatewayEffects.FinishedBindMaySpeak` | apps/signaling/src/index.ts:358-363 | after its bind a live open peer's next message is let through, and nothing else changed |
| `GatewayEffects.LateSocketIsRefused` | apps/signaling/src/index.ts:320-325 | a socket that did not authenticate in time is told so and closed |
| `GatewayEffects.GoneSocketLeavesEverything` | apps/signaling/src/index.ts:369-378 | a gone socket holds no connection, peer or slot; every other connection and peer stays |
| `GatewayEffects.LostPeerFreesItsSlot` | apps/signaling/src/index.ts:686-719 | a lost peer frees its slot, a Viewer also its claims, and nothing else; the pairing stays on file under a new timer |
| `GatewayEffects.ExpiryForgetsThePairing` | apps/signaling/src/index.ts:722-751 | an expired pairing is forgotten, exactly its members are told, closed and unbound, in order, and nobody else is touched |
| `GatewayEffects.PruningForgetsTheExpired` | apps/signaling/src/index.ts:760-766 | a consumed ticket is remembered exactly until it expires |
| `GatewayEffects.BoundSocketsHadAsked` | apps/signaling/src/index.ts:483-518 | in any run every Core bound had named this Gateway, that Session and that generation, and every Viewer had presented a ticket |
| `WindowCatalog.SplitWindowState` | packages/core/src/window-catalog.ts:9-34 | frames are non-empty, sendable, tile the snapshot and are as few as any contiguous packing has; it fails if and only if no packing exists |
| `WindowCatalog.FramingConcatenates` | packages/core/src/window-catalog.ts:15-33 | the windows of the frames, concatenated, are those of the snapshot |
| `WindowCatalog.GreedyStaysAhead` | packages/core/src/window-catalog.ts:24-31 | after k frames greedy packing has taken at least as many windows as any other packing |
| `WindowCatalog.GreedyIsMinimal` | packages/core/src/window-catalog.ts:24-31 | a packing of maximal frames has no more frames than any packing, if fitting is hereditary |
| `WindowCatalog.PackableIffEntriesFit` | packages/core/src/window-catalog.ts:26-30 | a packing exists if and only if every single window fits a frame |
| `WindowCatalog.MessagePackFitIsHereditary` | packages/core/src/window-catalog.ts:18-23 | a byte limit on MessagePack maps and arrays is hereditary under dropping windows from either end |
| `WindowCatalog.WindowCatalogReceiver.Accept` | packages/headless-client/src/window-catalog.ts:13-36 | ignores, rejects, appends or completes exactly as the source branches |
| `WindowCatalog.WindowCatalogReceiver.Reset` | packages/headless-client/src/window-catalog.ts:11 | the receiver is as new |
| `WindowCatalog.FeedSnapshot` | packages/headless-client/src/window-catalog.ts:13-36 | a prefix of a snapshot's frames yields nothing; all of them yield the snapshot once, at the last |
| `WindowCatalog.CatalogRoundTrip` | packages/headless-client/src/window-catalog.ts:13-36 | for snapshots of increasing revisions, each sent whole or cut short, the receiver returns exactly the whole ones, once, equal to the original |
| `WindowCatalog.RefusedIffNotNext` | packages/headless-client/src/window-catalog.ts:16-25 | a published frame that is not stale is rejected if and only if it is not the next one of its snapshot |
| `WindowCatalog.StaleFrameIsTransparent` | packages/headless-client/src/window-catalog.ts:14-15 | a frame of an older or completed revision changes nothing for what comes later |
| `WindowCatalog.AcceptPublished` | packages/headless-client/src/window-catalog.ts:13-36 | whatever published frame arrives, a returned snapshot is the one published under its revision |
| `WindowCatalog.ArbitraryDeliveryIsSafe` | packages/headless-client/src/window-catalog.ts:13-36 | under any loss, duplication and reordering the returned snapshots are published ones with strictly increasing revisions |
| `WindowProtocol.SessionWindows.PublishWindows` | packages/core/src/session.ts:744-752 | publishes the present state under the next catalog revision, or nothing when closed or unavailable |
| `WindowProtocol.SessionWindows.QueueWindowRecovery` | packages/core/src/session.ts:785-795 | queues one return to the main window and announces a selection, at the same window revision |
| `WindowProtocol.SessionWindows.RunWindowRecovery` | packages/core/src/session.ts:791-794 | the queued return runs as a recovering selection of the main window |
| `WindowProtocol.SessionWindows.SelectWindow` | packages/core/src/session.ts:797-804 | acknowledges a selection of the active window at once; otherwise raises the revision and announces it |
| `WindowProtocol.SessionWindows.CaptureReplaced` | packages/core/src/session.ts:820-832 | moves the active window and publishes it, or fails the Session when the target is gone; `WindowEffects.SelectionTakesEffect` says which |
| `WindowProtocol.SessionWindows.SelectionFailed` | packages/core/src/session.ts:833-842 | a failed selection fails the Session, reports its error, or queues a recovery, as the source decides |
| `WindowProtocol.SessionWindows.Handle` | packages/core/src/session.ts:1388-1438 | the revision gate, and what each kind of window-scoped command starts |
| `WindowProtocol.SessionWindows.ChildCloseEnded` | packages/core/src/session.ts:1430-1434 | the end of a window close is acknowledged with its outcome |
| `WindowProtocol.ClientWindows.HandleWindowState` | packages/headless-client/src/remote-tab-client.ts:1683-1701 | drops frames of past window revisions, reassembles, accepts and settles the pending request |
| `WindowProtocol.ClientWindows.SendControl` | packages/headless-client/src/remote-tab-client.ts:1952-1967 | tags a window-scoped command with the accepted revision, exactly when the client may send it |
| `WindowProtocol.ClientWindows.RequestWindowAction` | packages/headless-client/src/remote-tab-client.ts:223-255 | sends a selection or close exactly when it is allowed and not already met, and then waits for it |
| `WindowProtocol.ClientWindows.TeardownTransport` | packages/headless-client/src/remote-tab-client.ts:2239-2241 | forgets the accepted state and the partial catalog |
| `WindowProtocol.StartSelectionOk` | packages/core/src/session.ts:797-804 | starting a selection leaves no published settled state at the new revision |
| `WindowProtocol.FinishSelectionOk` | packages/core/src/session.ts:820-832 | ending a selection publishes the first settled state of its revision, of the window now active |
| `WindowProtocol.FailSelectionOk` | packages/core/src/session.ts:833-842 | a failed selection publishes the window that stayed active under the raised revision |
| `WindowProtocol.AcceptFrameOk` | packages/headless-client/src/remote-tab-client.ts:1683-1701 | whatever published frame arrives, the client shows a published state and settles requests only as they asked |
| `WindowProtocol.SendOk` | packages/headless-client/src/remote-tab-client.ts:1952-1967 | a command the client may send carries the revision of a published settled state that showed its target |
| `WindowProtocol.GateIsExact` | packages/core/src/session.ts:1388-1393 | a command that passes the gate was sent by a client that was shown the window now active |
| `WindowProtocol.StepKeepsInv` | packages/core/src/session.ts:785-843 | every step of Core, client or network keeps the two-party invariant |
| `WindowProtocol.CommandsActOnWhatWasShown` | packages/core/src/session.ts:1388-1393 | in any run, under any delivery, whatever a command works on is the window its sender was shown as selected when it sent it |
| `WindowProtocol.RefusedMeansSelectionBegan` | packages/core/src/session.ts:1388-1393 | a live Core refuses a sent command if and only if a selection is under way or began after the state it was sent from |
| `WindowProtocol.ClientShowsPublishedStates` | packages/headless-client/src/remote-tab-client.ts:1683-1701 | in any run the client's accepted state was published by Core as a whole |
| `WindowProtocol.ResolvedRequestsAreMet` | packages/headless-client/src/remote-tab-client.ts:1692-1698 | in any run a request that ends without error ends in a state selecting the window asked for, or the main one after a close |
| `WindowProtocol.OnlySelectionsMoveTheActiveWindow` | packages/core/src/session.ts:797-843 | the active window changes only when a selection succeeds, to that selection's target |
| `WindowEffects.SelectionTakesEffect` | packages/core/src/session.ts:820-831 | a captured selection makes its target active and publishes it settled, with its request, if and only if Core is live and the target is the main window or a listed one; otherwise the Session closes and the active window stays |
| `WindowEffects.FailureClosesIffNothingIsLeft` | packages/core/src/session.ts:833-842 | a failed selection closes the Session if and only if the capture was half replaced, it was a recovery, or the main window is lost |
| `WindowEffects.FailureIsReported` | packages/core/src/session.ts:833-842 | a survivable failure is published for its request, queues a return if the window is lost, and fails a close with its own request |
| `WindowEffects.StaleCommandIsRefused` | packages/core/src/session.ts:1388-1393 | a stale command works on nothing, a stale request is answered with an error, a closed Core answers nothing |
| `WindowEffects.CommandStarts` | packages/core/src/session.ts:1388-1393 | an up-to-date command works on the active window |
| `WindowEffects.SelectionBegins` | packages/core/src/session.ts:797-804 | an up-to-date request for another window raises the revision and announces the switch; one for the active window is acknowledged at once |
| `WindowEffects.CloseBegins` | packages/core/src/session.ts:1417-1424 | an up-to-date close refuses the main window and otherwise first returns to it, remembering the child |
| `WindowEffects.CloseEnds` | packages/core/src/session.ts:1430-1434 | the child named when the close began is the one closed, and its request hears the outcome |
| `WindowEffects.LossIsRecovered` | packages/core/src/session.ts:785-795 | losing the selected child queues one announced return, losing the main window ends the Session |
| `WindowEffects.RecoveryRunsOnce` | packages/core/src/session.ts:791-794 | the queued return runs once, as a recovering selection of the main window |
| `WindowEffects.ChangesArePublished` | packages/core/src/session.ts:604-608 | every change of the windows is published with the windows as they then are |
| `WindowEffects.LostWindowIsLeft` | packages/core/src/session.ts:604-606 | a change that takes the selected child away also queues the return |
| `WindowEffects.PartialCatalogWaits` | packages/headless-client/src/remote-tab-client.ts:1683-1701 | until the last frame of a newer snapshot the client's state and request stay |
| `WindowEffects.ClientCatchesUp` | packages/headless-client/src/remote-tab-client.ts:1683-1701 | the frames of a newer snapshot, in order, bring the client to exactly that state and end the request it names |
| `WindowEffects.RequestIsSentIffSensible` | packages/headless-client/src/remote-tab-client.ts:223-255 | a request leaves the client if and only if it shows a settled, complete state, waits for nothing, and asks for another listed window or to close a child; it carries the revision shown |
| `WindowEffects.CommandGetsThrough` | packages/headless-client/src/remote-tab-client.ts:1952-1967 | a client that shows what Core is in gets its commands through to that window |
| `WindowEffects.SelectionRoundTrip` | packages/core/src/session.ts:797-831 | request, delivery, capture and the frames of the last publication leave both sides on the window asked for, with the request resolved |
| `WindowEffects.CloseRoundTrip` | packages/core/src/session.ts:1417-1434 | the same for a close: both sides are on the main window, the very child shown is closed, and the request is resolved |
| `ControlQueue.SessionControlQueue.Receive` | packages/core/src/session.ts:558-593 | coalesces a passive move into the last waiting one of its kind, answers notices at once, and queues the rest |
| `ControlQueue.SessionControlQueue.Append` | packages/core/src/session.ts:785-794 | an internal job becomes a barrier for coalescing |
| `ControlQueue.SessionControlQueue.StartNext` | packages/core/src/session.ts:575-577 | the next job runs with the newest coalesced message |
| `ControlQueue.StepRefines` | packages/core/src/session.ts:558-593 | a step keeps the chain a partition of the arrivals into blocks of one kind, none newer than its job |
| `ControlQueue.RunRefinesFifo` | packages/core/src/session.ts:558-593 | in any run the chain stands, in order, for consecutive blocks of the plain FIFO's arrivals |
| `ControlQueue.OrderedJobsRunInArrivalOrder` | packages/core/src/session.ts:558-593 | executed non-hover jobs are a prefix of those that arrived, in order, and all of them when the queue is empty |
| `ControlQueue.EveryHoverIsCovered` | packages/core/src/session.ts:562-580 | every arrived hover is covered by a compatible one at least as new with no other queued job between them |
| `ControlQueue.MoveCoalescesIffCompatible` | packages/core/src/session.ts:564-580 | in any run a move adds no job if and only if what arrived last is a compatible move and the last job has not started; that job then carries the newer message |
| `ControlQueue.ResponsesSkipTheQueue` | packages/core/src/session.ts:581-583 | in any run every notice response that arrived has been answered, in order, whatever still waits |
| `ControlQueue.QueueDrains` | packages/core/src/session.ts:575-589 | in any run, once nothing more arrives the jobs left run one by one until all have run |
| `TargetClosure.CdpTabController.RememberDescendants` | packages/core/src/cdp.ts:1535-1551 | terminates with exactly the seed and the targets reachable from it, and adds exactly the proven, not retired ones to the children |
| `TargetClosure.ChildSummary` | packages/core/src/cdp.ts:1514-1520 | a recorded child has its target's identifier and URL, and its whole title or the first 4096 code points of a longer one |
| `TargetClosure.FailedAttachment.ObserveOwned` | packages/core/src/cdp.ts:627-640 | the rescan loop ends with exactly the reachable targets and lists the owned ones in snapshot order |
| `TargetClosure.ClosedIsReachable` | packages/core/src/cdp.ts:1535-1551 | a closed set of reachable targets holding the seed is exactly the reachable set |
| `TargetClosure.ReachableIsLeastClosed` | packages/core/src/cdp.ts:631-638 | reachability by opener links is membership in every closed set that holds the seed |
| `TargetClosure.AncestryLoopsAgree` | packages/core/src/cdp.ts:634 | the two loops agree if and only if the empty identifier is not owned or opens nothing that is not owned anyway |
| `TargetClosure.EmptyIdentifiersSeparateTheLoops` | packages/core/src/cdp.ts:1540 | a snapshot on which one loop takes a target for owned and the other does not |
| `TargetClosure.AncestryLoopsAgreeOnNonEmptyIds` | packages/core/src/cdp.ts:1540-1543 | without empty identifiers the two loops compute the same ancestry from the same seed |
| `TargetClosure.AncestrySurvivesSnapshots` | packages/core/src/cdp.ts:1742-1753 | going on from an earlier snapshot's ancestry loses nothing of the later one and adds nothing unproven by both |
| `TargetResolution.ExtensionLoopbackServer.ResolveTabId` | packages/core/src/extension-loopback.ts:261-294 | asks every ready service worker, or fails at once when there is none |
| `TargetResolution.ExtensionLoopbackServer.BindRuntime` | packages/core/src/extension-loopback.ts:722-753 | files a role's socket, displacing the previous one, and refuses a change of identity mode |
| `TargetResolution.ExtensionLoopbackServer.HandleReply` | packages/core/src/extension-loopback.ts:792-841 | one reply: ignored, a mismatch, ambiguous, still waiting, or settling the request |
| `TargetResolution.ExtensionLoopbackServer.RemovePeer` | packages/core/src/extension-loopback.ts:1015-1051 | a lost peer leaves its slot, its pending requests and, with the other role gone, the runtime table |
| `TargetResolution.ExtensionLoopbackServer.RemoveRuntimeFromTargetResolutions` | packages/core/src/extension-loopback.ts:1087-1109 | a lost runtime is no longer awaited, which may settle requests |
| `TargetResolution.ExtensionLoopbackServer.ExpireRequest` | packages/core/src/extension-loopback.ts:272-281 | a timer settles its request and forgets it |
| `TargetResolution.TracksAfter` | packages/core/src/extension-loopback.ts:807-823 | awaited and resolved runtimes stay disjoint parts of those queried, and match what each did |
| `TargetResolution.ReplyKeeps` | packages/core/src/extension-loopback.ts:792-841 | a reply settles a request at most once, successfully only if exactly one queried runtime answered |
| `TargetResolution.DropRuntimeKeeps` | packages/core/src/extension-loopback.ts:1087-1109 | the same for the settling path of a disconnect |
| `TargetResolution.StepKeeps` | packages/core/src/extension-loopback.ts:710-1109 | every step keeps peers and runtime slots inverse and every request's account, and never changes a settled outcome |
| `TargetResolution.SuccessMeansExactlyOne` | packages/core/src/extension-loopback.ts:792-841 | in any run a finished request is resolved if and only if exactly one queried runtime answered with a tab, with that tab, ambiguous if and only if two did, unresolved if and only if none did and none is left to |
| `ResolutionEffects.AsksEveryReadyRuntime` | packages/core/src/extension-loopback.ts:261-294 | a request asks exactly the runtimes with an open bound service worker |
| `ResolutionEffects.OwedAnswerDecides` | packages/core/src/extension-loopback.ts:804-840 | an owed answer is recorded, and ends the request exactly when and as the answers then call for, remembering the target's runtime on success |
| `ResolutionEffects.OtherAnswers` | packages/core/src/extension-loopback.ts:792-803 | an answer about another target ends the request as mismatched, one nobody waits for changes nothing |
| `ResolutionEffects.OwedSilenceDecides` | packages/core/src/extension-loopback.ts:1087-1109 | a runtime that leaves owing an answer counts as silent, which may be the last word |
| `ResolutionEffects.LossReachesEveryRequest` | packages/core/src/extension-loopback.ts:1015-1051 | in any run the loss of a service worker reaches exactly the requests its runtime owes |
| `ResolutionEffects.MediaLossTouchesNoRequest` | packages/core/src/extension-loopback.ts:1015-1051 | a lost media socket leaves every request alone |
| `ResolutionEffects.TimeAndShutdownEnd` | packages/core/src/extension-loopback.ts:272-281 | a request whose time is over is told so and forgotten; a shutdown tells all of them |
| `ResolutionEffects.BindTakesThePlace` | packages/core/src/extension-loopback.ts:722-753 | a runtime that changes how it is identified is turned away, any other socket takes its role's place and closes the one it displaces |
| `Transfers.SendBytes` | packages/headless-client/src/remote-tab-client.ts:1536-1561 | terminates, and its chunks cut every file's data, in order, within the bound |
| `Transfers.StreamDownload` | packages/core/src/session.ts:1790-1817 | with reads of any length it terminates with the file cut into bounded chunks, or fails when the file is short |
| `Transfers.TransferReceiver.WriteChunk` | packages/core/src/session.ts:2315-2331 | accepts exactly a known file's next non-empty chunk within bound and size |
| `Transfers.JoinChunks` | packages/core/src/session.ts:2809-2823 | the in-place copy returns the concatenated pieces, filled up with zeros when unchecked, and refuses a total that is too large or, when checked, too small |
| `Transfers.AcceptedStreamIsContiguous` | packages/headless-client/src/remote-tab-client.ts:1310-1334 | what a receiver accepted is, for every file, contiguous chunks within its size |
| `Transfers.ContiguousStreamIsAccepted` | packages/core/src/session.ts:2315-2331 | any interleaving of contiguous bounded chunks passes every check |
| `Transfers.CompletesIffEveryFileIsCut` | packages/core/src/session.ts:2333-2340 | a stream passes completion if and only if it cuts data of the declared size for every file, and that data is what is reassembled |
| `Transfers.TransferRoundTrip` | packages/headless-client/src/remote-tab-client.ts:1336-1353 | what the sending loop produces completes at either receiver, and either join returns the sources |
| `Transfers.DownloadRoundTrip` | packages/headless-client/src/remote-tab-client.ts:1310-1353 | a download cut by any short reads completes at the receiver and is joined to what the disk held |
| `Transfers.EveryByteExactlyOnce` | packages/headless-client/src/remote-tab-client.ts:1163-1221 | every position of contiguous data lies in exactly one chunk, with its byte |
| `TemporaryQuota.AssertUploadAllowed` | packages/protocol/src/upload-policy.ts:13-24 | the running check accepts if and only if the whole batch respects every limit |
| `TemporaryQuota.SessionQuota.AcceptUploadOffer` | packages/core/src/session.ts:2247-2298 | an admissible offer reserves its bytes before its first await; a refused one reserves nothing and aborts the active transfer |
| `TemporaryQuota.SessionQuota.AbortUploadTransfer` | packages/core/src/session.ts:2406-2412 | the active transfer and its timer are taken away at once, its bytes later |
| `TemporaryQuota.SessionQuota.BeginChunkWrite` | packages/core/src/session.ts:2315-2328 | a chunk of the active transfer occupies the control queue |
| `TemporaryQuota.SessionQuota.FinishChunkWrite` | packages/core/src/session.ts:2328-2330 | the end of a chunk arms its transfer's timer again, even if the transfer was aborted meanwhile |
| `TemporaryQuota.SessionQuota.BeginCompletion` | packages/core/src/session.ts:2333-2345 | a completion clears its transfer's own timer and occupies the control queue |
| `TemporaryQuota.SessionQuota.FinishCompletion` | packages/core/src/session.ts:2346-2354 | the files are delivered and whatever transfer is active is forgotten without a release |
| `TemporaryQuota.SessionQuota.ExpireUpload` | packages/core/src/session.ts:2377-2381 | a timer aborts the active transfer if that has its identifier, and else nothing |
| `TemporaryQuota.SessionQuota.ReserveDownloadBytes` | packages/core/src/session.ts:1664-1696 | records a download within file, count and quota limits, or removes it |
| `TemporaryQuota.SetPhaseKeepsBytes` | packages/core/src/session.ts:2276-2298 | moving an upload between its unreleased phases keeps the sum |
| `TemporaryQuota.StepKeeps` | packages/core/src/session.ts:1660-1696 | every step keeps the sum, the limits, and each reservation released at most once |
| `TemporaryQuota.QuotaHolds` | packages/core/src/session.ts:1660-1696 | in any run the bytes of unreleased uploads and tracked downloads together never exceed the quota |
| `TemporaryQuota.CommittedIsFinal` | packages/core/src/session.ts:2351-2352 | a committed or released upload never changes again, and an aborted one changes only by giving its bytes back |
| `TemporaryQuota.InsideCompletion` | packages/core/src/session.ts:2333-2354 | while a completion is handled only a timer of its identifier or the cleanup of a close takes its transfer away, and no timer is armed |
| `TemporaryQuota.DeliveredHoldsIffUninterrupted` | packages/core/src/session.ts:2351-2352 | in any run, at any later time, a delivered upload keeps its bytes for good if and only if no such timer or cleanup came between the begin and the end of its completion |
| `TemporaryQuota.TimerInterruptsIffStale` | packages/core/src/session.ts:2377-2381 | when a completion begins a timer can take its transfer away if and only if another transfer of its identifier left one armed |
| `TemporaryQuota.NoStaleTimerKeepsBytes` | packages/core/src/session.ts:2351-2352 | without a stale timer and before a close a delivered upload keeps its bytes for good |
| `TemporaryQuota.KeptIffNoStaleTimer` | packages/core/src/session.ts:2351-2352 | in any run, every way to go on without a close keeps the bytes of what the completion delivers if and only if no stale timer is armed when it begins |
| `TemporaryQuota.StaleTimerTakesDeliveredBytes` | packages/core/src/session.ts:2328-2330 | a run without close or cancellation in which a delivered upload of the whole quota is counted as no bytes |
| `QuotaEffects.GuidsStayDistinct` | packages/core/src/session.ts:1664-1696 | in any run the table holds a download once |
| `QuotaEffects.KnownDownloadIsResized` | packages/core/src/session.ts:1664-1696 | in any run a report on a known download replaces what it holds, counted once, if and only if it is allowed and within file size and quota |
| `QuotaEffects.NewDownloadIsEntered` | packages/core/src/session.ts:1664-1696 | a report on an unknown download enters it if and only if there is also a place left |
| `QuotaEffects.RemovedDownloadFreesItsBytes` | packages/core/src/session.ts:858-866 | in any run a removal takes exactly the named download and its bytes |
| `QuotaEffects.OfferIsTakenIffItFits` | packages/core/src/session.ts:2247-2275 | in any run an offer is taken, its bytes reserved, if and only if it is welcome, no transfer is active, its files respect every limit and the quota has room; a refused one ends the active transfer |
| `QuotaEffects.CancellationEndsTheTransfer` | packages/core/src/session.ts:2406-2412 | in any run a cancellation, a failed message and the cleanup of a close end exactly the active transfer |
| `QuotaEffects.TimerEndsItsIdentifier` | packages/core/src/session.ts:2377-2381 | in any run a timer ends the active transfer if and only if that has its identifier |
| `QuotaEffects.UploadGoesThrough` | packages/core/src/session.ts:2247-2354 | in any run an offer that fits can be seen through: delivered, its bytes still reserved |
| `QuotaEffects.CancellationGivesBack` | packages/core/src/session.ts:2406-2412 | in any run offering and cancelling an upload leaves the accounting as it was |
| `QuotaEffects.FailedReservationGivesBack` | packages/core/src/session.ts:2294-2298 | in any run a reservation that fails leaves the accounting as it was |
| `QualityPolicy.AutomaticQualityHistory.AdaptEncoding` | packages/extension/src/media-quality-policy.ts:27-63 | one sample: the counters and the change, if any |
| `QualityPolicy.NextStaysWithin` | packages/extension/src/media-quality-policy.ts:45-62 | a sample keeps the settings between floor and ceiling and inside the schema |
| `QualityPolicy.EnvelopeHolds` | packages/extension/src/offscreen.ts:958-976 | from the automatic start any samples keep the settings between floor and ceiling and inside the encoding schema |
| `QualityPolicy.CountersCountStreaks` | packages/extension/src/media-quality-policy.ts:33-44 | never both positive; each counts the latest consecutive samples of its kind |
| `QualityPolicy.ChangesAreRare` | packages/extension/src/media-quality-policy.ts:33-62 | n samples, however many resets come between them, cause at most n/3 changes |
| `QualityPolicy.ChangeNeedsSustainedEvidence` | packages/extension/src/media-quality-policy.ts:46-60 | a change is preceded by three pressured or six healthy consecutive samples since the last threshold |
| `QualityPolicy.PressureReachesFloor` | packages/extension/src/media-quality-policy.ts:46-52 | thirty pressured samples reach the floor within ten changes, from any setting, and it stays |
| `QualityPolicy.HealthReachesCeiling` | packages/extension/src/media-quality-policy.ts:53-59 | sixty healthy samples return exactly to the ceiling within ten changes, and it stays |
| `QualityPolicy.DecreaseThenIncrease` | packages/extension/src/media-quality-policy.ts:48-59 | a reduction then a raise never worsens bitrate or resolution, and the frame rate by one exactly from 11, 16, 21, ... |
| `QualityEffects.CountersAreStreaks` | packages/extension/src/media-quality-policy.ts:33-44 | in any run the counters are the lengths of the unbroken streaks of strained and of good samples, modulo three and six |
| `QualityEffects.SettingsFollowStreaks` | packages/extension/src/media-quality-policy.ts:27-63 | in any run the settings are reduced on every third sample of a strained streak, raised on every sixth of a good one, by the stated ratios and roundings, and never touched otherwise |
| `QualityEffects.ConfigurationIsBounded` | packages/extension/src/media-quality-policy.ts:8-24 | every preset, automatic mode and custom settings get their own values where the limits allow them, and the limits where they do not |
| `NoticeRequests.NoticeRequests.RequestNotice` | packages/core/src/notice-requests.ts:26-66 | validates, limits, registers and sends a request, or undoes it when sending throws |
| `NoticeRequests.NoticeRequests.RespondTo` | packages/core/src/notice-requests.ts:68-81 | a response settles its request unless it is late, unknown or names no button of it |
| `NoticeRequests.NoticeRequests.CancelEvery` | packages/core/src/notice-requests.ts:83-85 | settles everything pending, in order |
| `NoticeRequests.NoticeRequests.FinishRequest` | packages/core/src/notice-requests.ts:87-97 | settles a pending request once and attempts a cancel unless it was answered |
| `NoticeRequests.KeepRecentIsSuffix` | packages/core/src/notice-requests.ts:42 | filtering the ascending times keeps exactly the tail younger than the window |
| `NoticeRequests.EveryRunKeepsInv` | packages/core/src/notice-requests.ts:26-97 | in any run the tables agree, at most four are pending and the limiter is a true sliding window |
| `NoticeRequests.SettlesExactlyOnce` | packages/core/src/notice-requests.ts:87-97 | in any run a registered request is pending or settled, and settled at most once |
| `NoticeRequests.AtMostTenPerWindow` | packages/core/src/notice-requests.ts:42-46 | in any run no sixty seconds hold more than ten admissions |
| `NoticeRequests.ButtonsAreOffered` | packages/core/src/notice-requests.ts:76-79 | a result has a button only from a response naming one of its own; cancels are attempted for exactly the other outcomes, in order |
| `NoticeRequests.CancelAllSettlesEverything` | packages/core/src/notice-requests.ts:83-85 | after cancel-all every registered request is settled |
| `NoticeEffects.ResponseIsDelivered` | packages/core/src/notice-requests.ts:68-81 | in any run a timely response settles its request with exactly the button pressed and attempts no cancel, a late one settles it as expired, one naming a foreign button settles nothing |
| `NoticeEffects.ResponseToNothing` | packages/core/src/notice-requests.ts:68-75 | a response for no pending request does nothing |
| `NoticeEffects.TimerAndSignalEnd` | packages/core/src/notice-requests.ts:48-56 | in any run a timer settles its request as expired, an abort signal as cancelled, each with a cancel |
| `NoticeEffects.AdmittedIffRoom` | packages/core/src/notice-requests.ts:26-66 | in any run a well-formed request is admitted if and only if fewer than four are pending and fewer than ten were admitted in the last minute of the whole history |
| `NoticeEffects.OthersAreTurnedAway` | packages/core/src/notice-requests.ts:26-41 | a malformed or aborted call changes no table and is told so |
| `NoticeEffects.CancelAllEndsInOrder` | packages/core/src/notice-requests.ts:83-97 | in any run cancel-all settles everything pending with its reason, in order, with a cancel each |

## Left out

- Gateway shutdown and restart, which clear all tables, are not steps: single use of tickets is proved for one Gateway process.
- Failing to encode an outgoing signaling message, heartbeats and diagnostics; a terminated socket is a socket that stops being open.
- Ticket authenticity, HMAC, base64, JSON, MessagePack and schema validation: claims arrive verified, messages well formed.
- `Gateway.SignalingGateway.ResumeCompletion`: a failing ICE provider rejects with one error code, where the source passes on the provider's own.
- The Gateway's bind timer may fire at any time here; the source clears it when the bind is over or the socket gone, so its runs are among these.
- `WindowCatalog.SplitWindowState`: the byte limit is an abstract test; the encoder's own larger ceiling, which would throw inside that test, is not modelled.
- Viewer replacement, revocation of window selection, and hello without it: the window protocol is one Viewer generation with the capability granted.
- The inside of a selection (capture, viewport, media replacement) is one suspended job that succeeds or fails; which await failed is only told apart as before or after the capture was replaced.
- `WindowProtocol.ClientWindows.RequestWindowAction`: request identifiers are assumed fresh, as random UUIDs are.
- The Session lifecycle table, signaling retry backoff, configuration parsing, page scripts, cursor feedback, clipboard permissions and navigation.
- `QualityPolicy.AutomaticQualityHistory.AdaptEncoding`: rounding is exact on integers and rationals, not IEEE 754.
- `QualityPolicy.EnvelopeHolds`: the sender applies what is asked; a failing sender keeps the previous setting.
- `Transfers.StreamDownload`: cancellation and timers between chunks are not modelled.
- `TemporaryQuota.SessionQuota.BeginCompletion`: that every byte has arrived is proved in `Transfers`, not repeated here; a message that fails its checks is a queued cancellation.
- `TemporaryQuota.StepKeeps`: storage and sink aborts that fail are not told apart from ones that succeed, as in the source's accounting.
- Whether the runtime chosen by target resolution is still connected later is left to the socket lookup that uses it, as in the source.
- Viewer user interface, embedding example, metrics rendering and extension signing.
