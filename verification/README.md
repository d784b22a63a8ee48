# Samurai Kirby server: the gameplay core, verified

The server pairs players into two-seat rooms, runs rounds of a reflex game in each room, and talks to
clients through two brokers around a shared message hub. This project models that core and proves what it
promises its players.

Two layers:

* **Objects**, in the source's own form. `Brokers` (the hub and both brokers), `RoomClass` (`Player`, `Room`),
  `RoomManagerClass` and `GameplayClass` are classes whose methods update fields, arrays and queues in place,
  with the source's loops. Each method is proved equal to a step of the state machine below, and the hub keeps
  *published = consumed ++ queue* toward every player.
* **State machines** as functions: `RoomModel` (a room), `ManagerModel` and `ServerRuns` (rooms, subscriber
  lists, publication log), `Dispatch` (one pass of the dispatch loop), `Interleaving` (a queue shared by a
  producer and a consumer). The main results are lemmas about them, over all states and all runs.

| file | content |
|---|---|
| `Messages.dfy`, `Chrono.dfy` | messages, envelopes, clock readings |
| `RoomModel.dfy` | the room state machine, its invariant, runs |
| `Verdicts.dfy`, `Rounds.dfy` | how rounds are decided; whole rounds |
| `CorrectButton.dfy`, `DeclaredTimes.dfy`, `EarlyPress.dfy` | three promises: exactly when the code keeps them |
| `CleanSlate.dfy` | replay, departure and redelivery |
| `Symmetry.dfy` | P1 and P2 are interchangeable |
| `ClientView.dfy` | what clients can know; the message protocol |
| `Timing.dfy` | countdown and round bounds in real time |
| `Flags.dfy` | starts, countdowns and replays told by what the players sent |
| `ManagerModel.dfy`, `Routing.dfy`, `ServerRuns.dfy` | rooms, double routing, server runs |
| `Packing.dfy`, `Isolation.dfy` | how full rooms are; tick order |
| `Dispatch.dfy`, `GameLoop.dfy` | dispatch passes, unsubscribing, turns of the gameplay loop |
| `Seats.dfy`, `Turns.dfy`, `Attendance.dfy`, `ServerTurns.dfy` | placements, departures and connections field by field; what a turn does to rooms, seats and messages |
| `Interleaving.dfy`, `Drains.dfy`, `Passes.dfy` | FIFO under concurrency; one drain and a whole pass while the network thread pushes |
| `Brokers.dfy`, `RoomClass.dfy`, `RoomManagerClass.dfy`, `GameplayClass.dfy` | the objects |

`dafny verify dfyconfig.toml` checks the project.

## Assumptions

* Successive clock readings never decrease (only `Timing.dfy` needs it). A tick takes up to five readings, all
  separate parameters; a difference of readings is truncated to whole seconds toward zero.
* Each client id connects once, and a player asks to join only when it is in no room. The manager does not
  check the latter; `JoinKeepsInvIffNowhere` shows that its invariant depends on exactly that.
* Pushing to, reading the front of and popping from a queue are atomic.
* Random draws, the countdown of a new room and the iteration order of an `unordered_map` are arbitrary.

## Where the code and its documentation differ

* "The first to press the *correct* button wins" (`README.md:8`) and the scenario title at
  `tests/room/gameplay.cpp:355`: correctness is looked at only for a lone press. `CorrectButtonWinsUnless` gives
  the exact failures of a tick that expects an input. The first correct presser is denied the win if and only if
  both have pressed, one right and one wrong, and the right press was not received strictly earlier (an equal
  receipt is a draw). A winner is named although nobody is right if and only if one player pressed wrong and the
  other not at all, or both pressed wrong at different times; only the latter is a WIN. `OtherTicksKeepThePromise`
  has the counterpart for the other phases: a lone press that is too early, or wrong for what the tick asks.
  A resend overwrites the receipt, so over a round these are the players' *last* presses (`LastPressesDecide`),
  which are their only ones if nobody resends (`FirstCorrectPressWinsUnless`); `ResendingForfeitsTheLead` shows a
  correct first press lost by resending. `WrongButtonCanWin` is a whole run from a new room that fails.
* "player pressed too early - failed" (`src/gameplay/Room/Room.cpp:79`): `EarlyPressFailsIff` says when a tick
  applies the rule, `EarlyPressWinsIff` when a tick crowns a press received before the input was asked for, and
  `EarlyPressCanWin` gives runs from a new room in which it does.
* "The client is owning the timer" (`README.md:60`): the declared time to press is only echoed
  (`DeclaredTimesAreOnlyEchoed`); with two presses the server's receipts decide. `DeclaredTimesDecideIff` gives
  the exact condition under which they agree, `DeclaredFasterCanLose` a whole run in which they do not.
* `unsubscribeToPlayerActionMessages` filters a copy, so subscriptions are never removed.
  `UnsubscribeWorksIffNotSubscribed` gives the exact condition; `RejoiningSubscribesTwice` and
  `DepartedPlayersStillJoin` are consequences.

## Model

| member | source | states |
|---|---|---|
| RoomModel.Step | src/gameplay/Room/Room.cpp:3-216 | from every state satisfying `RoomInv`, every event is handled without reading an empty optional and leads to such a state again: slots hold their assignment, a non-waiting phase is full, an input comes with its time and receipt, EXPECTING_INPUT has both timers, WAITING has neither |
| RoomModel.Run | src/gameplay/Room/Room.cpp:3-216 | the same over every run, from a new room in particular |
| RoomModel.OnlyTicksPlay | src/gameplay/Room/Room.cpp:143-216 | starts, input requests and verdicts are never published by an action, a join or a departure |
| RoomModel.InboxBroadcast | src/gameplay/Room/Room.cpp:246-251 | a broadcast reaches each player in the room exactly once and nobody else |
| Verdicts.HandlersRefineDecision | src/gameplay/Room/Room.cpp:69-128 | in EXPECTING_INPUT at most one of the three guarded handlers is ever enabled: any sequence of them does what the one in charge decides, or nothing |
| Verdicts.AnyHandlerOrderIsOneDecision | src/gameplay/Room/Room.cpp:12-16 | the three handlers in any order, with repetitions, equal one case split on who pressed, and the tick is an instance |
| Verdicts.StartedTickIsTwoStages | src/gameplay/Room/Room.cpp:8-11 | the STARTED tick is the countdown followed by a verdict only if exactly one player pressed, early if the countdown has not ended; two early presses give none |
| Verdicts.TickIsSound | src/gameplay/Room/Room.cpp:69-128 | every verdict of a tick is justified: EARLY and WRONG name the one player without an input, WIN the lone correct press that aged the full timeout or the strictly earlier receipt, DRAW nobody, with no inputs or equal receipts |
| Verdicts.EveryVerdictIsJustified | src/gameplay/Room/Room.cpp:69-128 | over any run, each published verdict was made by some tick and is justified in the room that tick left, with P1's and P2's results in their places |
| Rounds.BothCanPlayThenInputIsRequested | src/gameplay/Room/Room.cpp:54-67 | once both can play, a first tick starts the countdown silently and a tick the full countdown later asks both players for the same input |
| Rounds.BothPressThenVerdict | src/gameplay/Room/Room.cpp:101-118 | two presses and a tick end the round with one verdict to both players that carries both inputs and declared times, won by the earlier receipt, drawn on a tie |
| CorrectButton.CorrectButtonWinsUnless | src/gameplay/Room/Room.cpp:69-118 | on every tick that expects an input: the verdict denies the first correct presser the win if and only if both have pressed, exactly one of them right, and that press was not received strictly earlier; a winner is named with nobody right if and only if one pressed wrong and the other not at all, or both pressed wrong at different times; and by a WIN only in the last case |
| CorrectButton.OtherTicksKeepThePromise | src/gameplay/Room/Room.cpp:3-21 | ticks of the other phases deny the win to no correct presser; they name a winner with nobody right if and only if a started room has exactly one press on record and the tick asks for no input, or for another; and never by a WIN |
| CorrectButton.VerdictCarriesThePresses | src/gameplay/Player/Player.cpp:20-27 | every verdict carries for each player the input and declared time of its press on record, and neither for a player without one |
| CorrectButton.LastPressIsStored | src/gameplay/Room/Room.cpp:157-161 | the exact effect of resending: over any undecided stretch of a round the room has each player's last press on record |
| CorrectButton.LastPressesDecide | src/gameplay/Room/Room.cpp:101-118 | over a whole round from the request on, with presses made before it or not, the verdict fails for the players' last presses in exactly the same cases |
| CorrectButton.FirstCorrectPressWinsUnless | src/gameplay/Room/Room.cpp:101-118 | if nobody resends from the request on, the first player to press the correct button is denied the win if and only if the other pressed wrong and was not received later |
| CorrectButton.ResendingForfeitsTheLead | src/gameplay/Room/Room.cpp:157-161 | P1 right, then P2 right, then P1 again: the next tick crowns P2, though P1 was first |
| CorrectButton.WrongButtonCanWin | src/gameplay/Room/Room.cpp:101-118 | from a new room, over a legal run under a monotone clock, a wrong press wins against the only correct one |
| EarlyPress.EarlyPressFailsIff | src/gameplay/Room/Room.cpp:69-83 | a tick publishes EARLY if and only if the room is started, exactly one press is on record and the tick does not ask for the input |
| EarlyPress.EarlyPressWinsIff | src/gameplay/Room/Room.cpp:54-118 | a tick crowns a press received before the request if and only if the room expects the input and both pressed, the earlier press preceding the request; or a lone press that precedes it is what is asked for and has aged the one-player timeout, in the tick that asks or later |
| EarlyPress.EarlyPressCanWin | src/gameplay/Room/Room.cpp:69-74 | from every new room with a positive countdown, over a legal run under a monotone clock: two presses made before the countdown begins are not failed, and the first of them wins after the request, whatever was pressed |
| DeclaredTimes.DeclaredTimesAreOnlyEchoed | src/gameplay/Room/Room.cpp:157-161 | two runs that differ only in the declared times publish the same messages, winners included, and end in the same room, but for the declared times in them |
| DeclaredTimes.DeclaredTimesDecideIff | src/gameplay/Room/Room.cpp:109-117 | with two presses the shorter declared time wins if and only if the declared times are ordered as the receipts |
| DeclaredTimes.DeclaredFasterCanLose | src/gameplay/Room/Room.cpp:109-117 | from a new room, over a legal run under a monotone clock, the shorter declared time loses |
| Rounds.RandomInputCoversPool | src/gameplay/Room/Room.cpp:275-286 | every draw gives an input of the difficulty's pool, and the draws of the code's range, one per input, correspond to the pool one to one |
| CleanSlate.AlikeRoomsAreIndistinguishable | src/gameplay/Player/Player.cpp:3-10 | a receipt time without an input is never observed: rooms equal up to it show the same phases and messages in every run |
| CleanSlate.OpeningMovesStartTheRoom | src/gameplay/Room/Room.cpp:46-52 | two newcomers who join and get ready start a new room |
| CleanSlate.ReplayIsACleanSlate | src/gameplay/Room/Room.cpp:130-141 | after a replay, every later run is observed exactly as from a new room that the same two players just started |
| CleanSlate.LeavingIsACleanSlate | src/gameplay/Room/Room.cpp:194-216 | after a departure in any phase, every later run is observed as from a new room with only the remaining player, ready, in its slot; with nobody left it is a new room |
| CleanSlate.RedeliveryIsIdempotent | src/gameplay/Room/Room.cpp:143-170 | the same action handled twice leaves the room of once, up to a repeated input's receipt time, and repeats its messages, except that a second departure is silent |
| CleanSlate.ActionsIgnoreReceipts | src/gameplay/Room/Room.cpp:143-170 | rooms equal up to receipt times handle any action, whenever received, with the same messages and stay equal up to receipts |
| CleanSlate.SecondLeaveIsANoOp | src/gameplay/Room/Room.cpp:194-198 | a second departure changes and publishes nothing if and only if the id did not sit in both slots |
| Symmetry.StepMirrors | src/gameplay/Room/Room.cpp:69-118 | exchanging the slots commutes with a step, messages included, if and only if the step is not a join into an empty room |
| Symmetry.RunMirrors | src/gameplay/Room/Room.cpp:69-118 | over any run that joins no empty room, exchanging the slots exchanges the final room, the winners and every player's messages, and nothing else |
| ClientView.StepInforms | src/gameplay/Room/Room.cpp:143-216 | after each step, a client that was right about slot, other player, ready flags, phase and expected input is right again after folding its messages, all of them allowed by the protocol; a newcomer is right from its first message |
| ClientView.RunInforms | src/gameplay/Room/Room.cpp:46-216 | over every run, through departures and rejoins, each player's messages are an accepted conversation whose fold is the truth |
| ClientView.AtMostOneGameOverPerStart | src/gameplay/Room/Room.cpp:46-141 | in an accepted conversation game overs never outnumber starts, an open round holding one start back, and likewise input requests |
| ClientView.StartBetweenVerdicts | src/gameplay/Room/Room.cpp:69-141 | in an accepted conversation a start lies between any two verdicts |
| ClientView.VerdictsAlternateWithStarts | src/gameplay/Room/Room.cpp:46-141 | so in every run, through departures and rejoins, no player is sent two verdicts without a start in between |
| Timing.RunKeepsTimeInv | src/gameplay/Room/Room.cpp:54-67 | in every run with a monotone clock no stored time is in the future, and the input request lies at least the configured countdown after its beginning |
| Timing.CountdownIsFull | src/gameplay/Room/Room.cpp:61-66 | whenever an input is requested, `readyForInputAt` - `everyoneCanPlayAt` is at least the configured seconds in nanoseconds |
| Timing.CountdownBeginsWhenBothCanPlay | src/gameplay/Room/Room.cpp:54-59 | within a round `everyoneCanPlayAt` is the first tick at which both could play, and is never moved |
| Flags.CountdownNeedsBoth | src/gameplay/Room/Room.cpp:54-67 | in every round, freshly started or replayed, the countdown begins at the first reading of the first tick that comes after a NOTIFY_CAN_PLAY of each of the two players; until both have notified it has not begun and no input is requested |
| Flags.OpeningIsFresh | src/gameplay/Room/Room.cpp:46-52 | two newcomers who join and get ready come into such a fresh round |
| Flags.ReplayIsFresh | src/gameplay/Room/Room.cpp:130-141 | so do two players who replay |
| Flags.FlagsTellTheEvents | src/gameplay/Room/Room.cpp:153-166 | until somebody leaves or a replay starts, in any phase and alone or not: a player can play if and only if it has notified, and its replay flag is its last wish |
| Flags.ReplayStartsIffBothWish | src/gameplay/Room/Room.cpp:130-166 | from every decided room: each wish is told to both as sent, and the next tick starts a replay, told to both, if and only if both wished for it |
| Flags.LastWishesDecide | src/gameplay/Room/Room.cpp:130-141 | wishes count in whatever phase they are sent: a tick of a decided room starts a replay if and only if each player's last wish is one for it |
| Flags.ReadyStateIsAnnounced | src/gameplay/Room/Room.cpp:143-151 | a waiting player's ready state is stored and told to everybody in the room as sent |
| Flags.LastReadyStatesDecide | src/gameplay/Room/Room.cpp:46-52 | a tick starts the game of two waiting players, and tells both, if and only if the last ready state of each is one for it |
| Timing.RoundIsBounded | src/gameplay/Room/Room.cpp:69-128 | a tick after the no-input timeout and one the one-player timeout later end the round, whatever happens around them, if no presser resends in between |
| Timing.ResendingKeepsTheRoundOpen | src/gameplay/Room/Room.cpp:157-161 | the proviso is needed: a lone correct presser that keeps resending keeps the round open for any number of ticks |
| ManagerModel.FirstWithSpace | src/gameplay/RoomManager.cpp:6-8 | the first room of the difficulty that is not full, all earlier ones being full or of another difficulty |
| ManagerModel.Membership | src/gameplay/Room/Room.cpp:172-216 | only a join into a free slot brings a player in and only its own departure takes it out |
| ManagerModel.AddKeepsInv | src/gameplay/RoomManager.cpp:5-17 | placing a player who is nowhere keeps: no empty room, distinct keys, disjoint player sets, every occupant subscribed to its room, Gameplay first in every list |
| ManagerModel.JoinKeepsInvIffNowhere | src/gameplay/RoomManager.cpp:37-43 | placing a player keeps that invariant if and only if the player is in no room |
| ManagerModel.RemoveKeepsInv | src/gameplay/RoomManager.cpp:19-30 | a removal keeps it too, leaves the player nowhere and erases an emptied room |
| Seats.JoinSeats | src/gameplay/Room/Room.cpp:172-192 | a join takes the first free slot with the id and nickname given and all else unset, introduces the two players to each other with nickname, slot and ready state, and changes nothing else; a full room turns it away |
| Seats.PlacementSeats | src/gameplay/RoomManager.cpp:5-17 | a player who is nowhere is seated so in the first room of the difficulty with a free slot, else in a new room with that difficulty, the countdown given and timeouts of 5 and 1 seconds; it subscribes to that room, and nothing else changes |
| Seats.RemovalDeparts | src/gameplay/RoomManager.cpp:19-30 | after a removal the player is nowhere; a room mate stays behind, ready, in a waiting room and alone is told which slot was left; an emptied room is gone; nothing else changes |
| Seats.LeavingDeparts | src/gameplay/RoomManager.cpp:37-50 | that is what LEAVE_GAME does, through whatever list |
| Seats.JoiningSeats | src/gameplay/RoomManager.cpp:37-44 | and JOIN_GAME of a player who is nowhere seats it as above |
| Seats.DisconnectDeparts | src/gameplay/Gameplay.cpp:26-29 | DISCONNECT takes the player out as a departure does |
| Seats.ConnectListens | src/gameplay/Gameplay.cpp:18-25 | CONNECT adds Gameplay to the end of the player's list and does nothing else |
| Seats.ConnectivityInOrder | src/messages/GameplayMessageBroker.cpp:28-31 | all connectivity messages are handled, one by one and in order |
| Routing.LeaveIsOneRemoval | src/gameplay/Gameplay.cpp:19-28 | LEAVE_GAME through a whole subscriber list is one removal by the manager; the handler of a room still stored is then a no-op, and an erased room is taken to ignore the call |
| Routing.RoomIsGoneIffLastOccupant | src/gameplay/RoomManager.cpp:19-30 | the room of a subscription is missing after the removal if and only if it was before or it is the leaver's room and the leaver was its last occupant |
| Routing.JoinIsOnePlacement | src/gameplay/RoomManager.cpp:37-44 | JOIN_GAME through a whole list is one placement |
| Routing.ActionIsHandledOnce | src/messages/GameplayMessageBroker.cpp:33-48 | any other action, through a list with stale and duplicate entries, is handled by the sender's room as if once up to receipt times, with its messages repeated per duplicate, or not at all if the snapshot lacks the room; no other room moves |
| Routing.HandlingAgainIsHandlingOnce | src/gameplay/Room/Room.cpp:143-166 | n deliveries of an action are one, up to receipt times, with n-fold messages |
| Routing.StrangersAreIgnored | src/gameplay/Room/Room.cpp:23-28 | a player in no room changes nothing except by joining |
| Routing.OtherRoomsAreUntouched | src/gameplay/Room/Room.cpp:23-28 | no action but a join changes a room that does not hold its sender |
| Routing.RepeatedRemovalIsSilent | src/gameplay/RoomManager.cpp:19-30 | a second LEAVE_GAME or a repeated DISCONNECT changes no room and publishes nothing |
| ServerRuns.StepRoomKeepsInformed | src/gameplay/Room/Room.cpp:246-251 | an event in one room keeps every player of every room rightly informed |
| ServerRuns.ServerStepKeepsInv | src/gameplay/Gameplay.cpp:17-33 | each server event keeps the manager's invariant and every player rightly informed |
| ServerRuns.EveryRunKeepsTheInvariant | src/gameplay/Gameplay.cpp:9-33 | in every run of the server no stored room is empty, each player is in at most one room and subscribed to it, and its messages, across all rooms it visits, are an accepted conversation that tells it the truth |
| ServerRuns.DeliveriesGrowLists | src/messages/GameplayMessageBroker.cpp:7-22 | callbacks only lengthen the list of the player being drained and never touch the others |
| Packing.PlayersFillRooms | src/gameplay/RoomManager.cpp:5-30 | without empty rooms, players = 2 * rooms - half-full rooms |
| Packing.JoinPacks | src/gameplay/RoomManager.cpp:5-17 | a join fills a half-full room of the difficulty if there is one; a room is created exactly when all are full |
| Packing.RemovalUnpacks | src/gameplay/RoomManager.cpp:19-30 | a removal adds at most one half-full room |
| Packing.PackingBound | src/gameplay/RoomManager.cpp:5-30 | in every run, per difficulty, half-full rooms <= 1 + removals, and without removals rooms = players / 2 rounded up |
| Isolation.TickOrderIsNotObservable | src/gameplay/RoomManager.cpp:32-35 | ticking the rooms in any order gives the same rooms and, to every player, its earlier messages followed by its own room's broadcasts |
| Dispatch.SnapshotsDateFromThePassStart | src/messages/GameplayMessageBroker.cpp:33-36 | each player's snapshot is its list at the start of the pass, whoever is drained before, and the subscriber map keeps its keys, so the iteration stays valid |
| Dispatch.OnlyListedQueuesAreEmptied | src/messages/GameplayMessageBroker.cpp:33-37 | a pass empties exactly the queues of listed players; actions sent before the connection is processed are kept |
| Dispatch.UnlistedRoomsHearNothing | src/messages/GameplayMessageBroker.cpp:33-48 | as long as the player sits in no room of its snapshot, whatever joins and departures its queue holds, no room hears it: the drain is its joins and departures alone |
| Dispatch.DrainIsOneMoveEach | src/messages/GameplayMessageBroker.cpp:33-48 | any queue drained into any snapshot, with rooms of earlier stays in it, is one move per message: a placement, a removal, or a handling by the room the player is then in, once per listing |
| Dispatch.NewcomersOnlyMoveSeats | src/messages/GameplayMessageBroker.cpp:33-48 | a newcomer's whole first pass, with any joins and departures in its queue, is those joins and departures alone, through the manager |
| Dispatch.JoinSwallowsTheRestOfThePass | src/messages/GameplayMessageBroker.cpp:33-48 | what a newcomer queued behind JOIN_GAME is lost if drained in the same pass |
| Dispatch.LaterPassesAreHeard | src/messages/GameplayMessageBroker.cpp:33-48 | in a later pass the whole queue is handled by the room message by message, up to receipt times, with what it publishes repeated once per listing of the room, at least once; nothing else changes |
| Dispatch.PassKeepsInv | src/messages/GameplayMessageBroker.cpp:27-49 | a pass keeps every server invariant in any iteration order |
| Dispatch.TurnKeepsInv | src/gameplay/Gameplay.cpp:9-15 | so does a whole turn of the gameplay thread: connectivity, drain, ticks |
| GameLoop.LoopKeepsInv | src/gameplay/Gameplay.cpp:9-15 | and any number of turns of its endless loop, whatever is pushed between them and whatever orders the map yields |
| GameLoop.ServedInOrderOfArrival | src/messages/MessageHub.h:18-21 | over any number of turns a player's actions are served in the order of their arrival, each in one turn, but for those still queued |
| GameLoop.ListedQueuesAreEmptyAfterATurn | src/messages/GameplayMessageBroker.cpp:33-37 | after a turn the queue of every player subscribed in it is empty |
| Turns.TurnTicksEveryRoom | src/gameplay/Gameplay.cpp:9-15 | every room of the world a turn's pass leaves ticks exactly once in that turn, with its own readings, and each player is told what the tick of its own room says |
| Turns.QuietTurnTicks | src/gameplay/Gameplay.cpp:9-15 | a turn without traffic is a tick of every room |
| Turns.ReadyPlayersStart | src/gameplay/Gameplay.cpp:9-15 | two ready players in a waiting room are started by the next quiet turn, and both are told |
| Attendance.DisconnectedPlayersAreOut | src/gameplay/Gameplay.cpp:26-29 | after a turn that handles its DISCONNECT a player is in no room, unless a JOIN_GAME of its was still queued, whatever the others do |
| Attendance.RoomMatesAreTold | src/gameplay/Gameplay.cpp:26-29 | in a turn with nothing but a DISCONNECT the room mate stays behind in a waiting room and hears of the slot left, and the other rooms only tick |
| Attendance.NewcomersAreIn | src/gameplay/Gameplay.cpp:17-25 | a player whose CONNECT and JOIN_GAME reach the server before a turn is seated by it under its nickname and in a room of its difficulty, whatever the others do and in whatever order |
| ServerTurns.TurnIsARun | src/gameplay/Gameplay.cpp:9-15 | a turn is a legal run of the server's state machine, ending with a tick |
| ServerTurns.LoopIsARun | src/gameplay/Gameplay.cpp:9-15 | and so are any number of turns |
| Dispatch.WithoutRemovesAll | src/messages/GameplayMessageBroker.cpp:15-21 | the filter leaves no entry with the context and changes the list only if there was one |
| Dispatch.WithoutKeepsTheRest | src/messages/GameplayMessageBroker.cpp:15-21 | every other entry survives, as often as it was there |
| Dispatch.WithoutKeepsOrder | src/messages/GameplayMessageBroker.cpp:15-21 | the survivors keep their order: filtering distributes over concatenation |
| Dispatch.UnsubscribeWorksIffNotSubscribed | src/messages/GameplayMessageBroker.cpp:12-22 | as written, unsubscribing does what is meant if and only if there is nothing to unsubscribe |
| Dispatch.SubscriptionsAreForever | src/messages/GameplayMessageBroker.cpp:7-22 | over any run every stored list only grows |
| Dispatch.RejoiningSubscribesTwice | src/gameplay/Room/Room.cpp:189-191 | leaving a room and being placed into it again leaves two subscriptions |
| Dispatch.DepartedPlayersStillJoin | src/gameplay/Gameplay.cpp:26-28 | a JOIN_GAME still queued at a disconnection is served, and would not be with the intended unsubscribe |
| Interleaving.ExactlyOnceInOrder | src/messages/GameplayMessageBroker.cpp:33-53 | under any interleaving of producer steps, consumer steps and changes of subscribers: published = consumed ++ queue, each consumed message went once to each subscriber of its snapshot in order, and nothing is consumed before the player is first listed |
| Interleaving.EveryQueueIsFaithful | src/messages/MessageHub.h:18-21 | the same for every player and both directions at once; toward the server snapshots are prefixes of lists that only grow, toward a client subscribing overwrites and a dropped connection erases the callback, so each message consumed went to exactly one |
| Interleaving.ServerListsGrow | src/messages/GameplayMessageBroker.cpp:7-10 | toward the server a player's list is always the old one followed by everybody who has subscribed since, and it is listed as soon as somebody has |
| Interleaving.LastCallbackCounts | src/messages/NetworkMessageBroker.cpp:11-17 | toward a client the callback is the one subscribed last, if it has not been dropped since |
| Interleaving.ClientsHearOnceInOrder | src/messages/NetworkMessageBroker.cpp:11-31 | so between passes the calls made toward a client are the first messages ever published to it, once each and in order, the rest being still queued |
| Interleaving.SubscriberHearsItsDue | src/messages/NetworkMessageBroker.cpp:19-31 | a subscriber hears the consumed messages in publication order, each as often as it is listed in the snapshot |
| Interleaving.DrainTerminates | src/messages/GameplayMessageBroker.cpp:37-47 | without a concurrent producer each step of a drain leaves exactly one step less and some step is always enabled; only a publication adds work |
| Drains.DrainMakesTheseCalls | src/messages/GameplayMessageBroker.cpp:33-48 | under any interleaving a drain makes exactly these calls: the queue it found and all that is pushed before it ends, each to every subscriber listed when it began, in order |
| Drains.InterleavedDrainIsDrainPlayer | src/messages/GameplayMessageBroker.cpp:33-48 | run on the world, these calls are the state machine's drain of that queue |
| Passes.RestOfPass | src/messages/GameplayMessageBroker.cpp:33-48 | from any stage of a pass over the map, while the network thread pushes for anybody, the world becomes what the rest of the pass makes of queues that account for every action |
| Passes.InterleavedPassIsAPass | src/messages/GameplayMessageBroker.cpp:33-53 | a whole pass under any interleaving with pushes is the state machine's pass over queues that hold all that was there when it began and a first part of what was pushed, the rest staying queued; nothing of unlisted players is served; and it keeps every server invariant |
| Brokers.PushKeepsLedger | src/messages/GameplayMessageBroker.cpp:51-53 | a publication keeps published = consumed ++ queue for every player |
| Brokers.GameplayMessageBroker.PublishGameplayMessage | src/messages/GameplayMessageBroker.cpp:51-53 | appends to the log and to the player's queue only |
| Brokers.GameplayMessageBroker.SubscribeToPlayerActionMessages | src/messages/GameplayMessageBroker.cpp:7-10 | the player's list is extended at the end, creating it if missing |
| Brokers.GameplayMessageBroker.EraseContext | src/messages/GameplayMessageBroker.cpp:15-21 | the erase loop terminates, and leaves exactly the entries with another context, each as often as before and in order |
| Brokers.GameplayMessageBroker.UnsubscribeToPlayerActionMessages | src/messages/GameplayMessageBroker.cpp:12-22 | the stored lists are unchanged, but for an empty entry for an unknown player |
| Brokers.NetworkMessageBroker.DispatchMessages | src/messages/NetworkMessageBroker.cpp:19-31 | every listening client has then been handed all that was ever published to it, in order; the others keep what is pending |
| Brokers.NetworkMessageBroker.PublishPlayerActionMessage | src/messages/NetworkMessageBroker.cpp:7-9 | one queue is extended at its end, the others are kept |
| RoomClass.Player.ResetToReplay | src/gameplay/Player/Player.cpp:3-10 | the player is as the state machine resets it, receipt time kept |
| RoomClass.Room.GetPlayerById | src/gameplay/Room/Room.cpp:257-264 | a player is found exactly if it is in the room, in its own slot |
| RoomClass.Room.Tick | src/gameplay/Room/Room.cpp:3-21 | the object and the publication log move as the room state machine does on a tick |
| RoomClass.Room.HandleOnePlayerPlayed | src/gameplay/Room/Room.cpp:69-99 | likewise for a lone press |
| RoomClass.Room.HandleReplay | src/gameplay/Room/Room.cpp:130-141 | likewise for a replay |
| RoomClass.Room.AddPlayer | src/gameplay/Room/Room.cpp:172-192 | likewise for a join; the room subscribes unless it was full |
| RoomClass.Room.RemovePlayer | src/gameplay/Room/Room.cpp:194-216 | likewise for a departure, with its call to unsubscribe |
| RoomClass.Room.HandlePlayerMessage | src/gameplay/Room/Room.cpp:23-44 | likewise for an action |
| RoomManagerClass.RoomManager.AddPlayerToRoom | src/gameplay/RoomManager.cpp:5-17 | the manager's rooms, subscriptions and log move as the state machine places a player |
| RoomManagerClass.RoomManager.RemovePlayerFromRoom | src/gameplay/RoomManager.cpp:19-30 | likewise for a removal |
| RoomManagerClass.RoomManager.TickAllRooms | src/gameplay/RoomManager.cpp:32-35 | likewise for a tick of all rooms |
| RoomManagerClass.RoomManager.FindRoomWithSpace | src/gameplay/RoomManager.cpp:6-8 | the search loop returns the first suitable room |
| GameplayClass.Gameplay.HandlePlayerConnectivityMessage | src/gameplay/Gameplay.cpp:17-33 | a connection subscribes Gameplay; a disconnection removes the player and calls unsubscribe |
| GameplayClass.Gameplay.DispatchMessages | src/messages/GameplayMessageBroker.cpp:27-49 | terminates; connectivity is emptied first, then every listed player is visited once and its queue drained into its snapshot, as the state machine does |
| GameplayClass.Gameplay.Turn | src/gameplay/Gameplay.cpp:9-15 | one turn of the gameplay thread is a turn of the state machine, and leaves the connectivity queue and the queues of the listed players empty |
| GameplayClass.Gameplay.Start | src/gameplay/Gameplay.cpp:9-15 | any number of turns, with the network thread pushing in between, is the loop of the state machine, to which `LoopKeepsInv` and `ServedInOrderOfArrival` apply |

## Left out

- Sockets, accepting and receiving, client address and port, the loop of the network thread. The endless gameplay loop is cut after any number of turns.
- The serializers, console logging, exceptions thrown inside callbacks and message casts.
- Data races and memory ordering: queue operations are atomic steps.
- The 32-bit result of `getSecondsSince`: a difference of more than 2^31 seconds does not wrap here.
- Object lifetime: a callback of an erased room (`RoomManager.cpp:27`) finds no room and does nothing; rooms are told apart by a key instead of an address, so a reused address is not modelled.
- Reading the departed player after its slot was cleared (`Room.cpp:211-215`): id and slot are taken before.
- Stored callbacks are data (`ToGameplay`, `ToRoom`) dispatched by the gameplay object, not function values, so the dispatch loop stands in `GameplayClass`; the network side's callback is the record of what it was handed.
- Pushes while a turn handles connectivity or ticks the rooms count as arriving before its pass or before the next turn; neither reads the action queues.
- LeaveIsOneRemoval: takes the callback of an erased room to do nothing, where the code runs a method of a destroyed object; `RoomIsGoneIffLastOccupant` says exactly when that happens.
- Nickname contents and replay-ready flags in the client's view: join messages do not carry the latter.
