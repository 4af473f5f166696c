# Verification model of the Nimble client

A Dafny model of the client side of the Nimble protocol as the C library implements it, with proofs about
what the library promises over whole runs: when it gives up on a server, which states its two state machines
can be in together, what gets sent and how often, what the application reads and what the server has
acknowledged, and how long joining takes.

`dafny verify dfyconfig.toml` checks the project.

## How the model is built

* `ClientModel` and `RealizerModel` say what each operation does as functions on the value of the C structs.
  `ConnectionQuality.QualityMonitor`, `NimbleClients.NimbleClient` and
  `NimbleClientRealizes.NimbleClientRealize` are the structs, updated in place; each method is proved to do what
  the function says. `NimbleClientRealize.Play` extends this to whole runs, so every theorem about
  `RealizerModel.After` and `RealizerModel.RoundsOf` is a theorem about the object.
* A run is a sequence of the events an application can cause: Init, ReInit, Reset, JoinGame, QuitGame, Update
  (with what the transport has collected since), reading an authoritative step and writing a predicted one.
  Runs start with an Init from arbitrary memory, because the source does not clear every field there.
* An Update takes decoded datagrams in any order and number, transport errors, and parse failures at every
  place where the source handles one. The outcomes of serializing, of the blob stream and of sending are
  parameters (`Surroundings`).
* Libraries whose code is not part of this model appear as short contracts: a forward distance for incoming
  datagram ids (1 for the first one), a counter for outgoing ids, step queues with consecutive ids, a partial
  map of pending steps whose contiguous prefix is moved, and blob chunks that report completion and octets.

## What the proofs found

* An acknowledgement of step id 0xFFFFFFFF wraps to 0 and removes nothing
  (`Acknowledging.AcknowledgedStepsLeave` gives the exact condition).
* Reset, ReInit and Init keep `joinStateChannel` and `joinStateId`: a client goes on holding the state id and the
  channel of the last download response it has accepted, or channel 0 if it has accepted a join response after it
  (`HeldChannel.LastOfferIsHeld`). Offers of the held channel are ignored and do not help a requesting client on
  (`Progress.RequestIsLeft`), while chunks on it still complete a download. So a client can enter the game of an
  earlier session's offer without having accepted one in its own: `SessionOrigin.GameComesFromLastOffer` gives the
  exact condition, `OfferRuns.OldBlobEntersOldGame` a run.
* The repetition of a download response is void only until a join response has been accepted. After that, the
  same response, for a channel other than 0, throws a client that is in the game back into the download
  (`HeldChannel.RepetitionRestartsDownload`; `OfferRuns.RepeatedOfferThrowsBack` is a run).
* A repeated or late datagram is an error of the receive phase and freezes the rest of the update
  (`ReceiveLoop.LateDatagramFreezes`). A client whose receive phase keeps failing never gives up
  (`GivingUp.FailuresNeverGiveUp`), and one replayed datagram per update is enough for that
  (`GivingUp.ReplaysKeepTheClient`).
* JoinGame after Reset leaves the client requesting a connection that it never sends for
  (`RoadBack.NoOtherRoad`), and the assignment of Cleared in the realizer's update cannot be reached: whenever
  the target is Cleared and the client is in contact, the state is Cleared already
  (`Coupling.CouplingForCallers`).
* The comment on `nimbleClientOnDownloadGameStatePart` names a state "Playing"; the code enters Synced, and
  enters it from any state that is not Disconnected. The model follows the code.

## Model

| member | source | states |
|---|---|---|
| ConnectionQuality.RatingExtremes | src/lib/connection_quality.c:51-93 | the rating an evaluation reports is 5 exactly for an undisturbed connection whose latency is within 3 ms of the last one judged, 4 for one that is only unsteady, and 0 whenever disconnecting is recommended |
| ConnectionQuality.RatingIsExact | src/lib/connection_quality.c:33-80 | the rating is five times the product of the shares left (datagrams 40 to 10, steps 15 to 10, latency 250 to 60, jitter 9 of 10, drops 10 to 1), in whole points, as a statement on integers |
| ConnectionQuality.RatingAntitone | src/lib/connection_quality.c:33-80 | for a fixed jitter factor the rating never improves when silence, drops or latency grow |
| ConnectionQuality.WalkIsBestWindow | src/lib/connection_quality.c:140-170 | the up/down counter equals the best score (bad minus good) over all windows of evaluations that end now |
| ConnectionQuality.QualityMonitor.Reset | src/lib/connection_quality.c:19-31 | all counters and the reason are cleared; the last rating is kept |
| ConnectionQuality.QualityMonitor.Evaluate | src/lib/connection_quality.c:51-93 | the verdict from the two silence counters, datagrams first, and the rating and last latency left behind |
| ConnectionQuality.QualityMonitor.Update | src/lib/connection_quality.c:126-171 | one tick when synced, nothing otherwise |
| ConnectionQuality.QualityMonitor.DroppedDatagrams | src/lib/connection_quality.c:176-184 | the dropped count grows by the given amount, nothing else changes |
| ConnectionQuality.QualityMonitor.ReceivedUsableDatagram | src/lib/connection_quality.c:188-192 | only the datagram silence ends |
| ConnectionQuality.QualityMonitor.ReceivedAuthoritativeSteps | src/lib/connection_quality.c:197-201 | only the step silence ends |
| NimbleClients.NimbleClient.Reset | src/lib/client.c:15-60 | the whole state after a reset, including the fields it leaves alone |
| NimbleClients.NimbleClient.ReInit | src/lib/client.c:65-69 | a reset with another transport |
| NimbleClients.NimbleClient.Init | src/lib/client.c:81-128 | the state after initialisation from any memory |
| NimbleClients.NimbleClient.Disconnect | src/lib/client.c:142-145 | only the state changes |
| NimbleClients.NimbleClient.HandleConnectResponse | src/lib/connect_response.c:14-32 | accepted only while requesting a connection |
| NimbleClients.NimbleClient.SetInitialGameState | src/lib/download_state_part.c:10-26 | entry to Synced with all three buffers rebased, void when already synced |
| NimbleClients.NimbleClient.HandleGameStatePart | src/lib/download_state_part.c:34-56 | other channels are ignored, stream errors reported, a complete blob enters the game |
| NimbleClients.NimbleClient.HandleGameStepResponse | src/lib/game_step_response.c:17-73 | acknowledged steps leave even if the rest is malformed; received steps are stored and the ready ones handed over |
| NimbleClients.NimbleClient.HandleJoinGameResponse | src/lib/join_game_response.c:15-50 | the table filled by the loop, once per joining phase |
| NimbleClients.NimbleClient.HandleGameStateResponse | src/lib/download_state_response.c:16-55 | the filter on request and channel, and the entry to downloading |
| NimbleClients.NimbleClient.HandleOutOfSlots | src/lib/join_game_participants_full.c:14-27 | the joining phase ends without slots |
| NimbleClients.NimbleClient.FeedDatagram | src/lib/incoming.c:37-105 | order check, drop recording, latency sample and dispatch, with each early exit |
| NimbleClients.NimbleClient.ReceiveAllDatagrams | src/lib/receive_transport.c:15-43 | the loop over the transport computes the recursion ReceiveAll, early exit included |
| NimbleClients.NimbleClient.SendStepsToServer | src/lib/send_steps.c:60-78 | an id is consumed exactly when steps were written |
| NimbleClients.NimbleClient.Outgoing | src/lib/outgoing.c:107-151 | the committed rounds with their ids, whether the transport got them, and the wait that follows |
| NimbleClients.NimbleClient.Update | src/lib/client.c:251-275 | receive, judge, wait or send, with the early exits |
| NimbleClients.NimbleClient.Read | src/lib/incoming_api.c:13-16 | the oldest authoritative step with its id |
| NimbleClients.NimbleClient.FindParticipantId | src/lib/client.c:199-212 | status 1 and the id of the first entry for the index, or -1 and 0xff |
| NimbleClientRealizes.NimbleClientRealize.Init | src/lib/network_realizer.c:14-22 | the realizer and its client after Init |
| NimbleClientRealizes.NimbleClientRealize.ReInit | src/lib/network_realizer.c:24-30 | the realizer and its client after ReInit |
| NimbleClientRealizes.NimbleClientRealize.Reset | src/lib/network_realizer.c:37-42 | the client is reset and the realizer Cleared, the target is kept |
| NimbleClientRealizes.NimbleClientRealize.JoinGame | src/lib/network_realizer.c:48-57 | the target becomes Synced and the joining phase starts over |
| NimbleClientRealizes.NimbleClientRealize.QuitGame | src/lib/network_realizer.c:59-63 | the client is disconnected and the target becomes Cleared |
| NimbleClientRealizes.NimbleClientRealize.Update | src/lib/network_realizer.c:69-129 | the client's update when it may run, and the move towards the target |
| NimbleClientRealizes.NimbleClientRealize.Play | src/examples/main.c:86-139 | an object that performs a run ends in the state After describes and has sent the rounds RoundsOf describes |
| Coupling.AlwaysCoupled | src/lib/network_realizer.c:14-129 | every run stays within the coupled combinations of target, realizer state and client state |
| Coupling.CouplingForCallers | src/lib/network_realizer.c:69-129 | the single implications between the two state machines at every API boundary; Connected is never observable |
| Coupling.CouplingIsExact | src/lib/network_realizer.c:69-129 | a combination is reachable if and only if it is a coupled one |
| RoadBack.NoOtherRoad | src/lib/network_realizer.c:77-102 | after a disconnect or a Reset no run syncs or sends unless it initialises and later joins |
| RoadBack.RoadIsOpen | src/lib/network_realizer.c:24-57 | from every state, initialising and joining can lead into the game |
| Handshake.RankFalls | src/lib/network_realizer.c:103-125 | no event but a fresh start or a restarted download takes the client further from the game |
| Handshake.DownloadMeansNewChannel | src/lib/download_state_response.c:32-52 | a client that is not downloading, in the game or not, starts to exactly on a response to its request for a channel it does not hold |
| Handshake.NewConnectionAsksAtOnce | src/lib/network_realizer.c:92-99 | whoever begins to ask for the game state is asking to join again, and has nothing to wait for |
| Handshake.NewStagesDoNotWait | src/lib/network_realizer.c:83-117 | a new connection request, and entry to the game, clear the wait |
| Handshake.EntriesAreAccountedFor | src/lib/download_state_part.c:12-18 | entries into Synced since a fresh start are the restarted downloads, plus one while synced |
| DetectorLog.CountersFollowLog | src/lib/connection_quality.c:126-201 | in every reachable state step silence counts the evaluations since the last accepted step response or fresh start, datagram silence those since the last usable datagram, the dropped counter is the best window of datagrams missed less evaluations made, and latency, last latency and rating are the last sampled and judged |
| DetectorLog.ServedNeverGivesUp | src/lib/game_step_response.c:61-64 | as long as no more than 15 evaluations in a row pass without an accepted step response, only QuitGame disconnects, and the considering counter stays 0 |
| Detector.AlwaysPatient | src/lib/connection_quality.c:126-201 | in every reachable state datagram silence is at most step silence, and the counter is the walk over all evaluations so far |
| Detector.BadMeansStepSilence | src/lib/connection_quality.c:84-92 | an evaluation is bad exactly when step silence exceeds 15; the datagram test only selects the reason |
| Detector.GivesUpOnWindows | src/lib/client.c:236-263 | an update gives up exactly when it judges and some window ending there has bad minus good of at least 61 |
| Detector.OtherwiseOnlyQuitting | src/lib/client.c:142-145 | outside a listening update only QuitGame disconnects |
| GivingUp.TimeToDisconnect | src/lib/connection_quality.c:133-168 | over any run of updates, reads, writes and joins without steps the client is Synced before update TicksLeft and Disconnected from it on; 76 from fresh counters |
| GivingUp.ReasonUnderSilence | src/lib/connection_quality.c:84-92 | under total silence the reason is the datagrams exactly when they have been missing for 40 updates in the update that disconnects |
| ReceiveLoop.LoopFailsWhenSpoiled | src/lib/incoming.c:37-105 | the receive phase fails if and only if some arrival, when its turn comes, is a transport error or, for a client in contact, is not ahead, has a malformed pong, an unknown command or an unreadable message |
| ReceiveLoop.LateDatagramFreezes | src/lib/incoming.c:52-55 | a repeated or late datagram at the head of the queue ends the update, with the rest still queued and nothing judged or sent |
| GivingUp.FailedUpdate | src/lib/client.c:256-272 | a failed receive phase means no evaluation, no wait and nothing sent |
| GivingUp.FailuresNeverGiveUp | src/lib/client.c:256-263 | a run in which every listening update meets an arrival that spoils it never disconnects, never evaluates and never sends |
| GivingUp.ReplaysKeepTheClient | src/lib/incoming.c:52-55 | one old datagram per update keeps a client from giving up for ever, with no condition on the receive phase itself |
| Pacing.WaitStaysInRange | src/lib/client.c:265-268 | the wait stays in 0..4 over every run that starts there |
| Pacing.OneRequestInFive | src/lib/outgoing.c:32-72 | the exact number of connect, download or join requests, by the state of the client, in a run with n unanswered updates, from any wait, whatever the application does in between |
| Pacing.RequestsFromTheStart | src/lib/outgoing.c:47-69 | a run with n unanswered updates and no initial wait holds n / 5 requests of its state, rounded up |
| Sending.HandleStateCommits | src/lib/outgoing.c:82-151 | the rounds to commit in each state: which message, whether steps precede it, ids, whether the transport gets it, and the wait that follows |
| Sending.UpdatedCommits | src/lib/client.c:251-275 | an update whose receive phase succeeds and leaves no wait commits exactly what its client has to send; any other commits nothing |
| Sending.RoundsFitTheState | src/lib/outgoing.c:87-105 | over every run each message is sent in the one state and joining phase it belongs to, predicted steps only in the game |
| Sending.StepsAreSent | src/lib/send_steps.c:60-78 | over every run predicted steps are sent exactly once by each update in the game that may send and has steps serialized, before the message and under the smaller id |
| Sending.StepsStream | src/lib/outgoing.c:76-80 | a client that has joined sends its steps in every heard update, without waiting |
| Sending.SettledAsksNoMore | src/lib/join_game_participants_full.c:14-27 | a client that has joined or was refused sends no join request until a fresh start or a new JoinGame |
| ReceiveLoop.LoopIsFold | src/lib/receive_transport.c:15-43 | the loop takes arrivals up to and including the first failing one, leaves the rest, and reports the error or the count |
| Datagrams.OutgoingIds | src/lib/prepare_header.c:11-23 | ids committed since a fresh start are 0, 1, 2, ...; those handed over strictly increase; the others are the rounds kept back |
| Datagrams.StepNumbers | src/lib/outgoing.c:123-148 | each update numbers its rounds from the next id and consumes exactly as many |
| Datagrams.DropsTelescope | src/lib/incoming.c:52-62 | accepted ids strictly increase; their span is the later accepted datagrams plus the drops, which lagometer and detector agree on; the lagometer also shows each step response handled |
| Delivery.EnteringRebases | src/lib/download_state_part.c:10-56 | Synced is entered exactly on the chunk that completes the download, and all three buffers restart at joinStateId, the id of the joined game state |
| Delivery.DownloadBegins | src/lib/download_state_response.c:42-52 | an accepted response fixes channel and state id, restarts the outgoing buffer only, and is void if repeated at once |
| HeldChannel.LastOfferIsHeld | src/lib/download_state_response.c:42-48 | over every run, fresh starts and disconnects included, the client holds the state id and channel of the last accepted download response, the channel being 0 after a join response accepted since |
| HeldChannel.ChannelIsHeld | src/lib/join_game_response.c:45-47 | over any run in which no download response is accepted the state id stays, and the channel is the initial one, or 0 once a join response has been accepted |
| HeldChannel.RepetitionRestartsDownload | src/lib/download_state_response.c:32-52 | the response for the channel once held restarts the download if and only if a join response has been accepted since and the channel is not 0; otherwise it changes neither state nor outgoing buffer |
| OfferRuns.RepeatedOfferThrowsBack | src/lib/join_game_response.c:45-47 | a run from Init of offer, blob, join response and the same offer in a later datagram, which takes a joined client out of the game |
| SessionOrigin.GameComesFromLastOffer | src/lib/download_state_part.c:19-24 | a client in the game plays from the state id of the last accepted download response; it is one of the current session if and only if one was accepted since the last fresh start, and otherwise the id left over at that start |
| SessionRecord.RecordIsKept | src/lib/connect_response.c:14-32 | over every run the client keeps the connection id and debug flag of the last connect response accepted since Init, and the blob it entered the game with since the last fresh start |
| OfferRuns.OldBlobEntersOldGame | src/lib/client.c:15-69 | a run from Init in which a session broken off while downloading is started over and its blob then completes: the client enters the old game with no offer of its own session |
| Delivery.ReadsAreConsecutive | src/lib/incoming_api.c:13-16 | the ids read since the last entry or fresh start are consecutive, under any loss or repetition |
| Delivery.ReadDelivers | src/lib/incoming_api.c:13-16 | a read delivers the oldest step with its id and removes it; an empty buffer delivers nothing |
| Delivery.ReadingDrains | src/lib/incoming_api.c:13-16 | k reads in a row deliver the first k steps of the buffer, or all of them |
| Delivery.ReadsAreFaithful | src/lib/game_step_response.c:46-57 | with an honest server each step read is the server's own step for its id |
| ReceivedSteps.NothingReceivedIsLost | src/lib/game_step_response.c:46-57 | every step id received since the last entry or fresh start, from its base on, has been read, can be read, or is kept among the pending steps |
| ReceivedSteps.ReadableIsRead | src/lib/incoming_api.c:13-16 | a step that can be read is delivered by the read whose number is its place in the buffer |
| StepBuffers.CopyIsMaximal | src/lib/game_step_response.c:52-57 | handing over stops only at a gap or a full buffer |
| StepBuffers.FirstArrivalStays | src/lib/game_step_response.c:46-46 | a step received again does not replace the one already kept |
| Capacity.ResponseHandsOverAll | src/lib/game_step_response.c:46-57 | after an accepted step response no step that is ready stays behind, unless the buffer is full |
| Capacity.BuffersStayWithinCapacity | src/lib/game_step_response.c:52-57 | over every run neither step buffer holds more than it has room for |
| Acknowledging.AcknowledgedStepsLeave | src/lib/game_step_response.c:36-44 | no step up to the acknowledged id remains if and only if the id does not wrap or none was held; later steps all remain |
| Acknowledging.WrappedAcknowledgementKeepsSteps | src/lib/game_step_response.c:44-44 | the wrapped acknowledgement as a concrete case |
| Acknowledging.NothingLeavesUnacknowledged | src/lib/game_step_response.c:44-44 | steps written since the last restart are an acknowledged prefix followed by the buffer's contents |
| Acknowledging.ReadIdNeverGoesBack | src/lib/game_step_response.c:36-44 | between restarts the read id of the outgoing buffer never decreases |
| Prediction.CoversRoundTrip | src/lib/client_utils.c:41-69 | latency < (count - clamp(2 - delta, 0, 5)) * tick <= latency + tick, which fixes the count; with the clamped ticks, at most latency + 6 * tick |
| Prediction.MonotoneInLatencyAntitoneInDelta | src/lib/client_utils.c:26-69 | more latency never shortens the prediction, a fuller server buffer never lengthens it, an unknown buffer delta counting as 0 |
| Prediction.InfluenceIsClamped | src/lib/client_utils.c:60-67 | the buffer delta adds 2 - delta ticks, clamped to 0..5; no overflow for averages of signed octets |
| Prediction.StepIdIsAhead | src/lib/client_utils.c:87-99 | no estimate exactly without a latency; otherwise the id lies the optimal count ahead on the circle of 32-bit ids |
| JoinTable.JoinRoundTrip | src/lib/join_game_response.c:32-40 | every participant is found under its index with its id, both as octets, if and only if no index is claimed with two ids; unclaimed indices are not found |
| JoinTable.AmbiguousJoinLosesOne | src/lib/join_game_response.c:32-40 | two participants with one index, of which one cannot be found |
| JoinTable.AcceptedOncePerJoin | src/lib/join_game_response.c:24-47 | a join response acts only in the joining phase, ends it, and clears wait and channel |
| JoinTable.LookupsFollowLastJoin | src/lib/client.c:199-212 | over every run a lookup answers with the first claim of the last join response accepted since a fresh start, and nobody is found without one |
| JoinTable.BlankUntilJoined | src/lib/client.c:26-31 | after a fresh start the whole table is blank until a join response is accepted |
| JoinTable.RefusalSettles | src/lib/join_game_participants_full.c:14-27 | a client in the game that is told there are no slots is settled |
| JoinTable.TableIsStable | src/lib/join_game_response.c:24-27 | from any state, only a fresh start or a join response accepted while asking to join leads to another table |
| JoinTable.SettledTakesNoSeat | src/lib/join_game_response.c:24-27 | a client that has joined and is past the handshake accepts no join response until a fresh start or a new JoinGame |
| Progress.JoiningIsBounded | src/lib/network_realizer.c:83-117 | with an answering server the realizer is Synced within (parts + 2) * (limit + 1) + 1 updates with a successful receive phase after JoinGame, whatever is repeated, bundled, or spoils other updates in between |
| Progress.ServerCanAnswer | src/lib/outgoing.c:87-105 | the server the bound assumes can answer at every point of the handshake |
| Progress.ServedUpdateProgresses | src/lib/outgoing.c:87-105 | every served update enters the game or lowers the measure over stage, parts left and updates used; a spoiled one never raises it |
| Progress.RequestIsLeft | src/lib/download_state_response.c:37-52 | over any ongoing run a requesting client goes on requesting unless, and until, it takes an offer of a channel it does not hold or the completing chunk of the channel it holds; then it never requests again |

## Left out

- Byte formats of flood, nimble-serialize and the blob stream: the code is not part of this model; messages arrive decoded or as parse failures.
- Internals of ordered-datagram, nimble-steps, stats and lagometer: stated as contracts. Datagram and step ids inside them are unwrapped integers; the first datagram after a fresh start counts as distance 1; Reset and Init restart a step queue at id 0.
- ConnectionQuality.QualityMonitor.GameStepLatency: takes the average after the sample as an input, because the averaging is the statistics library's.
- Latency measurement from 16 clock bits (pong.c), and the clock itself: the average latency is an input of each datagram.
- Evaluations made only for log messages (`nimbleClientConnectionQualityDescribe`), logging, per-second statistics, tick-rate warnings, frame and log counters: no effect on the protocol.
- IEEE rounding of the rating: reals are used. Counters of type size_t do not wrap.
- Message sizes: whether a round is worth handing to the transport is the parameter `octets`, compared with 10 as in the source.
- The assertion on the connection id in prepare_header.c: headers are also written before an id is assigned, so it is not a contract here.
- JoinGame request contents, nonce, party secrets, application version and debug-stream wishes: carried through unread.
- UDP, the example program, allocators and the copying of game state memory: the game state is an octet sequence.
- Progress.JoiningIsBounded: local serialization does not fail, a download under way is neither replaced by an offer of another channel nor robbed of its channel by a join response, and a client that has entered the game is not offered another download in the same update; updates that an arrival spoils count neither for the limit nor for the bound; a lost datagram is one the server sends again within its limit.
- NimbleClients.NimbleClient.HandleJoinGameResponse: the decoder is taken to deliver at most 8 participants, the size of the table; the loop over them has no bound of its own.
- ReceivedSteps.NothingReceivedIsLost: the pending buffer is taken to keep a step however far ahead it is; the 64-bit receive mask in send_steps.c suggests that the library bounds the window, and a step beyond it would have to be sent again.
