/**
 * The client struct, updated in place, and its operations as the source writes them
 * (src/lib/client.c, incoming.c, receive_transport.c, outgoing.c, send_steps.c and the response handlers).
 * Each method is proved against the function of the same purpose in `ClientModel`.
 */
module NimbleClients {
  import opened Wrappers
  import opened ConnectionQuality
  import opened StepBuffers
  import opened ClientModel

  class NimbleClient {
    var waitTime: int
    var state: ClientState
    var joinParticipantPhase: JoinPhase
    const localParticipantLookup: array<Entry>
    var localParticipantCount: nat
    var inbox: seq<Arrival>
    var outSteps: Steps
    var pendingSteps: PendingSteps
    var authoritativeSteps: Steps
    const stepCapacity: nat
    var joinedGameState: GameState
    var joinStateChannel: nat
    var joinStateId: nat
    var downloadStateClientRequestId: nat
    var orderedDatagramIn: Option<int>
    var orderedDatagramOut: nat
    var lagometer: seq<LagometerPacket>
    const quality: QualityMonitor
    var remoteConnectionId: nat
    var useDebugStreams: bool

    ghost predicate Valid()
      reads this
    {
      localParticipantLookup.Length == MAX_LOCAL_USERS && localParticipantCount <= MAX_LOCAL_USERS
    }

    ghost function View(): Client
      requires Valid()
      reads this, localParticipantLookup, quality
    {
      Client(state, waitTime, joinParticipantPhase, localParticipantLookup[..], localParticipantCount, inbox,
             outSteps, pendingSteps, authoritativeSteps, stepCapacity, joinedGameState, joinStateChannel, joinStateId,
             downloadStateClientRequestId, orderedDatagramIn, orderedDatagramOut, lagometer, quality.View(),
             remoteConnectionId, useDebugStreams)
    }

    /** A zeroed struct with room for `capacity` steps in each buffer; `Init` comes next. */
    constructor (capacity: nat)
      ensures Valid() && fresh(localParticipantLookup) && fresh(quality)
      ensures stepCapacity == capacity && state == Idle && waitTime == 0 && joinStateChannel == 0
    {
      stepCapacity := capacity;
      state, waitTime, joinParticipantPhase := Idle, 0, JoiningParticipant;
      localParticipantLookup := new Entry[MAX_LOCAL_USERS](_ => UNUSED);
      localParticipantCount := 0;
      inbox := [];
      outSteps, authoritativeSteps := RestartAt(0), RestartAt(0);
      pendingSteps := PendingSteps(0, map[]);
      joinedGameState := GameState(0, None);
      joinStateChannel, joinStateId, downloadStateClientRequestId := 0, 0, 0;
      orderedDatagramIn, orderedDatagramOut, lagometer := None, 0, [];
      quality := new QualityMonitor();
      remoteConnectionId, useDebugStreams := 0, false;
    }

    // -------------------------------------------------------------- reset

    method ClearLookup()
      requires Valid()
      modifies this`localParticipantCount, localParticipantLookup
      ensures localParticipantCount == 0 && localParticipantLookup[..] == BlankTable()
    {
      localParticipantCount := 0;
      for i := 0 to localParticipantLookup.Length
        modifies localParticipantLookup
        invariant forall k :: 0 <= k < i ==> localParticipantLookup[k] == UNUSED
      {
        localParticipantLookup[i] := UNUSED;
      }
    }

    /** All three step buffers start over at the same id. */
    method RestartBuffers(id: nat)
      modifies this`outSteps, this`pendingSteps, this`authoritativeSteps
      ensures outSteps == authoritativeSteps == RestartAt(id) && pendingSteps == PendingSteps(id, map[])
    {
      pendingSteps := PendingSteps(id, map[]);
      authoritativeSteps := RestartAt(id);
      outSteps := RestartAt(id);
    }

    method ResetProtocol()
      modifies this`state, this`joinedGameState, this`downloadStateClientRequestId
      modifies this`orderedDatagramIn, this`orderedDatagramOut, this`lagometer
      ensures state == Idle && joinedGameState == old(joinedGameState).(octets := None)
          && downloadStateClientRequestId == 1
      ensures orderedDatagramIn == None && orderedDatagramOut == 0 && lagometer == []
    {
      state := Idle;
      joinedGameState := joinedGameState.(octets := None);
      downloadStateClientRequestId := 1;
      orderedDatagramIn := None;
      orderedDatagramOut := 0;
      lagometer := [];
    }

    method Reset()
      requires Valid()
      modifies this, localParticipantLookup, quality
      ensures Valid() && View() == ResetClient(old(View()))
    {
      RestartBuffers(0);
      ClearLookup();
      ResetProtocol();
      quality.Reset();
    }

    method ReInit(transport: seq<Arrival>)
      requires Valid()
      modifies this, localParticipantLookup, quality
      ensures Valid() && View() == ReInitClient(old(View()), transport)
    {
      inbox := transport;
      Reset();
    }

    method Init(transport: seq<Arrival>)
      requires Valid()
      modifies this, localParticipantLookup, quality
      ensures Valid() && View() == InitClient(old(View()), transport)
    {
      useDebugStreams := false;
      remoteConnectionId := 0;
      ReInit(transport);
    }

    method Disconnect()
      requires Valid()
      modifies this`state
      ensures Valid() && View() == old(View()).(state := Disconnected)
    {
      state := Disconnected;
    }

    // -------------------------------------------------------------- response handlers

    method HandleConnectResponse(connect: Parse<ConnectReply>) returns (result: int)
      requires Valid()
      modifies this
      ensures Valid() && Outcome(View(), result) == OnConnectResponse(old(View()), connect)
    {
      if connect.Malformed? {
        return connect.code;
      }
      if state == RequestingConnect {
        state := Connected;
        useDebugStreams := connect.value.useDebugStreams;
        remoteConnectionId := connect.value.connectionId;
      }
      return 0;
    }

    method SetInitialGameState(octets: Octets)
      requires Valid()
      modifies this`state, this`joinedGameState, this`outSteps, this`pendingSteps, this`authoritativeSteps
      ensures Valid() && View() == TrySetInitialGameState(old(View()), octets)
    {
      if state == Synced {
        return;
      }
      state := Synced;
      joinedGameState := GameState(joinStateId, Some(octets));
      RestartBuffers(joinedGameState.stepId);
    }

    method HandleGameStatePart(channel: nat, progress: Parse<BlobProgress>) returns (result: int)
      requires Valid()
      modifies this
      ensures Valid() && Outcome(View(), result) == OnGameStatePart(old(View()), channel, progress)
    {
      if channel != joinStateChannel {
        return 0;
      }
      joinStateChannel := channel;
      if progress.Malformed? {
        return progress.code;
      }
      if progress.value.complete {
        SetInitialGameState(progress.value.octets);
      }
      return 0;
    }

    method Acknowledge(acknowledged: uint32)
      modifies this`lagometer, this`outSteps
      ensures lagometer == old(lagometer) + [ReceivedPacket]
      ensures outSteps == DiscardUpTo(old(outSteps), AfterAcknowledged(acknowledged))
    {
      lagometer := lagometer + [ReceivedPacket];
      outSteps := DiscardUpTo(outSteps, AfterAcknowledged(acknowledged));
    }

    method StoreSteps(received: Received)
      modifies this`pendingSteps, this`authoritativeSteps
      ensures (authoritativeSteps, pendingSteps) ==
              CopyReady(old(authoritativeSteps), Insert(old(pendingSteps), received), stepCapacity)
    {
      pendingSteps := Insert(pendingSteps, received);
      var (authoritative, pending) := CopyReady(authoritativeSteps, pendingSteps, stepCapacity);
      authoritativeSteps := authoritative;
      pendingSteps := pending;
    }

    method HandleGameStepResponse(acknowledged: uint32, steps: Parse<Received>) returns (result: int)
      requires Valid()
      modifies this, quality
      ensures Valid() && Outcome(View(), result) == OnGameStepResponse(old(View()), acknowledged, steps)
    {
      hide DiscardUpTo, Insert, CopyReady, AfterAcknowledged;
      ghost var c := View();
      Acknowledge(acknowledged);
      ghost var acked := View();
      assert acked == c.(lagometer := acked.lagometer, outSteps := acked.outSteps);
      if steps.Malformed? {
        return steps.code;
      }
      StoreSteps(steps.value);
      ghost var stored := View();
      assert stored == acked.(authoritative := stored.authoritative, pending := stored.pending);
      quality.ReceivedAuthoritativeSteps();
      return |steps.value|;
    }

    method SeatParticipants(participants: Participants)
      requires Valid()
      modifies this`localParticipantCount, localParticipantLookup
      ensures localParticipantCount == |participants|
      ensures localParticipantLookup[..] == Seated(old(localParticipantLookup[..]), participants)
    {
      localParticipantCount := |participants|;
      for i := 0 to |participants|
        modifies localParticipantLookup
        invariant forall k :: 0 <= k < i ==>
          localParticipantLookup[k] == SeatOf(participants[k])
        invariant forall k :: i <= k < localParticipantLookup.Length ==>
          localParticipantLookup[k] == old(localParticipantLookup[k])
      {
        localParticipantLookup[i] := SeatOf(participants[i]);
      }
      assert localParticipantLookup[..] == Seated(old(localParticipantLookup[..]), participants);
    }

    method HandleJoinGameResponse(join: Parse<Participants>) returns (result: int)
      requires Valid()
      modifies this, localParticipantLookup
      ensures Valid() && Outcome(View(), result) == OnJoinGameResponse(old(View()), join)
    {
      hide Seated;
      if join.Malformed? {
        return join.code;
      }
      if joinParticipantPhase != JoiningParticipant {
        return 0;
      }
      var participants := join.value;
      SeatParticipants(participants);
      joinParticipantPhase := JoinedParticipant;
      waitTime := 0;
      joinStateChannel := 0;
      return 0;
    }

    method StartDownload(response: StateReply)
      modifies this`joinStateChannel, this`joinedGameState, this`joinStateId, this`outSteps, this`state, this`waitTime
      ensures joinStateChannel == response.channel && joinStateId == response.stateId
      ensures joinedGameState == old(joinedGameState).(stepId := response.stateId)
      ensures outSteps == RestartAt(response.stateId) && state == JoiningDownloadingState && waitTime == 0
    {
      joinStateChannel := response.channel;
      joinedGameState := joinedGameState.(stepId := response.stateId);
      joinStateId := response.stateId;
      outSteps := RestartAt(response.stateId);
      state := JoiningDownloadingState;
      waitTime := 0;
    }

    method HandleGameStateResponse(reply: Parse<StateReply>) returns (result: int)
      requires Valid()
      modifies this
      ensures Valid() && Outcome(View(), result) == OnGameStateResponse(old(View()), reply)
    {
      if reply.Malformed? {
        return reply.code;
      }
      var response := reply.value;
      if response.requestId != downloadStateClientRequestId {
        return 0;
      }
      if response.channel == joinStateChannel {
        return 0;
      }
      StartDownload(response);
      return 0;
    }

    method HandleOutOfSlots(nonce: Parse<nat>) returns (result: int)
      requires Valid()
      modifies this
      ensures Valid() && Outcome(View(), result) == OnOutOfSlots(old(View()), nonce)
    {
      if nonce.Malformed? {
        return nonce.code;
      }
      joinParticipantPhase := OutOfParticipantSlots;
      return 0;
    }

    method DispatchMessage(m: Message) returns (result: int)
      requires Valid()
      modifies this, localParticipantLookup, quality
      ensures Valid() && Outcome(View(), result) == Dispatch(old(View()), m)
    {
      match m {
        case ConnectResponse(connect) => result := HandleConnectResponse(connect);
        case GameStatePart(channel, progress) => result := HandleGameStatePart(channel, progress);
        case GameStepResponse(acknowledged, steps) => result := HandleGameStepResponse(acknowledged, steps);
        case JoinGameResponse(join) => result := HandleJoinGameResponse(join);
        case GameStateResponse(reply) => result := HandleGameStateResponse(reply);
        case OutOfSlotsResponse(nonce) => result := HandleOutOfSlots(nonce);
        case UnknownCommand => result := -1;
      }
    }

    // -------------------------------------------------------------- receiving

    method AddDroppedPackets(count: nat)
      requires Valid()
      modifies this`lagometer, quality
      ensures Valid() && View() == RecordDrops(old(View()), count)
    {
      if count == 0 {
        return;
      }
      for i := 0 to count
        modifies this`lagometer
        invariant lagometer == old(lagometer) + DroppedPackets(i)
      {
        lagometer := lagometer + [DroppedPacket];
      }
      quality.DroppedDatagrams(count);
    }

    method FeedDatagram(d: Datagram) returns (result: int)
      requires Valid()
      modifies this, localParticipantLookup, quality
      ensures Valid() && Outcome(View(), result) == Feed(old(View()), d)
    {
      hide Dispatch, DroppedPackets;
      if state == Disconnected {
        return 0;
      }
      var delta := ForwardDistance(orderedDatagramIn, d.id);
      if delta <= 0 {
        return ORDER_ERROR;
      }
      ghost var before := View();
      orderedDatagramIn := Some(d.id);
      assert View() == before.(orderedIn := Some(d.id));
      AddDroppedPackets(delta - 1);
      ghost var ordered := View();
      if d.pong.Malformed? {
        return d.pong.code;
      }
      quality.GameStepLatency(d.pong.value);
      assert View() == ordered.(quality := LatencySampled(ordered.quality, d.pong.value));
      result := DispatchMessage(d.message);
    }

    method ReceiveAllDatagrams() returns (result: int)
      requires Valid()
      modifies this, localParticipantLookup, quality
      ensures Valid() && Outcome(View(), result) == ReceiveAll(old(View()))
    {
      var count: nat := 0;
      while true
        invariant Valid()
        invariant ReceiveAll(old(View())) ==
                  var rest := ReceiveAll(View());
                  if rest.result < 0 then rest else Outcome(rest.client, rest.result + count)
        decreases |inbox|
      {
        if inbox == [] {
          break;
        }
        ghost var before := View();
        TakeNextPops(before);
        var arrival := inbox[0];
        inbox := inbox[1..];
        if arrival.TransportError? {
          return arrival.code;
        }
        var status := FeedDatagram(arrival.datagram);
        if status < 0 {
          return status;
        }
        quality.ReceivedUsableDatagram();
        assert View() == TakeNext(before).client;
        count := count + 1;
      }
      return count;
    }

    // -------------------------------------------------------------- sending

    /** Writes the next datagram id into a header; nothing is consumed until `CommitHeader`. */
    method WriteHeader() returns (id: nat)
      ensures id == orderedDatagramOut
    {
      id := orderedDatagramOut;
    }

    method CommitHeader()
      modifies this`orderedDatagramOut
      ensures orderedDatagramOut == old(orderedDatagramOut) + 1
    {
      orderedDatagramOut := orderedDatagramOut + 1;
    }

    method SendStepsToServer(s: Surroundings) returns (rounds: seq<Round>, result: int)
      requires Valid()
      modifies this`waitTime, this`orderedDatagramOut
      ensures Valid() && Sent(View(), rounds, result) == SendSteps(old(View()), s)
    {
      var id := WriteHeader();
      if s.stepsWritten < 0 {
        return [], s.stepsWritten;
      }
      waitTime := 0;
      if s.stepsWritten == 0 {
        return [], 0;
      }
      CommitHeader();
      return [Round(id, PredictedSteps, true)], s.stepsSent;
    }

    method WriteMessage(s: Surroundings) returns (content: Content, result: int)
      requires Valid()
      modifies this`waitTime
      ensures content == ContentFor(old(View()))
      ensures result == if content.BlobStreamAck? && s.blobWritten < 0 then s.blobWritten else 0
      ensures waitTime == if result < 0 then old(waitTime) else WaitAfter(content, old(waitTime))
    {
      match state {
        case RequestingConnect =>
          waitTime := RESEND_WAIT;
          return ConnectRequest, 0;
        case JoiningRequestingState =>
          waitTime := RESEND_WAIT;
          return DownloadStateRequest, 0;
        case JoiningDownloadingState =>
          if s.blobWritten < 0 {
            return BlobStreamAck, s.blobWritten;
          }
          waitTime := 0;
          return BlobStreamAck, 0;
        case Synced =>
          if joinParticipantPhase == JoiningParticipant {
            waitTime := RESEND_WAIT;
            return JoinGameRequest, 0;
          }
          return HeaderOnly, 0;
        case Idle => return HeaderOnly, 0;
        case Connected => return HeaderOnly, 0;
        case Disconnected => return HeaderOnly, 0;
      }
    }

    method Outgoing(s: Surroundings) returns (rounds: seq<Round>, result: int)
      requires Valid()
      modifies this`waitTime, this`orderedDatagramOut
      ensures Valid() && Sent(View(), rounds, result) == HandleState(old(View()), s)
    {
      if state == Idle || state == Connected || state == Disconnected {
        return [], 0;
      }
      rounds := [];
      if state == Synced {
        rounds, result := SendStepsToServer(s);
        if result < 0 {
          return;
        }
      }
      var id := WriteHeader();
      var content, status := WriteMessage(s);
      if status < 0 {
        return rounds, status;
      }
      CommitHeader();
      var handed := s.octets > HEADER_OCTETS;
      rounds := rounds + [Round(id, content, handed)];
      result := if handed then s.messageSent else 0;
    }

    // -------------------------------------------------------------- the update tick

    method CheckIfDisconnectIsNeeded()
      requires Valid()
      modifies this`state
      ensures Valid()
      ensures View() == old(View()).(state :=
                if old(state) == Synced && ShouldDisconnect(quality.View()) then Disconnected else old(state))
    {
      if state != Synced {
        return;
      }
      if quality.reason != KeepConnection {
        state := Disconnected;
      }
    }

    method Update(s: Surroundings) returns (rounds: seq<Round>, result: int)
      requires Valid()
      modifies this, localParticipantLookup, quality
      ensures Valid() && Sent(View(), rounds, result) == Updated(old(View()), s)
    {
      hide ReceiveAll, Assess, Verdict;
      result := ReceiveAllDatagrams();
      if result < 0 {
        return [], result;
      }
      ghost var received := View();
      quality.Update(state == Synced);
      CheckIfDisconnectIsNeeded();
      assert View() == JudgeQuality(received);
      if waitTime > 0 {
        waitTime := waitTime - 1;
        return [], 0;
      }
      rounds := [];
      if state != Idle && state != Disconnected {
        var status;
        rounds, status := Outgoing(s);
      }
    }

    // -------------------------------------------------------------- the application's side

    method Read() returns (step: Option<(nat, Octets)>)
      requires Valid()
      modifies this`authoritativeSteps
      ensures Valid() && (View(), step) == ReadStep(old(View()))
    {
      var read := ReadFirst(authoritativeSteps);
      authoritativeSteps := read.0;
      step := read.1;
    }

    method Write(payload: Octets)
      requires Valid()
      modifies this`outSteps
      ensures Valid() && View() == WriteStep(old(View()), payload)
    {
      if |outSteps.items| < stepCapacity {
        outSteps := Append(outSteps, payload);
      }
    }

    /** What the transport collects between two updates. */
    method Collect(arrivals: seq<Arrival>)
      requires Valid()
      modifies this`inbox
      ensures Valid() && View() == old(View()).(inbox := old(inbox) + arrivals)
    {
      inbox := inbox + arrivals;
    }

    method FindParticipantId(localIndex: Octet) returns (status: int, participantId: Octet)
      requires Valid()
      ensures var found := FindParticipant(localParticipantLookup[..], localParticipantCount, localIndex);
        if found.Some? then status == 1 && participantId == found.value else status == -1 && participantId == 0xff
    {
      for i := 0 to localParticipantCount
        invariant FindParticipant(localParticipantLookup[..], i, localIndex).None?
      {
        if localParticipantLookup[i].localIndex == localIndex {
          FoundStays(localParticipantLookup[..], i + 1, localParticipantCount, localIndex);
          return 1, localParticipantLookup[i].participantId;
        }
      }
      return -1, 0xff;
    }
  }

  lemma {:induction false} FoundStays(lookup: seq<Entry>, count: nat, more: nat, localIndex: Octet)
    requires count <= more <= |lookup| && FindParticipant(lookup, count, localIndex).Some?
    ensures FindParticipant(lookup, more, localIndex) == FindParticipant(lookup, count, localIndex)
  {
    if count < more {
      FoundStays(lookup, count, more - 1, localIndex);
    }
  }
}
