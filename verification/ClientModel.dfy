/**
 * What the Nimble client does, as functions on the value of its struct: the response handlers, the
 * feeding of one datagram, the receive loop, the outgoing message and the update tick.
 * `NimbleClient` holds the same state in place and is proved against these functions.
 */
module ClientModel {
  import opened Wrappers
  import opened ConnectionQuality
  import opened StepBuffers

  datatype ClientState =
    | Idle
    | RequestingConnect
    | Connected
    | JoiningRequestingState
    | JoiningDownloadingState
    | Synced
    | Disconnected

  datatype JoinPhase = JoiningParticipant | JoinedParticipant | OutOfParticipantSlots

  const MAX_LOCAL_USERS: nat := 8

  datatype Entry = Entry(isUsed: bool, localIndex: Octet, participantId: Octet)

  /** The fixed array of local participants. */
  type Table = t: seq<Entry> | |t| == MAX_LOCAL_USERS witness BlankTable()

  const UNUSED := Entry(false, 0, 0)

  datatype GameState = GameState(stepId: nat, octets: Option<Octets>)

  datatype LagometerPacket = DroppedPacket | ReceivedPacket

  datatype Client = Client(
    state: ClientState,
    waitTime: int,
    phase: JoinPhase,
    lookup: Table,
    participantCount: nat,
    inbox: seq<Arrival>,          // what the transport still holds
    outSteps: Steps,
    pending: PendingSteps,
    authoritative: Steps,
    stepCapacity: nat,
    joinedGameState: GameState,
    joinStateChannel: nat,
    joinStateId: nat,
    downloadRequestId: nat,
    orderedIn: Option<int>,       // the last accepted datagram id
    orderedOut: nat,              // the next datagram id to send
    lagometer: seq<LagometerPacket>,
    quality: Quality,
    remoteConnectionId: nat,
    useDebugStreams: bool)

  // ---------------------------------------------------------------- decoded input

  datatype ConnectReply = ConnectReply(connectionId: nat, useDebugStreams: bool)

  datatype Participant = Participant(localIndex: nat, participantId: nat)

  /** The join response decoder fills at most as many participants as the table has room for. */
  type Participants = ps: seq<Participant> | |ps| <= MAX_LOCAL_USERS

  datatype StateReply = StateReply(requestId: nat, stateId: nat, channel: nat)

  /** A chunk the blob stream accepted: whether the blob is complete now, and its octets so far. */
  datatype BlobProgress = BlobProgress(complete: bool, octets: Octets)

  datatype Message =
    | ConnectResponse(connect: Parse<ConnectReply>)
    | GameStatePart(channel: nat, progress: Parse<BlobProgress>)
    | GameStepResponse(acknowledged: uint32, steps: Parse<Received>)
    | JoinGameResponse(join: Parse<Participants>)
    | GameStateResponse(reply: Parse<StateReply>)
    | OutOfSlotsResponse(nonce: Parse<nat>)
    | UnknownCommand

  /** `pong` is the latency average after the sample this datagram carries. */
  datatype Datagram = Datagram(id: int, pong: Parse<Option<int32>>, message: Message)

  datatype Arrival = Incoming(datagram: Datagram) | TransportError(code: ErrorCode)

  const ORDER_ERROR: ErrorCode := -91

  /** A C function that returns a status: the new state and the status. */
  datatype Outcome = Outcome(client: Client, result: int)

  // ---------------------------------------------------------------- reset

  function BlankTable(): seq<Entry> {
    [UNUSED, UNUSED, UNUSED, UNUSED, UNUSED, UNUSED, UNUSED, UNUSED]
  }

  function ResetClient(c: Client): Client {
    c.(outSteps := RestartAt(0),
       pending := PendingSteps(0, map[]),
       authoritative := RestartAt(0),
       participantCount := 0,
       lookup := BlankTable(),
       state := Idle,
       joinedGameState := c.joinedGameState.(octets := None),
       downloadRequestId := 1,
       quality := ResetQuality(c.quality),
       orderedIn := None,
       orderedOut := 0,
       lagometer := [])
  }

  function ReInitClient(c: Client, transport: seq<Arrival>): Client {
    ResetClient(c.(inbox := transport))
  }

  function InitClient(c: Client, transport: seq<Arrival>): Client {
    ReInitClient(c.(useDebugStreams := false, remoteConnectionId := 0), transport)
  }

  // ---------------------------------------------------------------- response handlers

  function OnConnectResponse(c: Client, connect: Parse<ConnectReply>): Outcome {
    match connect
    case Malformed(code) => Outcome(c, code)
    case Parsed(reply) =>
      Outcome(if c.state.RequestingConnect? then
                c.(state := Connected, useDebugStreams := reply.useDebugStreams,
                  remoteConnectionId := reply.connectionId)
              else c, 0)
  }

  function TrySetInitialGameState(c: Client, octets: Octets): Client {
    if c.state.Synced? then c
    else
      c.(state := Synced,
         joinedGameState := GameState(c.joinStateId, Some(octets)),
         pending := PendingSteps(c.joinStateId, map[]),
         authoritative := RestartAt(c.joinStateId),
         outSteps := RestartAt(c.joinStateId))
  }

  function OnGameStatePart(c: Client, channel: nat, progress: Parse<BlobProgress>): Outcome {
    if channel != c.joinStateChannel then Outcome(c, 0)
    else match progress
      case Malformed(code) => Outcome(c, code)
      case Parsed(p) => Outcome(if p.complete then TrySetInitialGameState(c, p.octets) else c, 0)
  }

  /** The 32-bit id after the acknowledged one. */
  function AfterAcknowledged(acknowledged: uint32): uint32 {
    (acknowledged + 1) % STEP_ID_MODULUS
  }

  function OnGameStepResponse(c: Client, acknowledged: uint32, steps: Parse<Received>): Outcome {
    var c1 := c.(lagometer := c.lagometer + [ReceivedPacket],
                 outSteps := DiscardUpTo(c.outSteps, AfterAcknowledged(acknowledged)));
    match steps
    case Malformed(code) => Outcome(c1, code)
    case Parsed(received) =>
      var (authoritative, pending) := CopyReady(c.authoritative, Insert(c.pending, received), c.stepCapacity);
      var c2 := c1.(authoritative := authoritative, pending := pending, quality := AuthoritativeSteps(c.quality));
      Outcome(c2, |received|)
  }

  function SeatOf(p: Participant): Entry {
    Entry(true, p.localIndex % 0x100, p.participantId % 0x100)
  }

  /** The table after its first |participants| entries have been overwritten. */
  function Seated(lookup: seq<Entry>, participants: seq<Participant>): (table: seq<Entry>)
    requires |participants| <= |lookup|
    ensures |table| == |lookup|
    ensures forall i :: 0 <= i < |participants| ==> table[i] == SeatOf(participants[i])
    ensures forall i :: |participants| <= i < |lookup| ==> table[i] == lookup[i]
  {
    var n := |participants|;
    if n == 0 then lookup
    else Seated(lookup, participants[..n - 1])[n - 1 := SeatOf(participants[n - 1])]
  }

  function OnJoinGameResponse(c: Client, join: Parse<Participants>): Outcome {
    match join
    case Malformed(code) => Outcome(c, code)
    case Parsed(participants) =>
      Outcome(if c.phase.JoiningParticipant? then
                c.(participantCount := |participants|, lookup := Seated(c.lookup, participants),
                   phase := JoinedParticipant, waitTime := 0, joinStateChannel := 0)
              else c, 0)
  }

  function OnGameStateResponse(c: Client, reply: Parse<StateReply>): Outcome {
    match reply
    case Malformed(code) => Outcome(c, code)
    case Parsed(r) =>
      Outcome(if r.requestId == c.downloadRequestId && r.channel != c.joinStateChannel then
                c.(joinStateChannel := r.channel, joinedGameState := c.joinedGameState.(stepId := r.stateId),
                   joinStateId := r.stateId, outSteps := RestartAt(r.stateId),
                   state := JoiningDownloadingState, waitTime := 0)
              else c, 0)
  }

  function OnOutOfSlots(c: Client, nonce: Parse<nat>): Outcome {
    match nonce
    case Malformed(code) => Outcome(c, code)
    case Parsed(_) => Outcome(c.(phase := OutOfParticipantSlots), 0)
  }

  function Dispatch(c: Client, m: Message): Outcome {
    match m
    case ConnectResponse(connect) => OnConnectResponse(c, connect)
    case GameStatePart(channel, progress) => OnGameStatePart(c, channel, progress)
    case GameStepResponse(acknowledged, steps) => OnGameStepResponse(c, acknowledged, steps)
    case JoinGameResponse(join) => OnJoinGameResponse(c, join)
    case GameStateResponse(reply) => OnGameStateResponse(c, reply)
    case OutOfSlotsResponse(nonce) => OnOutOfSlots(c, nonce)
    case UnknownCommand => Outcome(c, -1)
  }

  // ---------------------------------------------------------------- one datagram

  /** Contract of the ordered-datagram library: how far `id` lies ahead of the last accepted id. */
  function ForwardDistance(last: Option<int>, id: int): int {
    if last.None? then 1 else id - last.value
  }

  /** The order check passes: a client in contact has not seen this id or a later one. */
  predicate PassesOrder(c: Client, d: Datagram) {
    !c.state.Disconnected? && ForwardDistance(c.orderedIn, d.id) > 0
  }

  /** A datagram whose message reaches its handler. */
  predicate Handled(c: Client, d: Datagram) {
    PassesOrder(c, d) && d.pong.Parsed?
  }

  /** A download response for the client's request and for a channel it does not have yet. */
  predicate OffersDownload(c: Client, d: Datagram) {
    && Handled(c, d) && d.message.GameStateResponse? && d.message.reply.Parsed?
    && d.message.reply.value.requestId == c.downloadRequestId && d.message.reply.value.channel != c.joinStateChannel
  }

  /** The chunk that completes the blob of the current channel, for a client that is not synced. */
  predicate CompletesDownload(c: Client, d: Datagram) {
    && Handled(c, d) && !c.state.Synced?
    && d.message.GameStatePart? && d.message.channel == c.joinStateChannel
    && d.message.progress.Parsed? && d.message.progress.value.complete
  }

  /** The connect response a requesting client is waiting for. */
  predicate AcceptsConnection(c: Client, d: Datagram) {
    Handled(c, d) && c.state.RequestingConnect? && d.message.ConnectResponse? && d.message.connect.Parsed?
  }

  /** A join response for a client that is asking to join. */
  predicate TakesSeat(c: Client, d: Datagram) {
    Handled(c, d) && d.message.JoinGameResponse? && d.message.join.Parsed? && c.phase.JoiningParticipant?
  }

  function DroppedPackets(count: nat): (packets: seq<LagometerPacket>)
    ensures |packets| == count
  {
    if count == 0 then [] else DroppedPackets(count - 1) + [DroppedPacket]
  }

  function RecordDrops(c: Client, count: int): Client {
    if count <= 0 then c
    else c.(lagometer := c.lagometer + DroppedPackets(count), quality := DropDatagrams(c.quality, count))
  }

  function Feed(c: Client, d: Datagram): Outcome {
    if c.state.Disconnected? then Outcome(c, 0)
    else
      var distance := ForwardDistance(c.orderedIn, d.id);
      if distance <= 0 then Outcome(c, ORDER_ERROR)
      else
        var c1 := RecordDrops(c.(orderedIn := Some(d.id)), distance - 1);
        match d.pong
        case Malformed(code) => Outcome(c1, code)
        case Parsed(average) => Dispatch(c1.(quality := LatencySampled(c1.quality, average)), d.message)
  }

  // ---------------------------------------------------------------- the receive loop

  function MarkUsable(c: Client): Client {
    c.(quality := UsableDatagram(c.quality))
  }

  /** What one round of the receive loop makes of the next arrival. */
  function TakeNext(c: Client): Outcome
    requires c.inbox != []
  {
    var c1 := c.(inbox := c.inbox[1..]);
    match c.inbox[0]
    case TransportError(code) => Outcome(c1, code)
    case Incoming(d) =>
      var fed := Feed(c1, d);
      if fed.result < 0 then fed else Outcome(MarkUsable(fed.client), 0)
  }

  lemma TakeNextPops(c: Client)
    requires c.inbox != []
    ensures TakeNext(c).client.inbox == c.inbox[1..]
  {
  }

  /** Until the transport is empty or something fails; the result is the number accepted, or the error. */
  function ReceiveAll(c: Client): Outcome
    decreases |c.inbox|
  {
    if c.inbox == [] then Outcome(c, 0)
    else
      TakeNextPops(c);
      var taken := TakeNext(c);
      if taken.result < 0 then taken
      else
        var rest := ReceiveAll(taken.client);
        if rest.result < 0 then rest else Outcome(rest.client, rest.result + 1)
  }

  // ---------------------------------------------------------------- sending

  datatype Content = PredictedSteps | ConnectRequest | DownloadStateRequest | BlobStreamAck | JoinGameRequest
    | HeaderOnly

  /** A header that was written and committed; `handed` tells whether the transport got the datagram. */
  datatype Round = Round(id: nat, content: Content, handed: bool)

  /** The outcomes of the unseen libraries and of the transport in one update. */
  datatype Surroundings = Surroundings(
    stepsWritten: int,    // steps serialized, or an error
    octets: nat,          // size of the message datagram
    blobWritten: int,     // status of writing the blob stream acknowledgement
    stepsSent: int,       // status of handing over the steps
    messageSent: int)     // status of handing over the message

  const HEADER_OCTETS: nat := 10
  const RESEND_WAIT := 4

  datatype Sent = Sent(client: Client, rounds: seq<Round>, result: int)

  function SendSteps(c: Client, s: Surroundings): Sent {
    if s.stepsWritten < 0 then Sent(c, [], s.stepsWritten)
    else if s.stepsWritten == 0 then Sent(c.(waitTime := 0), [], 0)
    else Sent(c.(waitTime := 0, orderedOut := c.orderedOut + 1), [Round(c.orderedOut, PredictedSteps, true)],
      s.stepsSent)
  }

  function ContentFor(c: Client): Content {
    match c.state
    case RequestingConnect => ConnectRequest
    case JoiningRequestingState => DownloadStateRequest
    case JoiningDownloadingState => BlobStreamAck
    case Synced => if c.phase.JoiningParticipant? then JoinGameRequest else HeaderOnly
    case _ => HeaderOnly
  }

  function WaitAfter(content: Content, waitTime: int): int {
    match content
    case ConnectRequest => RESEND_WAIT
    case DownloadStateRequest => RESEND_WAIT
    case JoinGameRequest => RESEND_WAIT
    case BlobStreamAck => 0
    case _ => waitTime
  }

  function SendMessage(c: Client, s: Surroundings): Sent {
    var content := ContentFor(c);
    if content.BlobStreamAck? && s.blobWritten < 0 then Sent(c, [], s.blobWritten)
    else
      var handed := s.octets > HEADER_OCTETS;
      Sent(c.(waitTime := WaitAfter(content, c.waitTime), orderedOut := c.orderedOut + 1),
           [Round(c.orderedOut, content, handed)],
           if handed then s.messageSent else 0)
  }

  function HandleState(c: Client, s: Surroundings): Sent {
    if c.state.Idle? || c.state.Connected? || c.state.Disconnected? then Sent(c, [], 0)
    else if c.state.Synced? then
      var steps := SendSteps(c, s);
      if steps.result < 0 then steps
      else
        var message := SendMessage(steps.client, s);
        Sent(message.client, steps.rounds + message.rounds, message.result)
    else SendMessage(c, s)
  }

  // ---------------------------------------------------------------- the update tick

  function JudgeQuality(c: Client): Client {
    if !c.state.Synced? then c
    else
      var quality := Tick(c.quality);
      c.(quality := quality, state := if ShouldDisconnect(quality) then Disconnected else Synced)
  }

  function Updated(c: Client, s: Surroundings): Sent {
    var received := ReceiveAll(c);
    if received.result < 0 then Sent(received.client, [], received.result)
    else
      var judged := JudgeQuality(received.client);
      if judged.waitTime > 0 then Sent(judged.(waitTime := judged.waitTime - 1), [], 0)
      else
        var sent := HandleState(judged, s);
        Sent(sent.client, sent.rounds, received.result)
  }

  // ---------------------------------------------------------------- the application's side

  function ReadStep(c: Client): (Client, Option<(nat, Octets)>) {
    var (authoritative, step) := ReadFirst(c.authoritative);
    (c.(authoritative := authoritative), step)
  }

  /** nbsStepsWrite on the outgoing buffer, which the application fills itself. */
  function WriteStep(c: Client, payload: Octets): Client {
    if |c.outSteps.items| < c.stepCapacity then c.(outSteps := Append(c.outSteps, payload)) else c
  }

  /** The first entry in use for a local index. */
  function FindParticipant(lookup: seq<Entry>, count: nat, localIndex: Octet): Option<Octet>
    requires count <= |lookup|
  {
    if count == 0 then None
    else
      var earlier := FindParticipant(lookup, count - 1, localIndex);
      if earlier.Some? then earlier
      else if lookup[count - 1].localIndex == localIndex then Some(lookup[count - 1].participantId)
      else None
  }
}
