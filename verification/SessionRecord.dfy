/** What a client keeps of its session: the connection it was given, and the game state it has downloaded. */
module SessionRecord {
  import opened Wrappers
  import opened ConnectionQuality
  import opened StepBuffers
  import opened ClientModel
  import opened RealizerModel
  import opened Handshake
  import opened HeldChannel

  datatype Record = Record(connection: ConnectReply, blob: Option<Octets>)

  function RecordBy(c: Client): Record {
    Record(ConnectReply(c.remoteConnectionId, c.useDebugStreams), c.joinedGameState.octets)
  }

  /** The record after the next arrival: a connection accepted, or a download completed. */
  function RecordNext(record: Record, c: Client): Record
    requires c.inbox != []
  {
    match c.inbox[0]
    case TransportError(_) => record
    case Incoming(d) =>
      if AcceptsConnection(c, d) then record.(connection := d.message.connect.value)
      else if CompletesDownload(c, d) then record.(blob := Some(d.message.progress.value.octets))
      else record
  }

  function RecordAfter(record: Record, c: Client): Record
    decreases |c.inbox|
  {
    if c.inbox == [] then record
    else
      TakeNextPops(c);
      if TakeNext(c).result < 0 then RecordNext(record, c) else RecordAfter(RecordNext(record, c), TakeNext(c).client)
  }

  /** Init forgets the connection, and every fresh start the game state. */
  function RecordOf(r: Realizer, run: seq<Event>): Record {
    if run == [] then RecordBy(r.client)
    else
      var earlier, last := run[..|run| - 1], run[|run| - 1];
      if last.InitEvent? then Record(ConnectReply(0, false), None)
      else if StartsOver(last) then RecordOf(r, earlier).(blob := None)
      else if Listens(After(r, earlier), last) then
        RecordAfter(RecordOf(r, earlier), Deliver(After(r, earlier), last.arrivals).client)
      else RecordOf(r, earlier)
  }

  lemma DispatchRecords(c: Client, m: Message)
    ensures RecordBy(Dispatch(c, m).client) ==
            if c.state.RequestingConnect? && m.ConnectResponse? && m.connect.Parsed? then
              RecordBy(c).(connection := m.connect.value)
            else if !c.state.Synced? && m.GameStatePart? && m.channel == c.joinStateChannel && m.progress.Parsed?
                    && m.progress.value.complete then
              RecordBy(c).(blob := Some(m.progress.value.octets))
            else RecordBy(c)
  {
    hide CopyReady, DiscardUpTo, Insert, Seated;
  }

  lemma TakeNextRecords(c: Client)
    requires c.inbox != []
    ensures RecordBy(TakeNext(c).client) == RecordNext(RecordBy(c), c)
  {
    hide Dispatch, DroppedPackets;
    if c.inbox[0].Incoming? {
      var d := c.inbox[0].datagram;
      var c1 := RecordDrops(c.(inbox := c.inbox[1..], orderedIn := Some(d.id)), ForwardDistance(c.orderedIn, d.id) - 1);
      if d.pong.Parsed? {
        DispatchRecords(c1.(quality := LatencySampled(c1.quality, d.pong.value)), d.message);
      }
    }
  }

  lemma {:induction false} ReceiveRecords(c: Client)
    ensures RecordBy(ReceiveAll(c).client) == RecordAfter(RecordBy(c), c)
    decreases |c.inbox|
  {
    hide TakeNext, RecordBy, RecordNext;
    if c.inbox != [] {
      TakeNextPops(c);
      TakeNextRecords(c);
      if TakeNext(c).result >= 0 {
        ReceiveRecords(TakeNext(c).client);
      }
    }
  }

  lemma UpdatedRecords(c: Client, s: Surroundings)
    ensures RecordBy(Updated(c, s).client) == RecordAfter(RecordBy(c), c)
  {
    hide ReceiveAll, HandleState, Rating, RecordAfter;
    ReceiveRecords(c);
    SendingTouches(JudgeQuality(ReceiveAll(c).client), s);
  }

  lemma StepRecords(r: Realizer, e: Event)
    ensures RecordBy(Step(r, e).realizer.client) ==
            if e.InitEvent? then Record(ConnectReply(0, false), None)
            else if StartsOver(e) then RecordBy(r.client).(blob := None)
            else if Listens(r, e) then RecordAfter(RecordBy(r.client), Deliver(r, e.arrivals).client)
            else RecordBy(r.client)
  {
    hide Updated, RecordAfter;
    if Listens(r, e) {
      UpdatedRecords(Deliver(r, e.arrivals).client, e.surroundings);
    }
  }

  /**
   * Over every run the client keeps the connection id and debug flag of the connect response it accepted last, through
   * every fresh start but Init, and the blob it entered the game with last, until the next fresh start.
   */
  lemma {:induction false} RecordIsKept(r: Realizer, run: seq<Event>)
    ensures RecordBy(After(r, run).client) == RecordOf(r, run)
  {
    hide Step, RecordBy, RecordAfter;
    if run != [] {
      RecordIsKept(r, run[..|run| - 1]);
      StepRecords(After(r, run[..|run| - 1]), run[|run| - 1]);
    }
  }
}
