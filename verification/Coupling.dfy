/** How the states of the realizer and of its client go together, in every reachable situation. */
module Coupling {
  import opened Wrappers
  import opened ConnectionQuality
  import opened ClientModel
  import opened RealizerModel

  // ---------------------------------------------------------------- how the client moves

  /** Receiving moves the client forward to Connected, or from anywhere but Disconnected into the download or Synced. */
  predicate Receives(from: ClientState, to: ClientState) {
    || from == to
    || (from.RequestingConnect? && to.Connected?)
    || (!from.Disconnected? && (to.JoiningDownloadingState? || to.Synced?))
  }

  lemma FeedMoves(c: Client, d: Datagram)
    ensures Receives(c.state, Feed(c, d).client.state)
  {
  }

  lemma {:induction false} ReceiveMoves(c: Client)
    ensures Receives(c.state, ReceiveAll(c).client.state)
    decreases |c.inbox|
  {
    if c.inbox != [] {
      TakeNextPops(c);
      if c.inbox[0].Incoming? {
        FeedMoves(c.(inbox := c.inbox[1..]), c.inbox[0].datagram);
      }
      ReceiveMoves(TakeNext(c).client);
    }
  }

  lemma SendingStays(c: Client, s: Surroundings)
    ensures HandleState(c, s).client.state == c.state
  {
  }

  lemma UpdatedMoves(c: Client, s: Surroundings)
    ensures var to := Updated(c, s).client.state;
            Receives(c.state, to) || (!c.state.Disconnected? && to.Disconnected?)
  {
    hide ReceiveAll, HandleState;
    ReceiveMoves(c);
    SendingStays(JudgeQuality(ReceiveAll(c).client), s);
  }

  // ---------------------------------------------------------------- the coupled invariant

  datatype Shape = Shape(target: RealizeState, state: RealizeState, client: ClientState)

  function ShapeOf(r: Realizer): Shape {
    Shape(r.target, r.state, r.client.state)
  }

  predicate Coupled(x: Shape) {
    match x.target
    case RealizeInit =>
      x.client.Idle? && (x.state.RealizeInit? || x.state.RealizeReInit? || x.state.RealizeCleared?)
    case RealizeCleared =>
      x.client.Disconnected? || (x.client.Idle? && x.state.RealizeCleared?)
    case RealizeSynced =>
      x.client.Disconnected? ||
      (match x.state
       case RealizeCleared => x.client.Idle? || x.client.RequestingConnect?
       case RealizeSynced => x.client.Synced? || x.client.JoiningDownloadingState?
       case RealizeDisconnected => false
       case _ => !x.client.Connected? && !x.client.Synced?)
    case _ => false
  }

  lemma StepKeepsCoupled(r: Realizer, e: Event)
    requires Coupled(ShapeOf(r)) || e.InitEvent?
    ensures Coupled(ShapeOf(Step(r, e).realizer))
  {
    hide Updated;
    if e.UpdateEvent? {
      UpdatedMoves(Deliver(r, e.arrivals).client, e.surroundings);
    }
  }

  /** Whatever memory Init starts from, every run stays within the coupled shapes. */
  lemma {:induction false} AlwaysCoupled(memory: Realizer, transport: seq<Arrival>, run: seq<Event>)
    ensures Coupled(ShapeOf(After(Init(memory, transport), run)))
  {
    if run != [] {
      AlwaysCoupled(memory, transport, run[..|run| - 1]);
      StepKeepsCoupled(After(Init(memory, transport), run[..|run| - 1]), run[|run| - 1]);
    }
  }

  /** The clauses of the coupling an application can rely on. */
  lemma CouplingForCallers(memory: Realizer, transport: seq<Arrival>, run: seq<Event>)
    ensures var r := After(Init(memory, transport), run);
            && (r.state.RealizeDisconnected? ==> r.client.state.Disconnected?)
            && (r.state.RealizeSynced? ==>
                  r.client.state.Synced? || r.client.state.JoiningDownloadingState? || r.client.state.Disconnected?)
            && (r.client.state.Synced? ==> r.state.RealizeSynced? && r.target.RealizeSynced?)
            && (r.target.RealizeInit? ==> r.client.state.Idle?)
            && (r.target.RealizeCleared? ==>
                  r.client.state.Disconnected? || (r.state.RealizeCleared? && r.client.state.Idle?))
            && !r.client.state.Connected?
  {
    AlwaysCoupled(memory, transport, run);
  }

  // ---------------------------------------------------------------- every coupled shape is reached

  const QUIET := Surroundings(0, 0, 0, 0, 0)

  /** A client that has received nothing since it started over. */
  predicate Untouched(c: Client) {
    c.inbox == [] && c.quality.stepSilence == 0 && c.quality.datagramSilence == 0 && c.quality.reason.KeepConnection?
  }

  function Next(c: Client, m: Message): Datagram {
    Datagram(if c.orderedIn.None? then 0 else c.orderedIn.value + 1, Parsed(None), m)
  }

  /** An update that receives the one message `m`. */
  function Hearing(r: Realizer, m: Message): Event {
    UpdateEvent([Incoming(Next(r.client, m))], QUIET)
  }

  lemma HearingFeeds(r: Realizer, m: Message)
    requires r.client.inbox == [] && !r.client.state.Disconnected?
    ensures var fed := Feed(r.client, Next(r.client, m));
            fed.result >= 0 ==>
              ReceiveAll(Deliver(r, Hearing(r, m).arrivals).client) == Outcome(MarkUsable(fed.client), 1)
  {
    var c := Deliver(r, Hearing(r, m).arrivals).client;
    assert c.inbox == [Incoming(Next(r.client, m))];
    assert c.(inbox := c.inbox[1..]) == r.client;
    TakeNextPops(c);
  }

  lemma ConnectReached(r: Realizer)
    requires RunsClient(r) && Untouched(r.client) && r.client.state.RequestingConnect?
    requires r.target.RealizeSynced? && !r.state.RealizeSynced?
    ensures var r' := Step(r, Hearing(r, ConnectResponse(Parsed(ConnectReply(1, false))))).realizer;
            ShapeOf(r') == ShapeOf(r).(client := JoiningRequestingState)
  {
    HearingFeeds(r, ConnectResponse(Parsed(ConnectReply(1, false))));
  }

  function Offer(c: Client): Message {
    GameStateResponse(Parsed(StateReply(c.downloadRequestId, 0, c.joinStateChannel + 1)))
  }

  lemma DownloadReached(r: Realizer)
    requires RunsClient(r) && r.client.inbox == [] && r.target.RealizeSynced?
    ensures var r' := Step(r, Hearing(r, Offer(r.client))).realizer;
            && ShapeOf(r') == ShapeOf(r).(client := JoiningDownloadingState)
            && r'.client.inbox == [] && r'.client.quality.stepSilence == r.client.quality.stepSilence
            && r'.client.quality.reason == r.client.quality.reason && r'.client.quality.datagramSilence == 0
  {
    HearingFeeds(r, Offer(r.client));
  }

  lemma SyncReached(r: Realizer)
    requires RunsClient(r) && Untouched(r.client) && r.target.RealizeSynced? && !r.state.RealizeSynced?
    requires r.client.state.JoiningDownloadingState?
    ensures var m := GameStatePart(r.client.joinStateChannel, Parsed(BlobProgress(true, [])));
            var r' := Step(r, Hearing(r, m)).realizer;
            ShapeOf(r') == Shape(RealizeSynced, RealizeSynced, Synced) && r'.client.inbox == []
  {
    hide ReceiveAll;
    var m := GameStatePart(r.client.joinStateChannel, Parsed(BlobProgress(true, [])));
    HearingFeeds(r, m);
    var fed := Feed(r.client, Next(r.client, m));
    assert Verdict(Aged(MarkUsable(fed.client).quality)).KeepConnection?;
  }

  lemma Extend(r: Realizer, run: seq<Event>, e: Event) returns (longer: seq<Event>)
    ensures longer == run + [e] && After(r, longer) == Step(After(r, run), e).realizer
  {
    longer := run + [e];
    AfterExtends(r, run, e);
  }

  /** A run to a fresh start in which JoinGame has been called. */
  lemma ReachJoin(r: Realizer, again: bool) returns (run: seq<Event>)
    ensures var r' := After(r, run);
            && Untouched(r'.client)
            && ShapeOf(r') == Shape(RealizeSynced, if again then RealizeReInit else RealizeInit, Idle)
    ensures run == [if again then ReInitEvent([]) else InitEvent([]), JoinGameEvent]
  {
    run := Extend(r, [], if again then ReInitEvent([]) else InitEvent([]));
    run := Extend(r, run, JoinGameEvent);
  }

  lemma ReachSynced(r: Realizer) returns (run: seq<Event>)
    ensures var r' := After(r, run);
            r'.client.inbox == [] && ShapeOf(r') == Shape(RealizeSynced, RealizeSynced, Synced)
    ensures |run| > 1 && run[0].InitEvent? && run[1].JoinGameEvent?
  {
    run := ReachJoin(r, false);
    var joined := After(r, run);
    DownloadReached(joined);
    run := Extend(r, run, Hearing(joined, Offer(joined.client)));
    var loading := After(r, run);
    SyncReached(loading);
    var part := GameStatePart(loading.client.joinStateChannel, Parsed(BlobProgress(true, [])));
    run := Extend(r, run, Hearing(loading, part));
  }

  /** Shapes in which the client is still on its way, or has not begun. */
  lemma ReachJoining(r: Realizer, x: Shape) returns (run: seq<Event>)
    requires Coupled(x) && x.target.RealizeSynced? && !x.client.Disconnected?
    requires x.state.RealizeInit? || x.state.RealizeReInit?
    ensures ShapeOf(After(r, run)) == x
  {
    run := ReachJoin(r, x.state.RealizeReInit?);
    var joined := After(r, run);
    if x.client.JoiningDownloadingState? {
      DownloadReached(joined);
      run := Extend(r, run, Hearing(joined, Offer(joined.client)));
    } else if !x.client.Idle? {
      assert joined.client.inbox + [] == [];
      run := Extend(r, run, UpdateEvent([], QUIET));
      if x.client.JoiningRequestingState? {
        var requesting := After(r, run);
        ConnectReached(requesting);
        run := Extend(r, run, Hearing(requesting, ConnectResponse(Parsed(ConnectReply(1, false)))));
      }
    }
  }

  /** A run that ends with the given realizer state, whatever the rest. */
  lemma ReachState(r: Realizer, state: RealizeState) returns (run: seq<Event>)
    ensures After(r, run).state == state
    ensures state.RealizeInit? || state.RealizeReInit? ==> ShapeOf(After(r, run)) == Shape(RealizeInit, state, Idle)
  {
    hide Updated;
    match state {
      case RealizeInit => run := Extend(r, [], InitEvent([]));
      case RealizeReInit => run := Extend(r, [], ReInitEvent([]));
      case RealizeCleared => run := Extend(r, [], ResetEvent);
      case RealizeSynced => run := ReachSynced(r);
      case RealizeDisconnected =>
        run := Extend(r, [], QuitGameEvent);
        run := Extend(r, run, UpdateEvent([], QUIET));
    }
  }

  /** Shapes after a Reset that has not been followed by ReInit. */
  lemma ReachCleared(r: Realizer, x: Shape) returns (run: seq<Event>)
    requires Coupled(x) && x.state.RealizeCleared? && !x.client.Disconnected?
    ensures ShapeOf(After(r, run)) == x
  {
    run := Extend(r, [], InitEvent([]));
    if x.target.RealizeSynced? {
      run := Extend(r, run, JoinGameEvent);
    } else if x.target.RealizeCleared? {
      run := Extend(r, run, QuitGameEvent);
    }
    run := Extend(r, run, ResetEvent);
    if x.client.RequestingConnect? {
      run := Extend(r, run, UpdateEvent([], QUIET));
    }
  }

  lemma Reach(r: Realizer, x: Shape) returns (run: seq<Event>)
    requires Coupled(x)
    ensures ShapeOf(After(r, run)) == x
  {
    if x.client.Disconnected? {
      run := ReachState(r, x.state);
      run := Extend(r, run, QuitGameEvent);
      if x.target.RealizeSynced? {
        run := Extend(r, run, JoinGameEvent);
      }
    } else if x.state.RealizeCleared? {
      run := ReachCleared(r, x);
    } else if x.state.RealizeSynced? {
      run := ReachSynced(r);
      if x.client.JoiningDownloadingState? {
        var synced := After(r, run);
        DownloadReached(synced);
        run := Extend(r, run, Hearing(synced, Offer(synced.client)));
      }
    } else if x.target.RealizeSynced? {
      run := ReachJoining(r, x);
    } else {
      run := ReachState(r, x.state);
    }
  }

  /** The coupled shapes are exactly the reachable ones: the invariant cannot be strengthened. */
  lemma CouplingIsExact(memory: Realizer, transport: seq<Arrival>, x: Shape)
    ensures Coupled(x) <==> exists run :: ShapeOf(After(Init(memory, transport), run)) == x
  {
    var booted := Init(memory, transport);
    if Coupled(x) {
      var run := Reach(booted, x);
      assert ShapeOf(After(booted, run)) == x;
    }
    forall run | ShapeOf(After(booted, run)) == x
      ensures Coupled(x)
    {
      AlwaysCoupled(memory, transport, run);
    }
  }
}
