/** The handshake only moves forward, apart from downloads the server restarts while the client is in the game. */
module Handshake {
  import opened ConnectionQuality
  import opened ClientModel
  import opened RealizerModel
  import opened Coupling

  /** How far the client is from being in the game; a disconnected client is not on its way any more. */
  function Rank(state: ClientState): nat {
    match state
    case Idle => 5
    case RequestingConnect => 4
    case Connected => 3
    case JoiningRequestingState => 2
    case JoiningDownloadingState => 1
    case Synced => 0
    case Disconnected => 0
  }

  function Bit(b: bool): nat {
    if b then 1 else 0
  }

  /** The next arrival puts a synced client back into a download. */
  predicate Restarts(c: Client)
    requires c.inbox != []
  {
    c.state.Synced? && TakeNext(c).client.state.JoiningDownloadingState?
  }

  predicate Enters(c: Client)
    requires c.inbox != []
  {
    !c.state.Synced? && TakeNext(c).client.state.Synced?
  }

  /** Downloads restarted, and entries into Synced, while the receive loop runs. */
  function Restarted(c: Client): nat
    decreases |c.inbox|
  {
    if c.inbox == [] then 0
    else
      TakeNextPops(c);
      Bit(Restarts(c)) + if TakeNext(c).result < 0 then 0 else Restarted(TakeNext(c).client)
  }

  function Entered(c: Client): nat
    decreases |c.inbox|
  {
    if c.inbox == [] then 0
    else
      TakeNextPops(c);
      Bit(Enters(c)) + if TakeNext(c).result < 0 then 0 else Entered(TakeNext(c).client)
  }

  /** A client that is not downloading starts to exactly on a response to its request for a channel it does not hold. */
  lemma DownloadMeansNewChannel(c: Client, d: Datagram)
    requires !c.state.JoiningDownloadingState?
    ensures Feed(c, d).client.state.JoiningDownloadingState? <==> OffersDownload(c, d)
  {
  }

  lemma TakeNextMoves(c: Client)
    requires c.inbox != []
    ensures var to := TakeNext(c).client.state;
            && Receives(c.state, to) && (c.state.Synced? ==> to.Synced? || to.JoiningDownloadingState?)
            && (Rank(to) <= Rank(c.state) || Restarts(c))
  {
    if c.inbox[0].Incoming? {
      FeedMoves(c.(inbox := c.inbox[1..]), c.inbox[0].datagram);
    }
  }

  /** Entries into Synced and restarted downloads alternate. */
  lemma {:induction false} ReceiveBalances(c: Client)
    ensures var to := ReceiveAll(c).client.state;
            && Entered(c) + Bit(c.state.Synced?) == Restarted(c) + Bit(to.Synced?)
            && (Restarted(c) == 0 ==> Rank(to) <= Rank(c.state))
    decreases |c.inbox|
  {
    if c.inbox != [] {
      TakeNextPops(c);
      TakeNextMoves(c);
      if TakeNext(c).result >= 0 {
        ReceiveBalances(TakeNext(c).client);
      }
    }
  }

  /** The client that receives in this event, if one does. */
  predicate Listens(r: Realizer, e: Event) {
    e.UpdateEvent? && RunsClient(r)
  }

  function RestartedBy(r: Realizer, e: Event): nat {
    if Listens(r, e) then Restarted(Deliver(r, e.arrivals).client) else 0
  }

  function EnteredBy(r: Realizer, e: Event): nat {
    if Listens(r, e) then Entered(Deliver(r, e.arrivals).client) else 0
  }

  /** A connection that has just been made is used at once, to ask for the game state and then for a seat. */
  lemma NewConnectionAsksAtOnce(r: Realizer, e: Event)
    requires !r.client.state.JoiningRequestingState? && Step(r, e).realizer.client.state.JoiningRequestingState?
    ensures var c := Step(r, e).realizer.client; c.waitTime == 0 && c.phase.JoiningParticipant?
  {
    hide Updated;
    if Listens(r, e) {
      UpdatedMoves(Deliver(r, e.arrivals).client, e.surroundings);
    }
  }

  /** Whoever enters the game, or begins to request a connection, has nothing to wait for. */
  lemma NewStagesDoNotWait(r: Realizer, e: Event)
    ensures var r' := Step(r, e).realizer;
            && (!r.state.RealizeSynced? && r'.state.RealizeSynced? ==>
                  r'.client.state.Synced? && r'.client.waitTime == 0)
            && (r.client.state.Idle? && r'.client.state.RequestingConnect? ==> r'.client.waitTime == 0)
  {
    hide Updated;
    if Listens(r, e) {
      UpdatedMoves(Deliver(r, e.arrivals).client, e.surroundings);
    }
  }

  lemma UpdatedRank(c: Client, s: Surroundings)
    ensures Rank(Updated(c, s).client.state) <= Rank(c.state) || Restarted(c) > 0
  {
    hide ReceiveAll, HandleState, Restarted, Rating;
    ReceiveBalances(c);
    SendingStays(JudgeQuality(ReceiveAll(c).client), s);
  }

  /** Nothing but a fresh start, or a download the server restarts, takes the client further from the game. */
  lemma RankFalls(r: Realizer, e: Event)
    requires !StartsOver(e)
    ensures Rank(Step(r, e).realizer.client.state) <= Rank(r.client.state) || RestartedBy(r, e) > 0
  {
    hide Updated, Restarted;
    if Listens(r, e) {
      UpdatedRank(Deliver(r, e.arrivals).client, e.surroundings);
    }
  }

  /** The receive loop accepts a download response. */
  predicate LoopAcceptsOffer(c: Client)
    decreases |c.inbox|
  {
    c.inbox != [] &&
    (TakeNextPops(c);
     (c.inbox[0].Incoming? && OffersDownload(c, c.inbox[0].datagram))
     || (TakeNext(c).result >= 0 && LoopAcceptsOffer(TakeNext(c).client)))
  }

  /** The receive loop accepts a join response. */
  predicate LoopTakesSeat(c: Client)
    decreases |c.inbox|
  {
    c.inbox != [] &&
    (TakeNextPops(c);
     (c.inbox[0].Incoming? && TakesSeat(c, c.inbox[0].datagram))
     || (TakeNext(c).result >= 0 && LoopTakesSeat(TakeNext(c).client)))
  }

  predicate AcceptsOffer(r: Realizer, e: Event) {
    Listens(r, e) && LoopAcceptsOffer(Deliver(r, e.arrivals).client)
  }

  predicate AcceptsSeat(r: Realizer, e: Event) {
    Listens(r, e) && LoopTakesSeat(Deliver(r, e.arrivals).client)
  }

  // ---------------------------------------------------------------- over whole runs

  /** Some update of the run accepts a download response. */
  predicate OfferTaken(r: Realizer, run: seq<Event>) {
    exists i :: 0 <= i < |run| && AcceptsOffer(After(r, run[..i]), run[i])
  }

  /** Some update of the run accepts a join response. */
  predicate SeatTaken(r: Realizer, run: seq<Event>) {
    exists i :: 0 <= i < |run| && AcceptsSeat(After(r, run[..i]), run[i])
  }

  /** What a run takes is what it takes before its last event, or in it. */
  lemma TakenBefore(r: Realizer, run: seq<Event>)
    requires run != []
    ensures var earlier, last := run[..|run| - 1], run[|run| - 1];
            && (OfferTaken(r, run) <==> OfferTaken(r, earlier) || AcceptsOffer(After(r, earlier), last))
            && (SeatTaken(r, run) <==> SeatTaken(r, earlier) || AcceptsSeat(After(r, earlier), last))
  {
    hide After, AcceptsOffer, AcceptsSeat;
    var n := |run| - 1;
    var earlier := run[..n];
    forall i | 0 <= i < n
      ensures run[..i] == earlier[..i] && run[i] == earlier[i]
    {
    }
    assert run[..n] == earlier;
    if AcceptsOffer(After(r, earlier), run[n]) {
      assert OfferTaken(r, run);
    }
    if AcceptsSeat(After(r, earlier), run[n]) {
      assert SeatTaken(r, run);
    }
  }

  function EntriesOf(r: Realizer, run: seq<Event>): nat {
    if run == [] then 0
    else
      var earlier, last := run[..|run| - 1], run[|run| - 1];
      if StartsOver(last) then 0 else EntriesOf(r, earlier) + EnteredBy(After(r, earlier), last)
  }

  function RestartsOf(r: Realizer, run: seq<Event>): nat {
    if run == [] then 0
    else
      var earlier, last := run[..|run| - 1], run[|run| - 1];
      if StartsOver(last) then 0 else RestartsOf(r, earlier) + RestartedBy(After(r, earlier), last)
  }

  lemma UpdatedBalances(c: Client, s: Surroundings)
    ensures var to := Updated(c, s).client.state;
            if to.Disconnected? then Restarted(c) <= Entered(c) + Bit(c.state.Synced?) <= Restarted(c) + 1
            else Entered(c) + Bit(c.state.Synced?) == Restarted(c) + Bit(to.Synced?)
  {
    hide ReceiveAll, HandleState, Entered, Restarted, Rating;
    ReceiveBalances(c);
    SendingStays(JudgeQuality(ReceiveAll(c).client), s);
  }

  lemma StepBalances(r: Realizer, e: Event)
    requires Coupled(ShapeOf(r)) && !StartsOver(e)
    ensures var to := Step(r, e).realizer.client.state;
            if to.Disconnected? then
              RestartedBy(r, e) <= EnteredBy(r, e) + Bit(r.client.state.Synced?) <= RestartedBy(r, e) + 1
            else EnteredBy(r, e) + Bit(r.client.state.Synced?) == RestartedBy(r, e) + Bit(to.Synced?)
    ensures r.client.state.Disconnected? ==>
              EnteredBy(r, e) == RestartedBy(r, e) == 0 && Step(r, e).realizer.client.state.Disconnected?
  {
    hide Updated, Entered, Restarted;
    if Listens(r, e) {
      UpdatedBalances(Deliver(r, e.arrivals).client, e.surroundings);
    }
  }

  /** Between fresh starts the client enters the game once, and once more for every restarted download. */
  lemma {:induction false} EntriesAreAccountedFor(memory: Realizer, transport: seq<Arrival>, run: seq<Event>)
    ensures var r := Init(memory, transport);
            var state := After(r, run).client.state;
            && RestartsOf(r, run) <= EntriesOf(r, run) <= RestartsOf(r, run) + 1
            && (!state.Disconnected? ==> EntriesOf(r, run) == RestartsOf(r, run) + Bit(state.Synced?))
  {
    hide Update, EnteredBy, RestartedBy;
    if run != [] {
      var r := Init(memory, transport);
      var earlier, last := run[..|run| - 1], run[|run| - 1];
      EntriesAreAccountedFor(memory, transport, earlier);
      AlwaysCoupled(memory, transport, earlier);
      if !StartsOver(last) {
        StepBalances(After(r, earlier), last);
      }
    }
  }
}
