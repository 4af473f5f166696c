/** The channel and the state id a client holds, and when the repetition of a download response is no longer void. */
module HeldChannel {
  import opened Wrappers
  import opened ConnectionQuality
  import opened StepBuffers
  import opened ClientModel
  import opened RealizerModel
  import opened Handshake

  /** What the client holds of the last download response it has accepted. */
  datatype Held = Held(stateId: nat, channel: nat)

  function HeldBy(c: Client): Held {
    Held(c.joinStateId, c.joinStateChannel)
  }

  lemma DispatchHolds(c: Client, m: Message)
    ensures var held := HeldBy(Dispatch(c, m).client);
            if m.GameStateResponse? && m.reply.Parsed? && m.reply.value.requestId == c.downloadRequestId
               && m.reply.value.channel != c.joinStateChannel then
              held == Held(m.reply.value.stateId, m.reply.value.channel)
            else if m.JoinGameResponse? && m.join.Parsed? && c.phase.JoiningParticipant? then
              held == HeldBy(c).(channel := 0)
            else held == HeldBy(c)
  {
    hide CopyReady, DiscardUpTo, Insert, Seated;
  }

  /** What is held after the next arrival: an offer replaces it, a join response gives the channel up. */
  function HeldNext(held: Held, c: Client): Held
    requires c.inbox != []
  {
    match c.inbox[0]
    case TransportError(_) => held
    case Incoming(d) =>
      if OffersDownload(c, d) then Held(d.message.reply.value.stateId, d.message.reply.value.channel)
      else if TakesSeat(c, d) then held.(channel := 0)
      else held
  }

  lemma TakeNextHolds(c: Client)
    requires c.inbox != []
    ensures HeldBy(TakeNext(c).client) == HeldNext(HeldBy(c), c)
  {
    hide Dispatch, DroppedPackets;
    if c.inbox[0].Incoming? {
      var d := c.inbox[0].datagram;
      var c1 := RecordDrops(c.(inbox := c.inbox[1..], orderedIn := Some(d.id)), ForwardDistance(c.orderedIn, d.id) - 1);
      if d.pong.Parsed? {
        DispatchHolds(c1.(quality := LatencySampled(c1.quality, d.pong.value)), d.message);
      }
    }
  }

  /** What is held after the receive loop. */
  function HeldAfter(held: Held, c: Client): Held
    decreases |c.inbox|
  {
    if c.inbox == [] then held
    else
      TakeNextPops(c);
      if TakeNext(c).result < 0 then HeldNext(held, c) else HeldAfter(HeldNext(held, c), TakeNext(c).client)
  }

  lemma {:induction false} ReceiveHolds(c: Client)
    ensures HeldBy(ReceiveAll(c).client) == HeldAfter(HeldBy(c), c)
    ensures !LoopAcceptsOffer(c) ==>
              HeldAfter(HeldBy(c), c) == if LoopTakesSeat(c) then HeldBy(c).(channel := 0) else HeldBy(c)
    decreases |c.inbox|
  {
    hide TakeNext, OffersDownload, TakesSeat, HeldBy;
    if c.inbox != [] {
      TakeNextPops(c);
      TakeNextHolds(c);
      if TakeNext(c).result >= 0 {
        ReceiveHolds(TakeNext(c).client);
      }
    }
  }

  /** Sending touches nothing but the wait and the next datagram id. */
  lemma SendingTouches(c: Client, s: Surroundings)
    ensures var c' := HandleState(c, s).client; c' == c.(waitTime := c'.waitTime, orderedOut := c'.orderedOut)
  {
  }

  lemma UpdatedHolds(c: Client, s: Surroundings)
    ensures HeldBy(Updated(c, s).client) == HeldAfter(HeldBy(c), c)
  {
    hide ReceiveAll, HandleState, Rating, HeldAfter;
    ReceiveHolds(c);
    SendingTouches(JudgeQuality(ReceiveAll(c).client), s);
  }

  lemma StepHolds(r: Realizer, e: Event)
    ensures HeldBy(Step(r, e).realizer.client) ==
            if Listens(r, e) then HeldAfter(HeldBy(r.client), Deliver(r, e.arrivals).client) else HeldBy(r.client)
  {
    hide Updated, HeldAfter;
    if Listens(r, e) {
      UpdatedHolds(Deliver(r, e.arrivals).client, e.surroundings);
    }
  }

  /** Everything the run has accepted, in order, from what was held at its start: fresh starts leave it alone. */
  function HeldOf(r: Realizer, run: seq<Event>): Held {
    if run == [] then HeldBy(r.client)
    else
      var earlier, last := run[..|run| - 1], run[|run| - 1];
      if Listens(After(r, earlier), last) then
        HeldAfter(HeldOf(r, earlier), Deliver(After(r, earlier), last.arrivals).client)
      else HeldOf(r, earlier)
  }

  /**
   * Over every run a client holds the state id of the last download response accepted, and its channel unless a
   * join response has been accepted after it, and 0 then: no disconnect, reset or initialisation touches them.
   */
  lemma {:induction false} LastOfferIsHeld(r: Realizer, run: seq<Event>)
    ensures HeldBy(After(r, run).client) == HeldOf(r, run)
  {
    hide Step, HeldAfter, HeldBy;
    if run != [] {
      LastOfferIsHeld(r, run[..|run| - 1]);
      StepHolds(After(r, run[..|run| - 1]), run[|run| - 1]);
    }
  }

  /**
   * As long as no download response is accepted, a client holds the channel it has until it accepts a join
   * response, and channel 0 from then on; the state id it holds for good.
   */
  lemma {:induction false} ChannelIsHeld(r: Realizer, run: seq<Event>)
    requires !OfferTaken(r, run)
    ensures After(r, run).client.joinStateChannel == if SeatTaken(r, run) then 0 else r.client.joinStateChannel
    ensures After(r, run).client.joinStateId == r.client.joinStateId
  {
    hide Step, AcceptsOffer, AcceptsSeat;
    if run != [] {
      var earlier, last := run[..|run| - 1], run[|run| - 1];
      TakenBefore(r, run);
      ChannelIsHeld(r, earlier);
      StepWithoutOffer(After(r, earlier), last);
    }
  }

  lemma StepWithoutOffer(r: Realizer, e: Event)
    requires !AcceptsOffer(r, e)
    ensures HeldBy(Step(r, e).realizer.client) ==
            if AcceptsSeat(r, e) then HeldBy(r.client).(channel := 0) else HeldBy(r.client)
  {
    hide Step, LoopAcceptsOffer, LoopTakesSeat;
    StepHolds(r, e);
    if Listens(r, e) {
      ReceiveHolds(Deliver(r, e.arrivals).client);
    }
  }

  /** A response to the client's request that offers the given channel. */
  predicate Offers(c: Client, d: Datagram, channel: nat) {
    && Handled(c, d) && d.message.GameStateResponse? && d.message.reply.Parsed?
    && d.message.reply.value.requestId == c.downloadRequestId && d.message.reply.value.channel == channel
  }

  /**
   * A client that is offered again the channel it held ignores the offer if and only if no join response has
   * been accepted since, or the channel is 0; otherwise the download starts over, from whatever state.
   */
  lemma RepetitionRestartsDownload(r: Realizer, run: seq<Event>, d: Datagram)
    requires !OfferTaken(r, run) && Offers(After(r, run).client, d, r.client.joinStateChannel)
    ensures var c := After(r, run).client;
            var c' := Feed(c, d).client;
            if SeatTaken(r, run) && r.client.joinStateChannel != 0 then
              c'.state.JoiningDownloadingState? && c'.outSteps == RestartAt(d.message.reply.value.stateId)
            else c'.state == c.state && c'.outSteps == c.outSteps
  {
    hide After, SeatTaken, OfferTaken, DroppedPackets;
    ChannelIsHeld(r, run);
  }
}
