/** Two runs in which the download response a client holds on to is not the one it should go by. */
module OfferRuns {
  import opened Wrappers
  import opened ConnectionQuality
  import opened StepBuffers
  import opened ClientModel
  import opened RealizerModel
  import opened Coupling
  import opened Handshake
  import opened Detector
  import opened HeldChannel
  import opened SessionOrigin

  // ---------------------------------------------------------------- telling a client one message at a time

  /** A running realizer whose queue is empty and whose client has been in contact `n` updates ago at most. */
  predicate InContact(r: Realizer, n: nat) {
    && Coupled(ShapeOf(r)) && RunsClient(r) && r.client.inbox == []
    && r.client.quality.reason.KeepConnection? && r.client.quality.stepSilence <= n
  }

  /** What the client makes of a message in its next datagram. */
  function Told(c: Client, m: Message): Outcome {
    Dispatch(c.(orderedIn := Some(Next(c, m).id), quality := LatencySampled(c.quality, None)), m)
  }

  lemma FeedIsTold(c: Client, m: Message)
    requires !c.state.Disconnected?
    ensures Feed(c, Next(c, m)) == Told(c, m)
  {
    hide Dispatch;
  }

  /** A client as the application and the next message see it. */
  predicate SameForNext(c: Client, c': Client) {
    && c'.phase == c.phase && c'.downloadRequestId == c.downloadRequestId && HeldBy(c') == HeldBy(c)
    && c'.authoritative == c.authoritative && c'.state == c.state
  }

  lemma HeardAndJudged(c: Client, told: Outcome, s: Surroundings, n: nat)
    requires ReceiveAll(c) == Outcome(MarkUsable(told.client), 1)
    requires told.client.quality.reason.KeepConnection? && told.client.quality.stepSilence <= n < 15
    requires told.client.inbox == []
    ensures var c' := Updated(c, s).client;
            && SameForNext(told.client, c') && c'.inbox == []
            && c'.quality.reason.KeepConnection? && c'.quality.stepSilence <= n + 1
  {
    hide ReceiveAll, HandleState, Rating;
    assert Verdict(Aged(MarkUsable(told.client).quality)).KeepConnection?;
    SendingTouches(JudgeQuality(MarkUsable(told.client)), s);
  }

  lemma ToldStaysCalm(c: Client, m: Message)
    ensures var q := Told(c, m).client.quality;
            q.reason == c.quality.reason && q.stepSilence <= c.quality.stepSilence
    ensures Told(c, m).client.inbox == c.inbox
  {
    hide Dispatch;
    var c1 := c.(orderedIn := Some(Next(c, m).id), quality := LatencySampled(c.quality, None));
    DispatchKeepsJudgement(c1, m);
    DispatchKeepsInbox(c1, m);
  }

  lemma DispatchKeepsInbox(c: Client, m: Message)
    ensures Dispatch(c, m).client.inbox == c.inbox
  {
    hide CopyReady, DiscardUpTo, Insert, Seated;
  }

  lemma PromoteKeeps(r: Realizer)
    requires r.client.state.JoiningDownloadingState? || r.client.state.Synced?
    ensures var r' := Promote(r);
            && r'.target == r.target
            && r'.client == r.client.(waitTime := r'.client.waitTime)
            && (r'.state == r.state || r'.state.RealizeSynced? || r'.state.RealizeCleared?)
  {
  }

  /** A message, told to a client in contact, has its effect and nothing else comes of the update. */
  lemma Tells(r: Realizer, m: Message, n: nat) returns (e: Event)
    requires InContact(r, n) && n < 15
    requires var told := Told(r.client, m);
             told.result >= 0 && (told.client.state.JoiningDownloadingState? || told.client.state.Synced?)
    ensures e == Hearing(r, m)
    ensures var r' := Step(r, e).realizer;
            InContact(r', n + 1) && SameForNext(Told(r.client, m).client, r'.client) && r'.target == r.target
  {
    hide Updated, Told, ReceiveAll, Promote;
    e := Hearing(r, m);
    FeedIsTold(r.client, m);
    ToldStaysCalm(r.client, m);
    HearingFeeds(r, m);
    var c := Deliver(r, e.arrivals).client;
    HeardAndJudged(c, Told(r.client, m), e.surroundings, n);
    PromoteKeeps(Deliver(r, e.arrivals).(client := Updated(c, e.surroundings).client));
    StepKeepsCoupled(r, e);
  }

  // ---------------------------------------------------------------- the messages of a session

  function OfferMessage(offer: StateReply): Message {
    GameStateResponse(Parsed(offer))
  }

  function BlobMessage(channel: nat, octets: Octets): Message {
    GameStatePart(channel, Parsed(BlobProgress(true, octets)))
  }

  /** An update that brings the message `m` and nothing else. */
  predicate Brings(e: Event, m: Message) {
    e.UpdateEvent? && |e.arrivals| == 1 && e.arrivals[0].Incoming? && e.arrivals[0].datagram.message == m
  }

  lemma OfferTold(r: Realizer, offer: StateReply, n: nat) returns (e: Event)
    requires InContact(r, n) && n < 15
    requires offer.requestId == r.client.downloadRequestId && offer.channel != r.client.joinStateChannel
    ensures Brings(e, OfferMessage(offer))
    ensures var r' := Step(r, e).realizer;
            && InContact(r', n + 1) && r'.client.state.JoiningDownloadingState?
            && HeldBy(r'.client) == Held(offer.stateId, offer.channel) && r'.client.phase == r.client.phase
            && r'.client.downloadRequestId == r.client.downloadRequestId
  {
    hide Step, InContact;
    e := Tells(r, OfferMessage(offer), n);
  }

  lemma BlobTold(r: Realizer, octets: Octets, n: nat) returns (e: Event)
    requires InContact(r, n) && n < 15 && !r.client.state.Synced?
    ensures e == Hearing(r, BlobMessage(r.client.joinStateChannel, octets))
    ensures Brings(e, BlobMessage(r.client.joinStateChannel, octets))
    ensures var r' := Step(r, e).realizer;
            && InContact(r', n + 1) && r'.client.state.Synced?
            && r'.client.authoritative == RestartAt(r.client.joinStateId)
            && HeldBy(r'.client) == HeldBy(r.client) && r'.client.phase == r.client.phase
            && r'.client.downloadRequestId == r.client.downloadRequestId
  {
    hide Step, InContact;
    e := Tells(r, BlobMessage(r.client.joinStateChannel, octets), n);
  }

  lemma SeatTold(r: Realizer, participants: Participants, n: nat) returns (e: Event)
    requires InContact(r, n) && n < 15 && r.client.state.Synced? && r.client.phase.JoiningParticipant?
    ensures Brings(e, JoinGameResponse(Parsed(participants)))
    ensures var r' := Step(r, e).realizer;
            && InContact(r', n + 1) && r'.client.state.Synced? && r'.client.phase.JoinedParticipant?
            && r'.client.joinStateChannel == 0 && r'.client.downloadRequestId == r.client.downloadRequestId
  {
    hide Step, InContact, Seated;
    e := Tells(r, JoinGameResponse(Parsed(participants)), n);
  }

  /** After an initialisation and JoinGame the client is idle, with what it held before. */
  lemma JoiningAfresh(r: Realizer, again: bool)
    ensures var joined := JoinGame(if again then ReInit(r, []) else Init(r, []));
            && InContact(joined, 0) && joined.client.state.Idle? && joined.client.phase.JoiningParticipant?
            && joined.client.downloadRequestId == 1 && HeldBy(joined.client) == HeldBy(r.client)
  {
  }

  // ---------------------------------------------------------------- the runs

  /**
   * An offer, its blob, the join response and the same offer once more: the last, in a datagram of its own, takes
   * a client that has joined out of the game.
   */
  lemma RepeatedOfferThrowsBack(memory: Realizer, offer: StateReply, octets: Octets, participants: Participants)
    returns (run: seq<Event>)
    requires offer.requestId == 1 && offer.channel != memory.client.joinStateChannel && offer.channel != 0
    ensures |run| == 5 && run[0].JoinGameEvent? && Brings(run[1], OfferMessage(offer))
            && Brings(run[2], BlobMessage(offer.channel, octets))
            && Brings(run[3], JoinGameResponse(Parsed(participants))) && Brings(run[4], OfferMessage(offer))
    ensures var r := Init(memory, []);
            var joined := After(r, run[..4]);
            && joined.client.state.Synced? && joined.client.phase.JoinedParticipant?
            && After(r, run).client.state.JoiningDownloadingState?
  {
    hide Step, InContact, Brings;
    var r := Init(memory, []);
    JoiningAfresh(memory, false);
    run := Extend(r, [], JoinGameEvent);
    JoinGameIsStep(r);
    var e := OfferTold(After(r, run), offer, 0);
    run := Extend(r, run, e);
    e := BlobTold(After(r, run), octets, 1);
    run := Extend(r, run, e);
    e := SeatTold(After(r, run), participants, 2);
    run := Extend(r, run, e);
    ghost var joined := run;
    e := OfferTold(After(r, run), offer, 3);
    run := Extend(r, run, e);
    assert run[..4] == joined;
  }

  lemma JoinGameIsStep(r: Realizer)
    ensures After(r, []) == r && Step(r, JoinGameEvent).realizer == JoinGame(r)
  {
  }

  lemma ReInitIsStep(r: Realizer)
    ensures Step(r, ReInitEvent([])).realizer == ReInit(r, [])
  {
  }

  /**
   * A session is broken off while it downloads, and started over; the blob of the old session then completes, and
   * the client is in the game of the old offer without having accepted one in its own session.
   */
  lemma OldBlobEntersOldGame(memory: Realizer, offer: StateReply, octets: Octets) returns (run: seq<Event>)
    requires offer.requestId == 1 && offer.channel != memory.client.joinStateChannel
    ensures |run| == 5 && run[0].JoinGameEvent? && Brings(run[1], OfferMessage(offer))
            && run[2] == ReInitEvent([]) && run[3].JoinGameEvent? && Brings(run[4], BlobMessage(offer.channel, octets))
    ensures var r := Init(memory, []);
            var playing := After(r, run);
            && ShapeOf(playing) == Shape(RealizeSynced, RealizeSynced, Synced)
            && playing.client.authoritative == RestartAt(offer.stateId) && !OfferSinceStart(r, run)
  {
    hide Step, InContact, Brings, OfferSinceStart, AcceptsOffer;
    var r := Init(memory, []);
    JoiningAfresh(memory, false);
    run := Extend(r, [], JoinGameEvent);
    JoinGameIsStep(r);
    var e := OfferTold(After(r, run), offer, 0);
    run := Extend(r, run, e);
    JoiningAfresh(After(r, run), true);
    ReInitIsStep(After(r, run));
    run := Extend(r, run, ReInitEvent([]));
    JoinGameIsStep(After(r, run));
    OfferSinceStartBefore(r, run);
    run := Extend(r, run, JoinGameEvent);
    OfferSinceStartBefore(r, run);
    JoiningIsNoOffer(After(r, run[..3]));
    ghost var before := run;
    e := BlobTold(After(r, run), octets, 0);
    BlobIsNoOffer(After(r, run), octets);
    run := Extend(r, run, e);
    assert run[..4] == before;
    OfferSinceStartBefore(r, run);
    InTheGameByContact(After(r, run), 1);
  }

  lemma JoiningIsNoOffer(r: Realizer)
    ensures !AcceptsOffer(r, JoinGameEvent)
  {
  }

  lemma BlobIsNoOffer(r: Realizer, octets: Octets)
    requires r.client.inbox == []
    ensures !AcceptsOffer(r, Hearing(r, BlobMessage(r.client.joinStateChannel, octets)))
  {
    hide TakeNext;
    var e := Hearing(r, BlobMessage(r.client.joinStateChannel, octets));
    var c := Deliver(r, e.arrivals).client;
    assert c.inbox == e.arrivals;
    TakeNextPops(c);
    assert !LoopAcceptsOffer(TakeNext(c).client);
  }

  lemma InTheGameByContact(r: Realizer, n: nat)
    requires InContact(r, n) && r.client.state.Synced?
    ensures ShapeOf(r) == Shape(RealizeSynced, RealizeSynced, Synced)
  {
  }
}
