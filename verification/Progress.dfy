/** With a server that answers, joining takes a bounded number of updates. */
module Progress {
  import opened Wrappers
  import opened ConnectionQuality
  import opened StepBuffers
  import opened ClientModel
  import opened RealizerModel
  import opened Coupling
  import opened Detector
  import opened GivingUp
  import opened Handshake
  import opened OngoingRuns
  import opened ReceiveLoop

  // ---------------------------------------------------------------- what an arrival does to the handshake

  lemma DispatchMoves(c: Client, m: Message)
    ensures var c' := Dispatch(c, m).client;
            var asked := m.GameStateResponse? && m.reply.Parsed? && m.reply.value.requestId == c.downloadRequestId;
            if asked && m.reply.value.channel != c.joinStateChannel then
              c'.state.JoiningDownloadingState? && c'.waitTime == 0
            else
              && c'.state ==
                 (if m.GameStatePart? && m.channel == c.joinStateChannel && m.progress.Parsed?
                     && m.progress.value.complete then Synced
                  else if m.ConnectResponse? && m.connect.Parsed? && c.state.RequestingConnect? then Connected
                  else c.state)
              && (c'.waitTime == c.waitTime
                  || (c'.waitTime == 0 && m.JoinGameResponse? && m.join.Parsed? && c.phase.JoiningParticipant?))
  {
    hide CopyReady, DiscardUpTo, Insert, Seated;
  }

  lemma ArrivalMoves(c: Client)
    requires c.inbox != [] && c.inbox[0].Incoming?
    ensures var c', d := TakeNext(c).client, c.inbox[0].datagram;
            if OffersDownload(c, d) then c'.state.JoiningDownloadingState? && c'.waitTime == 0
            else
              && c'.state == (if CompletesDownload(c, d) then Synced
                              else if AcceptsConnection(c, d) then Connected else c.state)
              && (c'.waitTime == c.waitTime || (c'.waitTime == 0 && TakesSeat(c, d)))
  {
    hide Dispatch, DroppedPackets;
    var d := c.inbox[0].datagram;
    var c1 := RecordDrops(c.(inbox := c.inbox[1..], orderedIn := Some(d.id)), ForwardDistance(c.orderedIn, d.id) - 1);
    if d.pong.Parsed? {
      DispatchMoves(c1.(quality := LatencySampled(c1.quality, d.pong.value)), d.message);
    }
  }

  /** No silence, and no reason to disconnect. */
  predicate Calm(q: Quality) {
    q.stepSilence == 0 && q.datagramSilence == 0 && q.reason.KeepConnection?
  }

  lemma StaysCalm(c: Client)
    requires c.inbox != [] && Calm(c.quality)
    ensures Calm(TakeNext(c).client.quality)
  {
    hide Feed;
    if c.inbox[0].Incoming? {
      FeedKeepsJudgement(c.(inbox := c.inbox[1..]), c.inbox[0].datagram);
    }
  }

  // ---------------------------------------------------------------- the server's side

  /**
   * What the server has delivered: parts of the game state still to come, the octets of the parts so far, and
   * whether the request of the current stage has been answered.
   */
  datatype Ledger = Ledger(left: nat, got: Octets, answered: bool)

  /** A chunk that adds to the blob without completing it. */
  predicate IsNewPart(l: Ledger, c: Client, d: Datagram) {
    && Handled(c, d) && c.state.JoiningDownloadingState?
    && d.message.GameStatePart? && d.message.channel == c.joinStateChannel && d.message.progress.Parsed?
    && !d.message.progress.value.complete && d.message.progress.value.octets != l.got
  }

  /**
   * What a working server may send when the client is in this state: anything, repetitions included. Only a
   * download under way must not be replaced by another, must not lose its channel to a join response, and must
   * complete with its last part; and a client in the game must not be sent back.
   */
  predicate Welcome(l: Ledger, c: Client, d: Datagram) {
    && (c.state.JoiningDownloadingState? ==> !TakesSeat(c, d))
    && (c.state.JoiningDownloadingState? || c.state.Synced? ==> !OffersDownload(c, d))
    && (IsNewPart(l, c, d) ==> l.left > 1)
  }

  /** The ledger after a datagram: what answers the request of the stage, and what it delivers. */
  function Noted(l: Ledger, parts: nat, c: Client, d: Datagram): Ledger {
    if OffersDownload(c, d) then Ledger(parts, [], true)
    else if IsNewPart(l, c, d) && l.left > 0 then Ledger(l.left - 1, d.message.progress.value.octets, true)
    else if CompletesDownload(c, d) || AcceptsConnection(c, d) then l.(answered := true)
    else l
  }

  /** The loop takes the next arrival and goes on. */
  predicate GoesOn(c: Client) {
    c.inbox != [] && c.inbox[0].Incoming? && !Spoils(c, c.inbox[0])
  }

  /** Every datagram is welcome when its turn comes; an arrival that spoils the receive phase ends it. */
  predicate AllWelcome(l: Ledger, parts: nat, c: Client)
    decreases |c.inbox|
  {
    GoesOn(c) ==>
      (TakeNextPops(c);
       && Welcome(l, c, c.inbox[0].datagram)
       && AllWelcome(Noted(l, parts, c, c.inbox[0].datagram), parts, TakeNext(c).client))
  }

  function NotedAll(l: Ledger, parts: nat, c: Client): Ledger
    decreases |c.inbox|
  {
    if !GoesOn(c) then l
    else
      TakeNextPops(c);
      NotedAll(Noted(l, parts, c, c.inbox[0].datagram), parts, TakeNext(c).client)
  }

  /** Stages still to go, each part of the game state being one. */
  function Stage(state: ClientState, left: nat, parts: nat): nat {
    match state
    case Idle => parts + 3
    case RequestingConnect => parts + 2
    case Connected => parts + 1
    case JoiningRequestingState => parts + 1
    case JoiningDownloadingState => left
    case _ => 0
  }

  /** A handshake within the receive loop. */
  predicate Sound(l: Ledger, parts: nat, c: Client) {
    && Calm(c.quality) && !c.state.Disconnected?
    && (c.state.JoiningDownloadingState? ==> c.waitTime == 0 && 0 < l.left <= parts)
  }

  /** From one point of the handshake to a later one. */
  predicate Forward(l: Ledger, c: Client, l': Ledger, c': Client, parts: nat) {
    && (l.answered ==> l'.answered)
    && Stage(c'.state, l'.left, parts) <= Stage(c.state, l.left, parts)
    && (l'.answered && !l.answered ==> Stage(c'.state, l'.left, parts) < Stage(c.state, l.left, parts))
    && (!l'.answered ==> c'.state == c.state && l' == l && (c'.waitTime == c.waitTime || c'.waitTime == 0))
    && (c'.state.JoiningRequestingState? ==> c.state.JoiningRequestingState? && (l'.answered ==> l.answered))
    && (c'.state.RequestingConnect? ==> c.state.RequestingConnect? && (l'.answered ==> l.answered))
    && (c'.state.Idle? ==> c.state.Idle? && (l'.answered ==> l.answered))
  }

  lemma WelcomeRound(l: Ledger, parts: nat, c: Client)
    requires 0 < parts && Sound(l, parts, c) && GoesOn(c) && Welcome(l, c, c.inbox[0].datagram)
    ensures var l', c' := Noted(l, parts, c, c.inbox[0].datagram), TakeNext(c).client;
            TakeNext(c).result >= 0 && Sound(l', parts, c') && Forward(l, c, l', c', parts)
  {
    hide TakeNext, Calm, Spoils;
    RoundFails(c);
    ArrivalMoves(c);
    StaysCalm(c);
  }

  /** What spoils the receive phase leaves the handshake where it is. */
  lemma SpoiledRound(l: Ledger, parts: nat, c: Client)
    requires Sound(l, parts, c) && c.inbox != [] && !GoesOn(c)
    ensures TakeNext(c).result < 0 && Sound(l, parts, TakeNext(c).client) && Forward(l, c, l, TakeNext(c).client, parts)
  {
    hide TakeNext, Calm;
    RoundFails(c);
    StaysCalm(c);
    if c.inbox[0].Incoming? {
      ArrivalMoves(c);
    } else {
      ErrorMoves(c);
    }
  }

  lemma ErrorMoves(c: Client)
    requires c.inbox != [] && c.inbox[0].TransportError?
    ensures TakeNext(c).client == c.(inbox := c.inbox[1..])
  {
  }

  lemma ForwardTwice(l: Ledger, c: Client, l1: Ledger, c1: Client, l2: Ledger, c2: Client, parts: nat)
    requires Forward(l, c, l1, c1, parts) && Forward(l1, c1, l2, c2, parts)
    ensures Forward(l, c, l2, c2, parts)
  {
  }

  /** A receive phase in which everything taken is welcome takes the handshake forward, spoiled or not. */
  lemma {:induction false} WelcomeLoop(l: Ledger, parts: nat, c: Client)
    requires 0 < parts && Sound(l, parts, c) && AllWelcome(l, parts, c)
    ensures var l', heard := NotedAll(l, parts, c), ReceiveAll(c).client;
            Sound(l', parts, heard) && Forward(l, c, l', heard, parts)
    decreases |c.inbox|
  {
    hide TakeNext, Welcome, Noted, Sound, Spoils;
    if c.inbox == [] {
      Unmoved(l, c, parts);
    } else if !GoesOn(c) {
      hide Forward;
      SpoiledRound(l, parts, c);
    } else {
      hide Forward;
      TakeNextPops(c);
      WelcomeRound(l, parts, c);
      var l1, c1 := Noted(l, parts, c, c.inbox[0].datagram), TakeNext(c).client;
      WelcomeLoop(l1, parts, c1);
      ForwardTwice(l, c, l1, c1, NotedAll(l1, parts, c1), ReceiveAll(c1).client, parts);
    }
  }

  lemma Unmoved(l: Ledger, c: Client, parts: nat)
    ensures Forward(l, c, l, c, parts) && (c.inbox == [] ==> !GoesOn(c))
  {
  }

  // ---------------------------------------------------------------- one served update

  /**
   * A handshake under way: the realizer, the parts of the game state still to come and the octets so far, and
   * how many updates with a successful receive phase ago the request of the current stage was handed to the
   * transport (None: not yet).
   */
  datatype Session = Session(realizer: Realizer, left: nat, got: Octets, waiting: Option<nat>)

  function Listener(s: Session, e: Event): Client
    requires e.UpdateEvent?
  {
    Deliver(s.realizer, e.arrivals).client
  }

  /** The ledger at the end of the update's receive phase. */
  function LedgerOf(s: Session, parts: nat, e: Event): Ledger
    requires e.UpdateEvent?
  {
    NotedAll(Ledger(s.left, s.got, false), parts, Listener(s, e))
  }

  /** The receive phase of the update succeeds. */
  predicate Heard(r: Realizer, e: Event) {
    e.UpdateEvent? && !Spoiled(Deliver(r, e.arrivals).client)
  }

  /**
   * Everything taken is welcome, and a request that has waited for the limit is answered, unless something spoils
   * this receive phase.
   */
  predicate Served(s: Session, parts: nat, limit: nat, e: Event) {
    e.UpdateEvent? ==>
      && e.surroundings.octets > HEADER_OCTETS && e.surroundings.blobWritten >= 0
      && AllWelcome(Ledger(s.left, s.got, false), parts, Listener(s, e))
      && (Heard(s.realizer, e) && s.waiting.Some? && s.waiting.value + 1 >= limit ==> LedgerOf(s, parts, e).answered)
  }

  /** The request of the stage the client is in has just been handed over. */
  predicate Asked(c: Client, rounds: seq<Round>) {
    && |rounds| == 1 && rounds[0].handed
    && match c.state
       case RequestingConnect => rounds[0].content.ConnectRequest?
       case JoiningRequestingState => rounds[0].content.DownloadStateRequest?
       case JoiningDownloadingState => rounds[0].content.BlobStreamAck?
       case _ => false
  }

  function Advance(s: Session, parts: nat, e: Event): Session {
    var step := Step(s.realizer, e);
    if !e.UpdateEvent? then s.(realizer := step.realizer)
    else
      var l := LedgerOf(s, parts, e);
      Session(step.realizer, l.left, l.got,
              if !l.answered && !Heard(s.realizer, e) then s.waiting
              else if !l.answered && s.waiting.Some? then Some(s.waiting.value + 1)
              else if Asked(step.realizer.client, step.rounds) then Some(0)
              else None)
  }

  /** Heard updates used by the request of the current stage. */
  function Used(waiting: Option<nat>): nat {
    if waiting.None? then 0 else waiting.value + 1
  }

  /** Heard updates that can still pass: stages left, times the longest stage, less what the current stage has used. */
  function Remaining(s: Session, parts: nat, limit: nat): int {
    match s.realizer.client.state
    case Idle => (parts + 2) * (limit + 1) + 1
    case state => Stage(state, s.left, parts) * (limit + 1) - Used(s.waiting)
  }

  predicate UnderWay(s: Session, parts: nat, limit: nat) {
    var r := s.realizer;
    var c := r.client;
    && r.target.RealizeSynced? && (r.state.RealizeInit? || r.state.RealizeReInit?)
    && Sound(Ledger(s.left, s.got, false), parts, c)
    && (s.waiting.Some? ==> s.waiting.value < limit)
    && match c.state
       case Idle => s.waiting.None?
       case RequestingConnect => c.waitTime >= 0 && (s.waiting.None? ==> c.waitTime == 0)
       case JoiningRequestingState => c.waitTime >= 0 && (s.waiting.None? ==> c.waitTime == 0)
       case JoiningDownloadingState => true
       case _ => false
  }

  predicate InTheGame(r: Realizer) {
    r.state.RealizeSynced? && r.client.state.Synced?
  }

  /** What an update does after a calm receive phase. */
  lemma AfterReceiving(c: Client, s: Surroundings)
    requires ReceiveAll(c).result >= 0 && Calm(ReceiveAll(c).client.quality)
    requires s.octets > HEADER_OCTETS && s.blobWritten >= 0
    ensures var heard, sent := ReceiveAll(c).client, Updated(c, s);
            && sent.client.state == heard.state
            && (!heard.state.Synced? ==> Calm(sent.client.quality))
            && (heard.state.Idle? || heard.state.Connected? ==> sent.rounds == [])
            && (heard.state.RequestingConnect? || heard.state.JoiningRequestingState? ==>
                  if heard.waitTime > 0 then sent.client.waitTime == heard.waitTime - 1 && sent.rounds == []
                  else sent.client.waitTime == RESEND_WAIT && Asked(sent.client, sent.rounds))
            && (heard.state.JoiningDownloadingState? && heard.waitTime == 0 ==>
                  sent.client.waitTime == 0 && Asked(sent.client, sent.rounds))
  {
    hide ReceiveAll, Rating, HandleState, Asked;
    var judged := JudgeQuality(ReceiveAll(c).client);
    assert Verdict(Aged(ReceiveAll(c).client.quality)).KeepConnection?;
    SendingStays(judged, s);
    SendingKeepsQuality(judged, s);
    SendingAsks(judged, s);
  }

  lemma SendingAsks(c: Client, s: Surroundings)
    requires s.octets > HEADER_OCTETS && s.blobWritten >= 0
    ensures var sent := HandleState(c, s);
            && (c.state.Idle? || c.state.Connected? ==> sent.rounds == [])
            && (c.state.RequestingConnect? || c.state.JoiningRequestingState? ==>
                  sent.client.waitTime == RESEND_WAIT && Asked(sent.client, sent.rounds))
            && (c.state.JoiningDownloadingState? ==> sent.client.waitTime == 0 && Asked(sent.client, sent.rounds))
  {
  }

  lemma StepIsUpdated(r: Realizer, e: Event)
    requires RunsClient(r) && e.UpdateEvent?
    ensures var sent := Updated(Deliver(r, e.arrivals).client, e.surroundings);
            Step(r, e) == Advanced(Promote(r.(client := sent.client)), sent.rounds)
  {
    hide Updated;
  }

  /** A served update with a successful receive phase, by the state in which that phase ends. */
  lemma HeardUpdate(s: Session, parts: nat, limit: nat, e: Event)
    requires UnderWay(s, parts, limit) && Served(s, parts, limit, e) && 0 < limit && 0 < parts && Heard(s.realizer, e)
    ensures var s', l, heard := Advance(s, parts, e), LedgerOf(s, parts, e), ReceiveAll(Listener(s, e)).client;
            if heard.state.Synced? then InTheGame(s'.realizer)
            else
              && UnderWay(s', parts, limit) && Used(s'.waiting) <= (if l.answered then 1 else Used(s.waiting) + 1)
              && (l.answered ==>
                    Stage(s'.realizer.client.state, s'.left, parts) < Stage(s.realizer.client.state, s.left, parts))
              && (!l.answered ==>
                    if s.realizer.client.state.Idle? then
                      s'.realizer.client.state.RequestingConnect? && s'.waiting.None?
                    else s'.realizer.client.state == s.realizer.client.state && s'.left == s.left
                         && Used(s'.waiting) == Used(s.waiting) + 1)
  {
    hide ReceiveAll, Updated, Calm, NotedAll, AllWelcome, Asked, Spoiled;
    LoopFailsWhenSpoiled(Listener(s, e));
    WelcomeLoop(Ledger(s.left, s.got, false), parts, Listener(s, e));
    AfterReceiving(Listener(s, e), e.surroundings);
    StepIsUpdated(s.realizer, e);
    NothingAsked(Step(s.realizer, e).realizer.client);
  }

  /** A served update whose receive phase is spoiled sends nothing, but keeps what it heard before. */
  lemma SpoiledUpdate(s: Session, parts: nat, limit: nat, e: Event)
    requires UnderWay(s, parts, limit) && Served(s, parts, limit, e) && 0 < parts
    requires e.UpdateEvent? && !Heard(s.realizer, e)
    ensures var s', l, heard := Advance(s, parts, e), LedgerOf(s, parts, e), ReceiveAll(Listener(s, e)).client;
            if heard.state.Synced? then InTheGame(s'.realizer)
            else
              && UnderWay(s', parts, limit)
              && (l.answered ==>
                    && s'.waiting.None?
                    && Stage(s'.realizer.client.state, s'.left, parts) < Stage(s.realizer.client.state, s.left, parts))
              && (!l.answered ==>
                    && s'.left == s.left && s'.waiting == s.waiting
                    && (s'.realizer.client.state == s.realizer.client.state
                        || (s.realizer.client.state.Idle? && s'.realizer.client.state.RequestingConnect?)))
  {
    hide ReceiveAll, Updated, Calm, NotedAll, AllWelcome, Asked, Spoiled;
    WelcomeLoop(Ledger(s.left, s.got, false), parts, Listener(s, e));
    FailedUpdate(Listener(s, e), e.surroundings);
    StepIsUpdated(s.realizer, e);
    NothingAsked(Step(s.realizer, e).realizer.client);
  }

  lemma NothingAsked(c: Client)
    ensures !Asked(c, [])
  {
  }

  lemma FewerStages(stages: nat, stages': nat, limit: nat, used: nat, used': nat)
    requires stages' < stages && used <= limit
    ensures stages' * (limit + 1) - used' < stages * (limit + 1) - used
  {
    assert (stages - stages' - 1) * (limit + 1) >= 0;
    assert stages * (limit + 1) == stages' * (limit + 1) + (limit + 1) + (stages - stages' - 1) * (limit + 1);
  }

  /** Updates that can still pass do not increase when the handshake moves on. */
  lemma StageLost(s: Session, s': Session, parts: nat, limit: nat)
    requires UnderWay(s, parts, limit) && UnderWay(s', parts, limit)
    requires Stage(s'.realizer.client.state, s'.left, parts) < Stage(s.realizer.client.state, s.left, parts)
    ensures Remaining(s', parts, limit) < Remaining(s, parts, limit)
  {
    hide Sound;
    var before, after := s.realizer.client.state, s'.realizer.client.state;
    var left := Stage(after, s'.left, parts);
    FewerStages(Stage(before, s.left, parts), left, limit, Used(s.waiting), Used(s'.waiting));
    if left < parts + 2 {
      FewerStages(parts + 2, left, limit, 0, 0);
    }
  }

  /**
   * Every served update enters the game or uses up some of the remaining updates; one whose receive phase is
   * spoiled at least adds none.
   */
  lemma ServedUpdateProgresses(s: Session, parts: nat, limit: nat, e: Event)
    requires UnderWay(s, parts, limit) && Served(s, parts, limit, e) && 0 < limit && 0 < parts && e.UpdateEvent?
    ensures var s' := Advance(s, parts, e);
            InTheGame(s'.realizer) ||
            (UnderWay(s', parts, limit)
             && Remaining(s', parts, limit) + (if Heard(s.realizer, e) then 1 else 0) <= Remaining(s, parts, limit))
  {
    hide ReceiveAll, Advance, Served, Sound, LedgerOf, Heard, UnderWay;
    var s' := Advance(s, parts, e);
    if Heard(s.realizer, e) {
      HeardUpdate(s, parts, limit, e);
    } else {
      SpoiledUpdate(s, parts, limit, e);
    }
    if LedgerOf(s, parts, e).answered && !InTheGame(s'.realizer) {
      StageLost(s, s', parts, limit);
    } else if s.realizer.client.state.Idle? {
      NotWaiting(s, parts, limit);
    }
  }

  lemma NotWaiting(s: Session, parts: nat, limit: nat)
    requires UnderWay(s, parts, limit) && s.realizer.client.state.Idle?
    ensures s.waiting.None?
  {
  }

  /** What happens between updates leaves the handshake where it is. */
  lemma UnderWayBetween(s: Session, parts: nat, limit: nat, e: Event)
    requires UnderWay(s, parts, limit) && Continues(e) && !e.UpdateEvent?
    ensures var s' := Advance(s, parts, e);
            UnderWay(s', parts, limit) && Remaining(s', parts, limit) == Remaining(s, parts, limit)
  {
    hide Step, Calm;
    BetweenUpdates(s.realizer, e);
  }

  /** The answer to the request of the stage the client is in. */
  function Awaited(l: Ledger, c: Client): Message {
    match c.state
    case RequestingConnect => ConnectResponse(Parsed(ConnectReply(1, false)))
    case JoiningRequestingState => Offer(c)
    case _ => GameStatePart(c.joinStateChannel, Parsed(BlobProgress(l.left <= 1, l.got + [0])))
  }

  lemma AwaitedIsWelcome(l: Ledger, parts: nat, c: Client)
    requires c.state.RequestingConnect? || c.state.JoiningRequestingState? || c.state.JoiningDownloadingState?
    requires c.inbox == [Incoming(Next(c, Awaited(l, c)))]
    ensures var d := c.inbox[0].datagram; GoesOn(c) && Welcome(l, c, d) && Noted(l, parts, c, d).answered
  {
  }

  /** The server the bound assumes can act at every point of the handshake, at once and without loss. */
  lemma ServerCanAnswer(s: Session, parts: nat, limit: nat) returns (e: Event)
    requires UnderWay(s, parts, limit) && s.realizer.client.inbox == []
    ensures e.UpdateEvent? && Served(s, parts, limit, e) && Heard(s.realizer, e)
    ensures !s.realizer.client.state.Idle? ==> LedgerOf(s, parts, e).answered
  {
    hide TakeNext, Welcome, Noted, Sound, Spoils;
    var l, idle := Ledger(s.left, s.got, false), s.realizer.client.state.Idle?;
    e := UpdateEvent(if idle then [] else [Incoming(Next(s.realizer.client, Awaited(l, s.realizer.client)))],
                     Surroundings(0, HEADER_OCTETS + 1, 0, 0, 0));
    var c := Listener(s, e);
    assert c.inbox == e.arrivals;
    Unmoved(l, c, parts);
    if !idle {
      AwaitedIsWelcome(l, parts, c);
      HeardInOneRound(c);
      var l1 := Noted(l, parts, c, c.inbox[0].datagram);
      assert AllWelcome(l1, parts, TakeNext(c).client) && NotedAll(l1, parts, TakeNext(c).client) == l1;
    }
  }

  lemma HeardInOneRound(c: Client)
    requires |c.inbox| == 1 && GoesOn(c)
    ensures !Spoiled(c) && TakeNext(c).client.inbox == []
  {
    hide TakeNext;
    TakeNextPops(c);
    RoundFails(c);
    LoopFailsWhenSpoiled(c);
    assert ReceiveAll(TakeNext(c).client) == Outcome(TakeNext(c).client, 0);
  }

  // ---------------------------------------------------------------- over whole runs

  /** The updates of a run whose receive phase succeeds. */
  function Hearings(r: Realizer, run: seq<Event>): nat {
    if run == [] then 0
    else
      var earlier, last := run[..|run| - 1], run[|run| - 1];
      Hearings(r, earlier) + if Heard(After(r, earlier), last) then 1 else 0
  }

  function SessionAfter(s: Session, parts: nat, run: seq<Event>): Session {
    if run == [] then s
    else Advance(SessionAfter(s, parts, run[..|run| - 1]), parts, run[|run| - 1])
  }

  /** Until the client is in the game for the first time, every update is served. */
  predicate ServedThroughout(s: Session, parts: nat, limit: nat, run: seq<Event>) {
    forall i :: 0 <= i < |run| && NeverInTheGame(s, parts, run[..i]) ==>
      Served(SessionAfter(s, parts, run[..i]), parts, limit, run[i])
  }

  predicate NeverInTheGame(s: Session, parts: nat, run: seq<Event>) {
    forall n :: 0 <= n <= |run| ==> !InTheGame(SessionAfter(s, parts, run[..n]).realizer)
  }

  lemma {:induction false} SessionFollowsRun(s: Session, parts: nat, run: seq<Event>)
    ensures SessionAfter(s, parts, run).realizer == After(s.realizer, run)
  {
    hide Step, LedgerOf;
    if run != [] {
      SessionFollowsRun(s, parts, run[..|run| - 1]);
    }
  }

  /** What holds throughout a run holds throughout a prefix of it. */
  lemma ServedBefore(s: Session, parts: nat, limit: nat, run: seq<Event>, k: nat)
    requires k <= |run| && Ongoing(run) && ServedThroughout(s, parts, limit, run)
    ensures Ongoing(run[..k]) && ServedThroughout(s, parts, limit, run[..k])
    ensures NeverInTheGame(s, parts, run) ==> NeverInTheGame(s, parts, run[..k])
  {
    hide SessionAfter, Served, InTheGame;
    forall i | 0 <= i <= k
      ensures run[..k][..i] == run[..i]
    {
    }
  }

  lemma {:induction false} StillUnderWay(s: Session, parts: nat, limit: nat, run: seq<Event>)
    requires UnderWay(s, parts, limit) && 0 < limit && 0 < parts
    requires Ongoing(run) && ServedThroughout(s, parts, limit, run) && NeverInTheGame(s, parts, run)
    ensures var s' := SessionAfter(s, parts, run);
            && UnderWay(s', parts, limit)
            && Remaining(s', parts, limit) + Hearings(s.realizer, run) <= Remaining(s, parts, limit)
  {
    hide Advance, UnderWay, Served, Remaining, InTheGame, Step, Heard;
    if run != [] {
      var n := |run| - 1;
      ServedBefore(s, parts, limit, run, n);
      StillUnderWay(s, parts, limit, run[..n]);
      assert run[..|run|] == run && Continues(run[n]);
      SessionFollowsRun(s, parts, run[..n]);
      if run[n].UpdateEvent? {
        ServedUpdateProgresses(SessionAfter(s, parts, run[..n]), parts, limit, run[n]);
      } else {
        OnlyUpdatesAreHeard(s.realizer, run);
        UnderWayBetween(SessionAfter(s, parts, run[..n]), parts, limit, run[n]);
      }
    }
  }

  /** The realizer right after an initialisation and JoinGame. */
  function Joined(memory: Realizer, transport: seq<Arrival>, again: bool): Realizer {
    JoinGame(if again then ReInit(memory, transport) else Init(memory, transport))
  }

  function JoiningBound(parts: nat, limit: nat): nat {
    (parts + 2) * (limit + 1) + 1
  }

  lemma RemainingIsPositive(s: Session, parts: nat, limit: nat)
    requires UnderWay(s, parts, limit)
    ensures Remaining(s, parts, limit) > 0
  {
    var stages := Stage(s.realizer.client.state, s.left, parts);
    FewerStages(stages, 0, limit, Used(s.waiting), 0);
    FewerStages(parts + 2, 0, limit, 0, 0);
  }

  lemma OnlyUpdatesAreHeard(r: Realizer, run: seq<Event>)
    requires run != [] && !run[|run| - 1].UpdateEvent?
    ensures Hearings(r, run) == Hearings(r, run[..|run| - 1])
  {
  }

  lemma {:induction false} HearingsGrow(r: Realizer, run: seq<Event>, i: nat)
    requires i <= |run|
    ensures Hearings(r, run[..i]) <= Hearings(r, run)
  {
    hide After, Heard;
    if i < |run| {
      var earlier := run[..|run| - 1];
      assert run[..i] == earlier[..i];
      HearingsGrow(r, earlier, i);
    } else {
      assert run[..i] == run;
    }
  }

  /** The part of a run up to its n-th heard update. */
  lemma {:induction false} CutAt(r: Realizer, run: seq<Event>, n: nat) returns (k: nat)
    requires n <= Hearings(r, run)
    ensures k <= |run| && Hearings(r, run[..k]) == n
  {
    hide After, Heard;
    if n == Hearings(r, run) {
      k := |run|;
      assert run[..k] == run;
    } else {
      k := CutAt(r, run[..|run| - 1], n);
      assert run[..|run| - 1][..k] == run[..k];
    }
  }

  /**
   * After an initialisation and JoinGame, with a server that answers each request within `limit` updates of its
   * being sent and delivers the game state in `parts` parts, the realizer is Synced within JoiningBound updates,
   * whatever is repeated, however the answers are bundled, and whatever the application does in between. Only
   * updates whose receive phase succeeds count, for the limit and for the bound.
   */
  lemma JoiningIsBounded(memory: Realizer, transport: seq<Arrival>, again: bool, parts: nat, limit: nat,
    run: seq<Event>)
    requires 0 < limit && 0 < parts && Ongoing(run)
    requires ServedThroughout(Session(Joined(memory, transport, again), 0, [], None), parts, limit, run)
    ensures var joined := Joined(memory, transport, again);
            JoiningBound(parts, limit) <= Hearings(joined, run) ==>
              exists n :: 0 <= n <= |run| && Hearings(joined, run[..n]) <= JoiningBound(parts, limit)
                          && InTheGame(After(joined, run[..n]))
  {
    hide Advance, Served, InTheGame, Hearings, After, SessionAfter;
    var s := Session(Joined(memory, transport, again), 0, [], None);
    var bound := JoiningBound(parts, limit);
    BeginsUnderWay(memory, transport, again, parts, limit);
    if bound <= Hearings(s.realizer, run) {
      var k := CutAt(s.realizer, run, bound);
      ServedBefore(s, parts, limit, run, k);
      if NeverInTheGame(s, parts, run[..k]) {
        StillUnderWay(s, parts, limit, run[..k]);
        RemainingIsPositive(SessionAfter(s, parts, run[..k]), parts, limit);
        assert false;
      } else {
        var n :| 0 <= n <= k && InTheGame(SessionAfter(s, parts, run[..k][..n]).realizer);
        assert run[..k][..n] == run[..n];
        SessionFollowsRun(s, parts, run[..n]);
        HearingsGrow(s.realizer, run[..k], n);
        assert InTheGame(After(s.realizer, run[..n])) && Hearings(s.realizer, run[..n]) <= bound;
      }
    }
  }

  lemma BeginsUnderWay(memory: Realizer, transport: seq<Arrival>, again: bool, parts: nat, limit: nat)
    ensures var s := Session(Joined(memory, transport, again), 0, [], None);
            UnderWay(s, parts, limit) && Remaining(s, parts, limit) == JoiningBound(parts, limit)
  {
  }

  // ---------------------------------------------------------------- leaving the request

  /** The receive loop takes an offer of a channel that is not held, or the chunk that completes the held one. */
  predicate LoopLeavesRequest(c: Client)
    decreases |c.inbox|
  {
    c.inbox != [] &&
    (TakeNextPops(c);
     (c.inbox[0].Incoming?
      && (OffersDownload(c, c.inbox[0].datagram) || CompletesDownload(c, c.inbox[0].datagram)))
     || (TakeNext(c).result >= 0 && LoopLeavesRequest(TakeNext(c).client)))
  }

  /** Beyond the request for the game state. */
  predicate Beyond(state: ClientState) {
    state.JoiningDownloadingState? || state.Synced? || state.Disconnected?
  }

  lemma {:induction false} ReceiveLeavesRequest(c: Client)
    requires c.state.JoiningRequestingState?
    ensures var state := ReceiveAll(c).client.state;
            if LoopLeavesRequest(c) then state.JoiningDownloadingState? || state.Synced?
            else state.JoiningRequestingState?
    decreases |c.inbox|
  {
    hide TakeNext, OffersDownload, CompletesDownload;
    if c.inbox != [] {
      TakeNextPops(c);
      var after := TakeNext(c).client;
      if c.inbox[0].Incoming? {
        ArrivalMoves(c);
      } else {
        ErrorMoves(c);
      }
      if after.state.JoiningRequestingState? {
        ReceiveLeavesRequest(after);
      } else {
        ReceiveMoves(after);
      }
    }
  }

  predicate LeavesRequest(r: Realizer, e: Event) {
    Listens(r, e) && LoopLeavesRequest(Deliver(r, e.arrivals).client)
  }

  /** Some update of the run leaves the request. */
  predicate RequestLeft(r: Realizer, run: seq<Event>) {
    exists i :: 0 <= i < |run| && LeavesRequest(After(r, run[..i]), run[i])
  }

  lemma RequestLeftBefore(r: Realizer, run: seq<Event>)
    requires run != []
    ensures var earlier, last := run[..|run| - 1], run[|run| - 1];
            RequestLeft(r, run) <==> RequestLeft(r, earlier) || LeavesRequest(After(r, earlier), last)
  {
    hide After, LeavesRequest;
    var n := |run| - 1;
    var earlier := run[..n];
    forall i | 0 <= i < n
      ensures run[..i] == earlier[..i] && run[i] == earlier[i]
    {
    }
    if LeavesRequest(After(r, earlier), run[n]) {
      assert RequestLeft(r, run);
    }
  }

  lemma UpdatedLeavesRequest(c: Client, s: Surroundings)
    requires c.state.JoiningRequestingState?
    ensures var state := Updated(c, s).client.state;
            if LoopLeavesRequest(c) then Beyond(state) else state.JoiningRequestingState?
  {
    hide ReceiveAll, HandleState, Rating, LoopLeavesRequest;
    ReceiveLeavesRequest(c);
    SendingStays(JudgeQuality(ReceiveAll(c).client), s);
  }

  lemma StepLeavesRequest(r: Realizer, e: Event)
    requires Continues(e)
    ensures var state := Step(r, e).realizer.client.state;
            && (Beyond(r.client.state) ==> Beyond(state))
            && (r.client.state.JoiningRequestingState? ==>
                  if LeavesRequest(r, e) then Beyond(state) else state.JoiningRequestingState?)
  {
    hide Updated, LoopLeavesRequest;
    if Listens(r, e) {
      var c := Deliver(r, e.arrivals).client;
      UpdatedMoves(c, e.surroundings);
      if c.state.JoiningRequestingState? {
        UpdatedLeavesRequest(c, e.surroundings);
      }
    }
  }

  /**
   * A client that has asked for the game state goes on asking, whatever else arrives and however long, until it
   * takes an offer of a channel it does not hold or the completing chunk of the channel it holds, and then it
   * never asks again: offers of the held channel do not help it on.
   */
  lemma {:induction false} RequestIsLeft(r: Realizer, run: seq<Event>)
    requires r.client.state.JoiningRequestingState? && Ongoing(run)
    ensures var state := After(r, run).client.state;
            if RequestLeft(r, run) then Beyond(state) else state.JoiningRequestingState?
  {
    hide Step, LeavesRequest;
    if run != [] {
      var earlier, last := run[..|run| - 1], run[|run| - 1];
      RequestLeftBefore(r, run);
      RequestIsLeft(r, earlier);
      StepLeavesRequest(After(r, earlier), last);
    }
  }
}
