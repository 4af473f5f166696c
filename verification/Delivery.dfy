/** What the application reads: the server's steps, in order, from the state it downloaded. */
module Delivery {
  import opened Wrappers
  import opened ConnectionQuality
  import opened StepBuffers
  import opened ClientModel
  import opened RealizerModel
  import opened Handshake

  // ---------------------------------------------------------------- entering the game

  /**
   * The client enters the game exactly on the chunk that completes the download, from whatever state; then all
   * three buffers restart at the id of the downloaded state, whatever they held.
   */
  lemma EnteringRebases(c: Client)
    requires c.inbox != []
    ensures Enters(c) <==> c.inbox[0].Incoming? && CompletesDownload(c, c.inbox[0].datagram)
    ensures Enters(c) ==>
              var c' := TakeNext(c).client;
              && c'.authoritative == c'.outSteps == RestartAt(c.joinStateId)
              && c'.pending == PendingSteps(c.joinStateId, map[])
              && c'.joinStateId == c.joinStateId
              && c'.joinedGameState == GameState(c.joinStateId, Some(c.inbox[0].datagram.message.progress.value.octets))
  {
    hide CopyReady, DiscardUpTo, Insert, Seated, DroppedPackets;
  }

  /**
   * Accepting a download response fixes the state to come. Repeating it at once is void; how long it stays so is
   * the subject of `HeldChannel`.
   */
  lemma DownloadBegins(c: Client, r: StateReply)
    requires r.requestId == c.downloadRequestId && r.channel != c.joinStateChannel
    ensures var c' := OnGameStateResponse(c, Parsed(r)).client;
            && c'.state.JoiningDownloadingState? && c'.joinStateChannel == r.channel
            && c'.joinStateId == c'.joinedGameState.stepId == r.stateId && c'.outSteps == RestartAt(r.stateId)
            && c'.authoritative == c.authoritative && c'.pending == c.pending
            && OnGameStateResponse(c', Parsed(r)) == Outcome(c', 0)
  {
  }

  // ---------------------------------------------------------------- honest servers

  ghost predicate HonestMessage(m: Message, truth: nat -> Octets) {
    m.GameStepResponse? && m.steps.Parsed? ==> Truthful(m.steps.value, truth)
  }

  /** Every step in a step response is the one the server has for its id. */
  ghost predicate Honest(arrivals: seq<Arrival>, truth: nat -> Octets) {
    forall i :: 0 <= i < |arrivals| && arrivals[i].Incoming? ==> HonestMessage(arrivals[i].datagram.message, truth)
  }

  ghost predicate HonestEvent(e: Event, truth: nat -> Octets) {
    match e
    case InitEvent(transport) => Honest(transport, truth)
    case ReInitEvent(transport) => Honest(transport, truth)
    case UpdateEvent(arrivals, _) => Honest(arrivals, truth)
    case _ => true
  }

  ghost predicate HonestRun(run: seq<Event>, truth: nat -> Octets) {
    forall i :: 0 <= i < |run| ==> HonestEvent(run[i], truth)
  }

  // ---------------------------------------------------------------- the incoming buffers

  /** Where the authoritative buffer last started over, given where it did before these arrivals. */
  function BaseAfter(base: nat, c: Client): nat
    decreases |c.inbox|
  {
    if c.inbox == [] then base
    else
      TakeNextPops(c);
      var base1 := if Enters(c) then c.joinStateId else base;
      if TakeNext(c).result < 0 then base1 else BaseAfter(base1, TakeNext(c).client)
  }

  lemma DispatchBuffers(c: Client, m: Message)
    requires Aligned(c.authoritative, c.pending)
    ensures var c' := Dispatch(c, m).client;
            && Aligned(c'.authoritative, c'.pending) && c'.inbox == c.inbox
            && (if !c.state.Synced? && c'.state.Synced? then c'.authoritative == RestartAt(c.joinStateId)
                else c'.authoritative.first == c.authoritative.first && c.authoritative.items <= c'.authoritative.items)
  {
    hide CopyReady, DiscardUpTo, Insert, Seated;
    if m.GameStepResponse? && m.steps.Parsed? {
      InsertKeeps(c.authoritative, c.pending, m.steps.value);
      CopyKeeps(c.authoritative, Insert(c.pending, m.steps.value), c.stepCapacity);
    }
  }

  lemma TakeNextBuffers(c: Client)
    requires c.inbox != [] && Aligned(c.authoritative, c.pending)
    ensures var c' := TakeNext(c).client;
            && Aligned(c'.authoritative, c'.pending)
            && (if Enters(c) then c'.authoritative == RestartAt(c.joinStateId)
                else c'.authoritative.first == c.authoritative.first && c.authoritative.items <= c'.authoritative.items)
  {
    hide Dispatch, Aligned, DroppedPackets;
    if c.inbox[0].Incoming? {
      var d := c.inbox[0].datagram;
      var c1 := RecordDrops(c.(inbox := c.inbox[1..], orderedIn := Some(d.id)), ForwardDistance(c.orderedIn, d.id) - 1);
      if d.pong.Parsed? {
        DispatchBuffers(c1.(quality := LatencySampled(c1.quality, d.pong.value)), d.message);
      }
    }
  }

  lemma {:induction false} ReceiveBuffers(c: Client, base: nat)
    requires Aligned(c.authoritative, c.pending)
    ensures var c' := ReceiveAll(c).client;
            && Aligned(c'.authoritative, c'.pending)
            && (Entered(c) == 0 ==> BaseAfter(base, c) == base && c'.authoritative.first == c.authoritative.first)
            && (Entered(c) > 0 ==> BaseAfter(base, c) == c'.authoritative.first)
    decreases |c.inbox|
  {
    hide TakeNext, Aligned, Enters;
    if c.inbox != [] {
      TakeNextPops(c);
      TakeNextBuffers(c);
      if TakeNext(c).result >= 0 {
        ReceiveBuffers(TakeNext(c).client, if Enters(c) then c.joinStateId else base);
      }
    }
  }

  lemma DispatchGenuine(c: Client, m: Message, truth: nat -> Octets)
    requires Genuine(c.authoritative, c.pending, truth) && HonestMessage(m, truth)
    ensures var c' := Dispatch(c, m).client; Genuine(c'.authoritative, c'.pending, truth)
  {
    hide CopyReady, DiscardUpTo, Insert, Seated, Genuine;
    if m.GameStepResponse? && m.steps.Parsed? {
      InsertGenuine(c.authoritative, c.pending, m.steps.value, truth);
      CopyGenuine(c.authoritative, Insert(c.pending, m.steps.value), c.stepCapacity, truth);
    } else {
      EmptyIsGenuine(c.joinStateId, truth);
    }
  }

  lemma EmptyIsGenuine(id: nat, truth: nat -> Octets)
    ensures Genuine(RestartAt(id), PendingSteps(id, map[]), truth)
  {
  }

  lemma TakeNextGenuine(c: Client, truth: nat -> Octets)
    requires c.inbox != [] && Genuine(c.authoritative, c.pending, truth) && Honest(c.inbox, truth)
    ensures var c' := TakeNext(c).client; Genuine(c'.authoritative, c'.pending, truth)
  {
    hide Dispatch, Genuine, HonestMessage;
    if c.inbox[0].Incoming? {
      var d := c.inbox[0].datagram;
      var c1 := RecordDrops(c.(inbox := c.inbox[1..], orderedIn := Some(d.id)), ForwardDistance(c.orderedIn, d.id) - 1);
      if d.pong.Parsed? {
        DispatchGenuine(c1.(quality := LatencySampled(c1.quality, d.pong.value)), d.message, truth);
      }
    }
  }

  lemma {:induction false} ReceiveGenuine(c: Client, truth: nat -> Octets)
    requires Genuine(c.authoritative, c.pending, truth) && Honest(c.inbox, truth)
    ensures var c' := ReceiveAll(c).client; Genuine(c'.authoritative, c'.pending, truth) && Honest(c'.inbox, truth)
    decreases |c.inbox|
  {
    hide TakeNext, Genuine, HonestMessage;
    if c.inbox != [] {
      TakeNextPops(c);
      TakeNextGenuine(c, truth);
      if TakeNext(c).result >= 0 {
        ReceiveGenuine(TakeNext(c).client, truth);
      }
    }
  }

  // ---------------------------------------------------------------- over whole runs

  /** This event makes the authoritative buffer start over. */
  predicate Rebases(r: Realizer, e: Event) {
    StartsOver(e) || EnteredBy(r, e) > 0
  }

  function BaseOf(r: Realizer, run: seq<Event>): nat {
    if run == [] then 0
    else
      var earlier, last := run[..|run| - 1], run[|run| - 1];
      if StartsOver(last) then 0
      else if Listens(After(r, earlier), last) then
        BaseAfter(BaseOf(r, earlier), Deliver(After(r, earlier), last.arrivals).client)
      else BaseOf(r, earlier)
  }

  /** The steps read since the authoritative buffer last started over. */
  function ReadsOf(r: Realizer, run: seq<Event>): seq<(nat, Octets)> {
    if run == [] then []
    else
      var earlier, last := run[..|run| - 1], run[|run| - 1];
      if Rebases(After(r, earlier), last) then []
      else if last.ReadStepEvent? && ReadStep(After(r, earlier).client).1.Some? then
        ReadsOf(r, earlier) + [ReadStep(After(r, earlier).client).1.value]
      else ReadsOf(r, earlier)
  }

  /** The reads so far lead from the base to the read id without a gap. */
  predicate Consecutive(seen: seq<(nat, Octets)>, base: nat, c: Client) {
    && Aligned(c.authoritative, c.pending)
    && c.authoritative.first == base + |seen|
    && forall i :: 0 <= i < |seen| ==> seen[i].0 == base + i
  }

  /** Every read delivered the server's step. */
  ghost predicate Faithful(seen: seq<(nat, Octets)>, c: Client, truth: nat -> Octets) {
    && Genuine(c.authoritative, c.pending, truth)
    && Honest(c.inbox, truth)
    && forall i :: 0 <= i < |seen| ==> seen[i].1 == truth(seen[i].0)
  }

  lemma SendingKeepsBuffers(c: Client, s: Surroundings)
    ensures var c' := HandleState(c, s).client;
            c'.authoritative == c.authoritative && c'.pending == c.pending && c'.inbox == c.inbox
              && c'.outSteps == c.outSteps
  {
  }

  lemma UpdatedKeepsBuffers(c: Client, s: Surroundings)
    ensures var c', received := Updated(c, s).client, ReceiveAll(c).client;
            && c'.authoritative == received.authoritative && c'.pending == received.pending
            && c'.inbox == received.inbox && c'.outSteps == received.outSteps
  {
    hide ReceiveAll, HandleState, Rating;
    SendingKeepsBuffers(JudgeQuality(ReceiveAll(c).client), s);
  }

  /** What an event does to the incoming buffers, by kind. */
  lemma StepBuffering(r: Realizer, e: Event)
    ensures var c, c' := r.client, Step(r, e).realizer.client;
            if StartsOver(e) then c'.authoritative == RestartAt(0) && c'.pending == PendingSteps(0, map[])
            else if Listens(r, e) then
              var received := ReceiveAll(Deliver(r, e.arrivals).client).client;
              c'.authoritative == received.authoritative && c'.pending == received.pending && c'.inbox == received.inbox
            else
              && c'.authoritative == (if e.ReadStepEvent? then ReadStep(c).0.authoritative else c.authoritative)
              && c'.pending == c.pending
              && c'.inbox == (if e.UpdateEvent? then c.inbox + e.arrivals else c.inbox)
    ensures e.ResetEvent? ==> Step(r, e).realizer.client.inbox == r.client.inbox
    ensures e.InitEvent? || e.ReInitEvent? ==> Step(r, e).realizer.client.inbox == e.transport
  {
    hide ReceiveAll, Updated;
    if Listens(r, e) {
      UpdatedKeepsBuffers(Deliver(r, e.arrivals).client, e.surroundings);
    }
  }

  /**
   * However steps are lost, repeated or reordered on the way, the ids an application reads are consecutive,
   * starting at the state it downloaded, until the client enters the game anew or starts over.
   */
  lemma {:induction false} ReadsAreConsecutive(memory: Realizer, transport: seq<Arrival>, run: seq<Event>)
    ensures var r := Init(memory, transport);
            Consecutive(ReadsOf(r, run), BaseOf(r, run), After(r, run).client)
  {
    hide Step, ReceiveAll, BaseAfter, Entered;
    var r := Init(memory, transport);
    if run != [] {
      var earlier, last := run[..|run| - 1], run[|run| - 1];
      ReadsAreConsecutive(memory, transport, earlier);
      var before := After(r, earlier);
      StepBuffering(before, last);
      if !StartsOver(last) && Listens(before, last) {
        ReceiveBuffers(Deliver(before, last.arrivals).client, BaseOf(r, earlier));
      }
    }
  }

  // ---------------------------------------------------------------- reading

  /** `k` reads in a row. */
  function Reading(k: nat): seq<Event> {
    if k == 0 then [] else Reading(k - 1) + [ReadStepEvent]
  }

  /** The first `k` steps of a buffer, with their ids. */
  function FirstSteps(s: Steps, k: nat): seq<(nat, Octets)>
    requires k <= |s.items|
  {
    if k == 0 then [] else FirstSteps(s, k - 1) + [(s.first + k - 1, s.items[k - 1])]
  }

  /** A read delivers the oldest step with its id and takes it out of the buffer; an empty buffer delivers nothing. */
  lemma ReadDelivers(r: Realizer, run: seq<Event>)
    ensures var s := After(r, run).client.authoritative;
            var longer := run + [ReadStepEvent];
            if s.items == [] then
              ReadsOf(r, longer) == ReadsOf(r, run) && After(r, longer).client.authoritative == s
            else
              && ReadsOf(r, longer) == ReadsOf(r, run) + [(s.first, s.items[0])]
              && After(r, longer).client.authoritative == Steps(s.first + 1, s.items[1..])
  {
    hide Update;
    var longer := run + [ReadStepEvent];
    assert longer[..|longer| - 1] == run;
  }

  /** Reads in a row deliver the steps of the buffer from the oldest on, until it is empty. */
  lemma {:induction false} ReadingDrains(r: Realizer, run: seq<Event>, k: nat)
    ensures var s := After(r, run).client.authoritative;
            var m := if k < |s.items| then k else |s.items|;
            && ReadsOf(r, run + Reading(k)) == ReadsOf(r, run) + FirstSteps(s, m)
            && After(r, run + Reading(k)).client.authoritative == Steps(s.first + m, s.items[m..])
  {
    hide After, ReadsOf;
    if k == 0 {
      assert run + Reading(0) == run;
    } else {
      ReadingDrains(r, run, k - 1);
      assert run + Reading(k) == run + Reading(k - 1) + [ReadStepEvent];
      ReadDelivers(r, run + Reading(k - 1));
    }
  }

  lemma HonestJoins(a: seq<Arrival>, b: seq<Arrival>, truth: nat -> Octets)
    requires Honest(a, truth) && Honest(b, truth)
    ensures Honest(a + b, truth)
  {
  }

  /** With an honest server every step read is the server's own step for its id. */
  lemma {:induction false} ReadsAreFaithful(memory: Realizer, transport: seq<Arrival>, run: seq<Event>,
    truth: nat -> Octets)
    requires Honest(transport, truth) && HonestRun(run, truth)
    ensures var r := Init(memory, transport);
            Faithful(ReadsOf(r, run), After(r, run).client, truth)
  {
    hide Step, ReceiveAll, Honest, Entered;
    var r := Init(memory, transport);
    EmptyIsGenuine(0, truth);
    if run != [] {
      var earlier, last := run[..|run| - 1], run[|run| - 1];
      ReadsAreFaithful(memory, transport, earlier, truth);
      FaithfulStep(ReadsOf(r, earlier), After(r, earlier), last, truth);
    }
  }

  lemma FaithfulStep(seen: seq<(nat, Octets)>, r: Realizer, e: Event, truth: nat -> Octets)
    requires Faithful(seen, r.client, truth) && HonestEvent(e, truth)
    ensures var seen' := if Rebases(r, e) then []
                          else if e.ReadStepEvent?
                            && ReadStep(r.client).1.Some? then seen + [ReadStep(r.client).1.value]
                          else seen;
            Faithful(seen', Step(r, e).realizer.client, truth)
  {
    hide Step, ReceiveAll, Honest, Entered;
    StepBuffering(r, e);
    EmptyIsGenuine(0, truth);
    if e.UpdateEvent? {
      HonestJoins(r.client.inbox, e.arrivals, truth);
      if Listens(r, e) {
        ReceiveGenuine(Deliver(r, e.arrivals).client, truth);
      }
    }
  }
}
