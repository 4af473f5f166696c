/** The outgoing buffer: predicted steps leave it only when the server has acknowledged them. */
module Acknowledging {
  import opened Wrappers
  import opened ConnectionQuality
  import opened StepBuffers
  import opened ClientModel
  import opened RealizerModel
  import opened Handshake
  import opened Delivery

  // ---------------------------------------------------------------- one response

  /** The last 32-bit id: the id after it wraps to 0. */
  const LAST_STEP_ID: nat := 0xFFFF_FFFF

  predicate HoldsAtMost(s: Steps, id: nat) {
    s.items != [] && s.first <= id
  }

  /** Every step above `id` that `before` held is still there, under the same id. */
  predicate KeepsAbove(before: Steps, after: Steps, id: nat) {
    forall i :: 0 <= i < |before.items| && before.first + i > id ==>
      after.first <= before.first + i < WriteId(after) && after.items[before.first + i - after.first] == before.items[i]
  }

  /**
   * A step response removes exactly the acknowledged steps, even if its own steps turn out malformed,
   * except that acknowledging the last 32-bit id wraps around and removes nothing.
   */
  lemma AcknowledgedStepsLeave(c: Client, acknowledged: uint32, steps: Parse<Received>)
    ensures var before, after := c.outSteps, OnGameStepResponse(c, acknowledged, steps).client.outSteps;
            && (!HoldsAtMost(after, acknowledged) <==>
              acknowledged < LAST_STEP_ID || !HoldsAtMost(before, acknowledged))
            && KeepsAbove(before, after, acknowledged)
            && (acknowledged == LAST_STEP_ID ==> after == before)
            && WriteId(after) == WriteId(before)
  {
  }

  /** An acknowledgement of the last id with one step buffered: the step stays. */
  lemma WrappedAcknowledgementKeepsSteps(c: Client, steps: Parse<Received>)
    requires c.outSteps == Steps(LAST_STEP_ID, [[]])
    ensures HoldsAtMost(OnGameStepResponse(c, LAST_STEP_ID, steps).client.outSteps, LAST_STEP_ID)
  {
    AcknowledgedStepsLeave(c, LAST_STEP_ID, steps);
  }

  // ---------------------------------------------------------------- one arrival

  /** The steps written since the outgoing buffer last restarted, at `base`, and the first id not acknowledged since. */
  datatype OutBook = OutBook(base: nat, written: seq<Octets>, unacknowledged: nat)

  function Max(a: nat, b: nat): nat {
    if a < b then b else a
  }

  function Booked(b: OutBook, c: Client): OutBook
    requires c.inbox != []
  {
    match c.inbox[0]
    case TransportError(_) => b
    case Incoming(d) =>
      if OffersDownload(c, d) then OutBook(d.message.reply.value.stateId, [], d.message.reply.value.stateId)
      else if Enters(c) then OutBook(c.joinStateId, [], c.joinStateId)
      else if Handled(c, d) && d.message.GameStepResponse? then
        b.(unacknowledged := Max(b.unacknowledged, AfterAcknowledged(d.message.acknowledged)))
      else b
  }

  predicate IsSuffix(items: seq<Octets>, written: seq<Octets>, from: int) {
    0 <= from <= |written| && items == written[from..]
  }

  /** The buffer holds what was written, short of a prefix that has been acknowledged. */
  predicate Conserved(b: OutBook, s: Steps) {
    && WriteId(s) == b.base + |b.written|
    && b.base <= s.first <= Max(b.base, b.unacknowledged)
    && IsSuffix(s.items, b.written, s.first - b.base)
  }

  lemma DispatchConserves(c: Client, m: Message)
    ensures var s, s' := c.outSteps, Dispatch(c, m).client.outSteps;
            if m.GameStepResponse? then s' == DiscardUpTo(s, AfterAcknowledged(m.acknowledged))
            else if m.GameStateResponse? && m.reply.Parsed? && m.reply.value.requestId == c.downloadRequestId
                    && m.reply.value.channel != c.joinStateChannel then
              s' == RestartAt(m.reply.value.stateId) && Dispatch(c, m).client.state.JoiningDownloadingState?
            else if !c.state.Synced? && Dispatch(c, m).client.state.Synced? then s' == RestartAt(c.joinStateId)
            else s' == s
    ensures m.GameStepResponse? || m.GameStateResponse? ==> c.state.Synced? || !Dispatch(c, m).client.state.Synced?
  {
    hide CopyReady, DiscardUpTo, Insert, Seated;
  }

  lemma SuffixOfSuffix(written: seq<Octets>, base: nat, first: nat, items: seq<Octets>, rest: Steps)
    requires base <= first <= rest.first <= base + |written|
    requires items == written[first - base..] && rest.items == items[rest.first - first..]
    ensures rest.items == written[rest.first - base..]
  {
  }

  lemma DiscardKeepsSuffix(written: seq<Octets>, base: nat, s: Steps, target: nat)
    requires base <= s.first && IsSuffix(s.items, written, s.first - base)
    ensures IsSuffix(DiscardUpTo(s, target).items, written, DiscardUpTo(s, target).first - base)
  {
    hide DiscardUpTo;
    DiscardKeepsTheRest(s, target);
    SuffixOfSuffix(written, base, s.first, s.items, DiscardUpTo(s, target));
  }

  lemma DiscardConserves(b: OutBook, s: Steps, target: nat)
    requires Conserved(b, s)
    ensures Conserved(b.(unacknowledged := Max(b.unacknowledged, target)), DiscardUpTo(s, target))
  {
    hide DiscardUpTo, IsSuffix, WriteId;
    DiscardKeepsSuffix(b.written, b.base, s, target);
  }

  lemma FeedOut(c: Client, d: Datagram)
    ensures var s, fed := c.outSteps, Feed(c, d).client;
            if OffersDownload(c, d) then fed.outSteps == RestartAt(d.message.reply.value.stateId) && !fed.state.Synced?
            else if !c.state.Synced? && fed.state.Synced? then fed.outSteps == RestartAt(c.joinStateId)
            else if Handled(c, d) && d.message.GameStepResponse? then
              fed.outSteps == DiscardUpTo(s, AfterAcknowledged(d.message.acknowledged))
            else fed.outSteps == s
  {
    hide Dispatch, DiscardUpTo, AfterAcknowledged, DroppedPackets;
    if Handled(c, d) {
      var c1 := RecordDrops(c.(orderedIn := Some(d.id)), ForwardDistance(c.orderedIn, d.id) - 1);
      var c2 := c1.(quality := LatencySampled(c1.quality, d.pong.value));
      DispatchConserves(c2, d.message);
      assert Feed(c, d) == Dispatch(c2, d.message);
    }
  }

  /** What the next arrival does to the outgoing buffer. */
  lemma TakeNextOut(c: Client)
    requires c.inbox != []
    ensures var s, s' := c.outSteps, TakeNext(c).client.outSteps;
            match c.inbox[0]
            case TransportError(_) => s' == s
            case Incoming(d) =>
              if OffersDownload(c, d) then s' == RestartAt(d.message.reply.value.stateId)
              else if Enters(c) then s' == RestartAt(c.joinStateId)
              else if Handled(c, d) && d.message.GameStepResponse? then
                s' == DiscardUpTo(s, AfterAcknowledged(d.message.acknowledged))
              else s' == s
  {
    hide Feed, DiscardUpTo, AfterAcknowledged;
    if c.inbox[0].Incoming? {
      FeedOut(c.(inbox := c.inbox[1..]), c.inbox[0].datagram);
    }
  }

  lemma RestartConserves(id: nat)
    ensures Conserved(OutBook(id, [], id), RestartAt(id))
  {
    hide IsSuffix;
    NothingIsSuffix();
  }

  lemma NothingIsSuffix()
    ensures IsSuffix([], [], 0)
  {
  }

  lemma TakeNextConserves(b: OutBook, c: Client)
    requires c.inbox != [] && Conserved(b, c.outSteps)
    ensures Conserved(Booked(b, c), TakeNext(c).client.outSteps)
  {
    hide TakeNext, Conserved, Enters, Handled, DiscardUpTo;
    TakeNextOut(c);
    RestartConserves(c.joinStateId);
    if c.inbox[0].Incoming? {
      var d := c.inbox[0].datagram;
      if d.message.GameStateResponse? && d.message.reply.Parsed? {
        RestartConserves(d.message.reply.value.stateId);
      } else if d.message.GameStepResponse? {
        DiscardConserves(b, c.outSteps, AfterAcknowledged(d.message.acknowledged));
      }
    }
  }

  function BookedThrough(b: OutBook, c: Client): OutBook
    decreases |c.inbox|
  {
    if c.inbox == [] then b
    else
      TakeNextPops(c);
      if TakeNext(c).result < 0 then Booked(b, c) else BookedThrough(Booked(b, c), TakeNext(c).client)
  }

  lemma {:induction false} ReceiveConserves(b: OutBook, c: Client)
    requires Conserved(b, c.outSteps)
    ensures Conserved(BookedThrough(b, c), ReceiveAll(c).client.outSteps)
    decreases |c.inbox|
  {
    hide TakeNext, Conserved, Booked;
    if c.inbox != [] {
      TakeNextPops(c);
      TakeNextConserves(b, c);
      if TakeNext(c).result >= 0 {
        ReceiveConserves(Booked(b, c), TakeNext(c).client);
      }
    }
  }

  // ---------------------------------------------------------------- over whole runs

  function OutBookOf(r: Realizer, run: seq<Event>): OutBook {
    if run == [] then OutBook(0, [], 0)
    else
      var earlier, last := run[..|run| - 1], run[|run| - 1];
      var b, before := OutBookOf(r, earlier), After(r, earlier);
      if StartsOver(last) then OutBook(0, [], 0)
      else if Listens(before, last) then BookedThrough(b, Deliver(before, last.arrivals).client)
      else if last.WriteStepEvent? && |before.client.outSteps.items| < before.client.stepCapacity then
        b.(written := b.written + [last.payload])
      else b
  }

  lemma StepOut(r: Realizer, e: Event)
    ensures var s, s' := r.client.outSteps, Step(r, e).realizer.client.outSteps;
            if StartsOver(e) then s' == RestartAt(0)
            else if Listens(r, e) then s' == ReceiveAll(Deliver(r, e.arrivals).client).client.outSteps
            else if e.WriteStepEvent? && |s.items| < r.client.stepCapacity then s' == Append(s, e.payload)
            else s' == s
  {
    hide ReceiveAll, Updated;
    if Listens(r, e) {
      UpdatedKeepsBuffers(Deliver(r, e.arrivals).client, e.surroundings);
    }
  }

  lemma AppendConserves(b: OutBook, s: Steps, payload: Octets)
    requires Conserved(b, s)
    ensures Conserved(b.(written := b.written + [payload]), Append(s, payload))
  {
  }

  /**
   * Since the buffer last restarted, the steps written are the acknowledged ones that left it followed by
   * the ones it still holds: nothing is lost, reordered, or dropped before the server has it.
   */
  lemma {:induction false} NothingLeavesUnacknowledged(memory: Realizer, transport: seq<Arrival>, run: seq<Event>)
    ensures var r := Init(memory, transport);
            Conserved(OutBookOf(r, run), After(r, run).client.outSteps)
  {
    hide Step, ReceiveAll, Conserved, BookedThrough;
    var r := Init(memory, transport);
    RestartConserves(0);
    if run != [] {
      var earlier, last := run[..|run| - 1], run[|run| - 1];
      NothingLeavesUnacknowledged(memory, transport, earlier);
      var before := After(r, earlier);
      StepOut(before, last);
      if !StartsOver(last) && Listens(before, last) {
        ReceiveConserves(OutBookOf(r, earlier), Deliver(before, last.arrivals).client);
      } else if last.WriteStepEvent? {
        AppendConserves(OutBookOf(r, earlier), before.client.outSteps, last.payload);
      }
    }
  }

  // ---------------------------------------------------------------- the read id

  /** The next arrival restarts the outgoing buffer. */
  predicate RestartsOut(c: Client)
    requires c.inbox != []
  {
    c.inbox[0].Incoming? && (OffersDownload(c, c.inbox[0].datagram) || Enters(c))
  }

  /** Whether the receive loop restarts the outgoing buffer. */
  predicate LoopRestartsOut(c: Client)
    decreases |c.inbox|
  {
    c.inbox != [] &&
    (TakeNextPops(c);
     RestartsOut(c) || (TakeNext(c).result >= 0 && LoopRestartsOut(TakeNext(c).client)))
  }

  lemma {:induction false} LoopReadsOn(c: Client)
    ensures LoopRestartsOut(c) || c.outSteps.first <= ReceiveAll(c).client.outSteps.first
    decreases |c.inbox|
  {
    hide TakeNext, Enters, OffersDownload, DiscardUpTo;
    if c.inbox != [] {
      TakeNextPops(c);
      TakeNextOut(c);
      if TakeNext(c).result >= 0 {
        LoopReadsOn(TakeNext(c).client);
      }
    }
  }

  predicate OutRestarts(r: Realizer, e: Event) {
    StartsOver(e) || (Listens(r, e) && LoopRestartsOut(Deliver(r, e.arrivals).client))
  }

  lemma StepReadsOn(r: Realizer, e: Event)
    ensures OutRestarts(r, e) || r.client.outSteps.first <= Step(r, e).realizer.client.outSteps.first
  {
    hide Step, ReceiveAll, LoopRestartsOut;
    StepOut(r, e);
    if Listens(r, e) {
      LoopReadsOn(Deliver(r, e.arrivals).client);
    }
  }

  /** Over any part of a run without a restart, the read id of the outgoing buffer never goes back. */
  lemma {:induction false} ReadIdNeverGoesBack(r: Realizer, run: seq<Event>)
    requires forall i :: 0 <= i < |run| ==> !OutRestarts(After(r, run[..i]), run[i])
    ensures r.client.outSteps.first <= After(r, run).client.outSteps.first
  {
    hide Step, OutRestarts;
    if run != [] {
      var n := |run| - 1;
      var earlier := run[..n];
      forall i | 0 <= i < n
        ensures !OutRestarts(After(r, earlier[..i]), earlier[i])
      {
        assert run[..i] == earlier[..i] && run[i] == earlier[i];
      }
      ReadIdNeverGoesBack(r, earlier);
      StepReadsOn(After(r, earlier), run[n]);
    }
  }
}
