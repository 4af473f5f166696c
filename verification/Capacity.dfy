/** The step buffers: filled as far as they go, and never beyond. */
module Capacity {
  import opened Wrappers
  import opened ConnectionQuality
  import opened StepBuffers
  import opened ClientModel
  import opened RealizerModel
  import opened Handshake
  import opened Delivery
  import opened HeldChannel

  /** An accepted step response leaves nothing behind that is ready, unless the buffer is full. */
  lemma ResponseHandsOverAll(c: Client, acknowledged: uint32, received: Received)
    requires Aligned(c.authoritative, c.pending)
    ensures var c' := OnGameStepResponse(c, acknowledged, Parsed(received)).client;
            c'.pending.next !in c'.pending.slots || c.stepCapacity <= |c'.authoritative.items|
  {
    hide CopyReady, Insert, DiscardUpTo;
    InsertKeeps(c.authoritative, c.pending, received);
    CopyIsMaximal(c.authoritative, Insert(c.pending, received), c.stepCapacity);
  }

  /** Both buffers of steps hold at most what they have room for. */
  predicate WithinCapacity(c: Client) {
    && |c.authoritative.items| <= c.stepCapacity && |c.outSteps.items| <= c.stepCapacity
    && Aligned(c.authoritative, c.pending)
  }

  lemma DispatchFits(c: Client, m: Message)
    requires WithinCapacity(c)
    ensures WithinCapacity(Dispatch(c, m).client) && Dispatch(c, m).client.stepCapacity == c.stepCapacity
  {
    hide CopyReady, DiscardUpTo, Insert, Seated;
    DispatchBuffers(c, m);
    if m.GameStepResponse? && m.steps.Parsed? {
      InsertKeeps(c.authoritative, c.pending, m.steps.value);
      CopyIsMaximal(c.authoritative, Insert(c.pending, m.steps.value), c.stepCapacity);
    }
  }

  lemma TakeNextFits(c: Client)
    requires c.inbox != [] && WithinCapacity(c)
    ensures WithinCapacity(TakeNext(c).client) && TakeNext(c).client.stepCapacity == c.stepCapacity
  {
    hide Dispatch, DroppedPackets, Aligned;
    if c.inbox[0].Incoming? {
      var d := c.inbox[0].datagram;
      var c1 := RecordDrops(c.(inbox := c.inbox[1..], orderedIn := Some(d.id)), ForwardDistance(c.orderedIn, d.id) - 1);
      if d.pong.Parsed? {
        DispatchFits(c1.(quality := LatencySampled(c1.quality, d.pong.value)), d.message);
      }
    }
  }

  lemma {:induction false} ReceiveFits(c: Client)
    requires WithinCapacity(c)
    ensures WithinCapacity(ReceiveAll(c).client) && ReceiveAll(c).client.stepCapacity == c.stepCapacity
    decreases |c.inbox|
  {
    hide TakeNext, WithinCapacity;
    if c.inbox != [] {
      TakeNextPops(c);
      TakeNextFits(c);
      ReceiveFits(TakeNext(c).client);
    }
  }

  lemma UpdatedFits(c: Client, s: Surroundings)
    requires WithinCapacity(c)
    ensures WithinCapacity(Updated(c, s).client) && Updated(c, s).client.stepCapacity == c.stepCapacity
  {
    hide ReceiveAll, HandleState, Rating, Aligned;
    ReceiveFits(c);
    SendingTouches(JudgeQuality(ReceiveAll(c).client), s);
  }

  lemma StepFits(r: Realizer, e: Event)
    requires WithinCapacity(r.client) || StartsOver(e)
    ensures var c := Step(r, e).realizer.client; WithinCapacity(c) && c.stepCapacity == r.client.stepCapacity
  {
    hide Updated;
    if Listens(r, e) {
      UpdatedFits(Deliver(r, e.arrivals).client, e.surroundings);
    }
  }

  /** Whatever the server sends and the application writes, neither buffer ever holds more than it has room for. */
  lemma {:induction false} BuffersStayWithinCapacity(memory: Realizer, transport: seq<Arrival>, run: seq<Event>)
    ensures var c := After(Init(memory, transport), run).client;
            WithinCapacity(c) && c.stepCapacity == memory.client.stepCapacity
  {
    hide Step, WithinCapacity;
    if run == [] {
      StepFits(memory, InitEvent(transport));
      StepOfInit(memory, transport);
    } else {
      BuffersStayWithinCapacity(memory, transport, run[..|run| - 1]);
      StepFits(After(Init(memory, transport), run[..|run| - 1]), run[|run| - 1]);
    }
  }

  lemma StepOfInit(memory: Realizer, transport: seq<Arrival>)
    ensures Step(memory, InitEvent(transport)).realizer == Init(memory, transport)
  {
  }
}
