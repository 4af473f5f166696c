/** The receive loop as a fold over the transport queue. */
module ReceiveLoop {
  import opened Wrappers
  import opened ConnectionQuality
  import opened StepBuffers
  import opened ClientModel

  /** The client after `k` arrivals have been taken one by one, whether or not they failed. */
  function Taken(c: Client, k: nat): (r: Client)
    requires k <= |c.inbox|
    ensures r.inbox == c.inbox[k..]
  {
    if k == 0 then c
    else
      TakeNextPops(Taken(c, k - 1));
      TakeNext(Taken(c, k - 1)).client
  }

  /** None of the first `k` arrivals fails. */
  predicate Succeeds(c: Client, k: nat)
    requires k <= |c.inbox|
  {
    forall i :: 0 <= i < k ==> TakeNext(Taken(c, i)).result >= 0
  }

  lemma {:induction false} TakenAfterFirst(c: Client, k: nat)
    requires 0 < k <= |c.inbox|
    ensures TakeNext(c).client.inbox == c.inbox[1..]
    ensures Taken(c, k) == Taken(TakeNext(c).client, k - 1)
  {
    hide TakeNext;
    TakeNextPops(c);
    if k > 1 {
      TakenAfterFirst(c, k - 1);
    }
  }

  /**
   * The loop takes arrivals up to and including the first that fails, leaves the rest in the transport, and
   * reports that failure; if none fails it empties the transport and reports how many it took.
   */
  lemma {:induction false} LoopIsFold(c: Client) returns (k: nat)
    ensures k <= |c.inbox| && Succeeds(c, k)
    ensures k == |c.inbox| ==> ReceiveAll(c) == Outcome(Taken(c, k), k)
    ensures k < |c.inbox| ==>
              && TakeNext(Taken(c, k)).result < 0
              && ReceiveAll(c) == Outcome(Taken(c, k + 1), TakeNext(Taken(c, k)).result)
              && ReceiveAll(c).client.inbox == c.inbox[k + 1..]
    decreases |c.inbox|
  {
    hide TakeNext;
    k := 0;
    if c.inbox != [] {
      TakeNextPops(c);
      if TakeNext(c).result >= 0 {
        var after := TakeNext(c).client;
        var j := LoopIsFold(after);
        k := j + 1;
        forall i | 0 <= i < k
          ensures TakeNext(Taken(c, i)).result >= 0
        {
          if i > 0 {
            TakenAfterFirst(c, i);
          }
        }
        TakenAfterFirst(c, k);
        ZeroOrMore(after);
        if k < |c.inbox| {
          TakenAfterFirst(c, k + 1);
        }
      }
    }
  }

  /** A success is reported as a count. */
  lemma {:induction false} ZeroOrMore(c: Client)
    ensures ReceiveAll(c).result <= |c.inbox|
    decreases |c.inbox|
  {
    hide TakeNext;
    if c.inbox != [] {
      TakeNextPops(c);
      ZeroOrMore(TakeNext(c).client);
    }
  }

  // ---------------------------------------------------------------- what makes the loop fail

  /** A message that ends in an error: an unknown command, or a parse failure in a part the client reads. */
  predicate Unreadable(c: Client, m: Message) {
    match m
    case ConnectResponse(connect) => connect.Malformed?
    case GameStatePart(channel, progress) => channel == c.joinStateChannel && progress.Malformed?
    case GameStepResponse(_, steps) => steps.Malformed?
    case JoinGameResponse(join) => join.Malformed?
    case GameStateResponse(reply) => reply.Malformed?
    case OutOfSlotsResponse(nonce) => nonce.Malformed?
    case UnknownCommand => true
  }

  /** An arrival that spoils the receive phase for the client it meets. */
  predicate Spoils(c: Client, a: Arrival) {
    match a
    case TransportError(_) => true
    case Incoming(d) =>
      !c.state.Disconnected? && (!PassesOrder(c, d) || d.pong.Malformed? || Unreadable(c, d.message))
  }

  lemma UnreadableFails(c: Client, m: Message)
    ensures Dispatch(c, m).result < 0 <==> Unreadable(c, m)
  {
    hide CopyReady, DiscardUpTo, Insert, Seated;
  }

  lemma RoundFails(c: Client)
    requires c.inbox != []
    ensures TakeNext(c).result < 0 <==> Spoils(c, c.inbox[0])
  {
    hide Dispatch, DroppedPackets;
    if c.inbox[0].Incoming? {
      var d := c.inbox[0].datagram;
      var c1 := RecordDrops(c.(inbox := c.inbox[1..], orderedIn := Some(d.id)), ForwardDistance(c.orderedIn, d.id) - 1);
      if d.pong.Parsed? {
        UnreadableFails(c1.(quality := LatencySampled(c1.quality, d.pong.value)), d.message);
      }
    }
  }

  /** Some arrival spoils the receive phase of this client. */
  predicate Spoiled(c: Client) {
    exists k :: 0 <= k < |c.inbox| && Spoils(Taken(c, k), c.inbox[k])
  }

  /** The receive phase fails exactly if some arrival is late, unreadable or a transport error when its turn comes. */
  lemma LoopFailsWhenSpoiled(c: Client)
    ensures ReceiveAll(c).result < 0 <==> Spoiled(c)
  {
    hide TakeNext, Spoils;
    var k := LoopIsFold(c);
    forall i | 0 <= i < |c.inbox|
      ensures TakeNext(Taken(c, i)).result < 0 <==> Spoils(Taken(c, i), c.inbox[i])
    {
      RoundFails(Taken(c, i));
    }
    if k < |c.inbox| {
      assert Spoils(Taken(c, k), c.inbox[k]);
    }
  }

  /** A datagram seen before, or older than one seen before. */
  predicate Late(last: int, a: Arrival) {
    a.Incoming? && a.datagram.id <= last
  }

  /** A late datagram at the head of the queue ends the update there, with everything behind it still queued. */
  lemma LateDatagramFreezes(c: Client, s: Surroundings)
    requires c.inbox != [] && !c.state.Disconnected? && c.orderedIn.Some? && Late(c.orderedIn.value, c.inbox[0])
    ensures Spoiled(c) && Updated(c, s) == Sent(c.(inbox := c.inbox[1..]), [], ORDER_ERROR)
  {
    assert Spoils(Taken(c, 0), c.inbox[0]);
  }
}
