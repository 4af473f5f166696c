/** Which download response the game a client is in comes from. */
module SessionOrigin {
  import opened Wrappers
  import opened ConnectionQuality
  import opened StepBuffers
  import opened ClientModel
  import opened RealizerModel
  import opened Handshake
  import opened Delivery
  import opened HeldChannel

  // ---------------------------------------------------------------- the base of the game

  /** The base of a client in the game is the state id it holds. */
  predicate Rooted(c: Client, base: nat) {
    c.state.Synced? ==> base == c.joinStateId == c.joinedGameState.stepId
  }

  lemma DispatchRoots(c: Client, m: Message, base: nat)
    requires Rooted(c, base)
    ensures var c' := Dispatch(c, m).client;
            Rooted(c', if !c.state.Synced? && c'.state.Synced? then c.joinStateId else base)
  {
    hide CopyReady, DiscardUpTo, Insert, Seated;
  }

  lemma TakeNextRoots(c: Client, base: nat)
    requires c.inbox != [] && Rooted(c, base)
    ensures Rooted(TakeNext(c).client, if Enters(c) then c.joinStateId else base)
  {
    hide Dispatch, DroppedPackets;
    if c.inbox[0].Incoming? {
      var d := c.inbox[0].datagram;
      var c1 := RecordDrops(c.(inbox := c.inbox[1..], orderedIn := Some(d.id)), ForwardDistance(c.orderedIn, d.id) - 1);
      if d.pong.Parsed? {
        DispatchRoots(c1.(quality := LatencySampled(c1.quality, d.pong.value)), d.message, base);
      }
    }
  }

  lemma {:induction false} ReceiveRoots(c: Client, base: nat)
    requires Rooted(c, base)
    ensures Rooted(ReceiveAll(c).client, BaseAfter(base, c))
    decreases |c.inbox|
  {
    hide TakeNext, Enters, Rooted;
    if c.inbox != [] {
      TakeNextPops(c);
      TakeNextRoots(c, base);
      if TakeNext(c).result >= 0 {
        ReceiveRoots(TakeNext(c).client, if Enters(c) then c.joinStateId else base);
      }
    }
  }

  lemma UpdatedRoots(c: Client, s: Surroundings, base: nat)
    requires Rooted(c, base)
    ensures Rooted(Updated(c, s).client, BaseAfter(base, c))
  {
    hide ReceiveAll, HandleState, Rating, BaseAfter;
    ReceiveRoots(c, base);
    SendingTouches(JudgeQuality(ReceiveAll(c).client), s);
  }

  lemma StepRoots(r: Realizer, e: Event, base: nat)
    requires Rooted(r.client, base)
    ensures Rooted(Step(r, e).realizer.client,
                   if StartsOver(e) then 0
                   else if Listens(r, e) then BaseAfter(base, Deliver(r, e.arrivals).client) else base)
  {
    hide Updated, BaseAfter;
    if Listens(r, e) {
      UpdatedRoots(Deliver(r, e.arrivals).client, e.surroundings, base);
    }
  }

  lemma {:induction false} AlwaysRooted(memory: Realizer, transport: seq<Arrival>, run: seq<Event>)
    ensures var r := Init(memory, transport); Rooted(After(r, run).client, BaseOf(r, run))
  {
    hide Step, BaseAfter;
    var r := Init(memory, transport);
    if run != [] {
      var earlier := run[..|run| - 1];
      AlwaysRooted(memory, transport, earlier);
      StepRoots(After(r, earlier), run[|run| - 1], BaseOf(r, earlier));
    }
  }

  // ---------------------------------------------------------------- whose offer it was

  predicate NoStartAfter(run: seq<Event>, i: nat) {
    forall j :: i < j < |run| ==> !StartsOver(run[j])
  }

  /** A download response has been accepted since the last fresh start. */
  predicate OfferSinceStart(r: Realizer, run: seq<Event>) {
    exists i :: 0 <= i < |run| && AcceptsOffer(After(r, run[..i]), run[i]) && NoStartAfter(run, i)
  }

  function OfferNext(offer: Option<nat>, c: Client): Option<nat>
    requires c.inbox != []
  {
    if c.inbox[0].Incoming? && OffersDownload(c, c.inbox[0].datagram) then
      Some(c.inbox[0].datagram.message.reply.value.stateId)
    else offer
  }

  /** The state id of the last download response accepted in the session, one receive loop later. */
  function OfferAfter(offer: Option<nat>, c: Client): Option<nat>
    decreases |c.inbox|
  {
    if c.inbox == [] then offer
    else
      TakeNextPops(c);
      if TakeNext(c).result < 0 then OfferNext(offer, c) else OfferAfter(OfferNext(offer, c), TakeNext(c).client)
  }

  /** The state id of the last download response accepted since the last fresh start. */
  function SessionOffer(r: Realizer, run: seq<Event>): Option<nat> {
    if run == [] then None
    else
      var earlier, last := run[..|run| - 1], run[|run| - 1];
      if StartsOver(last) then None
      else if Listens(After(r, earlier), last) then
        OfferAfter(SessionOffer(r, earlier), Deliver(After(r, earlier), last.arrivals).client)
      else SessionOffer(r, earlier)
  }

  lemma {:induction false} LoopOffer(offer: Option<nat>, held: Held, c: Client)
    requires offer.Some? ==> offer.value == held.stateId
    ensures OfferAfter(offer, c).Some? <==> offer.Some? || LoopAcceptsOffer(c)
    ensures OfferAfter(offer, c).Some? ==> OfferAfter(offer, c).value == HeldAfter(held, c).stateId
    decreases |c.inbox|
  {
    hide TakeNext, Handled, TakesSeat;
    if c.inbox != [] {
      TakeNextPops(c);
      if TakeNext(c).result >= 0 {
        LoopOffer(OfferNext(offer, c), HeldNext(held, c), TakeNext(c).client);
      }
    }
  }

  lemma {:induction false} SessionOfferIsHeld(r: Realizer, run: seq<Event>)
    ensures SessionOffer(r, run).Some? <==> OfferSinceStart(r, run)
    ensures SessionOffer(r, run).Some? ==> SessionOffer(r, run).value == HeldOf(r, run).stateId
  {
    hide After, OfferAfter, HeldAfter, LoopAcceptsOffer, OfferSinceStart;
    if run == [] {
      NoOfferYet(r);
    } else {
      var earlier, last := run[..|run| - 1], run[|run| - 1];
      SessionOfferIsHeld(r, earlier);
      OfferSinceStartBefore(r, run);
      if Listens(After(r, earlier), last) {
        LoopOffer(SessionOffer(r, earlier), HeldOf(r, earlier), Deliver(After(r, earlier), last.arrivals).client);
      }
    }
  }

  lemma NoOfferYet(r: Realizer)
    ensures !OfferSinceStart(r, [])
  {
  }

  /** The events up to and including the last fresh start. */
  function UpToStart(run: seq<Event>): seq<Event> {
    if run == [] || StartsOver(run[|run| - 1]) then run else UpToStart(run[..|run| - 1])
  }

  lemma OfferSinceStartBefore(r: Realizer, run: seq<Event>)
    requires run != []
    ensures var earlier, last := run[..|run| - 1], run[|run| - 1];
            OfferSinceStart(r, run) <==>
              !StartsOver(last) && (OfferSinceStart(r, earlier) || AcceptsOffer(After(r, earlier), last))
  {
    hide After, LoopAcceptsOffer;
    var n := |run| - 1;
    var earlier := run[..n];
    forall i | 0 <= i < n
      ensures run[..i] == earlier[..i] && run[i] == earlier[i]
      ensures NoStartAfter(run, i) <==> NoStartAfter(earlier, i) && !StartsOver(run[n])
    {
      assert NoStartAfter(run, i) ==> !StartsOver(run[n]);
      assert forall j :: i < j < n ==> run[j] == earlier[j];
    }
    if AcceptsOffer(After(r, earlier), run[n]) {
      assert NoStartAfter(run, n) && !StartsOver(run[n]);
      assert OfferSinceStart(r, run);
    }
  }

  /** Without an offer of its own a session holds the state id that was held when it started over. */
  lemma {:induction false} HoldsWhatWasLeft(r: Realizer, run: seq<Event>)
    requires !OfferSinceStart(r, run)
    ensures HeldOf(r, run).stateId == HeldOf(r, UpToStart(run)).stateId
  {
    hide After, AcceptsOffer, HeldAfter;
    if run != [] && !StartsOver(run[|run| - 1]) {
      var earlier, last := run[..|run| - 1], run[|run| - 1];
      OfferSinceStartBefore(r, run);
      HoldsWhatWasLeft(r, earlier);
      NothingOffered(r, earlier, last);
    }
  }

  lemma NothingOffered(r: Realizer, earlier: seq<Event>, e: Event)
    requires !AcceptsOffer(After(r, earlier), e)
    ensures HeldOf(r, earlier + [e]).stateId == HeldOf(r, earlier).stateId
  {
    hide Step, AcceptsOffer, AcceptsSeat;
    assert (earlier + [e])[..|earlier|] == earlier;
    AfterExtends(r, earlier, e);
    LastOfferIsHeld(r, earlier);
    LastOfferIsHeld(r, earlier + [e]);
    StepWithoutOffer(After(r, earlier), e);
  }

  /**
   * A client in the game plays from the state id of the last download response it has accepted. That response
   * belongs to the current session if and only if one has been accepted since the last fresh start; if none has,
   * the game is entered at the state id that was left over when the session began.
   */
  lemma GameComesFromLastOffer(memory: Realizer, transport: seq<Arrival>, run: seq<Event>)
    requires After(Init(memory, transport), run).client.state.Synced?
    ensures var r := Init(memory, transport);
            var base, offer := BaseOf(r, run), SessionOffer(r, run);
            && base == After(r, run).client.joinedGameState.stepId == HeldOf(r, run).stateId
            && (offer.Some? <==> OfferSinceStart(r, run))
            && base == if offer.Some? then offer.value else After(r, UpToStart(run)).client.joinStateId
  {
    hide After, BaseOf, HeldOf, SessionOffer, OfferSinceStart;
    var r := Init(memory, transport);
    AlwaysRooted(memory, transport, run);
    LastOfferIsHeld(r, run);
    SessionOfferIsHeld(r, run);
    LastOfferIsHeld(r, UpToStart(run));
    if !OfferSinceStart(r, run) {
      HoldsWhatWasLeft(r, run);
    }
  }
}
