/** The exact time until a client gives up on its server, and the updates that do not count. */
module GivingUp {
  import opened Wrappers
  import opened ConnectionQuality
  import opened ClientModel
  import opened RealizerModel
  import opened Coupling
  import opened Handshake
  import opened Detector
  import opened OngoingRuns
  import opened ReceiveLoop

  // ---------------------------------------------------------------- the exact time to disconnect

  /** Good evaluations still to come when no step arrives any more. */
  function Grace(stepSilence: nat): nat {
    if stepSilence < MAX_TICKS_WITHOUT_STEPS then MAX_TICKS_WITHOUT_STEPS - stepSilence else 0
  }

  function Sub(a: nat, b: nat): nat {
    if a > b then a - b else 0
  }

  /** The number of updates after which a client that hears of no step gives up. */
  function TicksLeft(q: Quality): nat
    requires q.considering <= PATIENCE
  {
    Grace(q.stepSilence) + PATIENCE + 1 - Sub(q.considering, Grace(q.stepSilence))
  }

  /** The considering counter after `n` updates without steps. */
  function Brooding(q: Quality, n: nat): nat {
    var grace := Grace(q.stepSilence);
    if n <= grace then Sub(q.considering, n) else Sub(q.considering, grace) + n - grace
  }

  /** The receive phase succeeds, the client stays in the game, and no step response is accepted. */
  predicate HearsNoStep(c: Client) {
    var received := ReceiveAll(c);
    && received.result >= 0 && received.client.state.Synced?
    && received.client.quality.stepSilence == c.quality.stepSilence
  }

  /** For as long as the client is in the game, its updates hear of no step. */
  predicate Starves(r: Realizer, run: seq<Event>) {
    forall i :: 0 <= i < |run| && run[i].UpdateEvent? && After(r, run[..i]).client.state.Synced? ==>
      HearsNoStep(Deliver(After(r, run[..i]), run[i].arrivals).client)
  }

  /** Nothing is delivered at all. */
  predicate Silence(r: Realizer, run: seq<Event>) {
    r.client.inbox == [] && forall i :: 0 <= i < |run| && run[i].UpdateEvent? ==> run[i].arrivals == []
  }

  /** A realizer in the game, as far as its invariants go. */
  predicate Playing(r: Realizer) {
    Coupled(ShapeOf(r)) && r.client.state.Synced? && Patient(r.client)
  }

  lemma StarvingUpdated(c: Client, s: Surroundings)
    requires c.state.Synced? && Patient(c) && HearsNoStep(c)
    ensures var c', q, bad := Updated(c, s).client, c.quality, c.quality.stepSilence + 1 > MAX_TICKS_WITHOUT_STEPS;
            && Patient(c')
            && c'.quality.stepSilence == q.stepSilence + 1
            && c'.quality.considering == (if bad then q.considering + 1 else Sub(q.considering, 1))
            && (if bad && q.considering == PATIENCE then c'.state.Disconnected? else c'.state.Synced?)
  {
    hide ReceiveAll, HandleState, Rating;
    ReceiveKeepsJudgement(c);
    var judged := JudgeQuality(ReceiveAll(c).client);
    SendingKeepsQuality(judged, s);
    SendingStays(judged, s);
  }

  lemma StarvingStep(r: Realizer, e: Event)
    requires Playing(r) && e.UpdateEvent? && HearsNoStep(Deliver(r, e.arrivals).client)
    ensures var c', q := Step(r, e).realizer.client, r.client.quality;
            var bad := q.stepSilence + 1 > MAX_TICKS_WITHOUT_STEPS;
            && Patient(c') && Coupled(ShapeOf(Step(r, e).realizer))
            && c'.quality.stepSilence == q.stepSilence + 1
            && c'.quality.considering == (if bad then q.considering + 1 else Sub(q.considering, 1))
            && (if bad && q.considering == PATIENCE then c'.state.Disconnected? else c'.state.Synced?)
            && c' == Updated(Deliver(r, e.arrivals).client, e.surroundings).client
  {
    hide Step, Updated, HearsNoStep;
    StarvingUpdated(Deliver(r, e.arrivals).client, e.surroundings);
    UpdateOfClient(r, e);
    StepKeepsCoupled(r, e);
  }

  lemma GoneStays(r: Realizer, e: Event)
    requires r.client.state.Disconnected? && Continues(e)
    ensures Step(r, e).realizer.client.state.Disconnected?
  {
  }

  lemma PatienceBound(c: Client)
    requires Patient(c) && !c.state.Disconnected?
    ensures c.quality.considering <= PATIENCE
  {
  }

  lemma StarvesBefore(r: Realizer, run: seq<Event>)
    requires run != [] && Ongoing(run) && Starves(r, run)
    ensures Ongoing(run[..|run| - 1]) && Starves(r, run[..|run| - 1])
  {
    hide HearsNoStep, After;
    var earlier := run[..|run| - 1];
    forall i | 0 <= i < |earlier|
      ensures run[..i] == earlier[..i] && run[i] == earlier[i]
    {
    }
  }

  /** In the game after n updates that heard of no step. */
  predicate StillPlaying(q: Quality, n: nat, r: Realizer) {
    Playing(r) && r.client.quality.stepSilence == q.stepSilence + n && r.client.quality.considering == Brooding(q, n)
  }

  /**
   * A synced client that hears of no step disconnects in exactly the update TicksLeft, no earlier and no later,
   * whatever else it receives and whatever the application does in between; with a fresh detector that is
   * update 76.
   */
  lemma {:induction false} TimeToDisconnect(r: Realizer, run: seq<Event>)
    requires Playing(r) && Ongoing(run) && Starves(r, run)
    ensures r.client.quality.considering <= PATIENCE
    ensures if Updates(run) < TicksLeft(r.client.quality) then
              StillPlaying(r.client.quality, Updates(run), After(r, run))
            else After(r, run).client.state.Disconnected?
    ensures r.client.quality.stepSilence == r.client.quality.considering == 0 ==> TicksLeft(r.client.quality) == 76
  {
    hide Step, HearsNoStep, Patient, Starves, Coupled, Continues;
    PatienceBound(r.client);
    if run != [] {
      var earlier, last := run[..|run| - 1], run[|run| - 1];
      StarvesBefore(r, run);
      TimeToDisconnect(r, earlier);
      StarvesNow(r, run);
      if Updates(earlier) >= TicksLeft(r.client.quality) {
        GoneStays(After(r, earlier), last);
      } else if last.UpdateEvent? {
        StarvingStep(After(r, earlier), last);
      } else {
        PlaysOn(After(r, earlier), last);
      }
    }
  }

  lemma StarvesNow(r: Realizer, run: seq<Event>)
    requires run != [] && Ongoing(run) && Starves(r, run)
    ensures var before, last := After(r, run[..|run| - 1]), run[|run| - 1];
            && Continues(last)
            && (last.UpdateEvent? && before.client.state.Synced? ==> HearsNoStep(Deliver(before, last.arrivals).client))
  {
    hide HearsNoStep, After;
  }

  lemma PlaysOn(r: Realizer, e: Event)
    requires Playing(r) && Continues(e) && !e.UpdateEvent?
    ensures Playing(Step(r, e).realizer) && Step(r, e).realizer.client.quality == r.client.quality
  {
    hide Step;
    BetweenUpdates(r, e);
    StepKeepsCoupled(r, e);
  }

  // ---------------------------------------------------------------- the reason it records

  lemma SendingKeepsInbox(c: Client, s: Surroundings)
    ensures HandleState(c, s).client.inbox == c.inbox
  {
  }

  lemma SilentUpdated(c: Client, s: Surroundings)
    requires c.state.Synced? && Patient(c) && c.inbox == []
    ensures HearsNoStep(c)
    ensures var c', aged := Updated(c, s).client, Aged(c.quality);
            && c'.inbox == [] && c'.quality.datagramSilence == aged.datagramSilence
            && c'.quality.reason ==
               if !Verdict(aged).KeepConnection?
                 && c.quality.considering == PATIENCE then Verdict(aged) else KeepConnection
  {
    hide HandleState, Rating;
    var judged := JudgeQuality(c);
    SendingKeepsQuality(judged, s);
    SendingKeepsInbox(judged, s);
  }

  lemma SilentStep(r: Realizer, e: Event)
    requires Playing(r) && r.client.inbox == [] && e.UpdateEvent? && e.arrivals == []
    ensures HearsNoStep(Deliver(r, e.arrivals).client)
    ensures var c', aged := Step(r, e).realizer.client, Aged(r.client.quality);
            && c'.inbox == [] && c'.quality.datagramSilence == aged.datagramSilence
            && c'.quality.reason ==
               if !Verdict(aged).KeepConnection?
                 && r.client.quality.considering == PATIENCE then Verdict(aged) else KeepConnection
  {
    hide Step, Updated, HearsNoStep;
    assert r.client.inbox + e.arrivals == [];
    SilentUpdated(r.client, e.surroundings);
    StarvingStep(r, e);
  }

  lemma {:induction false} SilenceStarves(r: Realizer, run: seq<Event>)
    requires Playing(r) && Ongoing(run) && Silence(r, run) && Updates(run) < TicksLeft(r.client.quality)
    ensures Starves(r, run)
    ensures var r' := After(r, run);
            && StillPlaying(r.client.quality, Updates(run), r') && r'.client.inbox == []
            && r'.client.quality.datagramSilence == r.client.quality.datagramSilence + Updates(run)
  {
    hide Step, HearsNoStep, Patient, Coupled, Continues;
    PatienceBound(r.client);
    if run != [] {
      var n := |run| - 1;
      var earlier, last := run[..n], run[n];
      SilenceStarves(r, earlier);
      assert Continues(last);
      if last.UpdateEvent? {
        SilentStep(After(r, earlier), last);
      } else {
        BetweenUpdates(After(r, earlier), last);
      }
      StarvesOneMore(r, run);
      TimeToDisconnect(r, run);
    }
  }

  lemma StarvesOneMore(r: Realizer, run: seq<Event>)
    requires run != [] && Starves(r, run[..|run| - 1])
    requires var before, last := After(r, run[..|run| - 1]), run[|run| - 1];
             last.UpdateEvent? && before.client.state.Synced? ==> HearsNoStep(Deliver(before, last.arrivals).client)
    ensures Starves(r, run)
  {
    hide HearsNoStep, After;
    var earlier := run[..|run| - 1];
    forall i | 0 <= i < |run| && run[i].UpdateEvent? && After(r, run[..i]).client.state.Synced?
      ensures HearsNoStep(Deliver(After(r, run[..i]), run[i].arrivals).client)
    {
      if i < |earlier| {
        assert run[..i] == earlier[..i] && run[i] == earlier[i];
      }
    }
  }

  /**
   * Under total silence the client still gives up in update TicksLeft; the reason it records is the missing
   * datagrams exactly when they have been missing for 40 updates by then, as from a fresh start they have.
   */
  lemma ReasonUnderSilence(r: Realizer, run: seq<Event>, e: Event)
    requires Playing(r) && Ongoing(run) && Silence(r, run) && e.UpdateEvent? && e.arrivals == []
    requires Updates(run) + 1 == TicksLeft(r.client.quality)
    ensures var c' := After(r, run + [e]).client;
            && c'.state.Disconnected?
            && c'.quality.reason ==
               if r.client.quality.datagramSilence + TicksLeft(r.client.quality) >= 40 then NotReceivingDatagrams
                 else NotReceivingSteps
  {
    hide Step, HearsNoStep, After, Coupled, Starves;
    SilenceStarves(r, run);
    AfterExtends(r, run, e);
    SilentStep(After(r, run), e);
    StarvingStep(After(r, run), e);
  }

  // ---------------------------------------------------------------- updates that do not count

  /** Whenever the client listens, some arrival spoils its receive phase. */
  predicate SpoiledThroughout(r: Realizer, run: seq<Event>) {
    forall i :: 0 <= i < |run| && Listens(After(r, run[..i]), run[i]) ==>
      Spoiled(Deliver(After(r, run[..i]), run[i].arrivals).client)
  }

  /** An update whose receive phase fails is frozen there: nothing is judged, waited or sent. */
  lemma FailedUpdate(c: Client, s: Surroundings)
    requires Spoiled(c)
    ensures var sent := Updated(c, s);
            && sent.rounds == [] && sent.client == ReceiveAll(c).client && sent.result == ReceiveAll(c).result < 0
            && sent.client.quality.considering == c.quality.considering
            && sent.client.quality.reason == c.quality.reason
            && (!c.state.Disconnected? ==> !sent.client.state.Disconnected?)
  {
    hide ReceiveAll, Spoiled;
    LoopFailsWhenSpoiled(c);
    ReceiveKeepsJudgement(c);
    ReceiveMoves(c);
  }

  /** What a client that is not heard keeps. */
  predicate Lingers(c: Client, r: Realizer, rounds: seq<Round>) {
    !r.client.state.Disconnected? && r.client.quality.considering == c.quality.considering && rounds == []
  }

  lemma SpoiledStep(r: Realizer, e: Event)
    requires !r.client.state.Disconnected? && Continues(e)
    requires Listens(r, e) ==> Spoiled(Deliver(r, e.arrivals).client)
    ensures Lingers(r.client, Step(r, e).realizer, Step(r, e).rounds)
  {
    hide Updated, Spoiled;
    if Listens(r, e) {
      FailedUpdate(Deliver(r, e.arrivals).client, e.surroundings);
    }
  }

  /**
   * A client none of whose receive phases succeeds never gives up and never sends, however long it lasts:
   * one late, unreadable or failed arrival per update keeps it in the game without any contact.
   */
  lemma {:induction false} FailuresNeverGiveUp(r: Realizer, run: seq<Event>)
    requires !r.client.state.Disconnected? && Ongoing(run) && SpoiledThroughout(r, run)
    ensures Lingers(r.client, After(r, run), RoundsOf(r, run))
  {
    hide Step, Spoiled;
    if run != [] {
      var n := |run| - 1;
      var earlier, last := run[..n], run[n];
      forall i | 0 <= i < n
        ensures run[..i] == earlier[..i] && run[i] == earlier[i]
      {
      }
      FailuresNeverGiveUp(r, earlier);
      SpoiledStep(After(r, earlier), last);
    }
  }

  // ---------------------------------------------------------------- replayed datagrams

  predicate AllLate(last: int, arrivals: seq<Arrival>) {
    forall i :: 0 <= i < |arrivals| ==> Late(last, arrivals[i])
  }

  /** A client that is only ever sent what it has seen before. */
  predicate Haunted(r: Realizer, last: int) {
    !r.client.state.Disconnected? && r.client.orderedIn == Some(last) && AllLate(last, r.client.inbox)
  }

  /** At least one old datagram per update, and nothing new. */
  predicate Replays(last: int, e: Event) {
    Continues(e) && (e.UpdateEvent? ==> e.arrivals != [] && AllLate(last, e.arrivals))
  }

  lemma HauntedStep(r: Realizer, e: Event, last: int)
    requires Haunted(r, last) && Replays(last, e)
    ensures Haunted(Step(r, e).realizer, last)
    ensures Listens(r, e) ==> Spoiled(Deliver(r, e.arrivals).client)
  {
    hide Updated, Spoiled, AllLate;
    if e.UpdateEvent? {
      var c := Deliver(r, e.arrivals).client;
      LateQueue(last, r.client.inbox, e.arrivals);
      if Listens(r, e) {
        LateDatagramFreezes(c, e.surroundings);
      }
    }
  }

  lemma LateQueue(last: int, queue: seq<Arrival>, more: seq<Arrival>)
    requires AllLate(last, queue) && AllLate(last, more) && more != []
    ensures AllLate(last, queue + more) && AllLate(last, (queue + more)[1..]) && Late(last, (queue + more)[0])
  {
  }

  lemma {:induction false} ReplaysHaunt(r: Realizer, run: seq<Event>, last: int)
    requires Haunted(r, last) && forall i :: 0 <= i < |run| ==> Replays(last, run[i])
    ensures Haunted(After(r, run), last) && SpoiledThroughout(r, run)
  {
    hide Step, Spoiled, Replays, Haunted;
    if run != [] {
      var n := |run| - 1;
      var earlier := run[..n];
      ReplaysHaunt(r, earlier, last);
      HauntedStep(After(r, earlier), run[n], last);
      forall i | 0 <= i < |run| && Listens(After(r, run[..i]), run[i])
        ensures Spoiled(Deliver(After(r, run[..i]), run[i].arrivals).client)
      {
        if i < n {
          assert run[..i] == earlier[..i] && run[i] == earlier[i];
        }
      }
    }
  }

  /** Replaying one old datagram per update keeps a client from ever giving up, whatever its silence counters say. */
  lemma ReplaysKeepTheClient(r: Realizer, run: seq<Event>, last: int)
    requires Haunted(r, last) && forall i :: 0 <= i < |run| ==> Replays(last, run[i])
    ensures Lingers(r.client, After(r, run), RoundsOf(r, run))
  {
    hide Step, SpoiledThroughout;
    ReplaysHaunt(r, run, last);
    FailuresNeverGiveUp(r, run);
  }
}
