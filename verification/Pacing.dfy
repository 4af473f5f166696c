/** How often an unanswered request is repeated. */
module Pacing {
  import opened ConnectionQuality
  import opened StepBuffers
  import opened ClientModel
  import opened RealizerModel
  import opened Coupling
  import opened OngoingRuns

  predicate WaitInRange(c: Client) {
    0 <= c.waitTime <= RESEND_WAIT
  }

  // ---------------------------------------------------------------- the wait never leaves 0..4

  lemma TakeNextWaits(c: Client)
    requires c.inbox != []
    ensures TakeNext(c).client.waitTime == c.waitTime || TakeNext(c).client.waitTime == 0
  {
    hide CopyReady, DiscardUpTo, Insert, Seated;
  }

  lemma {:induction false} ReceiveWaits(c: Client)
    ensures ReceiveAll(c).client.waitTime == c.waitTime || ReceiveAll(c).client.waitTime == 0
    decreases |c.inbox|
  {
    hide TakeNext;
    if c.inbox != [] {
      TakeNextPops(c);
      TakeNextWaits(c);
      ReceiveWaits(TakeNext(c).client);
    }
  }

  lemma SendingWaits(c: Client, s: Surroundings)
    requires WaitInRange(c)
    ensures WaitInRange(HandleState(c, s).client)
  {
  }

  lemma UpdatedWaits(c: Client, s: Surroundings)
    requires WaitInRange(c)
    ensures WaitInRange(Updated(c, s).client)
  {
    hide ReceiveAll, HandleState, Rating;
    ReceiveWaits(c);
    SendingWaits(JudgeQuality(ReceiveAll(c).client), s);
  }

  lemma StepWaits(r: Realizer, e: Event)
    requires WaitInRange(r.client)
    ensures WaitInRange(Step(r, e).realizer.client)
  {
    hide Updated;
    if e.UpdateEvent? {
      UpdatedWaits(Deliver(r, e.arrivals).client, e.surroundings);
    }
  }

  /** From memory whose wait is in range (zeroed memory, in particular) the wait stays there for ever. */
  lemma {:induction false} WaitStaysInRange(memory: Realizer, transport: seq<Arrival>, run: seq<Event>)
    requires WaitInRange(memory.client)
    ensures WaitInRange(After(Init(memory, transport), run).client)
  {
    hide Step;
    if run == [] {
      StepWaits(memory, InitEvent(transport));
      InitIsStep(memory, transport);
    } else {
      WaitStaysInRange(memory, transport, run[..|run| - 1]);
      StepWaits(After(Init(memory, transport), run[..|run| - 1]), run[|run| - 1]);
    }
  }

  lemma InitIsStep(memory: Realizer, transport: seq<Arrival>)
    ensures Step(memory, InitEvent(transport)).realizer == Init(memory, transport)
  {
  }

  // ---------------------------------------------------------------- one request every five updates

  /** States in which the client repeats a request until it is answered. */
  predicate Requesting(c: Client) {
    c.state.RequestingConnect? || c.state.JoiningRequestingState? || (c.state.Synced? && c.phase.JoiningParticipant?)
  }

  /** The request of each of these states. */
  function RequestIn(state: ClientState): Content {
    match state
    case RequestingConnect => ConnectRequest
    case JoiningRequestingState => DownloadStateRequest
    case _ => JoinGameRequest
  }

  function RequestsIn(request: Content, rounds: seq<Round>): nat {
    if rounds == [] then 0
    else RequestsIn(request, rounds[..|rounds| - 1]) + if rounds[|rounds| - 1].content == request then 1 else 0
  }

  lemma RequestsOfOne(request: Content, a: Round)
    ensures RequestsIn(request, [a]) == if a.content == request then 1 else 0
  {
    assert [a][..0] == [];
  }

  lemma RequestsOfTwo(request: Content, a: Round, b: Round)
    ensures RequestsIn(request, [a, b]) == RequestsIn(request, [a]) + if b.content == request then 1 else 0
  {
    assert [a, b][..1] == [a];
  }

  /**
   * An update whose receive phase succeeds, in which nothing that arrives is an answer, and which leaves the
   * client requesting.
   */
  predicate Unanswered(r: Realizer, e: Event)
    requires e.UpdateEvent?
  {
    var c, received := r.client, ReceiveAll(Deliver(r, e.arrivals).client);
    && received.result >= 0
    && received.client.state == c.state && received.client.phase == c.phase && received.client.waitTime == c.waitTime
    && Step(r, e).realizer.client.state == c.state
    && e.surroundings.stepsWritten >= 0 && e.surroundings.stepsSent >= 0
  }

  predicate UnansweredThroughout(r: Realizer, run: seq<Event>) {
    forall i :: 0 <= i < |run| && run[i].UpdateEvent? ==> Unanswered(After(r, run[..i]), run[i])
  }

  lemma MessageIsRequest(c: Client, s: Surroundings)
    requires Requesting(c)
    ensures var sent := SendMessage(c, s);
            && sent.rounds == [Round(c.orderedOut, RequestIn(c.state), s.octets > HEADER_OCTETS)]
            && sent.client.waitTime == RESEND_WAIT && sent.client.state == c.state && sent.client.phase == c.phase
  {
  }

  lemma StepsBeforeRequest(c: Client, s: Surroundings)
    requires s.stepsWritten >= 0 && s.stepsSent >= 0
    ensures var sent := SendSteps(c, s);
            && sent.rounds == (if s.stepsWritten > 0 then [Round(c.orderedOut, PredictedSteps, true)] else [])
            && sent.result >= 0 && sent.client.state == c.state && sent.client.phase == c.phase
  {
  }

  lemma SendsItsRequest(c: Client, s: Surroundings)
    requires Requesting(c) && s.stepsWritten >= 0 && s.stepsSent >= 0
    ensures var sent := HandleState(c, s);
            && RequestsIn(RequestIn(c.state), sent.rounds) == 1
            && sent.client.waitTime == RESEND_WAIT && sent.client.state == c.state && sent.client.phase == c.phase
  {
    hide SendSteps, SendMessage, RequestsIn;
    var request := RequestIn(c.state);
    if c.state.Synced? {
      StepsBeforeRequest(c, s);
      var steps := SendSteps(c, s);
      MessageIsRequest(steps.client, s);
      var message := SendMessage(steps.client, s).rounds[0];
      RequestsOfOne(request, message);
      if s.stepsWritten > 0 {
        RequestsOfOne(request, steps.rounds[0]);
        RequestsOfTwo(request, steps.rounds[0], message);
        assert steps.rounds + [message] == [steps.rounds[0], message];
      } else {
        assert steps.rounds + [message] == [message];
      }
    } else {
      MessageIsRequest(c, s);
      RequestsOfOne(request, SendMessage(c, s).rounds[0]);
    }
  }

  /** A realizer whose client repeats a request, as far as its invariants go. */
  predicate Waiting(r: Realizer) {
    Coupled(ShapeOf(r)) && RunsClient(r) && Requesting(r.client) && WaitInRange(r.client)
  }

  lemma UnansweredUpdated(c: Client, s: Surroundings)
    requires Requesting(c) && WaitInRange(c) && s.stepsWritten >= 0 && s.stepsSent >= 0
    ensures var received, sent := ReceiveAll(c), Updated(c, s);
            && received.result >= 0 && received.client.waitTime == c.waitTime
            && received.client.state == c.state && received.client.phase == c.phase
            && sent.client.state == c.state ==>
              && Requesting(sent.client)
              && RequestsIn(RequestIn(c.state), sent.rounds) == (if c.waitTime == 0 then 1 else 0)
              && sent.client.waitTime == (if c.waitTime == 0 then RESEND_WAIT else c.waitTime - 1)
  {
    hide ReceiveAll, Rating, HandleState;
    var judged := JudgeQuality(ReceiveAll(c).client);
    SendingStays(judged, s);
    if judged.waitTime == 0 && judged.state == c.state && judged.phase == c.phase {
      SendsItsRequest(judged, s);
    }
  }

  lemma UnansweredIsUpdated(r: Realizer, e: Event)
    requires Waiting(r) && e.UpdateEvent? && Unanswered(r, e)
    ensures var sent := Updated(Deliver(r, e.arrivals).client, e.surroundings);
            Step(r, e) == Advanced(r.(client := sent.client), sent.rounds) && sent.client.state == r.client.state
  {
    hide ReceiveAll, Rating, HandleState;
    var c := Deliver(r, e.arrivals).client;
    SendingStays(JudgeQuality(ReceiveAll(c).client), e.surroundings);
    UpdateOfClient(r, e);
  }

  lemma WaitingStep(r: Realizer, e: Event)
    requires Waiting(r) && Continues(e) && (e.UpdateEvent? ==> Unanswered(r, e))
    ensures var step, w := Step(r, e), r.client.waitTime;
            && Waiting(step.realizer)
            && step.realizer.client.state == r.client.state
            && RequestsIn(RequestIn(r.client.state), step.rounds) == (if e.UpdateEvent? && w == 0 then 1 else 0)
            && step.realizer.client.waitTime == (if !e.UpdateEvent? then w else if w == 0 then RESEND_WAIT else w - 1)
  {
    hide Step, ReceiveAll, Updated, Coupled;
    StepKeepsCoupled(r, e);
    if e.UpdateEvent? {
      UnansweredIsUpdated(r, e);
      UnansweredUpdated(Deliver(r, e.arrivals).client, e.surroundings);
    } else {
      BetweenUpdates(r, e);
    }
  }

  lemma {:induction false} RequestsAdd(request: Content, a: seq<Round>, b: seq<Round>)
    ensures RequestsIn(request, a + b) == RequestsIn(request, a) + RequestsIn(request, b)
    decreases |b|
  {
    if b == [] {
      assert a + b == a;
    } else {
      assert (a + b)[..|a + b| - 1] == a + b[..|b| - 1];
      RequestsAdd(request, a, b[..|b| - 1]);
    }
  }

  /** Requests written in the first n updates, starting with a wait of w. */
  function Due(n: nat, w: nat): nat {
    if n < w then 0 else (n - w + 4) / 5
  }

  /** The wait after n such updates. */
  function WaitAt(n: nat, w: int): int {
    (w - n) % 5
  }

  lemma DueNext(n: nat, w: nat)
    requires w <= 4
    ensures Due(0, w) == 0 && WaitAt(0, w) == w
    ensures 0 <= WaitAt(n, w) <= 4
    ensures Due(n + 1, w) == Due(n, w) + if WaitAt(n, w) == 0 then 1 else 0
    ensures WaitAt(n + 1, w) == if WaitAt(n, w) == 0 then 4 else WaitAt(n, w) - 1
  {
  }

  /**
   * In n unanswered updates a requesting client writes a request in every fifth, the first once its wait is
   * over, whatever the application does in between.
   */
  lemma {:induction false} OneRequestInFive(r: Realizer, run: seq<Event>)
    requires Waiting(r) && Ongoing(run) && UnansweredThroughout(r, run)
    ensures var n, w := Updates(run), r.client.waitTime;
            && Waiting(After(r, run))
            && After(r, run).client.state == r.client.state
            && RequestsIn(RequestIn(r.client.state), RoundsOf(r, run)) == Due(n, w)
            && After(r, run).client.waitTime == WaitAt(n, w)
  {
    hide Step, Unanswered, Requesting, Due, WaitAt, Coupled, RunsClient;
    DueNext(0, r.client.waitTime);
    if run != [] {
      var n := |run| - 1;
      var earlier, last := run[..n], run[n];
      forall i | 0 <= i < n
        ensures run[..i] == earlier[..i] && run[i] == earlier[i]
      {
      }
      OneRequestInFive(r, earlier);
      WaitingStep(After(r, earlier), last);
      RequestsAdd(RequestIn(r.client.state), RoundsOf(r, earlier), Step(After(r, earlier), last).rounds);
      DueNext(Updates(earlier), r.client.waitTime);
    }
  }

  /** Starting without a wait: n updates carry n / 5 requests, rounded up. */
  lemma RequestsFromTheStart(r: Realizer, run: seq<Event>)
    requires Waiting(r) && r.client.waitTime == 0 && Ongoing(run) && UnansweredThroughout(r, run)
    ensures RequestsIn(RequestIn(r.client.state), RoundsOf(r, run)) == (Updates(run) + 4) / 5
  {
    OneRequestInFive(r, run);
  }
}
