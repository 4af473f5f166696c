/** What an update sends: which message in which state, and the predicted steps before it. */
module Sending {
  import opened ConnectionQuality
  import opened ClientModel
  import opened RealizerModel
  import opened Coupling
  import opened Handshake
  import opened Datagrams
  import opened JoinTable
  import opened Pacing
  import opened ReceiveLoop
  import opened OngoingRuns

  /** The message that a client in this state, and in this phase of joining, has to send. */
  predicate Fits(c: Client, content: Content) {
    && (content.ConnectRequest? <==> c.state.RequestingConnect?)
    && (content.DownloadStateRequest? <==> c.state.JoiningRequestingState?)
    && (content.BlobStreamAck? <==> c.state.JoiningDownloadingState?)
    && (content.JoinGameRequest? <==> c.state.Synced? && c.phase.JoiningParticipant?)
    && (content.HeaderOnly? <==> c.state.Synced? && !c.phase.JoiningParticipant?)
    && !content.PredictedSteps?
  }

  predicate HasMessage(state: ClientState) {
    state.RequestingConnect? || state.JoiningRequestingState? || state.JoiningDownloadingState? || state.Synced?
  }

  /** Steps go out before the message. */
  predicate StepsFirst(state: ClientState, s: Surroundings) {
    state.Synced? && s.stepsWritten > 0
  }

  /** Nothing that comes before the message, or that it is made of, fails. */
  predicate Unhindered(state: ClientState, s: Surroundings) {
    && (state.JoiningDownloadingState? ==> s.blobWritten >= 0)
    && (state.Synced? ==> s.stepsWritten >= 0 && (s.stepsWritten > 0 ==> s.stepsSent >= 0))
  }

  /** The rounds a client in this state has to commit, numbered from `id`. */
  predicate Commits(c: Client, s: Surroundings, id: nat, rounds: seq<Round>) {
    var n := if StepsFirst(c.state, s) then 1 else 0;
    && (n == 1 ==> rounds != [] && rounds[0] == Round(id, PredictedSteps, true))
    && (if HasMessage(c.state) && Unhindered(c.state, s) then
          && |rounds| == n + 1
          && rounds[n].id == id + n && rounds[n].handed == (s.octets > 10) && Fits(c, rounds[n].content)
        else |rounds| == n)
  }

  /** The wait that follows: four updates after a request, none after steps or an acknowledgement. */
  function WaitThen(c: Client, s: Surroundings): int {
    if c.state.RequestingConnect? || c.state.JoiningRequestingState? then 4
    else if c.state.JoiningDownloadingState? && s.blobWritten >= 0 then 0
    else if c.state.Synced? && s.stepsWritten >= 0 then
      if c.phase.JoiningParticipant? && Unhindered(c.state, s) then 4 else 0
    else c.waitTime
  }

  lemma HandleStateCommits(c: Client, s: Surroundings)
    ensures var sent := HandleState(c, s);
            && Commits(c, s, c.orderedOut, sent.rounds)
            && sent.client == c.(waitTime := WaitThen(c, s), orderedOut := c.orderedOut + |sent.rounds|)
  {
    hide SendSteps, SendMessage;
    if c.state.Synced? {
      StepsCommitted(c, s);
      MessageCommitted(SendSteps(c, s).client, s);
    } else if HasMessage(c.state) {
      MessageCommitted(c, s);
    }
  }

  lemma StepsCommitted(c: Client, s: Surroundings)
    ensures var sent := SendSteps(c, s);
            && sent.rounds == (if s.stepsWritten > 0 then [Round(c.orderedOut, PredictedSteps, true)] else [])
            && (sent.result < 0 <==> s.stepsWritten < 0 || (s.stepsWritten > 0 && s.stepsSent < 0))
            && sent.client == c.(waitTime := if s.stepsWritten < 0 then c.waitTime else 0,
                                 orderedOut := c.orderedOut + |sent.rounds|)
  {
  }

  lemma MessageCommitted(c: Client, s: Surroundings)
    requires HasMessage(c.state)
    ensures var sent := SendMessage(c, s);
            if c.state.JoiningDownloadingState? && s.blobWritten < 0 then sent.rounds == [] && sent.client == c
            else
              && |sent.rounds| == 1 && sent.rounds[0].id == c.orderedOut
              && sent.rounds[0].handed == (s.octets > 10) && Fits(c, sent.rounds[0].content)
              && sent.client == c.(orderedOut := c.orderedOut + 1,
                                   waitTime := if c.state.JoiningDownloadingState? then 0
                                               else if c.state.Synced? && !c.phase.JoiningParticipant? then c.waitTime
                                               else 4)
  {
  }

  // ---------------------------------------------------------------- one update

  /** The receive phase succeeds and leaves no wait: the update sends. */
  predicate Sends(c: Client) {
    !Spoiled(c) && ReceiveAll(c).client.waitTime <= 0
  }

  /** An update that sends commits what its client has to send; any other commits nothing and only waits. */
  lemma UpdatedCommits(c: Client, s: Surroundings)
    ensures var sent, heard := Updated(c, s), ReceiveAll(c);
            && (Sends(c) ==>
                  && Commits(sent.client, s, c.orderedOut, sent.rounds)
                  && sent.client.waitTime == WaitThen(sent.client.(waitTime := heard.client.waitTime), s)
                  && sent.result == heard.result >= 0)
            && (!Sends(c) ==> sent.rounds == [])
            && (!Spoiled(c) && !Sends(c) ==> sent.client.waitTime == heard.client.waitTime - 1)
            && sent.client.phase == heard.client.phase
  {
    hide ReceiveAll, HandleState, Rating, Spoiled, Commits;
    LoopFailsWhenSpoiled(c);
    ReceiveKeepsOut(c);
    var judged := JudgeQuality(ReceiveAll(c).client);
    HandleStateCommits(judged, s);
    SameCommits(judged, HandleState(judged, s).client, s);
  }

  lemma SameCommits(c: Client, c': Client, s: Surroundings)
    requires c'.state == c.state && c'.phase == c.phase
    ensures forall id: nat, rounds :: Commits(c, s, id, rounds) <==> Commits(c', s, id, rounds)
  {
  }

  // ---------------------------------------------------------------- over whole runs

  /** A round of predicted steps, of a client in the game, or the message of the client's state. */
  predicate Proper(c: Client, content: Content) {
    if content.PredictedSteps? then c.state.Synced? else Fits(c, content)
  }

  lemma UpdatedIsProper(c: Client, s: Surroundings)
    ensures var sent := Updated(c, s);
            && (sent.rounds != [] ==> HasMessage(sent.client.state))
            && forall k :: 0 <= k < |sent.rounds| ==> Proper(sent.client, sent.rounds[k].content)
  {
    hide Updated, Sends;
    UpdatedCommits(c, s);
  }

  lemma StepSends(r: Realizer, e: Event)
    ensures Step(r, e).rounds ==
            if Listens(r, e) then Updated(Deliver(r, e.arrivals).client, e.surroundings).rounds else []
    ensures Listens(r, e) ==>
              var sender := Updated(Deliver(r, e.arrivals).client, e.surroundings).client;
              var c' := Step(r, e).realizer.client;
              HasMessage(sender.state) ==> c'.state == sender.state && c'.phase == sender.phase
  {
    hide Updated;
  }

  lemma StepIsProper(r: Realizer, e: Event)
    ensures var step := Step(r, e);
            forall k :: 0 <= k < |step.rounds| ==> Proper(step.realizer.client, step.rounds[k].content)
  {
    hide Step, Updated;
    StepSends(r, e);
    if Listens(r, e) {
      UpdatedIsProper(Deliver(r, e.arrivals).client, e.surroundings);
    }
  }

  /** The `k`-th round of a run was committed by an event that left the client in the state the round is for. */
  ghost predicate SentProperly(r: Realizer, run: seq<Event>, k: nat)
    requires k < |RoundsOf(r, run)|
  {
    exists i :: 0 <= i < |run| && RoundsOf(r, run)[k] in Step(After(r, run[..i]), run[i]).rounds
                && Proper(After(r, run[..i + 1]).client, RoundsOf(r, run)[k].content)
  }

  /**
   * Over every run a connect request is sent exactly by a client that requests a connection, a download request by
   * one that has its connection, an acknowledgement by one that downloads, a join request by one in the game that
   * asks to join, a bare header by one in the game that does not, and predicted steps by one in the game.
   */
  lemma {:induction false} RoundsFitTheState(r: Realizer, run: seq<Event>, k: nat)
    ensures k < |RoundsOf(r, run)| ==> SentProperly(r, run, k)
  {
    hide Step, Proper;
    if k < |RoundsOf(r, run)| {
      var n := |run| - 1;
      var earlier, last := run[..n], run[n];
      assert run[..n + 1] == run;
      if k < |RoundsOf(r, earlier)| && !StartsOver(last) {
        RoundsFitTheState(r, earlier, k);
        var i :| 0 <= i < n && RoundsOf(r, earlier)[k] in Step(After(r, earlier[..i]), earlier[i]).rounds
                  && Proper(After(r, earlier[..i + 1]).client, RoundsOf(r, earlier)[k].content);
        assert run[..i] == earlier[..i] && run[..i + 1] == earlier[..i + 1] && run[i] == earlier[i];
      } else {
        StepIsProper(After(r, earlier), last);
      }
    }
  }

  // ---------------------------------------------------------------- predicted steps

  function Predicted(rounds: seq<Round>): nat {
    if rounds == [] then 0
    else Predicted(rounds[..|rounds| - 1]) + if rounds[|rounds| - 1].content.PredictedSteps? then 1 else 0
  }

  lemma {:induction false} PredictedAdd(a: seq<Round>, b: seq<Round>)
    ensures Predicted(a + b) == Predicted(a) + Predicted(b)
    decreases |b|
  {
    if b == [] {
      assert a + b == a;
    } else {
      assert (a + b)[..|a + b| - 1] == a + b[..|b| - 1];
      PredictedAdd(a, b[..|b| - 1]);
    }
  }

  lemma PredictedFirst(c: Client, s: Surroundings, id: nat, rounds: seq<Round>)
    requires Commits(c, s, id, rounds)
    ensures Predicted(rounds) == if StepsFirst(c.state, s) then 1 else 0
  {
    if |rounds| == 1 {
      PredictedInOne(rounds[0]);
      assert rounds == [rounds[0]];
    } else if |rounds| == 2 {
      PredictedInOne(rounds[0]);
      PredictedInOne(rounds[1]);
      PredictedAdd([rounds[0]], [rounds[1]]);
      assert rounds == [rounds[0]] + [rounds[1]];
    }
  }

  lemma PredictedInOne(round: Round)
    ensures Predicted([round]) == if round.content.PredictedSteps? then 1 else 0
  {
    assert [round][..0] == [];
  }

  /** This event sends predicted steps: the client listens, may send, is in the game and has steps serialized. */
  predicate SendsSteps(r: Realizer, e: Event) {
    && Listens(r, e) && e.surroundings.stepsWritten > 0
    && Sends(Deliver(r, e.arrivals).client)
    && Updated(Deliver(r, e.arrivals).client, e.surroundings).client.state.Synced?
  }

  lemma StepSendsSteps(r: Realizer, e: Event)
    ensures Predicted(Step(r, e).rounds) == if SendsSteps(r, e) then 1 else 0
    ensures SendsSteps(r, e) ==> [Round(r.client.orderedOut, PredictedSteps, true)] <= Step(r, e).rounds
  {
    hide Step, Updated, Sends;
    StepSends(r, e);
    if Listens(r, e) {
      var c := Deliver(r, e.arrivals).client;
      UpdatedCommits(c, e.surroundings);
      if Sends(c) {
        var sent := Updated(c, e.surroundings);
        PredictedFirst(sent.client, e.surroundings, c.orderedOut, sent.rounds);
      }
    }
  }

  /** The events since the last fresh start that send predicted steps. */
  function StepSendings(r: Realizer, run: seq<Event>): nat {
    if run == [] then 0
    else
      var earlier, last := run[..|run| - 1], run[|run| - 1];
      if StartsOver(last) then 0 else StepSendings(r, earlier) + if SendsSteps(After(r, earlier), last) then 1 else 0
  }

  /**
   * Predicted steps are sent once by every update of a client in the game that may send and has steps serialized,
   * before the message and under the smaller id, and never otherwise.
   */
  lemma {:induction false} StepsAreSent(r: Realizer, run: seq<Event>)
    ensures Predicted(RoundsOf(r, run)) == StepSendings(r, run)
    ensures run != [] && SendsSteps(After(r, run[..|run| - 1]), run[|run| - 1]) ==>
              var before := After(r, run[..|run| - 1]);
              [Round(before.client.orderedOut, PredictedSteps, true)] <= Step(before, run[|run| - 1]).rounds
  {
    hide Step, SendsSteps;
    if run != [] {
      var earlier, last := run[..|run| - 1], run[|run| - 1];
      StepsAreSent(r, earlier);
      StepSendsSteps(After(r, earlier), last);
      PredictedAdd(RoundsOf(r, earlier), Step(After(r, earlier), last).rounds);
    }
  }

  // ---------------------------------------------------------------- a settled client

  /** In the game, with nothing to wait for and nothing to ask. */
  predicate Streaming(r: Realizer) {
    Coupled(ShapeOf(r)) && r.client.state.Synced? && r.client.waitTime == 0 && !r.client.phase.JoiningParticipant?
  }

  /** An update that is heard, has steps to send, and leaves the client in the game. */
  predicate KeepsStreaming(r: Realizer, e: Event) {
    Continues(e) && !e.JoinGameEvent? &&
    (e.UpdateEvent? ==>
       && !Spoiled(Deliver(r, e.arrivals).client) && Step(r, e).realizer.client.state.Synced?
       && e.surroundings.stepsWritten > 0)
  }

  lemma StreamingUpdated(c: Client, s: Surroundings)
    requires c.state.Synced? && c.waitTime == 0 && !c.phase.JoiningParticipant? && !Spoiled(c) && s.stepsWritten > 0
    ensures Sends(c)
    ensures var c' := Updated(c, s).client; !c'.phase.JoiningParticipant? && (c'.state.Synced? ==> c'.waitTime == 0)
  {
    hide ReceiveAll, Updated, Spoiled;
    ReceiveWaits(c);
    ReceiveSettled(c);
    UpdatedCommits(c, s);
  }

  lemma StreamingStep(r: Realizer, e: Event)
    requires Streaming(r) && KeepsStreaming(r, e)
    ensures Streaming(Step(r, e).realizer)
    ensures e.UpdateEvent? <==> SendsSteps(r, e)
  {
    hide Step, Updated, Spoiled, Coupled, Sends;
    StepKeepsCoupled(r, e);
    if e.UpdateEvent? {
      InTheGameListens(r, e);
      StreamingUpdated(Deliver(r, e.arrivals).client, e.surroundings);
    } else {
      BetweenUpdates(r, e);
    }
  }

  lemma InTheGameListens(r: Realizer, e: Event)
    requires Coupled(ShapeOf(r)) && r.client.state.Synced? && e.UpdateEvent?
    ensures Listens(r, e)
    ensures Step(r, e).realizer.client == Updated(Deliver(r, e.arrivals).client, e.surroundings).client
  {
    hide Updated;
    UpdatedMoves(Deliver(r, e.arrivals).client, e.surroundings);
  }

  /** A client that has joined sends its steps in every update that is heard: it is never made to wait again. */
  lemma {:induction false} StepsStream(r: Realizer, run: seq<Event>)
    requires Streaming(r) && forall i :: 0 <= i < |run| ==> KeepsStreaming(After(r, run[..i]), run[i])
    ensures Streaming(After(r, run)) && Predicted(RoundsOf(r, run)) == Updates(run)
  {
    hide Step, KeepsStreaming, Streaming, SendsSteps;
    if run != [] {
      var n := |run| - 1;
      var earlier, last := run[..n], run[n];
      forall i | 0 <= i < n
        ensures run[..i] == earlier[..i] && run[i] == earlier[i]
      {
      }
      StepsStream(r, earlier);
      StreamingStep(After(r, earlier), last);
      StepSendsSteps(After(r, earlier), last);
      PredictedAdd(RoundsOf(r, earlier), Step(After(r, earlier), last).rounds);
      GoesOnStreaming(After(r, earlier), last);
    }
  }

  lemma GoesOnStreaming(r: Realizer, e: Event)
    requires KeepsStreaming(r, e)
    ensures !StartsOver(e)
  {
    hide Step;
  }

  /** A client that has joined, or was refused, asks no more until a fresh start or a new JoinGame. */
  lemma {:induction false} SettledAsksNoMore(r: Realizer, run: seq<Event>)
    requires Settled(r.client)
    requires forall i :: 0 <= i < |run| ==> !StartsOver(run[i]) && !run[i].JoinGameEvent?
    ensures forall k :: 0 <= k < |RoundsOf(r, run)| ==> !RoundsOf(r, run)[k].content.JoinGameRequest?
  {
    hide Step;
    if run != [] {
      var earlier, last := run[..|run| - 1], run[|run| - 1];
      SettledAsksNoMore(r, earlier);
      StepIsProper(After(r, earlier), last);
      SettledTakesNoSeat(r, run);
    }
  }
}
