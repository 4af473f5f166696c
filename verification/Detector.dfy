/** When the client gives up on its server: over whole windows of a run, and to the exact tick. */
module Detector {
  import opened Wrappers
  import opened ConnectionQuality
  import opened StepBuffers
  import opened ClientModel
  import opened RealizerModel
  import opened Coupling
  import opened Handshake

  // ---------------------------------------------------------------- what datagrams do to the counters

  /** The detector's state between ticks: silence in step with silence, and patience not exhausted. */
  predicate Patient(c: Client) {
    && c.quality.datagramSilence <= c.quality.stepSilence
    && (!c.state.Disconnected? ==> c.quality.reason.KeepConnection? && c.quality.considering <= PATIENCE)
  }

  lemma DispatchKeepsJudgement(c: Client, m: Message)
    ensures var done := Dispatch(c, m);
            && done.client.quality.considering == c.quality.considering
            && done.client.quality.reason == c.quality.reason
            && done.client.quality.datagramSilence == c.quality.datagramSilence
            && (done.client.quality.stepSilence == c.quality.stepSilence
                || (done.result >= 0 && done.client.quality.stepSilence == 0))
  {
    hide CopyReady, DiscardUpTo, Insert, Seated;
  }

  lemma FeedKeepsJudgement(c: Client, d: Datagram)
    ensures var fed := Feed(c, d);
            && fed.client.quality.considering == c.quality.considering
            && fed.client.quality.reason == c.quality.reason
            && fed.client.quality.datagramSilence == c.quality.datagramSilence
            && (fed.client.quality.stepSilence == c.quality.stepSilence
                || (fed.result >= 0 && fed.client.quality.stepSilence == 0))
  {
    hide Dispatch;
    var distance := ForwardDistance(c.orderedIn, d.id);
    var c1 := RecordDrops(c.(orderedIn := Some(d.id)), distance - 1);
    if d.pong.Parsed? {
      DispatchKeepsJudgement(c1.(quality := LatencySampled(c1.quality, d.pong.value)), d.message);
    }
  }

  lemma TakeNextKeepsJudgement(c: Client)
    requires c.inbox != []
    ensures var q := TakeNext(c).client.quality;
            && q.considering == c.quality.considering && q.reason == c.quality.reason
            && (c.quality.datagramSilence <= c.quality.stepSilence ==> q.datagramSilence <= q.stepSilence)
  {
    hide Feed;
    if c.inbox[0].Incoming? {
      FeedKeepsJudgement(c.(inbox := c.inbox[1..]), c.inbox[0].datagram);
    }
  }

  lemma {:induction false} ReceiveKeepsJudgement(c: Client)
    ensures var q := ReceiveAll(c).client.quality;
            && q.considering == c.quality.considering && q.reason == c.quality.reason
            && (c.quality.datagramSilence <= c.quality.stepSilence ==> q.datagramSilence <= q.stepSilence)
    decreases |c.inbox|
  {
    hide TakeNext;
    if c.inbox != [] {
      TakeNextPops(c);
      TakeNextKeepsJudgement(c);
      ReceiveKeepsJudgement(TakeNext(c).client);
    }
  }

  lemma SendingKeepsQuality(c: Client, s: Surroundings)
    ensures HandleState(c, s).client.quality == c.quality
  {
  }

  // ---------------------------------------------------------------- evaluations of a run

  /** Whether this update gets as far as judging the connection. */
  predicate Judges(c: Client) {
    ReceiveAll(c).result >= 0 && ReceiveAll(c).client.state.Synced?
  }

  /** The evaluation such an update makes. */
  predicate Bad(c: Client) {
    !Verdict(Aged(ReceiveAll(c).client.quality)).KeepConnection?
  }

  /** The considering counter after an update. */
  function Considering(c: Client): nat {
    if Judges(c) then Walk(c.quality.considering, [Bad(c)]) else c.quality.considering
  }

  /** What one update of a listening client does to the detector. */
  lemma UpdatedJudges(c: Client, s: Surroundings)
    requires Patient(c) && !c.state.Disconnected?
    ensures var c' := Updated(c, s).client;
            && Patient(c')
            && c'.quality.considering == Considering(c)
            && (c'.state.Disconnected? <==> Judges(c) && Bad(c) && c.quality.considering == PATIENCE)
  {
    hide ReceiveAll, HandleState, Rating;
    ReceiveKeepsJudgement(c);
    ReceiveMoves(c);
    var judged := JudgeQuality(ReceiveAll(c).client);
    SendingKeepsQuality(judged, s);
    SendingStays(judged, s);
    WalkOnce(c.quality.considering, Bad(c));
  }

  /** All evaluations since the run started over: true where the recommendation was to disconnect. */
  function Evaluations(r: Realizer, run: seq<Event>): seq<bool> {
    if run == [] then []
    else
      var earlier, last := run[..|run| - 1], run[|run| - 1];
      if StartsOver(last) then []
      else if Listens(After(r, earlier), last) then
        var c := Deliver(After(r, earlier), last.arrivals).client;
        if Judges(c) then Evaluations(r, earlier) + [Bad(c)] else Evaluations(r, earlier)
      else Evaluations(r, earlier)
  }

  lemma WalkStep(start: nat, verdicts: seq<bool>, bad: bool)
    ensures Walk(start, verdicts + [bad]) == Walk(Walk(start, verdicts), [bad])
  {
    assert (verdicts + [bad])[..|verdicts|] == verdicts;
    assert [bad][..0] == [];
  }

  /** A quiet step: nothing that the detector looks at. */
  lemma OtherStepsKeepQuality(r: Realizer, e: Event)
    requires !StartsOver(e) && !Listens(r, e)
    ensures Step(r, e).realizer.client.quality == r.client.quality
    ensures r.client.state.Disconnected? ==> Step(r, e).realizer.client.state.Disconnected?
  {
  }

  lemma UpdateStepIsUpdated(r: Realizer, e: Event)
    requires Listens(r, e)
    ensures var c := Updated(Deliver(r, e.arrivals).client, e.surroundings).client;
            && Step(r, e).realizer.client.quality == c.quality
            && (Step(r, e).realizer.client.state.Disconnected? <==> c.state.Disconnected?)
  {
    hide Updated;
  }

  lemma StartingOverIsPatient(r: Realizer, e: Event)
    requires StartsOver(e)
    ensures Patient(Step(r, e).realizer.client) && Step(r, e).realizer.client.quality.considering == 0
  {
  }

  /**
   * In every reachable state the counter is the walk over all evaluations so far, datagram silence never
   * exceeds step silence, and patience runs out only in Disconnected.
   */
  lemma {:induction false} AlwaysPatient(memory: Realizer, transport: seq<Arrival>, run: seq<Event>)
    ensures var c := After(Init(memory, transport), run).client;
            Patient(c) && c.quality.considering == Walk(0, Evaluations(Init(memory, transport), run))
  {
    hide Update, Judges, Bad, Verdict, Patient;
    var r := Init(memory, transport);
    if run == [] {
      StartingOverIsPatient(memory, InitEvent(transport));
    } else {
      var earlier, last := run[..|run| - 1], run[|run| - 1];
      AlwaysPatient(memory, transport, earlier);
      var before := After(r, earlier);
      if StartsOver(last) {
        StartingOverIsPatient(before, last);
      } else if Listens(before, last) {
        ListeningStep(before, last);
        WalkStep(0, Evaluations(r, earlier), Bad(Deliver(before, last.arrivals).client));
      } else {
        QuietStep(before, last);
      }
    }
  }

  lemma QuietStep(r: Realizer, e: Event)
    requires !StartsOver(e) && !Listens(r, e) && Patient(r.client)
    ensures Patient(Step(r, e).realizer.client)
    ensures Step(r, e).realizer.client.quality.considering == r.client.quality.considering
  {
    hide Step;
    OtherStepsKeepQuality(r, e);
  }

  lemma ListeningStep(r: Realizer, e: Event)
    requires Listens(r, e) && Patient(r.client)
    ensures var c, c' := Deliver(r, e.arrivals).client, Step(r, e).realizer.client;
            && Patient(c')
            && c'.quality.considering == Considering(c)
            && (c'.state.Disconnected? <==> Judges(c) && Bad(c) && c.quality.considering == PATIENCE)
  {
    hide Step, Updated, Judges, Bad;
    UpdatedJudges(Deliver(r, e.arrivals).client, e.surroundings);
    UpdateStepIsUpdated(r, e);
  }

  /** In reachable states the datagram test only selects the reason: an evaluation is bad exactly on step silence. */
  lemma BadMeansStepSilence(c: Client)
    requires Patient(c)
    ensures Bad(c) <==> ReceiveAll(c).client.quality.stepSilence + 1 > MAX_TICKS_WITHOUT_STEPS
  {
    hide ReceiveAll;
    ReceiveKeepsJudgement(c);
  }

  /**
   * A client that is still in contact gives up in an update exactly when the update judges the connection
   * and some window of evaluations ending there holds at least 61 more bad ones than good ones.
   */
  lemma GivesUpOnWindows(memory: Realizer, transport: seq<Arrival>, run: seq<Event>, e: Event)
    requires Listens(After(Init(memory, transport), run), e)
    ensures var r := Init(memory, transport);
            var all := Evaluations(r, run + [e]);
            After(r, run + [e]).client.state.Disconnected? <==>
              && Judges(Deliver(After(r, run), e.arrivals).client)
              && exists k :: 0 <= k <= |all| && Score(all[k..]) >= 61
  {
    hide Update, Judges, Bad, Patient, Score;
    var r := Init(memory, transport);
    var before := After(r, run);
    var c := Deliver(before, e.arrivals).client;
    var all := Evaluations(r, run + [e]);
    AlwaysPatient(memory, transport, run);
    EvaluationsExtend(r, run, e);
    AfterExtends(r, run, e);
    ListeningStep(before, e);
    PatienceLeft(before);
    WalkStep(0, Evaluations(r, run), Bad(c));
    WalkIsBestWindow(all);
    if Judges(c) && Bad(c) && c.quality.considering == PATIENCE {
      WalkOnce(PATIENCE, Bad(c));
      var k :| 0 <= k <= |all| && Score(all[k..]) == Walk(0, all);
      assert Score(all[k..]) >= 61;
    } else {
      WalkOnce(c.quality.considering, Bad(c));
    }
  }

  /** Apart from giving up, only quitting disconnects a client. */
  lemma OtherwiseOnlyQuitting(r: Realizer, e: Event)
    requires !r.client.state.Disconnected? && !Listens(r, e)
    ensures Step(r, e).realizer.client.state.Disconnected? <==> e.QuitGameEvent?
  {
  }

  lemma PatienceLeft(r: Realizer)
    requires Patient(r.client) && !r.client.state.Disconnected?
    ensures r.client.quality.considering <= PATIENCE
  {
  }

  lemma WalkOnce(start: nat, bad: bool)
    ensures Walk(start, [bad]) == if bad then start + 1 else if start > 0 then start - 1 else 0
  {
    assert [bad][..0] == [];
  }

  lemma EvaluationsExtend(r: Realizer, run: seq<Event>, e: Event)
    requires Listens(After(r, run), e)
    ensures var c := Deliver(After(r, run), e.arrivals).client;
            Evaluations(r, run + [e]) ==
              if Judges(c) then Evaluations(r, run) + [Bad(c)] else Evaluations(r, run)
  {
    hide Update, Judges, Bad;
    assert (run + [e])[..|run|] == run;
  }
}
