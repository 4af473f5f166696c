/** The detector as a function of what has happened to the client: silences, drops and latency over whole runs. */
module DetectorLog {
  import opened Wrappers
  import opened ConnectionQuality
  import opened StepBuffers
  import opened ClientModel
  import opened RealizerModel
  import opened Coupling
  import opened Handshake
  import opened Detector
  import opened ReceiveLoop

  /** What the detector is told. */
  datatype Mark =
    | Started                                // a fresh start
    | Missed(count: nat)                     // datagrams that a later one has overtaken
    | Sampled(average: Option<int32>)        // the latency average after one more sample
    | Usable                                 // a datagram was accepted to its end
    | Stepped                                // a step response was accepted
    | Evaluated                              // an update in the game got as far as judging

  function Told(q: Quality, m: Mark): Quality {
    match m
    case Started => ResetQuality(q)
    case Missed(count) => DropDatagrams(q, count)
    case Sampled(average) => LatencySampled(q, average)
    case Usable => UsableDatagram(q)
    case Stepped => AuthoritativeSteps(q)
    case Evaluated => Tick(q)
  }

  function Replay(q: Quality, log: seq<Mark>): Quality {
    if log == [] then q else Told(Replay(q, log[..|log| - 1]), log[|log| - 1])
  }

  lemma {:induction false} ReplayOn(q: Quality, a: seq<Mark>, b: seq<Mark>)
    ensures Replay(q, a + b) == Replay(Replay(q, a), b)
    decreases |b|
  {
    hide Told;
    if b == [] {
      assert a + b == a;
    } else {
      var n := |b| - 1;
      assert (a + b)[..|a + b| - 1] == a + b[..n];
      ReplayOn(q, a, b[..n]);
    }
  }

  // ---------------------------------------------------------------- what a log says

  /** Evaluations after the last mark `end` or fresh start. */
  function EvaluatedSince(end: Mark, log: seq<Mark>): nat {
    if log == [] then 0
    else
      var last := log[|log| - 1];
      if last == end || last.Started? then 0
      else EvaluatedSince(end, log[..|log| - 1]) + if last.Evaluated? then 1 else 0
  }

  /** The last latency average since the last fresh start. */
  function LastSample(log: seq<Mark>): Option<int32> {
    if log == [] then None
    else match log[|log| - 1]
      case Started => None
      case Sampled(average) => average
      case _ => LastSample(log[..|log| - 1])
  }

  /** The latency that the last evaluation with a known latency has seen, as the unsigned number it is stored as. */
  function LastJudged(log: seq<Mark>): nat {
    if log == [] then 0
    else
      var earlier := log[..|log| - 1];
      match log[|log| - 1]
      case Started => 0
      case Evaluated =>
        (match LastSample(earlier)
         case Some(average) => if 0 <= average then average else average + 0x1_0000_0000_0000_0000
         case None => LastJudged(earlier))
      case _ => LastJudged(earlier)
  }

  /** The rating that the last evaluation has made; nothing else rates, and a fresh start keeps the rating. */
  function LastRating(q: Quality, log: seq<Mark>): nat {
    if log == [] then q.rating
    else if log[|log| - 1].Evaluated? then Replay(q, log).rating
    else LastRating(q, log[..|log| - 1])
  }

  /** The part of a log after its last fresh start. */
  function SinceStart(log: seq<Mark>): seq<Mark> {
    if log == [] || log[|log| - 1].Started? then [] else SinceStart(log[..|log| - 1]) + [log[|log| - 1]]
  }

  /** Datagrams missed, less one for each evaluation. */
  function Drift(log: seq<Mark>): int {
    if log == [] then 0
    else
      Drift(log[..|log| - 1]) +
      match log[|log| - 1]
      case Missed(count) => count
      case Evaluated => -1
      case _ => 0
  }

  lemma {:induction false} SilencesAreCounted(q: Quality, log: seq<Mark>)
    requires log != [] && log[0].Started?
    ensures Replay(q, log).stepSilence == EvaluatedSince(Stepped, log)
    ensures Replay(q, log).datagramSilence == EvaluatedSince(Usable, log)
    ensures Replay(q, log).latencyAvg == LastSample(log)
    ensures Replay(q, log).lastLatencyMs == LastJudged(log)
  {
    hide Rating;
    var n := |log| - 1;
    if n > 0 {
      SilencesAreCounted(q, log[..n]);
    }
  }

  lemma {:induction false} RatingIsKept(q: Quality, log: seq<Mark>)
    ensures Replay(q, log).rating == LastRating(q, log)
  {
    if log != [] && !log[|log| - 1].Evaluated? {
      RatingIsKept(q, log[..|log| - 1]);
    }
  }

  lemma DriftLast(log: seq<Mark>, m: Mark, k: nat)
    requires k <= |log|
    ensures Drift((log + [m])[k..]) ==
            Drift(log[k..]) + match m
                              case Missed(count) => count
                              case Evaluated => -1
                              case _ => 0
  {
    var window := (log + [m])[k..];
    assert window == log[k..] + [m];
    assert window[..|window| - 1] == log[k..];
  }

  /** No window that ends now holds a higher drift. */
  predicate Tops(d: int, log: seq<Mark>) {
    forall k :: 0 <= k <= |log| ==> Drift(log[k..]) <= d
  }

  predicate Attains(d: int, log: seq<Mark>, k: nat) {
    k <= |log| && Drift(log[k..]) == d
  }

  lemma EmptyDrift(log: seq<Mark>)
    ensures Drift(log[|log|..]) == 0
  {
    assert log[|log|..] == [];
  }

  lemma {:induction false} DroppedIsBestWindow(q: Quality, log: seq<Mark>) returns (k: nat)
    requires log != [] && log[0].Started?
    ensures Tops(Replay(q, log).dropped, SinceStart(log)) && Attains(Replay(q, log).dropped, SinceStart(log), k)
  {
    var n := |log| - 1;
    var earlier, last := log[..n], log[n];
    var window := SinceStart(log);
    EmptyDrift(window);
    k := |window|;
    if n > 0 && !last.Started? {
      var best := DroppedIsBestWindow(q, earlier);
      var before := SinceStart(earlier);
      ToldDrops(Replay(q, earlier), last);
      assert Replay(q, log) == Told(Replay(q, earlier), last);
      hide Drift, Told, Replay;
      forall j | 0 <= j <= |window|
        ensures Drift(window[j..]) <= Told(Replay(q, earlier), last).dropped
      {
        if j < |window| {
          DriftLast(before, last, j);
          assert Drift(before[j..]) <= Replay(q, earlier).dropped;
        }
      }
      DriftLast(before, last, best);
      if Drift(window[best..]) >= 0 {
        k := best;
      }
    }
  }

  lemma ToldDrops(q: Quality, m: Mark)
    requires !m.Started?
    ensures var d := q.dropped + match m
                                 case Missed(count) => count
                                 case Evaluated => -1
                                 case _ => 0;
            Told(q, m).dropped == if d < 0 then 0 else d
  {
    hide Rating;
  }

  // ---------------------------------------------------------------- the log of a run

  /** What a datagram that passes the order check tells the detector before it is known to be usable. */
  function MarksOfDatagram(c: Client, d: Datagram): seq<Mark> {
    [Missed(if c.orderedIn.None? || d.id <= c.orderedIn.value then 0 else d.id - c.orderedIn.value - 1)]
      + if d.pong.Malformed? then []
        else [Sampled(d.pong.value)]
               + if d.message.GameStepResponse? && d.message.steps.Parsed? then [Stepped] else []
  }

  /** What the next arrival tells the detector. */
  function MarksOfNext(c: Client): seq<Mark>
    requires c.inbox != []
  {
    if c.inbox[0].TransportError? || !PassesOrder(c, c.inbox[0].datagram) then []
    else MarksOfDatagram(c, c.inbox[0].datagram) + if Spoils(c, c.inbox[0]) then [] else [Usable]
  }

  function MarksOfLoop(c: Client): seq<Mark>
    requires !c.state.Disconnected?
    decreases |c.inbox|
  {
    if c.inbox == [] then []
    else
      TakeNextPops(c);
      StaysInContact(c);
      MarksOfNext(c) + if Spoils(c, c.inbox[0]) then [] else MarksOfLoop(TakeNext(c).client)
  }

  lemma StaysInContact(c: Client)
    requires c.inbox != [] && !c.state.Disconnected?
    ensures !TakeNext(c).client.state.Disconnected?
  {
    if c.inbox[0].Incoming? {
      FeedMoves(c.(inbox := c.inbox[1..]), c.inbox[0].datagram);
    }
  }

  function MarksOfEvent(r: Realizer, e: Event): seq<Mark> {
    if StartsOver(e) then [Started]
    else if Listens(r, e) then
      var c := Deliver(r, e.arrivals).client;
      MarksOfLoop(c) + if Judges(c) then [Evaluated] else []
    else []
  }

  function MarksOf(r: Realizer, run: seq<Event>): seq<Mark> {
    if run == [] then []
    else MarksOf(r, run[..|run| - 1]) + MarksOfEvent(After(r, run[..|run| - 1]), run[|run| - 1])
  }

  lemma DispatchTells(c: Client, m: Message)
    ensures Dispatch(c, m).client.quality ==
            if m.GameStepResponse? && m.steps.Parsed? then Told(c.quality, Stepped) else c.quality
  {
    hide CopyReady, DiscardUpTo, Insert, Seated;
  }

  lemma ReplayOne(q: Quality, m: Mark)
    ensures Replay(q, [m]) == Told(q, m) && Replay(q, []) == q
  {
    hide Told;
    assert [m][..0] == [];
  }

  lemma FeedTells(c: Client, d: Datagram)
    requires PassesOrder(c, d)
    ensures Feed(c, d).client.quality == Replay(c.quality, MarksOfDatagram(c, d))
  {
    hide Dispatch, DroppedPackets, Replay;
    var missed := Missed(if c.orderedIn.None? then 0 else d.id - c.orderedIn.value - 1);
    ReplayOne(c.quality, missed);
    if d.pong.Parsed? {
      var c1 := RecordDrops(c.(orderedIn := Some(d.id)), ForwardDistance(c.orderedIn, d.id) - 1);
      DispatchTells(c1.(quality := LatencySampled(c1.quality, d.pong.value)), d.message);
      var answered := if d.message.GameStepResponse? && d.message.steps.Parsed? then [Stepped] else [];
      ReplayOn(c.quality, [missed], [Sampled(d.pong.value)] + answered);
      ReplayOn(c1.quality, [Sampled(d.pong.value)], answered);
      ReplayOne(c1.quality, Sampled(d.pong.value));
      ReplayOne(LatencySampled(c1.quality, d.pong.value), Stepped);
    } else {
      assert MarksOfDatagram(c, d) == [missed];
    }
  }

  lemma TakeNextTells(c: Client)
    requires c.inbox != [] && !c.state.Disconnected?
    ensures TakeNext(c).client.quality == Replay(c.quality, MarksOfNext(c))
  {
    hide Feed, Replay, Spoils, MarksOfDatagram;
    RoundFails(c);
    ReplayOne(c.quality, Usable);
    if c.inbox[0].Incoming? && PassesOrder(c, c.inbox[0].datagram) {
      var d := c.inbox[0].datagram;
      var c1 := c.(inbox := c.inbox[1..]);
      FeedTells(c1, d);
      SameMarks(c1, c, d);
      var q := Replay(c.quality, MarksOfDatagram(c, d));
      ReplayOn(c.quality, MarksOfDatagram(c, d), if Spoils(c, c.inbox[0]) then [] else [Usable]);
      ReplayOne(q, Usable);
    } else {
      RefusedTells(c);
    }
  }

  lemma SameMarks(c: Client, c': Client, d: Datagram)
    requires c.orderedIn == c'.orderedIn
    ensures MarksOfDatagram(c, d) == MarksOfDatagram(c', d)
  {
  }

  lemma RefusedTells(c: Client)
    requires c.inbox != [] && !c.state.Disconnected?
    requires c.inbox[0].TransportError? || !PassesOrder(c, c.inbox[0].datagram)
    ensures TakeNext(c).client == c.(inbox := c.inbox[1..])
  {
  }

  lemma {:induction false} ReceiveTells(c: Client)
    requires !c.state.Disconnected?
    ensures ReceiveAll(c).client.quality == Replay(c.quality, MarksOfLoop(c))
    decreases |c.inbox|
  {
    hide TakeNext, Replay, MarksOfNext, Spoils;
    ReplayOne(c.quality, Usable);
    if c.inbox != [] {
      TakeNextPops(c);
      TakeNextTells(c);
      RoundFails(c);
      StaysInContact(c);
      if TakeNext(c).result >= 0 {
        ReceiveTells(TakeNext(c).client);
        ReplayOn(c.quality, MarksOfNext(c), MarksOfLoop(TakeNext(c).client));
      } else {
        assert MarksOfLoop(c) == MarksOfNext(c);
      }
    }
  }

  lemma UpdatedTells(c: Client, s: Surroundings)
    requires !c.state.Disconnected?
    ensures Updated(c, s).client.quality == Replay(c.quality, MarksOfLoop(c) + if Judges(c) then [Evaluated] else [])
  {
    hide ReceiveAll, HandleState, Rating, Replay, MarksOfLoop;
    ReceiveTells(c);
    var received := ReceiveAll(c).client;
    SendingKeepsQuality(JudgeQuality(received), s);
    ReplayOn(c.quality, MarksOfLoop(c), if Judges(c) then [Evaluated] else []);
    ReplayOne(received.quality, Evaluated);
  }

  lemma StepTells(r: Realizer, e: Event)
    ensures Step(r, e).realizer.client.quality == Replay(r.client.quality, MarksOfEvent(r, e))
  {
    hide Step, Updated, Replay, Judges, MarksOfLoop;
    ReplayOne(r.client.quality, Started);
    if StartsOver(e) {
      StartTells(r, e);
    } else if Listens(r, e) {
      UpdatedTells(Deliver(r, e.arrivals).client, e.surroundings);
      UpdateStepIsUpdated(r, e);
    } else {
      OtherStepsKeepQuality(r, e);
    }
  }

  lemma StartTells(r: Realizer, e: Event)
    requires StartsOver(e)
    ensures Step(r, e).realizer.client.quality == ResetQuality(r.client.quality)
  {
  }

  /** Everything the detector has been told since Init. */
  function LogOf(memory: Realizer, transport: seq<Arrival>, run: seq<Event>): seq<Mark> {
    [Started] + MarksOf(Init(memory, transport), run)
  }

  lemma {:induction false} DetectorFollowsLog(memory: Realizer, transport: seq<Arrival>, run: seq<Event>)
    ensures After(Init(memory, transport), run).client.quality
            == Replay(memory.client.quality, LogOf(memory, transport, run))
  {
    hide Step, MarksOfEvent;
    var r := Init(memory, transport);
    if run == [] {
      hide Replay;
      ReplayOne(memory.client.quality, Started);
      assert LogOf(memory, transport, run) == [Started];
    } else {
      hide Replay;
      var earlier, last := run[..|run| - 1], run[|run| - 1];
      DetectorFollowsLog(memory, transport, earlier);
      StepTells(After(r, earlier), last);
      var more := MarksOfEvent(After(r, earlier), last);
      assert LogOf(memory, transport, run) == LogOf(memory, transport, earlier) + more;
      ReplayOn(memory.client.quality, LogOf(memory, transport, earlier), more);
    }
  }

  /**
   * In every reachable state step silence is the number of evaluations since the last accepted step response,
   * datagram silence the number since the last usable datagram, the dropped counter the best window of datagrams
   * missed less evaluations made, and the latency the last one sampled; a fresh start clears all four.
   */
  lemma CountersFollowLog(memory: Realizer, transport: seq<Arrival>, run: seq<Event>) returns (k: nat)
    ensures var q, log := After(Init(memory, transport), run).client.quality, LogOf(memory, transport, run);
            && q.stepSilence == EvaluatedSince(Stepped, log)
            && q.datagramSilence == EvaluatedSince(Usable, log)
            && q.latencyAvg == LastSample(log) && q.lastLatencyMs == LastJudged(log)
            && q.rating == LastRating(memory.client.quality, log)
            && Tops(q.dropped, SinceStart(log)) && Attains(q.dropped, SinceStart(log), k)
  {
    hide After, MarksOf;
    DetectorFollowsLog(memory, transport, run);
    RatingIsKept(memory.client.quality, LogOf(memory, transport, run));
    SilencesAreCounted(memory.client.quality, LogOf(memory, transport, run));
    k := DroppedIsBestWindow(memory.client.quality, LogOf(memory, transport, run));
  }

  // ---------------------------------------------------------------- a served client

  /** Never more than 15 evaluations in a row without an accepted step response. */
  predicate WellFed(memory: Realizer, transport: seq<Arrival>, run: seq<Event>) {
    forall i :: 0 <= i <= |run| ==> EvaluatedSince(Stepped, LogOf(memory, transport, run[..i])) <= 15
  }

  lemma WellFedBefore(memory: Realizer, transport: seq<Arrival>, run: seq<Event>)
    requires run != [] && WellFed(memory, transport, run)
    ensures WellFed(memory, transport, run[..|run| - 1])
    ensures EvaluatedSince(Stepped, LogOf(memory, transport, run)) <= 15
  {
    hide EvaluatedSince, LogOf;
    assert run[..|run|] == run;
    var earlier := run[..|run| - 1];
    forall i | 0 <= i <= |earlier|
      ensures earlier[..i] == run[..i]
    {
    }
  }

  /**
   * A server that lets no more than 15 evaluations pass without a step response is never given up on: only
   * QuitGame disconnects its client, and disconnecting is not even considered.
   */
  lemma {:induction false} ServedNeverGivesUp(memory: Realizer, transport: seq<Arrival>, run: seq<Event>)
    requires WellFed(memory, transport, run) && forall i :: 0 <= i < |run| ==> !run[i].QuitGameEvent?
    ensures var c := After(Init(memory, transport), run).client;
            !c.state.Disconnected? && c.quality.considering == 0
  {
    hide Step, Patient, LogOf, EvaluatedSince, WellFed, Judges, Bad;
    var r := Init(memory, transport);
    if run != [] {
      var earlier, last := run[..|run| - 1], run[|run| - 1];
      WellFedBefore(memory, transport, run);
      ServedNeverGivesUp(memory, transport, earlier);
      AlwaysPatient(memory, transport, earlier);
      var k := CountersFollowLog(memory, transport, run);
      FedStep(After(r, earlier), last);
    }
  }

  lemma FedStep(r: Realizer, e: Event)
    requires Patient(r.client) && !r.client.state.Disconnected? && r.client.quality.considering == 0
    requires !e.QuitGameEvent? && Step(r, e).realizer.client.quality.stepSilence <= 15
    ensures var c := Step(r, e).realizer.client; !c.state.Disconnected? && c.quality.considering == 0
  {
    hide Step, Judges, Bad, Updated;
    if StartsOver(e) {
      StartingOverIsPatient(r, e);
      StartContacts(r, e);
    } else if Listens(r, e) {
      var c := Deliver(r, e.arrivals).client;
      ListeningStep(r, e);
      WalkOnce(0, Bad(c));
      JudgedSilence(r, e);
      BadMeansStepSilence(c);
    } else {
      OtherStepsKeepQuality(r, e);
      OtherwiseOnlyQuitting(r, e);
    }
  }

  lemma StartContacts(r: Realizer, e: Event)
    requires StartsOver(e)
    ensures !Step(r, e).realizer.client.state.Disconnected?
  {
  }

  lemma JudgedSilence(r: Realizer, e: Event)
    requires Listens(r, e)
    ensures Judges(Deliver(r, e.arrivals).client) ==>
              Step(r, e).realizer.client.quality.stepSilence
              == ReceiveAll(Deliver(r, e.arrivals).client).client.quality.stepSilence + 1
  {
    hide Step, ReceiveAll, HandleState, Rating;
    var c := Deliver(r, e.arrivals).client;
    UpdateStepIsUpdated(r, e);
    SendingKeepsQuality(JudgeQuality(ReceiveAll(c).client), e.surroundings);
  }
}
