/**
 * The realizer (src/lib/network_realizer.c): the outer state machine that drives the client towards a
 * target state, and the runs an application can make with it.
 */
module RealizerModel {
  import opened StepBuffers
  import opened ClientModel

  datatype RealizeState = RealizeInit | RealizeReInit | RealizeCleared | RealizeSynced | RealizeDisconnected

  datatype Realizer = Realizer(target: RealizeState, state: RealizeState, client: Client)

  function Init(r: Realizer, transport: seq<Arrival>): Realizer {
    Realizer(RealizeInit, RealizeInit, InitClient(r.client, transport))
  }

  function ReInit(r: Realizer, transport: seq<Arrival>): Realizer {
    Realizer(RealizeInit, RealizeReInit, ReInitClient(r.client, transport))
  }

  function Reset(r: Realizer): Realizer {
    r.(state := RealizeCleared, client := ResetClient(r.client))
  }

  function JoinGame(r: Realizer): Realizer {
    r.(target := RealizeSynced, client := r.client.(phase := JoiningParticipant))
  }

  function QuitGame(r: Realizer): Realizer {
    r.(target := RealizeCleared, client := r.client.(state := Disconnected))
  }

  /** The part of an update that moves on towards the target. */
  function Promote(r: Realizer): Realizer {
    if r.target == r.state then r
    else match r.target
      case RealizeCleared => r.(state := RealizeCleared)
      case RealizeSynced =>
        (match r.client.state
         case Idle => r.(client := r.client.(state := RequestingConnect, waitTime := 0))
         case Connected =>
           r.(client := r.client.(state := JoiningRequestingState, phase := JoiningParticipant, waitTime := 0))
         case Synced => r.(state := RealizeSynced, client := r.client.(waitTime := 0))
         case _ => r)
      case _ => r
  }

  predicate RunsClient(r: Realizer) {
    !r.client.state.Disconnected? && !r.state.RealizeCleared? && !r.target.RealizeInit?
  }

  datatype Advanced = Advanced(realizer: Realizer, rounds: seq<Round>)

  function Update(r: Realizer, s: Surroundings): Advanced {
    if r.client.state.Disconnected? then Advanced(r.(state := RealizeDisconnected), [])
    else if RunsClient(r) then
      var sent := Updated(r.client, s);
      Advanced(Promote(r.(client := sent.client)), sent.rounds)
    else Advanced(Promote(r), [])
  }

  // ---------------------------------------------------------------- runs

  datatype Event =
    | InitEvent(transport: seq<Arrival>)
    | ReInitEvent(transport: seq<Arrival>)
    | ResetEvent
    | JoinGameEvent
    | QuitGameEvent
    | UpdateEvent(arrivals: seq<Arrival>, surroundings: Surroundings)
    | ReadStepEvent
    | WriteStepEvent(payload: Octets)

  /** What the transport has collected since the last update. */
  function Deliver(r: Realizer, arrivals: seq<Arrival>): Realizer {
    r.(client := r.client.(inbox := r.client.inbox + arrivals))
  }

  function Step(r: Realizer, e: Event): Advanced {
    match e
    case InitEvent(transport) => Advanced(Init(r, transport), [])
    case ReInitEvent(transport) => Advanced(ReInit(r, transport), [])
    case ResetEvent => Advanced(Reset(r), [])
    case JoinGameEvent => Advanced(JoinGame(r), [])
    case QuitGameEvent => Advanced(QuitGame(r), [])
    case UpdateEvent(arrivals, s) => Update(Deliver(r, arrivals), s)
    case ReadStepEvent => Advanced(r.(client := ReadStep(r.client).0), [])
    case WriteStepEvent(payload) => Advanced(r.(client := WriteStep(r.client, payload)), [])
  }

  /** The state after a run. */
  function After(r: Realizer, run: seq<Event>): Realizer {
    if run == [] then r
    else Step(After(r, run[..|run| - 1]), run[|run| - 1]).realizer
  }

  predicate StartsOver(e: Event) {
    e.InitEvent? || e.ReInitEvent? || e.ResetEvent?
  }

  /** Everything committed for sending since the last time the run started over. */
  function RoundsOf(r: Realizer, run: seq<Event>): seq<Round> {
    if run == [] then []
    else
      var earlier, last := run[..|run| - 1], run[|run| - 1];
      if StartsOver(last) then [] else RoundsOf(r, earlier) + Step(After(r, earlier), last).rounds
  }

  lemma {:induction false} AfterExtends(r: Realizer, run: seq<Event>, e: Event)
    ensures After(r, run + [e]) == Step(After(r, run), e).realizer
    ensures RoundsOf(r, run + [e]) == if StartsOver(e) then [] else RoundsOf(r, run) + Step(After(r, run), e).rounds
  {
    var all := run + [e];
    assert all[..|all| - 1] == run;
  }
}
