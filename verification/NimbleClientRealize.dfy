/** The realizer struct with its embedded client, proved against `RealizerModel`. */
module NimbleClientRealizes {
  import opened ClientModel
  import opened NimbleClients
  import Model = RealizerModel

  class NimbleClientRealize {
    var targetState: Model.RealizeState
    var state: Model.RealizeState
    const client: NimbleClient

    ghost predicate Valid()
      reads this, client
    {
      client.Valid()
    }

    ghost function View(): Model.Realizer
      requires Valid()
      reads this, client, client.localParticipantLookup, client.quality
    {
      Model.Realizer(targetState, state, client.View())
    }

    constructor (capacity: nat)
      ensures Valid() && fresh(client) && fresh(client.localParticipantLookup) && fresh(client.quality)
    {
      targetState, state := Model.RealizeInit, Model.RealizeInit;
      client := new NimbleClient(capacity);
    }

    method Init(transport: seq<Arrival>)
      requires Valid()
      modifies this, client, client.localParticipantLookup, client.quality
      ensures Valid() && View() == Model.Init(old(View()), transport)
    {
      targetState := Model.RealizeInit;
      state := Model.RealizeInit;
      client.Init(transport);
    }

    method ReInit(transport: seq<Arrival>)
      requires Valid()
      modifies this, client, client.localParticipantLookup, client.quality
      ensures Valid() && View() == Model.ReInit(old(View()), transport)
    {
      targetState := Model.RealizeInit;
      state := Model.RealizeReInit;
      client.ReInit(transport);
    }

    method Reset()
      requires Valid()
      modifies this, client, client.localParticipantLookup, client.quality
      ensures Valid() && View() == Model.Reset(old(View()))
    {
      client.Reset();
      state := Model.RealizeCleared;
    }

    method JoinGame()
      requires Valid()
      modifies this, client
      ensures Valid() && View() == Model.JoinGame(old(View()))
    {
      targetState := Model.RealizeSynced;
      client.joinParticipantPhase := JoiningParticipant;
    }

    method QuitGame()
      requires Valid()
      modifies this, client
      ensures Valid() && View() == Model.QuitGame(old(View()))
    {
      client.Disconnect();
      targetState := Model.RealizeCleared;
    }

    /** The switch over the target state that ends an update. */
    method MoveOn()
      requires Valid()
      modifies this`state, client`state, client`waitTime, client`joinParticipantPhase
      ensures Valid() && View() == Model.Promote(old(View()))
    {
      if targetState == state {
        return;
      }
      match targetState {
        case RealizeInit =>
        case RealizeReInit =>
        case RealizeDisconnected =>
        case RealizeCleared =>
          if state != Model.RealizeCleared {
            state := targetState;
          }
        case RealizeSynced =>
          match client.state {
            case Idle =>
              client.state := RequestingConnect;
              client.waitTime := 0;
            case Connected =>
              client.state := JoiningRequestingState;
              client.joinParticipantPhase := JoiningParticipant;
              client.waitTime := 0;
            case Synced =>
              state := Model.RealizeSynced;
              client.waitTime := 0;
            case RequestingConnect =>
            case JoiningRequestingState =>
            case JoiningDownloadingState =>
            case Disconnected =>
          }
      }
    }

    method Update(s: Surroundings) returns (rounds: seq<Round>)
      requires Valid()
      modifies this, client, client.localParticipantLookup, client.quality
      ensures Valid() && Model.Advanced(View(), rounds) == Model.Update(old(View()), s)
    {
      hide Updated, Model.Promote;
      rounds := [];
      if client.state == Disconnected {
        state := Model.RealizeDisconnected;
        return;
      }
      if state != Model.RealizeCleared && targetState != Model.RealizeInit {
        var status;
        rounds, status := client.Update(s);
      }
      MoveOn();
    }

    method Perform(e: Model.Event) returns (ghost rounds: seq<Round>)
      requires Valid()
      modifies this, client, client.localParticipantLookup, client.quality
      ensures Valid() && Model.Advanced(View(), rounds) == Model.Step(old(View()), e)
    {
      rounds := [];
      hide Model.Init, Model.ReInit, Model.Reset, Model.JoinGame, Model.QuitGame, Model.Update;
      match e {
        case InitEvent(transport) => Init(transport);
        case ReInitEvent(transport) => ReInit(transport);
        case ResetEvent => Reset();
        case JoinGameEvent => JoinGame();
        case QuitGameEvent => QuitGame();
        case UpdateEvent(arrivals, s) =>
          client.Collect(arrivals);
          var sent := Update(s);
          rounds := sent;
        case ReadStepEvent => var step := client.Read();
        case WriteStepEvent(payload) => client.Write(payload);
      }
    }

    /** The application's loop: what holds of `After` and `RoundsOf` over all runs holds of this object. */
    method Play(run: seq<Model.Event>) returns (ghost rounds: seq<Round>)
      requires Valid()
      modifies this, client, client.localParticipantLookup, client.quality
      ensures Valid() && View() == Model.After(old(View()), run) && rounds == Model.RoundsOf(old(View()), run)
    {
      hide Model.Step;
      assert run[..0] == [];
      rounds := [];
      for i := 0 to |run|
        invariant Valid() && View() == Model.After(old(View()), run[..i])
        invariant rounds == Model.RoundsOf(old(View()), run[..i])
      {
        ghost var more := Perform(run[i]);
        rounds := if Model.StartsOver(run[i]) then [] else rounds + more;
        assert run[..i + 1][..i] == run[..i];
      }
      assert run[..|run|] == run;
    }
  }
}
