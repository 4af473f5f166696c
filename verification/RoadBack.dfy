/** The only way back into the game after a disconnect or a reset. */
module RoadBack {
  import opened ClientModel
  import opened RealizerModel
  import opened Coupling

  /** The client has given up or quit, or the realizer was Reset and keeps its client from running. */
  predicate Dead(r: Realizer) {
    || r.client.state.Disconnected?
    || (r.state.RealizeCleared? && (r.client.state.Idle? || r.client.state.RequestingConnect?))
  }

  /** Freshly initialised, with nobody having asked to join. */
  predicate Parked(r: Realizer) {
    r.target.RealizeInit? && r.client.state.Idle?
  }

  predicate Initialises(e: Event) {
    e.InitEvent? || e.ReInitEvent?
  }

  /** Some initialisation is followed by a JoinGame. */
  predicate RoadTaken(run: seq<Event>) {
    exists i, j :: 0 <= i < j < |run| && Initialises(run[i]) && run[j].JoinGameEvent?
  }

  predicate Initialised(run: seq<Event>) {
    exists i :: 0 <= i < |run| && Initialises(run[i])
  }

  /** What the event at `i` commits for sending. */
  function RoundsAt(r: Realizer, run: seq<Event>, i: nat): seq<Round>
    requires i < |run|
  {
    Step(After(r, run[..i]), run[i]).rounds
  }

  /** No update of the run commits a datagram for sending. */
  predicate Silent(r: Realizer, run: seq<Event>) {
    forall i :: 0 <= i < |run| ==> RoundsAt(r, run, i) == []
  }

  /** Dead, or parked once an initialisation has happened. */
  predicate Asleep(r: Realizer, initialised: bool) {
    (Dead(r) || (initialised && Parked(r))) && !r.client.state.Synced?
  }

  lemma SleepsOn(r: Realizer, e: Event, initialised: bool)
    requires Asleep(r, initialised) && !(initialised && e.JoinGameEvent?)
    ensures Step(r, e).rounds == []
    ensures Asleep(Step(r, e).realizer, initialised || Initialises(e))
  {
  }

  lemma SilentExtends(r: Realizer, run: seq<Event>, e: Event)
    requires Silent(r, run)
    ensures Step(After(r, run), e).rounds == [] ==> Silent(r, run + [e])
  {
    hide Step;
    var all := run + [e];
    assert all[..|run|] == run;
    if Step(After(r, run), e).rounds == [] {
      forall i | 0 <= i < |all|
        ensures RoundsAt(r, all, i) == []
      {
        if i < |run| {
          assert all[..i] == run[..i];
          assert RoundsAt(r, run, i) == [];
        }
      }
    }
  }

  lemma RoadExtends(run: seq<Event>, e: Event)
    ensures RoadTaken(run) || (Initialised(run) && e.JoinGameEvent?) ==> RoadTaken(run + [e])
    ensures Initialised(run + [e]) == (Initialised(run) || Initialises(e))
  {
    var all := run + [e];
    assert forall i :: 0 <= i < |run| ==> all[i] == run[i];
    assert all[|run|] == e;
    if Initialised(run) {
      var i :| 0 <= i < |run| && Initialises(run[i]);
      assert Initialises(all[i]);
    }
    if RoadTaken(run) {
      var i, j :| 0 <= i < j < |run| && Initialises(run[i]) && run[j].JoinGameEvent?;
      assert Initialises(all[i]) && all[j].JoinGameEvent?;
    }
  }

  /**
   * From a dead realizer, a run that does not initialise and later join never syncs and never sends:
   * JoinGame alone is not enough, and neither is any number of resets or updates.
   */
  lemma {:induction false} NoOtherRoad(r: Realizer, run: seq<Event>)
    requires Dead(r) && !RoadTaken(run)
    ensures Asleep(After(r, run), Initialised(run)) && Silent(r, run)
  {
    if run != [] {
      var earlier, last := run[..|run| - 1], run[|run| - 1];
      assert run == earlier + [last];
      RoadExtends(earlier, last);
      NoOtherRoad(r, earlier);
      SleepsOn(After(r, earlier), last, Initialised(earlier));
      SilentExtends(r, earlier, last);
      AfterExtends(r, earlier, last);
    }
  }

  /** The road is open from every state: a first step of initialising, a second of joining, and the server's answers. */
  lemma RoadIsOpen(r: Realizer)
    ensures exists run: seq<Event> ::
              |run| > 1 && Initialises(run[0]) && run[1].JoinGameEvent? && After(r, run).client.state.Synced?
  {
    var run := ReachSynced(r);
  }
}
