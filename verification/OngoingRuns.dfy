/** Runs in which the session goes on: updates, and between them the application's reads, writes and joins. */
module OngoingRuns {
  import opened ClientModel
  import opened RealizerModel
  import opened Coupling

  /** Neither a fresh start nor quitting. */
  predicate Continues(e: Event) {
    !StartsOver(e) && !e.QuitGameEvent?
  }

  predicate Ongoing(run: seq<Event>) {
    forall i :: 0 <= i < |run| ==> Continues(run[i])
  }

  function Updates(run: seq<Event>): nat {
    if run == [] then 0
    else Updates(run[..|run| - 1]) + if run[|run| - 1].UpdateEvent? then 1 else 0
  }

  /** What the events between two updates leave alone. */
  lemma BetweenUpdates(r: Realizer, e: Event)
    requires Continues(e) && !e.UpdateEvent?
    ensures var r', c, c' := Step(r, e).realizer, r.client, Step(r, e).realizer.client;
            && Step(r, e).rounds == []
            && r'.state == r.state && r'.target == (if e.JoinGameEvent? then RealizeSynced else r.target)
            && c'.state == c.state && c'.waitTime == c.waitTime && c'.quality == c.quality && c'.inbox == c.inbox
            && c'.phase == (if e.JoinGameEvent? then JoiningParticipant else c.phase)
            && c'.orderedIn == c.orderedIn && c'.joinStateChannel == c.joinStateChannel
  {
  }

  /** An update after which there is nothing for the realizer to do is the update of its client. */
  lemma UpdateOfClient(r: Realizer, e: Event)
    requires Coupled(ShapeOf(r)) && RunsClient(r) && e.UpdateEvent?
    ensures var sent := Updated(Deliver(r, e.arrivals).client, e.surroundings);
            var state := sent.client.state;
            !state.Idle? && !state.Connected? && (state.Synced? ==> r.client.state.Synced?) ==>
              Step(r, e) == Advanced(r.(client := sent.client), sent.rounds)
  {
    hide Updated;
  }
}
