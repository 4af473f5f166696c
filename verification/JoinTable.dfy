/** The table of local participants: what a lookup finds after a join, and what can change it. */
module JoinTable {
  import opened Wrappers
  import opened ConnectionQuality
  import opened StepBuffers
  import opened ClientModel
  import opened RealizerModel
  import opened Coupling
  import opened Handshake

  /** No two participants claim one local index with different ids; both are stored as octets. */
  predicate Unambiguous(ps: seq<Participant>) {
    forall i, j :: 0 <= i < j < |ps| && ps[i].localIndex % 0x100 == ps[j].localIndex % 0x100 ==>
      ps[i].participantId % 0x100 == ps[j].participantId % 0x100
  }

  predicate Claims(p: Participant, localIndex: Octet) {
    p.localIndex % 0x100 == localIndex
  }

  predicate Seats(ps: seq<Participant>, localIndex: Octet) {
    exists i :: 0 <= i < |ps| && Claims(ps[i], localIndex)
  }

  predicate IsFirst(lookup: seq<Entry>, i: nat, localIndex: Octet)
    requires i < |lookup|
  {
    lookup[i].localIndex == localIndex && forall j :: 0 <= j < i ==> lookup[j].localIndex != localIndex
  }

  /** A lookup returns the first entry in use for the index. */
  lemma {:induction false} LookupFindsFirst(lookup: seq<Entry>, count: nat, localIndex: Octet)
    requires count <= |lookup|
    ensures var found := FindParticipant(lookup, count, localIndex);
            && (found.None? <==> forall i :: 0 <= i < count ==> lookup[i].localIndex != localIndex)
            && (found.Some? ==> exists i :: 0 <= i < count && IsFirst(lookup, i, localIndex)
                                            && lookup[i].participantId == found.value)
  {
    if count > 0 {
      LookupFindsFirst(lookup, count - 1, localIndex);
      var earlier := FindParticipant(lookup, count - 1, localIndex);
      if earlier.None? && lookup[count - 1].localIndex == localIndex {
        assert IsFirst(lookup, count - 1, localIndex);
      }
    }
  }

  /** The first of the participants to claim an index. */
  function FirstClaim(ps: seq<Participant>, localIndex: Octet): Option<Octet> {
    if ps == [] then None
    else if Claims(ps[0], localIndex) then Some(ps[0].participantId % 0x100)
    else FirstClaim(ps[1..], localIndex)
  }

  /** The table begins with the participants in their order, index and id as octets. */
  predicate Lists(c: Client, ps: seq<Participant>) {
    && c.participantCount == |ps| <= MAX_LOCAL_USERS
    && forall i :: 0 <= i < |ps| ==>
         c.lookup[i] == Entry(true, ps[i].localIndex % 0x100, ps[i].participantId % 0x100)
  }

  function Answer(c: Client, localIndex: Octet): Option<Octet>
    requires c.participantCount <= MAX_LOCAL_USERS
  {
    FindParticipant(c.lookup, c.participantCount, localIndex)
  }

  lemma {:induction false} FirstClaimIsFirst(ps: seq<Participant>, localIndex: Octet, k: nat)
    requires k < |ps| && Claims(ps[k], localIndex) && forall j :: 0 <= j < k ==> !Claims(ps[j], localIndex)
    ensures FirstClaim(ps, localIndex) == Some(ps[k].participantId % 0x100)
  {
    if k > 0 {
      assert !Claims(ps[0], localIndex);
      forall j | 0 <= j < k - 1
        ensures !Claims(ps[1..][j], localIndex)
      {
        assert !Claims(ps[j + 1], localIndex);
      }
      FirstClaimIsFirst(ps[1..], localIndex, k - 1);
    }
  }

  lemma {:induction false} NoClaim(ps: seq<Participant>, localIndex: Octet)
    ensures FirstClaim(ps, localIndex).None? <==> !Seats(ps, localIndex)
  {
    if ps != [] {
      NoClaim(ps[1..], localIndex);
      if Seats(ps[1..], localIndex) {
        var i :| 0 <= i < |ps[1..]| && Claims(ps[1..][i], localIndex);
        assert Claims(ps[i + 1], localIndex);
      }
      if Seats(ps, localIndex) && !Claims(ps[0], localIndex) {
        var i :| 0 <= i < |ps| && Claims(ps[i], localIndex);
        assert Claims(ps[1..][i - 1], localIndex);
      }
    }
  }

  /** Lookups in such a table answer with the first claim. */
  lemma ListedAnswers(c: Client, ps: seq<Participant>, localIndex: Octet)
    requires Lists(c, ps)
    ensures Answer(c, localIndex) == FirstClaim(ps, localIndex)
  {
    hide FindParticipant, FirstClaim;
    LookupFindsFirst(c.lookup, |ps|, localIndex);
    NoClaim(ps, localIndex);
    forall i | 0 <= i < |ps|
      ensures Claims(ps[i], localIndex) <==> c.lookup[i].localIndex == localIndex
    {
    }
    var found := Answer(c, localIndex);
    if found.Some? {
      var k :| 0 <= k < |ps| && IsFirst(c.lookup, k, localIndex) && c.lookup[k].participantId == found.value;
      FirstClaimIsFirst(ps, localIndex, k);
    }
  }

  lemma AcceptedTable(c: Client, ps: Participants)
    requires c.phase.JoiningParticipant?
    ensures Lists(OnJoinGameResponse(c, Parsed(ps)).client, ps)
  {
  }

  /** Every participant is found under its own index, with its own id. */
  predicate AllFound(c: Client, ps: seq<Participant>)
    requires c.participantCount <= MAX_LOCAL_USERS
  {
    forall i :: 0 <= i < |ps| ==> Answer(c, ps[i].localIndex % 0x100) == Some(ps[i].participantId % 0x100)
  }

  /**
   * After an accepted join response every participant is found under its own local index, with its own id, if and
   * only if no index is claimed with two ids, and an index that nobody claimed is not found.
   */
  lemma JoinRoundTrip(c: Client, ps: Participants)
    requires c.phase.JoiningParticipant?
    ensures var c' := OnJoinGameResponse(c, Parsed(ps)).client;
            && c'.participantCount == |ps| && c'.phase.JoinedParticipant?
            && (AllFound(c', ps) <==> Unambiguous(ps))
            && forall localIndex: Octet :: Answer(c', localIndex).Some? <==> Seats(ps, localIndex)
  {
    AcceptedTable(c, ps);
    hide FindParticipant, FirstClaim, Seated;
    var c' := OnJoinGameResponse(c, Parsed(ps)).client;
    forall localIndex: Octet
      ensures Answer(c', localIndex) == FirstClaim(ps, localIndex)
      ensures Answer(c', localIndex).Some? <==> Seats(ps, localIndex)
    {
      ListedAnswers(c', ps, localIndex);
      NoClaim(ps, localIndex);
    }
    if Unambiguous(ps) {
      forall i | 0 <= i < |ps|
        ensures FirstClaim(ps, ps[i].localIndex % 0x100) == Some(ps[i].participantId % 0x100)
      {
        UnambiguousClaim(ps, i);
      }
    }
    if AllFound(c', ps) {
      forall i, j | 0 <= i < j < |ps| && ps[i].localIndex % 0x100 == ps[j].localIndex % 0x100
        ensures ps[i].participantId % 0x100 == ps[j].participantId % 0x100
      {
        assert Answer(c', ps[i].localIndex % 0x100) == Some(ps[i].participantId % 0x100);
        assert Answer(c', ps[j].localIndex % 0x100) == Some(ps[j].participantId % 0x100);
      }
    }
  }

  lemma UnambiguousClaim(ps: seq<Participant>, i: nat)
    requires i < |ps| && Unambiguous(ps)
    ensures FirstClaim(ps, ps[i].localIndex % 0x100) == Some(ps[i].participantId % 0x100)
  {
    hide FirstClaim;
    var localIndex: Octet := ps[i].localIndex % 0x100;
    var k := EarliestClaim(ps, localIndex, i);
    FirstClaimIsFirst(ps, localIndex, k);
  }

  lemma {:induction false} EarliestClaim(ps: seq<Participant>, localIndex: Octet, i: nat) returns (k: nat)
    requires i < |ps| && Claims(ps[i], localIndex)
    ensures k <= i && Claims(ps[k], localIndex) && forall j :: 0 <= j < k ==> !Claims(ps[j], localIndex)
  {
    k := i;
    if j :| 0 <= j < i && Claims(ps[j], localIndex) {
      k := EarliestClaim(ps, localIndex, j);
    }
  }

  /** Two participants that claim one local index: the second cannot be found. */
  lemma AmbiguousJoinLosesOne(c: Client)
    requires c.phase.JoiningParticipant?
    ensures var ps := [Participant(1, 10), Participant(1, 20)];
            var c' := OnJoinGameResponse(c, Parsed(ps)).client;
            c'.participantCount == 2 && Answer(c', 1) == Some(10) && !AllFound(c', ps)
  {
    var ps := [Participant(1, 10), Participant(1, 20)];
    assert !Unambiguous(ps) by {
      assert ps[0].localIndex % 0x100 == ps[1].localIndex % 0x100;
    }
    JoinRoundTrip(c, ps);
    AcceptedTable(c, ps);
    ListedAnswers(OnJoinGameResponse(c, Parsed(ps)).client, ps, 1);
  }

  // ---------------------------------------------------------------- stability

  predicate SameTable(c: Client, c': Client) {
    c'.lookup == c.lookup && c'.participantCount == c.participantCount
  }

  lemma DispatchKeepsTable(c: Client, m: Message)
    ensures SameTable(c, Dispatch(c, m).client)
            || (m.JoinGameResponse? && m.join.Parsed? && c.phase.JoiningParticipant?)
  {
    hide CopyReady, DiscardUpTo, Insert, Seated;
  }

  lemma TakeNextKeepsTable(c: Client)
    requires c.inbox != [] && !(c.inbox[0].Incoming? && TakesSeat(c, c.inbox[0].datagram))
    ensures SameTable(c, TakeNext(c).client)
  {
    hide Dispatch, DroppedPackets;
    if c.inbox[0].Incoming? {
      var d := c.inbox[0].datagram;
      var c1 := RecordDrops(c.(inbox := c.inbox[1..], orderedIn := Some(d.id)), ForwardDistance(c.orderedIn, d.id) - 1);
      if d.pong.Parsed? {
        DispatchKeepsTable(c1.(quality := LatencySampled(c1.quality, d.pong.value)), d.message);
      }
    }
  }

  lemma {:induction false} ReceiveKeepsTable(c: Client)
    requires !LoopTakesSeat(c)
    ensures SameTable(c, ReceiveAll(c).client)
    decreases |c.inbox|
  {
    hide TakeNext, TakesSeat;
    if c.inbox != [] {
      TakeNextPops(c);
      TakeNextKeepsTable(c);
      if TakeNext(c).result >= 0 {
        ReceiveKeepsTable(TakeNext(c).client);
      }
    }
  }

  lemma SendingKeepsTable(c: Client, s: Surroundings)
    ensures var c' := HandleState(c, s).client; SameTable(c, c') && c'.phase == c.phase
  {
  }

  lemma UpdatedKeepsTable(c: Client, s: Surroundings)
    ensures var c', received := Updated(c, s).client, ReceiveAll(c).client;
            SameTable(received, c') && c'.phase == received.phase
  {
    hide ReceiveAll, HandleState, Rating;
    SendingKeepsTable(JudgeQuality(ReceiveAll(c).client), s);
  }

  lemma StepKeepsTable(r: Realizer, e: Event)
    requires !StartsOver(e) && !AcceptsSeat(r, e)
    ensures SameTable(r.client, Step(r, e).realizer.client)
  {
    hide Updated, ReceiveAll, LoopTakesSeat;
    if Listens(r, e) {
      ReceiveKeepsTable(Deliver(r, e.arrivals).client);
      UpdatedKeepsTable(Deliver(r, e.arrivals).client, e.surroundings);
    }
  }

  /** From any state, only a fresh start or a join response accepted while asking to join leads to another table. */
  lemma {:induction false} TableIsStable(r: Realizer, run: seq<Event>)
    requires !SeatTaken(r, run) && forall i :: 0 <= i < |run| ==> !StartsOver(run[i])
    ensures SameTable(r.client, After(r, run).client)
  {
    hide Step, AcceptsSeat;
    if run != [] {
      TakenBefore(r, run);
      TableIsStable(r, run[..|run| - 1]);
      StepKeepsTable(After(r, run[..|run| - 1]), run[|run| - 1]);
    }
  }

  /** Settled: not asking to join, and too far along for the handshake to ask again. */
  predicate Settled(c: Client) {
    && !c.phase.JoiningParticipant?
    && (c.state.JoiningRequestingState? || c.state.JoiningDownloadingState? || c.state.Synced? || c.state.Disconnected?)
  }

  lemma DispatchSettled(c: Client, m: Message)
    requires !c.phase.JoiningParticipant?
    ensures !Dispatch(c, m).client.phase.JoiningParticipant?
  {
    hide CopyReady, DiscardUpTo, Insert, Seated;
  }

  lemma TakeNextSettled(c: Client)
    requires c.inbox != [] && Settled(c)
    ensures Settled(TakeNext(c).client) && !(c.inbox[0].Incoming? && TakesSeat(c, c.inbox[0].datagram))
  {
    hide Dispatch, DroppedPackets;
    if c.inbox[0].Incoming? {
      var d := c.inbox[0].datagram;
      FeedMoves(c.(inbox := c.inbox[1..]), d);
      var c1 := RecordDrops(c.(inbox := c.inbox[1..], orderedIn := Some(d.id)), ForwardDistance(c.orderedIn, d.id) - 1);
      if d.pong.Parsed? {
        DispatchSettled(c1.(quality := LatencySampled(c1.quality, d.pong.value)), d.message);
      }
    }
  }

  lemma {:induction false} ReceiveSettled(c: Client)
    requires Settled(c)
    ensures Settled(ReceiveAll(c).client) && !LoopTakesSeat(c)
    decreases |c.inbox|
  {
    hide TakeNext, Settled, TakesSeat;
    if c.inbox != [] {
      TakeNextPops(c);
      TakeNextSettled(c);
      ReceiveSettled(TakeNext(c).client);
    }
  }

  lemma UpdatedSettled(c: Client, s: Surroundings)
    requires Settled(c)
    ensures Settled(Updated(c, s).client)
  {
    hide ReceiveAll, HandleState, Rating;
    ReceiveSettled(c);
    UpdatedKeepsTable(c, s);
    SendingStays(JudgeQuality(ReceiveAll(c).client), s);
  }

  lemma StepSettled(r: Realizer, e: Event)
    requires Settled(r.client) && !StartsOver(e) && !e.JoinGameEvent?
    ensures Settled(Step(r, e).realizer.client) && !AcceptsSeat(r, e)
  {
    hide Updated, LoopTakesSeat;
    if Listens(r, e) {
      ReceiveSettled(Deliver(r, e.arrivals).client);
      UpdatedSettled(Deliver(r, e.arrivals).client, e.surroundings);
    }
  }

  /** Once settled, no join response is accepted, and the table stays, until a fresh start or a new JoinGame. */
  lemma {:induction false} SettledTakesNoSeat(r: Realizer, run: seq<Event>)
    requires Settled(r.client)
    requires forall i :: 0 <= i < |run| ==> !StartsOver(run[i]) && !run[i].JoinGameEvent?
    ensures Settled(After(r, run).client) && !SeatTaken(r, run) && SameTable(r.client, After(r, run).client)
  {
    hide Step, Settled, AcceptsSeat;
    if run != [] {
      TakenBefore(r, run);
      SettledTakesNoSeat(r, run[..|run| - 1]);
      StepSettled(After(r, run[..|run| - 1]), run[|run| - 1]);
      TableIsStable(r, run);
    }
  }

  /** After a fresh start the table is blank until a join response is accepted. */
  lemma BlankUntilJoined(r: Realizer, e: Event, run: seq<Event>)
    requires StartsOver(e) && !SeatTaken(Step(r, e).realizer, run) && forall i :: 0 <= i < |run| ==> !StartsOver(run[i])
    ensures forall i :: 0 <= i < MAX_LOCAL_USERS ==>
              After(Step(r, e).realizer, run).client.lookup[i] == Entry(false, 0, 0)
  {
    hide After, SeatTaken;
    TableIsStable(Step(r, e).realizer, run);
  }

  /**
   * A join response is accepted only while the client is asking to join; it ends that, ends the wait for an answer,
   * and gives up the channel of the download.
   */
  lemma AcceptedOncePerJoin(c: Client, join: Parse<Participants>)
    ensures var c' := OnJoinGameResponse(c, join).client;
            && ((c.phase.JoiningParticipant? && join.Parsed?) || c' == c)
            && !(c'.phase.JoiningParticipant? && join.Parsed?)
            && (c.phase.JoiningParticipant? && join.Parsed? ==> c'.waitTime == c'.joinStateChannel == 0)
  {
  }

  // ---------------------------------------------------------------- the table over whole runs

  /** The join response accepted last, one arrival later. */
  function JoinedNext(ps: Participants, c: Client): Participants
    requires c.inbox != []
  {
    if c.inbox[0].Incoming? && TakesSeat(c, c.inbox[0].datagram) then c.inbox[0].datagram.message.join.value else ps
  }

  function JoinedAfter(ps: Participants, c: Client): Participants
    decreases |c.inbox|
  {
    if c.inbox == [] then ps
    else
      TakeNextPops(c);
      if TakeNext(c).result < 0 then JoinedNext(ps, c) else JoinedAfter(JoinedNext(ps, c), TakeNext(c).client)
  }

  /** The participants of the last join response accepted since the last fresh start; none if there was none. */
  function JoinedOf(r: Realizer, run: seq<Event>): Participants {
    if run == [] then []
    else
      var earlier, last := run[..|run| - 1], run[|run| - 1];
      if StartsOver(last) then []
      else if Listens(After(r, earlier), last) then
        JoinedAfter(JoinedOf(r, earlier), Deliver(After(r, earlier), last.arrivals).client)
      else JoinedOf(r, earlier)
  }

  lemma DispatchLists(c: Client, m: Message)
    requires m.JoinGameResponse? && m.join.Parsed? && c.phase.JoiningParticipant?
    ensures Lists(Dispatch(c, m).client, m.join.value)
  {
    AcceptedTable(c, m.join.value);
  }

  lemma TakeNextLists(c: Client, ps: Participants)
    requires c.inbox != [] && Lists(c, ps)
    ensures Lists(TakeNext(c).client, JoinedNext(ps, c))
  {
    if c.inbox[0].Incoming? && TakesSeat(c, c.inbox[0].datagram) {
      hide Dispatch, DroppedPackets, Lists;
      var d := c.inbox[0].datagram;
      var c1 := RecordDrops(c.(inbox := c.inbox[1..], orderedIn := Some(d.id)), ForwardDistance(c.orderedIn, d.id) - 1);
      DispatchLists(c1.(quality := LatencySampled(c1.quality, d.pong.value)), d.message);
      ListsTable(Dispatch(c1.(quality := LatencySampled(c1.quality, d.pong.value)), d.message).client,
                 TakeNext(c).client, d.message.join.value);
    } else {
      hide TakeNext, TakesSeat;
      TakeNextKeepsTable(c);
    }
  }

  lemma ListsTable(c: Client, c': Client, ps: Participants)
    requires Lists(c, ps) && SameTable(c, c')
    ensures Lists(c', ps)
  {
  }

  lemma {:induction false} ReceiveLists(c: Client, ps: Participants)
    requires Lists(c, ps)
    ensures Lists(ReceiveAll(c).client, JoinedAfter(ps, c))
    decreases |c.inbox|
  {
    hide TakeNext, Lists, JoinedNext;
    if c.inbox != [] {
      TakeNextPops(c);
      TakeNextLists(c, ps);
      if TakeNext(c).result >= 0 {
        ReceiveLists(TakeNext(c).client, JoinedNext(ps, c));
      }
    }
  }

  lemma StepLists(r: Realizer, e: Event, ps: Participants)
    requires Lists(r.client, ps)
    ensures Lists(Step(r, e).realizer.client,
                  if StartsOver(e) then []
                  else if Listens(r, e) then JoinedAfter(ps, Deliver(r, e.arrivals).client) else ps)
  {
    hide Updated, ReceiveAll, JoinedAfter, LoopTakesSeat;
    if StartsOver(e) {
    } else if Listens(r, e) {
      ReceiveLists(Deliver(r, e.arrivals).client, ps);
      UpdatedKeepsTable(Deliver(r, e.arrivals).client, e.surroundings);
    } else {
      StepKeepsTable(r, e);
    }
  }

  lemma {:induction false} AlwaysLists(memory: Realizer, transport: seq<Arrival>, run: seq<Event>)
    ensures var r := Init(memory, transport); Lists(After(r, run).client, JoinedOf(r, run))
  {
    hide Step, Lists, JoinedAfter;
    var r := Init(memory, transport);
    if run == [] {
      NobodyListed(r.client);
    } else {
      var earlier, last := run[..|run| - 1], run[|run| - 1];
      AlwaysLists(memory, transport, earlier);
      StepLists(After(r, earlier), last, JoinedOf(r, earlier));
    }
  }

  lemma NobodyListed(c: Client)
    ensures c.participantCount == 0 ==> Lists(c, [])
  {
  }

  /**
   * Over every run a lookup answers with the first claim of the join response accepted last: nobody is found after
   * a fresh start, and nobody but its participants after a join.
   */
  lemma LookupsFollowLastJoin(memory: Realizer, transport: seq<Arrival>, run: seq<Event>, localIndex: Octet)
    ensures var r := Init(memory, transport);
            var c := After(r, run).client;
            && c.participantCount == |JoinedOf(r, run)|
            && Answer(c, localIndex) == FirstClaim(JoinedOf(r, run), localIndex)
  {
    hide After, JoinedOf;
    var r := Init(memory, transport);
    AlwaysLists(memory, transport, run);
    ListedAnswers(After(r, run).client, JoinedOf(r, run), localIndex);
  }

  // ---------------------------------------------------------------- a refused client

  /** A client that is told that there are no slots left stops asking: in the game, it is settled. */
  lemma RefusalSettles(c: Client)
    requires c.inbox != [] && c.inbox[0].Incoming? && c.state.Synced?
    requires var d := c.inbox[0].datagram; Handled(c, d) && d.message.OutOfSlotsResponse? && d.message.nonce.Parsed?
    ensures var c' := TakeNext(c).client; Settled(c') && c'.phase.OutOfParticipantSlots? && SameTable(c, c')
  {
    hide DroppedPackets;
  }
}
