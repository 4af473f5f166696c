/** Every step the client has received is one it has read, one it can read, or one it keeps for later. */
module ReceivedSteps {
  import opened Wrappers
  import opened ConnectionQuality
  import opened StepBuffers
  import opened ClientModel
  import opened RealizerModel
  import opened Handshake
  import opened Delivery

  /** The next arrival is a step response whose steps are stored. */
  predicate BringsSteps(c: Client)
    requires c.inbox != []
  {
    c.inbox[0].Incoming? &&
    var d := c.inbox[0].datagram;
    Handled(c, d) && d.message.GameStepResponse? && d.message.steps.Parsed?
  }

  /** The step ids received since the incoming buffers last started over, one arrival later. */
  function GotNext(got: set<nat>, c: Client): set<nat>
    requires c.inbox != []
  {
    if Enters(c) then {}
    else if BringsSteps(c) then got + IdsOf(c.inbox[0].datagram.message.steps.value)
    else got
  }

  function GotAfter(got: set<nat>, c: Client): set<nat>
    decreases |c.inbox|
  {
    if c.inbox == [] then got
    else
      TakeNextPops(c);
      if TakeNext(c).result < 0 then GotNext(got, c) else GotAfter(GotNext(got, c), TakeNext(c).client)
  }

  function GotOf(r: Realizer, run: seq<Event>): set<nat> {
    if run == [] then {}
    else
      var earlier, last := run[..|run| - 1], run[|run| - 1];
      if StartsOver(last) then {}
      else if Listens(After(r, earlier), last) then
        GotAfter(GotOf(r, earlier), Deliver(After(r, earlier), last.arrivals).client)
      else GotOf(r, earlier)
  }

  lemma DispatchCovers(c: Client, m: Message, got: set<nat>)
    requires Covers(c.pending, got)
    ensures var c' := Dispatch(c, m).client;
            Covers(c'.pending, if !c.state.Synced? && c'.state.Synced? then {}
                               else if m.GameStepResponse? && m.steps.Parsed? then got + IdsOf(m.steps.value)
                               else got)
  {
    hide CopyReady, DiscardUpTo, Insert, Seated, IdsOf;
    if m.GameStepResponse? && m.steps.Parsed? {
      InsertCovers(c.pending, got, m.steps.value);
      CopyCovers(c.authoritative, Insert(c.pending, m.steps.value), c.stepCapacity, got + IdsOf(m.steps.value));
    }
  }

  lemma TakeNextCovers(c: Client, got: set<nat>)
    requires c.inbox != [] && Covers(c.pending, got)
    ensures Covers(TakeNext(c).client.pending, GotNext(got, c))
  {
    hide Dispatch, DroppedPackets, Covers, IdsOf;
    if c.inbox[0].Incoming? {
      var d := c.inbox[0].datagram;
      var c1 := RecordDrops(c.(inbox := c.inbox[1..], orderedIn := Some(d.id)), ForwardDistance(c.orderedIn, d.id) - 1);
      if d.pong.Parsed? {
        DispatchCovers(c1.(quality := LatencySampled(c1.quality, d.pong.value)), d.message, got);
      }
    }
  }

  lemma {:induction false} ReceiveCovers(c: Client, got: set<nat>)
    requires Covers(c.pending, got)
    ensures Covers(ReceiveAll(c).client.pending, GotAfter(got, c))
    decreases |c.inbox|
  {
    hide TakeNext, Covers, GotNext;
    if c.inbox != [] {
      TakeNextPops(c);
      TakeNextCovers(c, got);
      if TakeNext(c).result >= 0 {
        ReceiveCovers(TakeNext(c).client, GotNext(got, c));
      }
    }
  }

  lemma {:induction false} AlwaysCovers(memory: Realizer, transport: seq<Arrival>, run: seq<Event>)
    ensures var r := Init(memory, transport); Covers(After(r, run).client.pending, GotOf(r, run))
  {
    hide Step, ReceiveAll, GotAfter;
    var r := Init(memory, transport);
    if run != [] {
      var earlier, last := run[..|run| - 1], run[|run| - 1];
      AlwaysCovers(memory, transport, earlier);
      StepBuffering(After(r, earlier), last);
      if !StartsOver(last) && Listens(After(r, earlier), last) {
        ReceiveCovers(Deliver(After(r, earlier), last.arrivals).client, GotOf(r, earlier));
      }
    }
  }

  predicate WasRead(seen: seq<(nat, Octets)>, id: nat) {
    exists i :: 0 <= i < |seen| && seen[i].0 == id
  }

  /**
   * A step received since the game state was joined, and not older than it, is never lost: the application has
   * read it, or can read it, or it waits behind a gap or a full buffer.
   */
  lemma NothingReceivedIsLost(memory: Realizer, transport: seq<Arrival>, run: seq<Event>, id: nat)
    requires var r := Init(memory, transport); id in GotOf(r, run) && BaseOf(r, run) <= id
    ensures var r := Init(memory, transport);
            var c := After(r, run).client;
            || WasRead(ReadsOf(r, run), id)
            || c.authoritative.first <= id < WriteId(c.authoritative)
            || id in c.pending.slots
  {
    hide After, GotOf, ReadsOf, BaseOf;
    var r := Init(memory, transport);
    AlwaysCovers(memory, transport, run);
    ReadsAreConsecutive(memory, transport, run);
    var seen, base := ReadsOf(r, run), BaseOf(r, run);
    if id < After(r, run).client.authoritative.first {
      assert seen[id - base].0 == id;
    }
  }

  lemma {:induction false} FirstStepsHold(s: Steps, k: nat, i: nat)
    requires i < k <= |s.items|
    ensures |FirstSteps(s, k)| == k && FirstSteps(s, k)[i] == (s.first + i, s.items[i])
  {
    if i < k - 1 {
      FirstStepsHold(s, k - 1, i);
    } else if i > 0 {
      FirstStepsHold(s, k - 1, i - 1);
    }
  }

  /** A step that can be read is read by as many reads as there are steps before it, and one more. */
  lemma ReadableIsRead(r: Realizer, run: seq<Event>, i: nat)
    requires i < |After(r, run).client.authoritative.items|
    ensures var s, seen := After(r, run).client.authoritative, ReadsOf(r, run + Reading(i + 1));
            seen != [] && seen[|seen| - 1] == (s.first + i, s.items[i])
  {
    hide After, ReadsOf, FirstSteps;
    var s := After(r, run).client.authoritative;
    ReadingDrains(r, run, i + 1);
    FirstStepsHold(s, i + 1, i);
  }
}
