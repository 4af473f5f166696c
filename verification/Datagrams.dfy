/** The ids of datagrams, sent and received, and the datagrams that went missing in between. */
module Datagrams {
  import opened Wrappers
  import opened ConnectionQuality
  import opened StepBuffers
  import opened ClientModel
  import opened RealizerModel
  import opened Handshake

  // ---------------------------------------------------------------- sent

  /** Consecutive ids from `from`: none is skipped, none is used twice. */
  predicate Numbered(rounds: seq<Round>, from: nat) {
    forall i :: 0 <= i < |rounds| ==> rounds[i].id == from + i
  }

  lemma SendingNumbers(c: Client, s: Surroundings)
    ensures var sent := HandleState(c, s);
            Numbered(sent.rounds, c.orderedOut) && sent.client.orderedOut == c.orderedOut + |sent.rounds|
  {
  }

  lemma TakeNextKeepsOut(c: Client)
    requires c.inbox != []
    ensures TakeNext(c).client.orderedOut == c.orderedOut
  {
    hide CopyReady, DiscardUpTo, Insert, Seated;
  }

  lemma {:induction false} ReceiveKeepsOut(c: Client)
    ensures ReceiveAll(c).client.orderedOut == c.orderedOut
    decreases |c.inbox|
  {
    hide TakeNext;
    if c.inbox != [] {
      TakeNextPops(c);
      TakeNextKeepsOut(c);
      ReceiveKeepsOut(TakeNext(c).client);
    }
  }

  lemma UpdatedNumbers(c: Client, s: Surroundings)
    ensures var sent := Updated(c, s);
            Numbered(sent.rounds, c.orderedOut) && sent.client.orderedOut == c.orderedOut + |sent.rounds|
  {
    hide ReceiveAll, HandleState, Rating;
    ReceiveKeepsOut(c);
    SendingNumbers(JudgeQuality(ReceiveAll(c).client), s);
  }

  lemma StepNumbers(r: Realizer, e: Event)
    ensures var step := Step(r, e);
            if StartsOver(e) then step.realizer.client.orderedOut == 0
            else Numbered(step.rounds, r.client.orderedOut)
                 && step.realizer.client.orderedOut == r.client.orderedOut + |step.rounds|
  {
    hide Updated;
    if e.UpdateEvent? {
      UpdatedNumbers(Deliver(r, e.arrivals).client, e.surroundings);
    }
  }

  /** The ids of the datagrams the transport was given. */
  function HandedIds(rounds: seq<Round>): seq<nat> {
    if rounds == [] then []
    else
      var n := |rounds| - 1;
      HandedIds(rounds[..n]) + if rounds[n].handed then [rounds[n].id] else []
  }

  function KeptBack(rounds: seq<Round>): nat {
    if rounds == [] then 0
    else KeptBack(rounds[..|rounds| - 1]) + if rounds[|rounds| - 1].handed then 0 else 1
  }

  predicate StrictlyIncreasing(ids: seq<int>) {
    forall i, j :: 0 <= i < j < |ids| ==> ids[i] < ids[j]
  }

  lemma {:induction false} HandedIncrease(rounds: seq<Round>)
    requires Numbered(rounds, 0)
    ensures var ids := HandedIds(rounds);
            StrictlyIncreasing(ids) && (ids != [] ==> ids[|ids| - 1] < |rounds|) && |ids| + KeptBack(rounds) == |rounds|
  {
    if rounds != [] {
      HandedIncrease(rounds[..|rounds| - 1]);
    }
  }

  lemma {:induction false} RoundsAreNumbered(memory: Realizer, transport: seq<Arrival>, run: seq<Event>)
    ensures var r := Init(memory, transport);
            Numbered(RoundsOf(r, run), 0) && After(r, run).client.orderedOut == |RoundsOf(r, run)|
  {
    hide Step;
    var r := Init(memory, transport);
    if run != [] {
      var earlier, last := run[..|run| - 1], run[|run| - 1];
      RoundsAreNumbered(memory, transport, earlier);
      StepNumbers(After(r, earlier), last);
    }
  }

  /**
   * Since the last fresh start, every id has been committed for one datagram only; those handed to the
   * transport strictly increase, and the ids it never saw are those of the rounds that were kept back.
   */
  lemma OutgoingIds(memory: Realizer, transport: seq<Arrival>, run: seq<Event>)
    ensures var r := Init(memory, transport);
            var rounds := RoundsOf(r, run);
            && Numbered(rounds, 0)
            && StrictlyIncreasing(HandedIds(rounds))
            && After(r, run).client.orderedOut == |HandedIds(rounds)| + KeptBack(rounds)
  {
    RoundsAreNumbered(memory, transport, run);
    HandedIncrease(RoundsOf(Init(memory, transport), run));
  }

  // ---------------------------------------------------------------- received

  function CountDropped(packets: seq<LagometerPacket>): nat {
    multiset(packets)[DroppedPacket]
  }

  function CountReceived(packets: seq<LagometerPacket>): nat {
    multiset(packets)[ReceivedPacket]
  }

  /** The ids accepted so far, what has been added to the dropped-datagram counter, and the step responses handled. */
  datatype Book = Book(ids: seq<int>, counted: int, responses: nat)

  function Posted(b: Book, c: Client): Book
    requires c.inbox != []
  {
    match c.inbox[0]
    case TransportError(_) => b
    case Incoming(d) =>
      Book(if PassesOrder(c, d) then b.ids + [d.id] else b.ids,
           b.counted + Feed(c, d).client.quality.dropped - c.quality.dropped,
           b.responses + if Handled(c, d) && d.message.GameStepResponse? then 1 else 0)
  }

  function BookOfLoop(b: Book, c: Client): Book
    decreases |c.inbox|
  {
    if c.inbox == [] then b
    else
      TakeNextPops(c);
      if TakeNext(c).result < 0 then Posted(b, c) else BookOfLoop(Posted(b, c), TakeNext(c).client)
  }

  /**
   * The books balance: what lies between the first and the last accepted id was either accepted or counted as
   * dropped.
   */
  predicate Balanced(b: Book, c: Client) {
    && StrictlyIncreasing(b.ids)
    && CountDropped(c.lagometer) == b.counted && CountReceived(c.lagometer) == b.responses
    && (if b.ids == [] then c.orderedIn.None? && b.counted == 0
        else
          var first, last := b.ids[0], b.ids[|b.ids| - 1];
          c.orderedIn == Some(last) && last - first == |b.ids| - 1 + b.counted)
  }

  lemma {:induction false} DroppedPacketsCount(count: nat)
    ensures CountDropped(DroppedPackets(count)) == count && CountReceived(DroppedPackets(count)) == 0
  {
    if count > 0 {
      DroppedPacketsCount(count - 1);
    }
  }

  lemma RecordDropsCounts(c: Client, count: int)
    ensures var c' := RecordDrops(c, count);
            var more := if count > 0 then count else 0;
            && CountDropped(c'.lagometer) == CountDropped(c.lagometer) + more
            && CountReceived(c'.lagometer) == CountReceived(c.lagometer)
            && c'.quality.dropped == c.quality.dropped + more && c'.orderedIn == c.orderedIn
  {
    if count > 0 {
      DroppedPacketsCount(count);
    }
  }

  lemma DispatchKeepsBook(c: Client, m: Message)
    ensures var c' := Dispatch(c, m).client;
            && CountDropped(c'.lagometer) == CountDropped(c.lagometer)
            && CountReceived(c'.lagometer) == CountReceived(c.lagometer) + (if m.GameStepResponse? then 1 else 0)
            && c'.quality.dropped == c.quality.dropped && c'.orderedIn == c.orderedIn
  {
    hide CopyReady, DiscardUpTo, Insert, Seated;
  }

  lemma FeedCounts(c: Client, d: Datagram)
    ensures var c' := Feed(c, d).client;
            var missing := if PassesOrder(c, d) then ForwardDistance(c.orderedIn, d.id) - 1 else 0;
            && CountDropped(c'.lagometer) == CountDropped(c.lagometer) + missing
            && CountReceived(c'.lagometer) == CountReceived(c.lagometer)
               + (if Handled(c, d) && d.message.GameStepResponse? then 1 else 0)
            && c'.quality.dropped == c.quality.dropped + missing
            && c'.orderedIn == if PassesOrder(c, d) then Some(d.id) else c.orderedIn
  {
    hide Dispatch, RecordDrops, CountDropped, CountReceived;
    var c1 := RecordDrops(c.(orderedIn := Some(d.id)), ForwardDistance(c.orderedIn, d.id) - 1);
    RecordDropsCounts(c.(orderedIn := Some(d.id)), ForwardDistance(c.orderedIn, d.id) - 1);
    if d.pong.Parsed? {
      DispatchKeepsBook(c1.(quality := LatencySampled(c1.quality, d.pong.value)), d.message);
    }
  }

  lemma TakeNextBalances(b: Book, c: Client)
    requires c.inbox != [] && Balanced(b, c)
    ensures Balanced(Posted(b, c), TakeNext(c).client)
  {
    hide Feed, CountDropped, CountReceived;
    if c.inbox[0].Incoming? {
      var d := c.inbox[0].datagram;
      FeedCounts(c, d);
      FeedCounts(c.(inbox := c.inbox[1..]), d);
    }
  }

  lemma {:induction false} LoopBalances(b: Book, c: Client)
    requires Balanced(b, c)
    ensures Balanced(BookOfLoop(b, c), ReceiveAll(c).client)
    decreases |c.inbox|
  {
    hide TakeNext, Balanced, Posted;
    if c.inbox != [] {
      TakeNextPops(c);
      TakeNextBalances(b, c);
      if TakeNext(c).result >= 0 {
        LoopBalances(Posted(b, c), TakeNext(c).client);
      }
    }
  }

  function BookOf(r: Realizer, run: seq<Event>): Book {
    if run == [] then Book([], 0, 0)
    else
      var earlier, last := run[..|run| - 1], run[|run| - 1];
      if StartsOver(last) then Book([], 0, 0)
      else if Listens(After(r, earlier), last) then
        BookOfLoop(BookOf(r, earlier), Deliver(After(r, earlier), last.arrivals).client)
      else BookOf(r, earlier)
  }

  lemma SendingKeepsBook(c: Client, s: Surroundings)
    ensures var c' := HandleState(c, s).client; c'.lagometer == c.lagometer && c'.orderedIn == c.orderedIn
  {
  }

  lemma UpdatedKeepsBook(c: Client, s: Surroundings)
    ensures var c', received := Updated(c, s).client, ReceiveAll(c).client;
            c'.lagometer == received.lagometer && c'.orderedIn == received.orderedIn
  {
    hide ReceiveAll, HandleState, Rating;
    SendingKeepsBook(JudgeQuality(ReceiveAll(c).client), s);
  }

  lemma StepBook(r: Realizer, e: Event)
    ensures var c' := Step(r, e).realizer.client;
            if StartsOver(e) then c'.lagometer == [] && c'.orderedIn.None?
            else if Listens(r, e) then
              var received := ReceiveAll(Deliver(r, e.arrivals).client).client;
              c'.lagometer == received.lagometer && c'.orderedIn == received.orderedIn
            else c'.lagometer == r.client.lagometer && c'.orderedIn == r.client.orderedIn
  {
    hide ReceiveAll, Updated;
    if Listens(r, e) {
      UpdatedKeepsBook(Deliver(r, e.arrivals).client, e.surroundings);
    }
  }

  /**
   * Accepted ids strictly increase, and their span splits into the later accepted datagrams and the drops:
   * the same drops that the lagometer shows, beside the step responses handled, and that were added to the counter
   * of the detector.
   */
  lemma {:induction false} DropsTelescope(memory: Realizer, transport: seq<Arrival>, run: seq<Event>)
    ensures Balanced(BookOf(Init(memory, transport), run), After(Init(memory, transport), run).client)
  {
    hide Step, ReceiveAll, BookOfLoop, Listens;
    var r := Init(memory, transport);
    if run == [] {
      assert r.client.lagometer == [] && r.client.orderedIn.None?;
    } else {
      var earlier, last := run[..|run| - 1], run[|run| - 1];
      DropsTelescope(memory, transport, earlier);
      StepBook(After(r, earlier), last);
      if !StartsOver(last) && Listens(After(r, earlier), last) {
        ListeningBook(BookOf(r, earlier), After(r, earlier), last);
      }
    }
  }

  lemma ListeningBook(b: Book, r: Realizer, e: Event)
    requires Listens(r, e) && Balanced(b, r.client)
    ensures var c := Deliver(r, e.arrivals).client; Balanced(BookOfLoop(b, c), ReceiveAll(c).client)
  {
    hide ReceiveAll, BookOfLoop;
    LoopBalances(b, Deliver(r, e.arrivals).client);
  }
}
