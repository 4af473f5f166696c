/** How far ahead of the server the next predicted step should be (src/lib/client_utils.c). */
module Prediction {
  import opened Wrappers
  import opened StepBuffers

  const MINIMUM_BUFFER_DELTA := 2
  const MAXIMUM_DELTA_INFLUENCE: nat := 5

  /** A tick takes at least a millisecond; the client uses 16. */
  type TickMs = t: nat | 0 < t witness 16

  function Latency(latencyAvg: int32): nat {
    if latencyAvg < 0 then 0 else latencyAvg
  }

  /** An unknown buffer delta counts as 0. */
  function BufferDelta(bufferDeltaAvg: Option<int32>): int {
    if bufferDeltaAvg.Some? then bufferDeltaAvg.value else 0
  }

  function Influence(bufferDelta: int): nat {
    if bufferDelta < MINIMUM_BUFFER_DELTA then
      var count := MINIMUM_BUFFER_DELTA - bufferDelta;
      if count > MAXIMUM_DELTA_INFLUENCE then MAXIMUM_DELTA_INFLUENCE else count
    else 0
  }

  /** The optimal number of steps ahead, from the average latency and the average buffer delta of the server. */
  function OptimalCount(latencyAvg: int32, bufferDeltaAvg: Option<int32>, tick: TickMs): nat {
    Latency(latencyAvg) / tick + 1 + Influence(BufferDelta(bufferDeltaAvg))
  }

  /** None when no latency is known yet; otherwise the step id to send and how far ahead it lies. */
  function OptimalStepId(latencyAvg: Option<int32>, bufferDeltaAvg: Option<int32>, tick: TickMs, writeId: nat):
    Option<(uint32, nat)> {
    match latencyAvg
    case None => None
    case Some(latency) =>
      var count := OptimalCount(latency, bufferDeltaAvg, tick);
      Some(((writeId + count) % STEP_ID_MODULUS, count))
  }

  lemma Quotient(a: nat, b: TickMs)
    ensures a / b * b <= a < (a / b + 1) * b
  {
    assert a == a / b * b + a % b;
  }

  function Clamp(x: int, low: int, high: int): int {
    if x < low then low else if high < x then high else x
  }

  /**
   * Without the ticks that a server buffer short of two steps adds, at most five of them, the predicted steps cover
   * the latency with the fewest ticks that exceed it; with them, they cover it by no more than six ticks too many.
   */
  lemma CoversRoundTrip(latencyAvg: int32, bufferDeltaAvg: Option<int32>, tick: TickMs)
    ensures var latency := if latencyAvg < 0 then 0 else latencyAvg;
            var delta := if bufferDeltaAvg.Some? then bufferDeltaAvg.value else 0;
            var count := OptimalCount(latencyAvg, bufferDeltaAvg, tick);
            && latency < (count - Clamp(2 - delta, 0, 5)) * tick <= latency + tick
            && latency < count * tick <= latency + 6 * tick
  {
    hide OptimalCount, Clamp;
    var latency := if latencyAvg < 0 then 0 else latencyAvg;
    var delta := if bufferDeltaAvg.Some? then bufferDeltaAvg.value else 0;
    var ticks, extra := latency / tick, Clamp(2 - delta, 0, 5);
    CountParts(latencyAvg, bufferDeltaAvg, tick);
    Quotient(latency, tick);
    Covers(latency, ticks, extra, tick);
  }

  lemma CountParts(latencyAvg: int32, bufferDeltaAvg: Option<int32>, tick: TickMs)
    ensures var latency := if latencyAvg < 0 then 0 else latencyAvg;
            var delta := if bufferDeltaAvg.Some? then bufferDeltaAvg.value else 0;
            OptimalCount(latencyAvg, bufferDeltaAvg, tick) == latency / tick + 1 + Clamp(2 - delta, 0, 5)
    ensures forall x: int :: 0 <= Clamp(x, 0, 5) <= 5
  {
  }

  lemma Covers(latency: nat, ticks: nat, extra: nat, tick: TickMs)
    requires ticks * tick <= latency < (ticks + 1) * tick && extra <= 5
    ensures (ticks + 1) * tick <= latency + tick
    ensures latency < (ticks + 1 + extra) * tick <= latency + 6 * tick
  {
    ScaleBy(extra, 5, tick);
    ScaleBy(0, extra, tick);
    assert (ticks + 1) * tick == ticks * tick + tick;
    assert (ticks + 1 + extra) * tick == (ticks + 1) * tick + extra * tick;
  }

  lemma ScaleBy(a: nat, b: nat, c: nat)
    requires a <= b
    ensures a * c <= b * c
  {
  }

  lemma {:induction false} QuotientMonotone(a: nat, b: nat, t: TickMs)
    requires a <= b
    ensures a / t <= b / t
  {
    Quotient(a, t);
    Quotient(b, t);
    if b / t < a / t {
      ScaleBy(b / t + 1, a / t, t);
      assert false;
    }
  }

  /** More latency never shortens the prediction, and a better filled server buffer never lengthens it. */
  lemma MonotoneInLatencyAntitoneInDelta(l: int32, l': int32, d: Option<int32>, d': Option<int32>, tick: TickMs)
    requires l <= l' && BufferDelta(d') <= BufferDelta(d)
    ensures OptimalCount(l, d, tick) <= OptimalCount(l', d', tick)
  {
    QuotientMonotone(Latency(l), Latency(l'), tick);
  }

  /**
   * The extra ticks are 2 - delta, clamped to 0..5; for averages of signed octets, as the server's buffer deltas
   * are, the subtraction stays far inside an int.
   */
  lemma InfluenceIsClamped(bufferDelta: int)
    ensures bufferDelta <= -3 <==> Influence(bufferDelta) == 5
    ensures bufferDelta >= 2 <==> Influence(bufferDelta) == 0
    ensures -3 <= bufferDelta <= 2 ==> Influence(bufferDelta) + bufferDelta == 2
    ensures -0x80 <= bufferDelta < 0x80 ==> -0x7d <= MINIMUM_BUFFER_DELTA - bufferDelta <= 0x82
  {
  }

  /**
   * Without a latency there is no estimate; with one, the id lies `count` ahead of the last authoritative step,
   * modulo 2^32.
   */
  lemma StepIdIsAhead(latencyAvg: Option<int32>, bufferDeltaAvg: Option<int32>, tick: TickMs, writeId: uint32)
    ensures var optimal := OptimalStepId(latencyAvg, bufferDeltaAvg, tick, writeId);
            && (optimal.None? <==> latencyAvg.None?)
            && (optimal.Some? ==>
                  && optimal.value.1 == OptimalCount(latencyAvg.value, bufferDeltaAvg, tick)
                  && IsAhead(optimal.value.0, writeId, optimal.value.1))
  {
    hide OptimalCount;
    if latencyAvg.Some? {
      WrapsAhead(writeId, OptimalCount(latencyAvg.value, bufferDeltaAvg, tick));
    }
  }

  /** `id` is `count` after `start` on the circle of 32-bit ids. */
  ghost predicate IsAhead(id: uint32, start: uint32, count: nat) {
    exists laps: nat :: id == start + count - Turns(laps)
  }

  function Turns(laps: nat): nat {
    laps * STEP_ID_MODULUS
  }

  lemma WrapsAhead(start: uint32, count: nat)
    ensures IsAhead((start + count) % STEP_ID_MODULUS, start, count)
  {
    var laps := (start + count) / STEP_ID_MODULUS;
    assert (start + count) % STEP_ID_MODULUS == start + count - Turns(laps);
  }
}
