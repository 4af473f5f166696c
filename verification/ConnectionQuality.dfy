/**
 * The disconnect detector (src/lib/connection_quality.c).
 *
 * `Quality` is the value of the C struct; the functions on it say what each operation does, and
 * `QualityMonitor` is the struct itself, updated in place.
 */
module ConnectionQuality {
  import opened Wrappers

  datatype Reason = KeepConnection | NotReceivingSteps | NotReceivingDatagrams

  datatype Quality = Quality(
    stepSilence: nat,        // ticksWithoutAuthoritativeStepsFromInSerialize
    datagramSilence: nat,    // ticksWithoutIncomingDatagrams
    considering: nat,        // consideringDisconnectCounter
    dropped: nat,            // droppedDatagramCounter
    reason: Reason,
    lastLatencyMs: nat,
    latencyAvg: Option<int32>, // latencyMsStat.avg, when avgIsSet
    rating: nat)

  const MAX_TICKS_WITHOUT_DATAGRAMS: nat := 40
  const MAX_TICKS_WITHOUT_STEPS: nat := 15
  const PATIENCE: nat := 60

  function ResetQuality(q: Quality): Quality {
    Quality(0, 0, 0, 0, KeepConnection, 0, None, q.rating)
  }

  /** One factor of the rating: 1 below `lower`, 0 above `divisor`, linear in between. */
  function DegradeLowIsBetter(v: nat, divisor: nat, lower: nat): (r: real)
    requires lower < divisor
    ensures 0.0 <= r <= 1.0
    ensures r == 0.0 <==> divisor <= v
    ensures r == 1.0 <==> v <= lower
    ensures lower <= v <= divisor ==> r * (divisor - lower) as real == (divisor - v) as real
  {
    if v < lower then 1.0
    else if v > divisor then 0.0
    else
      var share := (v - lower) as real / (divisor - lower) as real;
      RatioInUnitInterval(v - lower, divisor - lower);
      1.0 - share
  }

  lemma RatioInUnitInterval(a: nat, b: nat)
    requires a <= b && 0 < b
    ensures 0.0 <= a as real / b as real <= 1.0
    ensures a as real / b as real == 0.0 <==> a == 0
    ensures a as real / b as real == 1.0 <==> a == b
    ensures (1.0 - a as real / b as real) * b as real == (b - a) as real
  {
    var x := a as real / b as real;
    assert x * b as real == a as real;
  }

  /** C conversion of an int to size_t. */
  function ToSize(x: int32): nat {
    if 0 <= x then x else x + 0x1_0000_0000_0000_0000
  }

  /** C conversion of a size_t to a 32-bit int. */
  function ToInt(n: nat): (r: int)
    ensures -0x8000_0000 <= r < 0x8000_0000 && (n - r) % 0x1_0000_0000 == 0
  {
    var low := n % 0x1_0000_0000;
    if low < 0x8000_0000 then low else low - 0x1_0000_0000
  }

  function Jitter(q: Quality): real {
    match q.latencyAvg
    case None => 1.0
    case Some(avg) =>
      var diff := avg - ToInt(q.lastLatencyMs);
      if diff > 3 || diff < -3 then 0.9 else 1.0
  }

  function LatencyDegrade(q: Quality): (r: real)
    ensures 0.0 <= r <= 1.0
  {
    match q.latencyAvg
    case None => 1.0
    case Some(avg) => DegradeLowIsBetter(ToSize(avg), 250, 60)
  }

  /** The factors of the rating, multiplied up in the order of the source. */
  function Product(datagrams: real, steps: real, latency: real, jitter: real, dropping: real): real {
    datagrams * steps * latency * jitter * dropping
  }

  function TotalDegrade(q: Quality): real {
    Product(DegradeLowIsBetter(q.datagramSilence, MAX_TICKS_WITHOUT_DATAGRAMS, 10),
            DegradeLowIsBetter(q.stepSilence, MAX_TICKS_WITHOUT_STEPS, 10),
            LatencyDegrade(q), Jitter(q),
            DegradeLowIsBetter(q.dropped, 10, 1))
  }

  /** The rating as a truncation of the product; `RatingBounds` shows it fits its octet. */
  function Rating(q: Quality): int {
    (TotalDegrade(q) * 5.0).Floor
  }

  function Verdict(q: Quality): Reason {
    if q.datagramSilence >= MAX_TICKS_WITHOUT_DATAGRAMS then NotReceivingDatagrams
    else if q.stepSilence > MAX_TICKS_WITHOUT_STEPS then NotReceivingSteps
    else KeepConnection
  }

  /** What `evaluate` leaves behind besides its verdict. */
  function Assess(q: Quality): Quality {
    RatingBounds(q);
    var q1 := q.(rating := Rating(q));
    match q.latencyAvg
    case None => q1
    case Some(avg) => q1.(lastLatencyMs := ToSize(avg))
  }

  /** The counters one quality tick later, before they are judged. */
  function Aged(q: Quality): Quality {
    q.(stepSilence := q.stepSilence + 1,
       datagramSilence := q.datagramSilence + 1,
       dropped := if q.dropped > 0 then q.dropped - 1 else 0)
  }

  function Tick(q: Quality): Quality {
    var aged := Aged(q);
    var verdict := Verdict(aged);
    var judged := Assess(aged);
    if verdict.KeepConnection? then
      judged.(considering := if q.considering > 0 then q.considering - 1 else 0)
    else
      judged.(considering := q.considering + 1,
              reason := if q.considering + 1 > PATIENCE then verdict else q.reason)
  }

  function DropDatagrams(q: Quality, delta: nat): Quality {
    q.(dropped := q.dropped + delta)
  }

  function UsableDatagram(q: Quality): Quality {
    q.(datagramSilence := 0)
  }

  function AuthoritativeSteps(q: Quality): Quality {
    q.(stepSilence := 0)
  }

  /** The average over the latency samples, as the statistics library reports it after one more sample. */
  function LatencySampled(q: Quality, average: Option<int32>): Quality {
    q.(latencyAvg := average)
  }

  predicate ShouldDisconnect(q: Quality) {
    !q.reason.KeepConnection?
  }

  // ---------------------------------------------------------------- rating

  lemma Scale(a: real, x: real, y: real)
    requires 0.0 <= a && x <= y
    ensures a * x <= a * y
  {
  }

  lemma UnitProduct(a: real, b: real)
    requires 0.0 <= a <= 1.0 && 0.0 <= b <= 1.0
    ensures 0.0 <= a * b <= a && a * b <= b
    ensures a * b == 1.0 <==> a == 1.0 && b == 1.0
    ensures a == 0.0 || b == 0.0 ==> a * b == 0.0
  {
    Scale(a, 0.0, b);
    Scale(a, b, 1.0);
    Scale(b, a, 1.0);
  }

  lemma ProductInUnitInterval(d: real, s: real, l: real, j: real, p: real)
    requires 0.0 <= d <= 1.0 && 0.0 <= s <= 1.0 && 0.0 <= l <= 1.0 && 0.0 <= j <= 1.0 && 0.0 <= p <= 1.0
    ensures 0.0 <= Product(d, s, l, j, p) <= 1.0
    ensures Product(d, s, l, j, p) == 1.0 <==> d == s == l == j == p == 1.0
    ensures d == 0.0 || s == 0.0 || p == 0.0 ==> Product(d, s, l, j, p) == 0.0
  {
    var ds := d * s;
    UnitProduct(d, s);
    var dsl := ds * l;
    UnitProduct(ds, l);
    var dslj := dsl * j;
    UnitProduct(dsl, j);
    UnitProduct(dslj, p);
  }

  lemma MonotoneProduct(a: real, b: real, x: real, y: real)
    requires 0.0 <= a <= x && 0.0 <= b <= y
    ensures 0.0 <= a * b <= x * y
  {
    Scale(a, 0.0, b);
    Scale(a, b, y);
    Scale(y, a, x);
  }

  lemma ProductMonotone(d: real, s: real, l: real, j: real, p: real, d': real, s': real, l': real, p': real)
    requires 0.0 <= d <= d' && 0.0 <= s <= s' && 0.0 <= l <= l' && 0.0 <= j && 0.0 <= p <= p'
    ensures Product(d, s, l, j, p) <= Product(d', s', l', j, p')
  {
    MonotoneProduct(d, s, d', s');
    MonotoneProduct(d * s, l, d' * s', l');
    MonotoneProduct(d * s * l, j, d' * s' * l', j);
    MonotoneProduct(d * s * l * j, p, d' * s' * l' * j, p');
  }

  lemma TotalInUnitInterval(q: Quality)
    ensures 0.0 <= TotalDegrade(q) <= 1.0
    ensures TotalDegrade(q) == 1.0 <==>
            q.datagramSilence <= 10 && q.stepSilence <= 10 && LatencyDegrade(q) == 1.0 && Jitter(q) == 1.0
              && q.dropped <= 1
    ensures q.datagramSilence >= 40 || q.stepSilence >= 15 || q.dropped >= 10 ==> TotalDegrade(q) == 0.0
  {
    ProductInUnitInterval(DegradeLowIsBetter(q.datagramSilence, MAX_TICKS_WITHOUT_DATAGRAMS, 10),
                          DegradeLowIsBetter(q.stepSilence, MAX_TICKS_WITHOUT_STEPS, 10),
                          LatencyDegrade(q), Jitter(q),
                          DegradeLowIsBetter(q.dropped, 10, 1));
  }

  lemma RatingBounds(q: Quality)
    ensures 0 <= Rating(q) <= 5
    ensures Rating(q) == 5 <==> TotalDegrade(q) == 1.0
  {
    TotalInUnitInterval(q);
  }

  /** Nothing but the latency could be held against the connection. */
  predicate Undisturbed(q: Quality) {
    q.datagramSilence <= 10 && q.stepSilence <= 10 && q.dropped <= 1
    && (q.latencyAvg.Some? ==> 0 <= q.latencyAvg.value <= 60)
  }

  /** A known latency lies within 3 ms of the one that the evaluation before has seen. */
  predicate Steady(q: Quality, lastLatencyMs: nat) {
    q.latencyAvg.Some? ==> -3 <= q.latencyAvg.value - ToInt(lastLatencyMs) <= 3
  }

  /**
   * The rating an evaluation reports is at its top exactly for an undisturbed connection of steady latency, one
   * below for one that is only unsteady, and 0 whenever disconnecting is considered.
   */
  lemma RatingExtremes(q: Quality)
    ensures var t := Tick(q);
            && 0 <= t.rating <= 5
            && (t.rating == 5 <==> Undisturbed(t) && Steady(t, q.lastLatencyMs))
            && (Undisturbed(t) && !Steady(t, q.lastLatencyMs) ==> t.rating == 4)
            && (t.datagramSilence >= 40 || t.stepSilence > 15 ==> t.rating == 0)
  {
    RatingBounds(Aged(q));
    TotalInUnitInterval(Aged(q));
  }

  /** How much of its span a quantity has left: all of it up to `lower`, nothing from `divisor` on. */
  function Left(v: nat, lower: nat, divisor: nat): nat
    requires lower < divisor
  {
    if v < lower then divisor - lower else if divisor < v then 0 else divisor - v
  }

  function LatencyLeft(q: Quality): nat {
    match q.latencyAvg
    case None => 190
    case Some(avg) => if avg < 0 then 0 else Left(avg, 60, 250)
  }

  lemma ShareIsLeft(v: nat, divisor: nat, lower: nat)
    requires lower < divisor
    ensures DegradeLowIsBetter(v, divisor, lower) * (divisor - lower) as real == Left(v, lower, divisor) as real
  {
  }

  lemma SharesMultiply(x: real, a: nat, b: nat, y: real, c: nat, d: nat)
    requires x * b as real == a as real && y * d as real == c as real
    ensures x * y * (b * d) as real == (a * c) as real
  {
    var p, q := b as real, d as real;
    assert (b * d) as real == p * q && (a * c) as real == a as real * c as real;
    assert x * y * (p * q) == (x * p) * (y * q);
  }

  lemma FloorOfShare(x: real, a: nat, b: nat)
    requires x * b as real == a as real
    ensures var r := (x * 5.0).Floor; r * b <= 5 * a < (r + 1) * b || b == 0
  {
    var r, y := (x * 5.0).Floor, b as real;
    assert r as real <= x * 5.0 < (r + 1) as real;
    Scale(y, r as real, x * 5.0);
    if b > 0 {
      Scale(y, x * 5.0, (r + 1) as real);
      assert (r + 1) as real * y > x * 5.0 * y;
      assert (r * b) as real == r as real * y && ((r + 1) * b) as real == (r + 1) as real * y;
    }
  }

  function Times(a: nat, b: nat): nat {
    a * b
  }

  lemma FiveShares(d: real, dl: nat, s: real, sl: nat, l: real, ll: nat, j: real, jl: nat, p: real, pl: nat)
    requires d * 30.0 == dl as real && s * 5.0 == sl as real && l * 190.0 == ll as real && j * 10.0 == jl as real
    requires p * 9.0 == pl as real
    ensures Product(d, s, l, j, p) * 2565000.0 == Times(Times(Times(Times(dl, sl), ll), jl), pl) as real
  {
    var two, three := Times(dl, sl), Times(Times(dl, sl), ll);
    SharesMultiply(d, dl, 30, s, sl, 5);
    SharesMultiply(d * s, two, 150, l, ll, 190);
    SharesMultiply(d * s * l, three, 28500, j, jl, 10);
    SharesMultiply(d * s * l * j, Times(three, jl), 285000, p, pl, 9);
  }

  /** What is left of the spans of datagrams, steps, latency, jitter and drops, multiplied up. */
  function WhatIsLeft(q: Quality, lastLatencyMs: nat): nat {
    Times(Times(Times(Times(Left(q.datagramSilence, 10, 40), Left(q.stepSilence, 10, 15)), LatencyLeft(q)),
                if Steady(q, lastLatencyMs) then 10 else 9),
          Left(q.dropped, 1, 10))
  }

  lemma RatingOfShares(q: Quality)
    ensures Rating(q) * 2565000 <= 5 * WhatIsLeft(q, q.lastLatencyMs) < (Rating(q) + 1) * 2565000
  {
    hide DegradeLowIsBetter, Left, Times, Product, Steady;
    ShareIsLeft(q.datagramSilence, 40, 10);
    ShareIsLeft(q.stepSilence, 15, 10);
    ShareIsLeft(q.dropped, 10, 1);
    LatencyShare(q);
    JitterShare(q);
    FiveShares(DegradeLowIsBetter(q.datagramSilence, 40, 10), Left(q.datagramSilence, 10, 40),
               DegradeLowIsBetter(q.stepSilence, 15, 10), Left(q.stepSilence, 10, 15),
               LatencyDegrade(q), LatencyLeft(q), Jitter(q), if Steady(q, q.lastLatencyMs) then 10 else 9,
               DegradeLowIsBetter(q.dropped, 10, 1), Left(q.dropped, 1, 10));
    FloorOfShare(TotalDegrade(q), WhatIsLeft(q, q.lastLatencyMs), 2565000);
  }

  /** The rating an evaluation reports is five times the share left of all spans together, in whole points. */
  lemma RatingIsExact(q: Quality)
    ensures var t, span := Tick(q), 30 * 5 * 190 * 10 * 9;
            t.rating * span <= 5 * WhatIsLeft(t, q.lastLatencyMs) < (t.rating + 1) * span
  {
    hide Left, Times, Rating;
    RatingOfShares(Aged(q));
  }

  lemma JitterShare(q: Quality)
    ensures Jitter(q) * 10.0 == (if Steady(q, q.lastLatencyMs) then 10 else 9) as real
  {
  }

  lemma LatencyShare(q: Quality)
    ensures LatencyDegrade(q) * 190.0 == LatencyLeft(q) as real
  {
    if q.latencyAvg.Some? {
      ShareIsLeft(ToSize(q.latencyAvg.value), 250, 60);
    }
  }

  lemma DegradeAntitone(v: nat, w: nat, divisor: nat, lower: nat)
    requires lower < divisor && v <= w
    ensures DegradeLowIsBetter(w, divisor, lower) <= DegradeLowIsBetter(v, divisor, lower)
  {
    if lower <= v && w <= divisor {
      FractionMonotone(v - lower, w - lower, divisor - lower);
    }
  }

  lemma FractionMonotone(a: nat, b: nat, c: nat)
    requires a <= b && 0 < c
    ensures a as real / c as real <= b as real / c as real
  {
    var x, y, z := a as real / c as real, b as real / c as real, c as real;
    assert x * z == a as real && y * z == b as real;
    if y < x {
      Scale(z, y, x);
    }
  }

  /** No later average, or a higher one. */
  predicate LatencyWorse(before: Option<int32>, after: Option<int32>) {
    before.None? || (after.Some? && ToSize(before.value) <= ToSize(after.value))
  }

  /** More silence, more drops and more latency never improve the rating, for a fixed jitter factor. */
  lemma RatingAntitone(q: Quality, worse: Quality)
    requires q.datagramSilence <= worse.datagramSilence && q.stepSilence <= worse.stepSilence
    requires q.dropped <= worse.dropped && LatencyWorse(q.latencyAvg, worse.latencyAvg)
    requires Jitter(q) == Jitter(worse)
    ensures Rating(worse) <= Rating(q)
  {
    DegradeAntitone(q.datagramSilence, worse.datagramSilence, MAX_TICKS_WITHOUT_DATAGRAMS, 10);
    DegradeAntitone(q.stepSilence, worse.stepSilence, MAX_TICKS_WITHOUT_STEPS, 10);
    DegradeAntitone(q.dropped, worse.dropped, 10, 1);
    if q.latencyAvg.Some? {
      DegradeAntitone(ToSize(q.latencyAvg.value), ToSize(worse.latencyAvg.value), 250, 60);
    }
    ProductMonotone(DegradeLowIsBetter(worse.datagramSilence, MAX_TICKS_WITHOUT_DATAGRAMS, 10),
                    DegradeLowIsBetter(worse.stepSilence, MAX_TICKS_WITHOUT_STEPS, 10),
                    LatencyDegrade(worse), Jitter(q), DegradeLowIsBetter(worse.dropped, 10, 1),
                    DegradeLowIsBetter(q.datagramSilence, MAX_TICKS_WITHOUT_DATAGRAMS, 10),
                    DegradeLowIsBetter(q.stepSilence, MAX_TICKS_WITHOUT_STEPS, 10),
                    LatencyDegrade(q), DegradeLowIsBetter(q.dropped, 10, 1));
  }

  // ---------------------------------------------------------------- the give-up counter as a walk

  /** Bad evaluations minus good ones. */
  function Score(verdicts: seq<bool>): int {
    multiset(verdicts)[true] as int - multiset(verdicts)[false] as int
  }

  /** The walk of the considering counter: up on a bad evaluation, down on a good one, reflected at zero. */
  function Walk(start: nat, verdicts: seq<bool>): nat {
    if verdicts == [] then start
    else
      var before := Walk(start, verdicts[..|verdicts| - 1]);
      if verdicts[|verdicts| - 1] then before + 1 else if before > 0 then before - 1 else 0
  }

  lemma WalkLast(verdicts: seq<bool>, bad: bool)
    ensures var before := Walk(0, verdicts);
            Walk(0, verdicts + [bad]) == if bad then before + 1 else if before > 0 then before - 1 else 0
  {
    assert (verdicts + [bad])[..|verdicts|] == verdicts;
  }

  /** A window that ends one evaluation later. */
  lemma ScoreOfWindow(verdicts: seq<bool>, bad: bool, k: nat)
    requires k <= |verdicts|
    ensures Score((verdicts + [bad])[k..]) == Score(verdicts[k..]) + if bad then 1 else -1
  {
    assert (verdicts + [bad])[k..] == verdicts[k..] + [bad];
  }

  lemma EmptyWindow(verdicts: seq<bool>)
    ensures Score(verdicts[|verdicts|..]) == 0
  {
    assert verdicts[|verdicts|..] == [];
  }

  lemma {:induction false} NoBetterWindow(verdicts: seq<bool>, k: nat)
    requires k <= |verdicts|
    ensures Score(verdicts[k..]) <= Walk(0, verdicts)
  {
    hide Score, Walk;
    EmptyWindow(verdicts);
    if k < |verdicts| {
      var n := |verdicts| - 1;
      assert verdicts == verdicts[..n] + [verdicts[n]];
      NoBetterWindow(verdicts[..n], k);
      ScoreOfWindow(verdicts[..n], verdicts[n], k);
      WalkLast(verdicts[..n], verdicts[n]);
    }
  }

  lemma {:induction false} BestWindow(verdicts: seq<bool>) returns (k: nat)
    ensures k <= |verdicts| && Score(verdicts[k..]) == Walk(0, verdicts)
  {
    EmptyWindow(verdicts);
    k := |verdicts|;
    if verdicts != [] {
      hide Score, Walk;
      var n := |verdicts| - 1;
      assert verdicts == verdicts[..n] + [verdicts[n]];
      var best := BestWindow(verdicts[..n]);
      ScoreOfWindow(verdicts[..n], verdicts[n], best);
      WalkLast(verdicts[..n], verdicts[n]);
      if verdicts[n] || Walk(0, verdicts[..n]) > 0 {
        k := best;
      }
    }
  }

  /** The counter is the best score over all windows that end now, the empty window included. */
  lemma WalkIsBestWindow(verdicts: seq<bool>)
    ensures forall k :: 0 <= k <= |verdicts| ==> Score(verdicts[k..]) <= Walk(0, verdicts)
    ensures exists k :: 0 <= k <= |verdicts| && Score(verdicts[k..]) == Walk(0, verdicts)
  {
    hide Score, Walk;
    forall k | 0 <= k <= |verdicts|
      ensures Score(verdicts[k..]) <= Walk(0, verdicts)
    {
      NoBetterWindow(verdicts, k);
    }
    var best := BestWindow(verdicts);
  }

  // ---------------------------------------------------------------- the struct itself

  class QualityMonitor {
    var ticksWithoutAuthoritativeSteps: nat
    var ticksWithoutIncomingDatagrams: nat
    var consideringDisconnectCounter: nat
    var droppedDatagramCounter: nat
    var reason: Reason
    var lastLatencyMs: nat
    var latencyAvg: Option<int32>
    var qualityRating: nat

    ghost function View(): Quality
      reads this
    {
      Quality(ticksWithoutAuthoritativeSteps, ticksWithoutIncomingDatagrams, consideringDisconnectCounter,
              droppedDatagramCounter, reason, lastLatencyMs, latencyAvg, qualityRating)
    }

    constructor ()
      ensures View() == Quality(0, 0, 0, 0, KeepConnection, 0, None, 0)
    {
      ticksWithoutAuthoritativeSteps, ticksWithoutIncomingDatagrams := 0, 0;
      consideringDisconnectCounter, droppedDatagramCounter := 0, 0;
      reason, lastLatencyMs, latencyAvg, qualityRating := KeepConnection, 0, None, 0;
    }

    method Reset()
      modifies this
      ensures View() == ResetQuality(old(View()))
    {
      latencyAvg := None;
      lastLatencyMs := 0;
      ticksWithoutAuthoritativeSteps := 0;
      ticksWithoutIncomingDatagrams := 0;
      consideringDisconnectCounter := 0;
      droppedDatagramCounter := 0;
      reason := KeepConnection;
    }

    method Evaluate() returns (verdict: Reason)
      modifies this
      ensures verdict == Verdict(old(View()))
      ensures View() == Assess(old(View()))
    {
      ghost var q := View();
      var datagramsDegrade := DegradeLowIsBetter(ticksWithoutIncomingDatagrams, MAX_TICKS_WITHOUT_DATAGRAMS, 10);
      var stepsDegrade := DegradeLowIsBetter(ticksWithoutAuthoritativeSteps, MAX_TICKS_WITHOUT_STEPS, 10);
      var droppingDegrade := DegradeLowIsBetter(droppedDatagramCounter, 10, 1);
      var highJitterDegrade := 1.0;
      var latencyDegrade := 1.0;
      if latencyAvg.Some? {
        var latency := ToSize(latencyAvg.value);
        var diff := latencyAvg.value - ToInt(lastLatencyMs);
        lastLatencyMs := latency;
        if diff > 3 || diff < -3 {
          highJitterDegrade := 0.9;
        }
        latencyDegrade := DegradeLowIsBetter(latency, 250, 60);
      }
      var total := Product(datagramsDegrade, stepsDegrade, latencyDegrade, highJitterDegrade, droppingDegrade);
      RatingBounds(q);
      qualityRating := (total * 5.0).Floor;
      if ticksWithoutIncomingDatagrams >= MAX_TICKS_WITHOUT_DATAGRAMS {
        return NotReceivingDatagrams;
      }
      if ticksWithoutAuthoritativeSteps > MAX_TICKS_WITHOUT_STEPS {
        return NotReceivingSteps;
      }
      return KeepConnection;
    }

    method Update(synced: bool)
      modifies this
      ensures View() == if synced then Tick(old(View())) else old(View())
    {
      hide Rating, Verdict;
      if !synced {
        return;
      }
      ticksWithoutAuthoritativeSteps := ticksWithoutAuthoritativeSteps + 1;
      ticksWithoutIncomingDatagrams := ticksWithoutIncomingDatagrams + 1;
      if droppedDatagramCounter > 0 {
        droppedDatagramCounter := droppedDatagramCounter - 1;
      }
      var verdict := Evaluate();
      if verdict == KeepConnection {
        if consideringDisconnectCounter > 0 {
          consideringDisconnectCounter := consideringDisconnectCounter - 1;
        }
      } else {
        consideringDisconnectCounter := consideringDisconnectCounter + 1;
        if consideringDisconnectCounter > PATIENCE {
          reason := verdict;
        }
      }
    }

    method DroppedDatagrams(delta: nat)
      modifies this
      ensures View() == DropDatagrams(old(View()), delta)
    {
      droppedDatagramCounter := droppedDatagramCounter + delta;
    }

    method ReceivedUsableDatagram()
      modifies this
      ensures View() == UsableDatagram(old(View()))
    {
      ticksWithoutIncomingDatagrams := 0;
    }

    method ReceivedAuthoritativeSteps()
      modifies this
      ensures View() == AuthoritativeSteps(old(View()))
    {
      ticksWithoutAuthoritativeSteps := 0;
    }

    method GameStepLatency(average: Option<int32>)
      modifies this
      ensures View() == LatencySampled(old(View()), average)
    {
      latencyAvg := average;
    }
  }
}
