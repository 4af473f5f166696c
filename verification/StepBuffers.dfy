/**
 * Contracts for the step containers of the nimble-steps library, whose code is not part of this model.
 * Step ids inside the containers are unwrapped; the one 32-bit computation the client itself makes
 * (the id after an acknowledged one) wraps explicitly.
 */
module StepBuffers {
  import opened Wrappers

  type Octet = x: int | 0 <= x < 0x100
  type Octets = seq<Octet>
  type uint32 = x: int | 0 <= x < 0x1_0000_0000

  const STEP_ID_MODULUS := 0x1_0000_0000

  /** NbsSteps: a queue of steps with consecutive ids, the first of which is the read id. */
  datatype Steps = Steps(first: nat, items: seq<Octets>)

  function WriteId(s: Steps): nat {
    s.first + |s.items|
  }

  /** nbsStepsReInit: empty, restarting at `id`. nbsStepsReset and nbsStepsInit restart at 0. */
  function RestartAt(id: nat): Steps {
    Steps(id, [])
  }

  /** nbsStepsDiscardUpTo: removes the buffered steps below `target`. */
  function DiscardUpTo(s: Steps, target: nat): (r: Steps)
    ensures WriteId(r) == WriteId(s) && s.first <= r.first <= s.first + |s.items|
    ensures r.items != [] ==> target <= r.first
    ensures r.first <= s.first || r.first <= target
  {
    var count := if target <= s.first then 0 else if target <= WriteId(s) then target - s.first else |s.items|;
    Steps(s.first + count, s.items[count..])
  }

  lemma DiscardKeepsTheRest(s: Steps, target: nat)
    ensures DiscardUpTo(s, target).items == s.items[DiscardUpTo(s, target).first - s.first..]
  {
  }

  /** nbsStepsRead: the oldest step with its id. */
  function ReadFirst(s: Steps): (Steps, Option<(nat, Octets)>) {
    if s.items == [] then (s, None)
    else (Steps(s.first + 1, s.items[1..]), Some((s.first, s.items[0])))
  }

  function Append(s: Steps, payload: Octets): Steps {
    s.(items := s.items + [payload])
  }

  /** NbsPendingSteps: steps received out of order, none of them below the next id to hand over. */
  datatype PendingSteps = PendingSteps(next: nat, slots: map<nat, Octets>)

  type Received = seq<(nat, Octets)>

  /** nbsPendingStepsInSerialize: a step that is too old, or already there, is ignored. */
  function Insert(p: PendingSteps, received: Received): PendingSteps
    decreases |received|
  {
    if received == [] then p
    else
      var (id, payload) := received[0];
      Insert(if id < p.next || id in p.slots then p else p.(slots := p.slots[id := payload]), received[1..])
  }

  /** nbsPendingStepsCopy: moves the contiguous prefix, for as long as the target takes it. */
  function CopyReady(target: Steps, p: PendingSteps, capacity: nat): (Steps, PendingSteps)
    decreases |p.slots|
  {
    if p.next in p.slots && WriteId(target) == p.next && |target.items| < capacity then
      CopyReady(Append(target, p.slots[p.next]), PendingSteps(p.next + 1, p.slots - {p.next}), capacity)
    else (target, p)
  }

  /** The pending buffer continues where the authoritative one ends. */
  predicate Aligned(target: Steps, p: PendingSteps) {
    && WriteId(target) == p.next
    && forall id :: id in p.slots ==> p.next <= id
  }

  /** Every buffered step is the one the server made for its id. */
  ghost predicate Genuine(target: Steps, p: PendingSteps, truth: nat -> Octets) {
    && (forall i :: 0 <= i < |target.items| ==> target.items[i] == truth(target.first + i))
    && (forall id :: id in p.slots ==> p.slots[id] == truth(id))
  }

  ghost predicate Truthful(received: Received, truth: nat -> Octets) {
    forall i :: 0 <= i < |received| ==> received[i].1 == truth(received[i].0)
  }

  lemma {:induction false} InsertKeeps(target: Steps, p: PendingSteps, received: Received)
    requires Aligned(target, p)
    ensures Aligned(target, Insert(p, received)) && Insert(p, received).next == p.next
    decreases |received|
  {
    if received != [] {
      var (id, payload) := received[0];
      var p1 := if id < p.next || id in p.slots then p else p.(slots := p.slots[id := payload]);
      InsertKeeps(target, p1, received[1..]);
    }
  }

  /** What arrives later for an id does not replace what is already there. */
  lemma {:induction false} FirstArrivalStays(p: PendingSteps, received: Received, id: nat)
    requires id in p.slots
    ensures id in Insert(p, received).slots && Insert(p, received).slots[id] == p.slots[id]
    decreases |received|
  {
    if received != [] {
      var (next, payload) := received[0];
      var p1 := if next < p.next || next in p.slots then p else p.(slots := p.slots[next := payload]);
      FirstArrivalStays(p1, received[1..], id);
    }
  }

  lemma {:induction false} InsertGenuine(target: Steps, p: PendingSteps, received: Received, truth: nat -> Octets)
    requires Genuine(target, p, truth) && Truthful(received, truth)
    ensures Genuine(target, Insert(p, received), truth)
    decreases |received|
  {
    if received != [] {
      var (id, payload) := received[0];
      assert received[0].1 == truth(received[0].0);
      var p1 := if id < p.next || id in p.slots then p else p.(slots := p.slots[id := payload]);
      assert Truthful(received[1..], truth);
      InsertGenuine(target, p1, received[1..], truth);
    }
  }

  lemma {:induction false} CopyKeeps(target: Steps, p: PendingSteps, capacity: nat)
    requires Aligned(target, p)
    ensures var (t, q) := CopyReady(target, p, capacity);
            Aligned(t, q) && t.first == target.first && target.items <= t.items
    decreases |p.slots|
  {
    if p.next in p.slots && |target.items| < capacity {
      CopyKeeps(Append(target, p.slots[p.next]), PendingSteps(p.next + 1, p.slots - {p.next}), capacity);
    }
  }

  lemma MoveGenuine(target: Steps, p: PendingSteps, truth: nat -> Octets)
    requires Genuine(target, p, truth) && p.next in p.slots && WriteId(target) == p.next
    ensures Genuine(Append(target, p.slots[p.next]), PendingSteps(p.next + 1, p.slots - {p.next}), truth)
  {
    var longer := Append(target, p.slots[p.next]);
    forall i | 0 <= i < |longer.items|
      ensures longer.items[i] == truth(longer.first + i)
    {
      if i == |target.items| {
        assert p.slots[p.next] == truth(p.next);
      } else {
        assert target.items[i] == truth(target.first + i);
      }
    }
  }

  lemma {:induction false} CopyGenuine(target: Steps, p: PendingSteps, capacity: nat, truth: nat -> Octets)
    requires Genuine(target, p, truth)
    ensures var (t, q) := CopyReady(target, p, capacity); Genuine(t, q, truth)
    decreases |p.slots|
  {
    hide Genuine;
    if p.next in p.slots && WriteId(target) == p.next && |target.items| < capacity {
      MoveGenuine(target, p, truth);
      CopyGenuine(Append(target, p.slots[p.next]), PendingSteps(p.next + 1, p.slots - {p.next}), capacity, truth);
    }
  }

  /** The copy stops only at a gap or at a full target: nothing that is ready stays behind. */
  lemma {:induction false} CopyIsMaximal(target: Steps, p: PendingSteps, capacity: nat)
    requires Aligned(target, p)
    ensures var (t, q) := CopyReady(target, p, capacity); q.next !in q.slots || capacity <= |t.items|
    ensures |CopyReady(target, p, capacity).0.items| <= if |target.items| < capacity then capacity else |target.items|
    decreases |p.slots|
  {
    if p.next in p.slots && |target.items| < capacity {
      CopyIsMaximal(Append(target, p.slots[p.next]), PendingSteps(p.next + 1, p.slots - {p.next}), capacity);
    }
  }

  // ---------------------------------------------------------------- what has been received

  function IdsOf(received: Received): set<nat> {
    if received == [] then {} else {received[0].0} + IdsOf(received[1..])
  }

  /** Every id in `got` has been handed over, or is older, or waits for its turn. */
  predicate Covers(p: PendingSteps, got: set<nat>) {
    forall id :: id in got ==> id < p.next || id in p.slots
  }

  lemma {:induction false} InsertCovers(p: PendingSteps, got: set<nat>, received: Received)
    requires Covers(p, got)
    ensures Covers(Insert(p, received), got + IdsOf(received))
    decreases |received|
  {
    if received != [] {
      var (id, payload) := received[0];
      var p1 := if id < p.next || id in p.slots then p else p.(slots := p.slots[id := payload]);
      InsertCovers(p1, got + {id}, received[1..]);
      assert got + IdsOf(received) == got + {id} + IdsOf(received[1..]);
    }
  }

  lemma {:induction false} CopyCovers(target: Steps, p: PendingSteps, capacity: nat, got: set<nat>)
    requires Covers(p, got)
    ensures Covers(CopyReady(target, p, capacity).1, got)
    decreases |p.slots|
  {
    if p.next in p.slots && WriteId(target) == p.next && |target.items| < capacity {
      CopyCovers(Append(target, p.slots[p.next]), PendingSteps(p.next + 1, p.slots - {p.next}), capacity, got);
    }
  }
}
