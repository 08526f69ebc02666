/**
 The provider-to-consolidator ring (md_core/spsc_queue.h) as the interleaved
 atomic steps of one producer and one consumer. Cursors wrap modulo 2^64; a load
 of the opposite cursor may return any value from the last one that side saw up
 to the current one.
 */
module SpscQueues {
  import opened Types
  import opened Arithmetic

  /** Bitwise conjunction. */
  function And(x: nat, y: nat): nat {
    if x == 0 || y == 0 then 0 else (x % 2) * (y % 2) + 2 * And(x / 2, y / 2)
  }

  // ------------------------------------------------------------------ arithmetic --

  lemma {:induction false} HalfRem(x: nat, h: nat)
    requires h > 0
    ensures Rem(x, 2 * h) == 2 * Rem(x / 2, h) + x % 2
  {
    var y := x / 2;
    var q, r := y / h, y % h;
    assert q * (2 * h) == 2 * (q * h);
    Unique(x, q, 2 * r + x % 2, 2 * h);
  }

  /** The mask of a power-of-two capacity takes the remainder. */
  lemma {:induction false} MaskIsRem(x: nat, k: nat)
    ensures And(x, Pow2(k) - 1) == Rem(x, Pow2(k))
  {
    hide And, Rem;
    if k == 0 {
      MaskOfOne(x);
    } else {
      var h := Pow2(k - 1);
      MaskIsRem(x / 2, k - 1);
      HalfRem(x, h);
      MaskStep(x, h);
    }
  }

  lemma {:induction false} MaskOfOne(x: nat)
    ensures And(x, 0) == 0 == Rem(x, 1)
  {
  }

  lemma {:induction false} MaskStep(x: nat, h: nat)
    requires h > 0
    ensures And(x, 2 * h - 1) == x % 2 + 2 * And(x / 2, h - 1)
  {
    assert (2 * h - 1) % 2 == 1 && (2 * h - 1) / 2 == h - 1;
  }

  /** The array index of a wrapped cursor is the index of the true count. */
  lemma {:induction false} SlotOf(x: nat, k: nat)
    requires k <= 63
    ensures And(Wrap(x), Pow2(k) - 1) == x % Pow2(k)
  {
    MaskIsRem(Wrap(x), k);
    Pow64();
    Pow2Add(k, 64 - k);
    ModOfMod(x, Pow2(k), Pow2(64 - k));
  }

  lemma {:induction false} CapacityBound(k: nat)
    requires k <= 63
    ensures Pow2(k) <= 0x8000_0000_0000_0000
  {
    Pow64();
    Pow2Grows(k, 63);
  }

  lemma {:induction false} Pow2Grows(a: nat, b: nat)
    requires a <= b
    ensures Pow2(a) <= Pow2(b)
    decreases b - a
  {
    if a < b {
      Pow2Grows(a + 1, b);
    }
  }

  /** Unread positions lie in different slots. */
  lemma {:induction false} DifferentSlots(a: nat, b: nat, cap: nat)
    requires a < b < a + cap
    ensures a % cap != b % cap
  {
    var d := b / cap - a / cap;
    assert d * cap == (b / cap) * cap - (a / cap) * cap;
    Multiple(d, cap);
  }

  // --------------------------------------------------------------- the machine --

  /** Where TryPush stands: own cursor loaded, room seen, slot written. */
  datatype Producer<T> =
    | PushIdle
    | PushLoaded(value: T, head: u64, next: u64)
    | PushRoom(value: T, head: u64, next: u64)
    | PushWritten(value: T, head: u64, next: u64)

  /** Where TryPop stands: own cursor loaded, message seen, slot read. */
  datatype Consumer<T> =
    | PopIdle
    | PopLoaded(tail: u64)
    | PopReady(tail: u64)
    | PopRead(tail: u64, value: T)

  /**
   pushed and popped are the values whose cursor store has been made; tailSeen
   and headSeen are the counts behind the opposite cursor each side last loaded.
   */
  datatype Ring<T> = Ring(
    k: nat,
    head: u64,
    tail: u64,
    buffer: seq<T>,
    producer: Producer<T>,
    consumer: Consumer<T>,
    pushed: seq<T>,
    popped: seq<T>,
    tailSeen: nat,
    headSeen: nat)
  {
    function Capacity(): nat { Pow2(k) }
  }

  datatype Action<T> =
    | LoadHead(value: T)
    | CheckRoom(seen: nat)
    | WriteSlot
    | StoreHead
    | LoadTail
    | CheckMessage(seen: nat)
    | ReadSlot
    | StoreTail

  predicate Enabled<T>(s: Ring<T>, a: Action<T>) {
    match a
    case LoadHead(_) => s.producer.PushIdle?
    case CheckRoom(seen) => s.producer.PushLoaded? && s.tailSeen <= seen <= |s.popped|
    case WriteSlot => s.producer.PushRoom? && And(s.producer.head, s.Capacity() - 1) < |s.buffer|
    case StoreHead => s.producer.PushWritten?
    case LoadTail => s.consumer.PopIdle?
    case CheckMessage(seen) => s.consumer.PopLoaded? && s.headSeen <= seen <= |s.pushed|
    case ReadSlot => s.consumer.PopReady? && And(s.consumer.tail, s.Capacity() - 1) < |s.buffer|
    case StoreTail => s.consumer.PopRead?
  }

  function Step<T>(s: Ring<T>, a: Action<T>): Ring<T>
    requires Enabled(s, a)
  {
    var p, c := s.producer, s.consumer;
    match a
    case LoadHead(v) => s.(producer := PushLoaded(v, s.head, Wrap(s.head + 1)))
    case CheckRoom(seen) =>
      s.(tailSeen := seen,
         producer := if Wrap(p.next - Wrap(seen)) > s.Capacity() then PushIdle else PushRoom(p.value, p.head, p.next))
    case WriteSlot =>
      s.(buffer := s.buffer[And(p.head, s.Capacity() - 1) := p.value], producer := PushWritten(p.value, p.head, p.next))
    case StoreHead => s.(head := p.next, pushed := s.pushed + [p.value], producer := PushIdle)
    case LoadTail => s.(consumer := PopLoaded(s.tail))
    case CheckMessage(seen) =>
      s.(headSeen := seen, consumer := if c.tail == Wrap(seen) then PopIdle else PopReady(c.tail))
    case ReadSlot => s.(consumer := PopRead(c.tail, s.buffer[And(c.tail, s.Capacity() - 1)]))
    case StoreTail => s.(tail := Wrap(c.tail + 1), popped := s.popped + [c.value], consumer := PopIdle)
  }

  ghost predicate Initial<T>(s: Ring<T>) {
    && s.k <= 63 && |s.buffer| == s.Capacity()
    && s.head == s.tail == 0 && s.producer == PushIdle && s.consumer == PopIdle
    && s.pushed == s.popped == [] && s.tailSeen == s.headSeen == 0
  }

  // --------------------------------------------------------------- the invariant --

  /** Every published, unconsumed message is still in its slot. */
  ghost predicate Stored<T>(s: Ring<T>)
    requires |s.buffer| == s.Capacity()
  {
    forall t :: |s.popped| <= t < |s.pushed| ==> s.buffer[t % s.Capacity()] == s.pushed[t]
  }

  ghost predicate Cursors<T>(s: Ring<T>) {
    && s.k <= 63 && |s.buffer| == s.Capacity()
    && s.head == Wrap(|s.pushed|) && s.tail == Wrap(|s.popped|)
    && s.tailSeen <= |s.popped| <= s.headSeen <= |s.pushed| <= s.tailSeen + s.Capacity()
  }

  ghost predicate ProducerOk<T>(s: Ring<T>)
    requires |s.buffer| == s.Capacity()
  {
    match s.producer
    case PushIdle => true
    case PushLoaded(_, head, next) => head == s.head && next == Wrap(|s.pushed| + 1)
    case PushRoom(_, head, next) =>
      head == s.head && next == Wrap(|s.pushed| + 1) && |s.pushed| < s.tailSeen + s.Capacity()
    case PushWritten(v, head, next) =>
      && head == s.head && next == Wrap(|s.pushed| + 1) && |s.pushed| < s.tailSeen + s.Capacity()
      && s.buffer[|s.pushed| % s.Capacity()] == v
  }

  ghost predicate ConsumerOk<T>(s: Ring<T>) {
    match s.consumer
    case PopIdle => true
    case PopLoaded(tail) => tail == s.tail
    case PopReady(tail) => tail == s.tail && |s.popped| < s.headSeen
    case PopRead(tail, v) => tail == s.tail && |s.popped| < s.headSeen <= |s.pushed| && v == s.pushed[|s.popped|]
  }

  ghost predicate Inv<T>(s: Ring<T>) {
    Cursors(s) && Stored(s) && ProducerOk(s) && ConsumerOk(s) && s.popped <= s.pushed
  }

  /** A difference of wrapped cursors that are close is the true difference. */
  lemma {:induction false} WrapDiff(a: nat, b: nat)
    requires 0 <= a - b < 0x1_0000_0000_0000_0000
    ensures Wrap(Wrap(a) - Wrap(b)) == a - b
  {
  }

  lemma {:induction false} CheckRoomKeeps<T>(s: Ring<T>, seen: nat)
    requires Inv(s) && Enabled(s, CheckRoom(seen))
    ensures Inv(Step(s, CheckRoom(seen)))
    ensures Step(s, CheckRoom(seen)).producer.PushIdle? <==> |s.pushed| - seen == s.Capacity()
  {
    CapacityBound(s.k);
    WrapDiff(|s.pushed| + 1, seen);
  }

  lemma {:induction false} WriteSlotKeeps<T>(s: Ring<T>)
    requires Inv(s) && Enabled(s, WriteSlot)
    ensures Inv(Step(s, WriteSlot))
    ensures forall t :: |s.popped| <= t < |s.pushed| ==> t % s.Capacity() != And(s.producer.head, s.Capacity() - 1)
  {
    SlotOf(|s.pushed|, s.k);
    forall t | |s.popped| <= t < |s.pushed| ensures t % s.Capacity() != |s.pushed| % s.Capacity() {
      DifferentSlots(t, |s.pushed|, s.Capacity());
    }
  }

  lemma {:induction false} StoreHeadKeeps<T>(s: Ring<T>)
    requires Inv(s) && Enabled(s, StoreHead)
    ensures Inv(Step(s, StoreHead))
  {
  }

  lemma {:induction false} CheckMessageKeeps<T>(s: Ring<T>, seen: nat)
    requires Inv(s) && Enabled(s, CheckMessage(seen))
    ensures Inv(Step(s, CheckMessage(seen)))
    ensures Step(s, CheckMessage(seen)).consumer.PopIdle? <==> seen == |s.popped|
  {
    CapacityBound(s.k);
    WrapDiff(seen, |s.popped|);
  }

  lemma {:induction false} ReadSlotKeeps<T>(s: Ring<T>)
    requires Inv(s) && Enabled(s, ReadSlot)
    ensures Inv(Step(s, ReadSlot))
  {
    SlotOf(|s.popped|, s.k);
  }

  lemma {:induction false} StoreTailKeeps<T>(s: Ring<T>)
    requires Inv(s) && Enabled(s, StoreTail)
    ensures Inv(Step(s, StoreTail))
  {
    WrapAdd(|s.popped|, 1);
  }

  lemma {:induction false} StepKeeps<T>(s: Ring<T>, a: Action<T>)
    requires Inv(s) && Enabled(s, a)
    ensures Inv(Step(s, a))
  {
    match a
    case LoadHead(_) => WrapAdd(|s.pushed|, 1);
    case CheckRoom(seen) => CheckRoomKeeps(s, seen);
    case WriteSlot => WriteSlotKeeps(s);
    case StoreHead => StoreHeadKeeps(s);
    case LoadTail =>
    case CheckMessage(seen) => CheckMessageKeeps(s, seen);
    case ReadSlot => ReadSlotKeeps(s);
    case StoreTail => StoreTailKeeps(s);
  }

  // ------------------------------------------------------------------------ runs --

  /** states is a run taking these actions, each where it was enabled. */
  ghost predicate IsRun<T>(states: seq<Ring<T>>, actions: seq<Action<T>>) {
    && |states| == |actions| + 1 && Initial(states[0])
    && forall i :: 0 <= i < |actions| ==> Enabled(states[i], actions[i]) && states[i + 1] == Step(states[i], actions[i])
  }

  lemma {:induction false} RunKeeps<T>(states: seq<Ring<T>>, actions: seq<Action<T>>, n: nat)
    requires IsRun(states, actions) && n < |states|
    ensures Inv(states[n])
  {
    if n > 0 {
      RunKeeps(states, actions, n - 1);
      StepKeeps(states[n - 1], actions[n - 1]);
    }
  }

  /**
   In every state of every run: what was popped is a prefix of what was pushed,
   at most Capacity messages are in flight, each of them is intact in its slot,
   and a producer about to write has picked a slot none of them occupies.
   */
  lemma {:induction false} FifoAlways<T>(states: seq<Ring<T>>, actions: seq<Action<T>>, n: nat)
    requires IsRun(states, actions) && n < |states|
    ensures var s := states[n];
            && s.popped <= s.pushed && |s.pushed| - |s.popped| <= s.Capacity() == |s.buffer|
            && (forall t :: |s.popped| <= t < |s.pushed| ==> s.buffer[t % s.Capacity()] == s.pushed[t])
            && (s.producer.PushRoom? ==>
                  && And(s.producer.head, s.Capacity() - 1) < |s.buffer|
                  && forall t :: |s.popped| <= t < |s.pushed| ==>
                      t % s.Capacity() != And(s.producer.head, s.Capacity() - 1))
            && (s.consumer.PopReady? ==>
                  && And(s.consumer.tail, s.Capacity() - 1) < |s.buffer|
                  && |s.popped| < |s.pushed| && s.buffer[And(s.consumer.tail, s.Capacity() - 1)]
                      == s.pushed[|s.popped|])
  {
    RunKeeps(states, actions, n);
    var s := states[n];
    SlotOf(|s.pushed|, s.k);
    SlotOf(|s.popped|, s.k);
    if s.producer.PushRoom? {
      WriteSlotKeeps(s);
    }
  }

  // ----------------------------------------------------------- both operations complete --

  /** The actions, one after the other, lead from s to t. */
  predicate Leads<T(==)>(s: Ring<T>, actions: seq<Action<T>>, t: Ring<T>)
    decreases |actions|
  {
    if actions == [] then s == t else Enabled(s, actions[0]) && Leads(Step(s, actions[0]), actions[1..], t)
  }

  lemma {:induction false} LeadsBy<T>(s: Ring<T>, a: Action<T>, rest: seq<Action<T>>, t: Ring<T>)
    requires Enabled(s, a) && Leads(Step(s, a), rest, t)
    ensures Leads(s, [a] + rest, t)
  {
    assert ([a] + rest)[1..] == rest;
  }

  /** A producer that sees room gets its message in, by its own four accesses and whatever the consumer is doing. */
  lemma {:induction false} PushGoesThrough<T>(s: Ring<T>, v: T, seen: nat) returns (t: Ring<T>)
    requires Inv(s) && s.producer.PushIdle? && s.tailSeen <= seen <= |s.popped|
    requires |s.pushed| - seen < s.Capacity()
    ensures Leads(s, [LoadHead(v), CheckRoom(seen), WriteSlot, StoreHead], t)
    ensures Inv(t) && t.pushed == s.pushed + [v] && t.popped == s.popped && t.consumer == s.consumer
  {
    var s1 := Step(s, LoadHead(v));
    StepKeeps(s, LoadHead(v));
    CheckRoomKeeps(s1, seen);
    var s2 := Step(s1, CheckRoom(seen));
    SlotOf(|s2.pushed|, s2.k);
    WriteSlotKeeps(s2);
    var s3 := Step(s2, WriteSlot);
    StoreHeadKeeps(s3);
    t := Step(s3, StoreHead);
    hide Inv, Step, Enabled;
    LeadsBy(s3, StoreHead, [], t);
    LeadsBy(s2, WriteSlot, [StoreHead], t);
    LeadsBy(s1, CheckRoom(seen), [WriteSlot] + [StoreHead], t);
    LeadsBy(s, LoadHead(v), [CheckRoom(seen)] + ([WriteSlot] + [StoreHead]), t);
    assert [LoadHead(v)] + ([CheckRoom(seen)] + ([WriteSlot] + [StoreHead]))
        == [LoadHead(v), CheckRoom(seen), WriteSlot, StoreHead];
  }

  /** A consumer that sees a message gets the oldest one. */
  lemma {:induction false} PopGoesThrough<T>(s: Ring<T>, seen: nat) returns (t: Ring<T>)
    requires Inv(s) && s.consumer.PopIdle? && s.headSeen <= seen <= |s.pushed| && |s.popped| < seen
    ensures Leads(s, [LoadTail, CheckMessage(seen), ReadSlot, StoreTail], t)
    ensures Inv(t) && t.popped == s.popped + [s.pushed[|s.popped|]] && t.pushed == s.pushed && t.producer == s.producer
  {
    var s1 := Step(s, LoadTail);
    StepKeeps(s, LoadTail);
    CheckMessageKeeps(s1, seen);
    var s2 := Step(s1, CheckMessage(seen));
    SlotOf(|s2.popped|, s2.k);
    ReadSlotKeeps(s2);
    var s3 := Step(s2, ReadSlot);
    StoreTailKeeps(s3);
    t := Step(s3, StoreTail);
    hide Inv, Step, Enabled;
    LeadsBy(s3, StoreTail, [], t);
    LeadsBy(s2, ReadSlot, [StoreTail], t);
    LeadsBy(s1, CheckMessage(seen), [ReadSlot] + [StoreTail], t);
    LeadsBy(s, LoadTail, [CheckMessage(seen)] + ([ReadSlot] + [StoreTail]), t);
    var all: seq<Action<T>> := [LoadTail] + ([CheckMessage(seen)] + ([ReadSlot] + [StoreTail]));
    assert all == [LoadTail, CheckMessage(seen), ReadSlot, StoreTail];
  }
}
