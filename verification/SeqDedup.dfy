/**
 Duplicate rejection for redundant connections (md_provider/seq_dedup.cpp): the
 filter, what it accepts of any delivery order, and when that is each message
 exactly once.
 */
module SeqDedups {
  import opened Types

  // ------------------------------------------------------------------ the filter --

  /** What decides acceptance: the high-water mark, once there is one. */
  datatype Mark = Nothing | Upto(last: u64)

  predicate Takes(mark: Mark, id: u64, isReset: bool) {
    mark.Nothing? || (if isReset then id != mark.last else id > mark.last)
  }

  function Moved(mark: Mark, id: u64, isReset: bool): Mark {
    if Takes(mark, id, isReset) then Upto(id) else mark
  }

  class SeqDedup {
    var last: u64
    var seen: bool
    /** Connections (below 8) collected for the newest id, and for the id before it. */
    var seenMask: set<u32>
    var lastMask: set<u32>
    var consecutiveDrops: u32

    function Mark(): Mark
      reads this
    {
      if seen then Upto(last) else Nothing
    }

    function Collected(): Masks
      reads this
    {
      Masks(seenMask, lastMask)
    }

    constructor ()
      ensures Mark() == Nothing && consecutiveDrops == 0 && Collected() == NO_MASKS
    {
      last, seen, seenMask, lastMask, consecutiveDrops := 0, false, {}, {}, 0;
    }

    method Accept(id: u64, connIndex: u32, isReset: bool) returns (ok: bool)
      modifies this
      ensures ok == Takes(old(Mark()), id, isReset) && Mark() == Moved(old(Mark()), id, isReset)
      ensures Collected() == Marked(old(Collected()), ok, connIndex)
      ensures consecutiveDrops == if ok then 0 else (old(consecutiveDrops) + 1) % 0x1_0000_0000
    {
      var bit := Bit(connIndex);
      if isReset {
        if seen && id == last {
          seenMask := seenMask + bit;
          consecutiveDrops := (consecutiveDrops + 1) % 0x1_0000_0000;
          return false;
        }
        Rotate(id, bit);
        return true;
      }
      if seen && id <= last {
        seenMask := seenMask + bit;
        consecutiveDrops := (consecutiveDrops + 1) % 0x1_0000_0000;
        return false;
      }
      Rotate(id, bit);
      return true;
    }

    method Rotate(id: u64, bit: set<u32>)
      modifies this
      ensures Mark() == Upto(id) && lastMask == old(seenMask) && seenMask == bit && consecutiveDrops == 0
    {
      lastMask := seenMask;
      seenMask := bit;
      last := id;
      seen := true;
      consecutiveDrops := 0;
    }
  }

  function Bit(connIndex: u32): set<u32> {
    if connIndex < 8 then {connIndex} else {}
  }

  /** The connections collected for the newest id, and those published for the one before it. */
  datatype Masks = Masks(seen: set<u32>, last: set<u32>)

  const NO_MASKS: Masks := Masks({}, {})

  /** An accepted message starts a new mask, a dropped one is added to the current mask whatever its id. */
  function Marked(m: Masks, taken: bool, connIndex: u32): Masks {
    if taken then Masks(Bit(connIndex), m.seen) else m.(seen := m.seen + Bit(connIndex))
  }

  // ----------------------------------------------------------------- deliveries --

  /** A message as the filter sees it: its id, and whether its provider flags it as a restart of the numbering. */
  datatype Sent = Sent(id: u64, isReset: bool)

  /** Bybit flags the id 1. */
  function BybitSent(u: BookUpdate): Sent {
    Sent(u.sequence, u.sequence == 1)
  }

  /** OKX flags an id that falls while it still names its predecessor. */
  function OkxSent(u: BookUpdate): Sent {
    Sent(u.sequence, u.prevSeq > 0 && u.sequence < u.prevSeq)
  }

  function MarkAfter(d: seq<Sent>, n: nat): Mark
    requires n <= |d|
  {
    if n == 0 then Nothing else Moved(MarkAfter(d, n - 1), d[n - 1].id, d[n - 1].isReset)
  }

  predicate Passes(d: seq<Sent>, n: nat)
    requires n < |d|
  {
    Takes(MarkAfter(d, n), d[n].id, d[n].isReset)
  }

  /** The messages that pass, in order. */
  function Taken(d: seq<Sent>, n: nat): seq<Sent>
    requires n <= |d|
  {
    if n == 0 then [] else Taken(d, n - 1) + (if Passes(d, n - 1) then [d[n - 1]] else [])
  }

  /** Without resets, whatever is delivered: an id passes exactly when it exceeds everything delivered before it. */
  lemma {:induction false} TakesNewMaxima(d: seq<Sent>, n: nat)
    requires n < |d| && forall j :: 0 <= j < |d| ==> !d[j].isReset
    ensures Passes(d, n) <==> forall j :: 0 <= j < n ==> d[j].id < d[n].id
  {
    MarkIsMaximum(d, n);
  }

  lemma {:induction false} MarkIsMaximum(d: seq<Sent>, n: nat)
    requires n <= |d| && forall j :: 0 <= j < |d| ==> !d[j].isReset
    ensures MarkAfter(d, n).Nothing? <==> n == 0
    ensures n > 0 ==> exists j :: 0 <= j < n && d[j].id == MarkAfter(d, n).last
    ensures n > 0 ==> forall j :: 0 <= j < n ==> d[j].id <= MarkAfter(d, n).last
  {
    if n > 0 {
      MarkIsMaximum(d, n - 1);
      assert d[n - 1].id == MarkAfter(d, n).last || MarkAfter(d, n) == MarkAfter(d, n - 1);
    }
  }

  // --------------------------------------------------------- redundant connections --

  /** How many of the first n deliveries connection c made. */
  function Count(schedule: seq<u32>, c: u32, n: nat): (r: nat)
    requires n <= |schedule|
    ensures r <= n
  {
    if n == 0 then 0 else Count(schedule, c, n - 1) + (if schedule[n - 1] == c then 1 else 0)
  }

  /** The n-th delivery is the next message its connection has not delivered yet. */
  ghost predicate NextOfStream<T>(stream: seq<T>, schedule: seq<u32>, d: seq<T>, n: nat)
    requires n < |schedule| == |d|
  {
    Count(schedule, schedule[n], n) < |stream| && d[n] == stream[Count(schedule, schedule[n], n)]
  }

  /** An interleaving: each connection delivers the stream from its beginning, in order, as far as it gets. */
  ghost predicate Delivers<T>(stream: seq<T>, schedule: seq<u32>, d: seq<T>) {
    |d| == |schedule| && forall n :: 0 <= n < |d| ==> NextOfStream(stream, schedule, d, n)
  }

  /** The longest prefix any connection has delivered. */
  function Longest(schedule: seq<u32>, n: nat): (r: nat)
    requires n <= |schedule|
  {
    if n == 0 then 0
    else
      var own := Count(schedule, schedule[n - 1], n);
      if own > Longest(schedule, n - 1) then own else Longest(schedule, n - 1)
  }

  lemma {:induction false} LongestBounds(schedule: seq<u32>, c: u32, n: nat)
    requires n <= |schedule|
    ensures Count(schedule, c, n) <= Longest(schedule, n)
  {
    if n > 0 {
      LongestBounds(schedule, c, n - 1);
    }
  }

  lemma {:induction false} LongestWithin<T>(stream: seq<T>, schedule: seq<u32>, d: seq<T>, n: nat)
    requires Delivers(stream, schedule, d) && n <= |d|
    ensures Longest(schedule, n) <= |stream|
  {
    if n > 0 {
      LongestWithin(stream, schedule, d, n - 1);
      assert NextOfStream(stream, schedule, d, n - 1);
    }
  }

  ghost predicate Increasing(stream: seq<Sent>) {
    forall i, j :: 0 <= i < j < |stream| ==> stream[i].id < stream[j].id
  }

  /** A flagged message, if there is one, ends the stream. */
  ghost predicate ResetsLast(stream: seq<Sent>) {
    forall i :: 0 <= i < |stream| && stream[i].isReset ==> i == |stream| - 1
  }

  /** The mark once the first k messages of the stream have passed. */
  function MarkOf(stream: seq<Sent>, k: nat): Mark
    requires k <= |stream|
  {
    if k == 0 then Nothing else Upto(stream[k - 1].id)
  }

  /** With k messages passed, the copy of message p passes exactly when p is the next one. */
  lemma {:induction false} CopyTaken(stream: seq<Sent>, k: nat, p: nat)
    requires Increasing(stream) && ResetsLast(stream) && p <= k <= |stream| && p < |stream|
    ensures Takes(MarkOf(stream, k), stream[p].id, stream[p].isReset) <==> p == k
    ensures Moved(MarkOf(stream, k), stream[p].id, stream[p].isReset) == MarkOf(stream, if p == k then k + 1 else k)
  {
  }

  /** One delivery lengthens the longest prefix exactly when its message was the next one. */
  lemma {:induction false} DeliveryStep<T>(stream: seq<T>, schedule: seq<u32>, d: seq<T>, n: nat)
    requires Delivers(stream, schedule, d) && n < |d|
    ensures var k, p := Longest(schedule, n), Count(schedule, schedule[n], n);
            && p <= k <= |stream| && p < |stream| && d[n] == stream[p]
            && Longest(schedule, n + 1) == if p == k then k + 1 else k
  {
    LongestBounds(schedule, schedule[n], n);
    LongestWithin(stream, schedule, d, n);
    assert NextOfStream(stream, schedule, d, n);
  }

  /**
   For every interleaving: what passes is exactly the longest delivered prefix,
   each message once and in order.
   */
  lemma {:induction false} ExactlyOnce(stream: seq<Sent>, schedule: seq<u32>, d: seq<Sent>, n: nat)
    requires Increasing(stream) && ResetsLast(stream) && Delivers(stream, schedule, d) && n <= |d|
    ensures PrefixTaken(stream, schedule, d, n) && MarkAfter(d, n) == MarkOf(stream, Longest(schedule, n))
  {
    assert |d| == |schedule|;
    hide Delivers, Increasing, ResetsLast, Takes, Moved, MarkOf;
    if n == 0 {
      NothingTaken(stream, schedule, d);
    } else {
      ExactlyOnce(stream, schedule, d, n - 1);
      DeliveryStep(stream, schedule, d, n - 1);
      CopyTaken(stream, Longest(schedule, n - 1), Count(schedule, schedule[n - 1], n - 1));
    }
  }

  lemma {:induction false} NothingTaken(stream: seq<Sent>, schedule: seq<u32>, d: seq<Sent>)
    requires |d| == |schedule|
    ensures PrefixTaken(stream, schedule, d, 0) && MarkAfter(d, 0) == MarkOf(stream, 0) && Longest(schedule, 0) == 0
  {
  }

  ghost predicate PrefixTaken(stream: seq<Sent>, schedule: seq<u32>, d: seq<Sent>, n: nat)
    requires n <= |d| == |schedule|
  {
    Longest(schedule, n) <= |stream| && Taken(d, n) == stream[..Longest(schedule, n)]
  }

  /** At every moment of every interleaving, what has passed is the longest delivered prefix. */
  ghost predicate AlwaysOnce(stream: seq<Sent>) {
    forall schedule, d, n :: Delivers(stream, schedule, d) && 0 <= n <= |d| ==> PrefixTaken(stream, schedule, d, n)
  }

  /**
   When redundancy is safe: any stream comes through exactly once under every
   interleaving if and only if its ids rise throughout and nothing follows a
   flagged message in it. The restart branch recognises a copy only while it is
   still the newest id, and after a fall it lets the older ids in again.
   */
  lemma {:induction false} AlwaysOnceIff(stream: seq<Sent>)
    ensures AlwaysOnce(stream) <==> Increasing(stream) && ResetsLast(stream)
  {
    if Increasing(stream) && ResetsLast(stream) {
      forall schedule, d, n | Delivers(stream, schedule, d) && 0 <= n <= |d|
          ensures PrefixTaken(stream, schedule, d, n) {
        ExactlyOnce(stream, schedule, d, n);
      }
    }
    if AlwaysOnce(stream) {
      forall i, j | 0 <= i < j < |stream| ensures stream[i].id < stream[j].id {
        MustRise(stream, i, j);
      }
      forall i | 0 <= i < |stream| && stream[i].isReset ensures i == |stream| - 1 {
        if i + 1 < |stream| {
          MustRise(stream, i, i + 1);
          RelayMark(stream, i + 2, i + 2 + i);
        }
      }
    }
  }

  /** Connection 0 delivers a messages, connection 1 everything after that. */
  function Relay(a: nat, n: nat): (r: seq<u32>)
    ensures |r| == n && forall j :: 0 <= j < n ==> r[j] == if j < a then 0 else 1
  {
    if n == 0 then [] else Relay(a, n - 1) + [if n - 1 < a then 0 else 1]
  }

  /** What it delivers: the first a messages twice over. */
  function Relayed<T>(stream: seq<T>, a: nat): (r: seq<T>)
    requires a <= |stream|
    ensures |r| == 2 * a
  {
    stream[..a] + stream[..a]
  }

  lemma {:induction false} RelayedAt<T>(stream: seq<T>, a: nat, n: nat)
    requires a <= |stream| && n < 2 * a
    ensures Relayed(stream, a)[n] == stream[if n < a then n else n - a]
  {
  }

  lemma {:induction false} RelayCounts(schedule: seq<u32>, a: nat, n: nat)
    requires n <= |schedule| && n <= 2 * a && forall j :: 0 <= j < |schedule| ==> schedule[j] == if j < a then 0 else 1
    ensures Count(schedule, 0, n) == (if n < a then n else a) && Count(schedule, 1, n) == if n < a then 0 else n - a
    ensures Longest(schedule, n) == if n < a then n else a
  {
    if n > 0 {
      RelayCounts(schedule, a, n - 1);
    }
  }

  lemma {:induction false} RelayDelivers<T>(stream: seq<T>, a: nat)
    requires a <= |stream|
    ensures Delivers(stream, Relay(a, 2 * a), Relayed(stream, a))
  {
    var schedule, d := Relay(a, 2 * a), Relayed(stream, a);
    hide Relay, Relayed;
    forall n | 0 <= n < |d| ensures NextOfStream(stream, schedule, d, n) {
      RelayCounts(schedule, a, n);
      RelayedAt(stream, a, n);
    }
  }

  lemma {:induction false} TakenStep(d: seq<Sent>, n: nat)
    requires n < |d|
    ensures |Taken(d, n + 1)| == |Taken(d, n)| + (if Passes(d, n) then 1 else 0)
    ensures MarkAfter(d, n + 1) == if Passes(d, n) then Upto(d[n].id) else MarkAfter(d, n)
  {
  }

  /** During the relay the number of messages through rises to a and stays there. */
  lemma {:induction false} RelayTotals(stream: seq<Sent>, a: nat, n: nat)
    requires AlwaysOnce(stream) && a <= |stream| && n <= 2 * a
    ensures |Taken(Relayed(stream, a), n)| == if n < a then n else a
  {
    var schedule, d := Relay(a, 2 * a), Relayed(stream, a);
    hide Relay, Relayed, Taken, Longest, Count;
    RelayDelivers(stream, a);
    RelayCounts(schedule, a, n);
    assert PrefixTaken(stream, schedule, d, n);
  }

  /** So the first connection gets everything through, and the second nothing. */
  lemma {:induction false} RelayMark(stream: seq<Sent>, a: nat, n: nat)
    requires AlwaysOnce(stream) && a <= |stream| && n <= 2 * a
    ensures MarkAfter(Relayed(stream, a), n) == MarkOf(stream, if n < a then n else a)
    ensures n < a ==> Takes(MarkOf(stream, n), stream[n].id, stream[n].isReset)
    ensures a <= n < 2 * a ==> !Takes(MarkOf(stream, a), stream[n - a].id, stream[n - a].isReset)
  {
    hide AlwaysOnce, Relayed, Takes, Taken;
    if n > 0 {
      RelayMark(stream, a, n - 1);
      RelayTotals(stream, a, n - 1);
      RelayTotals(stream, a, n);
      TakenStep(Relayed(stream, a), n - 1);
      RelayedAt(stream, a, n - 1);
    }
    if n < 2 * a {
      RelayTotals(stream, a, n);
      RelayTotals(stream, a, n + 1);
      TakenStep(Relayed(stream, a), n);
      RelayedAt(stream, a, n);
    }
  }

  /** A fall is taken only as a restart, and after it the id before it passes again. */
  lemma {:induction false} MustRise(stream: seq<Sent>, i: nat, j: nat)
    requires AlwaysOnce(stream) && i < j < |stream|
    ensures stream[i].id < stream[j].id
  {
    RelayMark(stream, j + 1, j);
    RelayMark(stream, j + 1, j + 1 + (j - 1));
    if i < j - 1 {
      MustRise(stream, i, j - 1);
    }
  }

  const OKX_OLD: BookUpdate := BookUpdate(OKX, 0, 15, 12, 0, 0, 0, false, [], [])
  const OKX_RESET: BookUpdate := BookUpdate(OKX, 0, 3, 15, 0, 0, 0, false, [], [])

  /** OKX's maintenance reset, 15 and then 3: the older message passes once more after it. */
  lemma {:induction false} FallingRestart()
    ensures var before, after := OkxSent(OKX_OLD), OkxSent(OKX_RESET);
            && after.isReset && Delivers([before, after], [0, 0, 1], [before, after, before])
                && Longest([0, 0, 1], 3) == 2
            && Taken([before, after, before], 3) == [before, after, before]
  {
    var stream := [OkxSent(OKX_OLD), OkxSent(OKX_RESET)];
    OneStale(stream);
    var d := [stream[0], stream[1], stream[0]];
    assert Taken(d, 1) == [stream[0]] && Taken(d, 2) == stream;
  }

  /** A restart that rises: two connections, one of them a message past it, and its copy passes again. */
  lemma {:induction false} RestartTwice()
    ensures var first, second := Sent(1, true), Sent(2, false);
            && Delivers([first, second], [0, 0, 1], [first, second, first]) && Longest([0, 0, 1], 3) == 2
            && Taken([first, second, first], 3) == [first, second, first]
  {
    var stream := [Sent(1, true), Sent(2, false)];
    OneStale(stream);
    var d := [stream[0], stream[1], stream[0]];
    assert Taken(d, 1) == [stream[0]] && Taken(d, 2) == stream;
  }

  /** The schedule of both: one connection delivers two messages, then the other the first of them. */
  lemma {:induction false} OneStale<T>(stream: seq<T>)
    requires |stream| == 2
    ensures Delivers(stream, [0, 0, 1], [stream[0], stream[1], stream[0]]) && Longest([0, 0, 1], 3) == 2
  {
    var schedule: seq<u32>, d := [0, 0, 1], [stream[0], stream[1], stream[0]];
    RelayCounts(schedule, 2, 3);
    forall n | 0 <= n < 3 ensures NextOfStream(stream, schedule, d, n) {
      RelayCounts(schedule, 2, n);
    }
  }

  // --------------------------------------------------------------- the health masks --

  function MasksAfter(schedule: seq<u32>, d: seq<Sent>, n: nat): Masks
    requires n <= |d| == |schedule|
  {
    if n == 0 then NO_MASKS else Marked(MasksAfter(schedule, d, n - 1), Passes(d, n - 1), schedule[n - 1])
  }

  /** Connection c made one of the first n deliveries while the k-th message through was the newest. */
  ghost predicate SpokeAt(schedule: seq<u32>, d: seq<Sent>, k: nat, c: u32, n: nat) {
    n <= |d| == |schedule| && exists j: nat :: j < n && SpokeBy(schedule, d, k, c, j)
  }

  ghost predicate SpokeBy(schedule: seq<u32>, d: seq<Sent>, k: nat, c: u32, j: nat) {
    j < |d| == |schedule| && schedule[j] == c && |Taken(d, j + 1)| == k
  }

  lemma {:induction false} TakenGrows(d: seq<Sent>, m: nat, n: nat)
    requires m <= n <= |d|
    ensures |Taken(d, m)| <= |Taken(d, n)|
  {
    if m < n {
      TakenGrows(d, m, n - 1);
    }
  }

  lemma {:induction false} SpokeStep(schedule: seq<u32>, d: seq<Sent>, c: u32, n: nat)
    requires n < |d| == |schedule|
    ensures var k := |Taken(d, n + 1)|;
            SpokeAt(schedule, d, k, c, n + 1) <==> schedule[n] == c || (!Passes(d, n) && SpokeAt(schedule, d, k, c, n))
  {
    var k := |Taken(d, n + 1)|;
    TakenStep(d, n);
    if schedule[n] == c {
      assert SpokeBy(schedule, d, k, c, n);
    } else if SpokeAt(schedule, d, k, c, n + 1) {
      var j: nat :| j < n + 1 && SpokeBy(schedule, d, k, c, j);
      TakenGrows(d, j + 1, n);
      assert j < n && SpokeBy(schedule, d, k, c, j);
    }
  }

  /** Whatever is delivered, the mask collects the connections that spoke while the newest message was the newest. */
  lemma {:induction false} SeenMaskIs(schedule: seq<u32>, d: seq<Sent>, n: nat, c: u32)
    requires n <= |d| == |schedule|
    ensures c in MasksAfter(schedule, d, n).seen <==> c < 8 && SpokeAt(schedule, d, |Taken(d, n)|, c, n)
  {
    if n > 0 {
      hide SpokeAt, Passes;
      SeenMaskIs(schedule, d, n - 1, c);
      SpokeStep(schedule, d, c, n - 1);
      TakenStep(d, n - 1);
    }
  }

  /** Connection c delivered a copy of the message. */
  ghost predicate HadIt(schedule: seq<u32>, d: seq<Sent>, m: Sent, c: u32, n: nat) {
    n <= |d| == |schedule| && exists j :: 0 <= j < n && schedule[j] == c && d[j] == m
  }

  /**
   The mask published when another message comes through names exactly the
   connections that delivered the one before it, as documented, if and only if
   those that spoke in between had all delivered it and those that delivered it
   all spoke in between. Whatever is delivered, restarts included.
   */
  lemma {:induction false} MaskTellsIff(schedule: seq<u32>, d: seq<Sent>, n: nat)
    requires n < |d| == |schedule| && Passes(d, n) && Taken(d, n) != []
    ensures var k, m := |Taken(d, n)|, Last(Taken(d, n));
            (forall c: u32 :: c in MasksAfter(schedule, d, n + 1).last <==> c < 8 && HadIt(schedule, d, m, c, n))
            <==> (&& (forall c: u32 :: c < 8 && SpokeAt(schedule, d, k, c, n) ==> HadIt(schedule, d, m, c, n))
                  && (forall c: u32 :: c < 8 && HadIt(schedule, d, m, c, n) ==> SpokeAt(schedule, d, k, c, n)))
  {
    var last := MasksAfter(schedule, d, n + 1).last;
    assert last == MasksAfter(schedule, d, n).seen;
    forall c: u32 ensures c in last <==> c < 8 && SpokeAt(schedule, d, |Taken(d, n)|, c, n) {
      SeenMaskIs(schedule, d, n, c);
    }
  }

  lemma {:induction false} LongestGrows(schedule: seq<u32>, m: nat, n: nat)
    requires m <= n <= |schedule|
    ensures Longest(schedule, m) <= Longest(schedule, n)
  {
    if m < n {
      LongestGrows(schedule, m, n - 1);
    }
  }

  /**
   On a stream that comes through once, a connection that delivered the newest
   message did so while it was the newest.
   */
  lemma {:induction false} DelivererSpoke(stream: seq<Sent>, schedule: seq<u32>, d: seq<Sent>, n: nat, c: u32)
    requires Increasing(stream) && ResetsLast(stream) && Delivers(stream, schedule, d) && n <= |d| && Taken(d, n) != []
    requires HadIt(schedule, d, Last(Taken(d, n)), c, n)
    ensures SpokeAt(schedule, d, |Taken(d, n)|, c, n)
  {
    var k := Longest(schedule, n);
    ExactlyOnce(stream, schedule, d, n);
    var j :| 0 <= j < n && schedule[j] == c && d[j] == Last(Taken(d, n));
    DeliveryStep(stream, schedule, d, j);
    assert d[j].id == stream[k - 1].id;
    assert Count(schedule, c, j) == k - 1;
    LongestBounds(schedule, c, j + 1);
    LongestGrows(schedule, j + 1, n);
    ExactlyOnce(stream, schedule, d, j + 1);
    assert SpokeBy(schedule, d, |Taken(d, n)|, c, j);
  }

  /** There, then, the mask is what it is documented to be exactly when no connection lags behind the newest message. */
  lemma {:induction false} MaskTellsUnlessLagging(stream: seq<Sent>, schedule: seq<u32>, d: seq<Sent>, n: nat)
    requires Increasing(stream) && ResetsLast(stream) && Delivers(stream, schedule, d)
    requires n < |d| && Passes(d, n) && Taken(d, n) != []
    ensures var k, m := |Taken(d, n)|, Last(Taken(d, n));
            (forall c: u32 :: c in MasksAfter(schedule, d, n + 1).last <==> c < 8 && HadIt(schedule, d, m, c, n))
            <==> (forall c: u32 :: c < 8 && SpokeAt(schedule, d, k, c, n) ==> HadIt(schedule, d, m, c, n))
  {
    var k, m := |Taken(d, n)|, Last(Taken(d, n));
    MaskTellsIff(schedule, d, n);
    forall c: u32 | c < 8 && HadIt(schedule, d, m, c, n) ensures SpokeAt(schedule, d, k, c, n) {
      DelivererSpoke(stream, schedule, d, n, c);
    }
  }

  /** A connection that lags by a message is credited with one it never delivered. */
  lemma {:induction false} LaggardIsCredited()
    ensures var a, b, e := Sent(7, false), Sent(8, false), Sent(9, false);
            && Delivers([a, b, e], [0, 0, 1, 0], [a, b, a, e]) && Taken([a, b, a, e], 4) == [a, b, e]
            && MasksAfter([0, 0, 1, 0], [a, b, a, e], 4).last == {0, 1} && !HadIt([0, 0, 1, 0], [a, b, a, e], b, 1, 4)
  {
    var a, b, e := Sent(7, false), Sent(8, false), Sent(9, false);
    var sched: seq<u32>, d, stream := [0, 0, 1, 0], [a, b, a, e], [a, b, e];
    assert Count(sched, 0, 0) == 0 && Count(sched, 0, 1) == 1 && Count(sched, 0, 2) == 2 && Count(sched, 0, 3) == 2;
    assert Count(sched, 1, 0) == Count(sched, 1, 1) == Count(sched, 1, 2) == 0;
    assert forall n :: 0 <= n < 4 ==> NextOfStream(stream, sched, d, n);
    assert MarkAfter(d, 0) == Nothing && Taken(d, 0) == [] && MasksAfter(sched, d, 0) == NO_MASKS;
    hide MarkAfter, Taken, MasksAfter, Delivers;
    FilterStep(sched, d, 0);
    FilterStep(sched, d, 1);
    FilterStep(sched, d, 2);
    FilterStep(sched, d, 3);
    assert Taken(d, 4) == [a, b, e];
  }

  lemma {:induction false} FilterStep(schedule: seq<u32>, d: seq<Sent>, n: nat)
    requires n < |d| == |schedule|
    ensures MarkAfter(d, n + 1) == if Passes(d, n) then Upto(d[n].id) else MarkAfter(d, n)
    ensures Taken(d, n + 1) == Taken(d, n) + (if Passes(d, n) then [d[n]] else [])
    ensures MasksAfter(schedule, d, n + 1) == Marked(MasksAfter(schedule, d, n), Passes(d, n), schedule[n])
  {
  }
}
