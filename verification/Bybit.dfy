/**
 Bybit's depth stream (md_provider/bybit/bybit_provider.cpp): duplicates are
 dropped first, what is left is checked for continuity.
 */
module Bybit {
  import opened Types
  import opened SeqDedups
  import opened Continuity

  datatype Outcome = Dropped | Emitted | Resync

  datatype Position = Position(mark: Mark, lastU: u64)

  /** What a message does: the id 1 alone is taken for a restart of the venue's numbering. */
  function Judged(s: Position, u: BookUpdate): (Position, Outcome) {
    var isReset := BybitSent(u).isReset;
    if !Takes(s.mark, u.sequence, isReset) then (s, Dropped)
    else
      var mark, v := Moved(s.mark, u.sequence, isReset), CheckBybit(u, s.lastU);
      if v.action == Ignore then (Position(mark, v.last), Dropped)
      else if v.action == Gap then (Position(mark, 0), Resync)
      else (Position(mark, v.last), Emitted)
  }

  class BybitDepth {
    const dedup: SeqDedup
    var lastDepthU: u64
    var emitted: seq<BookUpdate>

    function At(): Position
      reads this, dedup
    {
      Position(dedup.Mark(), lastDepthU)
    }

    constructor ()
      ensures At() == START && emitted == [] && fresh(dedup)
    {
      dedup := new SeqDedup();
      lastDepthU := 0;
      emitted := [];
    }

    method OnDepthMessage(update: BookUpdate, connIndex: u32) returns (outcome: Outcome)
      modifies this, dedup
      ensures At() == Judged(old(At()), update).0 && outcome == Judged(old(At()), update).1
      ensures emitted == if outcome == Emitted then old(emitted) + [update] else old(emitted)
    {
      var venueReset := update.sequence == 1;
      var ok := dedup.Accept(update.sequence, connIndex, venueReset);
      if !ok {
        return Dropped;
      }
      var v := CheckBybit(update, lastDepthU);
      lastDepthU := v.last;
      match v.action
      case Ignore =>
        return Dropped;
      case Gap =>
        lastDepthU := 0;
        return Resync;
      case _ =>
        emitted := emitted + [update];
        return Emitted;
    }
  }

  // ------------------------------------------------------------------ whole streams --

  const START: Position := Position(Nothing, 0)

  function StateAfter(d: seq<BookUpdate>, n: nat): Position
    requires n <= |d|
  {
    if n == 0 then START else Judged(StateAfter(d, n - 1), d[n - 1]).0
  }

  function OutcomeAt(d: seq<BookUpdate>, n: nat): Outcome
    requires n < |d|
  {
    Judged(StateAfter(d, n), d[n]).1
  }

  function Emissions(d: seq<BookUpdate>, n: nat): seq<BookUpdate>
    requires n <= |d|
  {
    if n == 0 then [] else Emissions(d, n - 1) + (if OutcomeAt(d, n - 1) == Emitted then [d[n - 1]] else [])
  }

  /** The stream as the duplicate filter sees it. */
  function AsSent(stream: seq<BookUpdate>): (r: seq<Sent>)
    ensures |r| == |stream| && forall i :: 0 <= i < |r| ==> r[i] == BybitSent(stream[i])
  {
    if stream == [] then [] else AsSent(DropLast(stream)) + [BybitSent(Last(stream))]
  }

  /** What the venue sends on one subscription: a snapshot, then ids rising one by one. */
  ghost predicate Contiguous(stream: seq<BookUpdate>) {
    && (stream != [] ==> stream[0].isSnapshot)
    && forall i :: 0 < i < |stream| ==> OneUp(stream, i)
  }

  predicate OneUp(stream: seq<BookUpdate>, i: nat)
    requires 0 < i < |stream|
  {
    stream[i].sequence == stream[i - 1].sequence + 1
  }

  lemma {:induction false} ContiguousGap(stream: seq<BookUpdate>, i: nat, j: nat)
    requires Contiguous(stream) && i <= j < |stream|
    ensures stream[j].sequence == stream[i].sequence + (j - i)
  {
    if i < j {
      assert OneUp(stream, j);
      ContiguousGap(stream, i, j - 1);
    }
  }

  lemma {:induction false} ContiguousIncreases(stream: seq<BookUpdate>)
    requires Contiguous(stream)
    ensures Increasing(AsSent(stream))
  {
    forall i, j | 0 <= i < j < |stream| ensures AsSent(stream)[i].id < AsSent(stream)[j].id {
      ContiguousGap(stream, i, j);
    }
  }

  /** Both filters once the first k messages have come through. */
  function StateOf(stream: seq<BookUpdate>, k: nat): Position
    requires k <= |stream|
  {
    Position(MarkOf(AsSent(stream), k), if k == 0 then 0 else stream[k - 1].sequence)
  }

  /** The next message is emitted, a copy of an earlier one is dropped. */
  lemma {:induction false} CopyJudged(stream: seq<BookUpdate>, k: nat, p: nat)
    requires Contiguous(stream) && ResetsLast(AsSent(stream)) && p <= k <= |stream| && p < |stream|
    ensures Judged(StateOf(stream, k), stream[p])
            == if p == k then (StateOf(stream, k + 1), Emitted) else (StateOf(stream, k), Dropped)
  {
    ContiguousIncreases(stream);
    CopyTaken(AsSent(stream), k, p);
    assert k > 0 && p == k ==> OneUp(stream, p);
  }

  lemma {:induction false} PrefixGrows<T>(s: seq<T>, k: nat, k': nat)
    requires k <= k' <= k + 1 && k' <= |s|
    ensures s[..k'] == if k' > k then s[..k] + [s[k]] else s[..k]
  {
  }

  lemma {:induction false} PositionIs(stream: seq<BookUpdate>, schedule: seq<u32>, d: seq<BookUpdate>, n: nat)
    requires Contiguous(stream) && ResetsLast(AsSent(stream)) && Delivers(stream, schedule, d) && n <= |d|
    ensures Longest(schedule, n) <= |stream| && StateAfter(d, n) == StateOf(stream, Longest(schedule, n))
  {
    hide Contiguous, ResetsLast, Judged;
    if n > 0 {
      hide StateOf;
      PositionIs(stream, schedule, d, n - 1);
      DeliveryStep(stream, schedule, d, n - 1);
      CopyJudged(stream, Longest(schedule, n - 1), Count(schedule, schedule[n - 1], n - 1));
    }
  }

  lemma {:induction false} OutcomeIs(stream: seq<BookUpdate>, schedule: seq<u32>, d: seq<BookUpdate>, n: nat)
    requires Contiguous(stream) && ResetsLast(AsSent(stream)) && Delivers(stream, schedule, d) && n < |d|
    ensures var k, k' := Longest(schedule, n), Longest(schedule, n + 1);
            && k <= k' <= k + 1 && k' <= |stream|
            && OutcomeAt(d, n) == (if k' > k then Emitted else Dropped) && (k' > k ==> d[n] == stream[k])
  {
    hide Contiguous, ResetsLast, Judged, StateOf;
    PositionIs(stream, schedule, d, n);
    DeliveryStep(stream, schedule, d, n);
    CopyJudged(stream, Longest(schedule, n), Count(schedule, schedule[n], n));
  }

  /** Exactly the longest delivered prefix went out, and no resync was asked for. */
  ghost predicate Clean(stream: seq<BookUpdate>, schedule: seq<u32>, d: seq<BookUpdate>, n: nat)
    requires n <= |d| == |schedule|
  {
    && Longest(schedule, n) <= |stream| && Emissions(d, n) == stream[..Longest(schedule, n)]
    && forall i :: 0 <= i < n ==> OutcomeAt(d, i) != Resync
  }

  lemma {:induction false} CleanAtStart(stream: seq<BookUpdate>, schedule: seq<u32>, d: seq<BookUpdate>)
    requires |d| == |schedule|
    ensures Clean(stream, schedule, d, 0)
  {
  }

  lemma {:induction false} CleanStep(stream: seq<BookUpdate>, schedule: seq<u32>, d: seq<BookUpdate>, n: nat)
    requires n < |d| == |schedule| && Clean(stream, schedule, d, n)
    requires var k, k' := Longest(schedule, n), Longest(schedule, n + 1);
             && k <= k' <= k + 1 && k' <= |stream|
             && OutcomeAt(d, n) == (if k' > k then Emitted else Dropped) && (k' > k ==> d[n] == stream[k])
    ensures Clean(stream, schedule, d, n + 1)
  {
    hide OutcomeAt, Longest;
    PrefixGrows(stream, Longest(schedule, n), Longest(schedule, n + 1));
  }

  /**
   On a contiguous stream that does not go on past a restart, every interleaving
   of the redundant connections emits exactly the longest delivered prefix and
   never asks for a resync.
   */
  lemma {:induction false} NeverResyncs(stream: seq<BookUpdate>, schedule: seq<u32>, d: seq<BookUpdate>, n: nat)
    requires Contiguous(stream) && ResetsLast(AsSent(stream)) && Delivers(stream, schedule, d)
    requires n <= |d| == |schedule|
    ensures Clean(stream, schedule, d, n)
  {
    hide *;
    if n == 0 {
      CleanAtStart(stream, schedule, d);
    } else {
      NeverResyncs(stream, schedule, d, n - 1);
      OutcomeIs(stream, schedule, d, n - 1);
      CleanStep(stream, schedule, d, n - 1);
    }
  }

  ghost predicate AlwaysClean(stream: seq<BookUpdate>) {
    forall schedule, d, n :: Delivers(stream, schedule, d) && 0 <= n <= |d| ==> Clean(stream, schedule, d, n)
  }

  /**
   And only then: a contiguous stream is safe under every interleaving exactly when
   it ends with its restart, if it has one.
   */
  lemma {:induction false} AlwaysCleanIff(stream: seq<BookUpdate>)
    requires Contiguous(stream)
    ensures AlwaysClean(stream) <==> ResetsLast(AsSent(stream))
  {
    if ResetsLast(AsSent(stream)) {
      forall schedule, d, n | Delivers(stream, schedule, d) && 0 <= n <= |d| ensures Clean(stream, schedule, d, n) {
        NeverResyncs(stream, schedule, d, n);
      }
    } else {
      var i :| 0 <= i < |stream| && AsSent(stream)[i].isReset && i != |stream| - 1;
      ContiguousGap(stream, 0, i);
      ContiguousGap(stream, 0, i + 1);
      if i == 0 {
        RestartFirst(stream);
      } else {
        RestartSecond(stream);
      }
    }
  }

  lemma {:induction false} RunStep(d: seq<BookUpdate>, n: nat)
    requires n < |d|
    ensures StateAfter(d, n + 1) == Judged(StateAfter(d, n), d[n]).0
    ensures |Emissions(d, n + 1)| == |Emissions(d, n)| + if OutcomeAt(d, n) == Emitted then 1 else 0
    ensures OutcomeAt(d, n) == Judged(StateAfter(d, n), d[n]).1
  {
  }

  lemma {:induction false} RunStart(d: seq<BookUpdate>)
    ensures StateAfter(d, 0) == START && Emissions(d, 0) == []
  {
  }

  /** Ids 1, 2 and the first message again: a second snapshot goes out. */
  lemma {:induction false} RestartFirst(stream: seq<BookUpdate>)
    requires |stream| >= 2 && stream[0].isSnapshot && stream[0].sequence == 1 && stream[1].sequence == 2
    ensures !AlwaysClean(stream)
  {
    var schedule, d := Relay(2, 4), Relayed(stream, 2);
    RelayDelivers(stream, 2);
    RelayCounts(schedule, 2, 3);
    RelayedAt(stream, 2, 0);
    RelayedAt(stream, 2, 1);
    RelayedAt(stream, 2, 2);
    hide StateAfter, Emissions, OutcomeAt, Relay, Relayed;
    RunStart(d);
    RunStep(d, 0);
    RunStep(d, 1);
    RunStep(d, 2);
    assert |Emissions(d, 3)| == 3;
    assert !Clean(stream, schedule, d, 3);
  }

  /** Ids 0, 1, 2 and the first two again: the restart goes out twice or is taken for a gap. */
  lemma {:induction false} RestartSecond(stream: seq<BookUpdate>)
    requires |stream| >= 3 && stream[0].isSnapshot
    requires stream[0].sequence == 0 && stream[1].sequence == 1 && stream[2].sequence == 2
    ensures !AlwaysClean(stream)
  {
    var schedule, d := Relay(3, 6), Relayed(stream, 3);
    RelayDelivers(stream, 3);
    RelayCounts(schedule, 3, 5);
    RelayedAt(stream, 3, 0);
    RelayedAt(stream, 3, 1);
    RelayedAt(stream, 3, 2);
    RelayedAt(stream, 3, 3);
    RelayedAt(stream, 3, 4);
    hide StateAfter, Emissions, OutcomeAt, Relay, Relayed, Longest, Count, Delivers;
    RunStart(d);
    RunStep(d, 0);
    RunStep(d, 1);
    RunStep(d, 2);
    assert StateAfter(d, 3) == Position(Upto(2), 2) && |Emissions(d, 3)| == 3;
    TwoMoreOut(d);
    assert !Clean(stream, schedule, d, 5);
  }

  lemma {:induction false} TwoMoreOut(d: seq<BookUpdate>)
    requires |d| >= 5 && StateAfter(d, 3) == Position(Upto(2), 2) && |Emissions(d, 3)| == 3
    requires d[3].sequence == 0 && d[4].sequence == 1
    ensures |Emissions(d, 5)| == 4 || OutcomeAt(d, 4) == Resync
  {
    hide StateAfter, Emissions, OutcomeAt;
    RunStep(d, 3);
    RunStep(d, 4);
  }

  /** A lost message is never papered over: the next delta reports it. */
  lemma {:induction false} LossIsReported(stream: seq<BookUpdate>, k: nat, p: nat)
    requires Contiguous(stream) && ResetsLast(AsSent(stream)) && 0 < k < p < |stream| && !stream[p].isSnapshot
    ensures Judged(StateOf(stream, k), stream[p]).1 == Resync
  {
    ContiguousGap(stream, k - 1, p);
  }

  /** After a loss nothing goes out until the venue sends a snapshot or restarts its ids. */
  lemma {:induction false} LossHoldsBack(s: Position, u: BookUpdate, v: BookUpdate)
    requires Judged(s, u).1 == Resync && !v.isSnapshot && v.sequence != 1
    ensures Judged(Judged(s, u).0, v).1 != Emitted
  {
  }

  const OLD_BOOK: BookUpdate := BookUpdate(BYBIT, 0, 5, 0, 0, 0, 0, true, [PriceLevel(100, 5)], [])
  const NEW_BOOK: BookUpdate := BookUpdate(BYBIT, 0, 1, 0, 0, 0, 0, true, [PriceLevel(100, 1)], [])

  /** A restart that falls: the slower connection's older snapshot is taken once more and undoes it. */
  lemma {:induction false} RestartUndone()
    ensures var d := [OLD_BOOK, NEW_BOOK, OLD_BOOK];
            Delivers([OLD_BOOK, NEW_BOOK], [0, 0, 1], d) && Longest([0, 0, 1], 3) == 2 && Emissions(d, 3) == d
  {
    var d := [OLD_BOOK, NEW_BOOK, OLD_BOOK];
    OneStale([OLD_BOOK, NEW_BOOK]);
    RunStart(d);
    assert Emissions(d, 1) == [OLD_BOOK] && StateAfter(d, 1) == Position(Upto(5), 5);
    assert Emissions(d, 2) == [OLD_BOOK, NEW_BOOK] && StateAfter(d, 2) == Position(Upto(1), 1);
  }
}
