/**
 OKX's depth stream (md_provider/okx/okx_provider.cpp): duplicates are dropped
 first, a fall of the numbering that still chains is flagged to the filter, and
 what is left is checked against the id each message names.
 */
module Okx {
  import opened Types
  import opened SeqDedups
  import opened Continuity
  import B = Bybit

  /** What a message does to the filter's mark and the last id. */
  function Judged(s: B.Position, u: BookUpdate): (B.Position, B.Outcome) {
    var isReset := OkxSent(u).isReset;
    if !Takes(s.mark, u.sequence, isReset) then (s, B.Dropped)
    else
      var mark, v := Moved(s.mark, u.sequence, isReset), CheckOkx(u, s.lastU);
      if v.action == Ignore then (B.Position(mark, v.last), B.Dropped)
      else if v.action == Gap then (B.Position(mark, 0), B.Resync)
      else (B.Position(mark, v.last), B.Emitted)
  }

  class OkxDepth {
    const dedup: SeqDedup
    var lastDepthSeq: u64
    var emitted: seq<BookUpdate>

    function At(): B.Position
      reads this, dedup
    {
      B.Position(dedup.Mark(), lastDepthSeq)
    }

    constructor ()
      ensures At() == B.START && emitted == [] && fresh(dedup)
    {
      dedup := new SeqDedup();
      lastDepthSeq := 0;
      emitted := [];
    }

    method OnDepthMessage(update: BookUpdate, connIndex: u32) returns (outcome: B.Outcome)
      modifies this, dedup
      ensures At() == Judged(old(At()), update).0 && outcome == Judged(old(At()), update).1
      ensures emitted == if outcome == B.Emitted then old(emitted) + [update] else old(emitted)
    {
      var venueReset := update.prevSeq > 0 && update.sequence < update.prevSeq;
      var ok := dedup.Accept(update.sequence, connIndex, venueReset);
      if !ok {
        return B.Dropped;
      }
      var v := CheckOkx(update, lastDepthSeq);
      lastDepthSeq := v.last;
      match v.action
      case Ignore =>
        return B.Dropped;
      case Gap =>
        lastDepthSeq := 0;
        return B.Resync;
      case _ =>
        emitted := emitted + [update];
        return B.Emitted;
    }
  }

  // ------------------------------------------------------------------ whole streams --

  function StateAfter(d: seq<BookUpdate>, n: nat): B.Position
    requires n <= |d|
  {
    if n == 0 then B.START else Judged(StateAfter(d, n - 1), d[n - 1]).0
  }

  function OutcomeAt(d: seq<BookUpdate>, n: nat): B.Outcome
    requires n < |d|
  {
    Judged(StateAfter(d, n), d[n]).1
  }

  function Emissions(d: seq<BookUpdate>, n: nat): seq<BookUpdate>
    requires n <= |d|
  {
    if n == 0 then [] else Emissions(d, n - 1) + (if OutcomeAt(d, n - 1) == B.Emitted then [d[n - 1]] else [])
  }

  /** The stream as the duplicate filter sees it. */
  function AsSent(stream: seq<BookUpdate>): (r: seq<Sent>)
    ensures |r| == |stream| && forall i :: 0 <= i < |r| ==> r[i] == OkxSent(stream[i])
  {
    seq(|stream|, i requires 0 <= i < |stream| => OkxSent(stream[i]))
  }

  /** What the venue sends: snapshots, which name no predecessor, and messages that name theirs. */
  ghost predicate Chained(stream: seq<BookUpdate>) {
    forall i :: 0 <= i < |stream| ==> Named(stream, i)
  }

  predicate Named(stream: seq<BookUpdate>, i: nat)
    requires i < |stream|
  {
    if stream[i].isSnapshot then stream[i].prevSeq == -1
    else i > 0 && stream[i].prevSeq == stream[i - 1].sequence
  }

  // ---- what passes the filter is what goes out, until something is missing --

  lemma {:induction false} RunStep(d: seq<BookUpdate>, n: nat)
    requires n < |d|
    ensures StateAfter(d, n + 1) == Judged(StateAfter(d, n), d[n]).0
    ensures OutcomeAt(d, n) == Judged(StateAfter(d, n), d[n]).1
    ensures Taken(AsSent(d), n + 1) == Taken(AsSent(d), n) + if Passes(AsSent(d), n) then [OkxSent(d[n])] else []
    ensures Emissions(d, n + 1) == Emissions(d, n) + if OutcomeAt(d, n) == B.Emitted then [d[n]] else []
    ensures MarkAfter(AsSent(d), n + 1) == Moved(MarkAfter(AsSent(d), n), d[n].sequence, OkxSent(d[n]).isReset)
    ensures Passes(AsSent(d), n) == Takes(MarkAfter(AsSent(d), n), d[n].sequence, OkxSent(d[n]).isReset)
  {
  }

  /** No message has asked for a resync among the first n. */
  predicate Quiet(d: seq<BookUpdate>, n: nat)
    requires n <= |d|
  {
    forall i :: 0 <= i < n ==> OutcomeAt(d, i) != B.Resync
  }

  /** The last id is the filter's own mark, so a repeated id never gets as far as the rule. */
  predicate InStep(s: B.Position) {
    s.mark == if s.mark.Nothing? then Nothing else Upto(s.lastU)
  }

  lemma {:induction false} JudgedInStep(s: B.Position, u: BookUpdate)
    requires InStep(s) && Judged(s, u).1 != B.Resync && (s.mark.Nothing? ==> u.isSnapshot)
    ensures InStep(Judged(s, u).0) && Judged(s, u).0.mark == Moved(s.mark, u.sequence, OkxSent(u).isReset)
    ensures Judged(s, u).1 == if Takes(s.mark, u.sequence, OkxSent(u).isReset) then B.Emitted else B.Dropped
  {
  }

  /** As long as nothing resyncs, the emitted messages are exactly those that pass the filter. */
  lemma {:induction false} EmittedIsTaken(d: seq<BookUpdate>, n: nat)
    requires n <= |d| && Quiet(d, n) && (n > 0 ==> d[0].isSnapshot)
    ensures InStep(StateAfter(d, n)) && StateAfter(d, n).mark == MarkAfter(AsSent(d), n)
    ensures AsSent(Emissions(d, n)) == Taken(AsSent(d), n)
    ensures n > 0 ==> MarkAfter(AsSent(d), n).Upto?
  {
    if n > 0 {
      EmittedIsTaken(d, n - 1);
      RunStep(d, n - 1);
      JudgedInStep(StateAfter(d, n - 1), d[n - 1]);
      hide Judged, Taken, Takes, StateAfter, Emissions, MarkAfter, Passes, OkxSent;
      SentAppends(Emissions(d, n - 1), d[n - 1]);
    }
  }

  lemma {:induction false} SentAppends(s: seq<BookUpdate>, u: BookUpdate)
    ensures AsSent(s + [u]) == AsSent(s) + [OkxSent(u)]
    ensures AsSent([]) == []
  {
  }

  // ---- the exact condition --

  /** Exactly the longest delivered prefix went out, and no resync was asked for. */
  ghost predicate Clean(stream: seq<BookUpdate>, schedule: seq<u32>, d: seq<BookUpdate>, n: nat)
    requires n <= |d| == |schedule|
  {
    Longest(schedule, n) <= |stream| && Emissions(d, n) == stream[..Longest(schedule, n)] && Quiet(d, n)
  }

  ghost predicate AlwaysClean(stream: seq<BookUpdate>) {
    forall schedule, d, n :: Delivers(stream, schedule, d) && 0 <= n <= |d| ==> Clean(stream, schedule, d, n)
  }

  /** A rising chain restarts nothing. */
  lemma {:induction false} RisingHasNoReset(stream: seq<BookUpdate>)
    requires Chained(stream) && Increasing(AsSent(stream))
    ensures ResetsLast(AsSent(stream))
  {
    forall i | 0 <= i < |stream| ensures !AsSent(stream)[i].isReset {
      assert Named(stream, i);
      assert i > 0 ==> AsSent(stream)[i - 1].id < AsSent(stream)[i].id;
    }
  }

  /** Filter and rule once the first k messages have come through. */
  function StateOf(stream: seq<BookUpdate>, k: nat): B.Position
    requires k <= |stream|
  {
    B.Position(MarkOf(AsSent(stream), k), if k == 0 then 0 else stream[k - 1].sequence)
  }

  /** The next message of a rising chain is emitted, a copy of an earlier one is dropped. */
  lemma {:induction false} CopyJudged(stream: seq<BookUpdate>, k: nat, p: nat)
    requires Chained(stream) && Increasing(AsSent(stream)) && p <= k <= |stream| && p < |stream|
    ensures Judged(StateOf(stream, k), stream[p])
            == if p == k then (StateOf(stream, k + 1), B.Emitted) else (StateOf(stream, k), B.Dropped)
  {
    RisingHasNoReset(stream);
    CopyTaken(AsSent(stream), k, p);
    assert Named(stream, p);
    assert 0 < k == p ==> AsSent(stream)[k - 1].id < AsSent(stream)[k].id;
  }

  lemma {:induction false} CleanRun(stream: seq<BookUpdate>, schedule: seq<u32>, d: seq<BookUpdate>, n: nat)
    requires Chained(stream) && Increasing(AsSent(stream)) && Delivers(stream, schedule, d) && n <= |d| == |schedule|
    ensures Clean(stream, schedule, d, n) && StateAfter(d, n) == StateOf(stream, Longest(schedule, n))
  {
    hide *;
    if n == 0 {
      CleanStart(stream, schedule, d);
    } else {
      var k, p := Longest(schedule, n - 1), Count(schedule, schedule[n - 1], n - 1);
      CleanRun(stream, schedule, d, n - 1);
      CleanSoFar(stream, schedule, d, n - 1);
      DeliveryStep(stream, schedule, d, n - 1);
      CopyJudged(stream, k, p);
      RunStep(d, n - 1);
      CleanNext(stream, schedule, d, n - 1);
    }
  }

  lemma {:induction false} CleanStart(stream: seq<BookUpdate>, schedule: seq<u32>, d: seq<BookUpdate>)
    requires |d| == |schedule|
    ensures Clean(stream, schedule, d, 0) && StateAfter(d, 0) == StateOf(stream, Longest(schedule, 0))
  {
  }

  lemma {:induction false} CleanSoFar(stream: seq<BookUpdate>, schedule: seq<u32>, d: seq<BookUpdate>, n: nat)
    requires n <= |d| == |schedule| && Clean(stream, schedule, d, n)
    ensures Longest(schedule, n) <= |stream|
  {
  }

  lemma {:induction false} CleanNext(stream: seq<BookUpdate>, schedule: seq<u32>, d: seq<BookUpdate>, n: nat)
    requires n < |d| == |schedule| && Clean(stream, schedule, d, n)
    requires var k, k' := Longest(schedule, n), Longest(schedule, n + 1);
             && k <= k' <= k + 1 && k' <= |stream|
             && OutcomeAt(d, n) == (if k' > k then B.Emitted else B.Dropped) && (k' > k ==> d[n] == stream[k])
    ensures Clean(stream, schedule, d, n + 1)
  {
    hide OutcomeAt, Longest;
    B.PrefixGrows(stream, Longest(schedule, n), Longest(schedule, n + 1));
  }

  /** Any delivery of the flagged ids is the delivery of some messages. */
  lemma {:induction false} Lifted(stream: seq<BookUpdate>, schedule: seq<u32>, ds: seq<Sent>)
    returns (d: seq<BookUpdate>)
    requires Delivers(AsSent(stream), schedule, ds)
    ensures Delivers(stream, schedule, d) && AsSent(d) == ds
  {
    forall i | 0 <= i < |ds| ensures Count(schedule, schedule[i], i) < |stream| {
      assert NextOfStream(AsSent(stream), schedule, ds, i);
    }
    d := seq(|ds|, i requires 0 <= i < |ds| => stream[Count(schedule, schedule[i], i)]);
    forall i | 0 <= i < |ds| ensures NextOfStream(stream, schedule, d, i) && OkxSent(d[i]) == ds[i] {
      assert NextOfStream(AsSent(stream), schedule, ds, i);
    }
  }

  lemma {:induction false} CleanMeansOnce(stream: seq<BookUpdate>, schedule: seq<u32>, ds: seq<Sent>, n: nat)
    requires Chained(stream) && AlwaysClean(stream) && Delivers(AsSent(stream), schedule, ds) && n <= |ds|
    ensures PrefixTaken(AsSent(stream), schedule, ds, n)
  {
    var d := Lifted(stream, schedule, ds);
    assert Clean(stream, schedule, d, n);
    if n > 0 {
      DeliveryStep(stream, schedule, d, 0);
      assert Named(stream, 0);
    }
    EmittedIsTaken(d, n);
    assert AsSent(stream[..Longest(schedule, n)]) == AsSent(stream)[..Longest(schedule, n)];
  }

  /**
   A chain goes out once, in order and without a resync under every interleaving of
   the redundant connections exactly when its ids rise throughout: a maintenance
   reset is safe on one connection only, and a keep-alive does not go out at all.
   */
  lemma {:induction false} AlwaysCleanIff(stream: seq<BookUpdate>)
    requires Chained(stream)
    ensures AlwaysClean(stream) <==> Increasing(AsSent(stream))
  {
    if Increasing(AsSent(stream)) {
      forall schedule, d, n | Delivers(stream, schedule, d) && 0 <= n <= |d| ensures Clean(stream, schedule, d, n) {
        CleanRun(stream, schedule, d, n);
      }
    }
    if AlwaysClean(stream) {
      forall schedule, ds, n | Delivers(AsSent(stream), schedule, ds) && 0 <= n <= |ds|
        ensures PrefixTaken(AsSent(stream), schedule, ds, n) {
        CleanMeansOnce(stream, schedule, ds, n);
      }
      AlwaysOnceIff(AsSent(stream));
    }
  }

  /** After a loss nothing goes out until the venue sends a snapshot or names the id 0. */
  lemma {:induction false} LossHoldsBack(s: B.Position, u: BookUpdate, v: BookUpdate)
    requires Judged(s, u).1 == B.Resync && !v.isSnapshot && v.prevSeq != 0
    ensures Judged(Judged(s, u).0, v).1 != B.Emitted
  {
  }

  /** A keep-alive repeats an id the filter has had: it is dropped there and changes nothing, late or not. */
  lemma {:induction false} KeepAliveDropped(s: B.Position, u: BookUpdate)
    requires u.prevSeq == u.sequence && s.mark.Upto? && u.sequence <= s.mark.last
    ensures Judged(s, u) == (s, B.Dropped)
  {
  }

  /** On a single connection every chain goes out whole but for its keep-alives, falls included. */
  lemma {:induction false} OneConnection(d: seq<BookUpdate>, n: nat)
    requires Chained(d) && n <= |d|
    requires forall i :: 0 <= i < |d| ==> !d[i].isSnapshot || i == 0
    ensures n > 0 ==> StateAfter(d, n) == B.Position(Upto(d[n - 1].sequence), d[n - 1].sequence)
    ensures n > 0 ==> OutcomeAt(d, n - 1) ==
                      if n > 1 && d[n - 1].sequence == d[n - 2].sequence then B.Dropped else B.Emitted
  {
    if n > 0 {
      OneConnection(d, n - 1);
      assert Named(d, n - 1);
    }
  }
}
