/** Each venue's sequencing rule and the snapshot join (md_provider/continuity.cpp). */
module Continuity {
  import opened Types

  datatype Action = Apply | Reset | Ignore | Gap

  /** What to do with a message, and the id the next one is judged against. */
  datatype Verdict = Verdict(action: Action, last: u64)

  /** Bybit: ids rise by exactly one, a snapshot restarts the chain. */
  function CheckBybit(u: BookUpdate, last: u64): (r: Verdict) {
    if u.isSnapshot then Verdict(Reset, u.sequence)
    else if u.sequence == last then Verdict(Ignore, last)
    else if u.sequence == Wrap(last + 1) then Verdict(Apply, u.sequence)
    else Verdict(Gap, last)
  }

  /** OKX: every message names its predecessor; ids need not be contiguous and may even fall. */
  function CheckOkx(u: BookUpdate, last: u64): (r: Verdict) {
    if u.isSnapshot then Verdict(Reset, u.sequence)
    else if u.prevSeq < 0 || u.prevSeq != last then Verdict(Gap, last)
    else if u.sequence == u.prevSeq then Verdict(Ignore, last)
    else Verdict(Apply, u.sequence)
  }

  /** Binance spot: the event covers ids prevSeq to sequence and must reach back to what is already held. */
  function CheckBinanceSpot(u: BookUpdate, last: u64): (r: Verdict) {
    if u.sequence <= last then Verdict(Ignore, last)
    else if Wrap(u.prevSeq) <= Wrap(last + 1) then Verdict(Apply, u.sequence)
    else Verdict(Gap, last)
  }

  /** Binance futures: the event names the id of its predecessor on this symbol. */
  function CheckBinanceFutures(chain: u64, event: u64, last: u64): (r: Verdict) {
    if event <= last then Verdict(Ignore, last)
    else if chain == last then Verdict(Apply, event)
    else Verdict(Gap, last)
  }

  /** Where the events not yet inside a snapshot at `id` begin. */
  function FirstSurvivor(id: u64, pending: seq<BookUpdate>, n: nat): (r: nat)
    requires n <= |pending|
    ensures n <= r <= |pending|
    ensures forall i :: n <= i < r ==> pending[i].sequence <= id
    ensures r < |pending| ==> pending[r].sequence > id
    decreases |pending| - n
  {
    if n < |pending| && pending[n].sequence <= id then FirstSurvivor(id, pending, n + 1) else n
  }

  /** The snapshot joins when nothing survives it or the first survivor reaches back to it. */
  predicate Joins(id: u64, pending: seq<BookUpdate>) {
    var first := FirstSurvivor(id, pending, 0);
    first == |pending| || Wrap(pending[first].prevSeq) <= Wrap(id + 1)
  }

  method ReconcileBinanceSnapshot(id: u64, pending: seq<BookUpdate>) returns (r: Option<nat>)
    ensures r == if Joins(id, pending) then Some(FirstSurvivor(id, pending, 0)) else None
  {
    var first := 0;
    while first < |pending| && pending[first].sequence <= id
      invariant 0 <= first <= |pending|
      invariant FirstSurvivor(id, pending, 0) == FirstSurvivor(id, pending, first)
    {
      first := first + 1;
    }
    if first == |pending| {
      return Some(first);
    }
    if Wrap(pending[first].prevSeq) > Wrap(id + 1) {
      return None;
    }
    return Some(first);
  }

  // ------------------------------------------------------------------------- OKX --

  function OkxLast(last: u64, es: seq<BookUpdate>, n: nat): u64
    requires n <= |es|
  {
    if n == 0 then last else CheckOkx(es[n - 1], OkxLast(last, es, n - 1)).last
  }

  function OkxAction(last: u64, es: seq<BookUpdate>, i: nat): Action
    requires i < |es|
  {
    CheckOkx(es[i], OkxLast(last, es, i)).action
  }

  /** A message restarts the chain or names the one before it; ids may rise, repeat or fall. */
  predicate OkxLinked(es: seq<BookUpdate>, i: nat)
    requires i < |es|
  {
    es[i].isSnapshot || (i > 0 && es[i].prevSeq == es[i - 1].sequence)
  }

  lemma {:induction false} OkxFollows(last: u64, es: seq<BookUpdate>, n: nat)
    requires n <= |es| && forall i :: 0 <= i < n ==> OkxLinked(es, i)
    ensures n > 0 ==> OkxLast(last, es, n) == es[n - 1].sequence && OkxAction(last, es, n - 1) != Gap
  {
    if n > 0 {
      OkxFollows(last, es, n - 1);
      assert OkxLinked(es, n - 1);
    }
  }

  /**
   No gap is reported exactly when the messages link up: a keep-alive or a
   maintenance reset is not a gap, a loss is.
   */
  lemma {:induction false} OkxGapIff(last: u64, es: seq<BookUpdate>)
    requires es != [] ==> es[0].isSnapshot
    ensures (forall i :: 0 <= i < |es| ==> OkxAction(last, es, i) != Gap) <==>
            (forall i :: 0 <= i < |es| ==> OkxLinked(es, i))
  {
    if forall i :: 0 <= i < |es| ==> OkxLinked(es, i) {
      forall i | 0 <= i < |es| ensures OkxAction(last, es, i) != Gap {
        OkxFollows(last, es, i + 1);
      }
    } else {
      var i := FirstUnlinked(es, 0);
      OkxFollows(last, es, i);
      assert OkxAction(last, es, i) == Gap;
    }
  }

  lemma {:induction false} FirstUnlinked(es: seq<BookUpdate>, n: nat) returns (i: nat)
    requires n <= |es| && (forall j :: 0 <= j < n ==> OkxLinked(es, j)) && exists j ::
             0 <= j < |es| && !OkxLinked(es, j)
    ensures i < |es| && !OkxLinked(es, i) && forall j :: 0 <= j < i ==> OkxLinked(es, j)
    decreases |es| - n
  {
    if OkxLinked(es, n) {
      i := FirstUnlinked(es, n + 1);
    } else {
      i := n;
    }
  }

  /**
   What becomes of a message as long as everything links up: a snapshot restarts, a
   keep-alive that repeats its predecessor is ignored, and whatever else names it,
   rising or falling, is applied.
   */
  lemma {:induction false} OkxVerdict(last: u64, es: seq<BookUpdate>, i: nat)
    requires i < |es| && es[0].isSnapshot && forall j :: 0 <= j <= i ==> OkxLinked(es, j)
    ensures OkxAction(last, es, i) == if es[i].isSnapshot then Reset
                                      else if es[i].sequence == es[i - 1].sequence then Ignore else Apply
    ensures OkxLast(last, es, i + 1) == es[i].sequence
  {
    OkxFollows(last, es, i);
    assert OkxLinked(es, i);
  }

  // ----------------------------------------------------------------------- Bybit --

  function BybitLast(last: u64, es: seq<BookUpdate>, n: nat): u64
    requires n <= |es|
  {
    if n == 0 then last else CheckBybit(es[n - 1], BybitLast(last, es, n - 1)).last
  }

  function BybitAction(last: u64, es: seq<BookUpdate>, i: nat): Action
    requires i < |es|
  {
    CheckBybit(es[i], BybitLast(last, es, i)).action
  }

  /** A message restarts the chain, repeats the one before it, or is the next one. */
  predicate BybitLinked(es: seq<BookUpdate>, i: nat)
    requires i < |es|
  {
    es[i].isSnapshot
    || (i > 0 && (es[i].sequence == es[i - 1].sequence || es[i].sequence == Wrap(es[i - 1].sequence + 1)))
  }

  /**
   As long as everything before it linked up, a message is judged by its predecessor
   alone: ignored when it repeats it, applied when it is the next, a gap otherwise.
   */
  lemma {:induction false} BybitVerdict(last: u64, es: seq<BookUpdate>, i: nat)
    requires i < |es| && es[0].isSnapshot && forall j :: 0 <= j < i ==> BybitLinked(es, j)
    ensures BybitAction(last, es, i) == if es[i].isSnapshot then Reset
                                        else if !BybitLinked(es, i) then Gap
                                        else if es[i].sequence == es[i - 1].sequence then Ignore else Apply
    ensures BybitLast(last, es, i + 1) == if BybitLinked(es, i) then es[i].sequence else es[i - 1].sequence
  {
    if i > 0 {
      BybitVerdict(last, es, i - 1);
      assert BybitLinked(es, i - 1);
    }
  }
}
