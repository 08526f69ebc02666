/**
 Binance depth (md_provider/binance/binance_provider.cpp): events are buffered
 until a REST snapshot joins them, then each one is judged live. Spot and futures
 differ in the rule and in what a join leaves as the last id.
 */
module Binance {
  import opened Types
  import opened LevelMap
  import opened SeqDedups
  import opened Continuity
  import opened VenueHistory

  const MAX_PENDING: nat := 2000
  const MAX_ATTEMPTS: nat := 5

  datatype Market = Spot | Futures

  /** One connection's depth state; mark is the duplicate filter's. */
  datatype Feed = Feed(
    market: Market,
    live: bool,
    requested: bool,
    attempts: nat,
    pending: seq<BookUpdate>,
    lastU: u64,
    mark: Mark)

  /** Nothing received yet. */
  function Fresh(market: Market): Feed {
    Feed(market, false, false, 0, [], 0, Nothing)
  }

  datatype Reaction = Duplicate | Buffered | Emitted | Resync

  /** The rule of the market; a futures event without its predecessor's id cannot be vouched for. */
  function Judge(market: Market, u: BookUpdate, chain: Option<u64>, last: u64): Verdict {
    if market.Spot? then CheckBinanceSpot(u, last)
    else if chain.Some? then CheckBinanceFutures(chain.value, u.sequence, last)
    else Verdict(Gap, last)
  }

  /**
   A depth message: dropped as a copy, buffered, or judged. Only a gap stops it: an
   ignored event goes out as well.
   */
  function OnDepth(f: Feed, u: BookUpdate, chain: Option<u64>): (Feed, Reaction) {
    if !Takes(f.mark, u.sequence, false) then (f, Duplicate)
    else
      var g := f.(mark := Upto(u.sequence));
      if !f.live then
        var h := if f.requested then g else g.(requested := true, attempts := g.attempts + 1);
        if |f.pending| >= MAX_PENDING then (h, Resync) else (h.(pending := f.pending + [u]), Buffered)
      else
        var v := Judge(f.market, u, chain, f.lastU);
        (g.(lastU := v.last), if v.action == Gap then Resync else Emitted)
  }

  /** The id live events are judged against once the snapshot is joined. */
  function JoinedLast(f: Feed, snapshot: BookUpdate): u64 {
    if f.pending == [] then snapshot.sequence
    else if f.market.Futures? then Last(f.pending).sequence
    else if FirstSurvivor(snapshot.sequence, f.pending, 0) < |f.pending| then Last(f.pending).sequence
    else snapshot.sequence
  }

  function Joined(f: Feed, snapshot: BookUpdate): Feed {
    f.(live := true, pending := [], lastU := JoinedLast(f, snapshot))
  }

  /** What a join sends on: the snapshot and the events that outlive it. */
  function Replayed(f: Feed, snapshot: BookUpdate): seq<BookUpdate> {
    [snapshot] + f.pending[FirstSurvivor(snapshot.sequence, f.pending, 0)..]
  }

  /** Emits the snapshot and the buffered events from `first` on; the last id follows the last one out. */
  method Replay(snapshot: BookUpdate, pending: seq<BookUpdate>, first: nat) returns (out: seq<BookUpdate>, last: u64)
    requires first <= |pending|
    ensures out == [snapshot] + pending[first..]
    ensures last == if first < |pending| then Last(pending).sequence else snapshot.sequence
  {
    out, last := [snapshot], snapshot.sequence;
    var i := first;
    while i < |pending|
      invariant first <= i <= |pending|
      invariant out == [snapshot] + pending[first..i]
      invariant last == if i == first then snapshot.sequence else pending[i - 1].sequence
    {
      last := pending[i].sequence;
      out := out + [pending[i]];
      i := i + 1;
    }
  }

  class BinanceProvider {
    const market: Market
    var dedup: SeqDedup
    var live: bool
    var snapshotRequested: bool
    var snapshotAttempts: nat
    var pending: seq<BookUpdate>
    var lastDepthU: u64
    var emitted: seq<BookUpdate>

    function State(): Feed
      reads this, dedup
    {
      Feed(market, live, snapshotRequested, snapshotAttempts, pending, lastDepthU, dedup.Mark())
    }

    constructor (market: Market)
      ensures State() == Fresh(market) && emitted == [] && fresh(dedup)
    {
      this.market := market;
      dedup := new SeqDedup();
      live, snapshotRequested, snapshotAttempts, pending, lastDepthU, emitted := false, false, 0, [], 0, [];
    }

    /** Everything about the connection is forgotten; the duplicate filter is the caller's to replace. */
    method OnReconnect()
      modifies this
      ensures State() == Fresh(market).(mark := old(dedup.Mark())) && emitted == old(emitted) && dedup == old(dedup)
    {
      live := false;
      snapshotRequested := false;
      snapshotAttempts := 0;
      pending := [];
      lastDepthU := 0;
    }

    /** A new round of connections: the provider starts it with nothing received and a clean filter. */
    method StartRound()
      modifies this
      ensures State() == Fresh(market) && emitted == old(emitted) && fresh(dedup)
    {
      OnReconnect();
      dedup := new SeqDedup();
    }

    method OnDepthMessage(update: BookUpdate, chainSeq: Option<u64>, connIndex: u32) returns (r: Reaction)
      modifies this, dedup
      ensures State() == OnDepth(old(State()), update, chainSeq).0 && r == OnDepth(old(State()), update, chainSeq).1
      ensures emitted == (if r == Emitted then old(emitted) + [update] else old(emitted)) && dedup == old(dedup)
    {
      var ok := dedup.Accept(update.sequence, connIndex, false);
      if !ok {
        return Duplicate;
      }
      if !live {
        if !snapshotRequested {
          snapshotRequested := true;
          snapshotAttempts := snapshotAttempts + 1;
        }
        if |pending| >= MAX_PENDING {
          return Resync;
        }
        pending := pending + [update];
        return Buffered;
      }
      var v: Verdict;
      if market == Futures {
        v := if chainSeq.Some? then CheckBinanceFutures(chainSeq.value, update.sequence, lastDepthU)
            else Verdict(Gap, lastDepthU);
      } else {
        v := CheckBinanceSpot(update, lastDepthU);
      }
      lastDepthU := v.last;
      if v.action == Gap {
        return Resync;
      }
      emitted := emitted + [update];
      return Emitted;
    }

    /** False, with nothing changed, when the snapshot is too old to join the buffer. */
    method ReconcileSnapshot(snapshot: BookUpdate) returns (ok: bool)
      modifies this
      ensures ok == Joins(snapshot.sequence, old(pending)) && dedup == old(dedup)
      ensures ok ==>
              State() == Joined(old(State()), snapshot) && emitted == old(emitted) + Replayed(old(State()), snapshot)
      ensures !ok ==> State() == old(State()) && emitted == old(emitted)
    {
      var first := ReconcileBinanceSnapshot(snapshot.sequence, pending);
      if first.None? {
        return false;
      }
      var out, last := Replay(snapshot, pending, first.value);
      emitted := emitted + out;
      lastDepthU := last;
      if market == Futures && pending != [] {
        lastDepthU := Last(pending).sequence;
      }
      pending := [];
      live := true;
      return true;
    }

    /** The fetch came back: joined, tried again, or given up after the last attempt. */
    method OnSnapshotFetched(snapshot: Option<BookUpdate>) returns (r: Reaction)
      modifies this
      ensures dedup == old(dedup)
      ensures snapshot.Some? && Joins(snapshot.value.sequence, old(pending)) ==>
                r == Emitted && State() == Joined(old(State()), snapshot.value)
                && emitted == old(emitted) + Replayed(old(State()), snapshot.value)
      ensures !(snapshot.Some? && Joins(snapshot.value.sequence, old(pending))) ==>
                && r == (if old(snapshotAttempts) >= MAX_ATTEMPTS then Resync else Buffered) && emitted == old(emitted)
                && State() == if r == Resync then old(State())
                    else old(State()).(requested := true, attempts := old(snapshotAttempts) + 1)
    {
      if snapshot.Some? {
        var ok := ReconcileSnapshot(snapshot.value);
        if ok {
          return Emitted;
        }
      }
      if snapshotAttempts >= MAX_ATTEMPTS {
        return Resync;
      }
      snapshotRequested := true;
      snapshotAttempts := snapshotAttempts + 1;
      return Buffered;
    }
  }

  // ------------------------------------------------------------ what comes out of it --

  /** The id range a spot event declares. */
  ghost predicate TellsSpot(history: History, e: BookUpdate) {
    1 <= e.prevSeq <= e.sequence && Tells(history, e, e.prevSeq - 1)
  }

  /**
   The event tells the truth about the ids it declares: its own range on spot, what
   follows its predecessor on futures.
   */
  ghost predicate Truthful(history: History, market: Market, e: BookUpdate, chain: Option<u64>) {
    if market.Spot? then TellsSpot(history, e) else chain.Some? && Tells(history, e, chain.value)
  }

  // ---- by the verdicts of the rule --

  /** The last id and the book when exactly the events judged Apply are applied. */
  function ByVerdicts(market: Market, last: u64, b: VenueBook, es: seq<BookUpdate>, chains: seq<Option<u64>>, n: nat)
      : (u64, VenueBook)
    requires n <= |es| == |chains|
  {
    if n == 0 then (last, b)
    else
      var s := ByVerdicts(market, last, b, es, chains, n - 1);
      var v := Judge(market, es[n - 1], chains[n - 1], s.0);
      (v.last, if v.action == Apply then Updated(s.1, es[n - 1]) else s.1)
  }

  lemma {:induction false} VerdictReaches(history: History, market: Market, at: u64, e: BookUpdate, chain: Option<u64>)
    requires HistoryOk(history) && at < |history| < 0x1_0000_0000_0000_0000 && Truthful(history, market, e, chain)
    ensures var v := Judge(market, e, chain, at);
            at <= v.last < |history| && history[v.last] == if v.action == Apply then Updated(history[at], e)
                else history[at]
  {
    if Judge(market, e, chain, at).action == Apply {
      EventReaches(history, if market.Spot? then e.prevSeq - 1 else chain.value, at, e);
    }
  }

  /**
   Any events, in any order, lost or repeated, spot or futures: as long as each one
   tells the truth about its own range, the book is the venue's at the last applied id.
   */
  lemma {:induction false} VerdictsRebuild(history: History, market: Market, last: u64, es: seq<BookUpdate>,
      chains: seq<Option<u64>>, n: nat)
    requires HistoryOk(history) && last < |history| < 0x1_0000_0000_0000_0000 && n <= |es| == |chains|
    requires forall i :: 0 <= i < |es| ==> Truthful(history, market, es[i], chains[i])
    ensures var s := ByVerdicts(market, last, history[last], es, chains, n);
            last <= s.0 < |history| && s.1 == history[s.0]
  {
    if n > 0 {
      VerdictsRebuild(history, market, last, es, chains, n - 1);
      hide HistoryOk, Truthful, Judge;
      VerdictReaches(history, market, ByVerdicts(market, last, history[last], es, chains, n - 1).0, es[n - 1],
                     chains[n - 1]);
    }
  }

  // ---- the join --

  /** froms[i] is the id the i-th event continues from: its predecessor's. */
  ghost predicate Link(history: History, es: seq<BookUpdate>, froms: seq<nat>, i: nat)
    requires i < |es| == |froms|
  {
    Tells(history, es[i], froms[i]) && froms[i] < es[i].prevSeq && (i > 0 ==> froms[i] == es[i - 1].sequence)
  }

  /** Buffered events follow one another. */
  ghost predicate Chained(history: History, es: seq<BookUpdate>, froms: seq<nat>) {
    |froms| == |es| && forall i :: 0 <= i < |es| ==> Link(history, es, froms, i)
  }

  lemma {:induction false} ReplayReaches(history: History, snapshot: BookUpdate, b: VenueBook, f: Feed,
      froms: seq<nat>, n: nat)
    requires HistoryOk(history) && |history| < 0x1_0000_0000_0000_0000 && IsSnapshotAt(history, snapshot)
    requires Chained(history, f.pending, froms) && Joins(snapshot.sequence, f.pending)
    requires 0 < n <= |Replayed(f, snapshot)|
    ensures var first := FirstSurvivor(snapshot.sequence, f.pending, 0);
            var id := if n == 1 then snapshot.sequence else f.pending[first + n - 2].sequence;
            id < |history| && BookOf(b, Replayed(f, snapshot), n) == history[id]
  {
    hide TellsSide, Updated, HistoryOk, WellFormed;
    var first, r := FirstSurvivor(snapshot.sequence, f.pending, 0), Replayed(f, snapshot);
    if n == 1 {
      SnapshotSeeds(history, b, snapshot);
    } else {
      ReplayReaches(history, snapshot, b, f, froms, n - 1);
      var e := f.pending[first + n - 2];
      assert r[n - 1] == e && Link(history, f.pending, froms, first + n - 2);
      EventReaches(history, froms[first + n - 2], if n == 2 then snapshot.sequence
          else f.pending[first + n - 3].sequence, e);
    }
  }

  /**
   The join rebuilds the venue's book: at the snapshot's id when nothing outlives
   it, otherwise at the last buffered event's, straddling events included.
   */
  lemma {:induction false} JoinRebuilds(history: History, snapshot: BookUpdate, b: VenueBook, f: Feed, froms: seq<nat>)
    requires HistoryOk(history) && |history| < 0x1_0000_0000_0000_0000 && IsSnapshotAt(history, snapshot)
    requires Chained(history, f.pending, froms) && Joins(snapshot.sequence, f.pending)
    ensures var r := Replayed(f, snapshot);
            var id := if |r| == 1 then snapshot.sequence else Last(f.pending).sequence;
            id < |history| && BookOf(b, r, |r|) == history[id] && (f.market.Spot? ==> id == Joined(f, snapshot).lastU)
  {
    hide Tells, HistoryOk, Chained, Joins;
    ReplayReaches(history, snapshot, b, f, froms, |Replayed(f, snapshot)|);
  }

  /**
   The whole reconstruction by the rule as documented: the snapshot, the buffered
   events it leaves, and after that whatever truthful spot events are judged
   Apply make exactly the venue's book at the last id.
   */
  lemma {:induction false} SnapshotAndEventsRebuild(history: History, snapshot: BookUpdate, b: VenueBook, f: Feed,
      froms: seq<nat>,
                                                    es: seq<BookUpdate>, chains: seq<Option<u64>>, n: nat)
    requires HistoryOk(history) && |history| < 0x1_0000_0000_0000_0000 && IsSnapshotAt(history, snapshot)
             && f.market.Spot?
    requires Chained(history, f.pending, froms) && Joins(snapshot.sequence, f.pending)
    requires n <= |es| == |chains| && forall i :: 0 <= i < |es| ==> TellsSpot(history, es[i])
    ensures var s :=
            ByVerdicts(Spot, Joined(f, snapshot).lastU, BookOf(b, Replayed(f, snapshot), |Replayed(f, snapshot)|), es,
                       chains, n);
            Joined(f, snapshot).lastU <= s.0 < |history| && s.1 == history[s.0]
  {
    hide Chained, Joins, Joined, Replayed, BookOf, HistoryOk, TellsSpot, ByVerdicts;
    JoinRebuilds(history, snapshot, b, f, froms);
    VerdictsRebuild(history, Spot, Joined(f, snapshot).lastU, es, chains, n);
  }

  // ---- live, as the code does it: ignored events go out as well --

  /**
   Live state while the wire stands at id `wire`: the book is being caught up from
   a snapshot at `seed`, and the next event of the stream cannot look like a gap.
   */
  ghost predicate LiveAt(history: History, f: Feed, b: VenueBook, lo: nat, wire: nat, seed: nat) {
    && f.live && CatchingUp(history, b, lo, wire, seed)
    && (f.mark.Upto? ==> f.mark.last <= wire)
    && f.lastU == if f.market.Spot? && wire < seed then seed else wire
  }

  /** The next event of the stream after id `wire`, as each market marks it. */
  ghost predicate Follows(history: History, market: Market, e: BookUpdate, chain: Option<u64>, wire: nat) {
    Tells(history, e, wire) && if market.Spot? then e.prevSeq == wire + 1 else chain == Some(wire)
  }

  /** The next event never resyncs, always goes out, and carries the book along. */
  lemma {:induction false} LiveStep(history: History, f: Feed, b: VenueBook, lo: nat, wire: nat, seed: nat,
      e: BookUpdate, chain: Option<u64>)
    requires |history| < 0x1_0000_0000_0000_0000
    requires LiveAt(history, f, b, lo, wire, seed) && Follows(history, f.market, e, chain, wire)
    ensures OnDepth(f, e, chain).1 == Emitted
    ensures LiveAt(history, OnDepth(f, e, chain).0, Updated(b, e), lo, e.sequence, seed)
  {
    EventAdvances(history, b, lo, wire, seed, e);
  }

  lemma {:induction false} ChainRises(history: History, es: seq<BookUpdate>, froms: seq<nat>, i: nat, j: nat)
    requires Chained(history, es, froms) && i <= j < |es|
    ensures es[i].sequence <= es[j].sequence < |history|
  {
    assert Link(history, es, froms, j);
    if i < j {
      ChainRises(history, es, froms, i, j - 1);
    }
  }

  lemma {:induction false} ExactCatchesUp(history: History, at: nat, seed: nat)
    requires HistoryOk(history) && seed <= at < |history|
    ensures CatchingUp(history, history[at], seed, at, seed)
  {
  }

  /**
   Where the wire stands at a join: at the last buffered event, or, with nothing
   buffered, at an id the snapshot includes. Futures then needs it to be the
   snapshot's own, since its rule compares for equality.
   */
  ghost predicate Meets(f: Feed, snapshot: BookUpdate, wire: nat) {
    if f.pending != [] then wire == Last(f.pending).sequence && f.mark == Upto(wire)
    else
      && wire <= snapshot.sequence && (f.mark.Upto? ==> f.mark.last <= wire)
      && (f.market.Futures? ==> wire == snapshot.sequence)
  }

  /** Such a join leaves a state the stream can be followed from. */
  lemma {:induction false} JoinGoesLive(history: History, snapshot: BookUpdate, b: VenueBook, f: Feed, froms: seq<nat>,
      wire: nat)
    returns (lo: nat)
    requires HistoryOk(history) && |history| < 0x1_0000_0000_0000_0000 && IsSnapshotAt(history, snapshot)
    requires Chained(history, f.pending, froms) && Joins(snapshot.sequence, f.pending) && Meets(f, snapshot, wire)
    ensures LiveAt(history, Joined(f, snapshot), BookOf(b, Replayed(f, snapshot), |Replayed(f, snapshot)|), lo, wire,
            snapshot.sequence)
  {
    hide CatchingUp, HistoryOk, Tells, Joins, Chained, BookOf;
    var first := FirstSurvivor(snapshot.sequence, f.pending, 0);
    JoinRebuilds(history, snapshot, b, f, froms);
    if f.pending != [] {
      ChainRises(history, f.pending, froms, |f.pending| - 1, |f.pending| - 1);
    }
    if first == |f.pending| {
      lo := wire;
      SeededCatchesUp(history, lo, snapshot.sequence);
    } else {
      lo := snapshot.sequence;
      ChainRises(history, f.pending, froms, first, |f.pending| - 1);
      ExactCatchesUp(history, wire, snapshot.sequence);
    }
  }

  // ---- whole live runs --

  function FeedAfter(f: Feed, es: seq<BookUpdate>, chains: seq<Option<u64>>, n: nat): Feed
    requires n <= |es| == |chains|
  {
    if n == 0 then f else OnDepth(FeedAfter(f, es, chains, n - 1), es[n - 1], chains[n - 1]).0
  }

  ghost predicate Rising(es: seq<BookUpdate>) {
    forall i, j :: 0 <= i < j < |es| ==> es[i].sequence < es[j].sequence
  }

  /** How many leading events the filter has had before. */
  function Covered(mark: Mark, es: seq<BookUpdate>, i: nat): (r: nat)
    requires i <= |es|
    ensures i <= r <= |es| && (mark.Nothing? ==> r == i)
    ensures forall j :: i <= j < r ==> !Takes(mark, es[j].sequence, false)
    ensures r < |es| ==> Takes(mark, es[r].sequence, false)
    decreases |es| - i
  {
    if i == |es| || Takes(mark, es[i].sequence, false) then i else Covered(mark, es, i + 1)
  }

  /**
   Without a book yet, what the filter has not had is buffered whole and in
   order, up to 2000 events; one more asks for a resync. After a reconnect that
   is the whole stream.
   */
  lemma {:induction false} BufferRun(f: Feed, es: seq<BookUpdate>, chains: seq<Option<u64>>, n: nat)
    requires |es| == |chains| && n <= |es| && Rising(es) && !f.live && f.pending == []
    ensures var k := Covered(f.mark, es, 0);
            && (n <= k ==> FeedAfter(f, es, chains, n) == f)
            && (k < n <= k + 2000 ==>
                  var g := FeedAfter(f, es, chains, n);
                  !g.live && g.requested && g.pending == es[k..n] && g.mark == Upto(es[n - 1].sequence))
            && (n == k + 2001 ==> ReactionAt(f, es, chains, n - 1) == Resync)
    ensures f.mark.Nothing? ==> Covered(f.mark, es, 0) == 0
  {
    hide OnDepth, Takes;
    var k := Covered(f.mark, es, 0);
    if 0 < n <= k + MAX_PENDING + 1 {
      BufferRun(f, es, chains, n - 1);
      var g, e := FeedAfter(f, es, chains, n - 1), es[n - 1];
      BufferStep(g, e, chains[n - 1]);
      if n > k + 1 {
        TakesRising(es[n - 2].sequence, e.sequence);
        assert es[k..n] == es[k..n - 1] + [e];
      } else if n == k + 1 {
        assert es[k..n] == [] + [e];
      }
    }
  }

  lemma {:induction false} TakesRising(last: u64, id: u64)
    requires last < id
    ensures Takes(Upto(last), id, false)
  {
  }

  /** What one event does before there is a book. */
  lemma {:induction false} BufferStep(g: Feed, e: BookUpdate, chain: Option<u64>)
    requires !g.live
    ensures var h := OnDepth(g, e, chain);
            if !Takes(g.mark, e.sequence, false) then h.0 == g
            else if |g.pending| >= MAX_PENDING then h.1 == Resync
            else !h.0.live && h.0.requested && h.0.pending == g.pending + [e] && h.0.mark == Upto(e.sequence)
  {
  }

  function ReactionAt(f: Feed, es: seq<BookUpdate>, chains: seq<Option<u64>>, i: nat): Reaction
    requires i < |es| == |chains|
  {
    OnDepth(FeedAfter(f, es, chains, i), es[i], chains[i]).1
  }

  /** The id the i-th event follows. */
  function WireAt(wire: nat, es: seq<BookUpdate>, i: nat): nat
    requires i <= |es|
  {
    if i == 0 then wire else es[i - 1].sequence
  }

  ghost predicate Stream(history: History, market: Market, es: seq<BookUpdate>, chains: seq<Option<u64>>, wire: nat) {
    |es| == |chains| && forall i {:trigger WireAt(wire, es, i)} :: 0 <= i < |es| ==>
        Follows(history, market, es[i], chains[i], WireAt(wire, es, i))
  }

  lemma {:induction false} MarketStays(f: Feed, es: seq<BookUpdate>, chains: seq<Option<u64>>, n: nat)
    requires n <= |es| == |chains|
    ensures FeedAfter(f, es, chains, n).market == f.market
  {
    if n > 0 {
      MarketStays(f, es, chains, n - 1);
    }
  }

  lemma {:induction false} LiveRun(history: History, f: Feed, b: VenueBook, lo: nat, wire: nat, seed: nat,
                                   es: seq<BookUpdate>, chains: seq<Option<u64>>, n: nat)
    requires |history| < 0x1_0000_0000_0000_0000
    requires LiveAt(history, f, b, lo, wire, seed) && Stream(history, f.market, es, chains, wire) && n <= |es|
    ensures LiveAt(history, FeedAfter(f, es, chains, n), BookOf(b, es, n), lo, WireAt(wire, es, n), seed)
    ensures n > 0 ==> ReactionAt(f, es, chains, n - 1) == Emitted
  {
    hide LiveAt, Follows, OnDepth, Updated;
    if n > 0 {
      LiveRun(history, f, b, lo, wire, seed, es, chains, n - 1);
      MarketStays(f, es, chains, n - 1);
      assert Follows(history, f.market, es[n - 1], chains[n - 1], WireAt(wire, es, n - 1));
      LiveStep(history, FeedAfter(f, es, chains, n - 1), BookOf(b, es, n - 1), lo, WireAt(wire, es, n - 1),
               seed, es[n - 1], chains[n - 1]);
    }
  }

  /**
   From a join on, spot or futures, a stream without loss never resyncs, and as
   soon as it has reached the snapshot's id the emitted updates make exactly the
   venue's book, whatever ignored events went out before.
   */
  lemma {:induction false} LiveHeals(history: History, snapshot: BookUpdate, b: VenueBook, f: Feed, froms: seq<nat>,
      wire: nat,
                                     es: seq<BookUpdate>, chains: seq<Option<u64>>, n: nat)
    requires HistoryOk(history) && |history| < 0x1_0000_0000_0000_0000 && IsSnapshotAt(history, snapshot)
    requires Chained(history, f.pending, froms) && Joins(snapshot.sequence, f.pending) && Meets(f, snapshot, wire)
    requires Stream(history, f.market, es, chains, wire) && 0 < n <= |es|
    ensures forall i :: 0 <= i < n ==> ReactionAt(Joined(f, snapshot), es, chains, i) == Emitted
    ensures snapshot.sequence <= es[n - 1].sequence < |history| ==>
              BookOf(BookOf(b, Replayed(f, snapshot), |Replayed(f, snapshot)|), es, n) == history[es[n - 1].sequence]
  {
    hide Chained, Joins, Joined, Replayed, BookOf, ReactionAt, FeedAfter, CatchingUp, HistoryOk, Meets;
    var seeded := BookOf(b, Replayed(f, snapshot), |Replayed(f, snapshot)|);
    var lo := JoinGoesLive(history, snapshot, b, f, froms, wire);
    JoinedMarket(f, snapshot);
    forall i | 0 <= i < n ensures ReactionAt(Joined(f, snapshot), es, chains, i) == Emitted {
      LiveRun(history, Joined(f, snapshot), seeded, lo, wire, snapshot.sequence, es, chains, i + 1);
    }
    LiveRun(history, Joined(f, snapshot), seeded, lo, wire, snapshot.sequence, es, chains, n);
    if snapshot.sequence <= es[n - 1].sequence {
      CaughtUp(history, BookOf(seeded, es, n), lo, es[n - 1].sequence, snapshot.sequence);
    }
  }

  // ---- a join with nothing buffered, as a late snapshot after a reconnect makes it --

  /** Spot: the first event is taken exactly when nothing is missing between the snapshot and it. */
  lemma {:induction false} EmptyJoinSpotIff(history: History, f: Feed, snapshot: BookUpdate, e: BookUpdate,
      chain: Option<u64>, wire: nat)
    requires |history| < 0x1_0000_0000_0000_0000 && snapshot.sequence < |history|
    requires f.market.Spot? && f.pending == [] && (f.mark.Upto? ==> f.mark.last <= wire)
             && Follows(history, Spot, e, chain, wire)
    ensures OnDepth(Joined(f, snapshot), e, chain).1 == (if wire <= snapshot.sequence then Emitted else Resync)
  {
  }

  /** While the wire is still inside the snapshot, futures ignores its events and keeps the snapshot's id. */
  lemma {:induction false} EmptyJoinWaits(history: History, f: Feed, snapshot: BookUpdate, wire: nat,
                                          es: seq<BookUpdate>, chains: seq<Option<u64>>, n: nat)
    requires f.market.Futures? && f.pending == [] && (f.mark.Upto? ==> f.mark.last <= wire)
    requires Stream(history, Futures, es, chains, wire) && n <= |es|
             && forall j :: 0 <= j < n ==> es[j].sequence <= snapshot.sequence
    ensures var g := FeedAfter(Joined(f, snapshot), es, chains, n);
            g.live && g.market.Futures? && g.lastU == snapshot.sequence
                && (g.mark.Upto? ==> g.mark.last <= WireAt(wire, es, n))
    ensures n > 0 ==> ReactionAt(Joined(f, snapshot), es, chains, n - 1) == Emitted
  {
    if n > 0 {
      hide Tells;
      EmptyJoinWaits(history, f, snapshot, wire, es, chains, n - 1);
      assert Follows(history, Futures, es[n - 1], chains[n - 1], WireAt(wire, es, n - 1));
      TellsRises(history, es[n - 1], WireAt(wire, es, n - 1));
    }
  }

  lemma {:induction false} TellsRises(history: History, e: BookUpdate, from: nat)
    requires Tells(history, e, from)
    ensures from < e.sequence < |history|
  {
  }

  /**
   Futures: the first event past the snapshot is taken exactly when it continues
   from the snapshot's own id. Otherwise a gap is reported, although nothing is
   missing when the wire was still inside the snapshot.
   */
  lemma {:induction false} EmptyJoinFuturesIff(history: History, f: Feed, snapshot: BookUpdate, wire: nat,
                                               es: seq<BookUpdate>, chains: seq<Option<u64>>, n: nat)
    requires f.market.Futures? && f.pending == [] && (f.mark.Upto? ==> f.mark.last <= wire)
    requires Stream(history, Futures, es, chains, wire) && n < |es|
             && forall j :: 0 <= j < n ==> es[j].sequence <= snapshot.sequence
    requires es[n].sequence > snapshot.sequence
    ensures forall i :: 0 <= i < n ==> ReactionAt(Joined(f, snapshot), es, chains, i) == Emitted
    ensures ReactionAt(Joined(f, snapshot), es, chains, n) == if WireAt(wire, es, n) == snapshot.sequence then Emitted
            else Resync
  {
    forall i | 0 <= i < n ensures ReactionAt(Joined(f, snapshot), es, chains, i) == Emitted {
      EmptyJoinWaits(history, f, snapshot, wire, es, chains, i + 1);
    }
    EmptyJoinWaits(history, f, snapshot, wire, es, chains, n);
    assert Follows(history, Futures, es[n], chains[n], WireAt(wire, es, n));
    TellsRises(history, es[n], WireAt(wire, es, n));
  }

  lemma {:induction false} JoinedMarket(f: Feed, snapshot: BookUpdate)
    ensures Joined(f, snapshot).market == f.market
  {
  }

  // ---- what sending ignored events costs meanwhile --

  /** It declares a range at all. */
  predicate Ranged(market: Market, e: BookUpdate, chain: Option<u64>) {
    if market.Spot? then 1 <= e.prevSeq <= e.sequence else chain.Some? && chain.value < e.sequence
  }

  /** The id it says to continue from. */
  function From(market: Market, e: BookUpdate, chain: Option<u64>): nat
    requires Ranged(market, e, chain)
  {
    if market.Spot? then e.prevSeq - 1 else chain.value
  }

  /**
   What the rule makes of an event with a range: nothing new is ignored, and of the
   rest it takes exactly what continues from what is held, on spot from anywhere
   inside it, on futures from its very end. Without a range futures reports a gap.
   */
  lemma {:induction false} JudgedByRange(market: Market, e: BookUpdate, chain: Option<u64>, last: u64)
    requires last + 1 < 0x1_0000_0000_0000_0000
    ensures Ranged(market, e, chain) ==>
              var v, from := Judge(market, e, chain, last), From(market, e, chain);
              && (v.action == Ignore <==> e.sequence <= last)
              && (v.action == Apply <==> e.sequence > last && (if market.Spot? then from <= last else from == last))
              && (v.action != Apply && v.action != Ignore <==> v.action == Gap)
              && v.last == if v.action == Apply then e.sequence else last
    ensures market.Futures? && chain == None ==> Judge(market, e, chain, last) == Verdict(Gap, last)
  {
  }

  /**
   Whatever the venue's book did: if the event goes out, the book that was right at
   the last id is right at the new one.
   */
  ghost predicate AlwaysRight(f: Feed, e: BookUpdate, chain: Option<u64>) {
    forall history: History ::
      && HistoryOk(history) && f.lastU < |history| < 0x1_0000_0000_0000_0000
      && Truthful(history, f.market, e, chain) && OnDepth(f, e, chain).1 == Emitted
      ==> StaysRight(history, f, e, chain)
  }

  ghost predicate StaysRight(history: History, f: Feed, e: BookUpdate, chain: Option<u64>)
    requires f.lastU < |history|
  {
    var last := OnDepth(f, e, chain).0.lastU;
    last < |history| && Updated(history[f.lastU], e) == history[last]
  }

  /** A price the event names, on a side, with a quantity other than the one it names. */
  function Contrary(d: Side, l: PriceLevel): VenueBook {
    var side := map[l.price := if l.qty == 1 then 2 else 1];
    if d.Bid? then VenueBook(side, map[]) else VenueBook(map[], side)
  }

  /** A venue that stood where the event says up to its id, and at another book after it. */
  ghost function TurnedAfter(before: VenueBook, now: VenueBook, id: nat, length: nat): (r: History)
    ensures |r| == length && forall t :: 0 <= t < length ==> r[t] == if t <= id then before else now
  {
    seq(length, t => if t <= id then before else now)
  }

  lemma {:induction false} TurnedTells(e: BookUpdate, now: VenueBook, from: nat, length: nat)
    requires WellFormed(e) && !e.isSnapshot && now.Ok() && from < e.sequence < length
    ensures var history := TurnedAfter(Updated(EMPTY_BOOK, e), now, e.sequence, length);
            HistoryOk(history) && Tells(history, e, from)
  {
    UpdatedOk(EMPTY_BOOK, e);
    TurnedTellsSide(e, now, from, length, Bid);
    TurnedTellsSide(e, now, from, length, Ask);
  }

  lemma {:induction false} TurnedTellsSide(e: BookUpdate, now: VenueBook, from: nat, length: nat, d: Side)
    requires WellFormed(e) && !e.isSnapshot && from < e.sequence < length
    ensures TellsSide(TurnedAfter(Updated(EMPTY_BOOK, e), now, e.sequence, length), e, from, d)
  {
    var history := TurnedAfter(Updated(EMPTY_BOOK, e), now, e.sequence, length);
    FoldAt(map[], LevelsOf(e, d));
    forall p | !Mentions(LevelsOf(e, d), p) ensures Still(history, from, e.sequence, d, p) {
    }
  }

  /** An older event that names anything at all can take its price back. */
  lemma {:induction false} OlderEventCanHarm(f: Feed, e: BookUpdate, chain: Option<u64>, d: Side, l: PriceLevel)
    requires f.live && Takes(f.mark, e.sequence, false) && WellFormed(e) && !e.isSnapshot && Ranged(f.market, e, chain)
    requires e.sequence < f.lastU && f.lastU + 1 < 0x1_0000_0000_0000_0000 && l in LevelsOf(e, d)
    ensures !AlwaysRight(f, e, chain)
  {
    var now := Contrary(d, l);
    var history := TurnedAfter(Updated(EMPTY_BOOK, e), now, e.sequence, f.lastU + 1);
    TurnedTells(e, now, From(f.market, e, chain), f.lastU + 1);
    FoldAt(now.On(d), LevelsOf(e, d));
    assert Get(Updated(now, e).On(d), l.price) == l.qty != Get(now.On(d), l.price);
    hide Contrary, Updated, TurnedAfter, TellsSide, Get, LevelsOf, WellFormed;
    assert !StaysRight(history, f, e, chain);
  }

  /**
   When an event that goes out is certain to leave the book right, spot or
   futures: exactly when it is not older than the last id or names nothing. The
   branch that judges an older event Ignore is the one that should have kept it
   back.
   */
  lemma {:induction false} IgnoredIsHarmlessIff(f: Feed, e: BookUpdate, chain: Option<u64>)
    requires f.live && Takes(f.mark, e.sequence, false) && WellFormed(e) && !e.isSnapshot && Ranged(f.market, e, chain)
    requires f.lastU + 1 < 0x1_0000_0000_0000_0000
    ensures AlwaysRight(f, e, chain) <==> f.lastU <= e.sequence || (e.bids == [] && e.asks == [])
  {
    if f.lastU <= e.sequence {
      forall history: History |
        && HistoryOk(history) && f.lastU < |history| < 0x1_0000_0000_0000_0000
        && Truthful(history, f.market, e, chain) && OnDepth(f, e, chain).1 == Emitted
        ensures StaysRight(history, f, e, chain) {
        NewerEventIsRight(history, f, e, chain);
      }
    } else if e.bids != [] {
      OlderEventCanHarm(f, e, chain, Bid, e.bids[0]);
    } else if e.asks != [] {
      OlderEventCanHarm(f, e, chain, Ask, e.asks[0]);
    }
  }

  lemma {:induction false} NewerEventIsRight(history: History, f: Feed, e: BookUpdate, chain: Option<u64>)
    requires f.live && Takes(f.mark, e.sequence, false) && Ranged(f.market, e, chain) && f.lastU <= e.sequence
    requires HistoryOk(history) && f.lastU < |history| < 0x1_0000_0000_0000_0000
    requires Truthful(history, f.market, e, chain) && OnDepth(f, e, chain).1 == Emitted
    ensures StaysRight(history, f, e, chain)
  {
    if f.lastU == e.sequence {
      EventReaches(history, From(f.market, e, chain), e.sequence, e);
    } else if f.market.Spot? {
      VerdictReaches(history, Spot, f.lastU, e, chain);
    } else {
      EventReaches(history, f.lastU, f.lastU, e);
    }
  }

  /** One bid and the sizes it had after update ids 1 to 4. */
  function BidAt(id: u64, isSnapshot: bool): BookUpdate {
    var first := if id < 0x8000_0000_0000_0000 then id else 0;
    BookUpdate(BINANCE, 0, id, first, 0, 0, 0, isSnapshot, [PriceLevel(100, id)], [])
  }

  ghost function Sizes(): History {
    [EMPTY_BOOK, SizeOf(1), SizeOf(2), SizeOf(3), SizeOf(4)]
  }

  function SizeOf(size: u64): VenueBook {
    VenueBook(map[100 := size], map[])
  }

  lemma {:induction false} SizesToldSide(id: u64, from: nat, d: Side)
    requires from < id <= 4
    ensures TellsSide(Sizes(), BidAt(id, false), from, d)
  {
    var e := BidAt(id, false);
    assert e.bids[0] in e.bids;
    forall p: u64 | !Mentions(LevelsOf(e, d), p) ensures Still(Sizes(), from, id, d, p) {
      assert d.Bid? ==> p != 100;
    }
  }

  /** The message at id tells the truth about everything after `from`, and a snapshot at id is the venue's book. */
  lemma {:induction false} SizesTold(id: u64, from: nat)
    requires from < id <= 4
    ensures HistoryOk(Sizes()) && Tells(Sizes(), BidAt(id, false), from) && IsSnapshotAt(Sizes(), BidAt(id, true))
  {
    SizesToldSide(id, from, Bid);
    SizesToldSide(id, from, Ask);
    BidWritten(id, map[]);
  }

  lemma {:induction false} BidWritten(id: u64, m: Levels)
    requires id > 0 && m.Keys <= {100}
    ensures Fold(m, [PriceLevel(100, id)]) == map[100 := id]
  {
    assert FoldTo(m, [PriceLevel(100, id)], 0) == m;
  }

  /** The provider's part of the run below. */
  lemma {:induction false} LateEventGoesOut()
    ensures var buffered := OnDepth(Fresh(Spot), BidAt(1, false), None);
            var joined := Joined(buffered.0, BidAt(3, true));
            var late := OnDepth(joined, BidAt(2, false), None);
            && buffered.1 == Buffered && Joins(3, buffered.0.pending)
            && Replayed(buffered.0, BidAt(3, true)) == [BidAt(3, true)]
            && joined.lastU == 3 && CheckBinanceSpot(BidAt(2, false), 3).action == Ignore && late.1 == Emitted
            && late.0.lastU == 3
  {
    var pending := OnDepth(Fresh(Spot), BidAt(1, false), None).0.pending;
    assert pending == [BidAt(1, false)];
    assert FirstSurvivor(3, pending, 1) == 1;
  }

  /**
   From a fresh provider: an event is buffered, a newer snapshot joined, and then
   the event in between arrives. It is judged Ignore, goes out all the same, and
   the book falls back behind the last id, with every message true to the venue.
   */
  lemma {:induction false} IgnoredRegresses()
    ensures forall id: u64 :: 1 <= id <= 3 ==>
            TellsSpot(Sizes(), BidAt(id, false)) && IsSnapshotAt(Sizes(), BidAt(id, true))
    ensures var buffered := OnDepth(Fresh(Spot), BidAt(1, false), None);
            var joined := Joined(buffered.0, BidAt(3, true));
            var late := OnDepth(joined, BidAt(2, false), None);
            && buffered.1 == Buffered && Joins(3, buffered.0.pending)
            && Replayed(buffered.0, BidAt(3, true)) == [BidAt(3, true)]
            && joined.lastU == 3 && CheckBinanceSpot(BidAt(2, false), 3).action == Ignore
            && late.1 == Emitted && late.0.lastU == 3
    ensures Updated(EMPTY_BOOK, BidAt(3, true)) == Sizes()[3]
    ensures Updated(Updated(EMPTY_BOOK, BidAt(3, true)), BidAt(2, false)) == Sizes()[2] != Sizes()[3]
  {
    hide Joined, Replayed, Joins, Tells, IsSnapshotAt;
    forall id: u64 | 1 <= id <= 3
      ensures TellsSpot(Sizes(), BidAt(id, false)) && IsSnapshotAt(Sizes(), BidAt(id, true)) {
      SizesTold(id, id - 1);
    }
    LateEventGoesOut();
    FallsBack();
  }

  lemma {:induction false} FallsBack()
    ensures Updated(EMPTY_BOOK, BidAt(3, true)) == Sizes()[3]
    ensures Updated(Updated(EMPTY_BOOK, BidAt(3, true)), BidAt(2, false)) == Sizes()[2] != Sizes()[3]
  {
    BidWritten(3, map[]);
    BidWritten(2, map[100 := 3]);
    assert SizeOf(2).bids[100] == 2;
  }

  /**
   The same on futures, where the snapshot of a fetch that outlived its connection
   is joined with nothing buffered.
   */
  lemma {:induction false} FuturesIgnoredRegresses()
    ensures Tells(Sizes(), BidAt(2, false), 1) && IsSnapshotAt(Sizes(), BidAt(3, true))
    ensures var joined := Joined(Fresh(Futures), BidAt(3, true));
            var late := OnDepth(joined, BidAt(2, false), Some(1));
            && Joins(3, []) && joined.lastU == 3 && CheckBinanceFutures(1, 2, 3).action == Ignore
            && late.1 == Emitted && late.0.lastU == 3
    ensures Updated(EMPTY_BOOK, BidAt(3, true)) == Sizes()[3]
    ensures Updated(Updated(EMPTY_BOOK, BidAt(3, true)), BidAt(2, false)) == Sizes()[2] != Sizes()[3]
  {
    SizesTold(2, 1);
    SizesTold(3, 2);
    FallsBack();
  }

  /**
   And a futures gap that is none: after that join an event that continues from
   an id inside the snapshot is reported as a gap. One history makes all of it
   true, and the event would have brought the book to its own id.
   */
  lemma {:induction false} FuturesFalseGap()
    ensures HistoryOk(Sizes()) && IsSnapshotAt(Sizes(), BidAt(3, true))
    ensures Stream(Sizes(), Futures, [BidAt(4, false)], [Some(2)], 2)
    ensures OnDepth(Joined(Fresh(Futures), BidAt(3, true)), BidAt(4, false), Some(2)).1 == Resync
    ensures Updated(Sizes()[3], BidAt(4, false)) == Sizes()[4]
  {
    SizesTold(4, 2);
    SizesTold(3, 2);
    EventReaches(Sizes(), 2, 3, BidAt(4, false));
  }

  /** The program's own steps to it: a round is started, the late snapshot arrives, then the event. */
  method LateSnapshotRun() returns (joined: Reaction, next: Reaction)
    ensures joined == Emitted && next == Resync
  {
    var provider := new BinanceProvider(Futures);
    provider.StartRound();
    joined := provider.OnSnapshotFetched(Some(BidAt(3, true)));
    next := provider.OnDepthMessage(BidAt(4, false), Some(2), 0);
  }

  /** A snapshot that cannot be had: five attempts, and then the connection is given up. */
  method GivesUp(market: Market, early: BookUpdate, chain: Option<u64>) returns (first: Reaction, rs: seq<Reaction>)
    ensures first == Buffered && rs == [Buffered, Buffered, Buffered, Buffered, Resync]
  {
    var provider := new BinanceProvider(market);
    provider.StartRound();
    first := provider.OnDepthMessage(early, chain, 0);
    rs := [];
    while |rs| < 5
      invariant |rs| <= 5 && provider.snapshotAttempts == (if |rs| < 5 then |rs| + 1 else 5)
      invariant rs == [Buffered, Buffered, Buffered, Buffered, Resync][..|rs|]
    {
      var r := provider.OnSnapshotFetched(None);
      rs := rs + [r];
    }
  }

  // ---- from the connection to the live book --

  lemma {:induction false} SurvivorFollows(history: History, es: seq<BookUpdate>, chains: seq<Option<u64>>, wire: nat,
      id: u64)
    requires Stream(history, Spot, es, chains, wire) && es != []
    ensures var first := FirstSurvivor(id, es, 0);
            first < |es| ==> es[first].prevSeq == WireAt(wire, es, first) + 1
    ensures wire < es[0].sequence
  {
    var first := FirstSurvivor(id, es, 0);
    assert Follows(history, Spot, es[0], chains[0], WireAt(wire, es, 0));
    if first < |es| {
      assert Follows(history, Spot, es[first], chains[first], WireAt(wire, es, first));
    }
  }

  /**
   A spot stream buffered without loss joins a snapshot exactly when the snapshot is
   not older than the point where the buffer begins; right behind it is enough.
   */
  lemma {:induction false} BufferJoinsIff(history: History, es: seq<BookUpdate>, chains: seq<Option<u64>>, wire: nat,
      id: u64)
    requires Stream(history, Spot, es, chains, wire) && es != [] && id + 1 < 0x1_0000_0000_0000_0000
    ensures Joins(id, es) <==> wire <= id
  {
    SurvivorFollows(history, es, chains, wire, id);
  }

  /** The parts of a stream behind its k-th event. */
  lemma {:induction false} StreamTail(history: History, market: Market, es: seq<BookUpdate>, chains: seq<Option<u64>>,
                                      wire: nat, k: nat)
    requires Stream(history, market, es, chains, wire) && k <= |es|
    ensures Stream(history, market, es[k..], chains[k..], WireAt(wire, es, k))
  {
    forall i | 0 <= i < |es| - k
      ensures Follows(history, market, es[k..][i], chains[k..][i], WireAt(WireAt(wire, es, k), es[k..], i)) {
      assert WireAt(wire, es, k + i) == WireAt(WireAt(wire, es, k), es[k..], i);
    }
  }

  function Froms(wire: nat, es: seq<BookUpdate>, n: nat): (r: seq<nat>)
    requires n <= |es|
    ensures |r| == n && forall i :: 0 <= i < n ==> r[i] == WireAt(wire, es, i)
  {
    if n == 0 then [] else Froms(wire, es, n - 1) + [WireAt(wire, es, n - 1)]
  }

  /** Each event's declared range starts after its predecessor, as it does by definition on spot. */
  ghost predicate RangesFollow(es: seq<BookUpdate>, wire: nat) {
    forall i :: 0 <= i < |es| ==> RangeFollows(es, wire, i)
  }

  predicate RangeFollows(es: seq<BookUpdate>, wire: nat, i: nat)
    requires i < |es|
  {
    WireAt(wire, es, i) < es[i].prevSeq
  }

  lemma {:induction false} StreamChained(history: History, market: Market, es: seq<BookUpdate>,
      chains: seq<Option<u64>>,
                                         wire: nat, k: nat)
    requires Stream(history, market, es, chains, wire) && RangesFollow(es, wire) && k <= |es|
    ensures Chained(history, es[..k], Froms(wire, es, k))
  {
    hide Tells;
    forall i | 0 <= i < k ensures Link(history, es[..k], Froms(wire, es, k), i) {
      assert Follows(history, market, es[i], chains[i], WireAt(wire, es, i)) && RangeFollows(es, wire, i);
    }
  }

  lemma {:induction false} StreamRises(history: History, market: Market, es: seq<BookUpdate>, chains: seq<Option<u64>>,
                                       wire: nat, i: nat, j: nat)
    requires Stream(history, market, es, chains, wire) && i < j < |es|
    ensures es[i].sequence < es[j].sequence
  {
    assert Follows(history, market, es[j], chains[j], WireAt(wire, es, j));
    if i < j - 1 {
      StreamRises(history, market, es, chains, wire, i, j - 1);
    }
  }

  /** What the first k events leave, and how they chain. */
  lemma {:induction false} ConnectionBuffers(history: History, market: Market, snapshot: BookUpdate,
      es: seq<BookUpdate>,
                                             chains: seq<Option<u64>>, wire: nat, k: nat)
    requires Stream(history, market, es, chains, wire) && RangesFollow(es, wire) && 0 < k <= |es| && k <= MAX_PENDING
    ensures var g := FeedAfter(Fresh(market), es, chains, k);
            && g.pending == es[..k] && g.market == market && Meets(g, snapshot, WireAt(wire, es, k))
            && Chained(history, g.pending, Froms(wire, es, k))
  {
    forall i, j | 0 <= i < j < |es| ensures es[i].sequence < es[j].sequence {
      StreamRises(history, market, es, chains, wire, i, j);
    }
    StreamChained(history, market, es, chains, wire, k);
    hide Stream, Chained, FeedAfter;
    BufferRun(Fresh(market), es, chains, k);
    MarketStays(Fresh(market), es, chains, k);
  }

  /**
   The whole life of a connection without loss, spot or futures: k events are
   buffered, a snapshot of the venue joins them, and n more arrive. Nothing is
   refused on the way, and once the stream has reached the snapshot's id, what was
   emitted is exactly the venue's book.
   */
  lemma {:induction false} ConnectionRebuilds(history: History, market: Market, b: VenueBook, snapshot: BookUpdate,
                                              es: seq<BookUpdate>, chains: seq<Option<u64>>, wire: nat, k: nat, n: nat)
    requires HistoryOk(history) && |history| < 0x1_0000_0000_0000_0000 && IsSnapshotAt(history, snapshot)
    requires Stream(history, market, es, chains, wire) && RangesFollow(es, wire)
    requires 0 < k <= MAX_PENDING && 0 < n && k + n <= |es| && Joins(snapshot.sequence, es[..k])
    ensures var g := FeedAfter(Fresh(market), es, chains, k);
            var live, seeded := Joined(g, snapshot), BookOf(b, Replayed(g, snapshot), |Replayed(g, snapshot)|);
            && g.pending == es[..k]
            && (forall i :: 0 <= i < n ==> ReactionAt(live, es[k..], chains[k..], i) == Emitted)
            && (snapshot.sequence <= es[k..][n - 1].sequence < |history| ==>
                  BookOf(seeded, es[k..], n) == history[es[k..][n - 1].sequence])
  {
    assert |es| == |chains|;
    hide *;
    var g := FeedAfter(Fresh(market), es, chains, k);
    ConnectionBuffers(history, market, snapshot, es, chains, wire, k);
    StreamTail(history, market, es, chains, wire, k);
    LiveHeals(history, snapshot, b, g, Froms(wire, es, k), WireAt(wire, es, k), es[k..], chains[k..], n);
  }
}
