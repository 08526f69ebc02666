/**
 A venue's book as a history of absolute quantities: history[t] is the book after
 update id t. An event covers the ids after `from` up to its own sequence and
 names the final quantity of every price that moved in between.
 */
module VenueHistory {
  import opened Types
  import opened LevelMap

  type History = seq<VenueBook>

  ghost predicate HistoryOk(history: History) {
    forall t :: 0 <= t < |history| ==> history[t].Ok()
  }

  function LevelsOf(e: BookUpdate, d: Side): seq<PriceLevel> {
    if d.Bid? then e.bids else e.asks
  }

  /** Quantity on one side of the venue's book at a price, after update id t. */
  function QtyAt(history: History, t: nat, d: Side, p: u64): u64
    requires t < |history|
  {
    Get(history[t].On(d), p)
  }

  /** No id from a to b changes the price. */
  ghost predicate Still(history: History, a: nat, b: nat, d: Side, p: u64) {
    b < |history| && forall t: nat :: a <= t <= b ==> QtyAt(history, t, d, p) == QtyAt(history, b, d, p)
  }

  ghost predicate TellsSide(history: History, e: BookUpdate, from: nat, d: Side)
    requires e.sequence < |history|
  {
    && (forall l :: l in LevelsOf(e, d) ==> l.qty == QtyAt(history, e.sequence, d, l.price))
    && (forall p :: !Mentions(LevelsOf(e, d), p) ==> Still(history, from, e.sequence, d, p))
  }

  /** The event tells exactly what happened after id `from`, up to its own. */
  ghost predicate Tells(history: History, e: BookUpdate, from: nat) {
    && !e.isSnapshot && WellFormed(e) && from < e.sequence < |history|
    && TellsSide(history, e, from, Bid) && TellsSide(history, e, from, Ask)
  }

  ghost predicate IsSnapshotAt(history: History, s: BookUpdate) {
    s.isSnapshot && WellFormed(s) && s.sequence < |history| && Updated(EMPTY_BOOK, s) == history[s.sequence]
  }

  /**
   A book being caught up: seeded at id `seed`, it has then been told everything
   from `lo` to `at`. A price shows the venue's quantity at `at`, or still the
   seeded one if nothing has moved it since `lo`.
   */
  ghost predicate Blended(history: History, b: VenueBook, lo: nat, at: nat, seed: nat, d: Side)
    requires at < |history| && seed < |history|
  {
    forall p :: Get(b.On(d), p) == QtyAt(history, at, d, p)
             || (Get(b.On(d), p) == QtyAt(history, seed, d, p) && Still(history, lo, at, d, p))
  }

  ghost predicate CatchingUp(history: History, b: VenueBook, lo: nat, at: nat, seed: nat) {
    && lo <= at < |history| && lo <= seed < |history| && b.Ok()
    && Blended(history, b, lo, at, seed, Bid) && Blended(history, b, lo, at, seed, Ask)
  }

  lemma {:induction false} StillJoins(history: History, a: nat, b: nat, c: nat, d: Side, p: u64)
    requires a <= b <= c && Still(history, a, b, d, p) && Still(history, b, c, d, p)
    ensures Still(history, a, c, d, p)
  {
    assert QtyAt(history, b, d, p) == QtyAt(history, c, d, p);
  }

  lemma {:induction false} BlendedStep(history: History, b: VenueBook, lo: nat, at: nat, seed: nat, e: BookUpdate,
      d: Side)
    requires b.Ok() && lo <= at < |history| && seed < |history| && Blended(history, b, lo, at, seed, d)
    requires WellFormed(e) && !e.isSnapshot && at < e.sequence < |history| && TellsSide(history, e, at, d)
    ensures Blended(history, Updated(b, e), lo, e.sequence, seed, d)
  {
    FoldAt(b.On(d), LevelsOf(e, d));
    forall p ensures Get(Updated(b, e).On(d), p) == QtyAt(history, e.sequence, d, p)
             || (Get(Updated(b, e).On(d), p) == QtyAt(history, seed, d, p) && Still(history, lo, e.sequence, d, p)) {
      if Mentions(LevelsOf(e, d), p) {
        var l :| l in LevelsOf(e, d) && l.price == p;
      } else {
        assert Still(history, at, e.sequence, d, p);
        assert QtyAt(history, at, d, p) == QtyAt(history, e.sequence, d, p);
        if Get(b.On(d), p) != QtyAt(history, at, d, p) {
          StillJoins(history, lo, at, e.sequence, d, p);
        }
      }
    }
  }

  /** The next event of the stream, whatever has been caught up so far. */
  lemma {:induction false} EventAdvances(history: History, b: VenueBook, lo: nat, at: nat, seed: nat, e: BookUpdate)
    requires CatchingUp(history, b, lo, at, seed) && Tells(history, e, at)
    ensures CatchingUp(history, Updated(b, e), lo, e.sequence, seed)
  {
    UpdatedOk(b, e);
    BlendedStep(history, b, lo, at, seed, e, Bid);
    BlendedStep(history, b, lo, at, seed, e, Ask);
  }

  lemma {:induction false} CaughtUpSide(history: History, b: VenueBook, lo: nat, at: nat, seed: nat, d: Side)
    requires CatchingUp(history, b, lo, at, seed) && HistoryOk(history) && seed <= at
    ensures b.On(d) == history[at].On(d)
  {
    forall p ensures Get(b.On(d), p) == Get(history[at].On(d), p) {
      var seeded := QtyAt(history, seed, d, p);
      assert Get(b.On(d), p) == QtyAt(history, at, d, p) || Get(b.On(d), p) == seeded;
    }
    MapExt(b.On(d), history[at].On(d));
  }

  /** Once the stream has reached the seed, the book is the venue's. */
  lemma {:induction false} CaughtUp(history: History, b: VenueBook, lo: nat, at: nat, seed: nat)
    requires CatchingUp(history, b, lo, at, seed) && HistoryOk(history) && seed <= at
    ensures b == history[at]
  {
    CaughtUpSide(history, b, lo, at, seed, Bid);
    CaughtUpSide(history, b, lo, at, seed, Ask);
  }

  /** A freshly seeded book is caught up with any earlier point of the stream. */
  lemma {:induction false} SeededCatchesUp(history: History, lo: nat, seed: nat)
    requires HistoryOk(history) && lo <= seed < |history|
    ensures CatchingUp(history, history[seed], lo, lo, seed)
  {
  }

  /** Straddling or contiguous: an event that reaches back to what is held brings the book to its own id. */
  lemma {:induction false} EventReaches(history: History, from: nat, at: nat, e: BookUpdate)
    requires HistoryOk(history) && from <= at <= e.sequence && Tells(history, e, from)
    ensures Updated(history[at], e) == history[e.sequence]
  {
    SeededCatchesUp(history, from, at);
    EventAdvances(history, history[at], from, from, at, e);
    CaughtUp(history, Updated(history[at], e), from, e.sequence, at);
  }

  lemma {:induction false} SnapshotSeeds(history: History, b: VenueBook, s: BookUpdate)
    requires IsSnapshotAt(history, s)
    ensures Updated(b, s) == history[s.sequence]
  {
  }
}
