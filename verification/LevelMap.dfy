/**
 A book side seen as a plain map from price to quantity: the reference every
 faster representation is compared with.
 */
module LevelMap {
  import opened Types
  import opened Ordering

  type Levels = map<u64, u64>

  /** Quantity at a price, 0 when no level is there. */
  function Get(m: Levels, p: u64): u64 {
    if p in m then m[p] else 0
  }

  /** Absolute write of one price: quantity 0 removes the level. */
  function Set(m: Levels, p: u64, q: u64): Levels {
    if q == 0 then m - {p} else m[p := q]
  }

  ghost predicate NoZero(m: Levels) {
    forall p :: p in m ==> m[p] != 0
  }

  /** Writes the first n levels of a delta, in the order they arrived. */
  function FoldTo(m: Levels, delta: seq<PriceLevel>, n: nat): Levels
    requires n <= |delta|
  {
    if n == 0 then m else Set(FoldTo(m, delta, n - 1), delta[n - 1].price, delta[n - 1].qty)
  }

  function Fold(m: Levels, delta: seq<PriceLevel>): Levels {
    FoldTo(m, delta, |delta|)
  }

  ghost predicate Mentions(s: seq<PriceLevel>, p: u64) {
    exists l :: l in s && l.price == p
  }

  /** A delta names each price at most once. */
  ghost predicate Distinct(s: seq<PriceLevel>) {
    forall i, j :: 0 <= i < j < |s| ==> s[i].price != s[j].price
  }

  /** Of the levels that name one price, only the last may carry a quantity. */
  ghost predicate LastCarries(s: seq<PriceLevel>) {
    forall i, j :: 0 <= i < j < |s| && s[i].price == s[j].price ==> s[i].qty == 0
  }

  lemma {:induction false} MapExt(m: Levels, n: Levels)
    requires NoZero(m) && NoZero(n)
    requires forall p :: Get(m, p) == Get(n, p)
    ensures m == n
  {
    forall p ensures p in m <==> p in n {
      assert Get(m, p) == Get(n, p);
    }
    forall p | p in m ensures m[p] == n[p] {
      assert Get(m, p) == Get(n, p);
    }
  }

  lemma {:induction false} FoldNoZero(m: Levels, delta: seq<PriceLevel>, n: nat)
    requires NoZero(m) && n <= |delta|
    ensures NoZero(FoldTo(m, delta, n))
  {
    if n > 0 {
      FoldNoZero(m, delta, n - 1);
    }
  }

  lemma {:induction false} FoldMiss(m: Levels, delta: seq<PriceLevel>, n: nat, p: u64)
    requires n <= |delta| && forall i :: 0 <= i < n ==> delta[i].price != p
    ensures Get(FoldTo(m, delta, n), p) == Get(m, p)
  {
    if n > 0 {
      FoldMiss(m, delta, n - 1, p);
    }
  }

  lemma {:induction false} FoldHit(m: Levels, delta: seq<PriceLevel>, n: nat, i: nat)
    requires i < n <= |delta| && forall k :: i < k < n ==> delta[k].price != delta[i].price
    ensures Get(FoldTo(m, delta, n), delta[i].price) == delta[i].qty
  {
    if i < n - 1 {
      FoldHit(m, delta, n - 1, i);
    }
  }

  /** What a distinct delta leaves at every price: its own quantity where it speaks, the old one elsewhere. */
  lemma {:induction false} FoldAt(m: Levels, delta: seq<PriceLevel>)
    requires NoZero(m) && Distinct(delta)
    ensures NoZero(Fold(m, delta))
    ensures forall l :: l in delta ==> Get(Fold(m, delta), l.price) == l.qty
    ensures forall p :: !Mentions(delta, p) ==> Get(Fold(m, delta), p) == Get(m, p)
  {
    FoldNoZero(m, delta, |delta|);
    forall l | l in delta ensures Get(Fold(m, delta), l.price) == l.qty {
      var i :| 0 <= i < |delta| && delta[i] == l;
      FoldHit(m, delta, |delta|, i);
    }
    forall p | !Mentions(delta, p) ensures Get(Fold(m, delta), p) == Get(m, p) {
      forall i | 0 <= i < |delta| ensures delta[i].price != p {
        assert delta[i] in delta;
      }
      FoldMiss(m, delta, |delta|, p);
    }
  }

  function ChangePrices(cs: seq<LevelChange>): (r: seq<u64>)
    ensures |r| == |cs| && forall i :: 0 <= i < |cs| ==> r[i] == cs[i].price
  {
    seq(|cs|, i requires 0 <= i < |cs| => cs[i].price)
  }

  /**
   `cs` is exactly the difference between two sides: strictly best-first, one
   entry per price whose quantity moved, carrying the quantity before and after.
   */
  ghost predicate IsDiff(d: Side, m: Levels, n: Levels, cs: seq<LevelChange>) {
    && BestFirst(d, ChangePrices(cs))
    && (forall c :: c in cs ==> c.oldQty == Get(m, c.price) && c.newQty == Get(n, c.price) && c.oldQty != c.newQty)
    && (forall p :: Get(m, p) != Get(n, p) ==> p in ChangePrices(cs))
  }

  /** There is only one such list. */
  lemma {:induction false} DiffUnique(d: Side, m: Levels, n: Levels, a: seq<LevelChange>, b: seq<LevelChange>)
    requires IsDiff(d, m, n, a) && IsDiff(d, m, n, b)
    ensures a == b
  {
    forall x ensures x in ChangePrices(a) <==> x in ChangePrices(b) {
      if x in ChangePrices(a) {
        var i :| 0 <= i < |a| && ChangePrices(a)[i] == x;
        assert a[i] in a;
      }
      if x in ChangePrices(b) {
        var i :| 0 <= i < |b| && ChangePrices(b)[i] == x;
        assert b[i] in b;
      }
    }
    BestFirstUnique(d, ChangePrices(a), ChangePrices(b));
    assert |a| == |b|;
    forall i | 0 <= i < |a| ensures a[i] == b[i] {
      assert a[i] in a && b[i] in b;
      assert ChangePrices(a)[i] == ChangePrices(b)[i];
    }
  }

  /** The absolute writes a change list stands for. */
  function Writes(cs: seq<LevelChange>): (r: seq<PriceLevel>)
    ensures |r| == |cs| && forall i :: 0 <= i < |cs| ==> r[i] == PriceLevel(cs[i].price, cs[i].newQty)
  {
    seq(|cs|, i requires 0 <= i < |cs| => PriceLevel(cs[i].price, cs[i].newQty))
  }

  /** Replaying the difference turns the old side into the new one. */
  lemma {:induction false} ReplayDiff(d: Side, m: Levels, n: Levels, cs: seq<LevelChange>)
    requires NoZero(m) && NoZero(n) && IsDiff(d, m, n, cs)
    ensures Fold(m, Writes(cs)) == n
  {
    var ws := Writes(cs);
    forall i, j | 0 <= i < j < |ws| ensures ws[i].price != ws[j].price {
      assert Better(d, ChangePrices(cs)[i], ChangePrices(cs)[j]);
    }
    FoldAt(m, ws);
    forall p ensures Get(Fold(m, ws), p) == Get(n, p) {
      if p in ChangePrices(cs) {
        var i :| 0 <= i < |cs| && ChangePrices(cs)[i] == p;
        assert cs[i] in cs && ws[i] in ws;
      } else {
        assert !Mentions(ws, p) by {
          forall l | l in ws ensures l.price != p {
            var i :| 0 <= i < |ws| && ws[i] == l;
            assert ChangePrices(cs)[i] == l.price;
          }
        }
      }
    }
    MapExt(Fold(m, ws), n);
  }

  /** Every list of a run replayed, one after the other. */
  function FoldAll(m: Levels, lists: seq<seq<LevelChange>>): Levels {
    if lists == [] then m else Fold(FoldAll(m, DropLast(lists)), Writes(Last(lists)))
  }

  /** Both sides of one venue's book. */
  datatype VenueBook = VenueBook(bids: Levels, asks: Levels) {
    function On(d: Side): Levels {
      if d.Bid? then bids else asks
    }

    ghost predicate Ok() {
      NoZero(bids) && NoZero(asks)
    }
  }

  const EMPTY_BOOK: VenueBook := VenueBook(map[], map[])

  ghost predicate WellFormed(u: BookUpdate) {
    Distinct(u.bids) && Distinct(u.asks)
  }

  /** An update on plain maps: a snapshot replaces both sides, a delta writes into them. */
  function Updated(v: VenueBook, u: BookUpdate): VenueBook {
    var from := if u.isSnapshot then EMPTY_BOOK else v;
    VenueBook(Fold(from.bids, u.bids), Fold(from.asks, u.asks))
  }

  /**
   What an update says of a price: the quantity it names, or, where it names none,
   nothing after a snapshot and the old quantity after a delta. Each side of the
   message speaks of its own side of the book.
   */
  lemma {:induction false} UpdatedAt(v: VenueBook, u: BookUpdate)
    requires v.Ok() && WellFormed(u)
    ensures forall l :: l in u.bids ==> Get(Updated(v, u).bids, l.price) == l.qty
    ensures forall l :: l in u.asks ==> Get(Updated(v, u).asks, l.price) == l.qty
    ensures forall p :: (forall l :: l in u.bids ==> l.price != p) ==>
              Get(Updated(v, u).bids, p) == if u.isSnapshot then 0 else Get(v.bids, p)
    ensures forall p :: (forall l :: l in u.asks ==> l.price != p) ==>
              Get(Updated(v, u).asks, p) == if u.isSnapshot then 0 else Get(v.asks, p)
  {
    var from := if u.isSnapshot then EMPTY_BOOK else v;
    FoldAt(from.bids, u.bids);
    FoldAt(from.asks, u.asks);
  }

  /** What the first n updates make of a book, which is also what a consumer of them holds. */
  function BookOf(b: VenueBook, updates: seq<BookUpdate>, n: nat): VenueBook
    requires n <= |updates|
  {
    if n == 0 then b else Updated(BookOf(b, updates, n - 1), updates[n - 1])
  }

  lemma {:induction false} UpdatedOk(v: VenueBook, u: BookUpdate)
    requires v.Ok() && WellFormed(u)
    ensures Updated(v, u).Ok()
  {
    var from := if u.isSnapshot then EMPTY_BOOK else v;
    FoldAt(from.bids, u.bids);
    FoldAt(from.asks, u.asks);
  }
}
