/**
 The consolidated best bid and offer (md_core/consolidated_bbo.cpp): a full scan
 of the stored quotes, and the incremental update that has to agree with it.
 */
module ConsolidatedBbo {
  import opened Types

  datatype BestLevel = BestLevel(price: u64, totalQty: u64, venues: seq<VenueQuote>)

  datatype BBO = BBO(bestBid: BestLevel, bestAsk: BestLevel, crossed: bool)

  const NO_LEVEL := BestLevel(0, 0, [])
  const NO_BBO := BBO(NO_LEVEL, NO_LEVEL, false)

  function IsCrossed(bid: BestLevel, ask: BestLevel): bool {
    bid.price != 0 && ask.price != 0 && bid.price >= ask.price
  }

  // ------------------------------------------------------- what it must hold --

  /** One side of what every slot quotes; price 0 stands for nothing usable. */
  type Tops = seq<PriceLevel>

  /** Total quantity the first n slots quote at a price, as an unbounded number. */
  function SumAt(tops: Tops, p: u64, n: nat): nat
    requires n <= |tops|
  {
    if n == 0 then 0 else SumAt(tops, p, n - 1) + if tops[n - 1].price == p then tops[n - 1].qty else 0
  }

  /** Nobody quotes anything better, and somebody quotes exactly this unless nobody quotes at all. */
  ghost predicate IsBestPrice(d: Side, tops: Tops, n: nat, p: u64)
    requires n <= |tops|
  {
    && (forall i :: 0 <= i < n && tops[i].price != 0 ==> p != 0 && (tops[i].price == p || Better(d, p, tops[i].price)))
    && (p != 0 ==> exists i :: 0 <= i < n && tops[i].price == p)
  }

  /** Attribution without repetition: exactly the slots at the price, each with its own quantity. */
  ghost predicate Attributes(tops: Tops, n: nat, p: u64, venues: seq<VenueQuote>)
    requires n <= |tops|
  {
    && (forall a, b :: 0 <= a < b < |venues| ==> venues[a].slot != venues[b].slot)
    && (forall v :: v in venues <==> p != 0 && v.slot < n && tops[v.slot] == PriceLevel(p, v.qty))
  }

  ghost predicate IsBest(d: Side, tops: Tops, n: nat, level: BestLevel)
    requires n <= |tops|
  {
    && IsBestPrice(d, tops, n, level.price)
    && Attributes(tops, n, level.price, level.venues)
    && level.totalQty == if level.price == 0 then 0 else Wrap(SumAt(tops, level.price, n))
  }

  /** The same price, total and attribution; the order of attribution is not observable here. */
  ghost predicate SameLevel(a: BestLevel, b: BestLevel) {
    a.price == b.price && a.totalQty == b.totalQty && forall v :: v in a.venues <==> v in b.venues
  }

  lemma {:induction false} BestUnique(d: Side, tops: Tops, a: BestLevel, b: BestLevel)
    requires IsBest(d, tops, |tops|, a) && IsBest(d, tops, |tops|, b)
    ensures SameLevel(a, b)
  {
    if a.price != 0 {
      var i :| 0 <= i < |tops| && tops[i].price == a.price;
      assert b.price != 0;
    }
    if b.price != 0 {
      var i :| 0 <= i < |tops| && tops[i].price == b.price;
      assert a.price != 0;
    }
    assert a.price == b.price;
  }

  // ----------------------------------------------------------------- the scan --

  function QuotePrice(d: Side, q: BboQuote): u64 {
    if d.Bid? then q.bidPrice else q.askPrice
  }

  function QuoteQty(d: Side, q: BboQuote): u64 {
    if d.Bid? then q.bidQty else q.askQty
  }

  /** A quote that may not be used counts as no quote. */
  function Usable(d: Side, q: BboQuote, h: VenueHealth): PriceLevel {
    if IsAdmissible(h) then PriceLevel(QuotePrice(d, q), QuoteQty(d, q)) else PriceLevel(0, 0)
  }

  function TopsOf(d: Side, quotes: seq<BboQuote>, health: seq<VenueHealth>): (r: Tops)
    requires |quotes| == |health|
    ensures |r| == |quotes| && forall i :: 0 <= i < |quotes| ==> r[i] == Usable(d, quotes[i], health[i])
  {
    seq(|quotes|, i requires 0 <= i < |quotes| => Usable(d, quotes[i], health[i]))
  }

  lemma {:induction false} ScanSkip(d: Side, tops: Tops, n: nat, level: BestLevel)
    requires n < |tops| && IsBest(d, tops, n, level)
    requires tops[n].price == 0 || (level.price != 0 && Better(d, level.price, tops[n].price))
    ensures IsBest(d, tops, n + 1, level)
  {
  }

  lemma {:induction false} SumAbsent(tops: Tops, p: u64, n: nat)
    requires n <= |tops| && forall i :: 0 <= i < n ==> tops[i].price != p
    ensures SumAt(tops, p, n) == 0
  {
    if n > 0 {
      SumAbsent(tops, p, n - 1);
    }
  }

  lemma {:induction false} ScanBetter(d: Side, tops: Tops, n: nat, level: BestLevel)
    requires n < |tops| <= 8 && IsBest(d, tops, n, level)
    requires tops[n].price != 0 && (level.price == 0 || Better(d, tops[n].price, level.price))
    ensures IsBest(d, tops, n + 1, BestLevel(tops[n].price, tops[n].qty, [VenueQuote(n, tops[n].qty)]))
  {
    SumAbsent(tops, tops[n].price, n);
  }

  lemma {:induction false} ScanEqual(d: Side, tops: Tops, n: nat, level: BestLevel)
    requires n < |tops| <= 8 && IsBest(d, tops, n, level)
    requires tops[n].price != 0 && tops[n].price == level.price
    ensures IsBest(d, tops, n + 1, BestLevel(level.price, Wrap(level.totalQty + tops[n].qty),
                                             level.venues + [VenueQuote(n, tops[n].qty)]))
  {
    WrapAdd(SumAt(tops, level.price, n), tops[n].qty);
    var vs := level.venues + [VenueQuote(n, tops[n].qty)];
    forall a, b | 0 <= a < b < |vs| ensures vs[a].slot != vs[b].slot {
      assert a < |level.venues| ==> level.venues[a] in level.venues;
    }
  }

  /** The full scan of one side. */
  method ScanBest(d: Side, quotes: seq<BboQuote>, health: seq<VenueHealth>) returns (out: BestLevel)
    requires |quotes| == |health| <= 8
    ensures IsBest(d, TopsOf(d, quotes, health), |quotes|, out)
  {
    ghost var tops := TopsOf(d, quotes, health);
    out := NO_LEVEL;
    var i := 0;
    while i < |quotes|
      invariant 0 <= i <= |quotes|
      invariant IsBest(d, tops, i, out)
    {
      var price, qty := QuotePrice(d, quotes[i]), QuoteQty(d, quotes[i]);
      if price == 0 || !IsAdmissible(health[i]) {
        ScanSkip(d, tops, i, out);
      } else if out.price == 0 || Better(d, price, out.price) {
        ScanBetter(d, tops, i, out);
        out := BestLevel(price, qty, [VenueQuote(i, qty)]);
      } else if price == out.price {
        ScanEqual(d, tops, i, out);
        out := BestLevel(out.price, Wrap(out.totalQty + qty), out.venues + [VenueQuote(i, qty)]);
      } else {
        ScanSkip(d, tops, i, out);
      }
      i := i + 1;
    }
  }

  // ------------------------------------------------------- the incremental path --

  lemma {:induction false} SumUpdate(tops: Tops, s: nat, x: PriceLevel, p: u64, n: nat)
    requires s < |tops| && n <= |tops|
    ensures SumAt(tops[s := x], p, n) == SumAt(tops, p, n) +
            if s < n then (if x.price == p then x.qty else 0) - (if tops[s].price == p then tops[s].qty else 0) else 0
  {
    if n > 0 {
      SumUpdate(tops, s, x, p, n - 1);
    }
  }

  /** Position of a slot in the attribution, or its length. */
  method FindSlot(venues: seq<VenueQuote>, slot: Slot) returns (at: nat)
    ensures at <= |venues|
    ensures at < |venues| ==> venues[at].slot == slot
    ensures at == |venues| ==> forall v :: v in venues ==> v.slot != slot
  {
    at := 0;
    while at < |venues|
      invariant at <= |venues|
      invariant forall k :: 0 <= k < at ==> venues[k].slot != slot
    {
      if venues[at].slot == slot {
        return;
      }
      at := at + 1;
    }
  }

  /** The slot is in the attribution exactly when it was at the best price. */
  lemma {:induction false} FoundMeans(d: Side, tops: Tops, level: BestLevel, slot: Slot, at: nat)
    requires slot < |tops| <= 8 && IsBest(d, tops, |tops|, level)
    requires at <= |level.venues|
    requires at < |level.venues| ==> level.venues[at].slot == slot
    requires at == |level.venues| ==> forall v :: v in level.venues ==> v.slot != slot
    ensures at < |level.venues| <==> level.price != 0 && tops[slot].price == level.price
    ensures at < |level.venues| ==> level.venues[at].qty == tops[slot].qty
  {
    assert level.price != 0 && tops[slot].price == level.price ==> VenueQuote(slot, tops[slot].qty) in level.venues;
    assert at < |level.venues| ==> level.venues[at] in level.venues;
  }

  /** Without a slot: its entry erased, the others kept. */
  function Without(venues: seq<VenueQuote>, at: nat): seq<VenueQuote>
    requires at < |venues|
  {
    venues[..at] + venues[at + 1..]
  }

  lemma {:induction false} WithoutAt(venues: seq<VenueQuote>, at: nat)
    requires at < |venues|
    requires forall a, b :: 0 <= a < b < |venues| ==> venues[a].slot != venues[b].slot
    ensures var r := Without(venues, at);
            && (forall a, b :: 0 <= a < b < |r| ==> r[a].slot != r[b].slot)
            && (forall v :: v in r <==> v in venues && v.slot != venues[at].slot)
  {
    var r := Without(venues, at);
    assert venues == venues[..at] + [venues[at]] + venues[at + 1..];
    forall k | 0 <= k < |r| ensures r[k] == venues[if k < at then k else k + 1] {
    }
    forall v | v in r ensures v.slot != venues[at].slot {
      var k :| 0 <= k < |r| && r[k] == v;
    }
  }

  /** A quote that neither was nor becomes part of the best level leaves it alone. */
  lemma {:induction false} UpdateIrrelevant(d: Side, tops: Tops, level: BestLevel, slot: Slot, x: PriceLevel)
    requires slot < |tops| <= 8 && IsBest(d, tops, |tops|, level)
    requires level.price == 0 || tops[slot].price != level.price
    requires x.price == 0 || (level.price != 0 && Better(d, level.price, x.price))
    ensures IsBest(d, tops[slot := x], |tops|, level)
  {
    SumUpdate(tops, slot, x, level.price, |tops|);
    if level.price != 0 {
      var i :| 0 <= i < |tops| && tops[i].price == level.price;
      assert tops[slot := x][i].price == level.price;
    }
  }

  /** A contributor moved off the best level and others remain there. */
  lemma {:induction false} UpdateLeaves(d: Side, tops: Tops, level: BestLevel, slot: Slot, at: nat, x: PriceLevel)
    requires slot < |tops| <= 8 && IsBest(d, tops, |tops|, level)
    requires at < |level.venues| && level.venues[at].slot == slot && |level.venues| > 1
    requires x.price == 0 || Better(d, level.price, x.price)
    ensures IsBest(d, tops[slot := x], |tops|,
                   BestLevel(level.price, Wrap(level.totalQty - level.venues[at].qty), Without(level.venues, at)))
  {
    var r, tops' := Without(level.venues, at), tops[slot := x];
    WithoutAt(level.venues, at);
    assert level.venues[at] in level.venues;
    SumUpdate(tops, slot, x, level.price, |tops|);
    WrapAdd(SumAt(tops, level.price, |tops|), 0 - level.venues[at].qty);
    assert r[0] in r;
    assert tops'[r[0].slot].price == level.price;
  }

  /** A strictly better price, or the first one: this slot alone owns the level. */
  lemma {:induction false} UpdateTakes(d: Side, tops: Tops, level: BestLevel, slot: Slot, x: PriceLevel)
    requires slot < |tops| <= 8 && IsBest(d, tops, |tops|, level)
    requires x.price != 0 && (level.price == 0 || Better(d, x.price, level.price))
    ensures IsBest(d, tops[slot := x], |tops|, BestLevel(x.price, x.qty, [VenueQuote(slot, x.qty)]))
  {
    SumUpdate(tops, slot, x, x.price, |tops|);
    SumAbsent(tops, x.price, |tops|);
    assert tops[slot := x][slot] == x;
  }

  /** The best price again, with another quantity. */
  lemma {:induction false} UpdateStays(d: Side, tops: Tops, level: BestLevel, slot: Slot, at: nat, q: u64)
    requires slot < |tops| <= 8 && IsBest(d, tops, |tops|, level) && level.price != 0
    requires at < |level.venues| && level.venues[at].slot == slot
    ensures IsBest(d, tops[slot := PriceLevel(level.price, q)], |tops|,
                   BestLevel(level.price, Wrap(level.totalQty - level.venues[at].qty + q),
                             level.venues[at := VenueQuote(slot, q)]))
  {
    var vs, x := level.venues, PriceLevel(level.price, q);
    var tops', r := tops[slot := x], vs[at := VenueQuote(slot, q)];
    assert vs[at] in vs;
    SumUpdate(tops, slot, x, level.price, |tops|);
    WrapAdd(SumAt(tops, level.price, |tops|), q - vs[at].qty);
    assert tops'[slot].price == level.price;
    forall v | v in r ensures v.slot < |tops| && tops'[v.slot] == PriceLevel(level.price, v.qty) {
      var k :| 0 <= k < |r| && r[k] == v;
      assert vs[k] in vs;
    }
    forall v: VenueQuote | v.slot < |tops| && tops'[v.slot] == PriceLevel(level.price, v.qty) ensures v in r {
      if v.slot == slot {
        assert r[at] == v;
      } else {
        assert v in vs;
        var k :| 0 <= k < |vs| && vs[k] == v;
        assert r[k] == v;
      }
    }
  }

  /** A new contributor at the best price. */
  lemma {:induction false} UpdateJoins(d: Side, tops: Tops, level: BestLevel, slot: Slot, q: u64)
    requires slot < |tops| <= 8 && IsBest(d, tops, |tops|, level) && level.price != 0
    requires tops[slot].price != level.price
    ensures IsBest(d, tops[slot := PriceLevel(level.price, q)], |tops|,
                   BestLevel(level.price, Wrap(level.totalQty + q), level.venues + [VenueQuote(slot, q)]))
  {
    var vs, x := level.venues, PriceLevel(level.price, q);
    var tops', r := tops[slot := x], vs + [VenueQuote(slot, q)];
    SumUpdate(tops, slot, x, level.price, |tops|);
    WrapAdd(SumAt(tops, level.price, |tops|), q);
    assert tops'[slot].price == level.price;
    forall a, b | 0 <= a < b < |r| ensures r[a].slot != r[b].slot {
      assert a < |vs| ==> vs[a] in vs;
    }
  }

  /** A contributor that is no longer at the best price: erased, with a rescan when it was the last one. */
  method Depart(d: Side, level: BestLevel, slot: Slot, quotes: seq<BboQuote>, health: seq<VenueHealth>,
      ghost tops: Tops)
    returns (out: BestLevel)
    requires slot < |tops| == |quotes| == |health| <= 8 && IsBest(d, tops, |tops|, level)
    requires TopsOf(d, quotes, health) == tops[slot := Usable(d, quotes[slot], health[slot])]
    requires var x := Usable(d, quotes[slot], health[slot]);
             x.price == 0 || (level.price != 0 && Better(d, level.price, x.price))
    ensures IsBest(d, TopsOf(d, quotes, health), |tops|, out)
  {
    ghost var x := Usable(d, quotes[slot], health[slot]);
    var at := FindSlot(level.venues, slot);
    FoundMeans(d, tops, level, slot, at);
    if at == |level.venues| {
      UpdateIrrelevant(d, tops, level, slot, x);
      return level;
    }
    if |level.venues| > 1 {
      UpdateLeaves(d, tops, level, slot, at, x);
      out := BestLevel(level.price, Wrap(level.totalQty - level.venues[at].qty), Without(level.venues, at));
    } else {
      out := ScanBest(d, quotes, health);
    }
  }

  /** A quote at the best price: its quantity replaced, or the slot appended. */
  method Equal(d: Side, level: BestLevel, slot: Slot, qty: u64, ghost tops: Tops) returns (out: BestLevel)
    requires slot < |tops| <= 8 && IsBest(d, tops, |tops|, level) && level.price != 0
    ensures IsBest(d, tops[slot := PriceLevel(level.price, qty)], |tops|, out)
  {
    var at := FindSlot(level.venues, slot);
    FoundMeans(d, tops, level, slot, at);
    if at < |level.venues| {
      UpdateStays(d, tops, level, slot, at, qty);
      out := BestLevel(level.price, Wrap(level.totalQty - level.venues[at].qty + qty),
                       level.venues[at := VenueQuote(slot, qty)]);
    } else {
      UpdateJoins(d, tops, level, slot, qty);
      out := BestLevel(level.price, Wrap(level.totalQty + qty), level.venues + [VenueQuote(slot, qty)]);
    }
  }

  /** One side of the incremental update: the best of the quotes with the new one already stored. */
  method UpdateSide(d: Side, level: BestLevel, slot: Slot, quotes: seq<BboQuote>, health: seq<VenueHealth>,
      ghost tops: Tops)
    returns (out: BestLevel)
    requires slot < |tops| == |quotes| == |health| <= 8 && IsBest(d, tops, |tops|, level)
    requires TopsOf(d, quotes, health) == tops[slot := Usable(d, quotes[slot], health[slot])]
    ensures IsBest(d, TopsOf(d, quotes, health), |tops|, out)
  {
    var price := if IsAdmissible(health[slot]) then QuotePrice(d, quotes[slot]) else 0;
    var qty := QuoteQty(d, quotes[slot]);
    if price == 0 {
      out := Depart(d, level, slot, quotes, health, tops);
    } else if level.price == 0 || Better(d, price, level.price) {
      UpdateTakes(d, tops, level, slot, PriceLevel(price, qty));
      out := BestLevel(price, qty, [VenueQuote(slot, qty)]);
    } else if price == level.price {
      out := Equal(d, level, slot, qty, tops);
    } else {
      out := Depart(d, level, slot, quotes, health, tops);
    }
  }

  // ------------------------------------------------------------------ both sides --

  /** The BBO of the stored quotes under the given verdicts, up to the order of attribution. */
  ghost predicate IsBbo(quotes: seq<BboQuote>, health: seq<VenueHealth>, bbo: BBO)
    requires |quotes| == |health|
  {
    && IsBest(Bid, TopsOf(Bid, quotes, health), |quotes|, bbo.bestBid)
    && IsBest(Ask, TopsOf(Ask, quotes, health), |quotes|, bbo.bestAsk)
    && bbo.crossed == IsCrossed(bbo.bestBid, bbo.bestAsk)
  }

  ghost predicate SameBbo(a: BBO, b: BBO) {
    SameLevel(a.bestBid, b.bestBid) && SameLevel(a.bestAsk, b.bestAsk) && a.crossed == b.crossed
  }

  lemma {:induction false} BboUnique(quotes: seq<BboQuote>, health: seq<VenueHealth>, a: BBO, b: BBO)
    requires |quotes| == |health| && IsBbo(quotes, health, a) && IsBbo(quotes, health, b)
    ensures SameBbo(a, b)
  {
    BestUnique(Bid, TopsOf(Bid, quotes, health), a.bestBid, b.bestBid);
    BestUnique(Ask, TopsOf(Ask, quotes, health), a.bestAsk, b.bestAsk);
  }

  // ---------------------------------------------- the same in terms of the quotes' fields --

  lemma {:induction false} SumWithout(venues: seq<VenueQuote>, at: nat)
    requires at < |venues|
    ensures SumOf(venues) == SumOf(Without(venues, at)) + venues[at].qty
  {
    if at < |venues| - 1 {
      var rest := Without(venues, at);
      SumWithout(venues[..|venues| - 1], at);
      assert rest[..|rest| - 1] == Without(venues[..|venues| - 1], at);
    } else {
      assert Without(venues, at) == venues[..at];
    }
  }

  lemma {:induction false} SomeListed(venues: seq<VenueQuote>)
    ensures venues == [] || exists v :: v in venues
  {
    if venues != [] {
      assert venues[0] in venues;
    }
  }

  /** The total of a side is what its contributors add up to. */
  lemma {:induction false} SumIs(tops: Tops, n: nat, p: u64, venues: seq<VenueQuote>)
    requires n <= |tops| <= 8 && p != 0 && Attributes(tops, n, p, venues)
    ensures SumAt(tops, p, n) == SumOf(venues)
  {
    if n == 0 {
      SomeListed(venues);
    } else if tops[n - 1].price == p {
      var own := VenueQuote(n - 1, tops[n - 1].qty);
      assert own in venues;
      var at :| 0 <= at < |venues| && venues[at] == own;
      WithoutAt(venues, at);
      SumWithout(venues, at);
      SumIs(tops, n - 1, p, Without(venues, at));
    } else {
      SumIs(tops, n - 1, p, venues);
    }
  }

  /** The greatest bid of the live slots, or 0 when none of them bids, and who bids it with which quantity. */
  ghost predicate IsBestBid(quotes: seq<BboQuote>, health: seq<VenueHealth>, level: BestLevel)
    requires |quotes| == |health|
  {
    && (forall i :: 0 <= i < |quotes| && health[i] == Live ==> quotes[i].bidPrice <= level.price)
    && (forall v: VenueQuote :: v in level.venues <==>
          && level.price != 0 && v.slot < |quotes| && health[v.slot] == Live
          && quotes[v.slot].bidPrice == level.price && quotes[v.slot].bidQty == v.qty)
    && (level.price != 0 ==> level.venues != []) && SlotsOnce(level.venues)
    && level.totalQty == Wrap(SumOf(level.venues))
  }

  /** The least ask, 0 standing for no ask. */
  ghost predicate IsBestAsk(quotes: seq<BboQuote>, health: seq<VenueHealth>, level: BestLevel)
    requires |quotes| == |health|
  {
    && (forall i :: 0 <= i < |quotes| && health[i] == Live && quotes[i].askPrice != 0 ==>
          level.price != 0 && quotes[i].askPrice >= level.price)
    && (forall v: VenueQuote :: v in level.venues <==>
          && level.price != 0 && v.slot < |quotes| && health[v.slot] == Live
          && quotes[v.slot].askPrice == level.price && quotes[v.slot].askQty == v.qty)
    && (level.price != 0 ==> level.venues != []) && SlotsOnce(level.venues)
    && level.totalQty == Wrap(SumOf(level.venues))
  }

  ghost predicate SlotsOnce(venues: seq<VenueQuote>) {
    forall a, b :: 0 <= a < b < |venues| ==> venues[a].slot != venues[b].slot
  }

  lemma {:induction false} BestHasVenues(d: Side, tops: Tops, level: BestLevel)
    requires |tops| <= 8 && IsBest(d, tops, |tops|, level)
    ensures level.price != 0 ==> level.venues != []
    ensures SlotsOnce(level.venues) && level.totalQty == Wrap(SumOf(level.venues))
  {
    if level.price != 0 {
      var i :| 0 <= i < |tops| && tops[i].price == level.price;
      assert VenueQuote(i, tops[i].qty) in level.venues;
      SumIs(tops, |tops|, level.price, level.venues);
    } else {
      SomeListed(level.venues);
    }
  }

  lemma {:induction false} BestBidFromQuotes(quotes: seq<BboQuote>, health: seq<VenueHealth>, level: BestLevel)
    requires |quotes| == |health| <= 8
    ensures IsBest(Bid, TopsOf(Bid, quotes, health), |quotes|, level) <==> IsBestBid(quotes, health, level)
  {
    var tops := TopsOf(Bid, quotes, health);
    if IsBest(Bid, tops, |quotes|, level) {
      BestHasVenues(Bid, tops, level);
    }
    if IsBestBid(quotes, health, level) {
      BestFromVenues(Bid, tops, level);
    }
  }

  lemma {:induction false} BestAskFromQuotes(quotes: seq<BboQuote>, health: seq<VenueHealth>, level: BestLevel)
    requires |quotes| == |health| <= 8
    ensures IsBest(Ask, TopsOf(Ask, quotes, health), |quotes|, level) <==> IsBestAsk(quotes, health, level)
  {
    var tops := TopsOf(Ask, quotes, health);
    if IsBest(Ask, tops, |quotes|, level) {
      BestHasVenues(Ask, tops, level);
    }
    if IsBestAsk(quotes, health, level) {
      BestFromVenues(Ask, tops, level);
    }
  }

  lemma {:induction false} BestFromVenues(d: Side, tops: Tops, level: BestLevel)
    requires |tops| <= 8 && Attributes(tops, |tops|, level.price, level.venues)
    requires level.price != 0 ==> level.venues != []
    requires level.totalQty == Wrap(SumOf(level.venues))
    requires forall i :: 0 <= i < |tops| && tops[i].price != 0 ==>
               level.price != 0 && (tops[i].price == level.price || Better(d, level.price, tops[i].price))
    ensures IsBest(d, tops, |tops|, level)
  {
    if level.price != 0 {
      assert level.venues[0] in level.venues;
      SumIs(tops, |tops|, level.price, level.venues);
    } else {
      SomeListed(level.venues);
    }
  }

  /**
   What a BBO is, told by the fields of the stored quotes: the greatest bid and
   the least ask of the live slots, each with exactly the slots that quote it and
   the 64-bit sum of their quantities, crossed when the bid reaches the ask.
   */
  lemma {:induction false} BboFromQuotes(quotes: seq<BboQuote>, health: seq<VenueHealth>, bbo: BBO)
    requires |quotes| == |health| <= 8
    ensures IsBbo(quotes, health, bbo) <==>
              && IsBestBid(quotes, health, bbo.bestBid) && IsBestAsk(quotes, health, bbo.bestAsk)
              && (bbo.crossed <==>
                    bbo.bestBid.price != 0 && bbo.bestAsk.price != 0 && bbo.bestBid.price >= bbo.bestAsk.price)
  {
    hide IsBest, IsBestBid, IsBestAsk;
    BestBidFromQuotes(quotes, health, bbo.bestBid);
    BestAskFromQuotes(quotes, health, bbo.bestAsk);
  }

  method ComputeBBOFromQuotes(quotes: seq<BboQuote>, health: seq<VenueHealth>) returns (bbo: BBO)
    requires |quotes| == |health| <= 8
    ensures IsBbo(quotes, health, bbo)
  {
    var bid := ScanBest(Bid, quotes, health);
    var ask := ScanBest(Ask, quotes, health);
    bbo := BBO(bid, ask, IsCrossed(bid, ask));
  }

  lemma {:induction false} StoreTop(d: Side, before: seq<BboQuote>, quotes: seq<BboQuote>, health: seq<VenueHealth>,
      slot: Slot)
    requires slot < |before| == |quotes| == |health| && quotes == before[slot := quotes[slot]]
    ensures TopsOf(d, quotes, health) == TopsOf(d, before, health)[slot := Usable(d, quotes[slot], health[slot])]
  {
  }

  /**
   The incremental update agrees with a full scan: from the BBO of the quotes
   as they were, to the BBO of the quotes with this slot's new one stored.
   */
  method UpdateBBOWithQuote(current: BBO, slot: Slot, quotes: seq<BboQuote>, health: seq<VenueHealth>,
      ghost before: seq<BboQuote>)
    returns (bbo: BBO)
    requires slot < |before| == |quotes| == |health| <= 8 && quotes == before[slot := quotes[slot]]
    requires IsBbo(before, health, current)
    ensures IsBbo(quotes, health, bbo)
  {
    StoreTop(Bid, before, quotes, health, slot);
    StoreTop(Ask, before, quotes, health, slot);
    var bid := UpdateSide(Bid, current.bestBid, slot, quotes, health, TopsOf(Bid, before, health));
    var ask := UpdateSide(Ask, current.bestAsk, slot, quotes, health, TopsOf(Ask, before, health));
    bbo := BBO(bid, ask, IsCrossed(bid, ask));
  }
}
