/**
 Liquidity bands over one consolidated side (md_core/consolidated_book.cpp): how
 much a target notional buys, and what lies within a price band. Quantities wrap
 at 64 bits, notionals at 128, as the integer types do.
 */
module Bands {
  import opened Types
  import opened Arithmetic
  import opened Ordering
  import opened ConsolidatedBook

  /** Both prices and quantities carry eight decimals. */
  const SCALE: nat := 100_000_000

  function Wrap128(x: nat): nat {
    x % 0x1_0000_0000_0000_0000_0000_0000_0000_0000
  }

  function Wrap32(x: nat): u32 {
    x % 0x1_0000_0000
  }

  type SideOf = seq<MergedLevel>

  // ------------------------------------------------------------- exact totals --

  function Qty(side: SideOf, n: nat): nat
    requires n <= |side|
  {
    if n == 0 then 0 else Qty(side, n - 1) + side[n - 1].qty
  }

  function Cost(side: SideOf, n: nat): nat
    requires n <= |side|
  {
    if n == 0 then 0 else Cost(side, n - 1) + Times(side[n - 1].price, side[n - 1].qty)
  }

  /** A quantity at a price. */
  function Times(price: u64, qty: nat): nat {
    price * qty
  }

  /** Whole units a notional buys at a price. */
  function Units(cost: nat, price: u64): nat
    requires price > 0
  {
    cost / price
  }

  function Vwap(cost: nat, qty: u64): u64 {
    if qty != 0 then Wrap(cost / qty) else 0
  }

  lemma {:induction false} TimesGrows(p: u64, a: nat, b: nat)
    requires a <= b
    ensures Times(p, a) <= Times(p, b)
  {
  }

  lemma {:induction false} UnitsBound(cost: nat, p: u64, q: nat)
    requires p > 0 && cost <= Times(p, q)
    ensures Units(cost, p) <= q && Times(p, Units(cost, p)) <= cost < Times(p, Units(cost, p)) + p
  {
    Quotient(cost, p);
    if Units(cost, p) > q {
      TimesGrows(p, q + 1, Units(cost, p));
    }
  }

  /** The whole side fits the 128-bit notional. */
  predicate Fits(side: SideOf) {
    Cost(side, |side|) < 0x1_0000_0000_0000_0000_0000_0000_0000_0000
  }

  lemma {:induction false} CostGrows(side: SideOf, i: nat, j: nat)
    requires i <= j <= |side|
    ensures Cost(side, i) <= Cost(side, j) && Qty(side, i) <= Qty(side, j)
  {
    if i < j {
      CostGrows(side, i, j - 1);
    }
  }

  /** Within a fitting side the running notional never wraps. */
  lemma {:induction false} CostStep(side: SideOf, i: nat)
    requires i < |side| && Fits(side)
    ensures Wrap128(Cost(side, i) + Times(side[i].price, side[i].qty)) == Cost(side, i + 1)
    ensures Wrap(Wrap(Qty(side, i)) + side[i].qty) == Wrap(Qty(side, i + 1))
  {
    CostGrows(side, i + 1, |side|);
    WrapAdd(Qty(side, i), side[i].qty);
  }

  // ------------------------------------------------------------- notional bands --

  datatype NotionalFill = NotionalFill(
    vwap: u64,
    worstPrice: u64,
    filledQty: u64,
    filledNotional: u64,
    levelCount: u32,
    insufficientDepth: bool)

  const NO_FILL: NotionalFill := NotionalFill(0, 0, 0, 0, 0, false)

  /** The first level, from i on, whose running notional reaches the target; the depth of the side if none does. */
  function Crossing(side: SideOf, target: nat, i: nat): (r: nat)
    requires i <= |side|
    ensures i <= r <= |side|
    ensures forall j :: i < j <= r ==> Cost(side, j) < target
    ensures r < |side| ==> Cost(side, r + 1) >= target
    decreases |side| - i
  {
    if i == |side| || Cost(side, i + 1) >= target then i else Crossing(side, target, i + 1)
  }

  /** Levels before `level` taken whole, `part` units of that one. */
  datatype Sweep = Sweep(level: nat, part: nat)

  predicate Within(side: SideOf, s: Sweep) {
    s.level < |side| && s.part <= side[s.level].qty
  }

  function SweptQty(side: SideOf, s: Sweep): nat
    requires Within(side, s)
  {
    Qty(side, s.level) + s.part
  }

  function SweptCost(side: SideOf, s: Sweep): nat
    requires Within(side, s)
  {
    Cost(side, s.level) + Times(side[s.level].price, s.part)
  }

  /** What a positive target takes from a non-empty side: as many whole units as stay within it, or everything. */
  function SweepTo(side: SideOf, target: nat): (r: Sweep)
    requires side != [] && target > 0
    ensures Within(side, r)
    ensures SweptCost(side, r) <= target
    ensures Cost(side, |side|) >= target ==> target - SweptCost(side, r) < side[r.level].price
    ensures Cost(side, |side|) < target ==>
            SweptCost(side, r) == Cost(side, |side|) && SweptQty(side, r) == Qty(side, |side|)
  {
    var c := Crossing(side, target, 0);
    if c < |side| then
      CostGrows(side, c + 1, |side|);
      CrossingPrice(side, target, c);
      UnitsBound(target - Cost(side, c), side[c].price, side[c].qty);
      Sweep(c, Units(target - Cost(side, c), side[c].price))
    else Sweep(|side| - 1, side[|side| - 1].qty)
  }

  /** The level that reaches a target has a price: nothing is ever divided by zero. */
  lemma {:induction false} CrossingPrice(side: SideOf, target: nat, c: nat)
    requires c < |side| && Cost(side, c) < target <= Cost(side, c + 1)
    ensures side[c].price > 0
  {
  }

  /** A fill reports its sweep, in the caller's scale. */
  function Report(side: SideOf, s: Sweep, insufficient: bool): NotionalFill
    requires Within(side, s)
  {
    var qty, cost := Wrap(SweptQty(side, s)), SweptCost(side, s);
    NotionalFill(Vwap(cost, qty), side[s.level].price, qty, Wrap(cost / SCALE), Wrap32(s.level + 1), insufficient)
  }

  function FillOf(side: SideOf, target: u64): NotionalFill {
    if side == [] then NO_FILL.(insufficientDepth := target > 0)
    else if target == 0 then NO_FILL
    else Report(side, SweepTo(side, target * SCALE), Cost(side, |side|) < target * SCALE)
  }

  /** At the crossing level the remaining notional buys no more than is there, so the clamp never bites. */
  lemma {:induction false} CrossingSweep(side: SideOf, target: nat, c: nat)
    requires c < |side| && c == Crossing(side, target, 0) && Cost(side, c) < target <= Cost(side, c + 1)
    ensures side[c].price > 0
    ensures var part := Units(target - Cost(side, c), side[c].price);
            part <= side[c].qty && SweepTo(side, target) == Sweep(c, part)
  {
    CrossingPrice(side, target, c);
    hide Units;
    UnitsBound(target - Cost(side, c), side[c].price, side[c].qty);
  }

  method FillAtCrossing(side: SideOf, crossing: nat, qtyBefore: u64, filledBefore: nat, target: nat)
      returns (r: NotionalFill)
    requires Fits(side) && crossing < |side| && qtyBefore == Wrap(Qty(side, crossing))
             && filledBefore == Cost(side, crossing)
    requires Cost(side, crossing) < target <= Cost(side, crossing + 1) && crossing == Crossing(side, target, 0)
    ensures r == Report(side, SweepTo(side, target), false)
  {
    hide Times, Units, Vwap, Wrap, Wrap128, Wrap32, Crossing, Cost, Qty, SweepTo;
    CrossingSweep(side, target, crossing);
    var partial := Wrap(Units(target - filledBefore, side[crossing].price));
    WrapSmall(Units(target - filledBefore, side[crossing].price));
    var available := side[crossing].qty;
    if partial > available {
      partial := available;
    }
    PartialFits(side, crossing, partial);
    var filled := Wrap128(filledBefore + Times(side[crossing].price, partial));
    var qty := Wrap(qtyBefore + partial);
    WrapAdd(Qty(side, crossing), partial);
    r := NotionalFill(Vwap(filled, qty), side[crossing].price, qty, Wrap(filled / SCALE), Wrap32(crossing + 1), false);
  }

  lemma {:induction false} WrapSmall(x: nat)
    requires x < 0x1_0000_0000_0000_0000
    ensures Wrap(x) == x
  {
  }

  lemma {:induction false} ExhaustedSweep(side: SideOf, target: nat)
    requires side != [] && Cost(side, |side|) < target
    ensures SweepTo(side, target) == Sweep(|side| - 1, side[|side| - 1].qty)
  {
    var c := Crossing(side, target, 0);
    if c < |side| {
      CostGrows(side, c + 1, |side|);
    }
  }

  lemma {:induction false} WholeSide(side: SideOf)
    requires side != []
    ensures SweptCost(side, Sweep(|side| - 1, side[|side| - 1].qty)) == Cost(side, |side|)
    ensures SweptQty(side, Sweep(|side| - 1, side[|side| - 1].qty)) == Qty(side, |side|)
  {
  }

  lemma {:induction false} PartialFits(side: SideOf, c: nat, part: nat)
    requires Fits(side) && c < |side| && part <= side[c].qty
    ensures Wrap128(Cost(side, c) + Times(side[c].price, part)) == Cost(side, c) + Times(side[c].price, part)
  {
    hide Times;
    CostGrows(side, c + 1, |side|);
    TimesGrows(side[c].price, part, side[c].qty);
  }

  method FillExhausted(side: SideOf, cumQty: u64, cumNotional: nat) returns (r: NotionalFill)
    requires side != [] && cumQty == Wrap(Qty(side, |side|)) && cumNotional == Cost(side, |side|)
    ensures r == Report(side, Sweep(|side| - 1, side[|side| - 1].qty), true)
  {
    hide Vwap, Wrap, Wrap32, Times;
    WholeSide(side);
    r := NotionalFill(Vwap(cumNotional, cumQty), side[|side| - 1].price, cumQty, Wrap(cumNotional / SCALE),
                      Wrap32(|side|), true);
  }

  lemma {:induction false} CrossingSkips(side: SideOf, target: nat, a: nat, i: nat)
    requires a <= i <= |side| && (a < i ==> Cost(side, i) < target)
    ensures Crossing(side, target, a) == Crossing(side, target, i)
    decreases i - a
  {
    if a < i {
      CostGrows(side, a + 1, i);
      CrossingSkips(side, target, a + 1, i);
    }
  }

  /** Moves the walk on to the level that reaches the target, without consuming it. */
  method WalkTo(side: SideOf, target: nat, from: nat, qty: u64, cost: nat)
      returns (i: nat, cumQty: u64, cumNotional: nat)
    requires Fits(side) && from <= |side| && qty == Wrap(Qty(side, from)) && cost == Cost(side, from) < target
    ensures i == Crossing(side, target, 0) && cumQty == Wrap(Qty(side, i)) && cumNotional == Cost(side, i) < target
  {
    hide Times;
    CrossingSkips(side, target, 0, from);
    i, cumQty, cumNotional := from, qty, cost;
    while i < |side|
      invariant i <= |side| && cumQty == Wrap(Qty(side, i)) && cumNotional == Cost(side, i) < target
      invariant Crossing(side, target, 0) == Crossing(side, target, i)
    {
      CostStep(side, i);
      var next := Wrap128(cumNotional + Times(side[i].price, side[i].qty));
      if next >= target {
        return;
      }
      cumNotional := next;
      cumQty := Wrap(cumQty + side[i].qty);
      i := i + 1;
    }
  }

  /** One band at the point the walk has reached. */
  method FillHere(side: SideOf, target: u64, i: nat, cumQty: u64, cumNotional: nat) returns (r: NotionalFill)
    requires Fits(side) && side != [] && target > 0 && i == Crossing(side, target * SCALE, 0)
    requires cumQty == Wrap(Qty(side, i)) && cumNotional == Cost(side, i) < target * SCALE
    ensures r == FillOf(side, target)
  {
    hide Times, Vwap, Report, SweepTo;
    if i < |side| {
      r := FillAtCrossing(side, i, cumQty, cumNotional, target * SCALE);
      CostGrows(side, i + 1, |side|);
    } else {
      r := FillExhausted(side, cumQty, cumNotional);
      ExhaustedSweep(side, target * SCALE);
    }
  }

  method FillToNotional(side: SideOf, target: u64) returns (r: NotionalFill)
    requires Fits(side)
    ensures r == FillOf(side, target)
  {
    hide Times, Crossing, Report, SweepTo;
    if side == [] {
      return NO_FILL.(insufficientDepth := Wrap128(target * SCALE) > 0);
    }
    if target == 0 {
      return NO_FILL;
    }
    var i, cumQty, cumNotional := WalkTo(side, target * SCALE, 0, 0, 0);
    r := FillHere(side, target, i, cumQty, cumNotional);
  }

  ghost predicate Ascending(s: seq<int>) {
    forall i, j :: 0 <= i < j < |s| ==> s[i] <= s[j]
  }

  /** One walk for all targets gives what a walk of its own gives each of them. */
  method FillToNotionalBands(side: SideOf, targets: seq<u64>) returns (out: seq<NotionalFill>)
    requires Fits(side) && Ascending(targets)
    ensures |out| == |targets| && forall k :: 0 <= k < |targets| ==> out[k] == FillOf(side, targets[k])
  {
    hide Times, Crossing, Report, SweepTo;
    out := [];
    var i: nat, cumQty: u64, cumNotional: nat := 0, 0, 0;
    var k := 0;
    while k < |targets|
      invariant 0 <= k == |out| <= |targets|
      invariant i <= |side| && cumQty == Wrap(Qty(side, i)) && cumNotional == Cost(side, i)
      invariant i > 0 ==> k > 0 && Cost(side, i) < targets[k - 1] * SCALE
      invariant forall j :: 0 <= j < k ==> out[j] == FillOf(side, targets[j])
    {
      var target := targets[k];
      assert k > 0 ==> targets[k - 1] <= target;
      if side == [] {
        out := out + [NO_FILL.(insufficientDepth := Wrap128(target * SCALE) > 0)];
      } else if target == 0 {
        out := out + [NO_FILL];
      } else {
        i, cumQty, cumNotional := WalkTo(side, target * SCALE, i, cumQty, cumNotional);
        var r := FillHere(side, target, i, cumQty, cumNotional);
        out := out + [r];
      }
      k := k + 1;
    }
  }

  // ------------------------------------------------------- what a fill is worth --

  lemma {:induction false} TimesAdd(p: u64, a: nat, b: nat)
    ensures Times(p, a + b) == Times(p, a) + Times(p, b)
  {
  }

  lemma {:induction false} TimesPrice(p: u64, p': u64, q: nat)
    requires p <= p'
    ensures Times(p, q) <= Times(p', q)
  {
  }

  /** Prices no lower, or no higher, than p make a cost no lower, or no higher, than p per unit. */
  lemma {:induction false} CostAtLeast(side: SideOf, a: nat, n: nat, p: u64)
    requires a <= n <= |side| && forall i :: a <= i < n ==> side[i].price >= p
    ensures Qty(side, n) >= Qty(side, a) && Cost(side, n) - Cost(side, a) >= Times(p, Qty(side, n) - Qty(side, a))
  {
    if n > a {
      CostAtLeast(side, a, n - 1, p);
      hide Times;
      TimesPrice(p, side[n - 1].price, side[n - 1].qty);
      TimesAdd(p, Qty(side, n - 1) - Qty(side, a), side[n - 1].qty);
    }
  }

  lemma {:induction false} CostAtMost(side: SideOf, a: nat, n: nat, p: u64)
    requires a <= n <= |side| && forall i :: a <= i < n ==> side[i].price <= p
    ensures Qty(side, n) >= Qty(side, a) && Cost(side, n) - Cost(side, a) <= Times(p, Qty(side, n) - Qty(side, a))
  {
    if n > a {
      CostAtMost(side, a, n - 1, p);
      hide Times;
      TimesPrice(side[n - 1].price, p, side[n - 1].qty);
      TimesAdd(p, Qty(side, n - 1) - Qty(side, a), side[n - 1].qty);
    }
  }

  lemma {:induction false} InOrderAll(d: Side, side: SideOf, l: nat)
    requires BestFirst(d, PricesOf(side)) && l < |side|
    ensures forall i :: 0 <= i < l ==> Better(d, side[i].price, side[l].price)
    ensures forall i :: l < i < |side| ==> Better(d, side[l].price, side[i].price)
  {
    forall i | 0 <= i < l ensures Better(d, side[i].price, side[l].price) {
      InOrder(d, PricesOf(side), i, l);
    }
    forall i | l < i < |side| ensures Better(d, side[l].price, side[i].price) {
      InOrder(d, PricesOf(side), l, i);
    }
  }

  /** `cost` for `qty` units is, per unit, no better than `best` and no worse than `worst`. */
  predicate PricedWithin(d: Side, best: u64, worst: u64, cost: int, qty: nat) {
    if d.Bid? then Times(worst, qty) <= cost <= Times(best, qty) else Times(best, qty) <= cost <= Times(worst, qty)
  }

  lemma {:induction false} SegmentPriced(d: Side, side: SideOf, a: nat, n: nat, best: u64, worst: u64)
    requires a <= n <= |side|
    requires forall i :: a <= i < n ==> !Better(d, side[i].price, best) && !Better(d, worst, side[i].price)
    ensures Qty(side, n) >= Qty(side, a)
            && PricedWithin(d, best, worst, Cost(side, n) - Cost(side, a), Qty(side, n) - Qty(side, a))
  {
    hide Times;
    if d.Bid? {
      CostAtLeast(side, a, n, worst);
      CostAtMost(side, a, n, best);
    } else {
      CostAtLeast(side, a, n, best);
      CostAtMost(side, a, n, worst);
    }
  }

  lemma {:induction false} UnitsPriced(d: Side, p: u64, best: u64, worst: u64, q: nat)
    requires !Better(d, p, best) && !Better(d, worst, p)
    ensures PricedWithin(d, best, worst, Times(p, q), q)
  {
    if d.Bid? {
      TimesPrice(worst, p, q);
      TimesPrice(p, best, q);
    } else {
      TimesPrice(best, p, q);
      TimesPrice(p, worst, q);
    }
  }

  lemma {:induction false} PricedAdd(d: Side, best: u64, worst: u64, c: int, q: nat, c': int, q': nat)
    requires PricedWithin(d, best, worst, c, q) && PricedWithin(d, best, worst, c', q')
    ensures PricedWithin(d, best, worst, c + c', q + q')
  {
    hide Times;
    TimesAdd(best, q, q');
    TimesAdd(worst, q, q');
  }

  /** A sweep costs per unit something between the best price and the last one touched. */
  lemma {:induction false} SweepPriced(d: Side, side: SideOf, s: Sweep)
    requires BestFirst(d, PricesOf(side)) && Within(side, s)
    ensures PricedWithin(d, side[0].price, side[s.level].price, SweptCost(side, s), SweptQty(side, s))
  {
    hide PricedWithin, Times;
    InOrderAll(d, side, s.level);
    InOrderAll(d, side, 0);
    SegmentPriced(d, side, 0, s.level, side[0].price, side[s.level].price);
    UnitsPriced(d, side[s.level].price, side[0].price, side[s.level].price, s.part);
    PricedAdd(d, side[0].price, side[s.level].price, Cost(side, s.level), Qty(side, s.level),
        Times(side[s.level].price, s.part), s.part);
  }

  lemma {:induction false} QuotientWithin(d: Side, best: u64, worst: u64, cost: nat, qty: nat)
    requires qty > 0 && PricedWithin(d, best, worst, cost, qty)
    ensures cost / qty < 0x1_0000_0000_0000_0000
    ensures !Better(d, cost / qty, best) && !Better(d, worst, cost / qty)
  {
    var lo, hi := if d.Bid? then worst else best, if d.Bid? then best else worst;
    Quotient(cost, qty);
    QuotientAtLeast(cost, qty, lo);
    QuotientAtMost(cost, qty, hi);
  }

  /**
   What is reported of a sweep whose totals fit is exact, and its average lies
   between the best price and the last one touched.
   */
  lemma {:induction false} ReportExact(d: Side, side: SideOf, s: Sweep, insufficient: bool)
    requires BestFirst(d, PricesOf(side)) && Within(side, s) && SweptQty(side, s) < 0x1_0000_0000_0000_0000
    ensures var f := Report(side, s, insufficient);
            && f.filledQty == SweptQty(side, s)
            && (f.filledQty > 0 ==>
                  && f.vwap == SweptCost(side, s) / f.filledQty
                  && !Better(d, f.vwap, side[0].price) && !Better(d, f.worstPrice, f.vwap))
  {
    hide Times, PricedWithin, Cost, Qty, SweptCost, SweptQty, Wrap, Wrap32;
    SweepPriced(d, side, s);
    WrapSmall(SweptQty(side, s));
    if SweptQty(side, s) > 0 {
      QuotientWithin(d, side[0].price, side[s.level].price, SweptCost(side, s), SweptQty(side, s));
      WrapSmall(SweptCost(side, s) / SweptQty(side, s));
    }
  }

  /** The notional of a fill never leaves 64 bits: it is at most the target. */
  lemma {:induction false} NotionalFits(cost: nat, target: u64)
    requires cost <= target * SCALE
    ensures Wrap(cost / SCALE) == cost / SCALE <= target
  {
  }

  /**
   A fill never exceeds its target and, when the side suffices, stops less than
   one unit short of it. Its quantity is taken at 64 bits; as long as that cuts
   nothing off, the average lies between the best price and the worst touched.
   */
  lemma {:induction false} FillBounds(d: Side, side: SideOf, target: u64)
    requires BestFirst(d, PricesOf(side)) && side != [] && target > 0
    ensures var f, s := FillOf(side, target), SweepTo(side, target * SCALE);
            && f.filledQty == Wrap(SweptQty(side, s)) && f.filledNotional == SweptCost(side, s) / SCALE <= target
            && f.worstPrice == side[s.level].price
            && (f.insufficientDepth <==> Cost(side, |side|) < target * SCALE)
            && (!f.insufficientDepth ==> 0 <= target * SCALE - SweptCost(side, s) < f.worstPrice)
            && (f.insufficientDepth ==> f.filledQty == Wrap(Qty(side, |side|)))
            && (0 < SweptQty(side, s) < 0x1_0000_0000_0000_0000 ==>
                  && f.vwap == SweptCost(side, s) / SweptQty(side, s)
                  && !Better(d, f.vwap, side[0].price) && !Better(d, f.worstPrice, f.vwap))
  {
    var s, insufficient := SweepTo(side, target * SCALE), Cost(side, |side|) < target * SCALE;
    assert Within(side, s) && SweptCost(side, s) <= target * SCALE;
    hide Cost, Qty, SweptCost, SweptQty, SweepTo, Vwap, Wrap, Wrap32;
    NotionalFits(SweptCost(side, s), target);
    if SweptQty(side, s) < 0x1_0000_0000_0000_0000 {
      WrapSmall(SweptQty(side, s));
      ReportExact(d, side, s, insufficient);
    }
  }

  // ------------------------------------------------------------ growing targets --

  /** The second sweep takes everything the first one does. */
  predicate Extends(s: Sweep, s': Sweep) {
    s.level < s'.level || (s.level == s'.level && s.part <= s'.part)
  }

  lemma {:induction false} UnitsGrow(a: nat, b: nat, p: u64)
    requires p > 0 && a <= b
    ensures Units(a, p) <= Units(b, p)
  {
    QuotientGrows(a, b, p);
  }

  lemma {:induction false} CrossingGrows(side: SideOf, t: nat, t': nat, i: nat)
    requires t <= t' && i <= |side|
    ensures Crossing(side, t, i) <= Crossing(side, t', i)
    decreases |side| - i
  {
    if i < |side| {
      CrossingGrows(side, t, t', i + 1);
    }
  }

  lemma {:induction false} SweepGrows(side: SideOf, t: nat, t': nat)
    requires side != [] && 0 < t <= t'
    ensures Extends(SweepTo(side, t), SweepTo(side, t'))
  {
    hide Units, Times;
    CrossingGrows(side, t, t', 0);
    var c := Crossing(side, t, 0);
    if c < |side| && c == Crossing(side, t', 0) {
      CrossingPrice(side, t, c);
      UnitsGrow(t - Cost(side, c), t' - Cost(side, c), side[c].price);
    }
  }

  /** What an extension adds is priced no better than the last level of what it extends. */
  lemma {:induction false} ExtensionPriced(d: Side, side: SideOf, s: Sweep, s': Sweep)
    requires BestFirst(d, PricesOf(side)) && Within(side, s) && Within(side, s') && Extends(s, s')
    ensures SweptQty(side, s') >= SweptQty(side, s)
    ensures PricedWithin(d, side[s.level].price, side[s'.level].price, SweptCost(side, s') - SweptCost(side, s),
                         SweptQty(side, s') - SweptQty(side, s))
  {
    hide Times, PricedWithin;
    var p, p' := side[s.level].price, side[s'.level].price;
    if s.level == s'.level {
      UnitsPriced(d, p, p, p, s'.part - s.part);
      TimesAdd(p, s.part, s'.part - s.part);
    } else {
      var rest := side[s.level].qty - s.part;
      InOrderAll(d, side, s.level);
      InOrderAll(d, side, s'.level);
      TimesAdd(p, s.part, rest);
      UnitsPriced(d, p, p, p', rest);
      SegmentPriced(d, side, s.level + 1, s'.level, p, p');
      UnitsPriced(d, p', p, p', s'.part);
      var c, q := Cost(side, s'.level) - Cost(side, s.level + 1), Qty(side, s'.level) - Qty(side, s.level + 1);
      PricedAdd(d, p, p', Times(p, rest), rest, c, q);
      PricedAdd(d, p, p', Times(p, rest) + c, rest + q, Times(p', s'.part), s'.part);
    }
  }

  /** Adding units at prices no better than p to something averaging no worse than p cannot improve the average. */
  lemma {:induction false} AverageWorsens(p: nat, c: nat, q: nat, dc: nat, dq: nat)
    requires q > 0
    ensures c >= p * q && dc <= p * dq ==> (c + dc) / (q + dq) <= c / q
    ensures c <= p * q && dc >= p * dq ==> (c + dc) / (q + dq) >= c / q
  {
    assert (c + dc) * q == c * q + dc * q && c * (q + dq) == c * q + c * dq;
    assert (p * q) * dq == (p * dq) * q;
    if c >= p * q && dc <= p * dq {
      Scaled(p * q, c, dq);
      Scaled(dc, p * dq, q);
      QuotientsOrdered(c + dc, q + dq, c, q);
    }
    if c <= p * q && dc >= p * dq {
      Scaled(c, p * q, dq);
      Scaled(p * dq, dc, q);
      QuotientsOrdered(c, q, c + dc, q + dq);
    }
  }

  /** Reports of a sweep and of one that extends it. */
  lemma {:induction false} ExtensionWorsens(d: Side, side: SideOf, s: Sweep, s': Sweep)
    requires BestFirst(d, PricesOf(side)) && Within(side, s) && Within(side, s') && Extends(s, s')
             && SweptQty(side, s) > 0
    ensures SweptQty(side, s) <= SweptQty(side, s') && SweptCost(side, s) <= SweptCost(side, s')
    ensures var average, average' := SweptCost(side, s) / SweptQty(side, s), SweptCost(side, s') / SweptQty(side, s');
            if d.Bid? then average' <= average else average' >= average
  {
    hide SweptCost, SweptQty;
    var p := side[s.level].price;
    var c, q := SweptCost(side, s), SweptQty(side, s);
    SweepPriced(d, side, s);
    ExtensionPriced(d, side, s, s');
    var dc, dq := SweptCost(side, s') - c, SweptQty(side, s') - q;
    AverageWorsens(p, c, q, dc, dq);
  }

  /**
   A larger target fills at least as much, at an average price that never comes
   back towards the top, as long as its quantity fits 64 bits.
   */
  lemma {:induction false} FillMonotone(d: Side, side: SideOf, target: u64, target': u64)
    requires BestFirst(d, PricesOf(side)) && side != [] && 0 < target <= target'
    ensures var f, f' := FillOf(side, target), FillOf(side, target');
            && f.filledNotional <= f'.filledNotional && !Better(d, f'.worstPrice, f.worstPrice)
            && (f.insufficientDepth ==> f'.insufficientDepth)
            && (SweptQty(side, SweepTo(side, target' * SCALE)) < 0x1_0000_0000_0000_0000 ==>
                  f.filledQty <= f'.filledQty && (f.filledQty > 0 ==> !Better(d, f'.vwap, f.vwap)))
  {
    hide Report, Cost, Qty, SweptCost, SweptQty, SweepTo, FillOf;
    var s, s' := SweepTo(side, target * SCALE), SweepTo(side, target' * SCALE);
    FillBounds(d, side, target);
    FillBounds(d, side, target');
    SweepGrows(side, target * SCALE, target' * SCALE);
    ExtensionPriced(d, side, s, s');
    ExtensionCosts(side, s, s');
    TenMillionths(SweptCost(side, s), SweptCost(side, s'));
    InOrderAll(d, side, s.level);
    if SweptQty(side, s') < 0x1_0000_0000_0000_0000 {
      WrapSmall(SweptQty(side, s));
      WrapSmall(SweptQty(side, s'));
      if SweptQty(side, s) > 0 {
        ExtensionWorsens(d, side, s, s');
      }
    }
  }

  lemma {:induction false} ExtensionCosts(side: SideOf, s: Sweep, s': Sweep)
    requires Within(side, s) && Within(side, s') && Extends(s, s')
    ensures SweptCost(side, s) <= SweptCost(side, s')
  {
    hide Times;
    if s.level == s'.level {
      TimesGrows(side[s.level].price, s.part, s'.part);
    } else {
      TimesGrows(side[s.level].price, s.part, side[s.level].qty);
      CostGrows(side, s.level + 1, s'.level);
    }
  }

  lemma {:induction false} TenMillionths(a: nat, b: nat)
    requires a <= b
    ensures a / SCALE <= b / SCALE
  {
  }

  // -------------------------------------------------------------------- bps bands --

  datatype BpsFill = BpsFill(
    vwap: u64,
    limitPrice: u64,
    cumQty: u64,
    cumNotional: u64,
    levelCount: u32,
    insufficientDepth: bool)

  /** Ten-thousandths of the top price at the band's edge; the ask sum is taken in 32 bits. */
  function Factor(d: Side, bps: u32): u32 {
    if d.Bid? then 10000 - (if bps > 10000 then 10000 else bps) else Wrap32(10000 + bps)
  }

  function Limit(d: Side, top: u64, bps: u32): u64 {
    Wrap(Times(top, Factor(d, bps)) / 10000)
  }

  predicate Inside(d: Side, price: u64, limit: u64) {
    if d.Bid? then price >= limit else price <= limit
  }

  /** Totals over all levels inside a limit, wherever they stand. */
  function InsideCount(d: Side, side: SideOf, limit: u64, n: nat): nat
    requires n <= |side|
  {
    if n == 0 then 0 else InsideCount(d, side, limit, n - 1) + (if Inside(d, side[n - 1].price, limit) then 1 else 0)
  }

  function InsideQty(d: Side, side: SideOf, limit: u64, n: nat): nat
    requires n <= |side|
  {
    if n == 0 then 0
    else InsideQty(d, side, limit, n - 1) + (if Inside(d, side[n - 1].price, limit) then side[n - 1].qty else 0)
  }

  function InsideCost(d: Side, side: SideOf, limit: u64, n: nat): nat
    requires n <= |side|
  {
    if n == 0 then 0
    else
      var own := if Inside(d, side[n - 1].price, limit) then Times(side[n - 1].price, side[n - 1].qty) else 0;
      InsideCost(d, side, limit, n - 1) + own
  }

  /** What lies within a band: the totals of every level inside its limit. */
  function BandOf(d: Side, side: SideOf, bps: u32): BpsFill {
    if side == [] then BpsFill(0, 0, 0, 0, 0, false)
    else
      var limit := Limit(d, side[0].price, bps);
      var qty, cost := Wrap(InsideQty(d, side, limit, |side|)), InsideCost(d, side, limit, |side|);
      var count := InsideCount(d, side, limit, |side|);
      BpsFill(Vwap(cost, qty), limit, qty, Wrap(cost / SCALE), Wrap32(count), count == |side|)
  }

  /** Levels before i inside, level i outside: on an ordered side the totals are those of the first i levels. */
  ghost predicate Boundary(d: Side, side: SideOf, limit: u64, i: nat) {
    && i <= |side| && (forall j :: 0 <= j < i ==> Inside(d, side[j].price, limit))
    && (i < |side| ==> !Inside(d, side[i].price, limit))
  }

  lemma {:induction false} BoundaryTotals(d: Side, side: SideOf, limit: u64, i: nat, n: nat)
    requires BestFirst(d, PricesOf(side)) && Boundary(d, side, limit, i) && n <= |side|
    ensures var m := if n < i then n else i;
            && InsideCount(d, side, limit, n) == m && InsideQty(d, side, limit, n) == Qty(side, m)
            && InsideCost(d, side, limit, n) == Cost(side, m)
  {
    hide Times;
    if n > 0 {
      BoundaryTotals(d, side, limit, i, n - 1);
      InOrder(d, PricesOf(side), i, n - 1);
    }
  }

  /** Where the levels inside a limit end, looking from level i on. */
  function Edge(d: Side, side: SideOf, limit: u64, i: nat): (r: nat)
    requires i <= |side|
    ensures i <= r <= |side| && (forall j :: i <= j < r ==> Inside(d, side[j].price, limit))
    ensures r < |side| ==> !Inside(d, side[r].price, limit)
    decreases |side| - i
  {
    if i == |side| || !Inside(d, side[i].price, limit) then i else Edge(d, side, limit, i + 1)
  }

  /** On an ordered side the walk on from any level ends at the count of levels inside, or stays. */
  lemma {:induction false} EdgeIs(d: Side, side: SideOf, limit: u64, from: nat)
    requires BestFirst(d, PricesOf(side)) && from <= |side|
    ensures InsideCount(d, side, limit, |side|) <= |side|
    ensures Edge(d, side, limit, from) ==
              if from < InsideCount(d, side, limit, |side|) then InsideCount(d, side, limit, |side|) else from
  {
    hide InsideCount;
    var c, r := Edge(d, side, limit, 0), Edge(d, side, limit, from);
    BoundaryTotals(d, side, limit, c, |side|);
    if c < from < |side| {
      InOrder(d, PricesOf(side), c, from);
    }
  }

  /** Moves the walk on over the levels inside the limit. */
  method WalkInside(d: Side, side: SideOf, limit: u64, from: nat, qty: u64, cost: nat)
    returns (i: nat, cumQty: u64, cumNotional: nat)
    requires Fits(side) && from <= |side| && qty == Wrap(Qty(side, from)) && cost == Cost(side, from)
    ensures i == Edge(d, side, limit, from) && cumQty == Wrap(Qty(side, i)) && cumNotional == Cost(side, i)
  {
    hide Times;
    i, cumQty, cumNotional := from, qty, cost;
    while i < |side| && Inside(d, side[i].price, limit)
      invariant i <= |side| && cumQty == Wrap(Qty(side, i)) && cumNotional == Cost(side, i)
      invariant Edge(d, side, limit, from) == Edge(d, side, limit, i)
    {
      CostStep(side, i);
      cumQty := Wrap(cumQty + side[i].qty);
      cumNotional := Wrap128(cumNotional + Times(side[i].price, side[i].qty));
      i := i + 1;
    }
  }

  /** The report of a walk that has passed the first i levels. */
  function BandAt(side: SideOf, limit: u64, i: nat): BpsFill
    requires i <= |side|
  {
    var qty, cost := Wrap(Qty(side, i)), Cost(side, i);
    BpsFill(Vwap(cost, qty), limit, qty, Wrap(cost / SCALE), Wrap32(i), i == |side|)
  }

  method BandHere(side: SideOf, limit: u64, i: nat, cumQty: u64, cumNotional: nat) returns (r: BpsFill)
    requires i <= |side| && cumQty == Wrap(Qty(side, i)) && cumNotional == Cost(side, i)
    ensures r == BandAt(side, limit, i)
  {
    hide Times, Vwap, Wrap32;
    r := BpsFill(0, limit, 0, 0, 0, i == |side|);
    if i > 0 {
      r := BpsFill(Vwap(cumNotional, cumQty), limit, cumQty, Wrap(cumNotional / SCALE), Wrap32(i), i == |side|);
    } else {
      NothingInside();
    }
  }

  lemma {:induction false} NothingInside()
    ensures Vwap(0, 0) == 0 && Wrap32(0) == 0 && Wrap(0) == 0
  {
  }

  /** How many levels lie inside a band. */
  function Reach(d: Side, side: SideOf, bps: u32): nat
    requires side != []
  {
    InsideCount(d, side, Limit(d, side[0].price, bps), |side|)
  }

  /** A walk of its own takes exactly the levels inside the band. */
  lemma {:induction false} BandIs(d: Side, side: SideOf, bps: u32)
    requires BestFirst(d, PricesOf(side)) && side != []
    ensures Reach(d, side, bps) <= |side|
    ensures BandOf(d, side, bps) == BandAt(side, Limit(d, side[0].price, bps), Reach(d, side, bps))
  {
    hide Limit, Vwap, Wrap, Wrap32, Times;
    var limit := Limit(d, side[0].price, bps);
    BoundaryTotals(d, side, limit, Edge(d, side, limit, 0), |side|);
  }

  method FillToBps(d: Side, side: SideOf, bps: u32) returns (r: BpsFill)
    requires BestFirst(d, PricesOf(side)) && Fits(side)
    ensures r == BandOf(d, side, bps)
  {
    if side == [] {
      return BpsFill(0, 0, 0, 0, 0, false);
    }
    hide Times, Limit, BandOf, BandAt, Edge;
    var limit := Limit(d, side[0].price, bps);
    var i, cumQty, cumNotional := WalkInside(d, side, limit, 0, 0, 0);
    r := BandHere(side, limit, i, cumQty, cumNotional);
    EdgeIs(d, side, limit, 0);
    BandIs(d, side, bps);
  }

  /** The edge of an ask band fits its types. */
  predicate EdgeFits(d: Side, top: u64, bps: u32) {
    d.Bid? || (10000 + bps < 0x1_0000_0000 && Times(top, 10000 + bps) / 10000 < 0x1_0000_0000_0000_0000)
  }

  /** Within its types the edge is the exact quotient. */
  lemma {:induction false} EdgeExact(d: Side, top: u64, bps: u32)
    requires EdgeFits(d, top, bps)
    ensures Limit(d, top, bps) == Times(top, Factor(d, bps)) / 10000
    ensures d.Ask? ==> Factor(d, bps) == 10000 + bps
  {
    if d.Bid? {
      LimitBelowTop(top, bps);
    }
  }

  lemma {:induction false} TenThousandths(a: nat, b: nat)
    requires a <= b
    ensures a / 10000 <= b / 10000
  {
  }

  /** Wider bands include narrower ones. */
  lemma {:induction false} BandsNest(d: Side, top: u64, bps: u32, bps': u32, price: u64)
    requires bps <= bps' && EdgeFits(d, top, bps) && EdgeFits(d, top, bps') && Inside(d, price, Limit(d, top, bps))
    ensures Inside(d, price, Limit(d, top, bps'))
  {
    hide Times, EdgeFits, Limit;
    EdgeExact(d, top, bps);
    EdgeExact(d, top, bps');
    var f, f' := Factor(d, bps), Factor(d, bps');
    if d.Bid? {
      TimesGrows(top, f', f);
      TenThousandths(Times(top, f'), Times(top, f));
    } else {
      TimesGrows(top, f, f');
      TenThousandths(Times(top, f), Times(top, f'));
    }
  }

  lemma {:induction false} LimitBelowTop(top: u64, bps: u32)
    ensures Limit(Bid, top, bps) == Times(top, Factor(Bid, bps)) / 10000 <= top
  {
    var f := Factor(Bid, bps);
    TimesGrows(top, f, 10000);
    assert Times(top, 10000) == 10000 * top;
    hide Times;
    assert Times(top, f) / 10000 <= top;
  }

  /** How far the shared walk has come after the first k bands. */
  function Reached(d: Side, side: SideOf, bands: seq<u32>, k: nat): (r: nat)
    requires side != [] && k <= |bands|
  {
    if k == 0 then 0
    else
      var here := Reach(d, side, bands[k - 1]);
      if here > Reached(d, side, bands, k - 1) then here else Reached(d, side, bands, k - 1)
  }

  /**
   One walk for all bands, whatever they are: it never goes back, so each band is
   reported with the levels of the widest one so far.
   */
  method FillToBpsBands(d: Side, side: SideOf, bands: seq<u32>) returns (out: seq<BpsFill>)
    requires BestFirst(d, PricesOf(side)) && Fits(side)
    ensures |out| == |bands|
    ensures side == [] ==> forall k :: 0 <= k < |bands| ==> out[k] == BandOf(d, side, bands[k])
    ensures side != [] ==> forall k :: 0 <= k < |bands| ==> ReportedAt(d, side, bands, k, out[k])
  {
    if side == [] {
      return seq(|bands|, _ => BpsFill(0, 0, 0, 0, 0, false));
    }
    ReachedNone(d, side, bands);
    hide Times, Limit, BandAt, Edge, Reached, Qty, Cost, Wrap, BandOf, BestFirst, Fits;
    out := [];
    var i: nat, cumQty: u64, cumNotional: nat := 0, 0, 0;
    var k := 0;
    while k < |bands|
      invariant 0 <= k == |out| <= |bands|
      invariant i == Reached(d, side, bands, k) <= |side| && cumQty == Wrap(Qty(side, i))
                && cumNotional == Cost(side, i)
      invariant forall j :: 0 <= j < k ==> ReportedAt(d, side, bands, j, out[j])
    {
      var limit := Limit(d, side[0].price, bands[k]);
      ReachedStep(d, side, bands, k);
      i, cumQty, cumNotional := WalkInside(d, side, limit, i, cumQty, cumNotional);
      var r := BandHere(side, limit, i, cumQty, cumNotional);
      assert ReportedAt(d, side, bands, k, r);
      out := out + [r];
      k := k + 1;
    }
  }

  lemma {:induction false} ReachedNone(d: Side, side: SideOf, bands: seq<u32>)
    requires side != []
    ensures Reached(d, side, bands, 0) == 0 && Qty(side, 0) == 0 && Cost(side, 0) == 0 && Wrap(0) == 0
  {
  }

  /** Each band takes the walk to the widest reach so far. */
  lemma {:induction false} ReachedStep(d: Side, side: SideOf, bands: seq<u32>, k: nat)
    requires BestFirst(d, PricesOf(side)) && side != [] && k < |bands| && Reached(d, side, bands, k) <= |side|
    ensures Reached(d, side, bands, k + 1) <= |side|
    ensures Edge(d, side, Limit(d, side[0].price, bands[k]), Reached(d, side, bands, k))
            == Reached(d, side, bands, k + 1)
  {
    hide Limit, InsideCount, Edge;
    EdgeIs(d, side, Limit(d, side[0].price, bands[k]), Reached(d, side, bands, k));
  }

  ghost predicate ReportedAt(d: Side, side: SideOf, bands: seq<u32>, k: nat, r: BpsFill)
    requires side != [] && k < |bands|
  {
    Reached(d, side, bands, k + 1) <= |side|
    && r == BandAt(side, Limit(d, side[0].price, bands[k]), Reached(d, side, bands, k + 1))
  }

  /** No band holds fewer levels than one before it. */
  ghost predicate Widening(d: Side, side: SideOf, bands: seq<u32>)
    requires side != []
  {
    forall j, k :: 0 <= j < k < |bands| ==> Reach(d, side, bands[j]) <= Reach(d, side, bands[k])
  }

  lemma {:induction false} ReachedCovers(d: Side, side: SideOf, bands: seq<u32>, n: nat)
    requires side != [] && n <= |bands|
    ensures forall j :: 0 <= j < n ==> Reach(d, side, bands[j]) <= Reached(d, side, bands, n)
    ensures n > 0 ==> exists j :: 0 <= j < n && Reach(d, side, bands[j]) == Reached(d, side, bands, n)
  {
    if n > 0 {
      ReachedCovers(d, side, bands, n - 1);
    }
  }

  /** The shared walk gives every band what a walk of its own gives it exactly when the bands widen. */
  lemma {:induction false} BandsAgreeIff(d: Side, side: SideOf, bands: seq<u32>, out: seq<BpsFill>)
    requires BestFirst(d, PricesOf(side)) && 0 < |side| < 0x1_0000_0000 && |out| == |bands|
    requires forall k :: 0 <= k < |bands| ==> ReportedAt(d, side, bands, k, out[k])
    ensures (forall k :: 0 <= k < |bands| ==> out[k] == BandOf(d, side, bands[k])) <==> Widening(d, side, bands)
  {
    hide Limit, Reach, Reached, BandOf, BandAt, BestFirst;
    forall k | 0 <= k < |bands|
      ensures out[k] == BandOf(d, side, bands[k]) <==> Reach(d, side, bands[k]) == Reached(d, side, bands, k + 1) {
      assert ReportedAt(d, side, bands, k, out[k]);
      BandIs(d, side, bands[k]);
      ReportsDiffer(side, Limit(d, side[0].price, bands[k]), Reach(d, side, bands[k]), Reached(d, side, bands, k + 1));
    }
    forall k | 0 <= k < |bands|
      ensures Reach(d, side, bands[k]) == Reached(d, side, bands, k + 1)
              <==> forall j :: 0 <= j < k ==> Reach(d, side, bands[j]) <= Reach(d, side, bands[k]) {
      ReachedCovers(d, side, bands, k + 1);
    }
  }

  lemma {:induction false} ReportsDiffer(side: SideOf, limit: u64, a: nat, b: nat)
    requires a <= |side| && b <= |side| < 0x1_0000_0000
    ensures BandAt(side, limit, a) == BandAt(side, limit, b) <==> a == b
  {
    hide Qty, Cost, Vwap, Wrap;
    assert BandAt(side, limit, a).levelCount == a && BandAt(side, limit, b).levelCount == b;
  }

  /** Ascending bands widen, as long as their edges fit the integer types. */
  lemma {:induction false} AscendingWidens(d: Side, side: SideOf, bands: seq<u32>)
    requires side != [] && Ascending(bands) && forall k :: 0 <= k < |bands| ==> EdgeFits(d, side[0].price, bands[k])
    ensures Widening(d, side, bands)
  {
    forall j, k | 0 <= j < k < |bands| ensures Reach(d, side, bands[j]) <= Reach(d, side, bands[k]) {
      MoreInside(d, side, bands[j], bands[k], |side|);
    }
  }

  lemma {:induction false} MoreInside(d: Side, side: SideOf, bps: u32, bps': u32, n: nat)
    requires n <= |side| && side != [] && bps <= bps'
    requires EdgeFits(d, side[0].price, bps) && EdgeFits(d, side[0].price, bps')
    ensures InsideCount(d, side, Limit(d, side[0].price, bps), n) <= InsideCount(d, side,
            Limit(d, side[0].price, bps'), n)
  {
    hide EdgeFits, Limit;
    if n > 0 {
      MoreInside(d, side, bps, bps', n - 1);
      if Inside(d, side[n - 1].price, Limit(d, side[0].price, bps)) {
        BandsNest(d, side[0].price, bps, bps', side[n - 1].price);
      }
    }
  }

  /** Where an ask band ends before the cast to 64 bits. */
  function AskEdge(top: u64, bps: u32): nat {
    Times(top, 10000 + bps) / 10000
  }

  /**
   The top level is inside every bid band. It is inside an ask band exactly when
   the 32-bit sum does not wrap, unless the edge needs more than 64 bits; then
   what the cast leaves of it decides.
   */
  lemma {:induction false} TopInsideIff(d: Side, top: u64, bps: u32)
    requires top > 0
    ensures Inside(d, top, Limit(d, top, bps)) <==>
              || d.Bid?
              || (10000 + bps < 0x1_0000_0000
                  && (AskEdge(top, bps) < 0x1_0000_0000_0000_0000 || Wrap(AskEdge(top, bps)) >= top))
  {
    if d.Bid? {
      LimitBelowTop(top, bps);
    } else if 10000 + bps < 0x1_0000_0000 {
      AskLimitAtLeast(top, 10000 + bps);
    } else {
      AskLimitBelow(top, Factor(d, bps));
    }
  }

  lemma {:induction false} AskLimitAtLeast(top: u64, f: nat)
    requires f >= 10000
    ensures Times(top, f) / 10000 >= top
  {
    TimesGrows(top, 10000, f);
    assert Times(top, 10000) == 10000 * top;
    hide Times;
    assert Times(top, f) / 10000 >= top;
  }

  lemma {:induction false} AskLimitBelow(top: u64, f: u32)
    requires f < 10000 && top > 0
    ensures Wrap(Times(top, f) / 10000) < top
  {
    TimesGrows(top, f, 9999);
    assert Times(top, 9999) == 9999 * top;
    hide Times;
    assert Times(top, f) / 10000 < top;
  }

  /** The widest ask band of all holds nothing, not even the top level. */
  lemma {:induction false} WidestAskBandIsEmpty()
    ensures var side := [MergedLevel(100, [], 1)]; BandOf(Ask, side, 0xFFFF_FFFF).levelCount == 0
  {
    var side := [MergedLevel(100, [], 1)];
    assert Limit(Ask, 100, 0xFFFF_FFFF) == 99;
    assert InsideCount(Ask, side, 99, 1) == 0;
  }

  // ------------------------------------------------------ the same from the levels --

  /**
   Where a band ends: a bid band at the share of the top price its width leaves, an
   ask band that much above the top as long as the integer types hold it, each
   rounded down to a whole price; a bid band of the whole price or more at zero.
   */
  predicate EndsAt(d: Side, top: u64, bps: u32, edge: u64) {
    match d
    case Bid => if bps <= 10000 then edge * 10000 <= top * (10000 - bps) < (edge + 1) * 10000 else edge == 0
    case Ask =>
      10000 + bps < 0x1_0000_0000 && top * (10000 + bps) / 10000 < 0x1_0000_0000_0000_0000 ==>
        edge * 10000 <= top * (10000 + bps) < (edge + 1) * 10000
  }

  lemma {:induction false} LimitEndsBand(d: Side, top: u64, bps: u32)
    ensures EndsAt(d, top, bps, Limit(d, top, bps))
  {
    match d
    case Bid =>
      LimitBelowTop(top, bps);
      if bps <= 10000 {
        assert Times(top, 10000 - bps) == top * (10000 - bps);
      } else {
        assert Times(top, 0) == 0;
      }
    case Ask =>
      assert Times(top, 10000 + bps) == top * (10000 + bps);
      if EdgeFits(Ask, top, bps) {
        EdgeExact(Ask, top, bps);
      }
  }

  /** Exactly the first n levels lie on the near side of the limit. */
  ghost predicate Splits(d: Side, side: SideOf, limit: u64, n: nat) {
    && n <= |side|
    && (forall i :: 0 <= i < n ==> if d.Bid? then side[i].price >= limit else side[i].price <= limit)
    && (forall i :: n <= i < |side| ==> if d.Bid? then side[i].price < limit else side[i].price > limit)
  }

  /** The report's totals are those of its first levels, the notional in the caller's scale. */
  ghost predicate Sums(side: SideOf, r: BpsFill) {
    && r.levelCount <= |side| && r.cumQty == Wrap(Qty(side, r.levelCount))
    && r.cumNotional == Wrap(Cost(side, r.levelCount) / 100_000_000)
    && r.vwap == (if r.cumQty > 0 then Wrap(Cost(side, r.levelCount) / r.cumQty) else 0)
    && (r.insufficientDepth <==> r.levelCount == |side|)
  }

  lemma {:induction false} EdgeSplits(d: Side, side: SideOf, limit: u64)
    requires BestFirst(d, PricesOf(side))
    ensures Splits(d, side, limit, Edge(d, side, limit, 0))
  {
    var n := Edge(d, side, limit, 0);
    forall i | n <= i < |side| ensures !Inside(d, side[i].price, limit) {
      InOrder(d, PricesOf(side), n, i);
    }
  }

  lemma {:induction false} AtSums(side: SideOf, limit: u64, i: nat)
    requires i <= |side| < 0x1_0000_0000
    ensures var r := BandAt(side, limit, i); r.limitPrice == limit && r.levelCount == i && Sums(side, r)
  {
    hide Qty, Cost, Wrap;
  }

  /**
   A band's report from the levels: it counts exactly those on the near side of its
   limit, with their summed quantity, their notional in the caller's scale and the
   average of the two, and says whether the side ended inside the band.
   */
  lemma {:induction false} BandFromLevels(d: Side, side: SideOf, bps: u32)
    requires BestFirst(d, PricesOf(side)) && 0 < |side| < 0x1_0000_0000
    ensures var r := BandOf(d, side, bps);
            && EndsAt(d, side[0].price, bps, r.limitPrice) && Splits(d, side, r.limitPrice, r.levelCount)
            && Sums(side, r)
  {
    hide EndsAt, Sums, Limit, BandOf, Splits, BestFirst;
    var limit := Limit(d, side[0].price, bps);
    var n := Edge(d, side, limit, 0);
    LimitEndsBand(d, side[0].price, bps);
    EdgeSplits(d, side, limit);
    EdgeIs(d, side, limit, 0);
    BandIs(d, side, bps);
    AtSums(side, limit, n);
  }

  lemma {:induction false} CountIsReach(d: Side, side: SideOf, bps: u32)
    requires BestFirst(d, PricesOf(side)) && 0 < |side| < 0x1_0000_0000
    ensures BandOf(d, side, bps).levelCount == Reach(d, side, bps)
  {
    hide Qty, Cost, Wrap, Limit, BandOf;
    BandIs(d, side, bps);
  }

  /** And a report of the shared walk: its own edge, and the levels of the widest band so far. */
  lemma {:induction false} SharedFromLevels(d: Side, side: SideOf, bands: seq<u32>, k: nat, r: BpsFill)
    requires BestFirst(d, PricesOf(side)) && 0 < |side| < 0x1_0000_0000 && k < |bands|
    requires ReportedAt(d, side, bands, k, r)
    ensures EndsAt(d, side[0].price, bands[k], r.limitPrice) && Sums(side, r)
    ensures forall j :: 0 <= j <= k ==> BandOf(d, side, bands[j]).levelCount <= r.levelCount
    ensures exists j :: 0 <= j <= k && BandOf(d, side, bands[j]).levelCount == r.levelCount
  {
    ReachedCovers(d, side, bands, k + 1);
    LimitEndsBand(d, side[0].price, bands[k]);
    AtSums(side, Limit(d, side[0].price, bands[k]), Reached(d, side, bands, k + 1));
    hide *;
    forall j | 0 <= j <= k ensures BandOf(d, side, bands[j]).levelCount == Reach(d, side, bands[j]) {
      CountIsReach(d, side, bands[j]);
    }
  }

  /**
   A notional fill from the levels. The levels before the last one touched fall short
   of the target. If they reach it with that one, it is taken for as many whole units
   as the rest of the target buys; otherwise everything is taken and reported short.
   */
  lemma {:induction false} FillFromLevels(side: SideOf, target: u64)
    requires 0 < |side| < 0x1_0000_0000 && target > 0
    ensures var f, goal := FillOf(side, target), target * 100_000_000;
            && 1 <= f.levelCount <= |side| && Cost(side, f.levelCount - 1) < goal
            && f.worstPrice == side[f.levelCount - 1].price
            && (f.insufficientDepth <==> Cost(side, |side|) < goal)
            && (f.insufficientDepth ==> f.levelCount == |side| && IsFill(side, f, side[|side| - 1].qty))
            && (!f.insufficientDepth ==>
                  && f.worstPrice > 0 && Cost(side, f.levelCount) >= goal
                  && IsFill(side, f, (goal - Cost(side, f.levelCount - 1)) / f.worstPrice))
  {
    var goal := target * 100_000_000;
    var c := Crossing(side, goal, 0);
    assert SCALE == 100_000_000 && Cost(side, 0) == 0;
    hide Cost, Qty, Crossing, Report, IsFill, SweepTo, SweptCost, SweptQty;
    if c < |side| {
      CostGrows(side, c + 1, |side|);
      CrossingSweep(side, goal, c);
      ReportIsFill(side, Sweep(c, Units(goal - Cost(side, c), side[c].price)), false);
    } else {
      CostGrows(side, |side| - 1, |side|);
      ExhaustedSweep(side, goal);
      ReportIsFill(side, Sweep(|side| - 1, side[|side| - 1].qty), true);
    }
  }

  lemma {:induction false} ReportIsFill(side: SideOf, s: Sweep, insufficient: bool)
    requires Within(side, s) && |side| < 0x1_0000_0000
    ensures var f := Report(side, s, insufficient);
            && f.levelCount == s.level + 1 && f.worstPrice == side[s.level].price
            && f.insufficientDepth == insufficient && IsFill(side, f, s.part)
  {
    hide Cost, Qty, Times, Wrap;
  }

  /** The fill's totals, when it takes `part` units of the last level it touches. */
  predicate IsFill(side: SideOf, f: NotionalFill, part: nat) {
    1 <= f.levelCount <= |side|
    && var qty := Qty(side, f.levelCount - 1) + part;
       var cost := Cost(side, f.levelCount - 1) + Times(side[f.levelCount - 1].price, part);
       && f.filledQty == Wrap(qty) && f.filledNotional == Wrap(cost / 100_000_000)
       && f.vwap == (if f.filledQty > 0 then Wrap(cost / f.filledQty) else 0)
  }

  /** Nothing to fill from, or nothing to fill: all zeros, short only if something was asked for. */
  lemma {:induction false} NothingFilled(side: SideOf, target: u64)
    requires side == [] || target == 0
    ensures FillOf(side, target) == NotionalFill(0, 0, 0, 0, 0, target > 0)
    ensures side == [] ==> forall d, bps :: BandOf(d, side, bps) == BpsFill(0, 0, 0, 0, 0, false)
  {
  }

  /** Two bid levels, 1.0 at 100 and 2.0 at 99.5, both within one percent of the top. */
  const TWO_BIDS: SideOf :=
    [MergedLevel(10_000_000_000, [], 100_000_000), MergedLevel(9_950_000_000, [], 200_000_000)]

  lemma {:induction false} TwoBids()
    ensures BestFirst(Bid, PricesOf(TWO_BIDS)) && Fits(TWO_BIDS)
    ensures Qty(TWO_BIDS, 0) == 0 && Qty(TWO_BIDS, 1) == 100_000_000 && Qty(TWO_BIDS, 2) == 300_000_000
    ensures Cost(TWO_BIDS, 0) == 0 && Cost(TWO_BIDS, 1) == 1_000_000_000_000_000_000
            && Cost(TWO_BIDS, 2) == 2_990_000_000_000_000_000
  {
    assert Qty(TWO_BIDS, 1) == Qty(TWO_BIDS, 0) + 100_000_000;
    assert Cost(TWO_BIDS, 1) == Cost(TWO_BIDS, 0) + Times(10_000_000_000, 100_000_000);
    assert Cost(TWO_BIDS, 2) == Cost(TWO_BIDS, 1) + Times(9_950_000_000, 200_000_000);
  }

  /** One percent takes both levels, a little less than half of one percent the first alone. */
  method BpsRun() returns (wide: BpsFill, narrow: BpsFill)
    ensures wide == BpsFill(9_966_666_666, 9_900_000_000, 300_000_000, 29_900_000_000, 2, true)
    ensures narrow == BpsFill(10_000_000_000, 9_951_000_000, 100_000_000, 10_000_000_000, 1, false)
  {
    TwoBids();
    WideBand();
    NarrowBand();
    hide BandOf, Fits, BestFirst, Cost, Qty;
    wide := FillToBps(Bid, TWO_BIDS, 100);
    narrow := FillToBps(Bid, TWO_BIDS, 49);
  }

  lemma {:induction false} WideBand()
    ensures BandOf(Bid, TWO_BIDS, 100)
            == BpsFill(9_966_666_666, 9_900_000_000, 300_000_000, 29_900_000_000, 2, true)
  {
    TwoBids();
    BandFromLevels(Bid, TWO_BIDS, 100);
    hide BandOf, Cost, Qty, BestFirst;
  }

  lemma {:induction false} NarrowBand()
    ensures BandOf(Bid, TWO_BIDS, 49)
            == BpsFill(10_000_000_000, 9_951_000_000, 100_000_000, 10_000_000_000, 1, false)
  {
    TwoBids();
    BandFromLevels(Bid, TWO_BIDS, 49);
    hide BandOf, Cost, Qty, BestFirst;
  }

  /** A notional of 200 takes the first level whole and 1.00502512 of the second. */
  method NotionalRun() returns (fill: NotionalFill)
    ensures fill == NotionalFill(9_974_937_343, 9_950_000_000, 200_502_512, 19_999_999_944, 2, false)
  {
    TwoBids();
    fill := FillToNotional(TWO_BIDS, 20_000_000_000);
    assert Crossing(TWO_BIDS, 2_000_000_000_000_000_000, 0) == Crossing(TWO_BIDS, 2_000_000_000_000_000_000, 1) == 1;
  }
}
