/**
 The persistent consolidated book (md_core/consolidated_state.cpp): repaired in
 place from one venue's changes, and always equal to the from-scratch merge.
 */
module ConsolidatedState {
  import opened Types
  import opened Ordering
  import opened LevelMap
  import opened ConsolidatedBook

  // -------------------------------------------- one slot changes at one price --

  function One(m: Levels, slot: Slot, p: u64): seq<VenueQuote> {
    if p in m then [VenueQuote(slot, m[p])] else []
  }

  /** Contributors at p among slots s+1 .. n-1. */
  function Above(views: Views, p: u64, s: nat, n: nat): seq<VenueQuote>
    requires n <= |views|
  {
    if n <= s + 1 then [] else Above(views, p, s, n - 1) + One(views[n - 1], n - 1, p)
  }

  lemma {:induction false} ContribSplit(views: Views, p: u64, s: nat, n: nat)
    requires s < n <= |views|
    ensures Contrib(views, p, n) == Contrib(views, p, s) + One(views[s], s, p) + Above(views, p, s, n)
  {
    if n > s + 1 {
      ContribSplit(views, p, s, n - 1);
      Assoc(Contrib(views, p, s) + One(views[s], s, p), Above(views, p, s, n - 1), One(views[n - 1], n - 1, p));
    }
  }

  /** The two views hold the same at p in every slot below n. */
  ghost predicate SameBelow(a: Views, b: Views, p: u64, n: nat) {
    n <= |a| && n <= |b| && forall i :: 0 <= i < n ==> One(a[i], i, p) == One(b[i], i, p)
  }

  lemma {:induction false} ContribFrame(a: Views, b: Views, p: u64, n: nat)
    requires SameBelow(a, b, p, n)
    ensures Contrib(a, p, n) == Contrib(b, p, n) && Total(a, p, n) == Total(b, p, n)
  {
    if n > 0 {
      ContribFrame(a, b, p, n - 1);
      assert One(a[n - 1], n - 1, p) == One(b[n - 1], n - 1, p);
    }
  }

  lemma {:induction false} AboveFrame(a: Views, b: Views, p: u64, s: nat, n: nat)
    requires n <= |a| == |b| && forall i :: s < i < n ==> a[i] == b[i]
    ensures Above(a, p, s, n) == Above(b, p, s, n)
  {
    if n > s + 1 {
      AboveFrame(a, b, p, s, n - 1);
    }
  }

  lemma {:induction false} TotalUpdate(views: Views, p: u64, s: nat, m: Levels, n: nat)
    requires s < |views| && n <= |views|
    ensures Total(views[s := m], p, n) == Total(views, p, n) + if s < n then Get(m, p) - Get(views[s], p) else 0
  {
    if n > 0 {
      TotalUpdate(views, p, s, m, n - 1);
    }
  }

  lemma {:induction false} ContribSlots(views: Views, p: u64, n: nat)
    requires n <= |views|
    ensures forall k :: 0 <= k < |Contrib(views, p, n)| ==> Contrib(views, p, n)[k].slot < n
  {
    if n > 0 {
      ContribSlots(views, p, n - 1);
    }
  }

  lemma {:induction false} AboveSlots(views: Views, p: u64, s: nat, n: nat)
    requires n <= |views|
    ensures forall k :: 0 <= k < |Above(views, p, s, n)| ==> Above(views, p, s, n)[k].slot > s
  {
    if n > s + 1 {
      AboveSlots(views, p, s, n - 1);
    }
  }

  /** Attribution around one slot: lower slots, the slot itself, higher slots; only the middle depends on it. */
  lemma {:induction false} Around(views: Views, p: u64, s: nat, m: Levels)
    requires s < |views|
    ensures
      var low, high := Contrib(views, p, s), Above(views, p, s, |views|);
      && Contrib(views, p, |views|) == low + One(views[s], s, p) + high
      && Contrib(views[s := m], p, |views|) == low + One(m, s, p) + high
      && (forall k :: 0 <= k < |low| ==> low[k].slot < s)
      && (forall k :: 0 <= k < |high| ==> high[k].slot > s)
  {
    ContribSplit(views, p, s, |views|);
    ContribSplit(views[s := m], p, s, |views|);
    ContribFrame(views, views[s := m], p, s);
    AboveFrame(views, views[s := m], p, s, |views|);
    ContribSlots(views, p, s);
    AboveSlots(views, p, s, |views|);
  }

  lemma {:induction false} ContribEmpty(views: Views, p: u64, n: nat)
    requires n <= |views|
    ensures Contrib(views, p, n) == [] <==> forall i :: 0 <= i < n ==> p !in views[i]
  {
    if n > 0 {
      ContribEmpty(views, p, n - 1);
    }
  }

  // --------------------------------------------------- the listing around it --

  /** The change touched nothing but price p. */
  ghost predicate OnlyAt(a: Views, b: Views, p: u64) {
    |a| == |b| && forall q :: q != p ==> LevelAt(a, q) == LevelAt(b, q) && (Quoted(a, q) <==> Quoted(b, q))
  }

  lemma {:induction false} SetOnlyAt(views: Views, s: nat, p: u64, q: u64)
    requires s < |views|
    ensures OnlyAt(views, views[s := Set(views[s], p, q)], p)
  {
    var views' := views[s := Set(views[s], p, q)];
    forall r | r != p ensures LevelAt(views, r) == LevelAt(views', r) && (Quoted(views, r) <==> Quoted(views', r)) {
      assert SameBelow(views, views', r, |views|);
      ContribFrame(views, views', r, |views|);
      ContribEmpty(views, r, |views|);
      ContribEmpty(views', r, |views|);
    }
  }

  lemma {:induction false} LevelKept(a: Views, b: Views, p: u64, l: MergedLevel)
    requires OnlyAt(a, b, p) && l.price != p && l == LevelAt(a, l.price)
    ensures l == LevelAt(b, l.price)
  {
  }

  lemma {:induction false} ReplaceLevel(d: Side, views: Views, views': Views, side: seq<MergedLevel>, k: nat)
    requires IsMerge(d, views, side) && k < |side| && OnlyAt(views, views', side[k].price)
    requires Quoted(views', side[k].price)
    ensures IsMerge(d, views', side[k := LevelAt(views', side[k].price)])
  {
    var side' := side[k := LevelAt(views', side[k].price)];
    assert PricesOf(side') == PricesOf(side);
    forall t | 0 <= t < |side'| ensures side'[t] == LevelAt(views', side'[t].price) {
      InOrder(d, PricesOf(side), t, k);
      InOrder(d, PricesOf(side), k, t);
      if t != k {
        LevelKept(views, views', side[k].price, side[t]);
      }
    }
    forall p ensures Quoted(views', p) <==> p in PricesOf(side') {
      assert PricesOf(side)[k] == side[k].price;
    }
  }

  lemma {:induction false} RemoveOrder(d: Side, ps: seq<u64>, k: nat, r: seq<u64>)
    requires BestFirst(d, ps) && k < |ps| && r == ps[..k] + ps[k + 1..]
    ensures BestFirst(d, r)
    ensures forall q :: q in r <==> q in ps && q != ps[k]
  {
    forall i, j | 0 <= i < j < |r| ensures Better(d, r[i], r[j]) {
      InOrder(d, ps, if i < k then i else i + 1, if j < k then j else j + 1);
    }
    assert ps == ps[..k] + [ps[k]] + ps[k + 1..];
    forall t | 0 <= t < |r| ensures r[t] != ps[k] {
      InOrder(d, ps, if t < k then t else t + 1, k);
      InOrder(d, ps, k, if t < k then t else t + 1);
    }
  }

  lemma {:induction false} RemoveLevel(d: Side, views: Views, views': Views, side: seq<MergedLevel>, k: nat)
    requires IsMerge(d, views, side) && k < |side| && OnlyAt(views, views', side[k].price)
    requires !Quoted(views', side[k].price)
    ensures IsMerge(d, views', side[..k] + side[k + 1..])
  {
    var side', ps := side[..k] + side[k + 1..], PricesOf(side);
    assert PricesOf(side') == ps[..k] + ps[k + 1..];
    RemoveOrder(d, ps, k, PricesOf(side'));
    forall t | 0 <= t < |side'| ensures side'[t] == LevelAt(views', side'[t].price) {
      var u := if t < k then t else t + 1;
      assert side'[t] == side[u] && PricesOf(side')[t] == ps[u];
      assert PricesOf(side')[t] in PricesOf(side');
      LevelKept(views, views', side[k].price, side[u]);
    }
    forall p ensures Quoted(views', p) <==> p in PricesOf(side') {
    }
  }

  lemma {:induction false} InsertOrder(d: Side, ps: seq<u64>, k: nat, p: u64, r: seq<u64>)
    requires BestFirst(d, ps) && k <= |ps| && r == ps[..k] + [p] + ps[k..]
    requires forall t :: 0 <= t < k ==> Better(d, ps[t], p)
    requires forall t :: k <= t < |ps| ==> Better(d, p, ps[t])
    ensures BestFirst(d, r)
    ensures forall q :: q in r <==> q == p || q in ps
  {
    forall i, j | 0 <= i < j < |r| ensures Better(d, r[i], r[j]) {
      InOrder(d, ps, if i < k then i else i - 1, if j < k then j else j - 1);
    }
    assert ps == ps[..k] + ps[k..];
  }

  lemma {:induction false} InsertLevel(d: Side, views: Views, views': Views, side: seq<MergedLevel>, k: nat, p: u64)
    requires IsMerge(d, views, side) && k <= |side| && OnlyAt(views, views', p) && Quoted(views', p)
    requires forall t :: 0 <= t < k ==> Better(d, side[t].price, p)
    requires forall t :: k <= t < |side| ==> Better(d, p, side[t].price)
    ensures IsMerge(d, views', side[..k] + [LevelAt(views', p)] + side[k..])
  {
    var side', ps := side[..k] + [LevelAt(views', p)] + side[k..], PricesOf(side);
    assert PricesOf(side') == ps[..k] + [p] + ps[k..];
    InsertOrder(d, ps, k, p, PricesOf(side'));
    forall t | 0 <= t < |side'| ensures side'[t] == LevelAt(views', side'[t].price) {
      if t != k {
        LevelKept(views, views', p, side[if t < k then t else t - 1]);
      }
    }
    forall q ensures Quoted(views', q) <==> q in PricesOf(side') {
    }
  }

  // ------------------------------------------------------------ the operations --

  /** Where a price is, or would be inserted, in a best-first side. */
  method LowerBoundByRank(d: Side, side: seq<MergedLevel>, price: u64) returns (index: nat)
    requires BestFirst(d, PricesOf(side))
    ensures index <= |side|
    ensures forall t :: 0 <= t < index ==> Better(d, side[t].price, price)
    ensures forall t :: index <= t < |side| ==> !Better(d, side[t].price, price)
  {
    index := 0;
    var hi := |side|;
    while index < hi
      invariant 0 <= index <= hi <= |side|
      invariant forall t :: 0 <= t < index ==> Better(d, side[t].price, price)
      invariant forall t :: hi <= t < |side| ==> !Better(d, side[t].price, price)
    {
      var mid := (index + hi) / 2;
      if Better(d, side[mid].price, price) {
        forall t | 0 <= t < mid ensures Better(d, side[t].price, price) {
          InOrder(d, PricesOf(side), t, mid);
        }
        index := mid + 1;
      } else {
        forall t | mid < t < |side| ensures !Better(d, side[t].price, price) {
          InOrder(d, PricesOf(side), mid, t);
        }
        hi := mid;
      }
    }
  }

  /** First entry of this slot, or the length when it has none. */
  method FindVenue(venues: seq<VenueQuote>, slot: Slot) returns (at: nat)
    ensures at <= |venues|
    ensures forall k :: 0 <= k < at ==> venues[k].slot != slot
    ensures at < |venues| ==> venues[at].slot == slot
  {
    at := 0;
    while at < |venues|
      invariant at <= |venues|
      invariant forall k :: 0 <= k < at ==> venues[k].slot != slot
    {
      if venues[at].slot == slot {
        break;
      }
      at := at + 1;
    }
  }

  /** Shifts the later entries down over the one at `at`. */
  method CloseGap(venues0: seq<VenueQuote>, at: nat) returns (venues: seq<VenueQuote>)
    requires at < |venues0|
    ensures venues == venues0[..at] + venues0[at + 1..]
  {
    venues := venues0;
    var i := at;
    while i + 1 < |venues|
      invariant at <= i < |venues| == |venues0|
      invariant forall k :: 0 <= k < at ==> venues[k] == venues0[k]
      invariant forall k :: at <= k < i ==> venues[k] == venues0[k + 1]
      invariant forall k :: i < k < |venues| ==> venues[k] == venues0[k]
    {
      venues := venues[i := venues[i + 1]];
      i := i + 1;
    }
    venues := venues[..|venues| - 1];
  }

  /** Shifts the higher slots up by one and stores the joining slot in between. */
  method InsertBySlot(venues0: seq<VenueQuote>, slot: Slot, qty: u64) returns (venues: seq<VenueQuote>, at: nat)
    ensures at <= |venues0|
    ensures forall k :: 0 <= k < at ==> venues0[k].slot < slot
    ensures at < |venues0| ==> venues0[at].slot >= slot
    ensures venues == venues0[..at] + [VenueQuote(slot, qty)] + venues0[at..]
  {
    at := 0;
    while at < |venues0| && venues0[at].slot < slot
      invariant at <= |venues0|
      invariant forall k :: 0 <= k < at ==> venues0[k].slot < slot
    {
      at := at + 1;
    }
    venues := venues0 + [VenueQuote(slot, qty)];
    var i := |venues0|;
    while i > at
      invariant at <= i <= |venues0| && |venues| == |venues0| + 1
      invariant forall k :: 0 <= k < i ==> venues[k] == venues0[k]
      invariant forall k :: i < k < |venues| ==> venues[k] == venues0[k - 1]
    {
      venues := venues[i := venues[i - 1]];
      i := i - 1;
    }
    venues := venues[at := VenueQuote(slot, qty)];
  }

  /** The consolidated side after slot's quantity at one price became newQty. */
  ghost function After(views: Views, slot: Slot, p: u64, q: u64): Views
    requires slot < |views|
  {
    views[slot := Set(views[slot], p, q)]
  }

  lemma {:induction false} AbsentEverywhere(d: Side, views: Views, side: seq<MergedLevel>, p: u64, index: nat)
    requires IsMerge(d, views, side) && index <= |side|
    requires forall t :: 0 <= t < index ==> Better(d, side[t].price, p)
    requires forall t :: index <= t < |side| ==> Better(d, p, side[t].price)
    ensures !Quoted(views, p)
  {
    assert forall t :: 0 <= t < |side| ==> PricesOf(side)[t] != p;
  }

  /** A price nobody quoted gets its first contributor. */
  lemma {:induction false} FirstContributor(views: Views, slot: Slot, p: u64, q: u64)
    requires slot < |views| && !Quoted(views, p) && q != 0
    ensures Contrib(After(views, slot, p, q), p, |views|) == [VenueQuote(slot, q)]
    ensures Total(After(views, slot, p, q), p, |views|) == q
    ensures Quoted(After(views, slot, p, q), p)
  {
    var m := Set(views[slot], p, q);
    Around(views, p, slot, m);
    ContribEmpty(views, p, |views|);
    TotalUpdate(views, p, slot, m, |views|);
    TotalEmpty(views, p, |views|);
    var low, high := Contrib(views, p, slot), Above(views, p, slot, |views|);
    assert |low| == 0 && |high| == 0 by {
      assert |low + One(views[slot], slot, p) + high| == 0;
    }
    assert p in After(views, slot, p, q)[slot];
  }

  lemma {:induction false} TotalEmpty(views: Views, p: u64, n: nat)
    requires n <= |views| && forall i :: 0 <= i < n ==> p !in views[i]
    ensures Total(views, p, n) == 0
  {
    if n > 0 {
      TotalEmpty(views, p, n - 1);
    }
  }

  /** The total moves by the slot's own difference, in wrapping arithmetic too. */
  lemma {:induction false} TotalMoves(views: Views, slot: Slot, p: u64, q: u64)
    requires slot < |views|
    ensures LevelAt(After(views, slot, p, q), p).qty == Wrap(LevelAt(views, p).qty - Get(views[slot], p) + q)
  {
    TotalUpdate(views, p, slot, Set(views[slot], p, q), |views|);
    WrapAdd(Total(views, p, |views|), q - Get(views[slot], p));
  }

  /** Where FindVenue lands in an attribution list: on the slot's own entry, or past the end when it has none. */
  lemma {:induction false} FoundAt(views: Views, p: u64, slot: Slot, at: nat)
    requires slot < |views|
    requires
      var vs := Contrib(views, p, |views|);
      && at <= |vs|
      && (forall k :: 0 <= k < at ==> vs[k].slot != slot)
      && (at < |vs| ==> vs[at].slot == slot)
    ensures
      var vs := Contrib(views, p, |views|);
      && (p in views[slot] ==> at == |Contrib(views, p, slot)| < |vs| && vs[at] == VenueQuote(slot, views[slot][p]))
      && (p !in views[slot] ==> at == |vs|)
  {
    Around(views, p, slot, views[slot]);
    FoundIn(Contrib(views, p, slot), One(views[slot], slot, p), Above(views, p, slot, |views|), slot, at);
  }

  lemma {:induction false} FoundIn(low: seq<VenueQuote>, one: seq<VenueQuote>, high: seq<VenueQuote>, slot: Slot,
      at: nat)
    requires forall k :: 0 <= k < |low| ==> low[k].slot < slot
    requires forall k :: 0 <= k < |high| ==> high[k].slot > slot
    requires |one| <= 1 && (|one| == 1 ==> one[0].slot == slot)
    requires
      var vs := low + one + high;
      && at <= |vs|
      && (forall k :: 0 <= k < at ==> vs[k].slot != slot)
      && (at < |vs| ==> vs[at].slot == slot)
    ensures |one| == 1 ==> at == |low| && (low + one + high)[at] == one[0]
    ensures |one| == 0 ==> at == |low + one + high|
  {
    var vs := low + one + high;
    assert forall k :: 0 <= k < |low| ==> vs[k] == low[k];
    assert |one| == 1 ==> vs[|low|] == one[0];
    assert forall k :: |low| + |one| <= k < |vs| ==> vs[k] == high[k - |low| - |one|];
  }

  /** Editing one entry of a list in the middle. */
  lemma {:induction false} Middle<T>(low: seq<T>, x: T, high: seq<T>, y: T)
    ensures var s := low + [x] + high;
            && s[..|low|] + s[|low| + 1..] == low + [] + high
            && s[|low| := y] == low + [y] + high
    ensures var s := low + [] + high;
            && s == low + high && s[..|low|] + [y] + s[|low|..] == low + [y] + high
  {
  }

  /** The slot leaves: its entry is cut out of the attribution. */
  lemma {:induction false} Leaves(views: Views, p: u64, slot: Slot)
    requires slot < |views| && p in views[slot]
    ensures
      var vs, at := Contrib(views, p, |views|), |Contrib(views, p, slot)|;
      at < |vs| && Contrib(After(views, slot, p, 0), p, |views|) == vs[..at] + vs[at + 1..]
  {
    Around(views, p, slot, Set(views[slot], p, 0));
    var x := VenueQuote(slot, views[slot][p]);
    Middle(Contrib(views, p, slot), x, Above(views, p, slot, |views|), x);
  }

  /** The slot stays with another quantity: only its entry is rewritten. */
  lemma {:induction false} Stays(views: Views, p: u64, slot: Slot, q: u64)
    requires slot < |views| && p in views[slot] && q != 0
    ensures
      var vs, at := Contrib(views, p, |views|), |Contrib(views, p, slot)|;
      at < |vs| && Contrib(After(views, slot, p, q), p, |views|) == vs[at := VenueQuote(slot, q)]
  {
    Around(views, p, slot, Set(views[slot], p, q));
    var x := VenueQuote(slot, views[slot][p]);
    Middle(Contrib(views, p, slot), x, Above(views, p, slot, |views|), VenueQuote(slot, q));
  }

  /** The slot joins: its entry goes between the lower and the higher slots, and there is room for it. */
  lemma {:induction false} Joins(views: Views, p: u64, slot: Slot, q: u64, at: nat)
    requires slot < |views| && p !in views[slot] && q != 0
    requires
      var vs := Contrib(views, p, |views|);
      at <= |vs| && (forall k :: 0 <= k < at ==> vs[k].slot < slot) && (at < |vs| ==> vs[at].slot >= slot)
    ensures
      var vs := Contrib(views, p, |views|);
      |vs| < 8 && Contrib(After(views, slot, p, q), p, |views|) == vs[..at] + [VenueQuote(slot, q)] + vs[at..]
  {
    Around(views, p, slot, Set(views[slot], p, q));
    var low, high := Contrib(views, p, slot), Above(views, p, slot, |views|);
    Middle(low, VenueQuote(slot, q), high, VenueQuote(slot, q));
    JoinsAt(low, high, slot, at);
    ContribRoom(views, p, slot);
  }

  lemma {:induction false} JoinsAt(low: seq<VenueQuote>, high: seq<VenueQuote>, slot: Slot, at: nat)
    requires forall k :: 0 <= k < |low| ==> low[k].slot < slot
    requires forall k :: 0 <= k < |high| ==> high[k].slot > slot
    requires var vs := low + high;
             at <= |vs| && (forall k :: 0 <= k < at ==> vs[k].slot < slot) && (at < |vs| ==> vs[at].slot >= slot)
    ensures at == |low|
  {
    var vs := low + high;
    assert forall k :: 0 <= k < |low| ==> vs[k] == low[k];
    assert forall k :: |low| <= k < |vs| ==> vs[k] == high[k - |low|];
    assert |high| > 0 ==> vs[|low|] == high[0];
  }

  /** The price is still quoted exactly while somebody contributes. */
  lemma {:induction false} QuotedIff(views: Views, p: u64)
    ensures Quoted(views, p) <==> Contrib(views, p, |views|) != []
  {
    ContribEmpty(views, p, |views|);
  }

  /** The level after a removal by a contributor: its entry cut out, its quantity subtracted. */
  lemma {:induction false} LevelLeaves(views: Views, p: u64, slot: Slot, at: nat)
    requires slot < |views| && p in views[slot] && at == |Contrib(views, p, slot)|
    ensures
      var l := LevelAt(views, p);
      && at < |l.venues| && l.venues[at].qty == views[slot][p]
      && LevelAt(After(views, slot, p, 0), p)
           == MergedLevel(p, l.venues[..at] + l.venues[at + 1..], Wrap(l.qty - l.venues[at].qty))
  {
    Leaves(views, p, slot);
    TotalMoves(views, slot, p, 0);
    Around(views, p, slot, views[slot]);
  }

  /** The level after a contributor's new quantity. */
  lemma {:induction false} LevelStays(views: Views, p: u64, slot: Slot, q: u64, at: nat)
    requires slot < |views| && p in views[slot] && q != 0 && at == |Contrib(views, p, slot)|
    ensures
      var l := LevelAt(views, p);
      && at < |l.venues| && l.venues[at].qty == views[slot][p]
      && LevelAt(After(views, slot, p, q), p)
           == MergedLevel(p, l.venues[at := VenueQuote(slot, q)], Wrap(l.qty - l.venues[at].qty + q))
  {
    Stays(views, p, slot, q);
    TotalMoves(views, slot, p, q);
    Around(views, p, slot, views[slot]);
  }

  /** Withdraws one contributor from a level; None when it was the last one. */
  method Withdraw(level: MergedLevel, slot: Slot, at: nat, ghost views: Views) returns (r: Option<MergedLevel>)
    requires slot < |views| && level == LevelAt(views, level.price)
    requires level.price in views[slot] && at == |Contrib(views, level.price, slot)|
    ensures r.Some? <==> Quoted(After(views, slot, level.price, 0), level.price)
    ensures r.Some? ==> r.value == LevelAt(After(views, slot, level.price, 0), level.price)
  {
    LevelLeaves(views, level.price, slot, at);
    QuotedIff(After(views, slot, level.price, 0), level.price);
    var venues := CloseGap(level.venues, at);
    r := if |venues| == 0 then None else Some(MergedLevel(level.price, venues, Wrap(level.qty - level.venues[at].qty)));
  }

  /** Adds a contributor to a level others already quote; the capacity guard never fires. */
  method Join(level: MergedLevel, slot: Slot, newQty: u64, ghost views: Views) returns (r: MergedLevel)
    requires slot < |views| && level == LevelAt(views, level.price) && level.price !in views[slot] && newQty != 0
    ensures r == LevelAt(After(views, slot, level.price, newQty), level.price)
  {
    r := level;
    ContribRoom(views, level.price, slot);
    TotalMoves(views, slot, level.price, newQty);
    if |level.venues| < MAX_VENUES {
      var venues, insertAt := InsertBySlot(level.venues, slot, newQty);
      Joins(views, level.price, slot, newQty, insertAt);
      r := MergedLevel(level.price, venues, Wrap(level.qty + newQty));
    }
  }

  lemma {:induction false} StillQuoted(views: Views, slot: Slot, p: u64, q: u64)
    requires slot < |views| && q != 0
    ensures Quoted(After(views, slot, p, q), p)
  {
    assert p in After(views, slot, p, q)[slot];
  }

  /** One contributor's new quantity folded into an existing level; None when the last contributor left. */
  method RepairLevel(level: MergedLevel, slot: Slot, newQty: u64, ghost views: Views) returns (r: Option<MergedLevel>)
    requires slot < |views| && level == LevelAt(views, level.price) && Quoted(views, level.price)
    ensures r.Some? <==> Quoted(After(views, slot, level.price, newQty), level.price)
    ensures r.Some? ==> r.value == LevelAt(After(views, slot, level.price, newQty), level.price)
  {
    var at := FindVenue(level.venues, slot);
    FoundAt(views, level.price, slot, at);
    if newQty == 0 {
      if at == |level.venues| {
        Unchanged(views, slot, level.price);
        return Some(level);
      }
      r := Withdraw(level, slot, at, views);
      return;
    }
    StillQuoted(views, slot, level.price, newQty);
    if at < |level.venues| {
      LevelStays(views, level.price, slot, newQty, at);
      return Some(MergedLevel(level.price, level.venues[at := VenueQuote(slot, newQty)],
                              Wrap(level.qty - level.venues[at].qty + newQty)));
    }
    var joined := Join(level, slot, newQty, views);
    r := Some(joined);
  }

  lemma {:induction false} Unchanged(views: Views, slot: Slot, p: u64)
    requires slot < |views| && p !in views[slot]
    ensures After(views, slot, p, 0) == views
  {
    assert Set(views[slot], p, 0) == views[slot];
  }

  /** An attribution list that lacks one slot is never full. */
  lemma {:induction false} ContribRoom(views: Views, p: u64, slot: Slot)
    requires slot < |views| && p !in views[slot]
    ensures |Contrib(views, p, |views|)| < 8
  {
    var full: Levels := map[p := 1];
    Around(views, p, slot, full);
    assert |Contrib(views[slot := full], p, |views|)| == |Contrib(views, p, |views|)| + 1;
  }

  /** The price is listed: its level is repaired in place, or erased when its last contributor left. */
  method RepairAt(d: Side, side: seq<MergedLevel>, index: nat, slot: Slot, newQty: u64, ghost views: Views)
    returns (out: seq<MergedLevel>)
    requires slot < |views| && IsMerge(d, views, side) && index < |side|
    ensures IsMerge(d, After(views, slot, side[index].price, newQty), out)
  {
    ghost var after := After(views, slot, side[index].price, newQty);
    SetOnlyAt(views, slot, side[index].price, newQty);
    assert PricesOf(side)[index] in PricesOf(side);
    var level := RepairLevel(side[index], slot, newQty, views);
    if level.Some? {
      ReplaceLevel(d, views, after, side, index);
      out := side[index := level.value];
    } else {
      RemoveLevel(d, views, after, side, index);
      out := side[..index] + side[index + 1..];
    }
  }

  lemma {:induction false} OpensLevel(d: Side, views: Views, side: seq<MergedLevel>, index: nat, slot: Slot,
      price: u64, q: u64)
    requires slot < |views| && IsMerge(d, views, side) && index <= |side| && !Quoted(views, price) && q != 0
    requires forall t :: 0 <= t < index ==> Better(d, side[t].price, price)
    requires forall t :: index <= t < |side| ==> Better(d, price, side[t].price)
    ensures IsMerge(d, After(views, slot, price, q),
                    side[..index] + [MergedLevel(price, [VenueQuote(slot, q)], q)] + side[index..])
  {
    SetOnlyAt(views, slot, price, q);
    FirstContributor(views, slot, price, q);
    InsertLevel(d, views, After(views, slot, price, q), side, index, price);
    assert LevelAt(After(views, slot, price, q), price) == MergedLevel(price, [VenueQuote(slot, q)], q);
  }

  /** The price is not listed: nobody quotes it, so a removal is a no-op and a quantity opens a new level. */
  method OpenAt(d: Side, side: seq<MergedLevel>, index: nat, slot: Slot, price: u64, newQty: u64, ghost views: Views)
    returns (out: seq<MergedLevel>)
    requires slot < |views| && IsMerge(d, views, side) && index <= |side|
    requires forall t :: 0 <= t < index ==> Better(d, side[t].price, price)
    requires forall t :: index <= t < |side| ==> Better(d, price, side[t].price)
    ensures IsMerge(d, After(views, slot, price, newQty), out)
  {
    AbsentEverywhere(d, views, side, price, index);
    if newQty == 0 {
      Unchanged(views, slot, price);
      return side;
    }
    OpensLevel(d, views, side, index, slot, price, newQty);
    out := side[..index] + [MergedLevel(price, [VenueQuote(slot, newQty)], newQty)] + side[index..];
  }

  /** Incremental repair commutes with merging, one change at a time. */
  method ApplyOneChange(d: Side, side: seq<MergedLevel>, slot: Slot, price: u64, newQty: u64, ghost views: Views)
    returns (out: seq<MergedLevel>)
    requires slot < |views| && IsMerge(d, views, side)
    ensures IsMerge(d, After(views, slot, price, newQty), out)
  {
    var index := LowerBoundByRank(d, side, price);
    if index < |side| && side[index].price == price {
      out := RepairAt(d, side, index, slot, newQty, views);
    } else {
      Beyond(d, side, index, price);
      out := OpenAt(d, side, index, slot, price, newQty, views);
    }
  }

  lemma {:induction false} Beyond(d: Side, side: seq<MergedLevel>, index: nat, price: u64)
    requires BestFirst(d, PricesOf(side)) && index <= |side|
    requires forall t :: index <= t < |side| ==> !Better(d, side[t].price, price)
    requires index < |side| ==> side[index].price != price
    ensures forall t :: index <= t < |side| ==> Better(d, price, side[t].price)
  {
    forall t | index <= t < |side| ensures Better(d, price, side[t].price) {
      InOrder(d, PricesOf(side), index, t);
    }
  }

  // ----------------------------------------------------------------- the class --

  /** The slot's contribution replaced by another side of its book. */
  ghost function With(views: Views, slot: Slot, m: Levels): Views
    requires slot < |views|
  {
    views[slot := m]
  }

  /** Folds a whole change list into one side: the slot's levels become what the list replays them to. */
  method ApplyChanges(d: Side, side: seq<MergedLevel>, slot: Slot, changes: seq<LevelChange>, ghost views: Views)
    returns (out: seq<MergedLevel>)
    requires slot < |views| && IsMerge(d, views, side)
    ensures IsMerge(d, With(views, slot, Fold(views[slot], Writes(changes))), out)
  {
    out := side;
    ghost var ws := Writes(changes);
    ghost var now := views;
    var i := 0;
    while i < |changes|
      invariant 0 <= i <= |changes|
      invariant now == With(views, slot, FoldTo(views[slot], ws, i))
      invariant IsMerge(d, now, out)
    {
      out := ApplyOneChange(d, out, slot, changes[i].price, changes[i].newQty, now);
      now := After(now, slot, changes[i].price, changes[i].newQty);
      i := i + 1;
    }
  }

  /** The consolidated book and its rebuild latch. */
  datatype Kept = Kept(book: Book, needsRebuild: bool)

  class State {
    var book: Book
    var needsRebuild: bool

    function Holds(): Kept
      reads this
    {
      Kept(book, needsRebuild)
    }

    constructor ()
      ensures Holds() == Kept(Book([], []), true)
    {
      book, needsRebuild := Book([], []), true;
    }

    /** A state as its owner stored it. */
    constructor Load(k: Kept)
      ensures Holds() == k
    {
      book, needsRebuild := k.book, k.needsRebuild;
    }

    method MarkForRebuild()
      modifies this
      ensures book == old(book) && needsRebuild
    {
      needsRebuild := true;
    }

    /**
     Incremental repair commutes with merging: if the book is the merge of the
     old contributions and the lists are exactly what one venue's sides did,
     it becomes the merge of the new contributions.
     */
    method ApplyDepthDelta(slot: Slot, bidChanges: seq<LevelChange>, askChanges: seq<LevelChange>,
                           ghost bids: Views, ghost asks: Views, ghost venue: VenueBook)
      requires slot < |bids| && slot < |asks|
      requires IsMerge(Bid, bids, book.bids) && IsMerge(Ask, asks, book.asks)
      requires VenueBook(bids[slot], asks[slot]).Ok() && venue.Ok()
      requires IsDiff(Bid, bids[slot], venue.bids, bidChanges)
      requires IsDiff(Ask, asks[slot], venue.asks, askChanges)
      modifies this
      ensures IsMerge(Bid, With(bids, slot, venue.bids), book.bids)
      ensures IsMerge(Ask, With(asks, slot, venue.asks), book.asks)
      ensures needsRebuild == old(needsRebuild)
    {
      ReplayDiff(Bid, bids[slot], venue.bids, bidChanges);
      ReplayDiff(Ask, asks[slot], venue.asks, askChanges);
      var newBids := ApplyChanges(Bid, book.bids, slot, bidChanges, bids);
      var newAsks := ApplyChanges(Ask, book.asks, slot, askChanges, asks);
      book := Book(newBids, newAsks);
    }

    /** Re-derives the book from the venue books, unbounded in depth, and clears the latch. */
    method FullRebuild(row: Row, venueCount: nat, health: seq<VenueHealth>)
      requires RowOk(row) && |health| == 8 && venueCount <= 8
      modifies this
      ensures IsMerge(Bid, Admitted(row, Some(health), venueCount, Bid), book.bids)
      ensures IsMerge(Ask, Admitted(row, Some(health), venueCount, Ask), book.asks)
      ensures !needsRebuild
    {
      book := MergeBooks(row, venueCount, None, Some(health));
      needsRebuild := false;
    }
  }
}
