/**
 The per-venue depth book (md_core/flat_order_book.cpp): each side is a flat
 list with the best price at the back, updated by one backward walk and, when
 levels enter or leave, by a staged merge of the touched region.
 */
module FlatOrderBooks {
  import opened Types
  import opened Ordering
  import opened LevelMap

  // ---------------------------------------------------------------- sides --

  /** Storage order: worst price first, best price at the back. */
  ghost predicate Stored(d: Side, s: seq<PriceLevel>) {
    forall i, j {:trigger Better(d, s[j].price, s[i].price)} ::
      0 <= i < j < |s| ==> Better(d, s[j].price, s[i].price)
  }

  ghost predicate IsSide(d: Side, s: seq<PriceLevel>) {
    Stored(d, s) && forall i :: 0 <= i < |s| ==> s[i].qty != 0
  }

  lemma {:induction false} StoredDistinct(d: Side, s: seq<PriceLevel>)
    requires Stored(d, s)
    ensures Distinct(s)
  {
    forall i, j | 0 <= i < j < |s| ensures s[i].price != s[j].price {
      assert Better(d, s[j].price, s[i].price);
    }
  }

  lemma {:induction false} StoredNext(d: Side, s: seq<PriceLevel>, i: int)
    requires Stored(d, s)
    ensures 0 <= i && i + 1 < |s| ==> Better(d, s[i + 1].price, s[i].price)
  {
  }

  /** Storage order, except that a price may be named again right away. */
  ghost predicate Ordered(d: Side, s: seq<PriceLevel>) {
    forall i, j {:trigger Better(d, s[i].price, s[j].price)} ::
      0 <= i < j < |s| ==> !Better(d, s[i].price, s[j].price)
  }

  lemma {:induction false} OrderedNext(d: Side, s: seq<PriceLevel>, i: int)
    requires Ordered(d, s)
    ensures 0 <= i && i + 1 < |s| ==> !Better(d, s[i].price, s[i + 1].price)
  {
  }

  lemma {:induction false} OrderedDistinct(d: Side, s: seq<PriceLevel>)
    requires Ordered(d, s) && Distinct(s)
    ensures Stored(d, s)
  {
    forall i, j | 0 <= i < j < |s| ensures Better(d, s[j].price, s[i].price) {
      assert !Better(d, s[i].price, s[j].price) && s[i].price != s[j].price;
    }
  }

  /** Price p beats the first n levels. */
  ghost predicate Beats(d: Side, p: u64, s: seq<PriceLevel>, n: nat)
    requires n <= |s|
  {
    forall i :: 0 <= i < n ==> Better(d, p, s[i].price)
  }

  function ToMap(s: seq<PriceLevel>): Levels {
    Fold(map[], s)
  }

  lemma {:induction false} SideAt(d: Side, s: seq<PriceLevel>)
    requires IsSide(d, s)
    ensures NoZero(ToMap(s))
    ensures forall l :: l in s ==> Get(ToMap(s), l.price) == l.qty
    ensures forall p :: !Mentions(s, p) ==> Get(ToMap(s), p) == 0
  {
    StoredDistinct(d, s);
    FoldAt(map[], s);
  }

  lemma {:induction false} BeatenAbsent(d: Side, p: u64, s: seq<PriceLevel>, n: nat)
    requires n <= |s| && Beats(d, p, s, n)
    ensures Get(FoldTo(map[], s, n), p) == 0
  {
    FoldMiss(map[], s, n, p);
  }

  // ------------------------------------------- what one delta does to a side --

  function Kept(l: PriceLevel): seq<PriceLevel> {
    if l.qty != 0 then [l] else []
  }

  function Noted(p: u64, before: u64, after: u64): seq<LevelChange> {
    if before != after then [LevelChange(p, before, after)] else []
  }

  /** The best price among side[..i] and delta[..j], the quantity it had and gets, and what is left below it. */
  datatype Pick = Pick(top: PriceLevel, before: u64, i: nat, j: nat)

  function PickTop(d: Side, side: seq<PriceLevel>, i: nat, delta: seq<PriceLevel>, j: nat): (r: Pick)
    requires i <= |side| && j <= |delta| && i + j > 0
    ensures r.i <= i && r.j <= j && r.i + r.j < i + j
  {
    if i == 0 || (j > 0 && Better(d, delta[j - 1].price, side[i - 1].price)) then
      Pick(delta[j - 1], 0, i, j - 1)
    else if j == 0 || Better(d, side[i - 1].price, delta[j - 1].price) then
      Pick(side[i - 1], side[i - 1].qty, i - 1, j)
    else
      Pick(delta[j - 1], side[i - 1].qty, i - 1, j - 1)
  }

  /** side[..i] after delta[..j], both in storage order: delta levels replace, enter or (quantity 0) leave. */
  function Overlay(d: Side, side: seq<PriceLevel>, i: nat, delta: seq<PriceLevel>, j: nat): seq<PriceLevel>
    requires i <= |side| && j <= |delta|
    decreases i + j
  {
    if i + j == 0 then []
    else
      var k := PickTop(d, side, i, delta, j);
      Overlay(d, side, k.i, delta, k.j) + Kept(k.top)
  }

  /** The transitions delta[..j] causes in side[..i], best price first. */
  function Changes(d: Side, side: seq<PriceLevel>, i: nat, delta: seq<PriceLevel>, j: nat): seq<LevelChange>
    requires i <= |side| && j <= |delta|
    decreases i + j
  {
    if i + j == 0 then []
    else
      var k := PickTop(d, side, i, delta, j);
      Noted(k.top.price, k.before, k.top.qty) + Changes(d, side, k.i, delta, k.j)
  }

  /** The pick beats what is left of the side, whatever the order of the delta. */
  lemma {:induction false} PickBeatsSide(d: Side, side: seq<PriceLevel>, i: nat, delta: seq<PriceLevel>, j: nat)
    requires IsSide(d, side) && i <= |side| && j <= |delta| && i + j > 0
    ensures var k := PickTop(d, side, i, delta, j); Beats(d, k.top.price, side, k.i)
  {
    var k := PickTop(d, side, i, delta, j);
    forall t | 0 <= t < k.i ensures Better(d, k.top.price, side[t].price) {
      assert t < i - 1 ==> Better(d, side[i - 1].price, side[t].price);
    }
  }

  lemma {:induction false} PickOrder(d: Side, side: seq<PriceLevel>, i: nat, delta: seq<PriceLevel>, j: nat)
    requires IsSide(d, side) && Stored(d, delta) && i <= |side| && j <= |delta| && i + j > 0
    ensures var k := PickTop(d, side, i, delta, j);
            Beats(d, k.top.price, side, k.i) && Beats(d, k.top.price, delta, k.j)
  {
    var k := PickTop(d, side, i, delta, j);
    forall t | 0 <= t < k.i ensures Better(d, k.top.price, side[t].price) {
      assert t < i - 1 ==> Better(d, side[i - 1].price, side[t].price);
    }
    forall t | 0 <= t < k.j ensures Better(d, k.top.price, delta[t].price) {
      assert t < j - 1 ==> Better(d, delta[j - 1].price, delta[t].price);
    }
  }

  lemma {:induction false} FoldPrefix(m: Levels, a: seq<PriceLevel>, b: seq<PriceLevel>, n: nat)
    requires n <= |a| && n <= |b| && forall i :: 0 <= i < n ==> a[i] == b[i]
    ensures FoldTo(m, a, n) == FoldTo(m, b, n)
  {
    if n > 0 {
      FoldPrefix(m, a, b, n - 1);
    }
  }

  lemma {:induction false} AppendKept(d: Side, s: seq<PriceLevel>, n: PriceLevel)
    requires IsSide(d, s) && Beats(d, n.price, s, |s|)
    ensures IsSide(d, s + Kept(n))
    ensures ToMap(s + Kept(n)) == Set(ToMap(s), n.price, n.qty)
  {
    if n.qty != 0 {
      FoldPrefix(map[], s, s + [n], |s|);
    } else {
      SideAt(d, s);
      BeatenAbsent(d, n.price, s, |s|);
      assert s + Kept(n) == s;
    }
  }

  /** delta[..j] carries quantity q for price p. */
  ghost predicate Carries(delta: seq<PriceLevel>, j: nat, p: u64, q: u64)
    requires j <= |delta|
  {
    exists t :: 0 <= t < j && delta[t] == PriceLevel(p, q)
  }

  lemma {:induction false} PickChange(d: Side, side: seq<PriceLevel>, i: nat, delta: seq<PriceLevel>, j: nat, p: u64,
      q: u64)
    requires IsSide(d, side) && Stored(d, delta) && i <= |side| && j <= |delta| && i + j > 0
    ensures var k := PickTop(d, side, i, delta, j);
            && (p == k.top.price ==> Get(FoldTo(map[], side, i), p) == k.before && !Carries(delta, k.j, p, q))
            && (p != k.top.price ==> Get(FoldTo(map[], side, i), p) == Get(FoldTo(map[], side, k.i), p))
            && (p != k.top.price ==> (Carries(delta, j, p, q) <==> Carries(delta, k.j, p, q)))
            && (p == k.top.price && k.before != q ==> (Carries(delta, j, p, q) <==> q == k.top.qty))
  {
    var k := PickTop(d, side, i, delta, j);
    PickOrder(d, side, i, delta, j);
    BeatenAbsent(d, k.top.price, side, k.i);
    if k.j < j && p == k.top.price && q == k.top.qty {
      assert delta[k.j] == PriceLevel(p, q);
    }
  }

  lemma {:induction false} ChangesAt(d: Side, side: seq<PriceLevel>, i: nat, delta: seq<PriceLevel>, j: nat,
      c: LevelChange)
    requires IsSide(d, side) && Stored(d, delta) && i <= |side| && j <= |delta|
    ensures c in Changes(d, side, i, delta, j) <==>
            Carries(delta, j, c.price, c.newQty) && c.oldQty == Get(FoldTo(map[], side, i), c.price)
                && c.oldQty != c.newQty
    decreases i + j
  {
    if i + j > 0 {
      var k := PickTop(d, side, i, delta, j);
      PickChange(d, side, i, delta, j, c.price, c.newQty);
      ChangesAt(d, side, k.i, delta, k.j, c);
    }
  }

  lemma {:induction false} PrependBestFirst(d: Side, c: LevelChange, cs: seq<LevelChange>)
    requires BestFirst(d, ChangePrices(cs))
    requires forall i :: 0 <= i < |cs| ==> Better(d, c.price, cs[i].price)
    ensures BestFirst(d, ChangePrices([c] + cs))
    ensures [] + cs == cs
  {
    var ps, qs := ChangePrices([c] + cs), ChangePrices(cs);
    hide BestFirst;
    forall j | 0 < j < |ps| ensures ps[j] == qs[j - 1] == cs[j - 1].price {
      assert ([c] + cs)[j] == cs[j - 1];
    }
    BestFirstFrom(d, ps, qs);
  }

  /** A best-first list stays one with a better price in front. */
  lemma {:induction false} BestFirstFrom(d: Side, ps: seq<u64>, qs: seq<u64>)
    requires BestFirst(d, qs) && |ps| == |qs| + 1
    requires forall j :: 0 < j < |ps| ==> ps[j] == qs[j - 1] && Better(d, ps[0], ps[j])
    ensures BestFirst(d, ps)
  {
    forall i, j | 0 <= i < j < |ps| ensures Better(d, ps[i], ps[j]) {
      if i > 0 {
        InOrder(d, qs, i - 1, j - 1);
      }
    }
  }

  lemma {:induction false} ChangesBestFirst(d: Side, side: seq<PriceLevel>, i: nat, delta: seq<PriceLevel>, j: nat)
    requires IsSide(d, side) && Stored(d, delta) && i <= |side| && j <= |delta|
    ensures BestFirst(d, ChangePrices(Changes(d, side, i, delta, j)))
    decreases i + j
  {
    if i + j > 0 {
      var k := PickTop(d, side, i, delta, j);
      PickOrder(d, side, i, delta, j);
      ChangesBestFirst(d, side, k.i, delta, k.j);
      var cs := Changes(d, side, k.i, delta, k.j);
      forall t | 0 <= t < |cs| ensures Better(d, k.top.price, cs[t].price) {
        ChangesAt(d, side, k.i, delta, k.j, cs[t]);
      }
      PrependBestFirst(d, LevelChange(k.top.price, k.before, k.top.qty), cs);
    }
  }

  lemma {:induction false} ChangeSound(d: Side, side: seq<PriceLevel>, delta: seq<PriceLevel>, c: LevelChange)
    requires IsSide(d, side) && Stored(d, delta) && c in Changes(d, side, |side|, delta, |delta|)
    ensures c.oldQty == Get(ToMap(side), c.price) != c.newQty == Get(Fold(ToMap(side), delta), c.price)
  {
    ChangesAt(d, side, |side|, delta, |delta|, c);
    var t :| 0 <= t < |delta| && delta[t] == PriceLevel(c.price, c.newQty);
    StoredDistinct(d, delta);
    FoldHit(ToMap(side), delta, |delta|, t);
  }

  lemma {:induction false} ChangeComplete(d: Side, side: seq<PriceLevel>, delta: seq<PriceLevel>, p: u64)
    requires IsSide(d, side) && Stored(d, delta) && Get(ToMap(side), p) != Get(Fold(ToMap(side), delta), p)
    ensures p in ChangePrices(Changes(d, side, |side|, delta, |delta|))
  {
    if t :| 0 <= t < |delta| && delta[t].price == p {
      StoredDistinct(d, delta);
      FoldHit(ToMap(side), delta, |delta|, t);
      var cs := Changes(d, side, |side|, delta, |delta|);
      var c := LevelChange(p, Get(ToMap(side), p), delta[t].qty);
      ChangesAt(d, side, |side|, delta, |delta|, c);
      assert Carries(delta, |delta|, p, delta[t].qty);
      var i :| 0 <= i < |cs| && cs[i] == c;
      assert ChangePrices(cs)[i] == p;
    } else {
      FoldMiss(ToMap(side), delta, |delta|, p);
    }
  }

  /** The change list is exactly the difference the delta makes. */
  lemma {:induction false} ChangesExact(d: Side, side: seq<PriceLevel>, delta: seq<PriceLevel>)
    requires IsSide(d, side) && Stored(d, delta)
    ensures IsDiff(d, ToMap(side), Fold(ToMap(side), delta), Changes(d, side, |side|, delta, |delta|))
  {
    var m, n, cs := ToMap(side), Fold(ToMap(side), delta), Changes(d, side, |side|, delta, |delta|);
    ChangesBestFirst(d, side, |side|, delta, |delta|);
    forall c | c in cs ensures c.oldQty == Get(m, c.price) && c.newQty == Get(n, c.price) && c.oldQty != c.newQty {
      ChangeSound(d, side, delta, c);
    }
    forall p | Get(m, p) != Get(n, p) ensures p in ChangePrices(cs) {
      ChangeComplete(d, side, delta, p);
    }
  }

  // ------------------------------------------------------ one pass, two passes --

  lemma {:induction false} OverlayNothing(d: Side, side: seq<PriceLevel>, i: nat, delta: seq<PriceLevel>)
    requires IsSide(d, side) && i <= |side|
    ensures Overlay(d, side, i, delta, 0) == side[..i]
    ensures Changes(d, side, i, delta, 0) == []
  {
    if i > 0 {
      OverlayNothing(d, side, i - 1, delta);
      assert side[..i] == side[..i - 1] + [side[i - 1]];
    }
  }

  /** A side some of whose quantities were already overwritten with what the delta carries for them. */
  ghost predicate Rewritten(before: seq<PriceLevel>, side: seq<PriceLevel>, delta: seq<PriceLevel>) {
    && |side| == |before|
    && forall k :: 0 <= k < |side| ==> side[k] == before[k] || Overwrites(before[k], side[k], delta)
  }

  ghost predicate Overwrites(was: PriceLevel, l: PriceLevel, delta: seq<PriceLevel>) {
    l.price == was.price && l.qty != 0 && l in delta
  }

  /** Writing a quantity the delta will write again changes nothing in the end. */
  lemma {:induction false} OverlayRewritten(d: Side, before: seq<PriceLevel>, side: seq<PriceLevel>, i: nat,
                                            delta: seq<PriceLevel>, j: nat)
    requires IsSide(d, before) && Ordered(d, delta) && Rewritten(before, side, delta)
    requires i <= |before| && j <= |delta|
    requires forall k, t :: 0 <= k < i && j <= t < |delta| ==> before[k].price != delta[t].price
    ensures Overlay(d, side, i, delta, j) == Overlay(d, before, i, delta, j)
    decreases i + j
  {
    if i + j > 0 {
      var x, y := PickTop(d, before, i, delta, j), PickTop(d, side, i, delta, j);
      PickBeatsSide(d, before, i, delta, j);
      assert x.i == y.i && x.j == y.j;
      if x.i < i && x.j == j {
        forall t | 0 <= t < |delta| ensures delta[t].price != before[x.i].price {
          assert t < j - 1 ==> !Better(d, delta[t].price, delta[j - 1].price);
        }
      }
      assert x.top == y.top;
      forall k, t | 0 <= k < x.i && x.j <= t < |delta| ensures before[k].price != delta[t].price {
        assert t < j ==> Better(d, x.top.price, before[k].price);
      }
      OverlayRewritten(d, before, side, x.i, delta, x.j);
    }
  }

  // ------------------------------------------------- resolving arrival order --

  ghost predicate SameLevels(a: seq<PriceLevel>, b: seq<PriceLevel>) {
    multiset(a) == multiset(b)
  }

  function Reversed(s: seq<PriceLevel>): (r: seq<PriceLevel>)
    ensures |r| == |s| && forall i :: 0 <= i < |s| ==> r[i] == s[|s| - 1 - i]
    ensures SameLevels(r, s)
  {
    if s == [] then []
    else
      assert s == DropLast(s) + [Last(s)];
      [Last(s)] + Reversed(DropLast(s))
  }

  /** No adjacent pair is out of storage order. */
  method OrderedFrom(d: Side, s: seq<PriceLevel>) returns (ok: bool)
    ensures ok == Ordered(d, s)
  {
    var i := 1;
    while i < |s|
      invariant 1 <= i && (i == 1 || i <= |s|)
      invariant i <= |s| ==> Ordered(d, s[..i])
    {
      if Better(d, s[i - 1].price, s[i].price) {
        return false;
      }
      forall a, b | 0 <= a < b < i + 1 ensures !Better(d, s[a].price, s[b].price) {
        assert b < i ==> !Better(d, s[..i][a].price, s[..i][b].price);
        assert b == i && a < i - 1 ==> !Better(d, s[..i][a].price, s[..i][i - 1].price);
      }
      i := i + 1;
    }
    assert |s| > 0 ==> s[..|s|] == s;
    ok := true;
  }

  function Insert(d: Side, s: seq<PriceLevel>, l: PriceLevel): (r: seq<PriceLevel>)
    ensures multiset(r) == multiset(s) + multiset{l}
  {
    if s == [] || Better(d, l.price, Last(s).price) then s + [l]
    else
      assert s == DropLast(s) + [Last(s)];
      Insert(d, DropLast(s), l) + [Last(s)]
  }

  lemma {:induction false} InsertOrdered(d: Side, s: seq<PriceLevel>, l: PriceLevel)
    requires Ordered(d, s)
    ensures Ordered(d, Insert(d, s, l))
  {
    if s == [] || Better(d, l.price, Last(s).price) {
      forall i | 0 <= i < |s| ensures !Better(d, s[i].price, l.price) {
        assert i < |s| - 1 ==> !Better(d, s[i].price, Last(s).price);
      }
    } else {
      InsertOrdered(d, DropLast(s), l);
      var r := Insert(d, DropLast(s), l);
      forall i | 0 <= i < |r| ensures !Better(d, r[i].price, Last(s).price) {
        assert r[i] in multiset(r);
        if r[i] != l {
          assert r[i] in multiset(DropLast(s));
          var j :| 0 <= j < |DropLast(s)| && DropLast(s)[j] == r[i];
        }
      }
    }
  }

  /** The rare shuffled delta: a sort by storage order. Nothing below depends on the order it leaves equal prices in. */
  function SortStored(d: Side, s: seq<PriceLevel>): (r: seq<PriceLevel>)
    ensures SameLevels(r, s)
  {
    if s == [] then []
    else
      assert s == DropLast(s) + [Last(s)];
      Insert(d, SortStored(d, DropLast(s)), Last(s))
  }

  lemma {:induction false} SortStoredOrders(d: Side, s: seq<PriceLevel>)
    ensures Ordered(d, SortStored(d, s))
  {
    if s != [] {
      SortStoredOrders(d, DropLast(s));
      InsertOrdered(d, SortStored(d, DropLast(s)), Last(s));
    }
  }

  /** Storage order as is, reversed, or sorted: whichever the arrival order needs. */
  method ResolveOrder(d: Side, levels: seq<PriceLevel>) returns (delta: seq<PriceLevel>)
    ensures Ordered(d, delta) && SameLevels(delta, levels)
  {
    var forward := OrderedFrom(d, levels);
    if forward {
      return levels;
    }
    delta := Reversed(levels);
    var backward := OrderedFrom(d, delta);
    if !backward {
      delta := SortStored(d, levels);
      SortStoredOrders(d, levels);
    }
  }

  lemma {:induction false} SameMembers(a: seq<PriceLevel>, b: seq<PriceLevel>)
    requires SameLevels(a, b)
    ensures |a| == |b| && forall l :: l in a <==> l in b
  {
    assert |multiset(a)| == |a| && |multiset(b)| == |b|;
    forall l ensures l in a <==> l in b {
      assert l in a <==> l in multiset(a);
      assert l in b <==> l in multiset(b);
    }
  }

  /** Two entries of a list, by their positions. */
  ghost predicate Both(s: seq<PriceLevel>, x: PriceLevel, y: PriceLevel) {
    exists i, j :: 0 <= i < |s| && 0 <= j < |s| && i != j && s[i] == x && s[j] == y
  }

  lemma {:induction false} BothOnce(s: seq<PriceLevel>, x: PriceLevel)
    ensures Both(s, x, x) <==> multiset(s)[x] >= 2
  {
    if s != [] {
      assert s == DropLast(s) + [Last(s)];
      BothOnce(DropLast(s), x);
      if Both(s, x, x) && !Both(DropLast(s), x, x) {
        var i, j :| 0 <= i < |s| && 0 <= j < |s| && i != j && s[i] == x && s[j] == x;
        var t := if i == |s| - 1 then j else i;
        assert DropLast(s)[t] == x;
        assert Last(s) == x;
      }
      if multiset(s)[x] >= 2 && multiset(DropLast(s))[x] < 2 {
        assert Last(s) == x && x in multiset(DropLast(s));
        var t :| 0 <= t < |DropLast(s)| && DropLast(s)[t] == x;
        assert s[t] == x && s[|s| - 1] == x;
      }
      if Both(DropLast(s), x, x) {
        var i, j :| 0 <= i < |s| - 1 && 0 <= j < |s| - 1 && i != j && DropLast(s)[i] == x && DropLast(s)[j] == x;
        assert s[i] == x && s[j] == x;
      }
    }
  }

  /** Reordering keeps every pair of entries. */
  lemma {:induction false} SamePairs(a: seq<PriceLevel>, b: seq<PriceLevel>, x: PriceLevel, y: PriceLevel)
    requires SameLevels(a, b) && Both(a, x, y)
    ensures Both(b, x, y)
  {
    SameMembers(a, b);
    if x == y {
      BothOnce(a, x);
      BothOnce(b, x);
    } else {
      assert x in a && y in a;
      var i :| 0 <= i < |b| && b[i] == x;
      var j :| 0 <= j < |b| && b[j] == y;
    }
  }

  /** The writes of a distinct delta do not depend on the order they arrive in. */
  lemma {:induction false} FoldOrderIrrelevant(m: Levels, a: seq<PriceLevel>, b: seq<PriceLevel>)
    requires NoZero(m) && Distinct(a) && Distinct(b) && SameLevels(a, b)
    ensures Fold(m, a) == Fold(m, b)
  {
    SameMembers(a, b);
    FoldAt(m, a);
    FoldAt(m, b);
    forall p ensures Get(Fold(m, a), p) == Get(Fold(m, b), p) {
      if Mentions(a, p) {
        var l :| l in a && l.price == p;
        assert l in b;
      } else {
        assert !Mentions(b, p);
      }
    }
    MapExt(Fold(m, a), Fold(m, b));
  }

  // ------------------------------------------------------------- the update --

  /**
   Positions of a forward merge: what was passed on either side is worse than
   what comes next on the other, unless the delta names the last price again.
   */
  ghost predicate Apart(d: Side, side: seq<PriceLevel>, read: nat, delta: seq<PriceLevel>, j: nat)
  {
    && read <= |side| && j <= |delta|
    && (read < |side| && j > 0 ==> Better(d, side[read].price, delta[j - 1].price))
    && (j < |delta| && read > 0 ==> Better(d, delta[j].price, side[read - 1].price) || Repeats(side, read, delta, j))
  }

  /** The delta's next level names the price that was just replaced. */
  predicate Repeats(side: seq<PriceLevel>, read: nat, delta: seq<PriceLevel>, j: nat)
    requires 0 < read <= |side| && j < |delta|
  {
    j > 0 && delta[j - 1].price == delta[j].price == side[read - 1].price
  }

  /** The staging buffer holds what follows side[..deepest] in the overlay so far. */
  ghost predicate Staged(d: Side, side: seq<PriceLevel>, deepest: nat, merged: seq<PriceLevel>,
                         read: nat, delta: seq<PriceLevel>, j: nat)
  {
    && deepest <= |side| && Apart(d, side, read, delta, j)
    && side[..deepest] + merged == Overlay(d, side, read, delta, j)
  }

  lemma {:induction false} StageNothing(d: Side, side: seq<PriceLevel>, deepest: nat, delta: seq<PriceLevel>)
    requires IsSide(d, side) && deepest <= |side|
    requires deepest > 0 && delta != [] ==> Better(d, delta[0].price, side[deepest - 1].price)
    ensures Staged(d, side, deepest, [], deepest, delta, 0)
  {
    OverlayNothing(d, side, deepest, delta);
  }

  lemma {:induction false} StageStep(d: Side, side: seq<PriceLevel>, deepest: nat, merged: seq<PriceLevel>, read: nat,
                  delta: seq<PriceLevel>, j: nat, read': nat, j': nat, x: seq<PriceLevel>)
    requires Staged(d, side, deepest, merged, read, delta, j) && Apart(d, side, read', delta, j')
    requires read' + j' > 0
    requires var k := PickTop(d, side, read', delta, j'); k.i == read && k.j == j && x == Kept(k.top)
    ensures Staged(d, side, deepest, merged + x, read', delta, j')
  {
    Assoc(side[..deepest], merged, x);
  }

  /** A level the delta replaces might as well not have been there. */
  lemma {:induction false} ReplacedIsGone(d: Side, side: seq<PriceLevel>, i: nat, delta: seq<PriceLevel>, j: nat)
    requires IsSide(d, side) && 0 < i <= |side| && 0 < j <= |delta| && side[i - 1].price == delta[j - 1].price
    ensures Overlay(d, side, i, delta, j) == Overlay(d, side, i - 1, delta, j)
  {
    StoredNext(d, side, i - 2);
  }

  /** The delta's next level enters, or takes the place of a repeat of its own price. */
  lemma {:induction false} StageEnter(d: Side, side: seq<PriceLevel>, deepest: nat, merged: seq<PriceLevel>, read: nat,
                                      delta: seq<PriceLevel>, j: nat)
    requires IsSide(d, side) && Ordered(d, delta) && Staged(d, side, deepest, merged, read, delta, j) && j < |delta|
    requires read < |side| ==> Better(d, side[read].price, delta[j].price)
    ensures Staged(d, side, deepest, merged + Kept(delta[j]), read, delta, j + 1)
  {
    OrderedNext(d, delta, j);
    Assoc(side[..deepest], merged, Kept(delta[j]));
    if read > 0 && !Better(d, delta[j].price, side[read - 1].price) {
      ReplacedIsGone(d, side, read, delta, j);
    }
  }

  /** Both name the same price: the delta's level replaces the side's. */
  lemma {:induction false} StageReplace(d: Side, side: seq<PriceLevel>, deepest: nat, merged: seq<PriceLevel>,
      read: nat,
                                        delta: seq<PriceLevel>, j: nat)
    requires IsSide(d, side) && Ordered(d, delta) && Staged(d, side, deepest, merged, read, delta, j)
    requires read < |side| && j < |delta| && side[read].price == delta[j].price
    ensures Staged(d, side, deepest, merged + Kept(delta[j]), read + 1, delta, j + 1)
  {
    OrderedNext(d, delta, j);
    StoredNext(d, side, read);
    StageStep(d, side, deepest, merged, read, delta, j, read + 1, j + 1, Kept(delta[j]));
  }

  /** The forward merge while both the region and the delta have levels left. */
  method StageHeads(d: Side, side: seq<PriceLevel>, deepest: nat, delta: seq<PriceLevel>)
    returns (merged: seq<PriceLevel>, read: nat, j: nat)
    requires IsSide(d, side) && Ordered(d, delta) && Staged(d, side, deepest, [], deepest, delta, 0)
    ensures Staged(d, side, deepest, merged, read, delta, j)
    ensures read == |side| || j == |delta|
  {
    hide Overlay, Stored, Ordered;
    merged, read, j := [], deepest, 0;
    while read < |side| && j < |delta|
      invariant Staged(d, side, deepest, merged, read, delta, j)
      decreases |side| + |delta| - read - j
    {
      var bookLevel, newLevel := side[read], delta[j];
      if Better(d, newLevel.price, bookLevel.price) {
        StoredNext(d, side, read);
        StageStep(d, side, deepest, merged, read, delta, j, read + 1, j, [bookLevel]);
        merged := merged + [bookLevel];
        read := read + 1;
      } else if Better(d, bookLevel.price, newLevel.price) {
        StageEnter(d, side, deepest, merged, read, delta, j);
        merged := merged + Kept(newLevel);
        j := j + 1;
      } else {
        StageReplace(d, side, deepest, merged, read, delta, j);
        merged := merged + Kept(newLevel);
        read := read + 1;
        j := j + 1;
      }
    }
  }

  /** The delta is used up: the rest of the region is taken over as it is. */
  method StageBook(d: Side, side: seq<PriceLevel>, deepest: nat, delta: seq<PriceLevel>, merged0: seq<PriceLevel>,
      read0: nat)
    returns (merged: seq<PriceLevel>)
    requires IsSide(d, side) && Staged(d, side, deepest, merged0, read0, delta, |delta|)
    ensures Staged(d, side, deepest, merged, |side|, delta, |delta|)
  {
    merged := merged0;
    var read := read0;
    while read < |side|
      invariant Staged(d, side, deepest, merged, read, delta, |delta|)
    {
      StoredNext(d, side, read);
      StageStep(d, side, deepest, merged, read, delta, |delta|, read + 1, |delta|, [side[read]]);
      merged := merged + [side[read]];
      read := read + 1;
    }
  }

  /** The region is used up: the rest of the delta is appended, and the buffer copied back behind the untouched part. */
  method StageDelta(d: Side, side: seq<PriceLevel>, deepest: nat, delta: seq<PriceLevel>, merged0: seq<PriceLevel>,
      j0: nat)
    returns (out: seq<PriceLevel>)
    requires IsSide(d, side) && Ordered(d, delta) && Staged(d, side, deepest, merged0, |side|, delta, j0)
    ensures out == Overlay(d, side, |side|, delta, |delta|)
    ensures side[..deepest] <= out
  {
    var merged, j := merged0, j0;
    while j < |delta|
      invariant Staged(d, side, deepest, merged, |side|, delta, j)
    {
      StageEnter(d, side, deepest, merged, |side|, delta, j);
      merged := merged + Kept(delta[j]);
      j := j + 1;
    }
    out := side[..deepest] + merged;
  }

  /**
   Rewrites side[deepest..] merged with the delta, staged through a third
   buffer. Any region start below every delta price gives the same side, and
   what lies below it is untouched.
   */
  method Relocate(d: Side, side: seq<PriceLevel>, deepest: nat, delta: seq<PriceLevel>) returns (out: seq<PriceLevel>)
    requires IsSide(d, side) && Ordered(d, delta) && deepest <= |side|
    requires deepest > 0 && delta != [] ==> Better(d, delta[0].price, side[deepest - 1].price)
    ensures out == Overlay(d, side, |side|, delta, |delta|)
    ensures side[..deepest] <= out
  {
    StageNothing(d, side, deepest, delta);
    var merged, read, j := StageHeads(d, side, deepest, delta);
    if read < |side| {
      merged := StageBook(d, side, deepest, delta, merged, read);
    }
    out := StageDelta(d, side, deepest, delta, merged, j);
  }

  /**
   The backward walk with before[..i] and delta[..j] still ahead of it: the
   transitions collected so far, the quantities written so far, and, as long as
   nothing entered or left, the levels behind it final where they stand.
   */
  ghost predicate Walking(d: Side, before: seq<PriceLevel>, side: seq<PriceLevel>, i: nat, delta: seq<PriceLevel>,
      j: nat,
                          collect: bool, changes: seq<LevelChange>, moves: nat)
  {
    && Placed(d, before, side, i, delta, j)
    && (if collect then changes + Changes(d, before, i, delta, j) == Changes(d, before, |before|, delta, |delta|)
        else changes == [])
    && (moves == 0 ==>
          Overlay(d, before, i, delta, j) + side[i..] == Overlay(d, before, |before|, delta, |delta|))
  }

  ghost predicate Placed(d: Side, before: seq<PriceLevel>, side: seq<PriceLevel>, i: nat, delta: seq<PriceLevel>,
      j: nat)
  {
    && i <= |before| && j <= |delta|
    && Rewritten(before, side, delta)
    && (forall t :: 0 <= t < i ==> side[t] == before[t])
    && (i > 0 && j < |delta| ==> Better(d, delta[j].price, before[i - 1].price))
  }

  lemma {:induction false} PlacedStep(d: Side, before: seq<PriceLevel>, side: seq<PriceLevel>, i: nat,
      delta: seq<PriceLevel>, j: nat,
                   side': seq<PriceLevel>, i': nat, j': nat)
    requires IsSide(d, before) && Ordered(d, delta) && j > 0 && Placed(d, before, side, i, delta, j)
    requires
      var k := PickTop(d, before, i, delta, j);
      && i' == k.i && j' == k.j
      && (side' == side || (k.i < i && side' == side[k.i := k.top] && k.top.qty != 0))
    ensures Placed(d, before, side', i', delta, j')
  {
    var k := PickTop(d, before, i, delta, j);
    PickBeatsSide(d, before, i, delta, j);
    assert side' == side || side'[i'] == side[i'] || Overwrites(before[i'], side'[i'], delta);
  }

  lemma {:induction false} PickSplit(d: Side, side: seq<PriceLevel>, i: nat, delta: seq<PriceLevel>, j: nat,
                  changes: seq<LevelChange>, tail: seq<PriceLevel>)
    requires i <= |side| && j <= |delta| && i + j > 0
    ensures
      var k := PickTop(d, side, i, delta, j);
      && changes + Changes(d, side, i, delta, j)
           == (changes + Noted(k.top.price, k.before, k.top.qty)) + Changes(d, side, k.i, delta, k.j)
      && Overlay(d, side, i, delta, j) + tail == Overlay(d, side, k.i, delta, k.j) + (Kept(k.top) + tail)
  {
    var k := PickTop(d, side, i, delta, j);
    Assoc(changes, Noted(k.top.price, k.before, k.top.qty), Changes(d, side, k.i, delta, k.j));
    Assoc(Overlay(d, side, k.i, delta, k.j), Kept(k.top), tail);
  }

  lemma {:induction false} TailStep(side: seq<PriceLevel>, side': seq<PriceLevel>, i: nat, i': nat,
      kept: seq<PriceLevel>)
    requires |side| == |side'| && i' <= i <= |side| && forall t :: i <= t < |side| ==> side'[t] == side[t]
    requires if i' == i then kept == [] else i' == i - 1 && kept == [side'[i']]
    ensures side'[i'..] == kept + side[i..]
  {
  }

  lemma {:induction false} WalkStep(d: Side, before: seq<PriceLevel>, side: seq<PriceLevel>, i: nat,
      delta: seq<PriceLevel>, j: nat,
                 collect: bool, changes: seq<LevelChange>, moves: nat,
                 side': seq<PriceLevel>, i': nat, j': nat, changes': seq<LevelChange>, moves': nat)
    requires IsSide(d, before) && Ordered(d, delta) && j > 0
    requires Placed(d, before, side', i', delta, j')
    requires Walking(d, before, side, i, delta, j, collect, changes, moves)
    requires
      var k := PickTop(d, before, i, delta, j);
      && i' == k.i && j' == k.j && i' <= i
      && changes' == (if collect then changes + Noted(k.top.price, k.before, k.top.qty) else changes)
      && moves' >= moves
      && (side' == side || (k.i < i && side' == side[k.i := k.top] && k.top.qty != 0))
      && (moves' == 0 ==> if k.i == i then Kept(k.top) == [] else Kept(k.top) == [side'[k.i]])
    ensures Walking(d, before, side', i', delta, j', collect, changes', moves')
  {
    PickSplit(d, before, i, delta, j, changes, side[i..]);
    if moves' == 0 {
      TailStep(side, side', i, i', Kept(PickTop(d, before, i, delta, j).top));
    }
  }

  lemma {:induction false} WalkEnd(d: Side, before: seq<PriceLevel>, side: seq<PriceLevel>, i: nat,
      delta: seq<PriceLevel>,
                collect: bool, changes: seq<LevelChange>, moves: nat)
    requires IsSide(d, before) && Walking(d, before, side, i, delta, 0, collect, changes, moves)
    ensures changes == if collect then Changes(d, before, |before|, delta, |delta|) else []
    ensures moves == 0 ==> side == Overlay(d, before, |before|, delta, |delta|)
  {
    OverlayNothing(d, before, i, delta);
    assert before[..i] + side[i..] == side;
  }

  /** A delta level no book level carries: a new price unless its quantity is 0, which removes nothing. */
  method Enter(n: PriceLevel, collect: bool, changes: seq<LevelChange>, moves: nat)
    returns (changes': seq<LevelChange>, moves': nat)
    ensures changes' == if collect then changes + Noted(n.price, 0, n.qty) else changes
    ensures moves' == moves + |Kept(n)|
  {
    changes', moves' := changes, moves;
    if n.qty != 0 {
      moves' := moves + 1;
      if collect {
        changes' := changes + [LevelChange(n.price, 0, n.qty)];
      }
    }
  }

  /** A delta level on a price the book has: removed, rewritten in place, or a repeat that changes nothing. */
  method Replace(b: PriceLevel, n: PriceLevel, collect: bool, changes: seq<LevelChange>, moves: nat)
    returns (changes': seq<LevelChange>, moves': nat, level: PriceLevel)
    requires b.price == n.price && b.qty != 0
    ensures changes' == if collect then changes + Noted(n.price, b.qty, n.qty) else changes
    ensures n.qty == 0 ==> moves' == moves + 1 && level == b
    ensures n.qty != 0 ==> moves' == moves && level == n
  {
    changes', moves', level := changes, moves, b;
    if n.qty == 0 {
      moves' := moves + 1;
      if collect {
        changes' := changes + [LevelChange(b.price, b.qty, 0)];
      }
    } else if b.qty != n.qty {
      if collect {
        changes' := changes + [LevelChange(b.price, b.qty, n.qty)];
      }
      level := b.(qty := n.qty);
    }
  }

  /**
   The walk while both the book and the delta have levels left: writes quantities in
   place, counts what enters and leaves.
   */
  method WalkBack(d: Side, before: seq<PriceLevel>, delta: seq<PriceLevel>, collect: bool)
    returns (side: seq<PriceLevel>, changes: seq<LevelChange>, moves: nat, i: nat, j: nat)
    requires IsSide(d, before) && Ordered(d, delta)
    ensures Walking(d, before, side, i, delta, j, collect, changes, moves)
    ensures i == 0 || j == 0
  {
    side, changes, moves := before, [], 0;
    i, j := |side|, |delta|;
    while i > 0 && j > 0
      invariant Walking(d, before, side, i, delta, j, collect, changes, moves)
      decreases i + j
    {
      ghost var side0, changes0, moves0, i0, j0 := side, changes, moves, i, j;
      var b, n := side[i - 1], delta[j - 1];
      if Better(d, n.price, b.price) {
        changes, moves := Enter(n, collect, changes, moves);
        j := j - 1;
      } else if Better(d, b.price, n.price) {
        i := i - 1;
      } else {
        var level;
        changes, moves, level := Replace(b, n, collect, changes, moves);
        side := side[i - 1 := level];
        i := i - 1;
        j := j - 1;
      }
      PlacedStep(d, before, side0, i0, delta, j0, side, i, j);
      WalkStep(d, before, side0, i0, delta, j0, collect, changes0, moves0, side, i, j, changes, moves);
    }
  }

  /** The whole walk: what is left of the delta is worse than every level in the book and extends the far end. */
  method Walk(d: Side, before: seq<PriceLevel>, delta: seq<PriceLevel>, collect: bool)
    returns (side: seq<PriceLevel>, changes: seq<LevelChange>, moves: nat, deepest: nat)
    requires IsSide(d, before) && Ordered(d, delta)
    ensures Rewritten(before, side, delta) && deepest <= |side|
    ensures deepest > 0 && delta != [] ==> Better(d, delta[0].price, side[deepest - 1].price)
    ensures changes == if collect then Changes(d, before, |before|, delta, |delta|) else []
    ensures moves == 0 ==> side == Overlay(d, before, |before|, delta, |delta|)
  {
    var j;
    side, changes, moves, deepest, j := WalkBack(d, before, delta, collect);
    while j > 0
      invariant Walking(d, before, side, deepest, delta, j, collect, changes, moves)
      invariant j > 0 ==> deepest == 0
    {
      ghost var changes0, moves0 := changes, moves;
      var n := delta[j - 1];
      changes, moves := Enter(n, collect, changes, moves);
      j := j - 1;
      PlacedStep(d, before, side, deepest, delta, j + 1, side, deepest, j);
      WalkStep(d, before, side, deepest, delta, j + 1, collect, changes0, moves0, side, deepest, j, changes, moves);
    }
    WalkEnd(d, before, side, deepest, delta, collect, changes, moves);
  }

  // ------------------------------------------------------- repeated prices --

  ghost predicate Among(s: seq<PriceLevel>, n: nat, l: PriceLevel)
    requires n <= |s|
  {
    exists t :: 0 <= t < n && s[t] == l
  }

  ghost predicate Named(s: seq<PriceLevel>, n: nat, p: u64)
    requires n <= |s|
  {
    exists t :: 0 <= t < n && s[t].price == p
  }

  lemma {:induction false} AmongNext(s: seq<PriceLevel>, n: nat, l: PriceLevel)
    requires n < |s|
    ensures Among(s, n + 1, l) <==> Among(s, n, l) || l == s[n]
    ensures Named(s, n + 1, l.price) <==> Named(s, n, l.price) || l.price == s[n].price
  {
    assert s[n] == s[n];
  }

  lemma {:induction false} BeatenApart(d: Side, s: seq<PriceLevel>, n: nat, p: u64, l: PriceLevel)
    requires n <= |s| && Beats(d, p, s, n) && Among(s, n, l)
    ensures l.price != p
  {
  }

  /** A side level the pick leaves to itself is named nowhere in the delta so far. */
  lemma {:induction false} PickUnnamed(d: Side, side: seq<PriceLevel>, i: nat, delta: seq<PriceLevel>, j: nat)
    requires Ordered(d, delta) && i <= |side| && j <= |delta| && i + j > 0
    requires var k := PickTop(d, side, i, delta, j); k.j == j
    ensures i > 0 && !Named(delta, j, side[i - 1].price)
  {
    forall t | 0 <= t < j ensures delta[t].price != side[i - 1].price {
      assert t < j - 1 ==> !Better(d, delta[t].price, delta[j - 1].price);
    }
  }

  /** What the overlay consists of: the side's levels at prices the delta does not name, and the delta's own. */
  lemma {:induction false} OverlayHas(d: Side, side: seq<PriceLevel>, i: nat, delta: seq<PriceLevel>, j: nat,
      l: PriceLevel)
    requires IsSide(d, side) && Ordered(d, delta) && i <= |side| && j <= |delta|
    ensures l in Overlay(d, side, i, delta, j) <==>
              (Among(side, i, l) && !Named(delta, j, l.price)) || (Among(delta, j, l) && l.qty != 0)
    decreases i + j
  {
    if i + j > 0 {
      var k := PickTop(d, side, i, delta, j);
      OverlayHas(d, side, k.i, delta, k.j, l);
      PickBeatsSide(d, side, i, delta, j);
      hide Among, Named, Beats, Ordered;
      if k.i < i {
        AmongNext(side, k.i, l);
      }
      if k.j < j {
        AmongNext(delta, k.j, l);
        if Among(side, k.i, l) {
          BeatenApart(d, side, k.i, k.top.price, l);
        }
      } else {
        PickUnnamed(d, side, i, delta, j);
      }
    }
  }

  /** No price carries two quantities in the first j levels. */
  ghost predicate Single(delta: seq<PriceLevel>, j: nat)
    requires j <= |delta|
  {
    forall a, b :: 0 <= a < b < j && delta[a].price == delta[b].price ==> delta[a].qty == 0 || delta[b].qty == 0
  }

  /** Then the overlay is strictly sorted all the same. */
  lemma {:induction false} OverlaySorted(d: Side, side: seq<PriceLevel>, i: nat, delta: seq<PriceLevel>, j: nat)
    requires IsSide(d, side) && Ordered(d, delta) && i <= |side| && j <= |delta| && Single(delta, j)
    ensures IsSide(d, Overlay(d, side, i, delta, j))
    decreases i + j
  {
    if i + j > 0 {
      var k := PickTop(d, side, i, delta, j);
      OverlaySorted(d, side, k.i, delta, k.j);
      var s := Overlay(d, side, k.i, delta, k.j);
      if k.top.qty != 0 {
        PickBeatsSide(d, side, i, delta, j);
        forall t | 0 <= t < |s| ensures Better(d, k.top.price, s[t].price) {
          OverlayHas(d, side, k.i, delta, k.j, s[t]);
          PickBeatsRest(d, side, i, delta, j, s[t]);
        }
        AppendKept(d, s, k.top);
      }
    }
  }

  /** A pick that carries a quantity beats every level below it that does. */
  lemma {:induction false} PickBeatsRest(d: Side, side: seq<PriceLevel>, i: nat, delta: seq<PriceLevel>, j: nat,
      l: PriceLevel)
    requires IsSide(d, side) && Ordered(d, delta) && i <= |side| && j <= |delta| && i + j > 0 && Single(delta, j)
    requires var k := PickTop(d, side, i, delta, j);
             k.top.qty != 0 && (Among(side, k.i, l) || (Among(delta, k.j, l) && l.qty != 0))
    ensures Better(d, PickTop(d, side, i, delta, j).top.price, l.price)
  {
    var k := PickTop(d, side, i, delta, j);
    PickBeatsSide(d, side, i, delta, j);
    if Among(delta, k.j, l) && l.qty != 0 {
      var t :| 0 <= t < k.j && delta[t] == l;
      assert t < j - 1 ==> !Better(d, delta[t].price, delta[j - 1].price);
    }
  }

  /** Two quantities for one price are both stored, so the side is no longer sorted. */
  lemma {:induction false} OverlayTwice(d: Side, side: seq<PriceLevel>, i: nat, delta: seq<PriceLevel>, j: nat, a: nat,
      b: nat)
    requires IsSide(d, side) && Ordered(d, delta) && i <= |side| && a < b < j <= |delta|
    requires delta[a].price == delta[b].price && delta[a].qty != 0 && delta[b].qty != 0
    ensures !Stored(d, Overlay(d, side, i, delta, j))
    decreases i + j
  {
    var k := PickTop(d, side, i, delta, j);
    var s, r := Overlay(d, side, k.i, delta, k.j), Overlay(d, side, i, delta, j);
    if b < k.j {
      OverlayTwice(d, side, k.i, delta, k.j, a, b);
      if Stored(d, r) {
        forall x, y | 0 <= x < y < |s| ensures Better(d, s[y].price, s[x].price) {
          assert Better(d, r[y].price, r[x].price);
        }
      }
    } else {
      OverlayHas(d, side, k.i, delta, k.j, delta[a]);
      assert Among(delta, k.j, delta[a]);
      var t :| 0 <= t < |s| && s[t] == delta[a];
      assert r[|s|] == delta[b] && r[t] == s[t];
      assert !Better(d, r[|s|].price, r[t].price);
    }
  }

  /** Quantity a map gets at a price from the last of a delta's levels that name it. */
  lemma {:induction false} FoldLast(m: Levels, delta: seq<PriceLevel>, n: nat, p: u64) returns (t: nat)
    requires n <= |delta| && Named(delta, n, p)
    ensures t < n && delta[t].price == p && Get(FoldTo(m, delta, n), p) == delta[t].qty
    ensures forall i :: t < i < n ==> delta[i].price != p
  {
    if delta[n - 1].price == p {
      t := n - 1;
    } else {
      t := FoldLast(m, delta, n - 1, p);
    }
  }

  /** A side holds a quantity at a price exactly when that level is in it. */
  lemma {:induction false} SideHas(d: Side, s: seq<PriceLevel>, l: PriceLevel)
    requires IsSide(d, s) && l.qty != 0
    ensures Get(ToMap(s), l.price) == l.qty <==> l in s
  {
    SideAt(d, s);
    if Mentions(s, l.price) {
      var x :| x in s && x.price == l.price;
    }
  }

  /** The result of a delta whose prices may repeat, at one price. */
  lemma {:induction false} RepeatedAt(d: Side, before: seq<PriceLevel>, delta: seq<PriceLevel>,
      levels: seq<PriceLevel>, l: PriceLevel)
    requires IsSide(d, before) && Ordered(d, delta) && SameLevels(delta, levels) && l.qty != 0
    requires LastCarries(levels)
    ensures l in Overlay(d, before, |before|, delta, |delta|) <==> Get(Fold(ToMap(before), levels), l.price) == l.qty
  {
    OverlayHas(d, before, |before|, delta, |delta|, l);
    SameMembers(delta, levels);
    SideHas(d, before, l);
    if Named(levels, |levels|, l.price) {
      var t := FoldLast(ToMap(before), levels, |levels|, l.price);
      assert levels[t] in levels && levels[t] in delta;
      var u :| 0 <= u < |delta| && delta[u] == levels[t];
      if l in delta {
        assert l in levels;
        var v :| 0 <= v < |levels| && levels[v] == l;
        assert v <= t;
      }
      assert l in delta <==> levels[t] == l;
    } else {
      FoldMiss(ToMap(before), levels, |levels|, l.price);
      forall v | 0 <= v < |delta| ensures delta[v].price != l.price {
        assert delta[v] in delta && delta[v] in levels;
      }
      assert Among(before, |before|, l) <==> l in before;
    }
  }

  lemma {:induction false} SingleToo(a: seq<PriceLevel>, b: seq<PriceLevel>)
    requires SameLevels(a, b) && Single(a, |a|)
    ensures Single(b, |b|)
  {
    forall x, y | 0 <= x < y < |b| && b[x].price == b[y].price ensures b[x].qty == 0 || b[y].qty == 0 {
      assert Both(b, b[x], b[y]);
      SamePairs(b, a, b[x], b[y]);
    }
  }

  /** The result is strictly sorted exactly when no price carries two quantities. */
  lemma {:induction false} SortedIff(d: Side, before: seq<PriceLevel>, delta: seq<PriceLevel>, levels: seq<PriceLevel>)
    requires IsSide(d, before) && Ordered(d, delta) && SameLevels(delta, levels)
    ensures IsSide(d, Overlay(d, before, |before|, delta, |delta|)) <==> Single(levels, |levels|)
  {
    if Single(levels, |levels|) {
      SingleToo(levels, delta);
      OverlaySorted(d, before, |before|, delta, |delta|);
    } else {
      if Single(delta, |delta|) {
        SingleToo(delta, levels);
      }
      var a, b :| 0 <= a < b < |delta| && delta[a].price == delta[b].price && delta[a].qty != 0 && delta[b].qty != 0;
      OverlayTwice(d, before, |before|, delta, |delta|, a, b);
    }
  }

  /** Whatever the delta: the overlay is the side the plain map asks for. */
  ghost predicate Applies(d: Side, before: seq<PriceLevel>, levels: seq<PriceLevel>, side: seq<PriceLevel>) {
    IsSide(d, side) && ToMap(side) == Fold(ToMap(before), levels)
  }

  lemma {:induction false} RepeatedApplies(d: Side, before: seq<PriceLevel>, delta: seq<PriceLevel>,
      levels: seq<PriceLevel>)
    requires IsSide(d, before) && Ordered(d, delta) && SameLevels(delta, levels) && LastCarries(levels)
    ensures Applies(d, before, levels, Overlay(d, before, |before|, delta, |delta|))
  {
    var out, want := Overlay(d, before, |before|, delta, |delta|), Fold(ToMap(before), levels);
    SortedIff(d, before, delta, levels);
    SideAt(d, before);
    SideAt(d, out);
    FoldNoZero(ToMap(before), levels, |levels|);
    forall p ensures Get(ToMap(out), p) == Get(want, p) {
      if Get(ToMap(out), p) != 0 {
        var l := PriceLevel(p, Get(ToMap(out), p));
        SideHas(d, out, l);
        RepeatedAt(d, before, delta, levels, l);
      } else if Get(want, p) != 0 {
        var l := PriceLevel(p, Get(want, p));
        SideHas(d, out, l);
        RepeatedAt(d, before, delta, levels, l);
      }
    }
    MapExt(ToMap(out), want);
  }

  lemma {:induction false} RepeatedFails(d: Side, before: seq<PriceLevel>, delta: seq<PriceLevel>,
      levels: seq<PriceLevel>)
    requires IsSide(d, before) && Ordered(d, delta) && SameLevels(delta, levels) && !LastCarries(levels)
    ensures !Applies(d, before, levels, Overlay(d, before, |before|, delta, |delta|))
  {
    var out := Overlay(d, before, |before|, delta, |delta|);
    var i, j :| 0 <= i < j < |levels| && levels[i].price == levels[j].price && levels[i].qty != 0;
    SameMembers(delta, levels);
    assert Named(levels, |levels|, levels[i].price);
    var t := FoldLast(ToMap(before), levels, |levels|, levels[i].price);
    assert i < t;
    if levels[t].qty == 0 {
      assert levels[i] in levels && levels[i] in delta;
      var v :| 0 <= v < |delta| && delta[v] == levels[i];
      OverlayHas(d, before, |before|, delta, |delta|, levels[i]);
      if IsSide(d, out) {
        SideHas(d, out, levels[i]);
      }
    } else {
      assert Both(levels, levels[i], levels[t]);
      SamePairs(levels, delta, levels[i], levels[t]);
      var a, b :| 0 <= a < |delta| && 0 <= b < |delta| && a != b && delta[a] == levels[i] && delta[b] == levels[t];
      OverlayTwice(d, before, |before|, delta, |delta|, if a < b then a else b, if a < b then b else a);
    }
  }

  /**
   One side of an update, whatever order its levels arrived in. It is the plain
   map after the delta's writes exactly when, of the levels that name one price,
   only the last carries a quantity; when no price is named twice the collected
   changes are exactly the difference.
   */
  method ApplySide(d: Side, before: seq<PriceLevel>, levels: seq<PriceLevel>, collect: bool)
    returns (side: seq<PriceLevel>, changes: seq<LevelChange>)
    requires IsSide(d, before)
    ensures IsSide(d, side) <==> Single(levels, |levels|)
    ensures Applies(d, before, levels, side) <==> LastCarries(levels)
    ensures Distinct(levels) ==> Applies(d, before, levels, side)
    ensures Distinct(levels) && collect ==> IsDiff(d, ToMap(before), ToMap(side), changes)
    ensures !collect ==> changes == []
  {
    if levels == [] {
      NothingApplied(d, before);
      return before, [];
    }
    var delta := ResolveOrder(d, levels);
    var moves, deepest;
    side, changes, moves, deepest := Walk(d, before, delta, collect);
    if moves != 0 {
      OverlayRewritten(d, before, side, |side|, delta, |delta|);
      side := Relocate(d, side, deepest, delta);
    }
    Outcome(d, before, delta, levels);
  }

  lemma {:induction false} NothingApplied(d: Side, before: seq<PriceLevel>)
    requires IsSide(d, before)
    ensures Applies(d, before, [], before) && IsDiff(d, ToMap(before), ToMap(before), [])
  {
    assert ChangePrices([]) == [];
  }

  /** What the overlay and its change list are worth, for any delta. */
  lemma {:induction false} Outcome(d: Side, before: seq<PriceLevel>, delta: seq<PriceLevel>, levels: seq<PriceLevel>)
    requires IsSide(d, before) && Ordered(d, delta) && SameLevels(delta, levels)
    ensures var out := Overlay(d, before, |before|, delta, |delta|);
            && (IsSide(d, out) <==> Single(levels, |levels|))
            && (Applies(d, before, levels, out) <==> LastCarries(levels)) && (Distinct(levels) ==> LastCarries(levels))
            && (Distinct(levels) ==> IsDiff(d, ToMap(before), ToMap(out), Changes(d, before, |before|, delta, |delta|)))
  {
    SortedIff(d, before, delta, levels);
    if LastCarries(levels) {
      RepeatedApplies(d, before, delta, levels);
    } else {
      RepeatedFails(d, before, delta, levels);
    }
    if Distinct(levels) {
      DistinctToo(delta, levels);
      OrderedDistinct(d, delta);
      SideAt(d, before);
      FoldOrderIrrelevant(ToMap(before), delta, levels);
      ChangesExact(d, before, delta);
    }
  }

  lemma {:induction false} DistinctToo(delta: seq<PriceLevel>, levels: seq<PriceLevel>)
    requires SameLevels(delta, levels) && Distinct(levels)
    ensures Distinct(delta)
  {
    forall a, b | 0 <= a < b < |delta| ensures delta[a].price != delta[b].price {
      assert Both(delta, delta[a], delta[b]);
      SamePairs(delta, levels, delta[a], delta[b]);
    }
  }

  /** A price named twice with a quantity is stored twice. */
  method RepeatIsStoredTwice() returns (side: seq<PriceLevel>)
    ensures !IsSide(Bid, side)
  {
    var levels := [PriceLevel(100, 1), PriceLevel(100, 2)];
    var changes;
    side, changes := ApplySide(Bid, [], levels, false);
    assert levels[0].price == levels[1].price && levels[0].qty != 0 && levels[1].qty != 0;
  }

  // -------------------------------------------------------------- the class --

  method Best(d: Side, side: seq<PriceLevel>) returns (r: Option<PriceLevel>)
    requires IsSide(d, side)
    ensures r.None? <==> ToMap(side) == map[]
    ensures r.Some? ==> r.value.price in ToMap(side) && ToMap(side)[r.value.price] == r.value.qty
    ensures r.Some? ==> forall p :: p in ToMap(side) && p != r.value.price ==> Better(d, r.value.price, p)
  {
    SideAt(d, side);
    if side == [] {
      return None;
    }
    r := Some(side[|side| - 1]);
    assert r.value in side;
    assert Get(ToMap(side), r.value.price) != 0;
    forall p | p in ToMap(side) && p != r.value.price ensures Better(d, r.value.price, p) {
      assert Get(ToMap(side), p) != 0;
      var l :| l in side && l.price == p;
      var i :| 0 <= i < |side| && side[i] == l;
    }
  }

  /** What a book holds between updates: its identity and its two sides. */
  datatype Contents = Contents(venue: VenueId, instrument: InstrumentKey, bids: seq<PriceLevel>,
      asks: seq<PriceLevel>) {
    ghost predicate Valid() {
      IsSide(Bid, bids) && IsSide(Ask, asks)
    }

    ghost function View(): VenueBook {
      VenueBook(ToMap(bids), ToMap(asks))
    }
  }

  lemma {:induction false} EmptySides()
    ensures IsSide(Bid, []) && IsSide(Ask, []) && ToMap([]) == map[]
  {
  }

  class FlatOrderBook {
    const venue: VenueId
    const instrument: InstrumentKey
    var bids: seq<PriceLevel>
    var asks: seq<PriceLevel>
    var lastBidChanges: seq<LevelChange>
    var lastAskChanges: seq<LevelChange>
    var lastChangesComplete: bool
    var lastSeq: u64

    function Holds(): Contents
      reads this
    {
      Contents(venue, instrument, bids, asks)
    }

    ghost predicate Valid()
      reads this
    {
      Holds().Valid()
    }

    ghost function View(): VenueBook
      reads this
    {
      Holds().View()
    }

    constructor (venue: VenueId, instrument: InstrumentKey)
      ensures Valid() && Holds() == Contents(venue, instrument, [], []) && View() == EMPTY_BOOK
      ensures !lastChangesComplete && lastBidChanges == [] && lastAskChanges == []
    {
      this.venue, this.instrument := venue, instrument;
      bids, asks, lastBidChanges, lastAskChanges := [], [], [], [];
      lastChangesComplete, lastSeq := false, 0;
    }

    /** A book with given contents, as its owner stored it. */
    constructor Load(c: Contents)
      requires c.Valid()
      ensures Valid() && Holds() == c
    {
      venue, instrument, bids, asks := c.venue, c.instrument, c.bids, c.asks;
      lastBidChanges, lastAskChanges, lastChangesComplete, lastSeq := [], [], false, 0;
    }

    /**
     Refines the plain-map update. It does so exactly when, of the levels that
     name one price, only the last carries a quantity. With no price named
     twice, the two change lists of a delta are exactly the two differences;
     after a snapshot they are empty and marked incomplete.
     */
    method ApplyUpdate(update: BookUpdate)
      requires Valid()
      modifies this
      ensures (Valid() && View() == Updated(old(View()), update)) <==>
              LastCarries(update.bids) && LastCarries(update.asks)
      ensures WellFormed(update) ==> Valid() && View() == Updated(old(View()), update)
      ensures lastSeq == update.sequence && lastChangesComplete == !update.isSnapshot
      ensures WellFormed(update) && lastChangesComplete ==> IsDiff(Bid, old(View()).bids, View().bids, lastBidChanges)
      ensures WellFormed(update) && lastChangesComplete ==> IsDiff(Ask, old(View()).asks, View().asks, lastAskChanges)
      ensures !lastChangesComplete ==> lastBidChanges == [] && lastAskChanges == []
    {
      hide Distinct, LastCarries, IsSide;
      lastChangesComplete := !update.isSnapshot;
      if update.isSnapshot {
        EmptySides();
        bids, asks := [], [];
      }
      bids, lastBidChanges := ApplySide(Bid, bids, update.bids, !update.isSnapshot);
      asks, lastAskChanges := ApplySide(Ask, asks, update.asks, !update.isSnapshot);
      lastSeq := update.sequence;
    }

    method BestBid() returns (r: Option<PriceLevel>)
      requires Valid()
      ensures r.None? <==> View().bids == map[]
      ensures r.Some? ==> Get(View().bids, r.value.price) == r.value.qty != 0
      ensures r.Some? ==> forall p :: p in View().bids ==> p <= r.value.price
    {
      r := Best(Bid, bids);
      SideAt(Bid, bids);
    }

    method BestAsk() returns (r: Option<PriceLevel>)
      requires Valid()
      ensures r.None? <==> View().asks == map[]
      ensures r.Some? ==> Get(View().asks, r.value.price) == r.value.qty != 0
      ensures r.Some? ==> forall p :: p in View().asks ==> r.value.price <= p
    {
      r := Best(Ask, asks);
      SideAt(Ask, asks);
    }
  }

  lemma {:induction false} FoldAllNext(m: Levels, lists: seq<seq<LevelChange>>, cs: seq<LevelChange>)
    ensures FoldAll(m, lists + [cs]) == Fold(FoldAll(m, lists), Writes(cs))
  {
    assert DropLast(lists + [cs]) == lists && Last(lists + [cs]) == cs;
  }

  /** One delta more: the lists so far, and then this one's, replay to the new side. */
  lemma {:induction false} ReplayNext(d: Side, before: Levels, after: Levels, lists: seq<seq<LevelChange>>,
      cs: seq<LevelChange>)
    requires NoZero(before) && NoZero(after) && IsDiff(d, before, after, cs) && FoldAll(map[], lists) == before
    ensures FoldAll(map[], lists + [cs]) == after
  {
    FoldAllNext(map[], lists, cs);
    ReplayDiff(d, before, after, cs);
  }

  /**
   A run of deltas on a new book: it ends at the plain map after the same deltas,
   and the change lists it left, replayed from an empty book, end there too.
   */
  method ReplayFromEmpty(venue: VenueId, instrument: InstrumentKey, updates: seq<BookUpdate>)
    returns (book: FlatOrderBook, bidLists: seq<seq<LevelChange>>, askLists: seq<seq<LevelChange>>)
    requires forall k :: 0 <= k < |updates| ==> WellFormed(updates[k]) && !updates[k].isSnapshot
    ensures fresh(book) && book.Valid() && book.View() == BookOf(EMPTY_BOOK, updates, |updates|)
    ensures |bidLists| == |askLists| == |updates|
    ensures FoldAll(map[], bidLists) == book.View().bids && FoldAll(map[], askLists) == book.View().asks
  {
    book := new FlatOrderBook(venue, instrument);
    bidLists, askLists := [], [];
    assert FoldAll(map[], []) == map[];
    hide IsDiff, Updated, FoldAll, IsSide, ToMap, WellFormed, LastCarries, NoZero;
    var k := 0;
    while k < |updates|
      invariant 0 <= k == |bidLists| == |askLists| <= |updates|
      invariant fresh(book) && book.Valid() && book.View() == BookOf(EMPTY_BOOK, updates, k)
      invariant FoldAll(map[], bidLists) == book.View().bids && FoldAll(map[], askLists) == book.View().asks
    {
      ghost var before := book.Holds();
      book.ApplyUpdate(updates[k]);
      SidesOk(before);
      SidesOk(book.Holds());
      ReplayNext(Bid, before.View().bids, book.View().bids, bidLists, book.lastBidChanges);
      ReplayNext(Ask, before.View().asks, book.View().asks, askLists, book.lastAskChanges);
      bidLists, askLists := bidLists + [book.lastBidChanges], askLists + [book.lastAskChanges];
      k := k + 1;
    }
  }

  lemma {:induction false} SidesOk(c: Contents)
    requires c.Valid()
    ensures NoZero(c.View().bids) && NoZero(c.View().asks)
  {
    SideAt(Bid, c.bids);
    SideAt(Ask, c.asks);
  }
}
