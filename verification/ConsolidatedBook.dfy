/**
 The consolidated depth book (md_core/consolidated_book.cpp, MergeBooks): what
 it has to contain, and the k-way merge that computes it from every venue's side.
 */
module ConsolidatedBook {
  import opened Types
  import opened Ordering
  import opened LevelMap
  import opened FlatOrderBooks

  /** One consolidated price: who contributes what, and the 64-bit total. */
  datatype MergedLevel = MergedLevel(price: u64, venues: seq<VenueQuote>, qty: u64)

  datatype Book = Book(bids: seq<MergedLevel>, asks: seq<MergedLevel>)

  // ------------------------------------------------------- what it must hold --

  /** What each slot contributes to one side: its levels, or nothing when it has no book or is not admitted. */
  type Views = v: seq<Levels> | |v| <= 8

  /** The contributors at a price among the first n slots, in slot order. */
  function Contrib(views: Views, p: u64, n: nat): (r: seq<VenueQuote>)
    requires n <= |views|
    ensures |r| <= n
  {
    if n == 0 then []
    else Contrib(views, p, n - 1) + (if p in views[n - 1] then [VenueQuote(n - 1, views[n - 1][p])] else [])
  }

  function Total(views: Views, p: u64, n: nat): nat
    requires n <= |views|
  {
    if n == 0 then 0 else Total(views, p, n - 1) + Get(views[n - 1], p)
  }

  function LevelAt(views: Views, p: u64): MergedLevel {
    MergedLevel(p, Contrib(views, p, |views|), Wrap(Total(views, p, |views|)))
  }

  ghost predicate Quoted(views: Views, p: u64) {
    exists i :: 0 <= i < |views| && p in views[i]
  }

  function PricesOf(side: seq<MergedLevel>): (r: seq<u64>)
    ensures |r| == |side| && forall i :: 0 <= i < |side| ==> r[i] == side[i].price
  {
    seq(|side|, i requires 0 <= i < |side| => side[i].price)
  }

  /** Strictly best-first, every level complete for its price, and only prices some slot quotes. */
  ghost predicate IsListing(d: Side, views: Views, side: seq<MergedLevel>) {
    && BestFirst(d, PricesOf(side))
    && (forall k :: 0 <= k < |side| ==> side[k] == LevelAt(views, side[k].price))
    && (forall p :: p in PricesOf(side) ==> Quoted(views, p))
  }

  /** The consolidated side: the listing of every quoted price. */
  ghost predicate IsMerge(d: Side, views: Views, side: seq<MergedLevel>) {
    IsListing(d, views, side) && forall p :: Quoted(views, p) ==> p in PricesOf(side)
  }

  /** The best `depth` levels of it; None leaves the depth unbounded. */
  ghost predicate IsTop(d: Side, views: Views, depth: Option<nat>, side: seq<MergedLevel>) {
    && IsListing(d, views, side)
    && (forall p, q :: Quoted(views, p) && p !in PricesOf(side) && q in PricesOf(side) ==> Better(d, q, p))
    && (depth.Some? ==> |side| <= depth.value)
    && (depth.None? || |side| < depth.value ==> forall p :: Quoted(views, p) ==> p in PricesOf(side))
  }

  /** Two consolidations of the same contributions are the same list, level by level. */
  lemma {:induction false} MergeUnique(d: Side, views: Views, a: seq<MergedLevel>, b: seq<MergedLevel>)
    requires IsMerge(d, views, a) && IsMerge(d, views, b)
    ensures a == b
  {
    BestFirstUnique(d, PricesOf(a), PricesOf(b));
    assert |PricesOf(a)| == |PricesOf(b)|;
    forall k | 0 <= k < |a| ensures a[k] == b[k] {
      assert PricesOf(a)[k] == PricesOf(b)[k];
    }
  }

  lemma {:induction false} TopAgrees(d: Side, views: Views, depth: Option<nat>, side: seq<MergedLevel>,
      full: seq<MergedLevel>, k: nat)
    requires IsTop(d, views, depth, side) && IsMerge(d, views, full) && k <= |side|
    ensures k <= |full| && forall t :: 0 <= t < k ==> side[t].price == full[t].price
  {
    if k > 0 {
      hide BestFirst, LevelAt, Quoted;
      TopAgrees(d, views, depth, side, full, k - 1);
      var ps, fs := PricesOf(side), PricesOf(full);
      assert ps[k - 1] in ps;
      assert ps[k - 1] in fs;
      var m :| 0 <= m < |fs| && fs[m] == ps[k - 1];
      InOrder(d, ps, m, k - 1);
      InOrder(d, fs, k - 1, m);
      if k - 1 < m {
        assert fs[k - 1] in fs;
        assert Quoted(views, fs[k - 1]);
        if fs[k - 1] in ps {
          var t :| 0 <= t < |ps| && ps[t] == fs[k - 1];
          InOrder(d, fs, t, k - 1);
          InOrder(d, ps, k - 1, t);
        }
      }
    }
  }

  /** A merge at depth n is the first n levels of the unbounded one. */
  lemma {:induction false} CapIsPrefix(d: Side, views: Views, depth: Option<nat>, side: seq<MergedLevel>,
      full: seq<MergedLevel>)
    requires IsTop(d, views, depth, side) && IsMerge(d, views, full)
    ensures side == full[..if depth.Some? && depth.value < |full| then depth.value else |full|]
  {
    TopAgrees(d, views, depth, side, full, |side|);
    if |side| < |full| {
      var p := PricesOf(full)[|side|];
      assert p in PricesOf(full);
      assert Quoted(views, p);
      if p in PricesOf(side) {
        var t :| 0 <= t < |side| && PricesOf(side)[t] == p;
        InOrder(d, PricesOf(full), t, |side|);
      }
    }
    forall t | 0 <= t < |side| ensures side[t] == full[t] {
    }
  }

  // ---------------------------------------------------------- the k-way merge --

  function Maps(sides: seq<seq<PriceLevel>>): (r: Views)
    requires |sides| <= 8
    ensures |r| == |sides| && forall i :: 0 <= i < |sides| ==> r[i] == ToMap(sides[i])
  {
    seq(|sides|, i requires 0 <= i < |sides| => ToMap(sides[i]))
  }

  /**
   A slot's cursor with `rest` levels still to come: everything taken is
   already listed, and the next level is worse than all that is listed.
   */
  ghost predicate Cursor(d: Side, side: seq<PriceLevel>, rest: nat, listed: seq<u64>) {
    && rest <= |side|
    && (forall t :: rest <= t < |side| ==> side[t].price in listed)
    && (rest > 0 && listed != [] ==> Better(d, Last(listed), side[rest - 1].price))
  }

  /** A price worse than everything listed is at the cursor of a slot or nowhere in it. */
  lemma {:induction false} HeadDecides(d: Side, side: seq<PriceLevel>, rest: nat, listed: seq<u64>, best: u64)
    requires IsSide(d, side) && Cursor(d, side, rest, listed) && best !in listed
    requires rest > 0 && side[rest - 1].price != best ==> Better(d, best, side[rest - 1].price)
    ensures best in ToMap(side) <==> rest > 0 && side[rest - 1].price == best
    ensures best in ToMap(side) ==> ToMap(side)[best] == side[rest - 1].qty
  {
    SideAt(d, side);
    forall l | l in side && l.price == best ensures rest > 0 && side[rest - 1] == l {
      var t :| 0 <= t < |side| && side[t] == l;
      assert t < rest;
      assert t < rest - 1 ==> Better(d, side[rest - 1].price, side[t].price);
    }
    assert rest > 0 ==> side[rest - 1] in side;
    assert Mentions(side, best) <==> Get(ToMap(side), best) != 0;
  }

  /** A slot moves on exactly when it contributed. */
  function Advance(side: seq<PriceLevel>, rest: nat, best: u64): nat
    requires rest <= |side|
  {
    if rest > 0 && side[rest - 1].price == best then rest - 1 else rest
  }

  lemma {:induction false} CursorStep(d: Side, side: seq<PriceLevel>, rest: nat, listed: seq<u64>, best: u64)
    requires IsSide(d, side) && Cursor(d, side, rest, listed)
    requires rest > 0 && side[rest - 1].price != best ==> Better(d, best, side[rest - 1].price)
    ensures Cursor(d, side, Advance(side, rest, best), listed + [best])
  {
    StoredNext(d, side, rest - 2);
    assert forall t :: rest <= t < |side| ==> side[t].price in listed + [best];
  }

  ghost predicate Cursors(d: Side, sides: seq<seq<PriceLevel>>, rest: seq<nat>, listed: seq<u64>) {
    && |rest| == |sides| <= 8
    && (forall i :: 0 <= i < |sides| ==> IsSide(d, sides[i]) && Cursor(d, sides[i], rest[i], listed))
  }

  /** No slot has anything better than `best` next. */
  ghost predicate Leads(d: Side, sides: seq<seq<PriceLevel>>, rest: seq<nat>, best: u64)
    requires |rest| == |sides| && forall i :: 0 <= i < |sides| ==> rest[i] <= |sides[i]|
  {
    forall i :: 0 <= i < |rest| && rest[i] > 0 ==>
      sides[i][rest[i] - 1].price == best || Better(d, best, sides[i][rest[i] - 1].price)
  }

  lemma {:induction false} CursorsStep(d: Side, sides: seq<seq<PriceLevel>>, rest0: seq<nat>, rest: seq<nat>,
      listed: seq<u64>, best: u64)
    requires Cursors(d, sides, rest0, listed) && Leads(d, sides, rest0, best)
    requires |rest| == |rest0| && forall i :: 0 <= i < |rest| ==> rest[i] == Advance(sides[i], rest0[i], best)
    ensures Cursors(d, sides, rest, listed + [best])
  {
    forall k | 0 <= k < |sides| ensures Cursor(d, sides[k], rest[k], listed + [best]) {
      CursorStep(d, sides[k], rest0[k], listed, best);
    }
  }

  function Remaining(rest: seq<nat>, n: nat): nat
    requires n <= |rest|
  {
    if n == 0 then 0 else Remaining(rest, n - 1) + rest[n - 1]
  }

  lemma {:induction false} RemainingMono(a: seq<nat>, b: seq<nat>, n: nat)
    requires |a| == |b| && n <= |a| && forall i :: 0 <= i < n ==> a[i] <= b[i]
    ensures Remaining(a, n) <= Remaining(b, n)
    ensures (exists i :: 0 <= i < n && a[i] < b[i]) ==> Remaining(a, n) < Remaining(b, n)
  {
    if n > 0 {
      RemainingMono(a, b, n - 1);
    }
  }

  /** The best price any slot has next. */
  method BestHead(d: Side, sides: seq<seq<PriceLevel>>, rest: seq<nat>) returns (found: bool, best: u64)
    requires |rest| == |sides| && forall i :: 0 <= i < |sides| ==> rest[i] <= |sides[i]|
    ensures !found ==> forall i :: 0 <= i < |rest| ==> rest[i] == 0
    ensures found ==> exists i :: 0 <= i < |rest| && rest[i] > 0 && sides[i][rest[i] - 1].price == best
    ensures found ==> Leads(d, sides, rest, best)
  {
    found, best := false, 0;
    var i := 0;
    while i < |sides|
      invariant 0 <= i <= |sides|
      invariant !found ==> forall k :: 0 <= k < i ==> rest[k] == 0
      invariant found ==> exists k :: 0 <= k < i && rest[k] > 0 && sides[k][rest[k] - 1].price == best
      invariant found ==> forall k :: 0 <= k < i && rest[k] > 0 ==>
                  sides[k][rest[k] - 1].price == best || Better(d, best, sides[k][rest[k] - 1].price)
    {
      if rest[i] > 0 && (!found || Better(d, sides[i][rest[i] - 1].price, best)) {
        best, found := sides[i][rest[i] - 1].price, true;
      }
      i := i + 1;
    }
  }

  /**
   One slot's part in a level: it contributes and advances if its head is at the
   price; the attribution guard never fires.
   */
  method TakeSlot(d: Side, side: seq<PriceLevel>, rest: nat, best: u64, slot: nat, venues: seq<VenueQuote>, qty: u64,
                  ghost views: Views, ghost listed: seq<u64>)
    returns (venues': seq<VenueQuote>, qty': u64, rest': nat)
    requires IsSide(d, side) && Cursor(d, side, rest, listed) && best !in listed
    requires rest > 0 && side[rest - 1].price != best ==> Better(d, best, side[rest - 1].price)
    requires slot < |views| && views[slot] == ToMap(side)
    requires venues == Contrib(views, best, slot) && qty == Wrap(Total(views, best, slot))
    ensures venues' == Contrib(views, best, slot + 1) && qty' == Wrap(Total(views, best, slot + 1))
    ensures rest' == Advance(side, rest, best)
  {
    venues', qty', rest' := venues, qty, rest;
    HeadDecides(d, side, rest, listed, best);
    WrapAdd(Total(views, best, slot), Get(views[slot], best));
    if rest > 0 && side[rest - 1].price == best {
      var q := side[rest - 1].qty;
      qty' := Wrap(qty + q);
      if |venues| < MAX_VENUES {
        venues' := venues + [VenueQuote(slot, q)];
      }
      rest' := rest - 1;
    }
  }

  /** Every slot quoting `best` contributes to one new level, in slot order, and advances. */
  method TakeLevel(d: Side, sides: seq<seq<PriceLevel>>, rest0: seq<nat>, best: u64, ghost listed: seq<u64>)
    returns (level: MergedLevel, rest: seq<nat>)
    requires Cursors(d, sides, rest0, listed) && best !in listed
    requires Leads(d, sides, rest0, best)
    ensures level == LevelAt(Maps(sides), best)
    ensures Cursors(d, sides, rest, listed + [best])
    ensures forall i :: 0 <= i < |rest| ==> rest[i] == Advance(sides[i], rest0[i], best)
  {
    ghost var views := Maps(sides);
    var venues, qty: u64 := [], 0;
    rest := rest0;
    var i := 0;
    while i < |sides|
      invariant 0 <= i <= |sides| && |rest| == |sides|
      invariant venues == Contrib(views, best, i) && qty == Wrap(Total(views, best, i))
      invariant forall k :: i <= k < |rest| ==> rest[k] == rest0[k]
      invariant forall k :: 0 <= k < i ==> rest[k] == Advance(sides[k], rest0[k], best)
    {
      var r;
      venues, qty, r := TakeSlot(d, sides[i], rest[i], best, i, venues, qty, views, listed);
      rest := rest[i := r];
      i := i + 1;
    }
    level := MergedLevel(best, venues, qty);
    CursorsStep(d, sides, rest0, rest, listed, best);
  }

  lemma {:induction false} ExtendListing(d: Side, views: Views, side: seq<MergedLevel>, p: u64)
    requires IsListing(d, views, side) && Quoted(views, p)
    requires side != [] ==> Better(d, Last(side).price, p)
    ensures IsListing(d, views, side + [LevelAt(views, p)])
    ensures PricesOf(side + [LevelAt(views, p)]) == PricesOf(side) + [p]
  {
    var s := side + [LevelAt(views, p)];
    var ps := PricesOf(side);
    assert PricesOf(s) == ps + [p];
    forall i, j | 0 <= i < j < |s| ensures Better(d, PricesOf(s)[i], PricesOf(s)[j]) {
      InOrder(d, ps, i, j);
      InOrder(d, ps, i, |ps| - 1);
    }
  }

  lemma {:induction false} HeadQuoted(d: Side, sides: seq<seq<PriceLevel>>, i: nat, t: nat)
    requires |sides| <= 8 && i < |sides| && IsSide(d, sides[i]) && t < |sides[i]|
    ensures Quoted(Maps(sides), sides[i][t].price)
  {
    SideAt(d, sides[i]);
    assert sides[i][t] in sides[i];
    assert Get(ToMap(sides[i]), sides[i][t].price) != 0;
    assert sides[i][t].price in Maps(sides)[i];
  }

  /** What is quoted is already listed or still ahead of a cursor, hence worse than all that is listed. */
  lemma {:induction false} QuotedWhere(d: Side, sides: seq<seq<PriceLevel>>, rest: seq<nat>, listed: seq<u64>, p: u64)
    requires Cursors(d, sides, rest, listed) && BestFirst(d, listed) && Quoted(Maps(sides), p)
    ensures p in listed || exists i :: 0 <= i < |rest| && rest[i] > 0
    ensures p !in listed ==> forall q :: q in listed ==> Better(d, q, p)
  {
    var i :| 0 <= i < |sides| && p in Maps(sides)[i];
    SideAt(d, sides[i]);
    assert Get(ToMap(sides[i]), p) != 0;
    var l :| l in sides[i] && l.price == p;
    var t :| 0 <= t < |sides[i]| && sides[i][t] == l;
    if p !in listed {
      assert t < rest[i];
      assert t < rest[i] - 1 ==> Better(d, sides[i][rest[i] - 1].price, sides[i][t].price);
      forall q | q in listed ensures Better(d, q, p) {
        var k :| 0 <= k < |listed| && listed[k] == q;
        InOrder(d, listed, k, |listed| - 1);
      }
    }
  }

  lemma {:induction false} NextIsWorse(d: Side, views: Views, out: seq<MergedLevel>, side: seq<PriceLevel>, rest: nat)
    requires IsListing(d, views, out) && Cursor(d, side, rest, PricesOf(out)) && rest > 0
    ensures side[rest - 1].price !in PricesOf(out)
    ensures out != [] ==> Better(d, Last(out).price, side[rest - 1].price)
  {
    var listed, best := PricesOf(out), side[rest - 1].price;
    if best in listed {
      var k :| 0 <= k < |listed| && listed[k] == best;
      InOrder(d, listed, k, |listed| - 1);
    }
  }

  lemma {:induction false} AppendBest(d: Side, sides: seq<seq<PriceLevel>>, rest: seq<nat>, out: seq<MergedLevel>,
      best: u64)
    requires Cursors(d, sides, rest, PricesOf(out)) && IsListing(d, Maps(sides), out)
    requires exists i :: 0 <= i < |rest| && rest[i] > 0 && sides[i][rest[i] - 1].price == best
    ensures best !in PricesOf(out)
    ensures IsListing(d, Maps(sides), out + [LevelAt(Maps(sides), best)])
    ensures PricesOf(out + [LevelAt(Maps(sides), best)]) == PricesOf(out) + [best]
  {
    hide LevelAt, Quoted;
    var i :| 0 <= i < |rest| && rest[i] > 0 && sides[i][rest[i] - 1].price == best;
    HeadQuoted(d, sides, i, rest[i] - 1);
    NextIsWorse(d, Maps(sides), out, sides[i], rest[i]);
    ExtendListing(d, Maps(sides), out, best);
  }

  lemma {:induction false} AdvanceRemaining(sides: seq<seq<PriceLevel>>, rest0: seq<nat>, rest: seq<nat>, best: u64)
    requires |rest| == |rest0| == |sides| && forall i :: 0 <= i < |rest| ==> rest0[i] <= |sides[i]|
    requires forall i :: 0 <= i < |rest| ==> rest[i] == Advance(sides[i], rest0[i], best)
    requires exists i :: 0 <= i < |rest| && rest0[i] > 0 && sides[i][rest0[i] - 1].price == best
    ensures Remaining(rest, |rest|) < Remaining(rest0, |rest0|)
  {
    var i :| 0 <= i < |rest| && rest0[i] > 0 && sides[i][rest0[i] - 1].price == best;
    assert rest[i] < rest0[i];
    RemainingMono(rest, rest0, |rest|);
  }

  /** One output level: the best head, everyone quoting it, and the cursors moved past it. */
  method NextLevel(d: Side, sides: seq<seq<PriceLevel>>, rest0: seq<nat>, out0: seq<MergedLevel>)
    returns (found: bool, out: seq<MergedLevel>, rest: seq<nat>)
    requires Cursors(d, sides, rest0, PricesOf(out0)) && IsListing(d, Maps(sides), out0)
    ensures Cursors(d, sides, rest, PricesOf(out)) && IsListing(d, Maps(sides), out)
    ensures !found ==> out == out0 && forall i :: 0 <= i < |rest| ==> rest[i] == 0
    ensures found ==> |out| == |out0| + 1 && Remaining(rest, |rest|) < Remaining(rest0, |rest0|)
  {
    out, rest := out0, rest0;
    var best;
    found, best := BestHead(d, sides, rest);
    if found {
      AppendBest(d, sides, rest, out, best);
      var level;
      level, rest := TakeLevel(d, sides, rest, best, PricesOf(out));
      AdvanceRemaining(sides, rest0, rest, best);
      out := out + [level];
    }
  }

  lemma {:induction false} MergeEnd(d: Side, sides: seq<seq<PriceLevel>>, rest: seq<nat>, out: seq<MergedLevel>,
      depth: Option<nat>)
    requires Cursors(d, sides, rest, PricesOf(out)) && IsListing(d, Maps(sides), out)
    requires depth.Some? ==> |out| <= depth.value
    requires (depth.Some? && |out| == depth.value) || forall i :: 0 <= i < |rest| ==> rest[i] == 0
    ensures IsTop(d, Maps(sides), depth, out)
  {
    forall p | Quoted(Maps(sides), p)
      ensures p in PricesOf(out) || exists i :: 0 <= i < |rest| && rest[i] > 0
      ensures p !in PricesOf(out) ==> forall q :: q in PricesOf(out) ==> Better(d, q, p)
    {
      QuotedWhere(d, sides, rest, PricesOf(out), p);
    }
  }

  /** The k-way merge of one side, down to `depth` levels. */
  method MergeSide(d: Side, sides: seq<seq<PriceLevel>>, depth: Option<nat>) returns (out: seq<MergedLevel>)
    requires |sides| <= 8 && forall i :: 0 <= i < |sides| ==> IsSide(d, sides[i])
    ensures IsTop(d, Maps(sides), depth, out)
  {
    out := [];
    var rest: seq<nat> := seq(|sides|, i requires 0 <= i < |sides| => |sides[i]|);
    while depth.None? || |out| < depth.value
      invariant Cursors(d, sides, rest, PricesOf(out)) && IsListing(d, Maps(sides), out)
      invariant depth.Some? ==> |out| <= depth.value
      decreases Remaining(rest, |rest|)
    {
      var found;
      found, out, rest := NextLevel(d, sides, rest, out);
      if !found {
        break;
      }
    }
    MergeEnd(d, sides, rest, out, depth);
  }

  // ------------------------------------------------------------- whole books --

  /** One slot per venue, None where no venue is active. */
  type Row = seq<Option<Contents>>

  ghost predicate RowOk(row: Row) {
    |row| == 8 && forall i :: 0 <= i < 8 && row[i].Some? ==> row[i].value.Valid()
  }

  /** What a slot may contribute: its book when it has one and its verdict, if any is given, admits it. */
  ghost function Allowed(b: Option<Contents>, health: Option<VenueHealth>, d: Side): Levels {
    if b.Some? && (health.None? || IsAdmissible(health.value)) then b.value.View().On(d) else map[]
  }

  function VerdictAt(health: Option<seq<VenueHealth>>, i: nat): Option<VenueHealth>
    requires health.Some? ==> i < |health.value|
  {
    if health.None? then None else Some(health.value[i])
  }

  ghost function Admitted(row: Row, health: Option<seq<VenueHealth>>, count: nat, d: Side): (r: Views)
    requires count <= |row| == 8 && (health.Some? ==> |health.value| == 8)
    ensures |r| == count && forall i :: 0 <= i < count ==> r[i] == Allowed(row[i], VerdictAt(health, i), d)
  {
    seq(count, i requires 0 <= i < count => Allowed(row[i], VerdictAt(health, i), d))
  }

  /** Collects one side of the admitted books among the first `count` slots; an absent book is a hole. */
  method AdmittedSides(row: Row, health: Option<seq<VenueHealth>>, count: nat, d: Side)
      returns (sides: seq<seq<PriceLevel>>)
    requires RowOk(row) && count <= 8 && (health.Some? ==> |health.value| == 8)
    ensures |sides| == count && forall i :: 0 <= i < count ==> IsSide(d, sides[i])
    ensures Maps(sides) == Admitted(row, health, count, d)
  {
    sides := [];
    var i := 0;
    while i < count
      invariant 0 <= i <= count && |sides| == i
      invariant forall k :: 0 <= k < i ==>
                IsSide(d, sides[k]) && ToMap(sides[k]) == Allowed(row[k], VerdictAt(health, k), d)
    {
      if row[i].Some? && (health.None? || IsAdmissible(health.value[i])) {
        sides := sides + [if d.Bid? then row[i].value.bids else row[i].value.asks];
      } else {
        sides := sides + [[]];
      }
      i := i + 1;
    }
  }

  /**
   Both sides of the consolidated book from scratch. Slots at or above
   venueCount are not visited; an absent book is skipped as a hole.
   */
  method MergeBooks(row: Row, venueCount: nat, maxDepth: Option<nat>, health: Option<seq<VenueHealth>>)
    returns (out: Book)
    requires RowOk(row) && (health.Some? ==> |health.value| == 8)
    ensures var count := if venueCount < 8 then venueCount else 8;
            && IsTop(Bid, Admitted(row, health, count, Bid), maxDepth, out.bids)
            && IsTop(Ask, Admitted(row, health, count, Ask), maxDepth, out.asks)
            && ShowsBooks(Bid, row, health, count, maxDepth, out.bids)
            && ShowsBooks(Ask, row, health, count, maxDepth, out.asks)
  {
    var count := if venueCount < 8 then venueCount else 8;
    var bidSides := AdmittedSides(row, health, count, Bid);
    var askSides := AdmittedSides(row, health, count, Ask);
    var bids := MergeSide(Bid, bidSides, maxDepth);
    var asks := MergeSide(Ask, askSides, maxDepth);
    MergedFromBooks(Bid, row, health, count, maxDepth, bids);
    MergedFromBooks(Ask, row, health, count, maxDepth, asks);
    out := Book(bids, asks);
  }

  // ------------------------------------------------ the result in terms of the books --

  lemma {:induction false} ContribNext(views: Views, p: u64, n: nat)
    requires 0 < n <= |views|
    ensures Contrib(views, p, n) == if p in views[n - 1]
              then Contrib(views, p, n - 1) + [VenueQuote(n - 1, views[n - 1][p])] else Contrib(views, p, n - 1)
    ensures Total(views, p, n) == Total(views, p, n - 1) + if p in views[n - 1] then views[n - 1][p] else 0
  {
  }

  lemma {:induction false} ContribHas(views: Views, p: u64, n: nat, v: VenueQuote)
    requires n <= |views|
    ensures v in Contrib(views, p, n) <==> v.slot < n && p in views[v.slot] && views[v.slot][p] == v.qty
  {
    if n > 0 {
      ContribHas(views, p, n - 1, v);
      ContribNext(views, p, n);
      hide Contrib;
    }
  }

  lemma {:induction false} ContribAscends(views: Views, p: u64, n: nat)
    requires n <= |views|
    ensures var vs := Contrib(views, p, n);
            && (forall a :: 0 <= a < |vs| ==> vs[a].slot < n)
            && (forall a, b :: 0 <= a < b < |vs| ==> vs[a].slot < vs[b].slot)
  {
    if n > 0 {
      ContribAscends(views, p, n - 1);
      ContribNext(views, p, n);
      hide Contrib;
    }
  }

  lemma {:induction false} ContribSum(views: Views, p: u64, n: nat)
    requires n <= |views|
    ensures SumOf(Contrib(views, p, n)) == Total(views, p, n)
  {
    if n > 0 {
      ContribSum(views, p, n - 1);
      ContribNext(views, p, n);
      assert Contrib(views, p, n)[..|Contrib(views, p, n - 1)|] == Contrib(views, p, n - 1);
    }
  }

  /** The slots of a contribution in ascending order, exactly those that quote the price, and their sum. */
  lemma {:induction false} ContribIs(views: Views, p: u64, n: nat)
    requires n <= |views|
    ensures var vs := Contrib(views, p, n);
            && (forall v :: v in vs <==> v.slot < n && p in views[v.slot] && views[v.slot][p] == v.qty)
            && (forall a, b :: 0 <= a < b < |vs| ==> vs[a].slot < vs[b].slot)
            && SumOf(vs) == Total(views, p, n)
  {
    hide Contrib, Total, SumOf;
    ContribAscends(views, p, n);
    ContribSum(views, p, n);
    forall v: VenueQuote
      ensures v in Contrib(views, p, n) <==> v.slot < n && p in views[v.slot] && views[v.slot][p] == v.qty {
      ContribHas(views, p, n, v);
    }
  }

  /** The book, if there is one, has this level on the side. */
  predicate Has(b: Option<Contents>, d: Side, l: PriceLevel) {
    b.Some? && l in if d.Bid? then b.value.bids else b.value.asks
  }

  lemma {:induction false} AllowedHas(b: Option<Contents>, health: Option<VenueHealth>, d: Side, l: PriceLevel)
    requires b.Some? ==> b.value.Valid()
    ensures l.price in Allowed(b, health, d) && Allowed(b, health, d)[l.price] == l.qty <==>
              (health.None? || health == Some(Live)) && Has(b, d, l)
  {
    if b.Some? {
      var side := if d.Bid? then b.value.bids else b.value.asks;
      SideAt(d, side);
      if l.qty != 0 {
        SideHas(d, side, l);
      } else {
        assert l !in side;
      }
    }
  }

  /** Attribution by the stored books alone: the slots visited, live if verdicts are given, whose book has the level. */
  ghost predicate AttributesBooks(d: Side, row: Row, health: Option<seq<VenueHealth>>, count: nat, level: MergedLevel)
    requires count <= |row| == 8 && (health.Some? ==> |health.value| == 8)
  {
    && (forall v :: v in level.venues <==>
          && v.slot < count && (health.Some? ==> health.value[v.slot] == Live)
          && Has(row[v.slot], d, PriceLevel(level.price, v.qty)))
    && (forall a, b :: 0 <= a < b < |level.venues| ==> level.venues[a].slot < level.venues[b].slot)
    && level.venues != [] && level.qty == Wrap(SumOf(level.venues))
  }

  /** A level some live slot's book has is listed, or beyond the depth and worse than all that is listed. */
  ghost predicate CoversLevel(d: Side, row: Row, health: Option<seq<VenueHealth>>, depth: Option<nat>,
      side: seq<MergedLevel>, i: nat, l: PriceLevel)
    requires i < |row| == 8 && (health.Some? ==> |health.value| == 8)
  {
    (health.Some? ==> health.value[i] == Live) && Has(row[i], d, l) ==>
      || (exists k :: 0 <= k < |side| && side[k].price == l.price)
      || (&& depth.Some? && |side| >= depth.value
          && forall k :: 0 <= k < |side| ==>
               if d.Bid? then side[k].price > l.price else side[k].price < l.price)
  }

  /**
   One side of a consolidated book, told by the stored books and the verdicts: best
   price first, each level attributed to exactly the live slots whose book has that
   price, in slot order with the book's own quantity and their 64-bit sum, and
   nothing of a live slot's book missing above the depth.
   */
  ghost predicate ShowsBooks(d: Side, row: Row, health: Option<seq<VenueHealth>>, count: nat, depth: Option<nat>,
      side: seq<MergedLevel>)
    requires count <= |row| == 8 && (health.Some? ==> |health.value| == 8)
  {
    && (forall j, k :: 0 <= j < k < |side| ==>
          if d.Bid? then side[j].price > side[k].price else side[j].price < side[k].price)
    && (forall k :: 0 <= k < |side| ==> AttributesBooks(d, row, health, count, side[k]))
    && (forall i, l :: 0 <= i < count ==> CoversLevel(d, row, health, depth, side, i, l))
    && (depth.Some? ==> |side| <= depth.value)
  }

  lemma {:induction false} MergedFromBooks(d: Side, row: Row, health: Option<seq<VenueHealth>>, count: nat,
      depth: Option<nat>, side: seq<MergedLevel>)
    requires RowOk(row) && count <= 8 && (health.Some? ==> |health.value| == 8)
    requires IsTop(d, Admitted(row, health, count, d), depth, side)
    ensures ShowsBooks(d, row, health, count, depth, side)
  {
    var views := Admitted(row, health, count, d);
    forall j, k | 0 <= j < k < |side|
      ensures if d.Bid? then side[j].price > side[k].price else side[j].price < side[k].price {
      InOrder(d, PricesOf(side), j, k);
    }
    forall k | 0 <= k < |side| ensures AttributesBooks(d, row, health, count, side[k]) {
      LevelFromBooks(d, row, health, count, views, side[k]);
    }
    forall i, l | 0 <= i < count ensures CoversLevel(d, row, health, depth, side, i, l) {
      LevelCovered(d, row, health, count, depth, side, i, l);
    }
  }

  lemma {:induction false} ContributorIs(d: Side, row: Row, health: Option<seq<VenueHealth>>, count: nat,
      views: Views, p: u64, v: VenueQuote)
    requires RowOk(row) && count <= 8 && (health.Some? ==> |health.value| == 8)
    requires views == Admitted(row, health, count, d)
    ensures v in Contrib(views, p, count) <==>
              v.slot < count && (health.Some? ==> health.value[v.slot] == Live)
              && Has(row[v.slot], d, PriceLevel(p, v.qty))
  {
    ContribIs(views, p, count);
    hide Allowed, Contrib, Total, Has, SumOf;
    if v.slot < count {
      AllowedHas(row[v.slot], VerdictAt(health, v.slot), d, PriceLevel(p, v.qty));
    }
  }

  lemma {:induction false} LevelFromBooks(d: Side, row: Row, health: Option<seq<VenueHealth>>, count: nat,
      views: Views, level: MergedLevel)
    requires RowOk(row) && count <= 8 && (health.Some? ==> |health.value| == 8)
    requires views == Admitted(row, health, count, d)
    requires level == LevelAt(views, level.price) && Quoted(views, level.price)
    ensures AttributesBooks(d, row, health, count, level)
  {
    assert |row| == 8;
    hide Allowed, Contrib, Total, Has, SumOf, Wrap, Quoted, RowOk, Admitted, VerdictAt;
    ContributionShape(views, level.price);
    forall v: VenueQuote
      ensures v in level.venues <==> v.slot < count && (health.Some? ==> health.value[v.slot] == Live)
                                     && Has(row[v.slot], d, PriceLevel(level.price, v.qty)) {
      ContributorIs(d, row, health, count, views, level.price, v);
    }
  }

  lemma {:induction false} ContributionShape(views: Views, p: u64)
    requires Quoted(views, p)
    ensures var vs := Contrib(views, p, |views|);
            && vs != [] && (forall a, b :: 0 <= a < b < |vs| ==> vs[a].slot < vs[b].slot)
            && SumOf(vs) == Total(views, p, |views|)
  {
    ContribIs(views, p, |views|);
    var i :| 0 <= i < |views| && p in views[i];
    assert VenueQuote(i, views[i][p]) in Contrib(views, p, |views|);
  }

  lemma {:induction false} LevelCovered(d: Side, row: Row, health: Option<seq<VenueHealth>>, count: nat,
      depth: Option<nat>, side: seq<MergedLevel>, i: nat, l: PriceLevel)
    requires RowOk(row) && i < count <= 8 && (health.Some? ==> |health.value| == 8)
    requires IsTop(d, Admitted(row, health, count, d), depth, side)
    ensures CoversLevel(d, row, health, depth, side, i, l)
  {
    hide Allowed, IsListing;
    var views := Admitted(row, health, count, d);
    if (health.Some? ==> health.value[i] == Live) && Has(row[i], d, l) {
      AllowedHas(row[i], VerdictAt(health, i), d, l);
      assert l.price in views[i] && Quoted(views, l.price);
      if l.price !in PricesOf(side) {
        forall k | 0 <= k < |side| ensures Better(d, side[k].price, l.price) {
          assert PricesOf(side)[k] in PricesOf(side);
        }
      }
    }
  }
}
