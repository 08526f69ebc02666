/**
 The market told by the messages: what each slot's books, quotes and verdicts are
 after any run, and what a publication then shows, in terms of the messages' own
 fields rather than of the steps that processed them.
 */
module Sessions {
  import opened Types
  import opened Ordering
  import opened LevelMap
  import opened ConsolidatedBook
  import opened ConsolidatedBbo
  import opened VenueRegistries
  import opened Market

  // ------------------------------------------------------------ one slot's messages --

  /** The updates of one instrument among the first n messages, in order. */
  function UpdatesFor(msgs: seq<Message>, k: InstrumentKey, n: nat): seq<BookUpdate>
    requires n <= |msgs|
  {
    if n == 0 then []
    else
      UpdatesFor(msgs, k, n - 1) +
      match msgs[n - 1]
      case Update(u) => if u.instrument == k then [u] else []
      case _ => []
  }

  /** The quotes of one instrument among them. */
  function QuotesFor(msgs: seq<Message>, k: InstrumentKey, n: nat): seq<BboQuote>
    requires n <= |msgs|
  {
    if n == 0 then []
    else
      QuotesFor(msgs, k, n - 1) +
      match msgs[n - 1]
      case Quote(q) => if q.instrument == k then [q] else []
      case _ => []
  }

  /** The verdicts on one stream among them. */
  function VerdictsFor(msgs: seq<Message>, s: StreamKind, n: nat): seq<VenueHealth>
    requires n <= |msgs|
  {
    if n == 0 then []
    else
      VerdictsFor(msgs, s, n - 1) +
      match msgs[n - 1]
      case Health(e) => if e.stream == s then [e.health] else []
      case _ => []
  }

  function LastOr<T>(s: seq<T>, otherwise: T): T {
    if s == [] then otherwise else s[|s| - 1]
  }

  /** The updates held against a book, one after the other. */
  function Held(b: VenueBook, us: seq<BookUpdate>): VenueBook {
    BookOf(b, us, |us|)
  }

  lemma {:induction false} BookOfWithin(b: VenueBook, us: seq<BookUpdate>, more: seq<BookUpdate>, n: nat)
    requires n <= |us|
    ensures BookOf(b, us + more, n) == BookOf(b, us, n)
  {
    if n > 0 {
      BookOfWithin(b, us, more, n - 1);
    }
  }

  lemma {:induction false} HeldNext(b: VenueBook, us: seq<BookUpdate>, u: BookUpdate)
    ensures Held(b, us + [u]) == Updated(Held(b, us), u)
  {
    BookOfWithin(b, us, [u], |us|);
  }

  ghost predicate Uninterrupted(msgs: seq<Message>, n: nat)
    requires n <= |msgs|
  {
    forall i :: 0 <= i < n ==> !msgs[i].Disconnect?
  }

  /**
   The books of an active slot are exactly its updates, each applied to the book of
   its own instrument in order of arrival, whatever verdicts, quotes and repeated
   registrations lie between them.
   */
  lemma {:induction false} BooksAreFolds(c: Column, instruments: set<InstrumentKey>, name: string,
      msgs: seq<Message>, n: nat, k: InstrumentKey)
    requires n <= |msgs| && Uninterrupted(msgs, n) && k in instruments
    requires c.active.Some? && c.active == ToVenueId(name) && c.books.Keys == instruments
    ensures var r := RunColumn(c, instruments, name, msgs, n);
            && r.active == c.active && r.books.Keys == instruments
            && r.books[k] == Held(c.books[k], UpdatesFor(msgs, k, n))
  {
    if n > 0 {
      BooksAreFolds(c, instruments, name, msgs, n - 1, k);
      var msg, us := msgs[n - 1], UpdatesFor(msgs, k, n - 1);
      BookAfter(RunColumn(c, instruments, name, msgs, n - 1), instruments, name, msg, k);
      hide Updated, StepColumn, Held, ToVenueId;
      if msg.Update? && msg.update.instrument == k {
        HeldNext(c.books[k], us, msg.update);
      } else {
        assert UpdatesFor(msgs, k, n) == us;
      }
    }
  }

  lemma {:induction false} BookAfter(c: Column, instruments: set<InstrumentKey>, name: string, msg: Message,
      k: InstrumentKey)
    requires c.active.Some? && c.active == ToVenueId(name) && c.books.Keys == instruments && k in instruments
    requires !msg.Disconnect?
    ensures var r := StepColumn(c, instruments, name, msg);
            && r.active == c.active && r.books.Keys == instruments
            && r.books[k] == if msg.Update? && msg.update.instrument == k then Updated(c.books[k], msg.update)
                             else c.books[k]
  {
    hide Updated, ToVenueId;
  }

  /** The last quote of each instrument counts. */
  lemma {:induction false} QuotesAreLast(c: Column, instruments: set<InstrumentKey>, name: string,
      msgs: seq<Message>, n: nat, k: InstrumentKey)
    requires n <= |msgs| && Uninterrupted(msgs, n) && c.quotes.Keys == instruments && k in instruments
    ensures var r := RunColumn(c, instruments, name, msgs, n);
            r.quotes.Keys == instruments && r.quotes[k] == LastOr(QuotesFor(msgs, k, n), c.quotes[k])
  {
    if n > 0 {
      hide Updated, ToVenueId;
      QuotesAreLast(c, instruments, name, msgs, n - 1, k);
    }
  }

  /** The last verdict on each stream counts. */
  lemma {:induction false} VerdictsAreLast(c: Column, instruments: set<InstrumentKey>, name: string,
      msgs: seq<Message>, n: nat)
    requires n <= |msgs| && Uninterrupted(msgs, n)
    ensures RunColumn(c, instruments, name, msgs, n).depth == LastOr(VerdictsFor(msgs, DepthStream, n), c.depth)
    ensures RunColumn(c, instruments, name, msgs, n).bbo == LastOr(VerdictsFor(msgs, BboStream, n), c.bbo)
  {
    if n > 0 {
      hide Updated, ToVenueId;
      VerdictsAreLast(c, instruments, name, msgs, n - 1);
    }
  }

  /** A disconnect leaves an active slot without venue, books, prices or verdicts, and an inactive one as it was. */
  lemma {:induction false} DisconnectForgets(c: Column, instruments: set<InstrumentKey>, name: string)
    ensures var r := StepColumn(c, instruments, name, Disconnect);
            if c.active.None? then r == c
            else
              && r.active == None && r.books == map[] && r.depth == NoData && r.bbo == NoData
              && r.quotes.Keys == instruments
              && forall k :: k in instruments ==> r.quotes[k].bidPrice == 0 && r.quotes[k].askPrice == 0
  {
  }

  lemma {:induction false} RunColumnFrom(c: Column, instruments: set<InstrumentKey>, name: string,
      msgs: seq<Message>, r: nat, n: nat)
    requires r <= n <= |msgs|
    ensures RunColumn(c, instruments, name, msgs, n)
            == RunColumn(RunColumn(c, instruments, name, msgs, r), instruments, name, msgs[r..], n - r)
  {
    if r < n {
      RunColumnFrom(c, instruments, name, msgs, r, n - 1);
      assert msgs[r..][n - r - 1] == msgs[n - 1];
    }
  }

  /**
   A session from its registration on: whatever came before it, and nothing of what
   was sent then, each book is the updates since.
   */
  lemma {:induction false} SessionStartsEmpty(c: Column, instruments: set<InstrumentKey>, name: string,
      msgs: seq<Message>, r: nat, n: nat, k: InstrumentKey)
    requires c.active.None? && c.books == map[] && ToVenueId(name).Some? && k in instruments
    requires r < n <= |msgs| && msgs[r].Registration? && forall i :: 0 <= i < r ==> !msgs[i].Registration?
    requires Uninterrupted(msgs[r + 1..], n - r - 1)
    ensures var s := RunColumn(c, instruments, name, msgs, n);
            && s.active == ToVenueId(name) && s.books.Keys == instruments
            && s.books[k] == Held(VenueBook(map[], map[]), UpdatesFor(msgs[r + 1..], k, n - r - 1))
  {
    InactiveStays(c, instruments, name, msgs, r);
    var started := RunColumn(c, instruments, name, msgs, r + 1);
    assert started.active == ToVenueId(name) && started.books.Keys == instruments && started.books[k] == EMPTY_BOOK;
    RunColumnFrom(c, instruments, name, msgs, r + 1, n);
    hide RunColumn, ToVenueId, Held;
    BooksAreFolds(started, instruments, name, msgs[r + 1..], n - r - 1, k);
  }

  // ------------------------------------------------------------ what a book then shows --

  /**
   One side of an instrument's book, told by the columns: best price first, each
   level attributed to exactly the live slots whose book has that price, in slot
   order with the book's quantity and their 64-bit sum, and nothing missing.
   */
  ghost predicate ShowsColumns(d: Side, m: Markets, k: InstrumentKey, side: seq<MergedLevel>)
    requires |m.columns| == 8
  {
    && (forall i, j :: 0 <= i < j < |side| ==>
          if d.Bid? then side[i].price > side[j].price else side[i].price < side[j].price)
    && (forall j :: 0 <= j < |side| ==> ShowsLevel(d, m, k, side[j]))
    && (forall i, p: u64, q :: 0 <= i < 8 && Quoting(m.columns[i], k, d, p, q) ==>
          exists j :: 0 <= j < |side| && side[j].price == p)
  }

  /** The slot's verdict is Live and its book of the instrument has the quantity at the price. */
  predicate Quoting(c: Column, k: InstrumentKey, d: Side, p: u64, q: u64) {
    && c.depth == Live && k in c.books
    && var levels := if d.Bid? then c.books[k].bids else c.books[k].asks;
       p in levels && levels[p] == q
  }

  ghost predicate ShowsLevel(d: Side, m: Markets, k: InstrumentKey, level: MergedLevel)
    requires |m.columns| == 8
  {
    && (forall v: VenueQuote :: v in level.venues <==> Quoting(m.columns[v.slot], k, d, level.price, v.qty))
    && (forall a, b :: 0 <= a < b < |level.venues| ==> level.venues[a].slot < level.venues[b].slot)
    && level.venues != [] && level.qty == Wrap(SumOf(level.venues))
  }

  lemma {:induction false} BookFromColumns(d: Side, m: Markets, k: InstrumentKey, side: seq<MergedLevel>)
    requires |m.columns| == 8 && IsMerge(d, m.Views(k, d), side)
    ensures ShowsColumns(d, m, k, side)
  {
    var views := m.Views(k, d);
    forall i, j | 0 <= i < j < |side|
      ensures if d.Bid? then side[i].price > side[j].price else side[i].price < side[j].price {
      InOrder(d, PricesOf(side), i, j);
    }
    forall j | 0 <= j < |side| ensures ShowsLevel(d, m, k, side[j]) {
      assert PricesOf(side)[j] in PricesOf(side);
      ContribIs(views, side[j].price, 8);
      ContributionShape(views, side[j].price);
    }
    forall i, p: u64, q | 0 <= i < 8 && Quoting(m.columns[i], k, d, p, q)
      ensures exists j :: 0 <= j < |side| && side[j].price == p {
      assert p in views[i] && Quoted(views, p);
    }
  }

  /** An update of an active slot publishes the book of its instrument; any other publishes nothing. */
  lemma {:induction false} UpdateIsPublished(m: Markets, slot: Slot, u: BookUpdate, out: Option<Output>)
    requires m.Ok() && Publishes(m, slot, Update(u), out)
    ensures m.columns[slot].active.Some? && u.instrument in m.instruments ==>
              && out.Some? && out.value.BookOut? && out.value.instrument == u.instrument
              && ShowsColumns(Bid, m, u.instrument, out.value.book.bids)
              && ShowsColumns(Ask, m, u.instrument, out.value.book.asks)
    ensures m.columns[slot].active.None? || u.instrument !in m.instruments ==> out == None
  {
    assert ColumnOk(m.columns[slot], m.instruments, m.NameAt(slot));
    if out.Some? {
      BookFromColumns(Bid, m, u.instrument, out.value.book.bids);
      BookFromColumns(Ask, m, u.instrument, out.value.book.asks);
    }
  }

  /** A quote on a known instrument publishes its BBO, whether its slot is active or not; any other nothing. */
  lemma {:induction false} QuoteIsPublished(m: Markets, slot: Slot, q: BboQuote, out: Option<Output>)
    requires m.Ok() && Publishes(m, slot, Quote(q), out)
    ensures q.instrument in m.instruments ==>
              && out.Some? && out.value.BboOut? && out.value.instrument == q.instrument
              && IsBestBid(m.Quotes(q.instrument), m.BboVerdicts(), out.value.bbo.bestBid)
              && IsBestAsk(m.Quotes(q.instrument), m.BboVerdicts(), out.value.bbo.bestAsk)
    ensures q.instrument !in m.instruments ==> out == None
  {
    if out.Some? {
      BboFromQuotes(m.Quotes(q.instrument), m.BboVerdicts(), out.value.bbo);
    }
  }

  /**
   From the messages to the book, over any run in which the slot is not
   disconnected: a level names the slot exactly when the last verdict on its depth
   is Live and its updates, folded in order, leave that quantity at the price.
   */
  lemma {:induction false} AttributedFromMessages(m: Markets, trace: seq<Event>, slot: Slot, k: InstrumentKey,
      book: Book)
    requires m.Ok() && k in m.instruments && m.columns[slot].active.Some?
    requires forall i :: 0 <= i < |trace| && trace[i].0 == slot ==> !trace[i].1.Disconnect?
    requires IsBookOf(Run(m, trace, |trace|), k, book)
    ensures var own, c := Project(trace, slot, |trace|), m.columns[slot];
            var held := Held(c.books[k], UpdatesFor(own, k, |own|));
            var live := LastOr(VerdictsFor(own, DepthStream, |own|), c.depth) == Live;
            && (forall j, q: u64 :: 0 <= j < |book.bids| ==> (VenueQuote(slot, q) in book.bids[j].venues <==>
                  live && book.bids[j].price in held.bids && held.bids[book.bids[j].price] == q))
            && (forall j, q: u64 :: 0 <= j < |book.asks| ==> (VenueQuote(slot, q) in book.asks[j].venues <==>
                  live && book.asks[j].price in held.asks && held.asks[book.asks[j].price] == q))
            && (live ==> forall p :: p in held.bids ==> exists j :: 0 <= j < |book.bids| && book.bids[j].price == p)
            && (live ==> forall p :: p in held.asks ==> exists j :: 0 <= j < |book.asks| && book.asks[j].price == p)
  {
    var own, c, m' := Project(trace, slot, |trace|), m.columns[slot], Run(m, trace, |trace|);
    OwnUninterrupted(trace, slot, |trace|);
    assert ColumnOk(c, m.instruments, m.NameAt(slot));
    RunIsPerSlot(m, trace, slot, |trace|);
    BooksAreFolds(c, m.instruments, m.NameAt(slot), own, |own|, k);
    VerdictsAreLast(c, m.instruments, m.NameAt(slot), own, |own|);
    BookFromColumns(Bid, m', k, book.bids);
    BookFromColumns(Ask, m', k, book.asks);
    var held, r := Held(c.books[k], UpdatesFor(own, k, |own|)), m'.columns[slot];
    hide Run, RunColumn, Held, Project, UpdatesFor, VerdictsFor, LastOr, IsMerge;
    assert r.books[k] == held;
    forall j, q: u64 | 0 <= j < |book.bids|
      ensures VenueQuote(slot, q) in book.bids[j].venues <==> Quoting(r, k, Bid, book.bids[j].price, q) {
      assert ShowsLevel(Bid, m', k, book.bids[j]);
    }
    forall j, q: u64 | 0 <= j < |book.asks|
      ensures VenueQuote(slot, q) in book.asks[j].venues <==> Quoting(r, k, Ask, book.asks[j].price, q) {
      assert ShowsLevel(Ask, m', k, book.asks[j]);
    }
    forall p | r.depth == Live && p in held.bids ensures exists j :: 0 <= j < |book.bids| && book.bids[j].price == p {
      assert Quoting(r, k, Bid, p, held.bids[p]);
    }
    forall p | r.depth == Live && p in held.asks ensures exists j :: 0 <= j < |book.asks| && book.asks[j].price == p {
      assert Quoting(r, k, Ask, p, held.asks[p]);
    }
  }

  lemma {:induction false} OwnUninterrupted(trace: seq<Event>, slot: Slot, n: nat)
    requires n <= |trace| && forall i :: 0 <= i < n && trace[i].0 == slot ==> !trace[i].1.Disconnect?
    ensures Uninterrupted(Project(trace, slot, n), |Project(trace, slot, n)|)
  {
    if n > 0 {
      OwnUninterrupted(trace, slot, n - 1);
    }
  }

  /** The same for the BBO: the slot is named exactly when its last verdict is Live and its last quote has the price. */
  lemma {:induction false} QuotedFromMessages(m: Markets, trace: seq<Event>, slot: Slot, k: InstrumentKey, bbo: BBO)
    requires m.Ok() && TraceOk(trace) && k in m.instruments && Run(m, trace, |trace|).Ok()
    requires forall i :: 0 <= i < |trace| && trace[i].0 == slot ==> !trace[i].1.Disconnect?
    requires IsBbo(Run(m, trace, |trace|).Quotes(k), Run(m, trace, |trace|).BboVerdicts(), bbo)
    ensures var own, c := Project(trace, slot, |trace|), m.columns[slot];
            var quote := LastOr(QuotesFor(own, k, |own|), c.quotes[k]);
            var live := LastOr(VerdictsFor(own, BboStream, |own|), c.bbo) == Live;
            && (forall n: u64 :: VenueQuote(slot, n) in bbo.bestBid.venues <==>
                  live && quote.bidPrice == bbo.bestBid.price != 0 && quote.bidQty == n)
            && (forall n: u64 :: VenueQuote(slot, n) in bbo.bestAsk.venues <==>
                  live && quote.askPrice == bbo.bestAsk.price != 0 && quote.askQty == n)
            && (live ==> quote.bidPrice <= bbo.bestBid.price)
            && (live && quote.askPrice != 0 ==> 0 < bbo.bestAsk.price <= quote.askPrice)
  {
    var own, c, m' := Project(trace, slot, |trace|), m.columns[slot], Run(m, trace, |trace|);
    assert ColumnOk(c, m.instruments, m.NameAt(slot));
    OwnUninterrupted(trace, slot, |trace|);
    RunIsPerSlot(m, trace, slot, |trace|);
    QuotesAreLast(c, m.instruments, m.NameAt(slot), own, |own|, k);
    VerdictsAreLast(c, m.instruments, m.NameAt(slot), own, |own|);
    BboFromQuotes(m'.Quotes(k), m'.BboVerdicts(), bbo);
  }

  // ---------------------------------------------------------- a slot that says nothing --

  predicate SaysLive(e: Event, slot: Slot, s: StreamKind) {
    e.0 == slot && e.1.Health? && e.1.event.stream == s && e.1.event.health == Live
  }

  /** A slot is live on a stream only if it was, or if a verdict said so. */
  lemma {:induction false} LiveOnlyIfToldSo(m: Markets, trace: seq<Event>, n: nat, slot: Slot, s: StreamKind)
    requires |m.columns| == 8 && n <= |trace| && forall i :: 0 <= i < n ==> !SaysLive(trace[i], slot, s)
    requires (if s == DepthStream then m.columns[slot].depth else m.columns[slot].bbo) != Live
    ensures var c := Run(m, trace, n).columns[slot]; (if s == DepthStream then c.depth else c.bbo) != Live
  {
    if n > 0 {
      LiveOnlyIfToldSo(m, trace, n - 1, slot, s);
    }
  }

  predicate QuotesOn(e: Event, slot: Slot, k: InstrumentKey) {
    e.0 == slot && e.1.Quote? && e.1.quote.instrument == k
  }

  /** A slot without a price stays without one until it quotes, so no BBO names it whatever the verdicts say. */
  lemma {:induction false} SilentNotInBbo(m: Markets, trace: seq<Event>, n: nat, slot: Slot, k: InstrumentKey,
      bbo: BBO)
    requires m.Ok() && TraceOk(trace) && n <= |trace| && k in m.instruments && Run(m, trace, n).Ok()
    requires m.columns[slot].quotes[k].bidPrice == 0 && m.columns[slot].quotes[k].askPrice == 0
    requires forall i :: 0 <= i < n ==> !QuotesOn(trace[i], slot, k)
    requires IsBbo(Run(m, trace, n).Quotes(k), Run(m, trace, n).BboVerdicts(), bbo)
    ensures forall v :: v in bbo.bestBid.venues ==> v.slot != slot
    ensures forall v :: v in bbo.bestAsk.venues ==> v.slot != slot
  {
    SilentHasNoPrice(m, trace, n, slot, k);
    BboFromQuotes(Run(m, trace, n).Quotes(k), Run(m, trace, n).BboVerdicts(), bbo);
  }

  lemma {:induction false} SilentHasNoPrice(m: Markets, trace: seq<Event>, n: nat, slot: Slot, k: InstrumentKey)
    requires m.Ok() && n <= |trace| && k in m.instruments
    requires m.columns[slot].quotes[k].bidPrice == 0 && m.columns[slot].quotes[k].askPrice == 0
    requires forall i :: 0 <= i < n ==> !QuotesOn(trace[i], slot, k)
    ensures var c := Run(m, trace, n).columns[slot];
            k in c.quotes && c.quotes[k].bidPrice == 0 && c.quotes[k].askPrice == 0
  {
    if n > 0 {
      hide Updated, ToVenueId, ColumnOk;
      SilentHasNoPrice(m, trace, n - 1, slot, k);
    } else {
      assert ColumnOk(m.columns[slot], m.instruments, m.NameAt(slot));
    }
  }
}
