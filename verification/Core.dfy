/**
 Core (md_core/md_core.cpp): the consolidator's state and the five messages that
 change it. The consolidated book is repaired incrementally behind a rebuild
 latch, the BBO behind a version counter; both always publish what the
 from-scratch market (Market.dfy) prescribes.
 */
module Cores {
  import opened Types
  import opened LevelMap
  import opened FlatOrderBooks
  import opened ConsolidatedBook
  import opened ConsolidatedState
  import opened ConsolidatedBbo
  import opened VenueRegistries
  import opened Market

  // ------------------------------------------------------------ one instrument --

  /** A slot's book of one instrument against its column of the market: there exactly when the slot is active. */
  ghost predicate BookAt(k: InstrumentKey, b: Option<Contents>, c: Column) {
    if b.None? then c.active.None? && k !in c.books
    else
      && b.value.Valid() && b.value.instrument == k && c.active == Some(b.value.venue)
      && k in c.books && c.books[k] == b.value.View()
  }

  ghost predicate RowIs(k: InstrumentKey, row: Row, m: Markets) {
    |row| == |m.columns| == 8 && forall i :: 0 <= i < 8 ==> BookAt(k, row[i], m.columns[i])
  }

  /** The latch: while it is clear, the state is the unbounded merge of the current books under the current verdicts. */
  ghost predicate StateIs(k: InstrumentKey, st: Kept, m: Markets)
    requires |m.columns| == 8
  {
    !st.needsRebuild ==> IsBookOf(m, k, st.book)
  }

  ghost predicate DepthIs(health: seq<VenueHealth>, m: Markets) {
    |health| == |m.columns| == 8 && forall i :: 0 <= i < 8 ==> health[i] == m.columns[i].depth
  }

  /** What the merge is given is what the market's columns contribute. */
  lemma {:induction false} AdmittedViews(k: InstrumentKey, row: Row, health: seq<VenueHealth>, m: Markets, d: Side,
      n: nat)
    requires RowIs(k, row, m) && DepthIs(health, m) && n <= 8
    ensures RowOk(row) && Admitted(row, Some(health), n, d) == m.Views(k, d)[..n]
  {
    forall i | 0 <= i < 8 ensures row[i].Some? ==> row[i].value.Valid() {
      assert BookAt(k, row[i], m.columns[i]);
    }
    forall i | 0 <= i < n ensures Admitted(row, Some(health), n, d)[i] == m.Views(k, d)[i] {
      assert BookAt(k, row[i], m.columns[i]);
    }
  }

  lemma {:induction false} ContribPad(views: Views, n: nat, p: u64, k: nat)
    requires n <= k <= |views| && forall i :: n <= i < k ==> views[i] == map[]
    ensures Contrib(views, p, k) == Contrib(views[..n], p, n) && Total(views, p, k) == Total(views[..n], p, n)
  {
    if k > n {
      ContribPad(views, n, p, k - 1);
    } else {
      assert SameBelow(views, views[..n], p, n);
      ContribFrame(views, views[..n], p, n);
    }
  }

  /** Slots without a book do not change the merge, so the high-water mark may be used as the bound. */
  lemma {:induction false} MergePad(d: Side, views: Views, n: nat, side: seq<MergedLevel>)
    requires n <= |views| && (forall i :: n <= i < |views| ==> views[i] == map[]) && IsMerge(d, views[..n], side)
    ensures IsMerge(d, views, side)
  {
    forall p ensures LevelAt(views, p) == LevelAt(views[..n], p) && (Quoted(views, p) <==> Quoted(views[..n], p)) {
      ContribPad(views, n, p, |views|);
      QuotedIff(views, p);
      QuotedIff(views[..n], p);
    }
  }

  /** The exceptional path: everything from the venue books, up to the high-water mark. */
  method Rebuild(k: InstrumentKey, row: Row, health: seq<VenueHealth>, venueCount: nat, ghost m: Markets)
      returns (st: Kept)
    requires RowIs(k, row, m) && DepthIs(health, m)
    requires venueCount <= 8 && forall i :: venueCount <= i < 8 ==> row[i].None?
    ensures IsBookOf(m, k, st.book) && !st.needsRebuild
  {
    AdmittedViews(k, row, health, m, Bid, venueCount);
    AdmittedViews(k, row, health, m, Ask, venueCount);
    var state := new State();
    state.FullRebuild(row, venueCount, health);
    forall i, d | venueCount <= i < 8 ensures m.Views(k, d)[i] == map[] {
      assert BookAt(k, row[i], m.columns[i]);
    }
    MergePad(Bid, m.Views(k, Bid), venueCount, state.book.bids);
    MergePad(Ask, m.Views(k, Ask), venueCount, state.book.asks);
    st := state.Holds();
  }

  /** An update moves exactly its own slot's contribution, and that only when the slot is admitted. */
  lemma {:induction false} ViewsAfterUpdate(m: Markets, k: InstrumentKey, slot: Slot, update: BookUpdate, d: Side)
    requires |m.columns| == 8 && k in m.columns[slot].books && update.instrument == k
    ensures
      var m' := Step(m, slot, Update(update));
      m'.Views(k, d) == if IsAdmissible(m.columns[slot].depth)
      then With(m.Views(k, d), slot, Updated(m.columns[slot].books[k], update).On(d)) else m.Views(k, d)
  {
  }

  /** The hot path: one venue's changes folded in, or nothing at all when the venue is not admitted. */
  method Repair(k: InstrumentKey, st: Kept, slot: Slot, update: BookUpdate, admitted: bool,
                bidChanges: seq<LevelChange>, askChanges: seq<LevelChange>, ghost m: Markets)
    returns (st': Kept)
    requires m.Ok() && k in m.columns[slot].books && update.instrument == k && WellFormed(update)
    requires admitted == IsAdmissible(m.columns[slot].depth)
    requires !st.needsRebuild && IsBookOf(m, k, st.book)
    requires IsDiff(Bid, m.columns[slot].books[k].bids, Updated(m.columns[slot].books[k], update).bids, bidChanges)
    requires IsDiff(Ask, m.columns[slot].books[k].asks, Updated(m.columns[slot].books[k], update).asks, askChanges)
    ensures IsBookOf(Step(m, slot, Update(update)), k, st'.book) && !st'.needsRebuild
  {
    ghost var was := m.columns[slot].books[k];
    ViewsAfterUpdate(m, k, slot, update, Bid);
    ViewsAfterUpdate(m, k, slot, update, Ask);
    assert ColumnOk(m.columns[slot], m.instruments, m.NameAt(slot));
    UpdatedOk(was, update);
    var state := new State.Load(st);
    if admitted {
      state.ApplyDepthDelta(slot, bidChanges, askChanges, m.Views(k, Bid), m.Views(k, Ask), Updated(was, update));
    }
    st' := state.Holds();
  }

  /**
   One depth update on one instrument: the venue book takes it, and the
   consolidated state is rebuilt, repaired, or left alone when the venue is not
   admitted. Whatever the path, the latch is clear afterwards.
   */
  method Consolidate(k: InstrumentKey, row: Row, st: Kept, slot: Slot, update: BookUpdate,
                     health: seq<VenueHealth>, venueCount: nat, ghost m: Markets)
    returns (row': Row, st': Kept)
    requires m.Ok() && RowIs(k, row, m) && DepthIs(health, m) && StateIs(k, st, m)
    requires row[slot].Some? && WellFormed(update) && update.instrument == k
    requires venueCount <= 8 && forall i :: venueCount <= i < 8 ==> row[i].None?
    ensures RowIs(k, row', Step(m, slot, Update(update)))
    ensures IsBookOf(Step(m, slot, Update(update)), k, st'.book) && !st'.needsRebuild
  {
    ghost var m' := Step(m, slot, Update(update));
    assert BookAt(k, row[slot], m.columns[slot]);
    var book := new FlatOrderBook.Load(row[slot].value);
    book.ApplyUpdate(update);
    row' := row[slot := Some(book.Holds())];
    assert RowIs(k, row', m') by {
      forall i | 0 <= i < 8 ensures BookAt(k, row'[i], m'.columns[i]) {
        assert i != slot ==> BookAt(k, row[i], m.columns[i]);
      }
    }
    if !book.lastChangesComplete || st.needsRebuild {
      st' := Rebuild(k, row', health, venueCount, m');
    } else {
      st' := Repair(k, st, slot, update, IsAdmissible(health[slot]), book.lastBidChanges, book.lastAskChanges, m);
    }
  }

  // ------------------------------------------------------------- all instruments --

  type Books = map<InstrumentKey, Row>
  type States = map<InstrumentKey, Kept>

  ghost predicate EntryOk(k: InstrumentKey, row: Row, st: Kept, m: Markets) {
    RowIs(k, row, m) && StateIs(k, st, m)
  }

  /** Every venue book matches the market, and every state whose latch is clear is its instrument's merge. */
  ghost predicate DepthOk(books: Books, states: States, m: Markets) {
    && books.Keys == states.Keys == m.instruments
    && forall k :: k in books ==> EntryOk(k, books[k], states[k], m)
  }

  /** The market step of an update does not concern the entries of other instruments. */
  lemma {:induction false} EntryElsewhere(l: InstrumentKey, row: Row, st: Kept, slot: Slot, update: BookUpdate,
      m: Markets)
    requires EntryOk(l, row, st, m) && l != update.instrument
    ensures EntryOk(l, row, st, Step(m, slot, Update(update)))
  {
    var m' := Step(m, slot, Update(update));
    forall i | 0 <= i < 8 ensures BookAt(l, row[i], m'.columns[i]) {
      assert BookAt(l, row[i], m.columns[i]);
    }
    assert m.Views(l, Bid) == m'.Views(l, Bid) && m.Views(l, Ask) == m'.Views(l, Ask);
  }

  lemma {:induction false} NoneAbove(k: InstrumentKey, row: Row, m: Markets)
    requires m.Ok() && RowIs(k, row, m)
    ensures forall i :: |m.names| <= i < 8 ==> row[i].None?
  {
    forall i | |m.names| <= i < 8 ensures row[i].None? {
      assert BookAt(k, row[i], m.columns[i]);
      assert ColumnOk(m.columns[i], m.instruments, m.NameAt(i));
    }
  }

  /** The depth part of an update: one venue book and one consolidated state change, all instruments stay in step. */
  method UpdateDepth(books: Books, states: States, slot: Slot, update: BookUpdate, health: seq<VenueHealth>,
      venueCount: nat,
                     ghost m: Markets)
    returns (books': Books, states': States)
    requires m.Ok() && DepthOk(books, states, m) && DepthIs(health, m) && WellFormed(update)
    requires update.instrument in books && |books[update.instrument]| == 8 && books[update.instrument][slot].Some?
    requires venueCount == |m.names|
    ensures DepthOk(books', states', Step(m, slot, Update(update)))
    ensures IsBookOf(Step(m, slot, Update(update)), update.instrument, states'[update.instrument].book)
  {
    var k := update.instrument;
    ghost var m' := Step(m, slot, Update(update));
    assert EntryOk(k, books[k], states[k], m);
    NoneAbove(k, books[k], m);
    var row, st := Consolidate(k, books[k], states[k], slot, update, health, venueCount, m);
    books', states' := books[k := row], states[k := st];
    forall l | l in books' ensures EntryOk(l, books'[l], states'[l], m') {
      if l != k {
        EntryElsewhere(l, books[l], states[l], slot, update, m);
      }
    }
  }

  /** Latches a rebuild on every instrument. */
  method MarkAllForRebuild(states: States) returns (states': States)
    ensures states'.Keys == states.Keys
    ensures forall k :: k in states' ==> states'[k] == Kept(states[k].book, true)
  {
    states' := states;
    var todo := states.Keys;
    while todo != {}
      invariant todo <= states.Keys && states'.Keys == states.Keys
      invariant forall k :: k in todo ==> states'[k] == states[k]
      invariant forall k :: k in states && k !in todo ==> states'[k] == Kept(states[k].book, true)
    {
      var k :| k in todo;
      var state := new State.Load(states'[k]);
      state.MarkForRebuild();
      states' := states'[k := state.Holds()];
      todo := todo - {k};
    }
  }

  /** The row of one instrument once a venue is active in a slot. */
  function Opened(k: InstrumentKey, row: Row, slot: Slot, venue: VenueId): Row
    requires |row| == 8
  {
    if row[slot].Some? then row else row[slot := Some(Contents(venue, k, [], []))]
  }

  /** A venue appears: an empty book in its slot for every instrument that has none there yet. */
  method OpenBooks(books: Books, slot: Slot, venue: VenueId) returns (books': Books)
    requires forall k :: k in books ==> |books[k]| == 8
    ensures books'.Keys == books.Keys
    ensures forall k :: k in books' ==> books'[k] == Opened(k, books[k], slot, venue)
  {
    books' := books;
    var todo := books.Keys;
    while todo != {}
      invariant todo <= books.Keys && books'.Keys == books.Keys
      invariant forall k :: k in todo ==> books'[k] == books[k]
      invariant forall k :: k in books && k !in todo ==> books'[k] == Opened(k, books[k], slot, venue)
    {
      var k :| k in todo;
      if books'[k][slot].None? {
        var b := new FlatOrderBook(venue, k);
        books' := books'[k := books'[k][slot := Some(b.Holds())]];
      }
      todo := todo - {k};
    }
  }

  /** A venue is removed: its book of every instrument goes. */
  method FreeBooks(rows: Books, slot: Slot) returns (rows': Books)
    requires forall k :: k in rows ==> |rows[k]| == 8
    ensures rows'.Keys == rows.Keys && forall k :: k in rows ==> rows'[k] == rows[k][slot := None]
  {
    rows' := rows;
    var todo := rows.Keys;
    while todo != {}
      invariant todo <= rows.Keys && rows'.Keys == rows.Keys
      invariant forall k :: k in todo ==> rows'[k] == rows[k]
      invariant forall k :: k in rows && k !in todo ==> rows'[k] == rows[k][slot := None]
    {
      var k :| k in todo;
      rows' := rows'[k := rows'[k][slot := None]];
      todo := todo - {k};
    }
  }

  // ------------------------------------------------- what each transition keeps --

  /** The two markets agree on books, activity and depth verdicts. */
  ghost predicate SameDepth(m: Markets, m': Markets) {
    && |m.columns| == |m'.columns| == 8 && m.instruments == m'.instruments
    && forall i :: 0 <= i < 8 ==>
         && m.columns[i].active == m'.columns[i].active && m.columns[i].depth == m'.columns[i].depth
         && m.columns[i].books == m'.columns[i].books
  }

  lemma {:induction false} DepthFrame(books: Books, states: States, m: Markets, m': Markets)
    requires DepthOk(books, states, m) && SameDepth(m, m')
    ensures DepthOk(books, states, m')
  {
    forall k | k in books ensures EntryOk(k, books[k], states[k], m') {
      assert EntryOk(k, books[k], states[k], m);
      forall i | 0 <= i < 8 ensures BookAt(k, books[k][i], m'.columns[i]) {
        assert BookAt(k, books[k][i], m.columns[i]);
      }
      assert m.Views(k, Bid) == m'.Views(k, Bid) && m.Views(k, Ask) == m'.Views(k, Ask);
    }
  }

  /** With every latch set, only the books have to match. */
  lemma {:induction false} DepthLatched(books: Books, states: States, m: Markets)
    requires books.Keys == states.Keys == m.instruments && |m.columns| == 8
    requires forall k :: k in books ==> RowIs(k, books[k], m)
    requires forall k :: k in states ==> states[k].needsRebuild
    ensures DepthOk(books, states, m)
  {
  }

  lemma {:induction false} HealthRow(k: InstrumentKey, row: Row, m: Markets, slot: Slot, e: VenueHealthEvent)
    requires RowIs(k, row, m)
    ensures RowIs(k, row, Step(m, slot, Health(e)))
  {
    var m' := Step(m, slot, Health(e));
    forall i | 0 <= i < 8 ensures BookAt(k, row[i], m'.columns[i]) {
      assert BookAt(k, row[i], m.columns[i]);
    }
  }

  lemma {:induction false} RegistrationRow(k: InstrumentKey, row: Row, m: Markets, slot: Slot, v: VenueId)
    requires m.Ok() && k in m.instruments && RowIs(k, row, m) && ToVenueId(m.NameAt(slot)) == Some(v)
    ensures RowIs(k, Opened(k, row, slot, v), Step(m, slot, Registration))
  {
    var m' := Step(m, slot, Registration);
    assert ColumnOk(m.columns[slot], m.instruments, m.NameAt(slot));
    forall i | 0 <= i < 8 ensures BookAt(k, Opened(k, row, slot, v)[i], m'.columns[i]) {
      assert BookAt(k, row[i], m.columns[i]);
    }
  }

  lemma {:induction false} DisconnectRow(k: InstrumentKey, row: Row, m: Markets, slot: Slot)
    requires RowIs(k, row, m) && m.columns[slot].active.Some?
    ensures RowIs(k, row[slot := None], Step(m, slot, Disconnect))
  {
    var m' := Step(m, slot, Disconnect);
    forall i | 0 <= i < 8 ensures BookAt(k, row[slot := None][i], m'.columns[i]) {
      assert BookAt(k, row[i], m.columns[i]);
    }
  }

  type QuoteRows = map<InstrumentKey, seq<BboQuote>>
  type Bbos = map<InstrumentKey, BBO>
  type Seen = map<InstrumentKey, nat>

  /** A venue is removed: so are its last quotes, which no later quote of its own would displace. */
  method ClearQuotes(rows: QuoteRows, slot: Slot) returns (rows': QuoteRows)
    requires forall k :: k in rows ==> |rows[k]| == 8
    ensures rows'.Keys == rows.Keys && forall k :: k in rows ==> rows'[k] == rows[k][slot := NO_QUOTE]
  {
    rows' := rows;
    var todo := rows.Keys;
    while todo != {}
      invariant todo <= rows.Keys && rows'.Keys == rows.Keys
      invariant forall k :: k in todo ==> rows'[k] == rows[k]
      invariant forall k :: k in rows && k !in todo ==> rows'[k] == rows[k][slot := NO_QUOTE]
    {
      var k :| k in todo;
      rows' := rows'[k := rows'[k][slot := NO_QUOTE]];
      todo := todo - {k};
    }
  }

  /** The version counter: an instrument that has seen the current version holds the BBO of its stored quotes. */
  ghost predicate BboEntryOk(m: Markets, k: InstrumentKey, quotes: seq<BboQuote>, bbo: BBO, seen: nat, version: nat)
    requires m.Ok() && k in m.instruments
  {
    && quotes == m.Quotes(k) && seen <= version
    && (seen == version ==> IsBbo(quotes, m.BboVerdicts(), bbo))
  }

  ghost predicate BboOk(m: Markets, quotes: QuoteRows, bbos: Bbos, seen: Seen, version: nat)
    requires m.Ok()
  {
    && quotes.Keys == bbos.Keys == seen.Keys == m.instruments
    && forall k :: k in m.instruments ==> BboEntryOk(m, k, quotes[k], bbos[k], seen[k], version)
  }

  ghost predicate SameQuotes(m: Markets, m': Markets) {
    && |m.columns| == |m'.columns| == 8 && m.instruments == m'.instruments
    && forall i :: 0 <= i < 8 ==> m.columns[i].quotes == m'.columns[i].quotes
  }

  /** Quotes and BBO verdicts as they were. */
  lemma {:induction false} BboFrame(m: Markets, m': Markets, quotes: QuoteRows, bbos: Bbos, seen: Seen, version: nat)
    requires m.Ok() && m'.Ok() && BboOk(m, quotes, bbos, seen, version)
    requires SameQuotes(m, m') && m.BboVerdicts() == m'.BboVerdicts()
    ensures BboOk(m', quotes, bbos, seen, version)
  {
    forall k | k in m'.instruments ensures BboEntryOk(m', k, quotes[k], bbos[k], seen[k], version) {
      assert BboEntryOk(m, k, quotes[k], bbos[k], seen[k], version);
      assert m.Quotes(k) == m'.Quotes(k);
    }
  }

  /** A bumped version obliges nobody until the next rescan. */
  lemma {:induction false} BboBumped(m: Markets, m': Markets, quotes: QuoteRows, quotes': QuoteRows, bbos: Bbos,
      seen: Seen, version: nat)
    requires m.Ok() && m'.Ok() && m.instruments == m'.instruments && BboOk(m, quotes, bbos, seen, version)
    requires quotes'.Keys == m.instruments && forall k :: k in m.instruments ==> quotes'[k] == m'.Quotes(k)
    ensures BboOk(m', quotes', bbos, seen, version + 1)
  {
    forall k | k in m'.instruments ensures BboEntryOk(m', k, quotes'[k], bbos[k], seen[k], version + 1) {
      assert BboEntryOk(m, k, quotes[k], bbos[k], seen[k], version);
    }
  }

  lemma {:induction false} QuotesAfter(m: Markets, slot: Slot, q: BboQuote, k: InstrumentKey)
    requires m.Ok() && Step(m, slot, Quote(q)).Ok() && k in m.instruments
    ensures Step(m, slot, Quote(q)).Quotes(k) == if k == q.instrument then m.Quotes(k)[slot := q] else m.Quotes(k)
    ensures Step(m, slot, Quote(q)).BboVerdicts() == m.BboVerdicts()
    ensures SameDepth(m, Step(m, slot, Quote(q)))
  {
    assert ColumnOk(m.columns[slot], m.instruments, m.NameAt(slot));
  }

  lemma {:induction false} BboEntryStored(m: Markets, slot: Slot, q: BboQuote, quotes: seq<BboQuote>, bbo: BBO,
      version: nat)
    requires m.Ok() && Step(m, slot, Quote(q)).Ok() && q.instrument in m.instruments && quotes == m.Quotes(q.instrument)
    requires IsBbo(quotes[slot := q], m.BboVerdicts(), bbo)
    ensures BboEntryOk(Step(m, slot, Quote(q)), q.instrument, quotes[slot := q], bbo, version, version)
  {
    QuotesAfter(m, slot, q, q.instrument);
  }

  lemma {:induction false} BboEntryKept(m: Markets, slot: Slot, q: BboQuote, k: InstrumentKey, quotes: seq<BboQuote>,
      bbo: BBO, seen: nat, version: nat)
    requires m.Ok() && Step(m, slot, Quote(q)).Ok() && k in m.instruments && k != q.instrument
    requires BboEntryOk(m, k, quotes, bbo, seen, version)
    ensures BboEntryOk(Step(m, slot, Quote(q)), k, quotes, bbo, seen, version)
  {
    QuotesAfter(m, slot, q, k);
  }

  /** One instrument moves on; the others keep their BBO. */
  lemma {:induction false} BboReplaced(m: Markets, k: InstrumentKey, quotes: QuoteRows, bbos: Bbos, seen: Seen,
      version: nat,
                                       row: seq<BboQuote>, bbo: BBO)
    requires m.Ok() && k in m.instruments && quotes.Keys == bbos.Keys == seen.Keys == m.instruments
    requires forall l :: l in m.instruments && l != k ==> BboEntryOk(m, l, quotes[l], bbos[l], seen[l], version)
    requires BboEntryOk(m, k, row, bbo, version, version)
    ensures BboOk(m, quotes[k := row], bbos[k := bbo], seen[k := version], version)
  {
  }

  /** One instrument's quote stored, its BBO folded or, after a verdict changed, rescanned. */
  method FoldQuote(slot: Slot, q: BboQuote, quotes: seq<BboQuote>, current: BBO, stale: bool, health: seq<VenueHealth>,
      ghost m: Markets)
    returns (bbo: BBO)
    requires m.Ok() && q.instrument in m.instruments && quotes == m.Quotes(q.instrument) && health == m.BboVerdicts()
    requires !stale ==> IsBbo(quotes, health, current)
    ensures IsBbo(quotes[slot := q], health, bbo)
  {
    if stale {
      bbo := ComputeBBOFromQuotes(quotes[slot := q], health);
    } else {
      bbo := UpdateBBOWithQuote(current, slot, quotes[slot := q], health, quotes);
    }
  }

  /** The BBO part of a quote: one stored quote, one BBO and one seen version change. */
  method UpdateQuotes(quotes: QuoteRows, bbos: Bbos, seen: Seen, version: nat, slot: Slot, q: BboQuote,
      health: seq<VenueHealth>,
                      ghost m: Markets)
    returns (quotes': QuoteRows, bbos': Bbos, seen': Seen)
    requires m.Ok() && Step(m, slot, Quote(q)).Ok() && BboOk(m, quotes, bbos, seen, version)
             && health == m.BboVerdicts()
    requires q.instrument in m.instruments
    ensures BboOk(Step(m, slot, Quote(q)), quotes', bbos', seen', version)
    ensures seen'[q.instrument] == version
  {
    var k := q.instrument;
    assert BboEntryOk(m, k, quotes[k], bbos[k], seen[k], version);
    var bbo := FoldQuote(slot, q, quotes[k], bbos[k], seen[k] != version, health, m);
    BboEntryStored(m, slot, q, quotes[k], bbo, version);
    forall l | l in m.instruments && l != k
        ensures BboEntryOk(Step(m, slot, Quote(q)), l, quotes[l], bbos[l], seen[l], version) {
      BboEntryKept(m, slot, q, l, quotes[l], bbos[l], seen[l], version);
    }
    BboReplaced(Step(m, slot, Quote(q)), k, quotes, bbos, seen, version, quotes[k][slot := q], bbo);
    quotes', bbos', seen' := quotes[k := quotes[k][slot := q]], bbos[k := bbo], seen[k := version];
  }

  /** An up-to-date entry is what the market publishes. */
  lemma {:induction false} PublishesBbo(m: Markets, slot: Slot, q: BboQuote, quotes: QuoteRows, bbos: Bbos, seen: Seen,
      version: nat)
    requires m.Ok() && BboOk(m, quotes, bbos, seen, version) && q.instrument in m.instruments
             && seen[q.instrument] == version
    ensures Publishes(m, slot, Quote(q), Some(BboOut(q.instrument, bbos[q.instrument])))
  {
    assert BboEntryOk(m, q.instrument, quotes[q.instrument], bbos[q.instrument], seen[q.instrument], version);
  }

  /** active_venues_ and venue_id_to_slot_ are mutually inverse. */
  ghost predicate Inverse(active: seq<Option<VenueId>>, slots: map<VenueId, Slot>) {
    && |active| == 8
    && forall i, v :: 0 <= i < 8 ==> (active[i] == Some(v) <==> v in slots && slots[v] == i)
  }

  ghost predicate TablesOk(m: Markets, active: seq<Option<VenueId>>, slots: map<VenueId, Slot>,
                           depth: seq<VenueHealth>, bbo: seq<VenueHealth>) {
    && |m.columns| == 8 && Inverse(active, slots)
    && (forall i :: 0 <= i < 8 ==> active[i] == m.columns[i].active)
    && DepthIs(depth, m) && bbo == m.BboVerdicts()
  }

  /** Two active slots never hold the same venue. */
  lemma {:induction false} ActiveInjective(m: Markets, i: int, j: int)
    requires m.Ok() && 0 <= i < 8 && 0 <= j < 8 && i != j && m.columns[i].active.Some?
    ensures m.columns[i].active != m.columns[j].active
  {
    assert ColumnOk(m.columns[i], m.instruments, m.NameAt(i));
    assert ColumnOk(m.columns[j], m.instruments, m.NameAt(j));
  }

  /** The tables only hold what the columns say about activity and verdicts. */
  lemma {:induction false} TablesFrame(m: Markets, m': Markets, active: seq<Option<VenueId>>, slots: map<VenueId, Slot>,
                                       depth: seq<VenueHealth>, bbo: seq<VenueHealth>)
    requires TablesOk(m, active, slots, depth, bbo) && |m.columns| == |m'.columns| == 8
    requires forall i :: 0 <= i < 8 ==>
             m'.columns[i].active == m.columns[i].active && m'.columns[i].depth == m.columns[i].depth
                                        && m'.columns[i].bbo == m.columns[i].bbo
    ensures TablesOk(m', active, slots, depth, bbo)
  {
  }

  /** A venue that sits in no other slot may be entered in this one. */
  lemma {:induction false} InverseEntered(active: seq<Option<VenueId>>, slots: map<VenueId, Slot>, slot: Slot,
      v: VenueId)
    requires Inverse(active, slots) && (active[slot] == None || active[slot] == Some(v))
    requires forall i :: 0 <= i < 8 && i != slot ==> active[i] != Some(v)
    ensures Inverse(active[slot := Some(v)], slots[v := slot])
  {
    var active', slots' := active[slot := Some(v)], slots[v := slot];
    forall i, w | 0 <= i < 8 ensures active'[i] == Some(w) <==> w in slots' && slots'[w] == i {
      assert active[i] == Some(w) <==> w in slots && slots[w] == i;
    }
  }

  lemma {:induction false} TablesRegistered(m: Markets, active: seq<Option<VenueId>>, slots: map<VenueId, Slot>,
                                            depth: seq<VenueHealth>, bbo: seq<VenueHealth>, slot: Slot, v: VenueId)
    requires m.Ok() && TablesOk(m, active, slots, depth, bbo) && ToVenueId(m.NameAt(slot)) == Some(v)
    requires Step(m, slot, Registration).Ok()
    ensures TablesOk(Step(m, slot, Registration), active[slot := Some(v)], slots[v := slot], depth, bbo)
  {
    var m' := Step(m, slot, Registration);
    assert ColumnOk(m.columns[slot], m.instruments, m.NameAt(slot));
    forall i | 0 <= i < 8 && i != slot ensures active[i] != Some(v) {
      ActiveInjective(m', slot, i);
    }
    hide ColumnOk, Inverse;
    InverseEntered(active, slots, slot, v);
  }

  lemma {:induction false} TablesRemoved(m: Markets, active: seq<Option<VenueId>>, slots: map<VenueId, Slot>,
                                         depth: seq<VenueHealth>, bbo: seq<VenueHealth>, slot: Slot)
    requires TablesOk(m, active, slots, depth, bbo) && active[slot].Some?
    ensures TablesOk(Step(m, slot, Disconnect), active[slot := None], slots - {active[slot].value},
                     depth[slot := NoData], bbo[slot := NoData])
  {
  }

  // ------------------------------------------------------------------- the class --

  /** The same in every slot. */
  function Eight<T>(x: T): (r: seq<T>)
    ensures |r| == 8 && forall i :: 0 <= i < 8 ==> r[i] == x
  {
    [x, x, x, x, x, x, x, x]
  }

  ghost function EmptyMarket(instruments: set<InstrumentKey>): Markets {
    Markets(instruments, [], Eight(Removed(instruments)))
  }

  lemma {:induction false} EmptyMarketOk(instruments: set<InstrumentKey>)
    ensures EmptyMarket(instruments).Ok()
    ensures EmptyMarket(instruments).BboVerdicts() == Eight(NoData)
    ensures forall k :: k in instruments ==> BboEntryOk(EmptyMarket(instruments), k, Eight(NO_QUOTE), NO_BBO, 0, 0)
  {
    var m := EmptyMarket(instruments);
    forall i | 0 <= i < 8 ensures ColumnOk(m.columns[i], instruments, m.NameAt(i)) {
    }
    forall k | k in instruments ensures m.Quotes(k) == Eight(NO_QUOTE) {
    }
  }

  /** A name appended to the registry activates nothing by itself. */
  lemma {:induction false} NamedOk(m: Markets, names: seq<string>)
    requires m.Ok() && m.names <= names && |names| <= 8 && forall i, j :: 0 <= i < j < |names| ==> names[i] != names[j]
    ensures m.(names := names).Ok()
  {
    var m' := m.(names := names);
    forall i | 0 <= i < 8 ensures ColumnOk(m'.columns[i], m'.instruments, m'.NameAt(i)) {
      assert ColumnOk(m.columns[i], m.instruments, m.NameAt(i));
    }
  }

  /** What an update leaves alone. */
  lemma {:induction false} UpdateFrame(m: Markets, slot: Slot, update: BookUpdate, active: seq<Option<VenueId>>,
      slots: map<VenueId, Slot>,
                                       depth: seq<VenueHealth>, bbo: seq<VenueHealth>,
                                       quotes: QuoteRows, bbos: Bbos, seen: Seen, version: nat)
    requires m.Ok() && WellFormed(update) && TablesOk(m, active, slots, depth, bbo)
             && BboOk(m, quotes, bbos, seen, version)
    ensures Step(m, slot, Update(update)).Ok()
    ensures TablesOk(Step(m, slot, Update(update)), active, slots, depth, bbo)
    ensures BboOk(Step(m, slot, Update(update)), quotes, bbos, seen, version)
  {
    hide TablesOk, BboOk;
    var m' := Step(m, slot, Update(update));
    StepOk(m, slot, Update(update));
    TablesFrame(m, m', active, slots, depth, bbo);
    BboFrame(m, m', quotes, bbos, seen, version);
  }

  lemma {:induction false} QuoteSkips(m: Markets, slot: Slot, q: BboQuote)
    requires |m.columns| == 8
    ensures SameDepth(m, Step(m, slot, Quote(q)))
    ensures q.instrument !in m.instruments ==> Step(m, slot, Quote(q)) == m
  {
    assert q.instrument !in m.instruments ==> Step(m, slot, Quote(q)).columns == m.columns;
  }

  /** What a quote leaves alone. */
  lemma {:induction false} QuoteFrame(m: Markets, slot: Slot, q: BboQuote, active: seq<Option<VenueId>>,
      slots: map<VenueId, Slot>,
                                      depth: seq<VenueHealth>, bbo: seq<VenueHealth>, books: Books, states: States)
    requires m.Ok() && TablesOk(m, active, slots, depth, bbo) && DepthOk(books, states, m)
    ensures Step(m, slot, Quote(q)).Ok()
    ensures TablesOk(Step(m, slot, Quote(q)), active, slots, depth, bbo)
    ensures DepthOk(books, states, Step(m, slot, Quote(q)))
    ensures q.instrument !in m.instruments ==> Step(m, slot, Quote(q)) == m
  {
    hide TablesOk, DepthOk;
    var m' := Step(m, slot, Quote(q));
    StepOk(m, slot, Quote(q));
    TablesFrame(m, m', active, slots, depth, bbo);
    QuoteSkips(m, slot, q);
    DepthFrame(books, states, m, m');
  }

  /** A book exists in a slot exactly when the market has one there; without it an update is dropped. */
  lemma {:induction false} UpdateReaches(books: Books, states: States, slot: Slot, update: BookUpdate, m: Markets)
    requires m.Ok() && DepthOk(books, states, m)
    ensures var reached := update.instrument in books && |books[update.instrument]| == 8
            && books[update.instrument][slot].Some?;
            && (reached <==> update.instrument in m.columns[slot].books)
            && (update.instrument in books ==> |books[update.instrument]| == 8)
            && (!reached ==> Step(m, slot, Update(update)) == m)
            && (update.instrument in Step(m, slot, Update(update)).columns[slot].books <==> reached)
  {
    var k := update.instrument;
    assert ColumnOk(m.columns[slot], m.instruments, m.NameAt(slot));
    if k in books {
      assert EntryOk(k, books[k], states[k], m);
      assert BookAt(k, books[k][slot], m.columns[slot]);
    }
    if k !in m.columns[slot].books {
      assert Step(m, slot, Update(update)).columns == m.columns;
    }
  }

  // ------------------------------------------------------------ the five messages --

  /** Which venue sits where, and what its two streams are worth. */
  datatype Tables = Tables(active: seq<Option<VenueId>>, slots: map<VenueId, Slot>, depth: seq<VenueHealth>,
      bbo: seq<VenueHealth>)

  datatype DepthSide = DepthSide(books: Books, states: States)

  datatype BboSide = BboSide(quotes: QuoteRows, bbos: Bbos, seen: Seen, version: nat)

  /** Core's whole state against the market it stands for. */
  ghost predicate Fits(m: Markets, t: Tables, d: DepthSide, b: BboSide)
    requires m.Ok()
  {
    && TablesOk(m, t.active, t.slots, t.depth, t.bbo)
    && DepthOk(d.books, d.states, m)
    && BboOk(m, b.quotes, b.bbos, b.seen, b.version)
  }

  method AfterUpdate(t: Tables, d: DepthSide, b: BboSide, venueCount: nat, slot: Slot, update: BookUpdate,
      ghost m: Markets)
    returns (d': DepthSide, out: Option<Output>)
    requires m.Ok() && Fits(m, t, d, b) && WellFormed(update) && venueCount == |m.names|
    ensures Step(m, slot, Update(update)).Ok() && Fits(Step(m, slot, Update(update)), t, d', b)
    ensures Publishes(Step(m, slot, Update(update)), slot, Update(update), out)
  {
    var k := update.instrument;
    UpdateFrame(m, slot, update, t.active, t.slots, t.depth, t.bbo, b.quotes, b.bbos, b.seen, b.version);
    UpdateReaches(d.books, d.states, slot, update, m);
    if k !in d.books || d.books[k][slot].None? {
      return d, None;
    }
    var books, states := UpdateDepth(d.books, d.states, slot, update, t.depth, venueCount, m);
    d' := DepthSide(books, states);
    out := Some(BookOut(k, states[k].book));
  }

  method AfterQuote(t: Tables, d: DepthSide, b: BboSide, slot: Slot, quote: BboQuote, ghost m: Markets)
    returns (b': BboSide, out: Option<Output>)
    requires m.Ok() && Fits(m, t, d, b)
    ensures Step(m, slot, Quote(quote)).Ok() && Fits(Step(m, slot, Quote(quote)), t, d, b')
    ensures Publishes(Step(m, slot, Quote(quote)), slot, Quote(quote), out)
  {
    QuoteFrame(m, slot, quote, t.active, t.slots, t.depth, t.bbo, d.books, d.states);
    if quote.instrument !in b.quotes {
      return b, None;
    }
    var quotes, bbos, seen := UpdateQuotes(b.quotes, b.bbos, b.seen, b.version, slot, quote, t.bbo, m);
    PublishesBbo(Step(m, slot, Quote(quote)), slot, quote, quotes, bbos, seen, b.version);
    b' := BboSide(quotes, bbos, seen, b.version);
    out := Some(BboOut(quote.instrument, bbos[quote.instrument]));
  }

  /** The verdict as it was: nothing to do. */
  lemma {:induction false} HealthUnchanged(m: Markets, slot: Slot, e: VenueHealthEvent)
    requires |m.columns| == 8
    requires e.health == if e.stream.DepthStream? then m.columns[slot].depth else m.columns[slot].bbo
    ensures Step(m, slot, Health(e)) == m
  {
    assert Step(m, slot, Health(e)).columns == m.columns;
  }

  lemma {:induction false} TablesDepth(m: Markets, t: Tables, slot: Slot, e: VenueHealthEvent)
    requires TablesOk(m, t.active, t.slots, t.depth, t.bbo) && e.stream.DepthStream?
    ensures TablesOk(Step(m, slot, Health(e)), t.active, t.slots, t.depth[slot := e.health], t.bbo)
  {
  }

  lemma {:induction false} TablesBbo(m: Markets, t: Tables, slot: Slot, e: VenueHealthEvent)
    requires TablesOk(m, t.active, t.slots, t.depth, t.bbo) && e.stream.BboStream?
    ensures TablesOk(Step(m, slot, Health(e)), t.active, t.slots, t.depth, t.bbo[slot := e.health])
  {
  }

  lemma {:induction false} LatchedByHealth(m: Markets, d: DepthSide, states: States, slot: Slot, e: VenueHealthEvent)
    requires m.Ok() && DepthOk(d.books, d.states, m)
    requires states.Keys == d.states.Keys && forall k :: k in states ==> states[k].needsRebuild
    ensures DepthOk(d.books, states, Step(m, slot, Health(e)))
  {
    forall k | k in d.books ensures RowIs(k, d.books[k], Step(m, slot, Health(e))) {
      assert EntryOk(k, d.books[k], d.states[k], m);
      HealthRow(k, d.books[k], m, slot, e);
    }
    DepthLatched(d.books, states, Step(m, slot, Health(e)));
  }

  /** A depth verdict changed: every book stays, every latch must be set. */
  lemma {:induction false} DepthVerdict(m: Markets, t: Tables, d: DepthSide, b: BboSide, states: States, slot: Slot,
      e: VenueHealthEvent)
    requires m.Ok() && Fits(m, t, d, b) && e.stream.DepthStream?
    requires states.Keys == d.states.Keys && forall k :: k in states ==> states[k].needsRebuild
    ensures Step(m, slot, Health(e)).Ok()
    ensures Fits(Step(m, slot, Health(e)), t.(depth := t.depth[slot := e.health]), DepthSide(d.books, states), b)
  {
    hide TablesOk, DepthOk, BboOk;
    StepOk(m, slot, Health(e));
    TablesDepth(m, t, slot, e);
    LatchedByHealth(m, d, states, slot, e);
    BboFrame(m, Step(m, slot, Health(e)), b.quotes, b.bbos, b.seen, b.version);
  }

  lemma {:induction false} BumpedByHealth(m: Markets, b: BboSide, slot: Slot, e: VenueHealthEvent)
    requires m.Ok() && BboOk(m, b.quotes, b.bbos, b.seen, b.version) && Step(m, slot, Health(e)).Ok()
    ensures BboOk(Step(m, slot, Health(e)), b.quotes, b.bbos, b.seen, b.version + 1)
  {
    var m' := Step(m, slot, Health(e));
    forall k | k in m.instruments ensures b.quotes[k] == m'.Quotes(k) {
      assert BboEntryOk(m, k, b.quotes[k], b.bbos[k], b.seen[k], b.version);
      assert m.Quotes(k) == m'.Quotes(k);
    }
    BboBumped(m, m', b.quotes, b.quotes, b.bbos, b.seen, b.version);
  }

  /** A BBO verdict changed: the version moves on and the depth side is not concerned. */
  lemma {:induction false} BboVerdict(m: Markets, t: Tables, d: DepthSide, b: BboSide, slot: Slot, e: VenueHealthEvent)
    requires m.Ok() && Fits(m, t, d, b) && e.stream.BboStream?
    ensures Step(m, slot, Health(e)).Ok()
    ensures Fits(Step(m, slot, Health(e)), t.(bbo := t.bbo[slot := e.health]), d, b.(version := b.version + 1))
  {
    hide TablesOk, DepthOk, BboOk;
    StepOk(m, slot, Health(e));
    TablesBbo(m, t, slot, e);
    DepthFrame(d.books, d.states, m, Step(m, slot, Health(e)));
    BumpedByHealth(m, b, slot, e);
  }

  method AfterHealth(t: Tables, d: DepthSide, b: BboSide, slot: Slot, e: VenueHealthEvent, ghost m: Markets)
    returns (t': Tables, d': DepthSide, b': BboSide)
    requires m.Ok() && Fits(m, t, d, b)
    ensures Step(m, slot, Health(e)).Ok() && Fits(Step(m, slot, Health(e)), t', d', b')
  {
    t', d', b' := t, d, b;
    if e.stream.DepthStream? {
      if t.depth[slot] == e.health {
        HealthUnchanged(m, slot, e);
        return;
      }
      var states := MarkAllForRebuild(d.states);
      DepthVerdict(m, t, d, b, states, slot, e);
      t', d' := t.(depth := t.depth[slot := e.health]), DepthSide(d.books, states);
    } else {
      if t.bbo[slot] == e.health {
        HealthUnchanged(m, slot, e);
        return;
      }
      BboVerdict(m, t, d, b, slot, e);
      t', b' := t.(bbo := t.bbo[slot := e.health]), b.(version := b.version + 1);
    }
  }

  lemma {:induction false} RegistrationKeepsQuotes(m: Markets, slot: Slot)
    requires |m.columns| == 8
    ensures SameQuotes(m, Step(m, slot, Registration)) && Step(m, slot, Registration).BboVerdicts() == m.BboVerdicts()
  {
  }

  lemma {:induction false} LatchedByOpening(m: Markets, d: DepthSide, books: Books, states: States, slot: Slot,
      v: VenueId)
    requires m.Ok() && DepthOk(d.books, d.states, m) && ToVenueId(m.NameAt(slot)) == Some(v)
    requires books.Keys == d.books.Keys
    requires forall k :: k in books ==> |d.books[k]| == 8 && books[k] == Opened(k, d.books[k], slot, v)
    requires states.Keys == d.states.Keys && forall k :: k in states ==> states[k].needsRebuild
    ensures DepthOk(books, states, Step(m, slot, Registration))
  {
    forall k | k in books ensures RowIs(k, books[k], Step(m, slot, Registration)) {
      assert EntryOk(k, d.books[k], d.states[k], m);
      RegistrationRow(k, d.books[k], m, slot, v);
    }
    DepthLatched(books, states, Step(m, slot, Registration));
  }

  /** A venue opens: empty books where there were none, and every latch set. */
  lemma {:induction false} VenueOpens(m: Markets, t: Tables, d: DepthSide, b: BboSide, books: Books, states: States,
      slot: Slot, v: VenueId)
    requires m.Ok() && Fits(m, t, d, b) && ToVenueId(m.NameAt(slot)) == Some(v)
    requires books.Keys == d.books.Keys
    requires forall k :: k in books ==> |d.books[k]| == 8 && books[k] == Opened(k, d.books[k], slot, v)
    requires states.Keys == d.states.Keys && forall k :: k in states ==> states[k].needsRebuild
    ensures Step(m, slot, Registration).Ok()
    ensures Fits(Step(m, slot, Registration), t.(active := t.active[slot := Some(v)], slots := t.slots[v := slot]),
            DepthSide(books, states), b)
  {
    hide TablesOk, DepthOk, BboOk, StepColumn, Opened;
    StepOk(m, slot, Registration);
    RegistrationKeepsQuotes(m, slot);
    TablesRegistered(m, t.active, t.slots, t.depth, t.bbo, slot, v);
    LatchedByOpening(m, d, books, states, slot, v);
    BboFrame(m, Step(m, slot, Registration), b.quotes, b.bbos, b.seen, b.version);
  }

  lemma {:induction false} NoVenueNoStep(m: Markets, slot: Slot, msg: Message)
    requires |m.columns| == 8
    requires (msg.Registration? && ToVenueId(m.NameAt(slot)).None?) || (msg.Disconnect? && m.columns[slot].active.None?)
    ensures Step(m, slot, msg) == m
  {
    assert Step(m, slot, msg).columns == m.columns;
  }

  lemma {:induction false} RowsAreFull(m: Markets, d: DepthSide)
    requires DepthOk(d.books, d.states, m)
    ensures forall k :: k in d.books ==> |d.books[k]| == 8
  {
    forall k | k in d.books ensures |d.books[k]| == 8 {
      assert EntryOk(k, d.books[k], d.states[k], m);
    }
  }

  method AfterRegistration(t: Tables, d: DepthSide, b: BboSide, name: string, slot: Slot, ghost m: Markets)
    returns (t': Tables, d': DepthSide)
    requires m.Ok() && Fits(m, t, d, b) && name == m.NameAt(slot)
    ensures Step(m, slot, Registration).Ok() && Fits(Step(m, slot, Registration), t', d', b)
  {
    var v := ToVenueId(name);
    if v.None? {
      NoVenueNoStep(m, slot, Registration);
      return t, d;
    }
    RowsAreFull(m, d);
    var books := OpenBooks(d.books, slot, v.value);
    var states := MarkAllForRebuild(d.states);
    VenueOpens(m, t, d, b, books, states, slot, v.value);
    t' := t.(active := t.active[slot := Some(v.value)], slots := t.slots[v.value := slot]);
    d' := DepthSide(books, states);
  }

  lemma {:induction false} QuotesRemoved(m: Markets, slot: Slot, k: InstrumentKey)
    requires m.Ok() && Step(m, slot, Disconnect).Ok() && k in m.instruments && m.columns[slot].active.Some?
    ensures Step(m, slot, Disconnect).Quotes(k) == m.Quotes(k)[slot := NO_QUOTE]
  {
  }

  /** A venue leaves: its books, quotes and verdicts are gone, every latch is set and the version moves on. */
  lemma {:induction false} VenueLeaves(m: Markets, t: Tables, d: DepthSide, b: BboSide,
                                       books: Books, states: States, quotes: QuoteRows, slot: Slot)
    requires m.Ok() && Fits(m, t, d, b) && t.active[slot].Some?
    requires books.Keys == d.books.Keys
    requires forall k :: k in books ==> |d.books[k]| == 8 && books[k] == d.books[k][slot := None]
    requires states.Keys == d.states.Keys && forall k :: k in states ==> states[k].needsRebuild
    requires quotes.Keys == b.quotes.Keys
    requires forall k :: k in quotes ==> |b.quotes[k]| == 8 && quotes[k] == b.quotes[k][slot := NO_QUOTE]
    ensures Step(m, slot, Disconnect).Ok() && Fits(Step(m, slot, Disconnect),
                 Tables(t.active[slot := None], t.slots - {t.active[slot].value}, t.depth[slot := NoData],
                     t.bbo[slot := NoData]),
                 DepthSide(books, states), BboSide(quotes, b.bbos, b.seen, b.version + 1))
  {
    var m' := Step(m, slot, Disconnect);
    StepOk(m, slot, Disconnect);
    TablesRemoved(m, t.active, t.slots, t.depth, t.bbo, slot);
    forall k | k in books ensures RowIs(k, books[k], m') {
      assert EntryOk(k, d.books[k], d.states[k], m);
      DisconnectRow(k, d.books[k], m, slot);
    }
    DepthLatched(books, states, m');
    forall k | k in m.instruments ensures quotes[k] == m'.Quotes(k) {
      assert BboEntryOk(m, k, b.quotes[k], b.bbos[k], b.seen[k], b.version);
      QuotesRemoved(m, slot, k);
    }
    BboBumped(m, m', b.quotes, quotes, b.bbos, b.seen, b.version);
  }

  lemma {:induction false} QuoteRowsAreFull(m: Markets, b: BboSide)
    requires m.Ok() && BboOk(m, b.quotes, b.bbos, b.seen, b.version)
    ensures forall k :: k in b.quotes ==> |b.quotes[k]| == 8
  {
    forall k | k in b.quotes ensures |b.quotes[k]| == 8 {
      assert BboEntryOk(m, k, b.quotes[k], b.bbos[k], b.seen[k], b.version);
    }
  }

  method AfterRemoval(t: Tables, d: DepthSide, b: BboSide, venueCount: nat, slot: Slot, ghost m: Markets)
    returns (t': Tables, d': DepthSide, b': BboSide)
    requires m.Ok() && Fits(m, t, d, b) && venueCount == |m.names|
    ensures Step(m, slot, Disconnect).Ok() && Fits(Step(m, slot, Disconnect), t', d', b')
  {
    assert ColumnOk(m.columns[slot], m.instruments, m.NameAt(slot));
    if slot >= venueCount || t.active[slot].None? {
      NoVenueNoStep(m, slot, Disconnect);
      return t, d, b;
    }
    RowsAreFull(m, d);
    QuoteRowsAreFull(m, b);
    var books := FreeBooks(d.books, slot);
    var quotes := ClearQuotes(b.quotes, slot);
    var states := MarkAllForRebuild(d.states);
    VenueLeaves(m, t, d, b, books, states, quotes, slot);
    t' := Tables(t.active[slot := None], t.slots - {t.active[slot].value}, t.depth[slot := NoData],
        t.bbo[slot := NoData]);
    d', b' := DepthSide(books, states), BboSide(quotes, b.bbos, b.seen, b.version + 1);
  }

  // ------------------------------------------------------------------- the class --

  /** What came out of a trace's j-th message is the from-scratch publication for the market at that moment. */
  ghost predicate PublishedAt(m: Markets, trace: seq<Event>, j: nat, out: Option<Output>)
    requires m.Ok() && j < |trace|
  {
    Run(m, trace, j + 1).Ok() && Publishes(Run(m, trace, j + 1), trace[j].0, trace[j].1, out)
  }

  ghost predicate Faithful(m: Markets, trace: seq<Event>, outs: seq<Option<Output>>)
    requires m.Ok()
  {
    |outs| == |trace| && forall j :: 0 <= j < |outs| ==> PublishedAt(m, trace, j, outs[j])
  }

  lemma {:induction false} RunPrefix(m: Markets, trace: seq<Event>, e: Event, n: nat)
    requires |m.columns| == 8 && n <= |trace|
    ensures Run(m, trace + [e], n) == Run(m, trace, n)
  {
    if n > 0 {
      RunPrefix(m, trace, e, n - 1);
    }
  }

  lemma {:induction false} FaithfulExtends(m: Markets, trace: seq<Event>, outs: seq<Option<Output>>, e: Event,
      out: Option<Output>)
    requires m.Ok() && Faithful(m, trace, outs) && Step(Run(m, trace, |trace|), e.0, e.1).Ok()
    requires Publishes(Step(Run(m, trace, |trace|), e.0, e.1), e.0, e.1, out)
    ensures Faithful(m, trace + [e], outs + [out])
    ensures Run(m, trace + [e], |trace| + 1) == Step(Run(m, trace, |trace|), e.0, e.1)
  {
    hide Publishes, Step;
    var t, o := trace + [e], outs + [out];
    RunPrefix(m, trace, e, |trace|);
    assert PublishedAt(m, t, |trace|, out);
    forall j | 0 <= j < |o| ensures PublishedAt(m, t, j, o[j]) {
      if j < |outs| {
        assert PublishedAt(m, trace, j, outs[j]);
        RunPrefix(m, trace, e, j + 1);
      }
    }
  }

  function Tagged(slot: Slot, msgs: seq<Message>, n: nat): (r: seq<Event>)
    requires n <= |msgs|
    ensures |r| == n
  {
    if n == 0 then [] else Tagged(slot, msgs, n - 1) + [(slot, msgs[n - 1])]
  }

  /** What eight rings may hold. */
  ghost predicate RingsOk(popped: seq<seq<Message>>) {
    |popped| == 8 && forall i, j :: 0 <= i < 8 && 0 <= j < |popped[i]| ==> MessageOk(popped[i][j])
  }

  /** The order in which a pass takes the messages: slot by slot. */
  function Drained(popped: seq<seq<Message>>, n: nat): seq<Event>
    requires n <= |popped| && n <= 8
  {
    if n == 0 then [] else Drained(popped, n - 1) + Tagged(n - 1, popped[n - 1], |popped[n - 1]|)
  }

  lemma {:induction false} ProjectConcat(a: seq<Event>, b: seq<Event>, slot: Slot, n: nat)
    requires n <= |b|
    ensures Project(a + b, slot, |a| + n) == Project(a, slot, |a|) + Project(b, slot, n)
  {
    if n > 0 {
      ProjectConcat(a, b, slot, n - 1);
    } else {
      ProjectWithin(a, b, slot, |a|);
    }
  }

  lemma {:induction false} ProjectWithin(a: seq<Event>, b: seq<Event>, slot: Slot, n: nat)
    requires n <= |a|
    ensures Project(a + b, slot, n) == Project(a, slot, n)
  {
    if n > 0 {
      ProjectWithin(a, b, slot, n - 1);
    }
  }

  lemma {:induction false} ProjectTagged(slot: Slot, own: Slot, msgs: seq<Message>, n: nat)
    requires n <= |msgs|
    ensures Project(Tagged(own, msgs, n), slot, n) == if slot == own then msgs[..n] else []
  {
    if n > 0 {
      ProjectTagged(slot, own, msgs, n - 1);
      ProjectWithin(Tagged(own, msgs, n - 1), [(own, msgs[n - 1])], slot, n - 1);
    }
  }

  /** A pass hands over exactly each ring's messages, in the ring's order. */
  lemma {:induction false} DrainedIsPerSlot(popped: seq<seq<Message>>, n: nat, slot: Slot)
    requires n <= |popped| && n <= 8
    ensures Project(Drained(popped, n), slot, |Drained(popped, n)|) == if slot < n then popped[slot] else []
  {
    hide Project, Tagged;
    if n == 0 {
      ProjectNone(slot);
    } else {
      var own: Slot := n - 1;
      var msgs, before := popped[own], Drained(popped, n - 1);
      DrainedIsPerSlot(popped, n - 1, slot);
      ProjectConcat(before, Tagged(own, msgs, |msgs|), slot, |msgs|);
      ProjectTagged(slot, own, msgs, |msgs|);
      EmptyEnds(Project(before, slot, |before|), msgs);
    }
  }

  lemma {:induction false} ProjectNone(slot: Slot)
    ensures Project([], slot, 0) == []
  {
  }

  lemma {:induction false} EmptyEnds<T>(a: seq<T>, b: seq<T>)
    ensures a + [] == a && [] + b == b && b[..|b|] == b
  {
  }

  /**
   The slot order of a pass does not matter: any other interleaving of the same
   rings leaves the market a pass leaves.
   */
  lemma {:induction false} PassOrderIrrelevant(m: Markets, popped: seq<seq<Message>>, n: nat, trace: seq<Event>)
    requires |m.columns| == 8 && n <= |popped| && n <= 8
    requires forall slot: Slot :: Project(trace, slot, |trace|) == if slot < n then popped[slot] else []
    ensures Run(m, trace, |trace|) == Run(m, Drained(popped, n), |Drained(popped, n)|)
  {
    var drained := Drained(popped, n);
    forall slot: Slot ensures Project(trace, slot, |trace|) == Project(drained, slot, |drained|) {
      DrainedIsPerSlot(popped, n, slot);
    }
    InterleavingsAgree(m, trace, drained);
  }

  /** The registry only grows, so the state fits the market with the new name as well. */
  lemma {:induction false} NamedFits(m: Markets, names: seq<string>, t: Tables, d: DepthSide, b: BboSide)
    requires m.Ok() && m.names <= names && |names| <= 8 && forall i, j :: 0 <= i < j < |names| ==> names[i] != names[j]
    requires Fits(m, t, d, b)
    ensures m.(names := names).Ok() && Fits(m.(names := names), t, d, b)
  {
    hide TablesOk, DepthOk, BboOk;
    NamedOk(m, names);
    TablesFrame(m, m.(names := names), t.active, t.slots, t.depth, t.bbo);
    DepthFrame(d.books, d.states, m, m.(names := names));
    BboFrame(m, m.(names := names), b.quotes, b.bbos, b.seen, b.version);
  }

  /** A slot has a book of every instrument while a venue is active there and of none otherwise. */
  lemma {:induction false} BooksFollowActivity(m: Markets, t: Tables, d: DepthSide, b: BboSide, k: InstrumentKey,
      slot: Slot)
    requires m.Ok() && Fits(m, t, d, b) && k in d.books
    ensures |d.books[k]| == 8 && (d.books[k][slot].Some? <==> t.active[slot].Some?)
    ensures t.active[slot].Some? ==>
            t.active[slot] == ToVenueId(m.NameAt(slot)) && d.books[k][slot].value.venue == t.active[slot].value
    ensures forall v :: v in t.slots ==> t.active[t.slots[v]] == Some(v)
    ensures t.active[slot].Some? ==> t.active[slot].value in t.slots && t.slots[t.active[slot].value] == slot
  {
    assert EntryOk(k, d.books[k], d.states[k], m);
    assert BookAt(k, d.books[k][slot], m.columns[slot]);
    assert ColumnOk(m.columns[slot], m.instruments, m.NameAt(slot));
  }

  const NO_VENUES: Tables := Tables(Eight(None), map[], Eight(NoData), Eight(NoData))

  /** Every instrument without books, waiting for its first rebuild. */
  function EmptyDepth(instruments: set<InstrumentKey>): DepthSide {
    DepthSide(map k | k in instruments :: Eight(None), map k | k in instruments :: Kept(Book([], []), true))
  }

  function EmptyBbos(instruments: set<InstrumentKey>): BboSide {
    BboSide(map k | k in instruments :: Eight(NO_QUOTE), map k | k in instruments :: NO_BBO, map k | k in instruments ::
        0, 0)
  }

  lemma {:induction false} EmptyFits(instruments: set<InstrumentKey>)
    ensures EmptyMarket(instruments).Ok()
            && Fits(EmptyMarket(instruments), NO_VENUES, EmptyDepth(instruments), EmptyBbos(instruments))
  {
    hide Eight;
    EmptyMarketOk(instruments);
  }

  /** A new market has no venue, no book, no price and nothing live. */
  lemma {:induction false} StartsSilent(instruments: set<InstrumentKey>, slot: Slot)
    ensures var m := EmptyMarket(instruments);
            && m.instruments == instruments && m.names == [] && |m.columns| == 8
            && var c := m.columns[slot];
               && c.active == None && c.books == map[] && c.depth == NoData && c.bbo == NoData
               && c.quotes.Keys == instruments
               && forall k :: k in instruments ==> c.quotes[k].bidPrice == 0 && c.quotes[k].askPrice == 0
  {
  }

  class Core {
    const registry: VenueRegistry
    var tables: Tables
    var depth: DepthSide
    var quotes: BboSide

    /** The market this core stands for. */
    ghost var market: Markets

    ghost predicate Valid()
      reads this, registry
    {
      market.Ok() && registry.Valid() && market.names == registry.names && Fits(market, tables, depth, quotes)
    }

    /** A core with these instruments and no venue: nothing is admitted until a provider says so. */
    constructor (instruments: set<InstrumentKey>)
      ensures Valid() && fresh(registry) && market == EmptyMarket(instruments)
    {
      hide Fits;
      EmptyFits(instruments);
      registry := new VenueRegistry();
      tables, depth, quotes := NO_VENUES, EmptyDepth(instruments), EmptyBbos(instruments);
      market := EmptyMarket(instruments);
    }

    /** A depth update: the book it belongs to takes it, and the consolidated book of its instrument is published. */
    method ProcessUpdate(slot: Slot, update: BookUpdate) returns (out: Option<Output>)
      requires Valid() && WellFormed(update)
      modifies this
      ensures Valid() && market == Step(old(market), slot, Update(update))
      ensures Publishes(market, slot, Update(update), out)
    {
      hide Fits, Publishes;
      depth, out := AfterUpdate(tables, depth, quotes, |registry.names|, slot, update, market);
      market := Step(market, slot, Update(update));
    }

    /** A fast quote: stored, folded in or rescanned, and the BBO of its instrument published. */
    method ProcessQuote(slot: Slot, quote: BboQuote) returns (out: Option<Output>)
      requires Valid()
      modifies this
      ensures Valid() && market == Step(old(market), slot, Quote(quote))
      ensures Publishes(market, slot, Quote(quote), out)
    {
      hide Fits, Publishes;
      quotes, out := AfterQuote(tables, depth, quotes, slot, quote, market);
      market := Step(market, slot, Quote(quote));
    }

    /** A verdict: nothing is published, but nothing stale can be published afterwards either. */
    method ProcessHealth(slot: Slot, event: VenueHealthEvent)
      requires Valid()
      modifies this
      ensures Valid() && market == Step(old(market), slot, Health(event))
    {
      hide Fits;
      tables, depth, quotes := AfterHealth(tables, depth, quotes, slot, event, market);
      market := Step(market, slot, Health(event));
    }

    /** The slot's venue becomes active; a second registration keeps the books it has. */
    method ProcessRegistration(slot: Slot)
      requires Valid()
      modifies this
      ensures Valid() && market == Step(old(market), slot, Registration)
    {
      hide Fits;
      tables, depth := AfterRegistration(tables, depth, quotes, registry.Name(slot), slot, market);
      market := Step(market, slot, Registration);
    }

    /** Deactivates a slot; its name stays registered. */
    method RemoveVenue(slot: Slot)
      requires Valid()
      modifies this
      ensures Valid() && market == Step(old(market), slot, Disconnect)
    {
      hide Fits;
      tables, depth, quotes := AfterRemoval(tables, depth, quotes, |registry.names|, slot, market);
      market := Step(market, slot, Disconnect);
    }

    /** One message, whichever it is. */
    method Process(slot: Slot, msg: Message) returns (out: Option<Output>)
      requires Valid() && MessageOk(msg)
      modifies this
      ensures Valid() && market == Step(old(market), slot, msg)
      ensures Publishes(market, slot, msg, out)
    {
      hide Fits, Contributes, IsBookOf;
      out := None;
      match msg
      case Update(update) => out := ProcessUpdate(slot, update);
      case Quote(quote) => out := ProcessQuote(slot, quote);
      case Health(event) => ProcessHealth(slot, event);
      case Registration => ProcessRegistration(slot);
      case Disconnect => RemoveVenue(slot);
    }

    /** One venue's ring, emptied in order; the pass so far is in trace and outs. */
    method DrainSlot(slot: Slot, msgs: seq<Message>, outs: seq<Option<Output>>, ghost m: Markets,
        ghost trace: seq<Event>)
      returns (outs': seq<Option<Output>>)
      requires Valid() && forall j :: 0 <= j < |msgs| ==> MessageOk(msgs[j])
      requires m.Ok() && Faithful(m, trace, outs) && market == Run(m, trace, |trace|)
      modifies this
      ensures Valid() && market == Run(m, trace + Tagged(slot, msgs, |msgs|), |trace| + |msgs|)
      ensures Faithful(m, trace + Tagged(slot, msgs, |msgs|), outs')
    {
      hide Fits, PublishedAt, Publishes, Step;
      outs' := outs;
      var j := 0;
      assert trace + Tagged(slot, msgs, 0) == trace;
      while j < |msgs|
        invariant 0 <= j <= |msgs| && Valid()
        invariant Faithful(m, trace + Tagged(slot, msgs, j), outs')
        invariant market == Run(m, trace + Tagged(slot, msgs, j), |trace| + j)
      {
        var out := Process(slot, msgs[j]);
        FaithfulExtends(m, trace + Tagged(slot, msgs, j), outs', (slot, msgs[j]), out);
        Assoc(trace, Tagged(slot, msgs, j), [(slot, msgs[j])]);
        outs' := outs' + [out];
        j := j + 1;
      }
    }

    /**
     One pass over the rings: `popped` is what each ring yields before it is found
     empty. Every ring below the high-water mark is drained fully, in slot order,
     and each publication is the from-scratch one for the market at that moment.
     */
    method DrainOnce(popped: seq<seq<Message>>) returns (outs: seq<Option<Output>>)
      requires Valid() && RingsOk(popped)
      modifies this
      ensures Valid() && registry.names == old(registry.names)
      ensures Faithful(old(market), Drained(popped, |registry.names|), outs)
      ensures market == Run(old(market), Drained(popped, |registry.names|), |Drained(popped, |registry.names|)|)
    {
      hide Fits, PublishedAt, Publishes, Step;
      ghost var m := market;
      outs := [];
      var index, count := 0, |registry.names|;
      while index < count
        invariant 0 <= index <= count == |registry.names| && Valid()
        invariant Faithful(m, Drained(popped, index), outs)
        invariant market == Run(m, Drained(popped, index), |Drained(popped, index)|)
      {
        outs := DrainSlot(index, popped[index], outs, m, Drained(popped, index));
        index := index + 1;
      }
    }

    /** Assigns a slot to a known venue name, for good; nothing is active in it until its registration is processed. */
    method RegisterVenueName(name: string) returns (slot: Option<Slot>)
      requires Valid()
      modifies this, registry
      ensures Valid() && market == old(market).(names := registry.names) && old(registry.names) <= registry.names
      ensures slot.Some? ==> slot.value < |registry.names| && registry.names[slot.value] == name
      ensures slot.None? <==> ToVenueId(name).None? || (name !in old(registry.names) && |old(registry.names)| == 8)
      ensures name in old(registry.names) || slot.None? ==> registry.names == old(registry.names)
    {
      hide Fits;
      if ToVenueId(name).None? {
        return None;
      }
      slot := registry.Register(name);
      NamedFits(market, registry.names, tables, depth, quotes);
      market := market.(names := registry.names);
    }

    /** The synchronous entry: a venue without a slot is dropped, everything else is its slot's message. */
    method ApplyUpdate(update: BookUpdate) returns (out: Option<Output>)
      requires Valid() && WellFormed(update)
      modifies this
      ensures Valid()
      ensures update.venue !in old(tables.slots) ==> out == None && market == old(market)
      ensures update.venue in old(tables.slots) ==>
                && market == Step(old(market), old(tables.slots)[update.venue], Update(update))
                && Publishes(market, old(tables.slots)[update.venue], Update(update), out)
    {
      hide Fits, Publishes;
      if update.venue !in tables.slots {
        return None;
      }
      out := ProcessUpdate(tables.slots[update.venue], update);
    }

    method ApplyQuote(quote: BboQuote) returns (out: Option<Output>)
      requires Valid()
      modifies this
      ensures Valid()
      ensures quote.venue !in old(tables.slots) ==> out == None && market == old(market)
      ensures quote.venue in old(tables.slots) ==>
                && market == Step(old(market), old(tables.slots)[quote.venue], Quote(quote))
                && Publishes(market, old(tables.slots)[quote.venue], Quote(quote), out)
    {
      hide Fits, Publishes;
      if quote.venue !in tables.slots {
        return None;
      }
      out := ProcessQuote(tables.slots[quote.venue], quote);
    }

    method OnVenueHealth(event: VenueHealthEvent)
      requires Valid()
      modifies this
      ensures Valid()
      ensures market
              == if event.venue in old(tables.slots) then Step(old(market), old(tables.slots)[event.venue],
                  Health(event)) else old(market)
    {
      hide Fits;
      if event.venue in tables.slots {
        ProcessHealth(tables.slots[event.venue], event);
      }
    }

    /** Name and activation in one go, for a caller that runs before the consolidator does. */
    method RegisterVenue(name: string) returns (slot: Option<Slot>)
      requires Valid()
      modifies this, registry
      ensures Valid() && old(registry.names) <= registry.names
      ensures slot.None? ==> market == old(market)
      ensures slot.Some? ==>
                && slot.value < |registry.names| && registry.names[slot.value] == name
                && market == Step(old(market).(names := registry.names), slot.value, Registration)
                && market.columns[slot.value].active == ToVenueId(name) != None
    {
      hide Fits;
      slot := RegisterVenueName(name);
      if slot.Some? {
        ProcessRegistration(slot.value);
      }
    }
  }
}
