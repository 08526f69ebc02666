/**
 What Core has to compute, without any incremental state: every venue slot is a
 column of its own, and a publication is the from-scratch consolidation of all
 columns after the message was applied.
 */
module Market {
  import opened Types
  import opened LevelMap
  import opened ConsolidatedBook
  import opened ConsolidatedBbo
  import opened ConsolidatedState
  import opened VenueRegistries

  /** Everything one venue's connection hands over, in the order it produced it. */
  datatype Message =
    | Update(update: BookUpdate)
    | Quote(quote: BboQuote)
    | Health(event: VenueHealthEvent)
    | Registration
    | Disconnect

  const NO_QUOTE := BboQuote(BINANCE, 0, 0, 0, 0, 0, 0, 0, 0, 0)

  /** One slot: a book per instrument while a venue is active there, its last quotes, its two verdicts. */
  datatype Column = Column(
    active: Option<VenueId>,
    books: map<InstrumentKey, VenueBook>,
    quotes: map<InstrumentKey, BboQuote>,
    depth: VenueHealth,
    bbo: VenueHealth)

  datatype Markets = Markets(instruments: set<InstrumentKey>, names: seq<string>, columns: seq<Column>) {
    /** Active slots carry their own name's venue and a book for every instrument; inactive ones carry none. */
    ghost predicate Ok() {
      && |columns| == 8 && |names| <= 8
      && (forall i, j :: 0 <= i < j < |names| ==> names[i] != names[j])
      && forall i :: 0 <= i < 8 ==> ColumnOk(columns[i], instruments, NameAt(i))
    }

    function NameAt(i: nat): string {
      if i < |names| then names[i] else ""
    }

    /** What each slot contributes to one side of an instrument's consolidated book. */
    ghost function Views(k: InstrumentKey, d: Side): (r: Views)
      requires |columns| == 8
      ensures |r| == 8
      ensures forall i :: 0 <= i < 8 ==> r[i] == Contributes(columns[i], k, d)
    {
      seq(8, i requires 0 <= i < 8 => Contributes(columns[i], k, d))
    }

    ghost function Quotes(k: InstrumentKey): (r: seq<BboQuote>)
      requires Ok() && k in instruments
      ensures |r| == 8 && forall i :: 0 <= i < 8 ==> r[i] == columns[i].quotes[k]
    {
      assert forall i :: 0 <= i < 8 ==> ColumnOk(columns[i], instruments, NameAt(i));
      seq(8, i requires 0 <= i < 8 => columns[i].quotes[k])
    }

    ghost function BboVerdicts(): (r: seq<VenueHealth>)
      requires |columns| == 8
      ensures |r| == 8 && forall i :: 0 <= i < 8 ==> r[i] == columns[i].bbo
    {
      seq(8, i requires 0 <= i < 8 => columns[i].bbo)
    }
  }

  ghost function Contributes(c: Column, k: InstrumentKey, d: Side): Levels {
    if IsAdmissible(c.depth) && k in c.books then c.books[k].On(d) else map[]
  }

  ghost predicate ColumnOk(c: Column, instruments: set<InstrumentKey>, name: string) {
    && c.quotes.Keys == instruments
    && (c.active.Some? ==> c.active == ToVenueId(name))
    && c.books.Keys == (if c.active.Some? then instruments else {})
    && forall k :: k in c.books ==> c.books[k].Ok()
  }

  ghost predicate MessageOk(msg: Message) {
    msg.Update? ==> WellFormed(msg.update)
  }

  // ------------------------------------------------------------------- steps --

  function Activated(c: Column, instruments: set<InstrumentKey>, v: VenueId): Column {
    c.(active := Some(v), books := map k | k in instruments :: if k in c.books then c.books[k] else EMPTY_BOOK)
  }

  function Removed(instruments: set<InstrumentKey>): Column {
    Column(None, map[], map k | k in instruments :: NO_QUOTE, NoData, NoData)
  }

  /** A message changes nothing but its own slot's column. */
  function StepColumn(c: Column, instruments: set<InstrumentKey>, name: string, msg: Message): Column {
    match msg
    case Update(u) =>
      if u.instrument in c.books then c.(books := c.books[u.instrument := Updated(c.books[u.instrument], u)]) else c
    case Quote(q) =>
      if q.instrument in instruments then c.(quotes := c.quotes[q.instrument := q]) else c
    case Health(e) =>
      if e.stream.DepthStream? then c.(depth := e.health) else c.(bbo := e.health)
    case Registration =>
      var v := ToVenueId(name);
      if v.Some? then Activated(c, instruments, v.value) else c
    case Disconnect =>
      if c.active.Some? then Removed(instruments) else c
  }

  function Step(m: Markets, slot: Slot, msg: Message): Markets
    requires |m.columns| == 8
  {
    m.(columns := m.columns[slot := StepColumn(m.columns[slot], m.instruments, m.NameAt(slot), msg)])
  }

  lemma {:induction false} StepColumnOk(c: Column, instruments: set<InstrumentKey>, name: string, msg: Message)
    requires ColumnOk(c, instruments, name) && MessageOk(msg)
    ensures ColumnOk(StepColumn(c, instruments, name, msg), instruments, name)
  {
    if msg.Update? && msg.update.instrument in c.books {
      UpdatedOk(c.books[msg.update.instrument], msg.update);
    }
  }

  lemma {:induction false} StepOk(m: Markets, slot: Slot, msg: Message)
    requires m.Ok() && MessageOk(msg)
    ensures Step(m, slot, msg).Ok()
  {
    StepColumnOk(m.columns[slot], m.instruments, m.NameAt(slot), msg);
    var m' := Step(m, slot, msg);
    forall i | 0 <= i < 8 ensures ColumnOk(m'.columns[i], m'.instruments, m'.NameAt(i)) {
    }
  }

  // ------------------------------------------------------------ publications --

  datatype Output = BookOut(instrument: InstrumentKey, book: Book) | BboOut(instrument: InstrumentKey, bbo: BBO)

  /** The consolidated book of an instrument, from scratch and unbounded. */
  ghost predicate IsBookOf(m: Markets, k: InstrumentKey, book: Book)
    requires |m.columns| == 8
  {
    IsMerge(Bid, m.Views(k, Bid), book.bids) && IsMerge(Ask, m.Views(k, Ask), book.asks)
  }

  /**
   What must be published after `msg` brought the market to m: a book for an
   update that reached a book, a BBO for a quote on a known instrument.
   */
  ghost predicate Publishes(m: Markets, slot: Slot, msg: Message, out: Option<Output>)
    requires m.Ok()
  {
    match msg
    case Update(u) =>
      if u.instrument in m.columns[slot].books then
        out.Some? && out.value.BookOut? && out.value.instrument == u.instrument
            && IsBookOf(m, u.instrument, out.value.book)
      else out.None?
    case Quote(q) =>
      if q.instrument in m.instruments then
        && out.Some? && out.value.BboOut? && out.value.instrument == q.instrument
        && IsBbo(m.Quotes(q.instrument), m.BboVerdicts(), out.value.bbo)
      else out.None?
    case _ => out.None?
  }

  /** Books are determined exactly; BBOs up to the order of their attribution. */
  lemma {:induction false} PublicationDetermined(m: Markets, slot: Slot, msg: Message, a: Option<Output>,
      b: Option<Output>)
    requires m.Ok() && Publishes(m, slot, msg, a) && Publishes(m, slot, msg, b)
    ensures a.Some? <==> b.Some?
    ensures a.Some? ==> a.value.instrument == b.value.instrument && (a.value.BookOut? <==> b.value.BookOut?)
    ensures a.Some? && a.value.BookOut? ==> a == b
    ensures a.Some? && a.value.BboOut? ==> SameBbo(a.value.bbo, b.value.bbo)
  {
    if msg.Update? && a.Some? {
      var k := msg.update.instrument;
      MergeUnique(Bid, m.Views(k, Bid), a.value.book.bids, b.value.book.bids);
      MergeUnique(Ask, m.Views(k, Ask), a.value.book.asks, b.value.book.asks);
    }
    if msg.Quote? && a.Some? {
      BboUnique(m.Quotes(msg.quote.instrument), m.BboVerdicts(), a.value.bbo, b.value.bbo);
    }
  }

  // --------------------------------------------------------------------- runs --

  type Event = (Slot, Message)

  function Run(m: Markets, trace: seq<Event>, n: nat): (r: Markets)
    requires |m.columns| == 8 && n <= |trace|
    ensures |r.columns| == 8 && r.instruments == m.instruments && r.names == m.names
  {
    if n == 0 then m else Step(Run(m, trace, n - 1), trace[n - 1].0, trace[n - 1].1)
  }

  ghost predicate TraceOk(trace: seq<Event>) {
    forall i :: 0 <= i < |trace| ==> MessageOk(trace[i].1)
  }

  lemma {:induction false} RunOk(m: Markets, trace: seq<Event>, n: nat)
    requires m.Ok() && TraceOk(trace) && n <= |trace|
    ensures Run(m, trace, n).Ok()
  {
    if n > 0 {
      RunOk(m, trace, n - 1);
      StepOk(Run(m, trace, n - 1), trace[n - 1].0, trace[n - 1].1);
    }
  }

  /** One slot's own messages, in order. */
  function Project(trace: seq<Event>, slot: Slot, n: nat): seq<Message>
    requires n <= |trace|
  {
    if n == 0 then []
    else Project(trace, slot, n - 1) + (if trace[n - 1].0 == slot then [trace[n - 1].1] else [])
  }

  function RunColumn(c: Column, instruments: set<InstrumentKey>, name: string, msgs: seq<Message>, n: nat): Column
    requires n <= |msgs|
  {
    if n == 0 then c else StepColumn(RunColumn(c, instruments, name, msgs, n - 1), instruments, name, msgs[n - 1])
  }

  lemma {:induction false} RunColumnPrefix(c: Column, instruments: set<InstrumentKey>, name: string, a: seq<Message>,
      b: seq<Message>, n: nat)
    requires n <= |a| && n <= |b| && forall i :: 0 <= i < n ==> a[i] == b[i]
    ensures RunColumn(c, instruments, name, a, n) == RunColumn(c, instruments, name, b, n)
  {
    if n > 0 {
      RunColumnPrefix(c, instruments, name, a, b, n - 1);
    }
  }

  /** In any interleaving a slot ends where its own messages alone take it. */
  lemma {:induction false} RunIsPerSlot(m: Markets, trace: seq<Event>, slot: Slot, n: nat)
    requires |m.columns| == 8 && n <= |trace|
    ensures var own := Project(trace, slot, n);
            Run(m, trace, n).columns[slot] == RunColumn(m.columns[slot], m.instruments, m.NameAt(slot), own, |own|)
  {
    if n > 0 {
      RunIsPerSlot(m, trace, slot, n - 1);
      var own := Project(trace, slot, n - 1);
      if trace[n - 1].0 == slot {
        RunColumnPrefix(m.columns[slot], m.instruments, m.NameAt(slot), own, own + [trace[n - 1].1], |own|);
      } else {
        assert Project(trace, slot, n) == own;
      }
    }
  }

  /**
   Messages of different slots commute: two interleavings of the same per-slot
   sequences reach the same market, so whatever is published next is the same.
   */
  lemma {:induction false} InterleavingsAgree(m: Markets, a: seq<Event>, b: seq<Event>)
    requires |m.columns| == 8
    requires forall slot: Slot :: Project(a, slot, |a|) == Project(b, slot, |b|)
    ensures Run(m, a, |a|) == Run(m, b, |b|)
  {
    var x, y := Run(m, a, |a|), Run(m, b, |b|);
    forall slot | 0 <= slot < 8 ensures x.columns[slot] == y.columns[slot] {
      RunIsPerSlot(m, a, slot, |a|);
      RunIsPerSlot(m, b, slot, |b|);
      assert Project(a, slot, |a|) == Project(b, slot, |b|);
    }
  }

  // -------------------------------------------------- a removed venue stays out --

  lemma {:induction false} InactiveStays(c: Column, instruments: set<InstrumentKey>, name: string, msgs: seq<Message>,
      n: nat)
    requires n <= |msgs| && c.active.None? && c.books == map[]
    requires forall i :: 0 <= i < n ==> !msgs[i].Registration?
    ensures var r := RunColumn(c, instruments, name, msgs, n); r.active.None? && r.books == map[]
  {
    if n > 0 {
      InactiveStays(c, instruments, name, msgs, n - 1);
    }
  }

  lemma {:induction false} NotAttributed(d: Side, views: Views, side: seq<MergedLevel>, slot: Slot, k: nat)
    requires IsMerge(d, views, side) && slot < |views| && views[slot] == map[] && k < |side|
    ensures forall v :: v in side[k].venues ==> v.slot != slot
  {
    var p := side[k].price;
    Around(views, p, slot, views[slot]);
    assert side[k].venues == Contrib(views, p, |views|);
  }

  /** After a disconnect and until the slot registers again, no book of the market attributes anything to it. */
  lemma {:induction false} RemovedStaysOut(m: Markets, slot: Slot, trace: seq<Event>, inst: InstrumentKey, book: Book)
    requires m.Ok() && m.columns[slot].active.Some?
    requires forall i :: 0 <= i < |trace| ==> !(trace[i].0 == slot && trace[i].1.Registration?)
    requires IsBookOf(Run(Step(m, slot, Disconnect), trace, |trace|), inst, book)
    ensures forall k, v :: 0 <= k < |book.bids| && v in book.bids[k].venues ==> v.slot != slot
    ensures forall k, v :: 0 <= k < |book.asks| && v in book.asks[k].venues ==> v.slot != slot
  {
    var m1 := Step(m, slot, Disconnect);
    var m2 := Run(m1, trace, |trace|);
    var own := Project(trace, slot, |trace|);
    ProjectSkips(trace, slot, |trace|);
    RunIsPerSlot(m1, trace, slot, |trace|);
    InactiveStays(m1.columns[slot], m1.instruments, m1.NameAt(slot), own, |own|);
    forall k | 0 <= k < |book.bids| ensures forall v :: v in book.bids[k].venues ==> v.slot != slot {
      NotAttributed(Bid, m2.Views(inst, Bid), book.bids, slot, k);
    }
    forall k | 0 <= k < |book.asks| ensures forall v :: v in book.asks[k].venues ==> v.slot != slot {
      NotAttributed(Ask, m2.Views(inst, Ask), book.asks, slot, k);
    }
  }

  lemma {:induction false} ProjectSkips(trace: seq<Event>, slot: Slot, n: nat)
    requires n <= |trace| && forall i :: 0 <= i < n ==> !(trace[i].0 == slot && trace[i].1.Registration?)
    ensures forall k :: 0 <= k < |Project(trace, slot, n)| ==> !Project(trace, slot, n)[k].Registration?
  {
    if n > 0 {
      ProjectSkips(trace, slot, n - 1);
    }
  }

  // ------------------------------------------------- and out of the BBO, until admitted --

  /** No quote of a slot that is not admitted is part of the BBO. */
  lemma {:induction false} UnadmittedNotInBbo(m: Markets, slot: Slot, k: InstrumentKey, bbo: BBO)
    requires m.Ok() && k in m.instruments && !IsAdmissible(m.columns[slot].bbo)
    requires IsBbo(m.Quotes(k), m.BboVerdicts(), bbo)
    ensures forall v :: v in bbo.bestBid.venues ==> v.slot != slot
    ensures forall v :: v in bbo.bestAsk.venues ==> v.slot != slot
  {
    assert TopsOf(Bid, m.Quotes(k), m.BboVerdicts())[slot].price == 0;
    assert TopsOf(Ask, m.Quotes(k), m.BboVerdicts())[slot].price == 0;
  }

  predicate AdmitsBbo(msg: Message) {
    msg.Health? && msg.event.stream.BboStream? && IsAdmissible(msg.event.health)
  }

  lemma {:induction false} UnadmittedStays(c: Column, instruments: set<InstrumentKey>, name: string,
      msgs: seq<Message>, n: nat)
    requires n <= |msgs| && !IsAdmissible(c.bbo) && forall i :: 0 <= i < n ==> !AdmitsBbo(msgs[i])
    ensures !IsAdmissible(RunColumn(c, instruments, name, msgs, n).bbo)
  {
    if n > 0 {
      UnadmittedStays(c, instruments, name, msgs, n - 1);
    }
  }

  lemma {:induction false} ProjectAdmits(trace: seq<Event>, slot: Slot, n: nat)
    requires n <= |trace| && forall i :: 0 <= i < n ==> !(trace[i].0 == slot && AdmitsBbo(trace[i].1))
    ensures forall k :: 0 <= k < |Project(trace, slot, n)| ==> !AdmitsBbo(Project(trace, slot, n)[k])
  {
    if n > 0 {
      ProjectAdmits(trace, slot, n - 1);
    }
  }

  /** After a disconnect no BBO attributes anything to the slot until a verdict admits its quotes again. */
  lemma {:induction false} RemovedStaysOutOfBbo(m: Markets, slot: Slot, trace: seq<Event>, k: InstrumentKey)
    requires m.Ok() && m.columns[slot].active.Some? && k in m.instruments && TraceOk(trace)
    requires forall i :: 0 <= i < |trace| ==> !(trace[i].0 == slot && AdmitsBbo(trace[i].1))
    ensures var m2 := Run(Step(m, slot, Disconnect), trace, |trace|);
            m2.Ok() && forall bbo :: IsBbo(m2.Quotes(k), m2.BboVerdicts(), bbo) ==>
              && (forall v :: v in bbo.bestBid.venues ==> v.slot != slot)
              && (forall v :: v in bbo.bestAsk.venues ==> v.slot != slot)
  {
    var m1 := Step(m, slot, Disconnect);
    var own := Project(trace, slot, |trace|);
    StepOk(m, slot, Disconnect);
    RunOk(m1, trace, |trace|);
    ProjectAdmits(trace, slot, |trace|);
    RunIsPerSlot(m1, trace, slot, |trace|);
    UnadmittedStays(m1.columns[slot], m1.instruments, m1.NameAt(slot), own, |own|);
    var m2 := Run(m1, trace, |trace|);
    forall bbo | IsBbo(m2.Quotes(k), m2.BboVerdicts(), bbo)
      ensures forall v :: v in bbo.bestBid.venues ==> v.slot != slot
      ensures forall v :: v in bbo.bestAsk.venues ==> v.slot != slot {
      UnadmittedNotInBbo(m2, slot, k, bbo);
    }
  }

  /** A verdict is all it takes: without registering again, the removed slot's next quote counts in full. */
  lemma {:induction false} RemovedQuotesAgain(m: Markets, slot: Slot, e: VenueHealthEvent, q: BboQuote, d: Side)
    requires m.Ok() && m.columns[slot].active.Some? && q.instrument in m.instruments && AdmitsBbo(Health(e))
    ensures var m2 := Step(Step(Step(m, slot, Disconnect), slot, Health(e)), slot, Quote(q));
            && m2.Ok() && m2.columns[slot].active.None?
            && TopsOf(d, m2.Quotes(q.instrument), m2.BboVerdicts())[slot]
                == PriceLevel(QuotePrice(d, q), QuoteQty(d, q))
  {
    var m1 := Step(m, slot, Disconnect);
    StepOk(m, slot, Disconnect);
    StepOk(m1, slot, Health(e));
    StepOk(Step(m1, slot, Health(e)), slot, Quote(q));
  }
}
