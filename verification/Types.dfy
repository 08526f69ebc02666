/** Scalar types, levels and messages shared by the whole model. */
module Types {

  type u64 = x: int | 0 <= x < 0x1_0000_0000_0000_0000

  type u32 = x: int | 0 <= x < 0x1_0000_0000
  type i64 = x: int | -0x8000_0000_0000_0000 <= x < 0x8000_0000_0000_0000

  /** Unsigned 64-bit wrap-around, also for a subtraction that goes below zero. */
  function Wrap(x: int): u64 {
    x % 0x1_0000_0000_0000_0000
  }

  lemma {:induction false} WrapAdd(a: int, b: int)
    ensures Wrap(Wrap(a) + b) == Wrap(a + b)
  {
  }

  datatype Option<+T> = None | Some(value: T)

  /** Bids rank high-price-first, asks low-price-first; nothing else differs. */
  datatype Side = Bid | Ask

  predicate Better(d: Side, a: u64, b: u64) {
    if d.Bid? then a > b else a < b
  }

  /** Capacity of every per-venue array (kMaxVenues). */
  const MAX_VENUES: nat := 8

  type Slot = x: int | 0 <= x < 8

  /** An absolute quantity at a price; a delta level with quantity 0 removes the price. */
  datatype PriceLevel = PriceLevel(price: u64, qty: u64)

  /** What one price did: 0 as an old quantity means absent, 0 as a new one means removed. */
  datatype LevelChange = LevelChange(price: u64, oldQty: u64, newQty: u64)

  datatype VenueId = BINANCE | BYBIT | OKX

  /** A packed instrument key: symbol and market together. */
  type InstrumentKey = u32

  datatype BookUpdate = BookUpdate(
    venue: VenueId,
    instrument: InstrumentKey,
    sequence: u64,
    prevSeq: i64,
    recvTsNs: i64,
    exchTsNs: i64,
    recvMonoNs: i64,
    isSnapshot: bool,
    bids: seq<PriceLevel>,
    asks: seq<PriceLevel>)

  datatype BboQuote = BboQuote(
    venue: VenueId,
    instrument: InstrumentKey,
    sequence: u64,
    recvTsNs: i64,
    exchTsNs: i64,
    recvMonoNs: i64,
    bidPrice: u64,
    bidQty: u64,
    askPrice: u64,
    askQty: u64)

  datatype VenueHealth = NoData | Live | Disconnected | Resyncing | Stale

  predicate IsAdmissible(h: VenueHealth) {
    h.Live?
  }

  datatype StreamKind = DepthStream | BboStream

  datatype VenueHealthEvent = VenueHealthEvent(venue: VenueId, stream: StreamKind, health: VenueHealth,
      decidedMonoNs: i64)

  datatype VenueQuote = VenueQuote(slot: Slot, qty: u64)

  /** What a list of contributors adds up to. */
  function SumOf(venues: seq<VenueQuote>): nat {
    if venues == [] then 0 else SumOf(venues[..|venues| - 1]) + venues[|venues| - 1].qty
  }

  function DropLast<T>(s: seq<T>): seq<T>
    requires |s| > 0
  {
    s[..|s| - 1]
  }

  function Last<T>(s: seq<T>): T
    requires |s| > 0
  {
    s[|s| - 1]
  }

  lemma {:induction false} Assoc<T>(a: seq<T>, b: seq<T>, c: seq<T>)
    ensures a + (b + c) == (a + b) + c
  {
  }
}
