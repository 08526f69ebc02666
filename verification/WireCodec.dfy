/**
 Messages as bytes (md_wire/wire_codec.cpp over md_wire/wire_format.h). A struct on
 the wire is its fields at fixed offsets, little-endian, padding included.
 */
module WireCodec {
  import opened Types

  type byte = x: int | 0 <= x < 256

  // ------------------------------------------------------------------ fixed fields --

  function Pow256(n: nat): (r: nat)
    ensures r >= 1
  {
    if n == 0 then 1 else 256 * Pow256(n - 1)
  }

  lemma {:induction false} Widths()
    ensures Pow256(1) == 0x100 && Pow256(2) == 0x1_0000 && Pow256(4) == 0x1_0000_0000
    ensures Pow256(8) == 0x1_0000_0000_0000_0000
  {
    assert Pow256(3) == 0x100_0000;
    assert Pow256(5) == 0x100_0000_0000;
    assert Pow256(6) == 0x1_0000_0000_0000;
  }

  /** The n low bytes of x, least significant first. */
  function Le(x: nat, n: nat): (r: seq<byte>)
    ensures |r| == n
  {
    if n == 0 then [] else [x % 256] + Le(x / 256, n - 1)
  }

  /** n bytes of a buffer as a number. */
  function UnLe(buf: seq<byte>, at: nat, n: nat): (r: nat)
    requires at + n <= |buf|
    ensures r < Pow256(n)
    decreases n
  {
    if n == 0 then 0 else buf[at] + 256 * UnLe(buf, at + 1, n - 1)
  }

  ghost predicate Holds(buf: seq<byte>, at: nat, s: seq<byte>) {
    at + |s| <= |buf| && forall i :: 0 <= i < |s| ==> buf[at + i] == s[i]
  }

  lemma {:induction false} HoldsItself(s: seq<byte>)
    ensures Holds(s, 0, s)
  {
  }

  lemma {:induction false} HoldsParts(buf: seq<byte>, at: nat, a: seq<byte>, b: seq<byte>)
    requires Holds(buf, at, a + b)
    ensures Holds(buf, at, a) && Holds(buf, at + |a|, b)
  {
    forall i | 0 <= i < |a| ensures buf[at + i] == a[i] {
      assert (a + b)[i] == a[i];
    }
    forall i | 0 <= i < |b| ensures buf[at + |a| + i] == b[i] {
      assert (a + b)[|a| + i] == b[i];
      assert buf[at + (|a| + i)] == b[i];
    }
  }

  lemma {:induction false} HoldsWithin(buf: seq<byte>, at: nat, s: seq<byte>, k: nat)
    requires Holds(buf, at, s) && at + |s| <= k <= |buf|
    ensures Holds(buf[..k], at, s)
  {
  }

  lemma {:induction false} ReadsBack(buf: seq<byte>, at: nat, x: nat, n: nat)
    requires Holds(buf, at, Le(x, n)) && x < Pow256(n)
    ensures UnLe(buf, at, n) == x
    decreases n
  {
    if n > 0 {
      HoldsParts(buf, at, [x % 256], Le(x / 256, n - 1));
      ReadsBack(buf, at + 1, x / 256, n - 1);
      assert buf[at + 0] == [x % 256][0];
    }
  }

  /** Values laid out one after the other, each in its own width. */
  function Pack(values: seq<nat>, widths: seq<nat>, n: nat): (r: seq<byte>)
    requires n <= |values| == |widths|
    ensures |r| == Offset(widths, n)
  {
    if n == 0 then [] else Pack(values, widths, n - 1) + Le(values[n - 1], widths[n - 1])
  }

  function Offset(widths: seq<nat>, n: nat): nat
    requires n <= |widths|
  {
    if n == 0 then 0 else Offset(widths, n - 1) + widths[n - 1]
  }

  lemma {:induction false} FieldReadsBack(buf: seq<byte>, at: nat, values: seq<nat>, widths: seq<nat>, n: nat, i: nat)
    requires i < n <= |values| == |widths| && Holds(buf, at, Pack(values, widths, n)) && values[i] < Pow256(widths[i])
    ensures at + Offset(widths, i) + widths[i] <= |buf| && UnLe(buf, at + Offset(widths, i), widths[i]) == values[i]
  {
    HoldsParts(buf, at, Pack(values, widths, n - 1), Le(values[n - 1], widths[n - 1]));
    if i == n - 1 {
      ReadsBack(buf, at + Offset(widths, i), values[i], widths[i]);
    } else {
      FieldReadsBack(buf, at, values, widths, n - 1, i);
    }
  }

  function U16At(buf: seq<byte>, at: nat): nat
    requires at + 2 <= |buf|
  {
    UnLe(buf, at, 2)
  }

  function U32At(buf: seq<byte>, at: nat): u32
    requires at + 4 <= |buf|
  {
    Widths();
    UnLe(buf, at, 4)
  }

  function U64At(buf: seq<byte>, at: nat): u64
    requires at + 8 <= |buf|
  {
    Widths();
    UnLe(buf, at, 8)
  }

  /** Two's complement. */
  function Signed(x: u64): i64 {
    if x < 0x8000_0000_0000_0000 then x else x - 0x1_0000_0000_0000_0000
  }

  lemma {:induction false} SignedBack(x: i64)
    ensures Signed(Wrap(x)) == x
  {
  }

  function I64At(buf: seq<byte>, at: nat): i64
    requires at + 8 <= |buf|
  {
    Signed(U64At(buf, at))
  }

  // ------------------------------------------------------------------------ layouts --

  const BOOK_UPDATE: nat := 2
  const BBO_QUOTE: nat := 3
  const HEALTH: nat := 4
  const WIRE_VERSION: nat := 1

  /** Message type and version, in front of everything. */
  function HeaderBytes(kind: nat): (r: seq<byte>)
    ensures |r| == 4
  {
    Le(kind, 2) + Le(WIRE_VERSION, 2)
  }

  /** The widths of WireBookUpdateHeader: offsets 0, (4), 8, 16, 24, 32, 40, 48, 52, 56, (57). */
  const BOOK_WIDTHS: seq<nat> := [4, 4, 8, 8, 8, 8, 8, 4, 4, 1, 7]

  /** WireBboQuotePayload: offsets 0, (4), 8, 16, 24, 32, 40, 48, 56, 64. */
  const BBO_WIDTHS: seq<nat> := [4, 4, 8, 8, 8, 8, 8, 8, 8, 8]

  /** WireHealthPayload: offsets 0, 1, (2), 8. */
  const HEALTH_WIDTHS: seq<nat> := [1, 1, 6, 8]

  lemma {:induction false} BookOffsets()
    ensures Offset(BOOK_WIDTHS, 0) == 0 && Offset(BOOK_WIDTHS, 2) == 8 && Offset(BOOK_WIDTHS, 3) == 16
            && Offset(BOOK_WIDTHS, 4) == 24
    ensures Offset(BOOK_WIDTHS, 5) == 32 && Offset(BOOK_WIDTHS, 6) == 40 && Offset(BOOK_WIDTHS, 7) == 48
            && Offset(BOOK_WIDTHS, 8) == 52
    ensures Offset(BOOK_WIDTHS, 9) == 56 && Offset(BOOK_WIDTHS, 11) == 64
  {
    assert Offset(BOOK_WIDTHS, 1) == 4;
    assert Offset(BOOK_WIDTHS, 3) == 16;
    assert Offset(BOOK_WIDTHS, 5) == 32;
    assert Offset(BOOK_WIDTHS, 7) == 48;
    assert Offset(BOOK_WIDTHS, 9) == 56;
    assert Offset(BOOK_WIDTHS, 10) == 57;
  }

  lemma {:induction false} BboOffsets()
    ensures Offset(BBO_WIDTHS, 0) == 0 && Offset(BBO_WIDTHS, 2) == 8 && Offset(BBO_WIDTHS, 3) == 16
            && Offset(BBO_WIDTHS, 4) == 24
    ensures Offset(BBO_WIDTHS, 5) == 32 && Offset(BBO_WIDTHS, 6) == 40 && Offset(BBO_WIDTHS, 7) == 48
            && Offset(BBO_WIDTHS, 8) == 56
    ensures Offset(BBO_WIDTHS, 9) == 64 && Offset(BBO_WIDTHS, 10) == 72
  {
    assert Offset(BBO_WIDTHS, 1) == 4;
    assert Offset(BBO_WIDTHS, 3) == 16;
    assert Offset(BBO_WIDTHS, 5) == 32;
    assert Offset(BBO_WIDTHS, 7) == 48;
    assert Offset(BBO_WIDTHS, 9) == 64;
  }

  // -------------------------------------------------------------------- book update --

  function LevelBytes(levels: seq<PriceLevel>, n: nat): (r: seq<byte>)
    requires n <= |levels|
    ensures |r| == 16 * n
  {
    if n == 0 then [] else LevelBytes(levels, n - 1) + (Le(levels[n - 1].price, 8) + Le(levels[n - 1].qty, 8))
  }

  function LevelsAt(buf: seq<byte>, at: nat, n: nat): (r: seq<PriceLevel>)
    requires at + 16 * n <= |buf|
    ensures |r| == n
  {
    if n == 0 then []
    else LevelsAt(buf, at, n - 1) + [PriceLevel(U64At(buf, at + 16 * (n - 1)), U64At(buf, at + 16 * (n - 1) + 8))]
  }

  /** Counts go out in 32 bits. */
  function Count(levels: seq<PriceLevel>): u32 {
    |levels| % 0x1_0000_0000
  }

  function BookValues(u: BookUpdate): (r: seq<nat>)
    ensures |r| == 11
  {
    [u.instrument, 0, u.sequence, Wrap(u.prevSeq), Wrap(u.recvTsNs), Wrap(u.exchTsNs), Wrap(u.recvMonoNs),
     Count(u.bids), Count(u.asks), if u.isSnapshot then 1 else 0, 0]
  }

  function EncodeBookUpdate(u: BookUpdate): seq<byte> {
    HeaderBytes(BOOK_UPDATE)
        + (Pack(BookValues(u), BOOK_WIDTHS, 11) + (LevelBytes(u.bids, |u.bids|) + LevelBytes(u.asks, |u.asks|)))
  }

  /** The venue is the connection's, never the message's. Bytes after the last level are not looked at. */
  function DecodeBookUpdate(buf: seq<byte>, venue: VenueId): (r: Option<BookUpdate>)
    ensures r.Some? ==> |r.value.bids| < 0x1_0000_0000 && |r.value.asks| < 0x1_0000_0000
    ensures r.Some? <==>
            |buf| >= 68 && U16At(buf, 0) == BOOK_UPDATE && |buf| >= 68 + 16 * (U32At(buf, 52) + U32At(buf, 56))
  {
    if |buf| < 4 || U16At(buf, 0) != BOOK_UPDATE || |buf| < 68 then None
    else
      var bids, asks := U32At(buf, 52), U32At(buf, 56);
      if bids > 0 && 68 + 16 * bids > |buf| then None
      else if asks > 0 && 68 + 16 * bids + 16 * asks > |buf| then None
      else Some(BookUpdate(venue, U32At(buf, 4), U64At(buf, 12), I64At(buf, 20), I64At(buf, 28), I64At(buf, 36),
          I64At(buf, 44),
                           UnLe(buf, 60, 1) != 0, LevelsAt(buf, 68, bids), LevelsAt(buf, 68 + 16 * bids, asks)))
  }

  lemma {:induction false} LevelReadsBack(buf: seq<byte>, at: nat, l: PriceLevel)
    requires Holds(buf, at, Le(l.price, 8) + Le(l.qty, 8))
    ensures at + 16 <= |buf| && U64At(buf, at) == l.price && U64At(buf, at + 8) == l.qty
  {
    HoldsParts(buf, at, Le(l.price, 8), Le(l.qty, 8));
    Widths();
    ReadsBack(buf, at, l.price, 8);
    ReadsBack(buf, at + 8, l.qty, 8);
  }

  lemma {:induction false} LevelsReadBack(buf: seq<byte>, at: nat, levels: seq<PriceLevel>, n: nat)
    requires n <= |levels| && Holds(buf, at, LevelBytes(levels, n))
    ensures at + 16 * n <= |buf| && LevelsAt(buf, at, n) == levels[..n]
  {
    hide Le, U64At, Pow256;
    if n > 0 {
      var l := levels[n - 1];
      HoldsParts(buf, at, LevelBytes(levels, n - 1), Le(l.price, 8) + Le(l.qty, 8));
      hide Holds;
      LevelReadsBack(buf, at + 16 * (n - 1), l);
      LevelsReadBack(buf, at, levels, n - 1);
    }
  }

  lemma {:induction false} BookValuesFit(u: BookUpdate, i: nat)
    requires i < 11
    ensures BookValues(u)[i] < Pow256(BOOK_WIDTHS[i])
  {
    Widths();
  }

  /** Where the parts of an encoded update stand. */
  lemma {:induction false} BookParts(u: BookUpdate)
    ensures var full := EncodeBookUpdate(u);
            && |full| == 68 + 16 * (|u.bids| + |u.asks|)
            && Holds(full, 0, HeaderBytes(BOOK_UPDATE)) && Holds(full, 4, Pack(BookValues(u), BOOK_WIDTHS, 11))
            && Holds(full, 68, LevelBytes(u.bids, |u.bids|))
            && Holds(full, 68 + 16 * |u.bids|, LevelBytes(u.asks, |u.asks|))
  {
    BookOffsets();
    hide HeaderBytes, Pack, LevelBytes, BookValues, Holds, Offset;
    FourParts(HeaderBytes(BOOK_UPDATE), Pack(BookValues(u), BOOK_WIDTHS, 11), LevelBytes(u.bids, |u.bids|),
        LevelBytes(u.asks, |u.asks|));
  }

  lemma {:induction false} FourParts(a: seq<byte>, b: seq<byte>, c: seq<byte>, e: seq<byte>)
    ensures var full := a + (b + (c + e));
            && |full| == |a| + |b| + |c| + |e| && Holds(full, 0, a) && Holds(full, |a|, b)
            && Holds(full, |a| + |b|, c) && Holds(full, |a| + |b| + |c|, e)
  {
    var rest := b + (c + e);
    HoldsItself(a + rest);
    HoldsParts(a + rest, 0, a, rest);
    ThreeParts(a + rest, |a|, b, c, e);
  }

  lemma {:induction false} ThreeParts(full: seq<byte>, at: nat, b: seq<byte>, c: seq<byte>, e: seq<byte>)
    requires Holds(full, at, b + (c + e))
    ensures Holds(full, at, b) && Holds(full, at + |b|, c) && Holds(full, at + |b| + |c|, e)
  {
    HoldsParts(full, at, b, c + e);
    HoldsParts(full, at + |b|, c, e);
  }

  lemma {:induction false} HeaderReadsBack(buf: seq<byte>, kind: nat)
    requires Holds(buf, 0, HeaderBytes(kind)) && kind < 0x1_0000
    ensures U16At(buf, 0) == kind
  {
    HoldsParts(buf, 0, Le(kind, 2), Le(WIRE_VERSION, 2));
    Widths();
    ReadsBack(buf, 0, kind, 2);
  }

  lemma {:induction false} BookField(u: BookUpdate, buf: seq<byte>, i: nat)
    requires i < 11 && Holds(buf, 4, Pack(BookValues(u), BOOK_WIDTHS, 11))
    ensures 4 + Offset(BOOK_WIDTHS, i) + BOOK_WIDTHS[i] <= |buf|
    ensures UnLe(buf, 4 + Offset(BOOK_WIDTHS, i), BOOK_WIDTHS[i]) == BookValues(u)[i]
  {
    BookValuesFit(u, i);
    FieldReadsBack(buf, 4, BookValues(u), BOOK_WIDTHS, 11, i);
  }

  /** Every scalar of the update, read at its documented offset. */
  lemma {:induction false} BookScalars(u: BookUpdate, buf: seq<byte>)
    requires |buf| >= 68 && Holds(buf, 4, Pack(BookValues(u), BOOK_WIDTHS, 11))
    ensures U32At(buf, 4) == u.instrument && U64At(buf, 12) == u.sequence
    ensures I64At(buf, 20) == u.prevSeq && I64At(buf, 28) == u.recvTsNs && I64At(buf, 36) == u.exchTsNs
            && I64At(buf, 44) == u.recvMonoNs
    ensures U32At(buf, 52) == Count(u.bids) && U32At(buf, 56) == Count(u.asks)
    ensures UnLe(buf, 60, 1) != 0 <==> u.isSnapshot
  {
    hide Pack, UnLe, Wrap, Holds, Offset, Signed, Count;
    BookOffsets();
    BookField(u, buf, 0);
    BookField(u, buf, 2);
    BookField(u, buf, 3);
    BookField(u, buf, 4);
    BookField(u, buf, 5);
    BookField(u, buf, 6);
    BookField(u, buf, 7);
    BookField(u, buf, 8);
    BookField(u, buf, 9);
    SignedBack(u.prevSeq);
    SignedBack(u.recvTsNs);
    SignedBack(u.exchTsNs);
    SignedBack(u.recvMonoNs);
  }

  /** An update comes back whole, under the receiver's venue, exactly when its level counts fit the wire. */
  lemma {:induction false} BookRoundTripIff(u: BookUpdate, venue: VenueId)
    ensures DecodeBookUpdate(EncodeBookUpdate(u), venue) == Some(u.(venue := venue))
            <==> |u.bids| < 0x1_0000_0000 && |u.asks| < 0x1_0000_0000
  {
    if |u.bids| < 0x1_0000_0000 && |u.asks| < 0x1_0000_0000 {
      BookRoundTrip(u, venue);
    }
  }

  lemma {:induction false} BookRoundTrip(u: BookUpdate, venue: VenueId)
    requires |u.bids| < 0x1_0000_0000 && |u.asks| < 0x1_0000_0000
    ensures DecodeBookUpdate(EncodeBookUpdate(u), venue) == Some(u.(venue := venue))
  {
    hide EncodeBookUpdate, HeaderBytes, Pack, LevelBytes, LevelsAt, UnLe, U16At, U32At, U64At, I64At, Holds;
    var full := EncodeBookUpdate(u);
    BookParts(u);
    HeaderReadsBack(full, BOOK_UPDATE);
    BookScalars(u, full);
    LevelsReadBack(full, 68, u.bids, |u.bids|);
    LevelsReadBack(full, 68 + 16 * |u.bids|, u.asks, |u.asks|);
    assert u.bids[..|u.bids|] == u.bids && u.asks[..|u.asks|] == u.asks;
  }

  /** A truncated update is corrupt, never a smaller one. */
  lemma {:induction false} BookPrefixRejected(u: BookUpdate, venue: VenueId, k: nat)
    requires |u.bids| < 0x1_0000_0000 && |u.asks| < 0x1_0000_0000 && k < |EncodeBookUpdate(u)|
    ensures DecodeBookUpdate(EncodeBookUpdate(u)[..k], venue) == None
  {
    hide EncodeBookUpdate, HeaderBytes, Pack, LevelBytes, LevelsAt, UnLe, U16At, U32At, U64At, I64At, Holds;
    BookParts(u);
    if k >= 68 {
      BookOffsets();
      HoldsWithin(EncodeBookUpdate(u), 4, Pack(BookValues(u), BOOK_WIDTHS, 11), k);
      BookScalars(u, EncodeBookUpdate(u)[..k]);
    }
  }

  // ---------------------------------------------------------------------- BBO quote --

  function BboValues(q: BboQuote): (r: seq<nat>)
    ensures |r| == 10
  {
    [q.instrument, 0, q.sequence, Wrap(q.recvTsNs), Wrap(q.exchTsNs), Wrap(q.recvMonoNs), q.bidPrice, q.bidQty,
        q.askPrice, q.askQty]
  }

  function EncodeBboQuote(q: BboQuote): (r: seq<byte>) {
    HeaderBytes(BBO_QUOTE) + Pack(BboValues(q), BBO_WIDTHS, 10)
  }

  function DecodeBboQuote(buf: seq<byte>, venue: VenueId): (r: Option<BboQuote>)
    ensures r.Some? <==> |buf| >= 76 && U16At(buf, 0) == BBO_QUOTE
  {
    if |buf| < 4 || U16At(buf, 0) != BBO_QUOTE || |buf| < 76 then None
    else Some(BboQuote(venue, U32At(buf, 4), U64At(buf, 12), I64At(buf, 20), I64At(buf, 28), I64At(buf, 36),
                       U64At(buf, 44), U64At(buf, 52), U64At(buf, 60), U64At(buf, 68)))
  }

  lemma {:induction false} BboValuesFit(q: BboQuote, i: nat)
    requires i < 10
    ensures BboValues(q)[i] < Pow256(BBO_WIDTHS[i])
  {
    Widths();
  }

  lemma {:induction false} BboParts(q: BboQuote)
    ensures var full := EncodeBboQuote(q);
            && |full| == 76 && Holds(full, 0, HeaderBytes(BBO_QUOTE))
                && Holds(full, 4, Pack(BboValues(q), BBO_WIDTHS, 10))
  {
    hide HeaderBytes, Pack, BboValues, Holds;
    BboOffsets();
    HoldsItself(EncodeBboQuote(q));
    HoldsParts(EncodeBboQuote(q), 0, HeaderBytes(BBO_QUOTE), Pack(BboValues(q), BBO_WIDTHS, 10));
  }

  lemma {:induction false} BboField(q: BboQuote, buf: seq<byte>, i: nat)
    requires i < 10 && Holds(buf, 4, Pack(BboValues(q), BBO_WIDTHS, 10))
    ensures 4 + Offset(BBO_WIDTHS, i) + BBO_WIDTHS[i] <= |buf|
    ensures UnLe(buf, 4 + Offset(BBO_WIDTHS, i), BBO_WIDTHS[i]) == BboValues(q)[i]
  {
    BboValuesFit(q, i);
    FieldReadsBack(buf, 4, BboValues(q), BBO_WIDTHS, 10, i);
  }

  lemma {:induction false} BboScalars(q: BboQuote, buf: seq<byte>)
    requires |buf| >= 76 && Holds(buf, 4, Pack(BboValues(q), BBO_WIDTHS, 10))
    ensures U32At(buf, 4) == q.instrument && U64At(buf, 12) == q.sequence
    ensures I64At(buf, 20) == q.recvTsNs && I64At(buf, 28) == q.exchTsNs && I64At(buf, 36) == q.recvMonoNs
    ensures U64At(buf, 44) == q.bidPrice && U64At(buf, 52) == q.bidQty && U64At(buf, 60) == q.askPrice
            && U64At(buf, 68) == q.askQty
  {
    hide Pack, UnLe, Wrap, Holds, Offset, Signed;
    BboOffsets();
    BboField(q, buf, 0);
    BboField(q, buf, 2);
    BboField(q, buf, 3);
    BboField(q, buf, 4);
    BboField(q, buf, 5);
    BboField(q, buf, 6);
    BboField(q, buf, 7);
    BboField(q, buf, 8);
    BboField(q, buf, 9);
    SignedBack(q.recvTsNs);
    SignedBack(q.exchTsNs);
    SignedBack(q.recvMonoNs);
  }

  lemma {:induction false} BboRoundTrip(q: BboQuote, venue: VenueId, k: nat)
    requires k < |EncodeBboQuote(q)|
    ensures DecodeBboQuote(EncodeBboQuote(q), venue) == Some(q.(venue := venue))
    ensures DecodeBboQuote(EncodeBboQuote(q)[..k], venue) == None
  {
    hide EncodeBboQuote, HeaderBytes, Pack, UnLe, U16At, U32At, U64At, I64At, Holds;
    BboParts(q);
    HeaderReadsBack(EncodeBboQuote(q), BBO_QUOTE);
    BboScalars(q, EncodeBboQuote(q));
  }

  // ------------------------------------------------------------------------- health --

  function StreamCode(s: StreamKind): byte {
    if s.DepthStream? then 0 else 1
  }

  function HealthCode(h: VenueHealth): byte {
    match h
    case NoData => 0
    case Live => 1
    case Disconnected => 2
    case Resyncing => 3
    case Stale => 4
  }

  /** As received: the two codes are cast, not checked. */
  datatype RawHealth = RawHealth(stream: byte, health: byte, decidedMonoNs: i64)

  function Raw(e: VenueHealthEvent): RawHealth {
    RawHealth(StreamCode(e.stream), HealthCode(e.health), e.decidedMonoNs)
  }

  function HealthValues(e: VenueHealthEvent): (r: seq<nat>)
    ensures |r| == 4
  {
    [StreamCode(e.stream), HealthCode(e.health), 0, Wrap(e.decidedMonoNs)]
  }

  function EncodeHealth(e: VenueHealthEvent): seq<byte> {
    HeaderBytes(HEALTH) + Pack(HealthValues(e), HEALTH_WIDTHS, 4)
  }

  function DecodeHealth(buf: seq<byte>): (r: Option<RawHealth>)
    ensures r.Some? <==> |buf| >= 20 && U16At(buf, 0) == HEALTH
  {
    if |buf| < 4 || U16At(buf, 0) != HEALTH || |buf| < 20 then None
    else
      Widths();
      Some(RawHealth(UnLe(buf, 4, 1), UnLe(buf, 5, 1), I64At(buf, 12)))
  }

  lemma {:induction false} HealthOffsets()
    ensures Offset(HEALTH_WIDTHS, 0) == 0 && Offset(HEALTH_WIDTHS, 1) == 1 && Offset(HEALTH_WIDTHS, 3) == 8
            && Offset(HEALTH_WIDTHS, 4) == 16
  {
    assert Offset(HEALTH_WIDTHS, 2) == 2;
  }

  lemma {:induction false} HealthField(e: VenueHealthEvent, i: nat)
    requires i < 4
    ensures |EncodeHealth(e)| == 20 && U16At(EncodeHealth(e), 0) == HEALTH
    ensures 4 + Offset(HEALTH_WIDTHS, i) + HEALTH_WIDTHS[i] <= 20
    ensures UnLe(EncodeHealth(e), 4 + Offset(HEALTH_WIDTHS, i), HEALTH_WIDTHS[i]) == HealthValues(e)[i]
  {
    var full := EncodeHealth(e);
    HealthOffsets();
    Widths();
    HoldsItself(full);
    HoldsParts(full, 0, HeaderBytes(HEALTH), Pack(HealthValues(e), HEALTH_WIDTHS, 4));
    HeaderReadsBack(full, HEALTH);
    FieldReadsBack(full, 4, HealthValues(e), HEALTH_WIDTHS, 4, i);
  }

  lemma {:induction false} HealthRoundTrip(e: VenueHealthEvent, k: nat)
    requires k < |EncodeHealth(e)|
    ensures DecodeHealth(EncodeHealth(e)) == Some(Raw(e))
    ensures DecodeHealth(EncodeHealth(e)[..k]) == None
  {
    hide EncodeHealth, UnLe, U16At, Wrap, Signed, Offset;
    HealthOffsets();
    HealthField(e, 0);
    HealthField(e, 1);
    HealthField(e, 3);
    SignedBack(e.decidedMonoNs);
  }

  /** The codes tell every verdict and every stream apart. */
  lemma {:induction false} RawInjective(e: VenueHealthEvent, f: VenueHealthEvent)
    requires Raw(e) == Raw(f)
    ensures e.(venue := f.venue) == f
  {
  }

  /** No message is taken for one of another kind. */
  lemma {:induction false} NoConfusion(u: BookUpdate, q: BboQuote, e: VenueHealthEvent, venue: VenueId)
    ensures DecodeBboQuote(EncodeBookUpdate(u), venue) == None && DecodeHealth(EncodeBookUpdate(u)) == None
    ensures DecodeBookUpdate(EncodeBboQuote(q), venue) == None && DecodeHealth(EncodeBboQuote(q)) == None
    ensures DecodeBookUpdate(EncodeHealth(e), venue) == None && DecodeBboQuote(EncodeHealth(e), venue) == None
  {
    hide EncodeBookUpdate, EncodeBboQuote, EncodeHealth, HeaderBytes, Pack, LevelBytes, U16At, Holds, DecodeBookUpdate;
    BookParts(u);
    HeaderReadsBack(EncodeBookUpdate(u), BOOK_UPDATE);
    BboParts(q);
    HeaderReadsBack(EncodeBboQuote(q), BBO_QUOTE);
    HealthField(e, 0);
  }

  // ------------------------------------------------------------------ bytes on the wire --

  /** Four bytes of a buffer, least significant first, amount to x. */
  predicate Bytes4(buf: seq<byte>, at: nat, x: nat) {
    at + 4 <= |buf|
    && x == buf[at] as int + 0x100 * buf[at + 1] as int + 0x1_0000 * buf[at + 2] as int
            + 0x100_0000 * buf[at + 3] as int
  }

  /** Eight bytes do, a negative x being taken as its two's complement. */
  predicate Bytes8(buf: seq<byte>, at: nat, x: int) {
    at + 8 <= |buf|
    && (if x < 0 then x + 0x1_0000_0000_0000_0000 else x)
       == buf[at] as int + 0x100 * buf[at + 1] as int + 0x1_0000 * buf[at + 2] as int
          + 0x100_0000 * buf[at + 3] as int + 0x1_0000_0000 * buf[at + 4] as int
          + 0x100_0000_0000 * buf[at + 5] as int + 0x1_0000_0000_0000 * buf[at + 6] as int
          + 0x100_0000_0000_0000 * buf[at + 7] as int
  }

  lemma {:induction false} FourAre(buf: seq<byte>, at: nat)
    requires at + 4 <= |buf|
    ensures Bytes4(buf, at, U32At(buf, at))
  {
    assert UnLe(buf, at + 2, 2) == buf[at + 2] + 256 * UnLe(buf, at + 3, 1);
    assert UnLe(buf, at + 1, 3) == buf[at + 1] + 256 * UnLe(buf, at + 2, 2);
  }

  lemma {:induction false} EightAre(buf: seq<byte>, at: nat)
    requires at + 8 <= |buf|
    ensures Bytes8(buf, at, U64At(buf, at)) && Bytes8(buf, at, I64At(buf, at))
  {
    FourAre(buf, at + 4);
    assert UnLe(buf, at + 3, 5) == buf[at + 3] + 256 * UnLe(buf, at + 4, 4);
    assert UnLe(buf, at + 2, 6) == buf[at + 2] + 256 * UnLe(buf, at + 3, 5);
    assert UnLe(buf, at + 1, 7) == buf[at + 1] + 256 * UnLe(buf, at + 2, 6);
    assert UnLe(buf, at, 8) == buf[at] + 256 * UnLe(buf, at + 1, 7);
  }

  /** The header: message type and version, two bytes each. */
  predicate HeaderIs(buf: seq<byte>, kind: byte) {
    |buf| >= 4 && buf[0] == kind && buf[1] == 0 && buf[2] == 1 && buf[3] == 0
  }

  lemma {:induction false} HeaderOnTheWire(buf: seq<byte>, kind: byte)
    requires Holds(buf, 0, HeaderBytes(kind))
    ensures HeaderIs(buf, kind)
  {
    assert Le(0, 1) == [0] + Le(0, 0);
    assert Le(kind, 2) == [kind] + Le(0, 1) && Le(1, 2) == [1] + Le(0, 1);
    var h := HeaderBytes(kind);
    assert h[0] == kind && h[1] == 0 && h[2] == 1 && h[3] == 0;
    assert buf[0 + 0] == h[0] && buf[0 + 1] == h[1] && buf[0 + 2] == h[2] && buf[0 + 3] == h[3];
  }

  /** A quote is 76 bytes: the header and ten fields, each at its place. */
  lemma {:induction false} QuoteOnTheWire(q: BboQuote)
    ensures var b := EncodeBboQuote(q);
            && |b| == 76 && HeaderIs(b, 3) && Bytes4(b, 4, q.instrument) && Bytes8(b, 12, q.sequence)
            && Bytes8(b, 20, q.recvTsNs) && Bytes8(b, 28, q.exchTsNs) && Bytes8(b, 36, q.recvMonoNs)
            && Bytes8(b, 44, q.bidPrice) && Bytes8(b, 52, q.bidQty) && Bytes8(b, 60, q.askPrice)
            && Bytes8(b, 68, q.askQty)
  {
    var b := EncodeBboQuote(q);
    hide EncodeBboQuote, HeaderBytes, HeaderIs, Pack, BboValues, Holds, U32At, U64At, I64At, Bytes4, Bytes8;
    BboParts(q);
    HeaderOnTheWire(b, 3);
    BboScalars(q, b);
    FourAre(b, 4);
    EightAre(b, 12);
    EightAre(b, 20);
    EightAre(b, 28);
    EightAre(b, 36);
    EightAre(b, 44);
    EightAre(b, 52);
    EightAre(b, 60);
    EightAre(b, 68);
  }

  /** The n-th of a run of levels, 16 bytes each. */
  predicate LevelIs(buf: seq<byte>, at: nat, n: nat, l: PriceLevel) {
    Bytes8(buf, at + 16 * n, l.price) && Bytes8(buf, at + 16 * n + 8, l.qty)
  }

  lemma {:induction false} LevelsOnTheWire(buf: seq<byte>, at: nat, levels: seq<PriceLevel>, n: nat)
    requires n <= |levels| && Holds(buf, at, LevelBytes(levels, n))
    ensures forall i :: 0 <= i < n ==> LevelIs(buf, at, i, levels[i])
  {
    hide Le, U64At, Pow256, Bytes8, I64At;
    if n > 0 {
      var l := levels[n - 1];
      HoldsParts(buf, at, LevelBytes(levels, n - 1), Le(l.price, 8) + Le(l.qty, 8));
      hide Holds;
      LevelReadsBack(buf, at + 16 * (n - 1), l);
      EightAre(buf, at + 16 * (n - 1));
      EightAre(buf, at + 16 * (n - 1) + 8);
      LevelsOnTheWire(buf, at, levels, n - 1);
    }
  }

  /**
   An update is 68 bytes and 16 for every level: the header, the scalars and both
   counts at their places, the snapshot flag as one byte, then the bids and the asks.
   */
  lemma {:induction false} BookOnTheWire(u: BookUpdate)
    ensures var b := EncodeBookUpdate(u);
            && |b| == 68 + 16 * (|u.bids| + |u.asks|) && HeaderIs(b, 2)
            && Bytes4(b, 4, u.instrument) && Bytes8(b, 12, u.sequence) && Bytes8(b, 20, u.prevSeq)
            && Bytes8(b, 28, u.recvTsNs) && Bytes8(b, 36, u.exchTsNs) && Bytes8(b, 44, u.recvMonoNs)
            && Bytes4(b, 52, |u.bids| % 0x1_0000_0000) && Bytes4(b, 56, |u.asks| % 0x1_0000_0000)
            && b[60] == (if u.isSnapshot then 1 else 0)
            && (forall i :: 0 <= i < |u.bids| ==> LevelIs(b, 68, i, u.bids[i]))
            && (forall i :: 0 <= i < |u.asks| ==> LevelIs(b, 68 + 16 * |u.bids|, i, u.asks[i]))
  {
    var b := EncodeBookUpdate(u);
    hide EncodeBookUpdate, HeaderBytes, HeaderIs, Pack, BookValues, Holds, U32At, U64At, I64At, UnLe, LevelBytes;
    hide Bytes4, Bytes8, LevelIs;
    BookParts(u);
    HeaderOnTheWire(b, 2);
    FlagOnTheWire(u, b);
    BookScalars(u, b);
    LevelsOnTheWire(b, 68, u.bids, |u.bids|);
    LevelsOnTheWire(b, 68 + 16 * |u.bids|, u.asks, |u.asks|);
    FourAre(b, 4);
    FourAre(b, 52);
    FourAre(b, 56);
    EightAre(b, 12);
    EightAre(b, 20);
    EightAre(b, 28);
    EightAre(b, 36);
    EightAre(b, 44);
  }

  lemma {:induction false} FlagOnTheWire(u: BookUpdate, buf: seq<byte>)
    requires |buf| >= 68 && Holds(buf, 4, Pack(BookValues(u), BOOK_WIDTHS, 11))
    ensures buf[60] == if u.isSnapshot then 1 else 0
  {
    hide Pack, Wrap, Holds, Offset, Count;
    BookOffsets();
    BookField(u, buf, 9);
  }

  /** A verdict is 20 bytes: the header, one byte each for stream and verdict, and the time. */
  lemma {:induction false} HealthOnTheWire(e: VenueHealthEvent)
    ensures var b := EncodeHealth(e);
            && |b| == 20 && HeaderIs(b, 4) && b[4] == (match e.stream case DepthStream => 0 case BboStream => 1)
            && b[5] == (match e.health
                        case NoData => 0 case Live => 1 case Disconnected => 2 case Resyncing => 3 case Stale => 4)
            && Bytes8(b, 12, e.decidedMonoNs)
  {
    var b := EncodeHealth(e);
    hide EncodeHealth, Pack, Wrap, Signed, Offset, Holds, HeaderBytes, HeaderIs, Bytes8, U64At;
    HealthHeader(e);
    HeaderOnTheWire(b, 4);
    HealthFields(e);
    EightAre(b, 12);
  }

  lemma {:induction false} HealthHeader(e: VenueHealthEvent)
    ensures |EncodeHealth(e)| == 20 && Holds(EncodeHealth(e), 0, HeaderBytes(4))
  {
    hide Pack, HeaderBytes, Holds, HealthValues;
    HealthOffsets();
    HoldsItself(EncodeHealth(e));
    HoldsParts(EncodeHealth(e), 0, HeaderBytes(HEALTH), Pack(HealthValues(e), HEALTH_WIDTHS, 4));
  }

  lemma {:induction false} HealthFields(e: VenueHealthEvent)
    ensures var b := EncodeHealth(e);
            |b| == 20 && b[4] == StreamCode(e.stream) && b[5] == HealthCode(e.health)
            && I64At(b, 12) == e.decidedMonoNs
  {
    hide EncodeHealth, U16At, Wrap, Signed, Offset;
    HealthOffsets();
    HealthField(e, 0);
    HealthField(e, 1);
    HealthField(e, 3);
    SignedBack(e.decidedMonoNs);
  }
}
