/**
 Scaled decimals: what the providers parse (md_provider/decimal.h) and what the
 client prints (FormatScaled of client/client_common.cpp).
 */
module Decimal {
  import opened Types
  import opened Arithmetic

  function Pow(k: nat): (r: nat)
    ensures r >= 1
  {
    if k == 0 then 1 else 10 * Pow(k - 1)
  }

  // --------------------------------------------------------------------- printing --

  function DigitChar(d: nat): char
    requires d < 10
  {
    ('0' as int + d) as char
  }

  /** An unsigned integer in decimal, without leading zeros. */
  function Print(n: nat): (r: string)
    ensures |r| > 0
  {
    if n < 10 then [DigitChar(n)] else Print(n / 10) + [DigitChar(n % 10)]
  }

  /** The last w digits of n, zero-filled. */
  function Fixed(n: nat, w: nat): (r: string)
    ensures |r| == w
  {
    if w == 0 then "" else Fixed(n / 10, w - 1) + [DigitChar(n % 10)]
  }

  /** Zero-filled to at least w digits. */
  function Padded(n: nat, w: nat): string {
    if w > 0 && n < Pow(w) then Fixed(n, w) else Print(n)
  }

  method Pow10(exponent: u32) returns (r: u64)
    ensures r == Wrap(Pow(exponent))
  {
    r := 1;
    var i := 0;
    while i < exponent
      invariant 0 <= i <= exponent && r == Wrap(Pow(i))
    {
      WrapTen(Pow(i));
      r := Wrap(r * 10);
      i := i + 1;
    }
  }

  lemma {:induction false} WrapTen(x: nat)
    ensures Wrap(Wrap(x) * 10) == Wrap(x * 10)
  {
    var q := x / 0x1_0000_0000_0000_0000;
    ModAdd(Wrap(x) * 10, 10 * q, 0x1_0000_0000_0000_0000);
  }

  function Pow5(k: nat): (r: nat)
    ensures r % 2 == 1
  {
    if k == 0 then 1 else 5 * Pow5(k - 1)
  }

  lemma {:induction false} PowSplits(k: nat)
    ensures Pow(k) == Pow5(k) * Pow2(k)
  {
    if k > 0 {
      PowSplits(k - 1);
      assert (5 * Pow5(k - 1)) * (2 * Pow2(k - 1)) == 10 * (Pow5(k - 1) * Pow2(k - 1));
    }
  }

  lemma {:induction false} OddIsNoMultiple(f: nat, a: nat, b: nat, q: nat)
    requires f % 2 == 1 && a > 0 && b % 2 == 0
    ensures f * a != q * (b * a)
  {
    assert q * (b * a) == (q * b) * a;
    if f * a == (q * b) * a {
      Cancel(f, q * b, a);
      EvenTimes(q, b / 2);
    }
  }

  lemma {:induction false} EvenTimes(q: nat, h: nat)
    ensures (q * (2 * h)) % 2 == 0
  {
    assert q * (2 * h) == 2 * (q * h);
  }

  /** Ten has a single factor two, so it takes 64 of them to wrap to nothing. */
  lemma {:induction false} DivisorPositive(k: nat)
    requires k < 64
    ensures Wrap(Pow(k)) > 0
  {
    assert Pow2(64 - k) % 2 == 0;
    PowSplits(k);
    Pow64();
    Pow2Add(64 - k, k);
    hide Pow, Pow5, Pow2;
    OddIsNoMultiple(Pow5(k), Pow2(k), Pow2(64 - k), Pow(k) / 0x1_0000_0000_0000_0000);
  }

  lemma {:induction false} DivisorVanishes(k: nat)
    requires k >= 64
    ensures Wrap(Pow(k)) == 0
  {
    PowSplits(k);
    Pow64();
    Pow2Add(k - 64, 64);
    hide Pow, Pow5, Pow2;
    WholeWraps(Pow5(k), Pow2(k - 64));
  }

  lemma {:induction false} WholeWraps(f: nat, p: nat)
    ensures Wrap(f * (p * 0x1_0000_0000_0000_0000)) == 0
  {
    assert f * (p * 0x1_0000_0000_0000_0000) == 0x1_0000_0000_0000_0000 * (f * p);
    ModAdd(0, f * p, 0x1_0000_0000_0000_0000);
  }

  /** As printed: the divisors are powers of ten at 64 bits. */
  function Formatted(value: u64, scale: nat, decimals: nat): string
    requires scale < 64
  {
    DivisorPositive(scale);
    var divisor := Wrap(Pow(scale));
    var whole, frac := Quot(value, divisor), Rem(value, divisor);
    if decimals >= scale then Print(whole) + "." + Padded(frac, scale)
    else if decimals == 0 then Print(whole)
    else
      DivisorPositive(scale - decimals);
      Print(whole) + "." + Padded(Quot(frac, Wrap(Pow(scale - decimals))), decimals)
  }

  /** From scale 64 on the divisor is zero (DivisorVanishes) and the program divides by it. */
  method FormatScaled(value: u64, scale: u32, decimals: u32) returns (r: string)
    requires scale < 64
    ensures r == Formatted(value, scale, decimals)
  {
    hide Quot, Rem, Print, Padded, Pow;
    DivisorPositive(scale);
    var divisor := Pow10(scale);
    var whole, frac := Quot(value, divisor), Rem(value, divisor);
    if decimals >= scale {
      return Print(whole) + "." + Padded(frac, scale);
    }
    if decimals == 0 {
      return Print(whole);
    }
    DivisorPositive(scale - decimals);
    var cut := Pow10(scale - decimals);
    r := Print(whole) + "." + Padded(Quot(frac, cut), decimals);
  }

  /** The same with true powers of ten. */
  function Shown(value: u64, scale: nat, decimals: nat): string {
    var whole, frac := Quot(value, Pow(scale)), Rem(value, Pow(scale));
    if decimals >= scale then Print(whole) + "." + Padded(frac, scale)
    else if decimals == 0 then Print(whole)
    else Print(whole) + "." + Padded(Quot(frac, Pow(scale - decimals)), decimals)
  }

  /** Up to 10^19 the powers fit 64 bits. */
  lemma {:induction false} FormattedIsShown(value: u64, scale: nat, decimals: nat)
    requires scale <= 19
    ensures Formatted(value, scale, decimals) == Shown(value, scale, decimals)
  {
    hide Quot, Rem, Print, Padded, Pow;
    PowFits(scale);
    if decimals < scale {
      PowFits(scale - decimals);
    }
  }

  lemma {:induction false} PowGrows(a: nat, b: nat)
    requires a <= b
    ensures Pow(a) <= Pow(b)
    decreases b - a
  {
    if a < b {
      PowGrows(a + 1, b);
    }
  }

  lemma {:induction false} PowFits(k: nat)
    requires k <= 19
    ensures Pow(k) < 0x1_0000_0000_0000_0000 && Wrap(Pow(k)) == Pow(k)
  {
    PowGrows(k, 19);
    PowAdd(9, 10);
    PowAdd(4, 5);
    PowAdd(5, 5);
  }

  lemma {:induction false} PowAdd(a: nat, b: nat)
    ensures Pow(a + b) == Pow(a) * Pow(b)
  {
    if a > 0 {
      PowAdd(a - 1, b);
      assert Pow(a + b) == 10 * Pow(a - 1 + b);
      assert 10 * (Pow(a - 1) * Pow(b)) == (10 * Pow(a - 1)) * Pow(b);
    }
  }

  // ---------------------------------------------------------------------- parsing --

  function DigitOf(c: char): u64 {
    Wrap(c as int - '0' as int)
  }

  /** n characters read as digits onto acc, wrapping at 64 bits. */
  function Read(s: string, from: nat, n: nat, acc: u64): u64
    requires from + n <= |s|
  {
    if n == 0 then acc else Wrap(Read(s, from, n - 1, acc) * 10 + DigitOf(s[from + n - 1]))
  }

  /** The same without a width. */
  function ReadExact(s: string, from: nat, n: nat, acc: nat): nat
    requires from + n <= |s|
  {
    if n == 0 then acc else ReadExact(s, from, n - 1, acc) * 10 + DigitOf(s[from + n - 1])
  }

  function DotFrom(s: string, i: nat): (r: nat)
    requires i <= |s|
    ensures i <= r <= |s| && (r < |s| ==> s[r] == '.')
    ensures forall j :: i <= j < r ==> s[j] != '.'
    decreases |s| - i
  {
    if i == |s| || s[i] == '.' then i else DotFrom(s, i + 1)
  }

  function Parsed(s: string, scale: nat): u64 {
    var dot := DotFrom(s, 0);
    var whole := Read(s, 0, dot, 0);
    if dot == |s| then Wrap(whole * Pow(scale))
    else
      var k := if |s| - dot - 1 < scale then |s| - dot - 1 else scale;
      Wrap(Read(s, dot + 1, k, whole) * Pow(scale - k))
  }

  method ParseScaledDecimal(s: string, scale: nat) returns (value: u64)
    requires scale <= 8
    ensures value == Parsed(s, scale)
  {
    hide Pow, DigitOf, Wrap;
    value := 0;
    var dot := 0;
    while dot < |s| && s[dot] != '.'
      invariant 0 <= dot <= |s| && DotFrom(s, 0) == DotFrom(s, dot)
      invariant value == Read(s, 0, dot, 0)
    {
      value := Wrap(value * 10 + DigitOf(s[dot]));
      dot := dot + 1;
    }
    ghost var whole := value;
    if dot == |s| {
      return Wrap(value * Pow(scale));
    }
    var fractional := |s| - dot - 1;
    var toParse := if fractional < scale then fractional else scale;
    var i := 0;
    while i < toParse
      invariant 0 <= i <= toParse && value == Read(s, dot + 1, i, whole)
    {
      value := Wrap(value * 10 + DigitOf(s[dot + 1 + i]));
      i := i + 1;
    }
    value := Wrap(value * Pow(scale - toParse));
  }

  /** Digits that amount to a 64-bit value are read without ever leaving 64 bits. */
  lemma {:induction false} ReadIsExact(s: string, from: nat, n: nat, acc: u64)
    requires from + n <= |s| && ReadExact(s, from, n, acc) < 0x1_0000_0000_0000_0000
    ensures Read(s, from, n, acc) == ReadExact(s, from, n, acc)
    ensures forall k :: 0 <= k <= n ==> ReadExact(s, from, k, acc) < 0x1_0000_0000_0000_0000
  {
    if n > 0 {
      ReadIsExact(s, from, n - 1, acc);
    }
  }

  ghost predicate Stands(t: string, s: string, from: nat) {
    from + |t| <= |s| && forall i :: 0 <= i < |t| ==> s[from + i] == t[i]
  }

  lemma {:induction false} StandsLess(t: string, c: char, s: string, from: nat)
    requires Stands(t + [c], s, from)
    ensures Stands(t, s, from) && s[from + |t|] == c
  {
    assert (t + [c])[|t|] == c;
    forall i | 0 <= i < |t| ensures s[from + i] == t[i] {
      assert (t + [c])[i] == t[i];
    }
  }

  lemma {:induction false} ReadsPrint(n: nat, s: string, from: nat)
    requires Stands(Print(n), s, from)
    ensures ReadExact(s, from, |Print(n)|, 0) == n
  {
    if n >= 10 {
      StandsLess(Print(n / 10), DigitChar(n % 10), s, from);
      ReadsPrint(n / 10, s, from);
    } else {
      assert s[from + 0] == Print(n)[0] == DigitChar(n);
      assert ReadExact(s, from, 0, 0) == 0;
    }
  }

  lemma {:induction false} TenTimes(a: nat, p: nat)
    ensures (a * p) * 10 == a * (10 * p)
  {
  }

  lemma {:induction false} ReadsFixed(n: nat, w: nat, s: string, from: nat, acc: nat)
    requires Stands(Fixed(n, w), s, from) && n < Pow(w)
    ensures ReadExact(s, from, w, acc) == acc * Pow(w) + n
  {
    if w > 0 {
      StandsLess(Fixed(n / 10, w - 1), DigitChar(n % 10), s, from);
      ReadsFixed(n / 10, w - 1, s, from, acc);
      TenTimes(acc, Pow(w - 1));
    }
  }

  lemma {:induction false} PrintIsDigits(n: nat)
    ensures forall i :: 0 <= i < |Print(n)| ==> Print(n)[i] != '.'
  {
    if n >= 10 {
      PrintIsDigits(n / 10);
    }
  }

  lemma {:induction false} DotIs(s: string, i: nat, at: nat)
    requires i <= at <= |s| && (at < |s| ==> s[at] == '.') && forall j :: i <= j < at ==> s[j] != '.'
    ensures DotFrom(s, i) == at
    decreases at - i
  {
    if i < at {
      DotIs(s, i + 1, at);
    }
  }

  // --------------------------------------------------------------- the round trip --

  /** value split at k digits from the right. */
  lemma {:induction false} Split(value: nat, m: nat)
    requires m > 0
    ensures Quot(value, m) * m + Rem(value, m) == value && Rem(value, m) < m
  {
    Quotient(value, m);
  }

  /** A number printed with w digits after the point reads as the digits without the point. */
  lemma {:induction false} ReadsBoth(whole: nat, frac: nat, w: nat, s: string)
    requires w > 0 && frac < Pow(w) && s == Print(whole) + "." + Fixed(frac, w)
    requires whole * Pow(w) + frac < 0x1_0000_0000_0000_0000
    ensures DotFrom(s, 0) == |Print(whole)| && |s| == |Print(whole)| + 1 + w
    ensures Read(s, 0, |Print(whole)|, 0) == whole < 0x1_0000_0000_0000_0000
    ensures Read(s, |Print(whole)| + 1, w, whole) == whole * Pow(w) + frac
  {
    hide Pow, Print, Fixed, Read, ReadExact, DotFrom;
    var p := |Print(whole)|;
    assert whole <= whole * Pow(w) by {
      Scaled(1, Pow(w), whole);
    }
    PrintIsDigits(whole);
    DotIs(s, 0, p);
    assert Stands(Print(whole), s, 0) && Stands(Fixed(frac, w), s, p + 1);
    ReadsPrint(whole, s, 0);
    ReadIsExact(s, 0, p, 0);
    ReadsFixed(frac, w, s, p + 1, whole);
    ReadIsExact(s, p + 1, w, whole);
  }

  lemma {:induction false} ReadsWhole(whole: u64, s: string)
    requires Stands(Print(whole), s, 0) && (|Print(whole)| < |s| ==> s[|Print(whole)|] == '.')
    ensures DotFrom(s, 0) == |Print(whole)| && Read(s, 0, |Print(whole)|, 0) == whole
  {
    hide Print, Read, ReadExact, DotFrom;
    PrintIsDigits(whole);
    forall j | 0 <= j < |Print(whole)| ensures s[j] != '.' {
      assert s[0 + j] == Print(whole)[j];
    }
    DotIs(s, 0, |Print(whole)|);
    ReadsPrint(whole, s, 0);
    ReadIsExact(s, 0, |Print(whole)|, 0);
  }

  lemma {:induction false} ParsesFixed(whole: nat, frac: nat, w: nat, scale: nat)
    requires 0 < w <= scale && frac < Pow(w) && (whole * Pow(w) + frac) * Pow(scale - w) < 0x1_0000_0000_0000_0000
    ensures Parsed(Print(whole) + "." + Fixed(frac, w), scale) == (whole * Pow(w) + frac) * Pow(scale - w)
  {
    hide Pow, Print, Fixed, Read, DotFrom;
    Scaled(1, Pow(scale - w), whole * Pow(w) + frac);
    ReadsBoth(whole, frac, w, Print(whole) + "." + Fixed(frac, w));
  }

  lemma {:induction false} TripWhole(v: u64, scale: nat)
    requires scale > 0
    ensures Parsed(Shown(v, scale, 0), scale) == v - Rem(v, Pow(scale))
  {
    hide Pow, Print, Read, DotFrom, Quot, Rem;
    var whole := Quot(v, Pow(scale));
    Split(v, Pow(scale));
    Scaled(1, Pow(scale), whole);
    ReadsWhole(whole, Print(whole));
  }

  lemma {:induction false} TripFull(v: u64, scale: nat, decimals: nat)
    requires decimals >= scale > 0
    ensures Parsed(Shown(v, scale, decimals), scale) == v
  {
    hide Print, Fixed, Parsed, Quot, Rem;
    Split(v, Pow(scale));
    ParsesFixed(Quot(v, Pow(scale)), Rem(v, Pow(scale)), scale, scale);
  }

  lemma {:induction false} TripUnscaled(v: u64, decimals: nat)
    ensures Parsed(Shown(v, 0, decimals), 0) == v
  {
    hide Read, DotFrom;
    assert Print(0) == "0";
    hide Print;
    ReadsWhole(v, Print(v) + "." + "0");
    assert Read(Print(v) + "." + "0", |Print(v)| + 1, 0, v) == v by {
      ReadNothing(Print(v) + "." + "0", |Print(v)| + 1, v);
    }
  }

  lemma {:induction false} ReadNothing(s: string, from: nat, acc: u64)
    requires from <= |s|
    ensures Read(s, from, 0, acc) == acc
  {
  }

  /** Cutting the fraction to d digits cuts the whole number to a multiple. */
  lemma {:induction false} Cut(v: nat, scale: nat, d: nat)
    requires d <= scale
    ensures var frac := Quot(Rem(v, Pow(scale)), Pow(scale - d));
            frac < Pow(d) && (Quot(v, Pow(scale)) * Pow(d) + frac) * Pow(scale - d) == v - Rem(v, Pow(scale - d))
  {
    hide Pow, Quot, Rem;
    var a, b := Pow(d), Pow(scale - d);
    PowAdd(scale - d, d);
    var whole, rest := Quot(v, Pow(scale)), Rem(v, Pow(scale));
    Split(v, Pow(scale));
    Split(rest, b);
    RemOfRem(v, b, a);
    var frac := Quot(rest, b);
    Distribute(whole, a, frac, b);
    Smaller(frac, a, b, rest);
  }

  lemma {:induction false} RemOfRem(v: nat, b: nat, a: nat)
    requires b > 0 && a > 0 && b * a > 0
    ensures Rem(Rem(v, b * a), b) == Rem(v, b)
  {
    ModOfMod(v, b, a);
  }

  lemma {:induction false} Distribute(whole: nat, a: nat, frac: nat, b: nat)
    ensures (whole * a + frac) * b == whole * (b * a) + frac * b
  {
    assert (whole * a) * b == whole * (b * a);
  }

  lemma {:induction false} Smaller(frac: nat, a: nat, b: nat, rest: nat)
    requires frac * b <= rest < b * a && b > 0
    ensures frac < a
  {
    if frac >= a {
      Scaled(a, frac, b);
    }
  }

  lemma {:induction false} TripCut(v: u64, scale: nat, decimals: nat)
    requires 0 < decimals < scale
    ensures Parsed(Shown(v, scale, decimals), scale) == v - Rem(v, Pow(scale - decimals))
  {
    hide Print, Fixed, Parsed, Quot, Rem, Pow;
    Cut(v, scale, decimals);
    var frac := Quot(Rem(v, Pow(scale)), Pow(scale - decimals));
    ParsesFixed(Quot(v, Pow(scale)), frac, decimals, scale);
  }

  /**
   Parsing what was printed returns the value rounded down to the printed digits:
   the value itself when all of them are printed.
   */
  lemma {:induction false} RoundTrip(v: u64, scale: nat, decimals: nat)
    requires scale <= 19
    ensures Parsed(Formatted(v, scale, decimals), scale)
            == if decimals >= scale then v else v - Rem(v, Pow(scale - decimals))
  {
    hide Formatted, Shown, Parsed, Pow, Rem;
    FormattedIsShown(v, scale, decimals);
    if scale == 0 {
      TripUnscaled(v, decimals);
    } else if decimals >= scale {
      TripFull(v, scale, decimals);
    } else if decimals == 0 {
      TripWhole(v, scale);
    } else {
      TripCut(v, scale, decimals);
    }
  }

  const PRICE: string := "65.1209"

  /** A price as the program reads and shows it: scale 8 in, two digits out, cut off and not rounded. */
  method PriceRun() returns (value: u64, cut: string, whole: string)
    ensures value == 6_512_090_000 && cut == "65.12" && whole == "65"
  {
    PriceParses();
    PriceShows();
    hide Parsed, Formatted;
    value := ParseScaledDecimal(PRICE, 8);
    cut := FormatScaled(value, 8, 2);
    whole := FormatScaled(value, 8, 0);
  }

  lemma {:induction false} PriceParses()
    ensures Parsed(PRICE, 8) == 6_512_090_000
  {
    Powers();
    assert DotFrom(PRICE, 0) == DotFrom(PRICE, 1) == DotFrom(PRICE, 2) == 2;
    hide Pow;
    assert Read(PRICE, 0, 1, 0) == 6;
    assert Read(PRICE, 0, 2, 0) == 65;
    assert Read(PRICE, 3, 1, 65) == 651;
    assert Read(PRICE, 3, 2, 65) == 6512;
    assert Read(PRICE, 3, 3, 65) == 65120;
    assert Read(PRICE, 3, 4, 65) == 651209;
  }

  lemma {:induction false} PriceShows()
    ensures Formatted(6_512_090_000, 8, 2) == "65.12" && Formatted(6_512_090_000, 8, 0) == "65"
  {
    Powers();
    hide Pow, Print, Padded;
    assert Print(65) == "65" by {
      TwoDigits(65);
    }
    assert Padded(12, 2) == "12" by {
      TwoDigits(12);
    }
  }

  lemma {:induction false} TwoDigits(n: nat)
    requires 10 <= n < 100
    ensures Print(n) == Padded(n, 2) == [('0' as int + n / 10) as char, ('0' as int + n % 10) as char]
  {
    assert Pow(2) == 100;
    assert Print(n) == Print(n / 10) + [DigitChar(n % 10)];
    assert Fixed(n, 2) == Fixed(n / 10, 1) + [DigitChar(n % 10)];
    assert Fixed(n / 10, 1) == Fixed(n / 10 / 10, 0) + [DigitChar(n / 10 % 10)];
  }

  lemma {:induction false} Powers()
    ensures Pow(2) == 100 && Pow(4) == 10_000 && Pow(6) == 1_000_000 && Pow(8) == 100_000_000
  {
    assert Pow(3) == 1000;
    assert Pow(5) == 100_000;
    assert Pow(7) == 10_000_000;
  }
}
