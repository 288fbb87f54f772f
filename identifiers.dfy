// Generated record numbers: a three-letter prefix, the creation date as
// `strftime('%Y%m%d')`, and a slice of `str(uuid.uuid4())` in upper case.
// Order numbers use 8 uuid characters, invoice and ticket numbers 6. The
// clock and the random uuid are inputs of the model.

module Identifiers {
  import opened Text

  /** A calendar date as `datetime` holds it (year 1..9999). */
  datatype Date = Date(year: int, month: int, day: int)

  predicate ValidDate(d: Date) {
    1 <= d.year <= 9999 && 1 <= d.month <= 12 && 1 <= d.day <= 31
  }

  type Nibble = n: int | 0 <= n < 16

  /** The 128 bits of a uuid4 as 32 hexadecimal digits, most significant first. */
  type Uuid = s: seq<Nibble> | |s| == 32 witness seq(32, _ => 0)

  function Pow10(n: nat): (p: nat)
    ensures p >= 1
  {
    if n == 0 then 1 else 10 * Pow10(n - 1)
  }

  function DigitChar(n: nat): (c: char)
    requires n < 10
    ensures IsDigit(c)
  {
    "0123456789"[n]
  }

  function DigitValue(c: char): (n: nat)
    requires IsDigit(c)
    ensures n < 10
  {
    c as int - '0' as int
  }

  /** `n` written in decimal with exactly `width` digits, zero-padded on the left. */
  function Digits(n: nat, width: nat): (s: string)
    requires n < Pow10(width)
    ensures |s| == width && AllDigits(s)
  {
    if width == 0 then [] else Digits(n / 10, width - 1) + [DigitChar(n % 10)]
  }

  /** The value of a string of decimal digits. */
  function Value(s: string): nat
    requires AllDigits(s)
  {
    if s == [] then 0 else 10 * Value(s[..|s| - 1]) + DigitValue(s[|s| - 1])
  }

  lemma DigitRoundTrip(n: nat)
    requires n < 10
    ensures DigitValue(DigitChar(n)) == n
  {
  }

  lemma {:induction false} ValueOfDigits(n: nat, width: nat)
    requires n < Pow10(width)
    ensures Value(Digits(n, width)) == n
  {
    if width > 0 {
      var q, m := n / 10, n % 10;
      assert n == 10 * q + m;
      ValueOfDigits(q, width - 1);
      DigitRoundTrip(m);
      var s := Digits(n, width);
      assert s == Digits(q, width - 1) + [DigitChar(m)];
      assert s[..|s| - 1] == Digits(q, width - 1);
      assert s[|s| - 1] == DigitChar(m);
      assert Value(s) == 10 * Value(Digits(q, width - 1)) + DigitValue(DigitChar(m));
    }
  }

  /** `strftime('%Y%m%d')`. */
  function Yyyymmdd(d: Date): (s: string)
    requires ValidDate(d)
    ensures |s| == 8 && AllDigits(s)
  {
    Digits(d.year, 4) + Digits(d.month, 2) + Digits(d.day, 2)
  }

  /** Reads a date back from its eight digits. */
  function ParseYyyymmdd(s: string): Date
    requires |s| == 8 && AllDigits(s)
  {
    Date(Value(s[..4]), Value(s[4..6]), Value(s[6..]))
  }

  lemma DateRoundTrip(d: Date)
    requires ValidDate(d)
    ensures ParseYyyymmdd(Yyyymmdd(d)) == d
  {
    var s := Yyyymmdd(d);
    assert s[..4] == Digits(d.year, 4);
    assert s[4..6] == Digits(d.month, 2);
    assert s[6..] == Digits(d.day, 2);
    ValueOfDigits(d.year, 4);
    ValueOfDigits(d.month, 2);
    ValueOfDigits(d.day, 2);
  }

  function HexLower(n: Nibble): char { "0123456789abcdef"[n] }

  function HexUpper(n: Nibble): char { "0123456789ABCDEF"[n] }

  predicate IsUpperHex(c: char) { '0' <= c <= '9' || 'A' <= c <= 'F' }

  function Hex(s: seq<Nibble>): (r: string)
    ensures |r| == |s|
    ensures forall i :: 0 <= i < |s| ==> r[i] == HexLower(s[i])
  {
    if s == [] then [] else [HexLower(s[0])] + Hex(s[1..])
  }

  /** `str(u)`: lower-case hexadecimal in groups 8-4-4-4-12 joined by hyphens. */
  function UuidText(u: Uuid): (r: string)
    ensures |r| == 36
  {
    Hex(u[..8]) + "-" + Hex(u[8..12]) + "-" + Hex(u[12..16]) + "-" + Hex(u[16..20]) + "-" + Hex(u[20..])
  }

  lemma UuidTextStart(u: Uuid, i: nat)
    requires i < 8
    ensures UuidText(u)[i] == HexLower(u[i])
  {
    assert UuidText(u)[i] == Hex(u[..8])[i];
  }

  lemma UpperOfHexLower(n: Nibble)
    ensures UpperChar(HexLower(n)) == HexUpper(n)
  {
    if n < 10 {
    } else {
    }
  }

  /** `str(u)[:k].upper()`: the first `k` uuid digits in upper-case hexadecimal. */
  function UuidSlice(u: Uuid, k: nat): (r: string)
    requires k <= 8
    ensures |r| == k
    ensures forall i :: 0 <= i < k ==> r[i] == HexUpper(u[i]) && IsUpperHex(r[i])
  {
    var r := Upper(UuidText(u)[..k]);
    forall i | 0 <= i < k ensures r[i] == HexUpper(u[i]) && IsUpperHex(r[i]) {
      UuidTextStart(u, i);
      UpperOfHexLower(u[i]);
    }
    r
  }

  /**
   * `prefix + now.strftime('%Y%m%d') + str(uuid.uuid4())[:k].upper()`:
   * the prefix, the eight date digits (which read back as the date), and
   * the first `k` hexadecimal digits of the uuid in upper case.
   */
  function StampedNumber(prefix: string, now: Date, u: Uuid, k: nat): (r: string)
    requires ValidDate(now) && k <= 8
    ensures |r| == |prefix| + 8 + k
    ensures r[..|prefix|] == prefix
    ensures AllDigits(r[|prefix|..|prefix| + 8])
    ensures ParseYyyymmdd(r[|prefix|..|prefix| + 8]) == now
    ensures forall i :: 0 <= i < k ==> r[|prefix| + 8 + i] == HexUpper(u[i])
    ensures forall i :: |prefix| + 8 <= i < |r| ==> IsUpperHex(r[i])
  {
    var date, suffix := Yyyymmdd(now), UuidSlice(u, k);
    var r := prefix + date + suffix;
    assert r[|prefix|..|prefix| + 8] == date;
    assert r[|prefix| + 8..] == suffix;
    DateRoundTrip(now);
    r
  }

  /** `Order.generate_order_number`: "ORG", the date, 8 uuid characters. */
  function OrderNumber(now: Date, u: Uuid): (r: string)
    requires ValidDate(now)
    ensures |r| == 19 && |r| <= 20
    ensures r[..3] == "ORG"
  {
    StampedNumber("ORG", now, u, 8)
  }

  /** `Invoice.generate_invoice_number`: "INV", the date, 6 uuid characters. */
  function InvoiceNumber(now: Date, u: Uuid): (r: string)
    requires ValidDate(now)
    ensures |r| == 17 && |r| <= 20
    ensures r[..3] == "INV"
  {
    StampedNumber("INV", now, u, 6)
  }

  /** `CustomerSupportTicket.generate_ticket_number`: "TKT", the date, 6 uuid characters. */
  function TicketNumber(now: Date, u: Uuid): (r: string)
    requires ValidDate(now)
    ensures |r| == 17 && |r| <= 20
    ensures r[..3] == "TKT"
  {
    StampedNumber("TKT", now, u, 6)
  }

  /**
   * Two generated numbers with the same prefix and width are equal only
   * when they were stamped on the same date with uuids agreeing on their
   * first `k` digits; nothing more is guaranteed about uniqueness.
   */
  lemma StampedNumberDetermines(prefix: string, d1: Date, u1: Uuid, d2: Date, u2: Uuid, k: nat)
    requires ValidDate(d1) && ValidDate(d2) && k <= 8
    requires StampedNumber(prefix, d1, u1, k) == StampedNumber(prefix, d2, u2, k)
    ensures d1 == d2
    ensures u1[..k] == u2[..k]
  {
    var r := StampedNumber(prefix, d1, u1, k);
    forall i | 0 <= i < k ensures u1[i] == u2[i] {
      assert HexUpper(u1[i]) == r[|prefix| + 8 + i] == HexUpper(u2[i]);
      HexUpperInjective(u1[i], u2[i]);
    }
  }

  lemma HexUpperInjective(a: Nibble, b: Nibble)
    requires HexUpper(a) == HexUpper(b)
    ensures a == b
  {
  }
}
