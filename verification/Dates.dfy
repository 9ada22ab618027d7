/** Calendar dates, their canonical printing and the ISO 8601 reader behind the date entry forms. */
module Dates {
  import opened Prelude

  // ----- decimal digits -----

  predicate IsDigit(c: char) { '0' <= c <= '9' }

  function DigitChar(n: nat): (c: char)
    requires n < 10
    ensures IsDigit(c) && DigitValue(c) == n
  {
    ('0' as int + n) as char
  }

  function DigitValue(c: char): nat
    requires IsDigit(c)
  {
    c as int - '0' as int
  }

  predicate AllDigits(s: string) { forall i | 0 <= i < |s| :: IsDigit(s[i]) }

  function Pow10(w: nat): nat { if w == 0 then 1 else 10 * Pow10(w - 1) }

  /** `n` printed with exactly `w` digits, as the %0wd format does for a number that fits. */
  function Pad(n: nat, w: nat): (s: string)
    ensures |s| == w && AllDigits(s)
  {
    if w == 0 then "" else Pad(n / 10, w - 1) + [DigitChar(n % 10)]
  }

  function Number(s: string): nat
    requires AllDigits(s)
  {
    if s == "" then 0 else Number(s[..|s| - 1]) * 10 + DigitValue(s[|s| - 1])
  }

  lemma {:induction false} NumberOfPad(n: nat, w: nat)
    requires n < Pow10(w)
    ensures Number(Pad(n, w)) == n
  {
    if w > 0 {
      NumberOfPad(n / 10, w - 1);
      assert Pad(n, w)[..w - 1] == Pad(n / 10, w - 1);
    }
  }

  lemma {:induction false} PadOfNumber(s: string)
    requires AllDigits(s)
    ensures Number(s) < Pow10(|s|) && Pad(Number(s), |s|) == s
  {
    if s != "" {
      var init := s[..|s| - 1];
      PadOfNumber(init);
      assert s == init + [s[|s| - 1]];
    }
  }

  function LastDigit(n: nat): char { ('0' as int + n % 10) as char }

  /** The digits of a number, most significant first. */
  lemma PadExactly(n: nat)
    ensures Pad(n, 2) == [LastDigit(n / 10), LastDigit(n)]
    ensures Pad(n, 4) == [LastDigit(n / 1000), LastDigit(n / 100), LastDigit(n / 10), LastDigit(n)]
  {
    TwoDigits(n);
    TwoDigits(n / 100);
    assert n / 10 / 10 == n / 100 && n / 100 / 10 == n / 1000;
    assert Pad(n, 4) == Pad(n / 10, 3) + [LastDigit(n)] && Pad(n / 10, 3) == Pad(n / 10 / 10, 2) + [LastDigit(n / 10)];
    hide Pad;
  }

  lemma TwoDigits(n: nat)
    ensures Pad(n, 2) == [LastDigit(n / 10), LastDigit(n)]
  {
    assert Pad(n, 2) == Pad(n / 10, 1) + [LastDigit(n)] && Pad(n / 10, 1) == Pad(n / 10 / 10, 0) + [LastDigit(n / 10)];
  }

  /** The widths the date and time printers use. */
  lemma Widths()
    ensures Pow10(2) == 100 && Pow10(4) == 10_000 && Pow10(6) == 1_000_000
  {
    assert Pow10(2) == 10 * Pow10(1) && Pow10(1) == 10 * Pow10(0);
    assert Pow10(4) == 10 * Pow10(3) && Pow10(3) == 10 * Pow10(2);
    assert Pow10(6) == 10 * Pow10(5) && Pow10(5) == 10 * Pow10(4);
  }

  // ----- Gregorian dates -----

  datatype Date = Date(year: nat, month: nat, day: nat)

  predicate IsLeap(y: nat) { y % 4 == 0 && (y % 100 != 0 || y % 400 == 0) }

  function DaysIn(y: nat, m: nat): nat {
    if m == 2 then (if IsLeap(y) then 29 else 28)
    else if m in {4, 6, 9, 11} then 30 else 31
  }

  predicate ValidDate(d: Date) {
    1 <= d.year <= 9999 && 1 <= d.month <= 12 && 1 <= d.day <= DaysIn(d.year, d.month)
  }

  /** A `datetime.date`: years 1 to 9999 and the day limits of section 5.7 of RFC 3339. */
  type Day = d: Date | ValidDate(d) witness Date(1, 1, 1)

  predicate DateLe(d: Date, e: Date) {
    d.year < e.year || (d.year == e.year && (d.month < e.month || (d.month == e.month && d.day <= e.day)))
  }

  /** The table of section 5.7 of RFC 3339. */
  lemma MonthTable(y: nat, m: nat)
    requires 1 <= m <= 12
    ensures DaysIn(y, m) == [31, 28, 31, 30, 31, 30, 31, 31, 30, 31, 30, 31][m - 1] + (if m == 2 && IsLeap(y) then 1 else 0)
  {
  }

  /** Days are ordered as their numbers yyyymmdd are. */
  lemma DateLeExactly(d: Day, e: Day)
    ensures DateLe(d, e) <==> (d.year * 100 + d.month) * 100 + d.day <= (e.year * 100 + e.month) * 100 + e.day
  {
  }

  /** `date.isoformat()`: full-date of section 5.6 of RFC 3339. */
  function PrintDate(d: Date): (s: string)
    ensures |s| == 10 && s[4] == s[7] == '-'
    ensures s[..4] == Pad(d.year, 4) && s[5..7] == Pad(d.month, 2) && s[8..] == Pad(d.day, 2)
  {
    Pad(d.year, 4) + "-" + Pad(d.month, 2) + "-" + Pad(d.day, 2)
  }

  /** How the compact and week spellings of ISO 8601 read; every result below holds for any reading. */
  type Spellings = string -> Option<Day>

  /** `YYYY-MM-DD` with ASCII digits naming a real day; anything else fails. */
  function ReadExtended(s: string): Option<Day>
  {
    if |s| == 10 && AllDigits(s[..4]) && s[4] == '-' && AllDigits(s[5..7]) && s[7] == '-' && AllDigits(s[8..])
    then
      var d := Date(Number(s[..4]), Number(s[5..7]), Number(s[8..]));
      if ValidDate(d) then Some(d) else None
    else None
  }

  /** `date.fromisoformat`. */
  function FromIso(s: string, other: Spellings): Option<Day> {
    if |s| !in {7, 8, 10} then None
    else if s[4] == '-' && s[5] != 'W' then ReadExtended(s)
    else other(s)
  }

  /** The acceptance test of every date form: readable, and printed back unchanged. */
  function ReadCanonical(s: string, other: Spellings): Option<Day> {
    match FromIso(s, other)
    case Some(d) => if PrintDate(d) == s then Some(d) else None
    case None => None
  }

  lemma ReadPrint(d: Day, other: Spellings)
    ensures ReadExtended(PrintDate(d)) == Some(d) == FromIso(PrintDate(d), other) == ReadCanonical(PrintDate(d), other)
  {
    Widths();
    NumberOfPad(d.year, 4);
    NumberOfPad(d.month, 2);
    NumberOfPad(d.day, 2);
    var s := PrintDate(d);
    assert s[5] == s[5..7][0];
  }

  lemma PrintRead(s: string)
    requires ReadExtended(s).Some?
    ensures PrintDate(ReadExtended(s).value) == s
  {
    PadOfNumber(s[..4]);
    PadOfNumber(s[5..7]);
    PadOfNumber(s[8..]);
    assert s == s[..4] + [s[4]] + s[5..7] + [s[7]] + s[8..];
  }

  /** Whatever the parser allows besides, a form accepts exactly the canonical printings of real dates. */
  lemma CanonicalExactly(s: string, other: Spellings)
    ensures ReadCanonical(s, other).Some? <==> exists d: Day :: PrintDate(d) == s
    ensures forall d: Day | PrintDate(d) == s :: ReadCanonical(s, other) == Some(d)
  {
    forall d: Day | PrintDate(d) == s ensures ReadCanonical(s, other) == Some(d) {
      ReadPrint(d, other);
    }
  }
}
