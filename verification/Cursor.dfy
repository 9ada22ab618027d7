/** The pagination cursor: identifier, colon, timestamp, through UTF-8 and URL-safe base64. */
module Cursor {
  import opened Prelude
  import opened Dates
  import Utf8
  import Base64Url

  // ----- timestamps -----

  const MICROS_PER_SECOND := 1_000_000
  const MICROS_PER_DAY := 86_400_000_000

  /** A `datetime`; `offset` is the UTC offset in microseconds of an aware one. */
  datatype Moment = Moment(date: Day, hour: nat, minute: nat, second: nat, micro: nat, offset: Option<int>)

  predicate ValidMoment(m: Moment) {
    && m.hour < 24 && m.minute < 60 && m.second < 60 && m.micro < MICROS_PER_SECOND
    && (m.offset.Some? ==> -MICROS_PER_DAY < m.offset.value < MICROS_PER_DAY)
  }

  type Stamp = m: Moment | ValidMoment(m) witness Moment(Date(1, 1, 1), 0, 0, 0, 0, None)

  /** The microseconds, printed only when there are any. */
  function PrintMicros(n: nat): string { if n == 0 then "" else "." + Pad(n, 6) }

  /** Hours, minutes, and seconds only when there are any or microseconds follow. */
  function PrintHms(h: nat, m: nat, sec: nat, micros: nat): string {
    Pad(h, 2) + ":" + Pad(m, 2) + if sec == 0 && micros == 0 then "" else ":" + Pad(sec, 2) + PrintMicros(micros)
  }

  function PrintSpan(n: nat): string
    requires n < MICROS_PER_DAY
  {
    var seconds := n / MICROS_PER_SECOND;
    PrintHms(seconds / 3600, seconds / 60 % 60, seconds % 60, n % MICROS_PER_SECOND)
  }

  function Micros(h: nat, m: nat, sec: nat, micros: nat): nat {
    ((h * 60 + m) * 60 + sec) * MICROS_PER_SECOND + micros
  }

  function PrintOffset(offset: Option<int>): string
    requires offset.Some? ==> -MICROS_PER_DAY < offset.value < MICROS_PER_DAY
  {
    match offset
    case None => ""
    case Some(n) => if n < 0 then "-" + PrintSpan(-n) else "+" + PrintSpan(n)
  }

  /** `datetime.isoformat()`. */
  function Print(t: Stamp): string {
    PrintDate(t.date) + "T" + Pad(t.hour, 2) + ":" + Pad(t.minute, 2) + ":" + Pad(t.second, 2)
    + PrintMicros(t.micro) + PrintOffset(t.offset)
  }

  function ReadNumber(s: string, at: nat, w: nat): Option<nat> {
    if at + w <= |s| && AllDigits(s[at..at + w]) then Some(Number(s[at..at + w])) else None
  }

  predicate CharAt(s: string, at: nat, c: char) { at < |s| && s[at] == c }

  /** Microseconds if a dot comes next, and what follows. */
  function ReadMicros(s: string): Option<(nat, string)> {
    if !CharAt(s, 0, '.') then Some((0, s))
    else
      match ReadNumber(s, 1, 6)
      case None => None
      case Some(n) => Some((n, s[7..]))
  }

  /** `hh:mm`, `hh:mm:ss` or `hh:mm:ss.ffffff`, in microseconds. */
  function ReadSpan(s: string): Option<nat> {
    match (ReadNumber(s, 0, 2), CharAt(s, 2, ':'), ReadNumber(s, 3, 2))
    case (Some(h), true, Some(m)) =>
      if h >= 24 || m >= 60 then None
      else if |s| == 5 then Some(Micros(h, m, 0, 0))
      else
        (match (CharAt(s, 5, ':'), ReadNumber(s, 6, 2))
         case (true, Some(sec)) =>
           (match ReadMicros(s[8..])
            case Some((us, rest)) =>
              if sec < 60 && rest == "" then Some(Micros(h, m, sec, us)) else None
            case None => None)
         case _ => None)
    case _ => None
  }

  function Signed(sign: char, n: int): int { if sign == '-' then -n else n }

  function ReadOffset(s: string): Option<Option<int>> {
    if s == "" then Some(None)
    else if s[0] == '+' || s[0] == '-' then
      match ReadSpan(s[1..])
      case Some(n) => Some(Some(Signed(s[0], n)))
      case None => None
    else None
  }

  /** The extended spelling that `isoformat` prints. */
  function ReadPrinted(s: string): Option<Moment> {
    if |s| < 19 || s[10] != 'T' || s[13] != ':' || s[16] != ':' then None
    else
      match (ReadExtended(s[..10]), ReadNumber(s, 11, 2), ReadNumber(s, 14, 2), ReadNumber(s, 17, 2), ReadMicros(s[19..]))
      case (Some(date), Some(hour), Some(minute), Some(second), Some((micro, rest))) =>
        (match ReadOffset(rest)
         case Some(offset) => Some(Moment(date, hour, minute, second, micro, offset))
         case None => None)
      case _ => None
  }

  /** How the other spellings of ISO 8601 read; every result below holds for any reading. */
  type Spellings = string -> Option<Stamp>

  /** `datetime.fromisoformat`. */
  function FromIso(s: string, other: Spellings): Option<Stamp> {
    match ReadPrinted(s)
    case Some(m) => if ValidMoment(m) then Some(m) else other(s)
    case None => other(s)
  }

  // ----- the cursor -----

  function IndexOf(s: string, c: char): (r: nat)
    ensures r <= |s| && (r < |s| ==> s[r] == c) && c !in s[..r]
  {
    if s == "" || s[0] == c then 0
    else
      var r := IndexOf(s[1..], c);
      assert s[..r + 1] == [s[0]] + s[1..][..r];
      r + 1
  }

  function Encode(t: Stamp, id: string): string { Base64Url.Encode(Utf8.Encode(id + ":" + Print(t))) }

  /** Any failure on the way is None; without a colon the legacy order is tried. */
  function Decode(cursor: string, other: Spellings): Option<(Stamp, string)> {
    match Base64Url.Decode(cursor)
    case None => None
    case Some(bytes) =>
      match Utf8.Decode(bytes)
      case None => None
      case Some(raw) => DecodeRaw(raw, other)
  }

  function DecodeRaw(raw: string, other: Spellings): Option<(Stamp, string)> {
    var colon, bar := IndexOf(raw, ':'), IndexOf(raw, '|');
    if colon < |raw| then Paired(FromIso(raw[colon + 1..], other), raw[..colon])
    else if bar < |raw| then Paired(FromIso(raw[..bar], other), raw[bar + 1..])
    else None
  }

  function Paired(t: Option<Stamp>, id: string): Option<(Stamp, string)> {
    match t
    case Some(stamp) => Some((stamp, id))
    case None => None
  }

  // ----- printing and reading -----

  lemma NumberAt(s: string, at: nat, w: nat, n: nat)
    requires at + w <= |s| && s[at..at + w] == Pad(n, w) && n < Pow10(w)
    ensures ReadNumber(s, at, w) == Some(n)
  {
    NumberOfPad(n, w);
  }

  lemma MicrosRead(n: nat, rest: string)
    requires n < MICROS_PER_SECOND && !CharAt(rest, 0, '.')
    ensures ReadMicros(PrintMicros(n) + rest) == Some((n, rest))
  {
    Widths();
    var s := PrintMicros(n) + rest;
    if n > 0 {
      assert s[1..7] == Pad(n, 6) && s[7..] == rest;
      NumberAt(s, 1, 6, n);
    } else {
      assert s == rest;
    }
  }

  lemma HmsRead(h: nat, m: nat, sec: nat, micros: nat)
    requires h < 24 && m < 60 && sec < 60 && micros < MICROS_PER_SECOND
    ensures ReadSpan(PrintHms(h, m, sec, micros)) == Some(Micros(h, m, sec, micros))
  {
    Widths();
    hide Micros, Pad, Number, AllDigits, Pow10;
    var s := PrintHms(h, m, sec, micros);
    assert s[0..2] == Pad(h, 2) && s[2] == ':' && s[3..5] == Pad(m, 2);
    NumberAt(s, 0, 2, h);
    NumberAt(s, 3, 2, m);
    hide ReadNumber;
    if sec == 0 && micros == 0 {
      assert |s| == 5;
    } else {
      assert s[5] == ':' && s[6..8] == Pad(sec, 2) && s[8..] == PrintMicros(micros) + "";
      NumberAt(s, 6, 2, sec);
      MicrosRead(micros, "");
    }
  }

  lemma SpanParts(n: nat)
    requires n < MICROS_PER_DAY
    ensures var seconds := n / MICROS_PER_SECOND;
            && Micros(seconds / 3600, seconds / 60 % 60, seconds % 60, n % MICROS_PER_SECOND) == n && seconds / 3600 < 24
  {
    var seconds := n / MICROS_PER_SECOND;
    assert seconds < 86_400;
    assert seconds / 60 == seconds / 3600 * 60 + seconds / 60 % 60;
    assert seconds == seconds / 60 * 60 + seconds % 60;
  }

  lemma SpanRead(n: nat)
    requires n < MICROS_PER_DAY
    ensures ReadSpan(PrintSpan(n)) == Some(n)
  {
    SpanParts(n);
    var seconds := n / MICROS_PER_SECOND;
    HmsRead(seconds / 3600, seconds / 60 % 60, seconds % 60, n % MICROS_PER_SECOND);
  }

  lemma OffsetRead(offset: Option<int>)
    requires offset.Some? ==> -MICROS_PER_DAY < offset.value < MICROS_PER_DAY
    ensures ReadOffset(PrintOffset(offset)) == Some(offset) && !CharAt(PrintOffset(offset), 0, '.')
  {
    if offset.Some? {
      var n := if offset.value < 0 then -offset.value else offset.value;
      SpanRead(n);
      assert PrintOffset(offset)[1..] == PrintSpan(n);
    }
  }

  lemma PrintedPieces(t: Stamp)
    ensures var s := Print(t);
            && |s| >= 19 && s[10] == 'T' && s[13] == s[16] == ':' && s[..10] == PrintDate(t.date)
            && s[11..13] == Pad(t.hour, 2) && s[14..16] == Pad(t.minute, 2) && s[17..19] == Pad(t.second, 2)
            && s[19..] == PrintMicros(t.micro) + PrintOffset(t.offset)
  {
    hide PrintMicros, PrintOffset, PrintDate, Pad;
    var s, tail := Print(t), PrintMicros(t.micro) + PrintOffset(t.offset);
    assert s == PrintDate(t.date) + "T" + Pad(t.hour, 2) + ":" + Pad(t.minute, 2) + ":" + Pad(t.second, 2) + tail;
  }

  /** Printing then reading a timestamp yields the timestamp, microseconds and offset included. */
  lemma PrintedReads(t: Stamp, other: Spellings)
    ensures FromIso(Print(t), other) == Some(t)
  {
    Widths();
    PrintedPieces(t);
    ReadPrint(t.date, x => None);
    hide Print, PrintMicros, PrintOffset, PrintDate, Pad, Number, AllDigits, Pow10, ReadOffset, ReadMicros,
         ReadExtended;
    var s := Print(t);
    NumberAt(s, 11, 2, t.hour);
    NumberAt(s, 14, 2, t.minute);
    NumberAt(s, 17, 2, t.second);
    OffsetRead(t.offset);
    MicrosRead(t.micro, PrintOffset(t.offset));
  }

  lemma {:induction false} FirstColon(id: string, rest: string)
    ensures IndexOf(id + ":" + rest, ':') == IndexOf(id, ':')
    ensures IndexOf(id, ':') == |id| <==> ':' !in id
  {
    var s := id + ":" + rest;
    if id != "" && id[0] != ':' {
      FirstColon(id[1..], rest);
      assert s[1..] == id[1..] + ":" + rest && id == [id[0]] + id[1..];
    }
  }

  /** A cursor decodes to what it encodes exactly when the identifier has no colon. */
  lemma CursorRoundTrip(t: Stamp, id: string, other: Spellings)
    ensures Decode(Encode(t, id), other) == Some((t, id)) <==> ':' !in id
  {
    var raw := id + ":" + Print(t);
    Utf8.RoundTrip(raw);
    Base64Url.RoundTrip(Utf8.Encode(raw));
    FirstColon(id, Print(t));
    PrintedReads(t, other);
    hide Print, FromIso, IndexOf, Utf8.Encode, Utf8.Decode, Base64Url.Encode, Base64Url.Decode;
    var k := IndexOf(id, ':');
    assert raw[..k] == id[..k];
    assert raw[|id| + 1..] == Print(t);
    assert id[..|id|] == id;
  }

  // ----- what a cursor holds -----

  /** A timestamp's text: date, clock time, microseconds only when there are any, then the offset. */
  lemma PrintedExactly(t: Stamp)
    ensures var s := Print(t);
            && |s| >= 19 && s[..10] == PrintDate(t.date) && s[10] == 'T' && s[11..13] == Pad(t.hour, 2) && s[13] == ':'
            && s[14..16] == Pad(t.minute, 2) && s[16] == ':' && s[17..19] == Pad(t.second, 2)
            && s[19..] == (if t.micro == 0 then "" else "." + Pad(t.micro, 6)) + PrintOffset(t.offset)
  {
    PrintedPieces(t);
    hide Print, PrintOffset, PrintDate, Pad;
  }

  /** A UTC offset of whole minutes is its sign, its hours and its minutes. */
  lemma OffsetExactly(sign: char, h: nat, m: nat, n: nat)
    requires h < 24 && m < 60 && (sign == '+' || (sign == '-' && h + m > 0))
    requires n == (h * 60 + m) * 60 * MICROS_PER_SECOND
    ensures n < MICROS_PER_DAY && PrintOffset(Some(Signed(sign, n))) == [sign] + (Pad(h, 2) + ":" + Pad(m, 2))
  {
    WholeMinutes(h, m, n);
    SpanExactly(h, m, n);
    SignedSpan(sign, n);
    hide *;
  }

  lemma SignedSpan(sign: char, n: nat)
    requires n < MICROS_PER_DAY && (sign == '+' || (sign == '-' && n > 0))
    ensures PrintOffset(Some(Signed(sign, n))) == [sign] + PrintSpan(n)
  {
    hide PrintSpan;
  }

  lemma SpanExactly(h: nat, m: nat, n: nat)
    requires n < MICROS_PER_DAY && n % MICROS_PER_SECOND == 0
    requires var seconds := n / MICROS_PER_SECOND; seconds / 3600 == h && seconds / 60 % 60 == m && seconds % 60 == 0
    ensures PrintSpan(n) == Pad(h, 2) + ":" + Pad(m, 2)
  {
    hide Pad;
    assert PrintSpan(n) == Pad(h, 2) + ":" + Pad(m, 2) + "";
  }

  lemma WholeMinutes(h: nat, m: nat, n: nat)
    requires h < 24 && m < 60 && n == (h * 60 + m) * 60 * MICROS_PER_SECOND
    ensures var seconds := n / MICROS_PER_SECOND;
            && n < MICROS_PER_DAY && n % MICROS_PER_SECOND == 0 && seconds % 60 == 0
            && seconds / 3600 == h && seconds / 60 % 60 == m && (h + m > 0 ==> n > 0)
  {
    var seconds := (h * 60 + m) * 60;
    assert n == seconds * 1_000_000;
    assert n / 1_000_000 == seconds;
    assert seconds == (h * 60 + m) * 60 + 0 && seconds / 60 == h * 60 + m;
    assert seconds == h * 3600 + m * 60;
  }

  /** The text inside a cursor is the identifier, a colon and the timestamp. */
  lemma CursorHolds(t: Stamp, id: string)
    ensures var bytes := Base64Url.Decode(Encode(t, id));
            bytes.Some? && Utf8.Decode(bytes.value) == Some(id + ":" + Print(t))
  {
    Utf8.RoundTrip(id + ":" + Print(t));
    Base64Url.RoundTrip(Utf8.Encode(id + ":" + Print(t)));
    hide Print, Utf8.Encode, Utf8.Decode, Base64Url.Encode, Base64Url.Decode;
  }

  lemma {:induction false} IndexIs(s: string, c: char, before: string, after: string)
    requires s == before + [c] + after && c !in before
    ensures IndexOf(s, c) == |before|
    decreases |before|
  {
    if before != "" {
      assert s[1..] == before[1..] + [c] + after;
      IndexIs(s[1..], c, before[1..], after);
    }
  }

  lemma NoIndex(s: string, c: char)
    ensures IndexOf(s, c) < |s| <==> c in s
  {
    assert IndexOf(s, c) == |s| ==> s[..IndexOf(s, c)] == s;
  }

  /** `ts` reads as this timestamp, and the text is identifier, colon, timestamp; or without any colon, timestamp, bar, identifier. */
  ghost predicate Spells(raw: string, ts: string, t: Stamp, id: string, other: Spellings) {
    && FromIso(ts, other) == Some(t)
    && ((raw == id + ":" + ts && ':' !in id) || (raw == ts + "|" + id && ':' !in raw && '|' !in ts))
  }

  /** What a text is read as: the first colon splits it, and only without one the first bar, the other way round. */
  lemma RawExactly(raw: string, t: Stamp, id: string, other: Spellings)
    ensures DecodeRaw(raw, other) == Some((t, id)) <==> exists ts :: Spells(raw, ts, t, id, other)
  {
    hide FromIso;
    var colon, bar := IndexOf(raw, ':'), IndexOf(raw, '|');
    if DecodeRaw(raw, other) == Some((t, id)) {
      if colon < |raw| {
        assert raw == raw[..colon] + ":" + raw[colon + 1..];
        assert Spells(raw, raw[colon + 1..], t, id, other);
      } else {
        assert raw == raw[..bar] + "|" + raw[bar + 1..] && raw[..colon] == raw;
        assert Spells(raw, raw[..bar], t, id, other);
      }
    }
    if ts :| Spells(raw, ts, t, id, other) {
      if raw == id + ":" + ts && ':' !in id {
        IndexIs(raw, ':', id, ts);
        assert raw[..|id|] == id && raw[|id| + 1..] == ts;
      } else {
        IndexIs(raw, '|', ts, id);
        NoIndex(raw, ':');
        assert raw[..|ts|] == ts && raw[|ts| + 1..] == id;
      }
    }
  }
}
