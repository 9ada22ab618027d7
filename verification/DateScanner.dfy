/** The date scanner over OCR and barcode text: a regular expression search followed by the date reader. */
module DateScanner {
  import opened Prelude
  import opened Dates

  /** The Unicode character classes behind `\d` and `\b`; the results hold for any sound choice. */
  datatype Alphabet = Alphabet(digit: char -> bool, word: char -> bool)

  ghost predicate Sound(al: Alphabet) {
    && (forall c | IsDigit(c) :: al.digit(c))
    && (forall c | al.digit(c) :: al.word(c))
    && !al.word('-') && !al.word('/') && !al.word(':') && !al.digit('W')
  }

  predicate IsSeparator(c: char) { c in {'-', '/', ':'} }

  predicate Boundary(al: Alphabet, t: string, i: nat)
    requires i <= |t|
  {
    (i > 0 && al.word(t[i - 1])) != (i < |t| && al.word(t[i]))
  }

  predicate DigitsAt(al: Alphabet, t: string, lo: nat, hi: nat) {
    hi <= |t| && forall k | lo <= k < hi :: al.digit(t[k])
  }

  /** The pattern matches at `i` with a month of `m` and a day of `d` digits. */
  predicate MatchesAt(al: Alphabet, t: string, i: nat, m: nat, d: nat) {
    && m in {1, 2} && d in {1, 2}
    && i + 6 + m + d <= |t|
    && Boundary(al, t, i)
    && t[i] == '2' && t[i + 1] == '0' && DigitsAt(al, t, i + 2, i + 4)
    && IsSeparator(t[i + 4]) && DigitsAt(al, t, i + 5, i + 5 + m)
    && IsSeparator(t[i + 5 + m]) && DigitsAt(al, t, i + 6 + m, i + 6 + m + d)
    && Boundary(al, t, i + 6 + m + d)
  }

  datatype Hit = Hit(at: nat, m: nat, d: nat)

  /** One position tried in the order of the greedy quantifiers. */
  function TryAt(al: Alphabet, t: string, i: nat): (h: Option<Hit>) {
    if MatchesAt(al, t, i, 2, 2) then Some(Hit(i, 2, 2))
    else if MatchesAt(al, t, i, 2, 1) then Some(Hit(i, 2, 1))
    else if MatchesAt(al, t, i, 1, 2) then Some(Hit(i, 1, 2))
    else if MatchesAt(al, t, i, 1, 1) then Some(Hit(i, 1, 1))
    else None
  }

  /** `_DATE_PATTERN.search`: the leftmost position that matches. */
  function Search(al: Alphabet, t: string, from: nat := 0): (h: Option<Hit>)
    ensures h.Some? ==> from <= h.value.at && MatchesAt(al, t, h.value.at, h.value.m, h.value.d)
    ensures h.Some? ==> forall i, m, d | from <= i < h.value.at :: !MatchesAt(al, t, i, m, d)
    ensures h.None? ==> forall i, m, d | from <= i :: !MatchesAt(al, t, i, m, d)
    decreases |t| - from
  {
    if from >= |t| then None
    else
      match TryAt(al, t, from)
      case Some(h) => Some(h)
      case None => Search(al, t, from + 1)
  }

  /** The backtracking order is immaterial: a position matches in at most one way. */
  lemma MatchIsUnique(al: Alphabet, t: string, i: nat, m: nat, d: nat, m': nat, d': nat)
    requires Sound(al) && MatchesAt(al, t, i, m, d) && MatchesAt(al, t, i, m', d')
    ensures m == m' && d == d'
  {
    // One character tells each length: a second digit is neither a separator nor outside a word.
    assert m == 2 <==> al.digit(t[i + 6]);
    assert m' == 2 <==> al.digit(t[i + 6]);
    var e := i + 6 + m;
    assert d == 2 <==> e + 1 < |t| && al.word(t[e + 1]);
    assert d' == 2 <==> e + 1 < |t| && al.word(t[e + 1]);
  }

  /** The three groups joined with dashes. */
  function Candidate(t: string, h: Hit): string
    requires h.at + 6 + h.m + h.d <= |t|
  {
    t[h.at..h.at + 4] + "-" + t[h.at + 5..h.at + 5 + h.m] + "-" + t[h.at + 6 + h.m..h.at + 6 + h.m + h.d]
  }

  /** What one observation text yields: its leftmost match, if that reads as a date. */
  function TextDate(al: Alphabet, other: Spellings, t: string): Option<string> {
    match Search(al, t)
    case None => None
    case Some(h) =>
      var c := Candidate(t, h);
      if FromIso(c, other).Some? then Some(c) else None
  }

  /** A candidate reads as a date only in its ten-character form, and it is then canonical. */
  lemma CandidateReads(al: Alphabet, other: Spellings, t: string, h: Hit)
    requires Sound(al) && MatchesAt(al, t, h.at, h.m, h.d)
    ensures var c := Candidate(t, h);
            FromIso(c, other) == ReadExtended(c) && (ReadExtended(c).Some? ==> h.m == h.d == 2)
  {
    var c := Candidate(t, h);
    assert c[4] == '-' && c[5] == t[h.at + 5];
  }

  /** The date a text yields is accepted by the date reader, is written in the text, and is its leftmost match. */
  lemma TextDateIsCanonical(al: Alphabet, other: Spellings, t: string)
    requires Sound(al)
    ensures var r := TextDate(al, other, t);
            && (r.Some? ==> ReadCanonical(r.value, other).Some? && |r.value| == 10)
            && (r.Some? <==> Search(al, t).Some? && ReadExtended(Candidate(t, Search(al, t).value)).Some?)
            && (r.Some? ==> r.value == Candidate(t, Search(al, t).value) && Search(al, t).value.m == Search(al, t).value.d == 2)
  {
    var h := Search(al, t);
    if h.Some? {
      CandidateReads(al, other, t, h.value);
      if TextDate(al, other, t).Some? {
        PrintRead(Candidate(t, h.value));
      }
    }
  }

  // ----- which digits become which part of the date -----

  /** Year, month and day in that order, with these separators. */
  function Written(d: Date, x: char, y: char): (s: string)
    ensures |s| == 10
  {
    Pad(d.year, 4) + [x] + Pad(d.month, 2) + [y] + Pad(d.day, 2)
  }

  /** `d` is written at `i` as a word of its own, and nothing before it matches. */
  ghost predicate Stands(al: Alphabet, t: string, i: nat, d: Date, x: char, y: char) {
    && 2000 <= d.year <= 2099 && {x, y} <= {'-', '/', ':'}
    && i + 10 <= |t| && t[i..i + 10] == Written(d, x, y)
    && (i > 0 ==> !al.word(t[i - 1])) && (i + 10 < |t| ==> !al.word(t[i + 10]))
    && forall j, m, n | 0 <= j < i :: !MatchesAt(al, t, j, m, n)
  }

  /** Years of this century start with "20". */
  lemma CenturyDigits(y: nat)
    requires y < 10_000
    ensures 2000 <= y <= 2099 <==> Pad(y, 4)[0] == '2' && Pad(y, 4)[1] == '0'
  {
    var z := y / 10 / 10;
    assert Pad(y, 4)[..2] == Pad(z, 2);
    assert Pad(z, 2)[0] == Pad(z / 10, 1)[0] == DigitChar(z / 10 % 10) && Pad(z, 2)[1] == DigitChar(z % 10);
  }

  lemma WrittenParts(d: Date, x: char, y: char)
    ensures var s := Written(d, x, y);
            && s[..4] == Pad(d.year, 4) && s[4] == x && s[5..7] == Pad(d.month, 2) && s[7] == y && s[8..] == Pad(d.day, 2)
            && s[..4] + "-" + s[5..7] + "-" + s[8..] == PrintDate(d)
  {
  }

  lemma Inside(t: string, lo: nat, n: nat, i: nat, j: nat)
    requires i <= j <= n && lo + n <= |t|
    ensures t[lo..lo + n][i..j] == t[lo + i..lo + j]
  {
    var u, v := t[lo..lo + n][i..j], t[lo + i..lo + j];
    assert |u| == |v| && forall k | 0 <= k < |u| :: u[k] == v[k];
  }

  /** The ten characters at `i`, apart. */
  lemma TenAt(t: string, i: nat)
    requires i + 10 <= |t|
    ensures var s := t[i..i + 10];
            && t[i..i + 4] == s[..4] && t[i + 5..i + 7] == s[5..7] && t[i + 8..i + 10] == s[8..]
            && (forall k | 0 <= k < 10 :: s[k] == t[i + k])
            && s == s[..4] + [s[4]] + s[5..7] + [s[7]] + s[8..]
  {
    Inside(t, i, 10, 0, 4);
    Inside(t, i, 10, 5, 7);
    Inside(t, i, 10, 8, 10);
  }

  lemma WrittenDigits(d: Date, x: char, y: char)
    requires 2000 <= d.year <= 2099
    ensures var s := Written(d, x, y);
            s[0] == '2' && s[1] == '0' && s[4] == x && s[7] == y && forall k | k in {2, 3, 5, 6, 8, 9} :: IsDigit(s[k])
  {
    var s := Written(d, x, y);
    WrittenParts(d, x, y);
    CenturyDigits(d.year);
    assert s[0] == s[..4][0] && s[1] == s[..4][1] && s[2] == s[..4][2] && s[3] == s[..4][3];
    assert s[5] == s[5..7][0] && s[6] == s[5..7][1] && s[8] == s[8..][0] && s[9] == s[8..][1];
    hide Pad, Written;
  }

  lemma WrittenMatches(al: Alphabet, t: string, i: nat, d: Day, x: char, y: char)
    requires Sound(al) && Stands(al, t, i, d, x, y)
    ensures MatchesAt(al, t, i, 2, 2) && Candidate(t, Hit(i, 2, 2)) == PrintDate(d)
  {
    WrittenParts(d, x, y);
    TenAt(t, i);
    hide Pad, PrintDate, Written, MatchesAt;
    WrittenHere(al, t, i, d, x, y);
  }

  lemma TwoDigits(al: Alphabet, t: string, lo: nat)
    requires Sound(al) && lo + 2 <= |t| && IsDigit(t[lo]) && IsDigit(t[lo + 1])
    ensures DigitsAt(al, t, lo, lo + 2)
  {
  }

  lemma WrittenHere(al: Alphabet, t: string, i: nat, d: Day, x: char, y: char)
    requires Sound(al) && Stands(al, t, i, d, x, y)
    ensures MatchesAt(al, t, i, 2, 2)
  {
    WrittenDigits(d, x, y);
    var s := Written(d, x, y);
    TenAt(t, i);
    hide Pad, Written, DigitsAt;
    assert t[i] == s[0] && t[i + 1] == s[1] && t[i + 2] == s[2] && t[i + 3] == s[3] && t[i + 4] == s[4];
    assert t[i + 5] == s[5] && t[i + 6] == s[6] && t[i + 7] == s[7] && t[i + 8] == s[8] && t[i + 9] == s[9];
    assert x in {x, y} && y in {x, y};
    TwoDigits(al, t, i + 2);
    TwoDigits(al, t, i + 5);
    TwoDigits(al, t, i + 8);
  }

  lemma Joined(year: string, month: string, day: string)
    requires |year| == 4 && |month| == |day| == 2
    ensures var c := year + "-" + month + "-" + day;
            c[..4] == year && c[5..7] == month && c[8..] == day && c[0] == year[0] && c[1] == year[1]
  {
  }

  lemma MatchStands(al: Alphabet, t: string, h: Hit)
    requires Sound(al) && Search(al, t) == Some(h) && h.m == h.d == 2 && ReadExtended(Candidate(t, h)).Some?
    ensures var d := ReadExtended(Candidate(t, h)).value;
            Candidate(t, h) == PrintDate(d) && Stands(al, t, h.at, d, t[h.at + 4], t[h.at + 7])
  {
    var c, i := Candidate(t, h), h.at;
    var d := ReadExtended(c).value;
    PrintRead(c);
    CenturyDigits(d.year);
    TenAt(t, i);
    Joined(t[i..i + 4], t[i + 5..i + 7], t[i + 8..i + 10]);
    Joined(Pad(d.year, 4), Pad(d.month, 2), Pad(d.day, 2));
    hide Pad, ReadExtended, Candidate, Search;
    assert t[i + 1] == t[i..i + 4][1];
  }

  /** An observation row; `text` is None when the stored JSON does not parse. */
  datatype Observation = Observation(evidence: Id, kind: ObservationKind, text: Option<string>)
  datatype ObservationKind = Ocr | BarcodeQr | Exif | PHash

  function RowDate(al: Alphabet, other: Spellings, row: Observation): Option<string> {
    match row.text
    case None => None
    case Some(t) => TextDate(al, other, t)
  }

  /** The scan over the query's rows. */
  function FirstDate(al: Alphabet, other: Spellings, rows: seq<Observation>): (r: Option<(string, Id)>)
    ensures r.None? <==> forall k | 0 <= k < |rows| :: RowDate(al, other, rows[k]).None?
    ensures r.Some? ==> exists k ::
              && 0 <= k < |rows| && RowDate(al, other, rows[k]) == Some(r.value.0) && rows[k].evidence == r.value.1
              && forall j | 0 <= j < k :: RowDate(al, other, rows[j]).None?
  {
    if rows == [] then None
    else
      match RowDate(al, other, rows[0])
      case Some(c) => Some((c, rows[0].evidence))
      case None =>
        var rest := FirstDate(al, other, rows[1..]);
        assert forall k | 1 <= k < |rows| :: rows[k] == rows[1..][k - 1];
        assert rest.Some? ==> exists k ::
            && 0 < k < |rows| && RowDate(al, other, rows[k]) == Some(rest.value.0) && rows[k].evidence == rest.value.1
            && forall j | 0 <= j < k :: RowDate(al, other, rows[j]).None? by {
          if rest.Some? {
            var k :| && 0 <= k < |rows[1..]| && RowDate(al, other, rows[1..][k]) == Some(rest.value.0)
                     && rows[1..][k].evidence == rest.value.1
                     && forall j | 0 <= j < k :: RowDate(al, other, rows[1..][j]).None?;
            assert rows[k + 1] == rows[1..][k];
          }
        }
        rest
  }

  /** The loop of `_observed_date`, skipping unreadable rows and unreal dates. */
  method ObservedDate(al: Alphabet, other: Spellings, rows: seq<Observation>) returns (r: Option<(string, Id)>)
    ensures r == FirstDate(al, other, rows)
  {
    for k := 0 to |rows|
      invariant FirstDate(al, other, rows) == FirstDate(al, other, rows[k..])
    {
      assert rows[k..][0] == rows[k] && rows[k..][1..] == rows[k + 1..];
      if rows[k].text.None? { continue; }
      var t := rows[k].text.value;
      var h := Search(al, t);
      if h.Some? {
        var candidate := Candidate(t, h.value);
        if FromIso(candidate, other).Some? {
          return Some((candidate, rows[k].evidence));
        }
      }
    }
    return None;
  }

  // ----- what a text yields -----

  /**
   * A text yields `c` exactly when its first match is a real day of this century, four, two and two digits for
   * year, month and day in that order between separators, and `c` is that day's printing.
   */
  lemma ScanExactly(al: Alphabet, other: Spellings, t: string, c: string)
    requires Sound(al)
    ensures TextDate(al, other, t) == Some(c) <==> exists d: Day, i, x, y :: Stands(al, t, i, d, x, y) && c == PrintDate(d)
  {
    hide MatchesAt, Candidate, PrintDate, Pad, ReadExtended, Stands;
    TextDateIsCanonical(al, other, t);
    var r := Search(al, t);
    if TextDate(al, other, t) == Some(c) {
      MatchStands(al, t, r.value);
    }
    forall d: Day, i, x, y | Stands(al, t, i, d, x, y) ensures TextDate(al, other, t) == Some(PrintDate(d)) {
      StandsIsRead(al, other, t, i, d, x, y);
    }
  }

  lemma StandsIsRead(al: Alphabet, other: Spellings, t: string, i: nat, d: Day, x: char, y: char)
    requires Sound(al) && Stands(al, t, i, d, x, y)
    ensures TextDate(al, other, t) == Some(PrintDate(d))
  {
    WrittenMatches(al, t, i, d, x, y);
    var h := Search(al, t).value;
    assert h.at == i;
    MatchIsUnique(al, t, i, h.m, h.d, 2, 2);
    ReadPrint(d, other);
    hide MatchesAt, PrintDate, ReadExtended, Candidate;
  }

  /** So a date written as a word of its own, with no '2' before it, is what the text yields. */
  lemma WrittenDateIsRead(al: Alphabet, other: Spellings, before: string, d: Day, x: char, y: char, after: string)
    requires Sound(al) && 2000 <= d.year <= 2099 && {x, y} <= {'-', '/', ':'}
    requires '2' !in before && (before != "" ==> !al.word(before[|before| - 1])) && (after != "" ==> !al.word(after[0]))
    ensures TextDate(al, other, before + Written(d, x, y) + after) == Some(PrintDate(d))
  {
    var t := before + Written(d, x, y) + after;
    assert forall j | 0 <= j < |before| :: t[j] == before[j];
    assert t[|before|..|before| + 10] == Written(d, x, y);
    StandsIsRead(al, other, t, |before|, d, x, y);
  }
}
