/** The URL-safe alphabet of section 5 of RFC 4648 over the grouping of section 4, and the lenient decoder. */
module Base64Url {
  import opened Prelude
  import opened Utf8

  function Symbol(v: nat): (c: char)
    requires v < 64
  {
    if v < 26 then ('A' as int + v) as char
    else if v < 52 then ('a' as int + v - 26) as char
    else if v < 62 then ('0' as int + v - 52) as char
    else if v == 62 then '-' else '_'
  }

  /** The decoder translates '-' and '_' and still takes '+' and '/'. */
  function Value(c: char): (v: Option<nat>)
    ensures v.Some? ==> v.value < 64
  {
    if 'A' <= c <= 'Z' then Some(c as int - 'A' as int)
    else if 'a' <= c <= 'z' then Some(c as int - 'a' as int + 26)
    else if '0' <= c <= '9' then Some(c as int - '0' as int + 52)
    else if c == '-' || c == '+' then Some(62)
    else if c == '_' || c == '/' then Some(63)
    else None
  }

  lemma SymbolValue(v: nat)
    requires v < 64
    ensures Value(Symbol(v)) == Some(v) && Symbol(v) != '='
  {
  }

  // The four six-bit values of three bytes, and the three bytes of four such values.
  function First(x: byte): (v: nat) ensures v < 64 { x as int / 4 }
  function Second(x: byte, y: byte): (v: nat) ensures v < 64 { x as int % 4 * 16 + y as int / 16 }
  function Third(y: byte, z: byte): (v: nat) ensures v < 64 { y as int % 16 * 4 + z as int / 64 }
  function Fourth(z: byte): (v: nat) ensures v < 64 { z as int % 64 }

  function Byte1(p: nat, q: nat): byte requires p < 64 && q < 64 { (p * 4 + q / 16) as byte }
  function Byte2(q: nat, r: nat): byte requires q < 64 && r < 64 { (q % 16 * 16 + r / 4) as byte }
  function Byte3(r: nat, t: nat): byte requires r < 64 && t < 64 { (r % 4 * 64 + t) as byte }

  /** Three bytes to four symbols; a shorter last group is padded. */
  function Encode(b: seq<byte>): string {
    if b == [] then ""
    else if |b| == 1 then [Symbol(First(b[0])), Symbol(Second(b[0], 0)), '=', '=']
    else if |b| == 2 then [Symbol(First(b[0])), Symbol(Second(b[0], b[1])), Symbol(Third(b[1], 0)), '=']
    else
      [Symbol(First(b[0])), Symbol(Second(b[0], b[1])), Symbol(Third(b[1], b[2])), Symbol(Fourth(b[2]))] + Encode(b[3..])
  }

  /**
   * `binascii.a2b_base64` when not strict: foreign characters are skipped, enough padding ends the input,
   * and a dangling group is an error.
   */
  function Scan(s: string, quad: nat, pads: nat, left: nat): Option<seq<byte>>
    requires quad < 4 && left < 64
    requires (quad == 2 ==> left < 16) && (quad == 3 ==> left < 4)
    decreases |s|
  {
    if s == "" then (if quad == 0 then Some([]) else None)
    else if s[0] == '=' then
      if quad >= 2 && quad + pads + 1 >= 4 then Some([])
      else Scan(s[1..], quad, if quad >= 2 then pads + 1 else pads, left)
    else
      match Value(s[0])
      case None => Scan(s[1..], quad, pads, left)
      case Some(v) =>
        if quad == 0 then Scan(s[1..], 1, 0, v)
        else if quad == 1 then Then((left * 4 + v / 16) as byte, Scan(s[1..], 2, 0, v % 16))
        else if quad == 2 then Then((left * 16 + v / 4) as byte, Scan(s[1..], 3, 0, v % 4))
        else Then((left * 64 + v) as byte, Scan(s[1..], 0, 0, 0))
  }

  function Then(b: byte, rest: Option<seq<byte>>): Option<seq<byte>> {
    match rest
    case None => None
    case Some(bs) => Some([b] + bs)
  }

  function Decode(s: string): Option<seq<byte>> { Scan(s, 0, 0, 0) }

  lemma ScanSymbol(v: nat, rest: string, quad: nat, pads: nat, left: nat)
    requires v < 64 && quad < 4 && left < 64 && (quad == 2 ==> left < 16) && (quad == 3 ==> left < 4)
    ensures Scan([Symbol(v)] + rest, quad, pads, left)
            == if quad == 0 then Scan(rest, 1, 0, v)
               else if quad == 1 then Then((left * 4 + v / 16) as byte, Scan(rest, 2, 0, v % 16))
               else if quad == 2 then Then((left * 16 + v / 4) as byte, Scan(rest, 3, 0, v % 4))
               else Then((left * 64 + v) as byte, Scan(rest, 0, 0, 0))
  {
    SymbolValue(v);
    assert ([Symbol(v)] + rest)[1..] == rest;
  }

  lemma ScanPads()
    ensures Scan("==", 2, 0, 0) == Some([]) && Scan("=", 3, 0, 0) == Some([])
  {
    assert "=="[1..] == "=";
  }

  lemma Halves16(x: nat, y: nat)
    requires y < 16
    ensures (x * 16 + y) / 16 == x && (x * 16 + y) % 16 == y
  {
  }

  lemma Halves4(x: nat, y: nat)
    requires y < 4
    ensures (x * 4 + y) / 4 == x && (x * 4 + y) % 4 == y
  {
  }

  /** Splitting and regrouping are inverse. */
  lemma Regroup(x: byte, y: byte, z: byte)
    ensures Byte1(First(x), Second(x, y)) == x
    ensures Byte2(Second(x, y), Third(y, z)) == y
    ensures Byte3(Third(y, z), Fourth(z)) == z
    ensures Second(x, 0) % 16 == 0 && Third(y, 0) % 4 == 0
  {
    Halves16(x as int % 4, y as int / 16);
    Halves16(x as int % 4, 0);
    Halves4(y as int % 16, z as int / 64);
    Halves4(y as int % 16, 0);
  }

  /** Four symbols scanned from a group boundary. */
  lemma ScanGroup(p: nat, q: nat, r: nat, t: nat, rest: string)
    requires p < 64 && q < 64 && r < 64 && t < 64
    ensures Scan([Symbol(p), Symbol(q), Symbol(r), Symbol(t)] + rest, 0, 0, 0)
            == Then(Byte1(p, q), Then(Byte2(q, r), Then(Byte3(r, t), Scan(rest, 0, 0, 0))))
  {
    hide Scan, Symbol, Then;
    assert [Symbol(p), Symbol(q), Symbol(r), Symbol(t)] + rest
        == [Symbol(p)] + ([Symbol(q)] + ([Symbol(r)] + ([Symbol(t)] + rest)));
    ScanSymbol(p, [Symbol(q)] + ([Symbol(r)] + ([Symbol(t)] + rest)), 0, 0, 0);
    ScanSymbol(q, [Symbol(r)] + ([Symbol(t)] + rest), 1, 0, p);
    ScanSymbol(r, [Symbol(t)] + rest, 2, 0, q % 16);
    ScanSymbol(t, rest, 3, 0, r % 4);
  }

  lemma ScanLastTwo(p: nat, q: nat)
    requires p < 64 && q < 64 && q % 16 == 0
    ensures Scan([Symbol(p), Symbol(q), '=', '='], 0, 0, 0) == Then(Byte1(p, q), Some([]))
  {
    hide Scan, Symbol, Then;
    assert [Symbol(p), Symbol(q), '=', '='] == [Symbol(p)] + ([Symbol(q)] + "==");
    ScanSymbol(p, [Symbol(q)] + "==", 0, 0, 0);
    ScanSymbol(q, "==", 1, 0, p);
    ScanPads();
  }

  lemma ScanLastThree(p: nat, q: nat, r: nat)
    requires p < 64 && q < 64 && r < 64 && r % 4 == 0
    ensures Scan([Symbol(p), Symbol(q), Symbol(r), '='], 0, 0, 0) == Then(Byte1(p, q), Then(Byte2(q, r), Some([])))
  {
    hide Scan, Symbol, Then;
    assert [Symbol(p), Symbol(q), Symbol(r), '='] == [Symbol(p)] + ([Symbol(q)] + ([Symbol(r)] + "="));
    ScanSymbol(p, [Symbol(q)] + ([Symbol(r)] + "="), 0, 0, 0);
    ScanSymbol(q, [Symbol(r)] + "=", 1, 0, p);
    ScanSymbol(r, "=", 2, 0, q % 16);
    ScanPads();
  }

  /** Decoding an encoding yields the bytes. */
  lemma {:induction false} RoundTrip(b: seq<byte>)
    ensures Decode(Encode(b)) == Some(b)
    decreases |b|
  {
    hide Scan, Symbol, First, Second, Third, Fourth, Byte1, Byte2, Byte3;
    if b == [] {
      NothingScanned();
    } else if |b| == 1 {
      Regroup(b[0], 0, 0);
      ScanLastTwo(First(b[0]), Second(b[0], 0));
      assert b == [b[0]] + [];
    } else if |b| == 2 {
      Regroup(b[0], b[1], 0);
      ScanLastThree(First(b[0]), Second(b[0], b[1]), Third(b[1], 0));
      assert b == [b[0]] + ([b[1]] + []);
    } else {
      RoundTrip(b[3..]);
      Regroup(b[0], b[1], b[2]);
      ScanGroup(First(b[0]), Second(b[0], b[1]), Third(b[1], b[2]), Fourth(b[2]), Encode(b[3..]));
      assert b == [b[0]] + ([b[1]] + ([b[2]] + b[3..]));
    }
  }

  lemma NothingScanned()
    ensures Scan("", 0, 0, 0) == Some([])
  {
  }

  // ----- the encoding itself -----

  /** Table 2 of section 5 of RFC 4648. */
  const TABLE: string := UPPER + LOWER + DIGITS + "-_"
  const UPPER := "ABCDEFGHIJKLMNOPQRSTUVWXYZ"
  const LOWER := "abcdefghijklmnopqrstuvwxyz"
  const DIGITS := "0123456789"

  /** Four characters that stand for the 24 bits of this group, first bits first. */
  ghost predicate StandsFor(s: string, bits: nat) {
    |s| == 4 && exists p, q, r, t ::
      && 0 <= p < 64 && 0 <= q < 64 && 0 <= r < 64 && 0 <= t < 64
      && s == [TABLE[p], TABLE[q], TABLE[r], TABLE[t]] && ((p * 64 + q) * 64 + r) * 64 + t == bits
  }

  /** A last group of one or two bytes: zero bits fill its last character, and pads the rest. */
  ghost predicate StandsForLast(s: string, last: seq<byte>) {
    if |last| == 1 then
      exists p, q :: 0 <= p < 64 && 0 <= q < 64 && s == [TABLE[p], TABLE[q], '=', '='] && p * 64 + q == last[0] as int * 16
    else
      |last| == 2 && exists p, q, r ::
        && 0 <= p < 64 && 0 <= q < 64 && 0 <= r < 64 && s == [TABLE[p], TABLE[q], TABLE[r], '=']
        && (p * 64 + q) * 64 + r == (last[0] as int * 256 + last[1] as int) * 4
  }

  lemma SymbolInTable(v: nat)
    requires v < 64
    ensures TABLE[v] == Symbol(v)
  {
    assert |UPPER| == |LOWER| == 26 && |DIGITS| == 10;
    assert v < 26 ==> TABLE[v] == UPPER[v];
    assert 26 <= v < 52 ==> TABLE[v] == LOWER[v - 26];
    assert 52 <= v < 62 ==> TABLE[v] == DIGITS[v - 52];
    assert 62 <= v ==> TABLE[v] == "-_"[v - 62];
    hide TABLE;
    if v < 26 {
      UpperCase(v);
    } else if v < 52 {
      LowerCase(v - 26);
    }
  }

  lemma UpperCase(v: nat)
    requires v < 26
    ensures UPPER[v] == 'A' + v as char
  {
  }

  lemma LowerCase(v: nat)
    requires v < 26
    ensures LOWER[v] == 'a' + v as char
  {
  }

  lemma GroupBits(x: byte, y: byte, z: byte)
    ensures ((First(x) * 64 + Second(x, y)) * 64 + Third(y, z)) * 64 + Fourth(z) == (x as int * 256 + y as int) * 256 + z as int
    ensures First(x) * 64 + Second(x, 0) == x as int * 16
    ensures (First(x) * 64 + Second(x, y)) * 64 + Third(y, 0) == (x as int * 256 + y as int) * 4
  {
    assert x as int == x as int / 4 * 4 + x as int % 4;
    assert y as int == y as int / 16 * 16 + y as int % 16;
    assert z as int == z as int / 64 * 64 + z as int % 64;
  }

  function Bits(x: byte, y: byte, z: byte): nat { (x as int * 256 + y as int) * 256 + z as int }

  /** Group `g` of `s` is group `g` of `b`. */
  ghost predicate Encodes(b: seq<byte>, s: string, g: nat) {
    && |s| == (|b| + 2) / 3 * 4
    && (3 * g + 3 <= |b| ==>
          StandsFor(s[4 * g..4 * g + 4], Bits(b[3 * g], b[3 * g + 1], b[3 * g + 2])))
    && (3 * g < |b| < 3 * g + 3 ==> StandsForLast(s[4 * g..], b[3 * g..]))
  }

  /** Section 4 of RFC 4648: every three bytes become the four characters of their bits, and a shorter rest is padded. */
  lemma {:induction false} EncodeExactly(b: seq<byte>, g: nat)
    ensures Encodes(b, Encode(b), g)
    decreases |b|
  {
    if |b| >= 3 {
      var head, rest := Group(b[0], b[1], b[2]), Encode(b[3..]);
      assert Encode(b) == head + rest;
      hide *;
      EncodeExactly(b[3..], if g == 0 then 0 else g - 1);
      if g == 0 {
        GroupCount(b[3..], rest);
        FirstGroup(b, head, rest);
      } else {
        LaterGroup(b, head, rest, g);
      }
    } else if b != [] {
      LastStands(b);
      assert g == 0 ==> b[3 * g..] == b && Encode(b)[4 * g..] == Encode(b);
      hide Encode, StandsFor, StandsForLast;
    }
  }

  lemma GroupCount(b: seq<byte>, s: string)
    requires Encodes(b, s, 0)
    ensures |s| == (|b| + 2) / 3 * 4
  {
    hide StandsFor, StandsForLast;
  }

  lemma FirstGroup(b: seq<byte>, head: string, rest: string)
    requires |b| >= 3 && head == Group(b[0], b[1], b[2]) && |rest| == (|b| - 1) / 3 * 4
    ensures Encodes(b, head + rest, 0)
  {
    hide StandsFor, StandsForLast, Bits;
    GroupStands(b[0], b[1], b[2]);
    hide Group;
    var s := head + rest;
    assert s[0..4] == head;
  }

  lemma LaterGroup(b: seq<byte>, head: string, rest: string, g: nat)
    requires |b| >= 3 && |head| == 4 && g > 0 && Encodes(b[3..], rest, g - 1)
    ensures Encodes(b, head + rest, g)
  {
    hide StandsFor, StandsForLast;
    if 3 * g < |b| {
      Shifted(head, rest, 4 * (g - 1));
      assert b[3..][3 * (g - 1)..] == b[3 * g..];
    }
  }

  lemma LastStands(b: seq<byte>)
    requires 1 <= |b| <= 2
    ensures |Encode(b)| == 4 && StandsForLast(Encode(b), b)
  {
    if |b| == 1 {
      OneStands(b[0]);
    } else {
      TwoStand(b[0], b[1]);
    }
    hide Symbol, First, Second, Third, Fourth, StandsForLast;
    assert b == if |b| == 1 then [b[0]] else [b[0], b[1]];
  }

  lemma OneStands(x: byte)
    ensures StandsForLast([Symbol(First(x)), Symbol(Second(x, 0)), '=', '='], [x])
  {
    GroupBits(x, 0, 0);
    InTable(x, 0, 0);
    hide Symbol, First, Second, Third, Fourth, TABLE;
  }

  lemma TwoStand(x: byte, y: byte)
    ensures StandsForLast([Symbol(First(x)), Symbol(Second(x, y)), Symbol(Third(y, 0)), '='], [x, y])
  {
    GroupBits(x, y, 0);
    InTable(x, y, 0);
    hide Symbol, First, Second, Third, Fourth, TABLE;
  }

  function Group(x: byte, y: byte, z: byte): (s: string)
    ensures |s| == 4
  {
    [Symbol(First(x)), Symbol(Second(x, y)), Symbol(Third(y, z)), Symbol(Fourth(z))]
  }

  lemma GroupStands(x: byte, y: byte, z: byte)
    ensures StandsFor(Group(x, y, z), Bits(x, y, z))
  {
    GroupBits(x, y, z);
    InTable(x, y, z);
    hide Symbol, First, Second, Third, Fourth, TABLE;
  }

  lemma InTable(x: byte, y: byte, z: byte)
    ensures TABLE[First(x)] == Symbol(First(x)) && TABLE[Second(x, y)] == Symbol(Second(x, y))
    ensures TABLE[Third(y, z)] == Symbol(Third(y, z)) && TABLE[Fourth(z)] == Symbol(Fourth(z))
  {
    SymbolInTable(First(x));
    SymbolInTable(Second(x, y));
    SymbolInTable(Third(y, z));
    SymbolInTable(Fourth(z));
  }

  lemma Shifted(head: string, rest: string, i: nat)
    requires |head| == 4 && i <= |rest|
    ensures (head + rest)[i + 4..] == rest[i..]
    ensures i + 4 <= |rest| ==> (head + rest)[i + 4..i + 8] == rest[i..i + 4]
  {
  }
}
