/** UTF-8 as `str.encode` and strict `bytes.decode` compute it. */
module Utf8 {
  import opened Prelude

  newtype byte = x: int | 0 <= x < 256

  /** `n` is a Unicode scalar value. */
  predicate Scalar(n: int) { 0 <= n < 0xD800 || 0xE000 <= n < 0x11_0000 }

  predicate Tail(b: byte) { 0x80 <= b < 0xC0 }

  function EncodeChar(c: char): (r: seq<byte>)
    ensures 1 <= |r| <= 4
  {
    var n := c as int;
    if n < 0x80 then [n as byte]
    else if n < 0x800 then [(0xC0 + n / 64) as byte, (0x80 + n % 64) as byte]
    else if n < 0x1_0000 then [(0xE0 + n / 4096) as byte, (0x80 + n / 64 % 64) as byte, (0x80 + n % 64) as byte]
    else [(0xF0 + n / 262144) as byte, (0x80 + n / 4096 % 64) as byte, (0x80 + n / 64 % 64) as byte, (0x80 + n % 64) as byte]
  }

  /** A byte's bits after its marker: a lead byte of a form this long, or a continuation byte. */
  function LeadBits(b: byte, length: nat): nat {
    b as int % (if length == 1 then 128 else if length == 2 then 32 else if length == 3 then 16 else 8)
  }

  function TailBits(b: byte): nat { b as int % 64 }

  /** The number spelled by a lead byte and the continuation bytes after it. */
  function Spelled(b: seq<byte>, length: nat): nat
    requires |b| > 0
  {
    if |b| == 1 then LeadBits(b[0], length) else Spelled(b[..|b| - 1], length) * 64 + TailBits(b[|b| - 1])
  }

  /** The lead byte's marker: 0, 110, 1110 or 11110 in binary. */
  predicate Marked(b: byte, length: nat) {
    if length == 1 then b < 0x80
    else if length == 2 then b as int / 32 == 6
    else if length == 3 then b as int / 16 == 14
    else b as int / 8 == 30
  }

  /** Bytes with the markers of their number, spelling `n`. */
  ghost predicate Spells(b: seq<byte>, n: nat) {
    1 <= |b| <= 4 && Marked(b[0], |b|) && (forall k | 1 <= k < |b| :: Tail(b[k])) && Spelled(b, |b|) == n
  }

  /** Section 3 of RFC 3629: the length by range, the markers, and the bits in order, most significant first. */
  lemma CharExactly(c: char)
    ensures var n, b := c as int, EncodeChar(c);
            Spells(b, n) && |b| == if n < 0x80 then 1 else if n < 0x800 then 2 else if n < 0x1_0000 then 3 else 4
  {
    var n := c as int;
    Digits(n);
    hide Spells;
    if n < 0x80 {
      OneSpells(n);
    } else if n < 0x800 {
      TwoSpell(n / 64, n % 64);
    } else if n < 0x1_0000 {
      ThreeSpell(n / 4096, n / 64 % 64, n % 64);
    } else {
      FourSpell(n / 262144, n / 4096 % 64, n / 64 % 64, n % 64);
    }
  }

  lemma OneSpells(n: nat)
    requires n < 0x80
    ensures Spells([n as byte], n)
  {
  }

  lemma TwoSpell(x: nat, y: nat)
    requires x < 32 && y < 64
    ensures Spells([(0xC0 + x) as byte, (0x80 + y) as byte], x * 64 + y)
  {
    var p, q := (0xC0 + x) as byte, (0x80 + y) as byte;
    assert [p, q][..1] == [p];
    assert Spelled([p, q], 2) == LeadBits(p, 2) * 64 + TailBits(q);
  }

  lemma ThreeSpell(x: nat, y: nat, z: nat)
    requires x < 16 && y < 64 && z < 64
    ensures Spells([(0xE0 + x) as byte, (0x80 + y) as byte, (0x80 + z) as byte], (x * 64 + y) * 64 + z)
  {
    var p, q, r := (0xE0 + x) as byte, (0x80 + y) as byte, (0x80 + z) as byte;
    assert [p, q, r][..2] == [p, q] && [p, q][..1] == [p];
    assert Spelled([p, q], 3) == LeadBits(p, 3) * 64 + TailBits(q);
  }

  lemma FourSpell(x: nat, y: nat, z: nat, w: nat)
    requires x < 8 && y < 64 && z < 64 && w < 64
    ensures Spells([(0xF0 + x) as byte, (0x80 + y) as byte, (0x80 + z) as byte, (0x80 + w) as byte], ((x * 64 + y) * 64 + z) * 64 + w)
  {
    var p, q, r, t := (0xF0 + x) as byte, (0x80 + y) as byte, (0x80 + z) as byte, (0x80 + w) as byte;
    assert [p, q, r, t][..3] == [p, q, r] && [p, q, r][..2] == [p, q] && [p, q][..1] == [p];
    assert Spelled([p, q], 4) == LeadBits(p, 4) * 64 + TailBits(q);
    assert Spelled([p, q, r], 4) == Spelled([p, q], 4) * 64 + TailBits(r);
  }

  function Encode(s: string): seq<byte> {
    if s == "" then [] else EncodeChar(s[0]) + Encode(s[1..])
  }

  /** The first character and its width: shortest form only, scalar values only. */
  function DecodeChar(b: seq<byte>): (r: Option<(char, nat)>)
    ensures r.Some? ==> 1 <= r.value.1 <= |b|
  {
    if b == [] then None
    else
      var n := b[0] as int;
      if n < 0x80 then Some((n as char, 1))
      else if 0xC2 <= n < 0xE0 && |b| >= 2 && Tail(b[1]) then Some((((n - 0xC0) * 64 + b[1] as int - 0x80) as char, 2))
      else if 0xE0 <= n < 0xF0 && |b| >= 3 && Tail(b[1]) && Tail(b[2]) then
        var v := (n - 0xE0) * 4096 + (b[1] as int - 0x80) * 64 + b[2] as int - 0x80;
        if v >= 0x800 && Scalar(v) then Some((v as char, 3)) else None
      else if 0xF0 <= n < 0xF8 && |b| >= 4 && Tail(b[1]) && Tail(b[2]) && Tail(b[3]) then
        var v := (n - 0xF0) * 262144 + (b[1] as int - 0x80) * 4096 + (b[2] as int - 0x80) * 64 + b[3] as int - 0x80;
        if v >= 0x1_0000 && Scalar(v) then Some((v as char, 4)) else None
      else None
  }

  function Decode(b: seq<byte>): Option<string>
    decreases |b|
  {
    if b == [] then Some("")
    else
      match DecodeChar(b)
      case None => None
      case Some((c, n)) =>
        match Decode(b[n..])
        case None => None
        case Some(rest) => Some([c] + rest)
  }

  lemma CharThenRest(c: char, rest: seq<byte>)
    ensures DecodeChar(EncodeChar(c) + rest) == Some((c, |EncodeChar(c)|))
  {
    var n := c as int;
    Digits(n);
    var b := EncodeChar(c) + rest;
    assert forall k | 0 <= k < |EncodeChar(c)| :: b[k] == EncodeChar(c)[k];
  }

  /** Base-64 digits of a scalar value. */
  lemma Digits(n: int)
    requires 0 <= n < 0x11_0000
    ensures n == n / 64 * 64 + n % 64
    ensures n / 64 == n / 4096 * 64 + n / 64 % 64
    ensures n / 4096 == n / 262144 * 64 + n / 4096 % 64
    ensures n < 0x800 ==> n / 64 < 32
    ensures n < 0x1_0000 ==> n / 4096 < 16
    ensures n / 262144 < 8
  {
  }

  lemma {:induction false} RoundTrip(s: string)
    ensures Decode(Encode(s)) == Some(s)
  {
    if s != "" {
      var head, rest := EncodeChar(s[0]), Encode(s[1..]);
      CharThenRest(s[0], rest);
      RoundTrip(s[1..]);
      assert (head + rest)[|head|..] == rest && s == [s[0]] + s[1..];
    }
  }

  lemma DecodedChar(b: seq<byte>)
    requires DecodeChar(b).Some?
    ensures var (c, n) := DecodeChar(b).value;
            EncodeChar(c) == b[..n]
  {
    var (c, n) := DecodeChar(b).value;
    if n <= 2 {
    } else if n == 3 {
      Regroup(b[0] as int - 0xE0, b[1] as int - 0x80, b[2] as int - 0x80);
    } else {
      Regroup((b[0] as int - 0xF0) * 64 + b[1] as int - 0x80, b[2] as int - 0x80, b[3] as int - 0x80);
    }
  }

  lemma Regroup(x: int, y: int, z: int)
    requires 0 <= x && 0 <= y < 64 && 0 <= z < 64
    ensures var n := x * 4096 + y * 64 + z;
            n / 4096 == x && n / 64 % 64 == y && n % 64 == z && n / 262144 == x / 64
  {
    var n := x * 4096 + y * 64 + z;
    assert n / 64 == x * 64 + y;
  }

  /** Decoding is exactly the inverse: nothing but a string's own encoding decodes to it. */
  lemma {:induction false} DecodeExactly(b: seq<byte>, s: string)
    ensures Decode(b) == Some(s) <==> b == Encode(s)
    decreases |b|
  {
    RoundTrip(s);
    if Decode(b) == Some(s) && b != [] {
      var (c, n) := DecodeChar(b).value;
      DecodedChar(b);
      DecodeExactly(b[n..], s[1..]);
      assert b == b[..n] + b[n..];
    }
  }

  /** ASCII text is its own encoding. */
  lemma {:induction false} AsciiIsItself(s: string)
    requires forall i | 0 <= i < |s| :: s[i] as int < 0x80
    ensures |Encode(s)| == |s| && forall i | 0 <= i < |s| :: Encode(s)[i] as int == s[i] as int
  {
    if s != "" {
      AsciiIsItself(s[1..]);
      assert Encode(s) == [s[0] as int as byte] + Encode(s[1..]);
    }
  }
}
