/**
 The UTF-8 codec tools/gen_unicode_data.py emits. Decoding is the inverse of encoding, and the byte strings
 it accepts are those of the grammar in section 4 of RFC 3629. Shifts and masks of unsigned values are
 written as divisions and remainders.
 */
module Utf8 {

  const REPLACEMENT := 0xFFFD

  type Byte = b: int | 0 <= b < 256 witness 0

  predicate IsScalar(cp: nat) {
    cp <= 0x10FFFF && !(0xD800 <= cp <= 0xDFFF)
  }

  // ----- the grammar: UTF8-1 to UTF8-4 of RFC 3629, section 4 -----

  predicate Tail(b: Byte) { 0x80 <= b <= 0xBF }

  predicate Char2(b0: Byte, b1: Byte) { 0xC2 <= b0 <= 0xDF && Tail(b1) }

  predicate Char3(b0: Byte, b1: Byte, b2: Byte) {
    Tail(b1) && Tail(b2) &&
    (|| (b0 == 0xE0 && 0xA0 <= b1)
     || 0xE1 <= b0 <= 0xEC
     || (b0 == 0xED && b1 <= 0x9F)
     || 0xEE <= b0 <= 0xEF)
  }

  predicate Char4(b0: Byte, b1: Byte, b2: Byte, b3: Byte) {
    Tail(b1) && Tail(b2) && Tail(b3) &&
    (|| (b0 == 0xF0 && 0x90 <= b1)
     || 0xF1 <= b0 <= 0xF3
     || (b0 == 0xF4 && b1 <= 0x8F))
  }

  predicate Utf8Char(b: seq<Byte>) {
    || (|b| == 1 && b[0] <= 0x7F)
    || (|b| == 2 && Char2(b[0], b[1]))
    || (|b| == 3 && Char3(b[0], b[1], b[2]))
    || (|b| == 4 && Char4(b[0], b[1], b[2], b[3]))
  }

  /** UTF8-octets: a sequence of characters. */
  ghost predicate Utf8Octets(s: seq<Byte>) {
    s == [] || exists n :: 1 <= n <= |s| && Utf8Char(s[..n]) && Utf8Octets(s[n..])
  }

  // ----- encoding -----

  /** The encoding of a scalar value. */
  function Encode(cp: nat): (r: seq<Byte>)
    requires IsScalar(cp)
    ensures 1 <= |r| <= 4
  {
    if cp < 0x80 then [cp]
    else if cp < 0x800 then [0xC0 + cp / 64, 0x80 + cp % 64]
    else if cp < 0x10000 then [0xE0 + cp / 4096, 0x80 + cp / 64 % 64, 0x80 + cp % 64]
    else [0xF0 + cp / 262144, 0x80 + cp / 4096 % 64, 0x80 + cp / 64 % 64, 0x80 + cp % 64]
  }

  function Replaced(cp: nat): (r: nat)
    ensures IsScalar(r) && r == if cp > 0x10FFFF || 0xD800 <= cp <= 0xDFFF then 0xFFFD else cp
  {
    if IsScalar(cp) then cp else REPLACEMENT
  }

  /** EncodeUtf8: appends the encoding, of U+FFFD for what is no scalar value. */
  method EncodeUtf8(cp: nat, out: seq<Byte>) returns (r: seq<Byte>)
    ensures r == out + Encode(Replaced(cp))
  {
    var c := cp;
    if c > 0x10FFFF || (c >= 0xD800 && c <= 0xDFFF) { c := 0xFFFD; }
    r := out;
    if c < 0x80 {
      r := r + [c];
    } else if c < 0x800 {
      r := r + [0xC0 + c / 64];
      r := r + [0x80 + c % 64];
    } else if c < 0x10000 {
      r := r + [0xE0 + c / 4096];
      r := r + [0x80 + c / 64 % 64];
      r := r + [0x80 + c % 64];
    } else {
      r := r + [0xF0 + c / 262144];
      r := r + [0x80 + c / 4096 % 64];
      r := r + [0x80 + c / 64 % 64];
      r := r + [0x80 + c % 64];
    }
  }

  /** The values of the payload bits. */
  function Value2(b0: int, b1: int): int { b0 % 32 * 64 + b1 % 64 }

  function Value3(b0: int, b1: int, b2: int): int { b0 % 16 * 4096 + b1 % 64 * 64 + b2 % 64 }

  function Value4(b0: int, b1: int, b2: int, b3: int): int { b0 % 8 * 262144 + b1 % 64 * 4096 + b2 % 64 * 64 + b3 % 64 }

  function Value(b: seq<Byte>): int
    requires Utf8Char(b)
  {
    if |b| == 1 then b[0] else if |b| == 2 then Value2(b[0], b[1])
    else if |b| == 3 then Value3(b[0], b[1], b[2]) else Value4(b[0], b[1], b[2], b[3])
  }

  lemma Encode2(cp: int)
    requires 0x80 <= cp < 0x800
    ensures Char2(0xC0 + cp / 64, 0x80 + cp % 64) && Value2(0xC0 + cp / 64, 0x80 + cp % 64) == cp
  {
    assert (0xC0 + cp / 64) % 32 == cp / 64 && (0x80 + cp % 64) % 64 == cp % 64;
  }

  lemma Digits3(cp: int)
    requires 0 <= cp
    ensures cp == cp / 4096 * 4096 + cp / 64 % 64 * 64 + cp % 64 && cp / 4096 == cp / 64 / 64
  {
  }

  lemma Encode3(cp: int)
    requires 0x800 <= cp < 0x10000 && !(0xD800 <= cp <= 0xDFFF)
    ensures Char3(0xE0 + cp / 4096, 0x80 + cp / 64 % 64, 0x80 + cp % 64)
    ensures Value3(0xE0 + cp / 4096, 0x80 + cp / 64 % 64, 0x80 + cp % 64) == cp
  {
    Digits3(cp);
    var d2, d1, d0 := cp / 4096, cp / 64 % 64, cp % 64;
    assert (0xE0 + d2) % 16 == d2 && (0x80 + d1) % 64 == d1 && (0x80 + d0) % 64 == d0;
  }

  lemma Digits4(cp: int)
    requires 0 <= cp
    ensures cp == cp / 262144 * 262144 + cp / 4096 % 64 * 4096 + cp / 64 % 64 * 64 + cp % 64
  {
    Digits3(cp);
    assert cp / 4096 / 64 == cp / 262144;
  }

  lemma Encode4(cp: int)
    requires 0x10000 <= cp <= 0x10FFFF
    ensures Char4(0xF0 + cp / 262144, 0x80 + cp / 4096 % 64, 0x80 + cp / 64 % 64, 0x80 + cp % 64)
    ensures Value4(0xF0 + cp / 262144, 0x80 + cp / 4096 % 64, 0x80 + cp / 64 % 64, 0x80 + cp % 64) == cp
  {
    Digits4(cp);
    var d3, d2, d1, d0 := cp / 262144, cp / 4096 % 64, cp / 64 % 64, cp % 64;
    assert (0xF0 + d3) % 8 == d3 && (0x80 + d2) % 64 == d2 && (0x80 + d1) % 64 == d1 && (0x80 + d0) % 64 == d0;
  }

  lemma Decode2(b0: Byte, b1: Byte)
    requires Char2(b0, b1)
    ensures var cp := Value2(b0, b1); 0x80 <= cp < 0x800 && 0xC0 + cp / 64 == b0 && 0x80 + cp % 64 == b1
  {
    assert b0 % 32 == b0 - 0xC0 && b1 % 64 == b1 - 0x80;
  }

  lemma Decode3(b0: Byte, b1: Byte, b2: Byte)
    requires Char3(b0, b1, b2)
    ensures var cp := Value3(b0, b1, b2);
            && 0x800 <= cp < 0x10000 && IsScalar(cp)
            && 0xE0 + cp / 4096 == b0 && 0x80 + cp / 64 % 64 == b1 && 0x80 + cp % 64 == b2
  {
    var d2, d1, d0 := b0 - 0xE0, b1 - 0x80, b2 - 0x80;
    assert b0 % 16 == d2 && b1 % 64 == d1 && b2 % 64 == d0;
    var cp := d2 * 4096 + d1 * 64 + d0;
    assert cp / 64 == d2 * 64 + d1 && cp % 64 == d0;
    Digits3(cp);
  }

  lemma Decode4(b0: Byte, b1: Byte, b2: Byte, b3: Byte)
    requires Char4(b0, b1, b2, b3)
    ensures var cp := Value4(b0, b1, b2, b3);
            && 0x10000 <= cp <= 0x10FFFF && 0xF0 + cp / 262144 == b0
            && 0x80 + cp / 4096 % 64 == b1 && 0x80 + cp / 64 % 64 == b2 && 0x80 + cp % 64 == b3
  {
    var d3, d2, d1, d0 := b0 - 0xF0, b1 - 0x80, b2 - 0x80, b3 - 0x80;
    assert b0 % 8 == d3 && b1 % 64 == d2 && b2 % 64 == d1 && b3 % 64 == d0;
    DigitsOf(d3, d2, d1, d0);
  }

  lemma DigitsOf(d3: int, d2: int, d1: int, d0: int)
    requires 0 <= d3 && 0 <= d2 < 64 && 0 <= d1 < 64 && 0 <= d0 < 64
    ensures var cp := d3 * 262144 + d2 * 4096 + d1 * 64 + d0;
            cp / 262144 == d3 && cp / 4096 % 64 == d2 && cp / 64 % 64 == d1 && cp % 64 == d0
  {
    var cp := d3 * 262144 + d2 * 4096 + d1 * 64 + d0;
    var q1 := d3 * 4096 + d2 * 64 + d1;
    var q2 := d3 * 64 + d2;
    assert cp == q1 * 64 + d0 && cp / 64 == q1 && cp % 64 == d0;
    assert cp == q2 * 4096 + (d1 * 64 + d0) && cp / 4096 == q2;
  }

  /** The encoding of a scalar value is one character of the grammar, and its value is what was encoded. */
  lemma EncodeIsChar(cp: nat)
    requires IsScalar(cp)
    ensures Utf8Char(Encode(cp)) && Value(Encode(cp)) == cp
  {
    hide Char2, Char3, Char4, Value2, Value3, Value4;
    if cp < 0x80 { }
    else if cp < 0x800 { Encode2(cp); }
    else if cp < 0x10000 { Encode3(cp); }
    else { Encode4(cp); }
  }

  /** Every character of the grammar is the encoding of its value, which is a scalar value. */
  lemma CharIsEncoding(b: seq<Byte>)
    requires Utf8Char(b)
    ensures Value(b) >= 0 && IsScalar(Value(b)) && Encode(Value(b)) == b
  {
    hide Char2, Char3, Char4, Value2, Value3, Value4;
    if |b| == 1 { }
    else if |b| == 2 { Decode2(b[0], b[1]); }
    else if |b| == 3 { Decode3(b[0], b[1], b[2]); }
    else { Decode4(b[0], b[1], b[2], b[3]); }
  }

  // ----- decoding -----

  /** The length the lead byte announces, 0 for a byte that cannot lead. */
  function LengthOf(b0: Byte): nat {
    if b0 < 0x80 then 1
    else if 0xC0 <= b0 < 0xE0 then 2
    else if 0xE0 <= b0 < 0xF0 then 3
    else if 0xF0 <= b0 < 0xF8 then 4 else 0
  }

  lemma CharLength(s: seq<Byte>, n: nat)
    requires 1 <= n <= |s| && Utf8Char(s[..n])
    ensures n == LengthOf(s[0])
  {
  }

  predicate Leads(s: seq<Byte>) {
    s != [] && 1 <= LengthOf(s[0]) <= |s| && Utf8Char(s[..LengthOf(s[0])])
  }

  /** One decoding step: the character s starts with, or U+FFFD for one byte. */
  function Step(s: seq<Byte>): (r: (nat, nat))
    requires s != []
    ensures 1 <= r.1 <= |s| && IsScalar(r.0)
    ensures Encode(r.0) == s[..r.1] || r == (0xFFFD, 1)
  {
    if Leads(s) then
      CharIsEncoding(s[..LengthOf(s[0])]);
      (Value(s[..LengthOf(s[0])]), LengthOf(s[0]))
    else (REPLACEMENT, 1)
  }

  /** A step yields a scalar value exactly when its encoding is at hand; otherwise one byte becomes U+FFFD. */
  lemma StepIsExact(s: seq<Byte>, cp: nat)
    requires s != [] && IsScalar(cp)
    ensures Encode(cp) <= s ==> Step(s) == (cp, |Encode(cp)|)
    ensures !(Encode(Step(s).0) <= s) ==> forall c: nat :: IsScalar(c) ==> !(Encode(c) <= s)
    ensures !(Encode(Step(s).0) <= s) ==> Step(s) == (0xFFFD, 1)
  {
    if Encode(cp) <= s { Found(s, cp); }
    if !(Encode(Step(s).0) <= s) {
      forall c: nat | IsScalar(c) ensures !(Encode(c) <= s) {
        if Encode(c) <= s { Found(s, c); }
      }
    }
  }

  lemma Found(s: seq<Byte>, cp: nat)
    requires s != [] && IsScalar(cp) && Encode(cp) <= s
    ensures Step(s) == (cp, |Encode(cp)|)
  {
    hide Value, Utf8Char, LengthOf, Encode;
    EncodeIsChar(cp);
    var n := |Encode(cp)|;
    assert s[..n] == Encode(cp);
    CharLength(s, n);
  }

  /** The tail of a sequence whose lead announces n bytes is well formed up to i. */
  ghost predicate TailsTo(s: seq<Byte>, pos: nat, i: nat)
    requires pos + i <= |s|
  {
    forall j :: pos < j < pos + i ==> Tail(s[j])
  }

  /** The payload read so far. */
  function Payload(s: seq<Byte>, pos: nat, first: int, i: nat): int
    requires 1 <= i && pos + i <= |s|
  {
    if i == 1 then first else Payload(s, pos, first, i - 1) * 64 + s[pos + i - 1] % 64
  }

  /** Range, overlong and surrogate checks accept exactly the characters of the grammar. */
  lemma Accepts(s: seq<Byte>, pos: nat, len: nat, first: int, least: int)
    requires 2 <= len <= 4 && pos + len <= |s| && TailsTo(s, pos, len) && LengthOf(s[pos]) == len
    requires first == s[pos] % (if len == 2 then 32 else if len == 3 then 16 else 8)
    requires least == if len == 2 then 0x80 else if len == 3 then 0x800 else 0x10000
    ensures var cp, b := Payload(s, pos, first, len), s[pos..pos + len];
            && cp >= 0
            && (Utf8Char(b) <==> least <= cp <= 0x10FFFF && !(0xD800 <= cp <= 0xDFFF))
            && (Utf8Char(b) ==> cp == Value(b))
  {
    hide Char2, Char3, Char4, Value2, Value3, Value4, Tail;
    PayloadOne(s, pos, first);
    PayloadNext(s, pos, first, 1);
    if len == 2 {
      Accepts2(s[pos], s[pos + 1]);
    } else {
      PayloadNext(s, pos, first, 2);
      if len == 3 {
        Accepts3(s[pos], s[pos + 1], s[pos + 2]);
      } else {
        PayloadNext(s, pos, first, 3);
        Accepts4(s[pos], s[pos + 1], s[pos + 2], s[pos + 3]);
      }
    }
    hide Payload;
  }

  lemma Accepts2(b0: Byte, b1: Byte)
    requires 0xC0 <= b0 < 0xE0 && Tail(b1)
    ensures var cp := b0 % 32 * 64 + b1 % 64; cp == Value2(b0, b1) && cp < 0x800 && (Char2(b0, b1) <==> 0x80 <= cp)
  {
    assert b0 % 32 == b0 - 0xC0 && b1 % 64 == b1 - 0x80;
  }

  lemma Accepts3(b0: Byte, b1: Byte, b2: Byte)
    requires 0xE0 <= b0 < 0xF0 && Tail(b1) && Tail(b2)
    ensures var cp := (b0 % 16 * 64 + b1 % 64) * 64 + b2 % 64;
            cp == Value3(b0, b1, b2) && cp < 0x10000
            && (Char3(b0, b1, b2) <==> 0x800 <= cp && !(0xD800 <= cp <= 0xDFFF))
  {
    var d0, d1, d2 := b0 - 0xE0, b1 - 0x80, b2 - 0x80;
    assert b0 % 16 == d0 && b1 % 64 == d1 && b2 % 64 == d2;
  }

  lemma Accepts4(b0: Byte, b1: Byte, b2: Byte, b3: Byte)
    requires 0xF0 <= b0 < 0xF8 && Tail(b1) && Tail(b2) && Tail(b3)
    ensures var cp := ((b0 % 8 * 64 + b1 % 64) * 64 + b2 % 64) * 64 + b3 % 64;
            cp == Value4(b0, b1, b2, b3) && cp >= 0 && (Char4(b0, b1, b2, b3) <==> 0x10000 <= cp <= 0x10FFFF)
  {
    var d0, d1, d2, d3 := b0 - 0xF0, b1 - 0x80, b2 - 0x80, b3 - 0x80;
    assert b0 % 8 == d0 && b1 % 64 == d1 && b2 % 64 == d2 && b3 % 64 == d3;
  }

  /** DecodeUtf8: the code point at pos and the position after it. */
  method DecodeUtf8(s: seq<Byte>, pos: nat) returns (cp: nat, next: nat)
    ensures pos >= |s| ==> cp == 0xFFFD && next == pos
    ensures pos < |s| ==> (cp, next - pos) == Step(s[pos..])
  {
    hide Payload, Utf8Char, Value;
    if pos >= |s| { return REPLACEMENT, pos; }
    var c0 := s[pos];
    if c0 < 0x80 {
      OneByte(s[pos..]);
      return c0, pos + 1;
    }
    var len: nat, first: nat, least: nat;
    if 0xC0 <= c0 < 0xE0 {
      len, first, least := 2, c0 % 32, 0x80;
    } else if 0xE0 <= c0 < 0xF0 {
      len, first, least := 3, c0 % 16, 0x800;
    } else if 0xF0 <= c0 < 0xF8 {
      len, first, least := 4, c0 % 8, 0x10000;
    } else {
      return REPLACEMENT, pos + 1;
    }
    if pos + len > |s| { return REPLACEMENT, pos + 1; }
    cp := first;
    PayloadOne(s, pos, first);
    for i := 1 to len
      invariant TailsTo(s, pos, i) && cp == Payload(s, pos, first, i)
    {
      var c := s[pos + i];
      if !(0x80 <= c < 0xC0) {
        BadTail(s, pos, len, i);
        return REPLACEMENT, pos + 1;
      }
      PayloadNext(s, pos, first, i);
      cp := cp * 64 + c % 64;
    }
    Accepts(s, pos, len, first, least);
    assert s[pos..][..len] == s[pos..pos + len];
    if cp < least || cp > 0x10FFFF || (cp >= 0xD800 && cp <= 0xDFFF) { return REPLACEMENT, pos + 1; }
    next := pos + len;
  }

  lemma PayloadOne(s: seq<Byte>, pos: nat, first: int)
    requires pos + 1 <= |s|
    ensures Payload(s, pos, first, 1) == first
  {
  }

  lemma PayloadNext(s: seq<Byte>, pos: nat, first: int, i: nat)
    requires 1 <= i && pos + i < |s|
    ensures Payload(s, pos, first, i + 1) == Payload(s, pos, first, i) * 64 + s[pos + i] % 64
  {
  }

  lemma OneByte(s: seq<Byte>)
    requires s != [] && s[0] < 0x80
    ensures Step(s) == (s[0], 1)
  {
  }

  lemma BadTail(s: seq<Byte>, pos: nat, len: nat, i: nat)
    requires pos + len <= |s| && 1 <= i < len && LengthOf(s[pos]) == len && !Tail(s[pos + i])
    ensures !Leads(s[pos..])
  {
    var b := s[pos..][..len];
    assert b[i] == s[pos + i];
  }

  // ----- whole strings -----

  function EncodeAll(cps: seq<nat>): seq<Byte>
    requires forall i :: 0 <= i < |cps| ==> IsScalar(cps[i])
  {
    if cps == [] then [] else Encode(cps[0]) + EncodeAll(cps[1..])
  }

  function DecodeAll(s: seq<Byte>): (r: seq<nat>)
    ensures forall i :: 0 <= i < |r| ==> IsScalar(r[i])
    decreases |s|
  {
    if s == [] then [] else [Step(s).0] + DecodeAll(s[Step(s).1..])
  }

  /** Decoding what was encoded gives the scalar values back. */
  lemma {:induction false} RoundTrip(cps: seq<nat>)
    requires forall i :: 0 <= i < |cps| ==> IsScalar(cps[i])
    ensures DecodeAll(EncodeAll(cps)) == cps
  {
    if cps != [] {
      hide Encode, Step;
      var e, s := Encode(cps[0]), EncodeAll(cps);
      assert e <= s;
      Found(s, cps[0]);
      assert s[|e|..] == EncodeAll(cps[1..]);
      RoundTrip(cps[1..]);
    }
  }

  lemma {:induction false} EncodedIsOctets(cps: seq<nat>)
    requires forall i :: 0 <= i < |cps| ==> IsScalar(cps[i])
    ensures Utf8Octets(EncodeAll(cps))
  {
    if cps != [] {
      hide Encode, Utf8Char;
      EncodeIsChar(cps[0]);
      EncodedIsOctets(cps[1..]);
      var e, s := Encode(cps[0]), EncodeAll(cps);
      assert s[..|e|] == e && s[|e|..] == EncodeAll(cps[1..]);
    }
  }

  /** Encoding what was decoded gives the bytes back exactly when they are UTF8-octets of RFC 3629. */
  lemma {:induction false} WellFormedIff(s: seq<Byte>)
    ensures EncodeAll(DecodeAll(s)) == s <==> Utf8Octets(s)
  {
    EncodedIsOctets(DecodeAll(s));
    if Utf8Octets(s) { OctetsRoundTrip(s); }
  }

  lemma {:induction false} OctetsRoundTrip(s: seq<Byte>)
    requires Utf8Octets(s)
    ensures EncodeAll(DecodeAll(s)) == s
    decreases |s|
  {
    if s != [] {
      hide *;
      var n := FirstChar(s);
      OctetsRoundTrip(s[n..]);
      Prepend(s, n);
    } else {
      EncodeNone();
    }
  }

  lemma Prepend(s: seq<Byte>, n: nat)
    requires s != [] && n <= |s| && Step(s).1 == n && Encode(Step(s).0) == s[..n]
    requires EncodeAll(DecodeAll(s[n..])) == s[n..]
    ensures EncodeAll(DecodeAll(s)) == s
  {
    hide *;
    DecodeCons(s);
    EncodeCons(Step(s).0, DecodeAll(s[n..]));
    assert s == s[..n] + s[n..];
  }

  lemma DecodeCons(s: seq<Byte>)
    requires s != []
    ensures DecodeAll(s) == [Step(s).0] + DecodeAll(s[Step(s).1..])
  {
    hide Step;
  }

  /** Octets start with a character, which is what a step takes. */
  lemma FirstChar(s: seq<Byte>) returns (n: nat)
    requires s != [] && Utf8Octets(s)
    ensures 1 <= n <= |s| && Utf8Octets(s[n..]) && Step(s).1 == n && IsScalar(Step(s).0) && Encode(Step(s).0) == s[..n]
  {
    n :| 1 <= n <= |s| && Utf8Char(s[..n]) && Utf8Octets(s[n..]);
    hide Utf8Char, Value, Encode, LengthOf, IsScalar, Utf8Octets;
    CharLength(s, n);
    CharIsEncoding(s[..n]);
  }

  lemma EncodeNone()
    ensures DecodeAll([]) == [] && EncodeAll([]) == []
  {
  }

  lemma EncodeCons(cp: nat, rest: seq<nat>)
    requires IsScalar(cp) && forall i :: 0 <= i < |rest| ==> IsScalar(rest[i])
    ensures EncodeAll([cp] + rest) == Encode(cp) + EncodeAll(rest)
  {
    hide Encode;
    assert ([cp] + rest)[1..] == rest;
  }
}
