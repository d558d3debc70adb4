/** Bytes, ASCII letters and well-formed UTF-8. */
module Encoding {
  type Byte = b: int | 0 <= b < 256

  type Bytes = seq<Byte>

  const NEWLINE: Byte := 10

  function LowerChar(c: char): char {
    if 'A' <= c <= 'Z' then (c as int + 32) as char else c
  }

  /** Lower-casing identifies the two cases of an ASCII letter, and nothing else. */
  lemma CasesOfALetter(c: char, d: char)
    ensures LowerChar(c) == LowerChar(d) <==>
            || c == d
            || ('A' <= c <= 'Z' && d as int == c as int + 32) || ('A' <= d <= 'Z' && c as int == d as int + 32)
  {
  }

  predicate Continuation(b: Byte) {
    0x80 <= b <= 0xBF
  }

  /** The length of the well-formed UTF-8 sequence that the bytes start with, zero if there is none. */
  function SequenceLength(s: Bytes): (n: nat)
    ensures n <= 4 && n <= |s|
  {
    if |s| >= 1 && s[0] < 0x80 then 1
    else if |s| >= 2 && 0xC2 <= s[0] <= 0xDF && Continuation(s[1]) then 2
    else if |s| >= 3 && Continuation(s[1]) && Continuation(s[2]) &&
            ((s[0] == 0xE0 && s[1] >= 0xA0) || 0xE1 <= s[0] <= 0xEC || (s[0] == 0xED && s[1] <= 0x9F) ||
             0xEE <= s[0] <= 0xEF) then 3
    else if |s| >= 4 && Continuation(s[1]) && Continuation(s[2]) && Continuation(s[3]) &&
            ((s[0] == 0xF0 && s[1] >= 0x90) || 0xF1 <= s[0] <= 0xF3 || (s[0] == 0xF4 && s[1] <= 0x8F)) then 4
    else 0
  }

  predicate Utf8(s: Bytes) {
    s == [] || (SequenceLength(s) > 0 && Utf8(s[SequenceLength(s)..]))
  }

  /** A Unicode scalar value: a code point that is no surrogate. */
  predicate Scalar(c: nat) {
    c < 0xD800 || 0xE000 <= c <= 0x10FFFF
  }

  /** The encoding of one scalar value, as in section 3 of RFC 3629. */
  function Encode(c: nat): (s: Bytes)
    requires Scalar(c)
    ensures 1 <= |s| <= 4
  {
    if c < 0x80 then [c]
    else if c < 0x800 then [0xC0 + c / 64, 0x80 + c % 64]
    else if c < 0x10000 then [0xE0 + c / 4096, 0x80 + c / 64 % 64, 0x80 + c % 64]
    else [0xF0 + c / 262144, 0x80 + c / 4096 % 64, 0x80 + c / 64 % 64, 0x80 + c % 64]
  }

  function EncodeAll(cs: seq<nat>): Bytes
    requires forall c :: c in cs ==> Scalar(c)
  {
    if cs == [] then [] else Encode(cs[0]) + EncodeAll(cs[1..])
  }

  /** Base 64: the value of two to four digits. */
  function Base64(a: nat, b: nat): nat {
    a * 64 + b
  }

  lemma LastDigit(a: nat, b: nat)
    requires b < 64
    ensures Base64(a, b) / 64 == a && Base64(a, b) % 64 == b
  {
  }

  lemma DigitsOf(a: nat, b: nat, c: nat, d: nat)
    requires b < 64 && c < 64 && d < 64
    ensures var n := Base64(Base64(Base64(a, b), c), d);
            n / 262144 == a && n / 4096 % 64 == b && n / 64 % 64 == c && n % 64 == d
  {
    var ab := Base64(a, b);
    var abc := Base64(ab, c);
    var n := Base64(abc, d);
    LastDigit(a, b);
    LastDigit(ab, c);
    LastDigit(abc, d);
    assert n / 4096 == n / 64 / 64 && n / 262144 == n / 64 / 64 / 64;
  }

  /** The scalar value that a well-formed sequence encodes. */
  lemma Decode(s: Bytes) returns (c: nat)
    requires SequenceLength(s) > 0
    ensures Scalar(c) && Encode(c) == s[..SequenceLength(s)]
  {
    match SequenceLength(s) {
      case 1 => c := s[0];
      case 2 => c := TwoBytes(s[0] - 0xC0, s[1] - 0x80);
      case 3 => c := ThreeBytes(s[0] - 0xE0, s[1] - 0x80, s[2] - 0x80);
      case _ => c := FourBytes(s[0] - 0xF0, s[1] - 0x80, s[2] - 0x80, s[3] - 0x80);
    }
  }

  lemma TwoBytes(a: nat, b: nat) returns (c: nat)
    requires 2 <= a < 32 && b < 64
    ensures Scalar(c) && Encode(c) == [0xC0 + a, 0x80 + b]
  {
    c := Base64(a, b);
    LastDigit(a, b);
  }

  lemma ThreeBytes(a: nat, b: nat, d: nat) returns (c: nat)
    requires a < 16 && b < 64 && d < 64 && (a == 0 ==> b >= 32) && (a == 13 ==> b < 32)
    ensures Scalar(c) && Encode(c) == [0xE0 + a, 0x80 + b, 0x80 + d]
  {
    c := Base64(Base64(a, b), d);
    DigitsOf(0, a, b, d);
  }

  lemma FourBytes(a: nat, b: nat, d: nat, e: nat) returns (c: nat)
    requires a < 5 && b < 64 && d < 64 && e < 64 && (a == 0 ==> b >= 16) && (a == 4 ==> b < 16)
    ensures Scalar(c) && Encode(c) == [0xF0 + a, 0x80 + b, 0x80 + d, 0x80 + e]
  {
    c := Base64(Base64(Base64(a, b), d), e);
    DigitsOf(a, b, d, e);
  }

  lemma EncodedIsASequence(c: nat, rest: Bytes)
    requires Scalar(c)
    ensures SequenceLength(Encode(c) + rest) == |Encode(c)|
  {
  }

  /** Well-formed bytes are exactly the encodings of sequences of scalar values. */
  lemma Utf8IsEncodedText(s: Bytes)
    ensures Utf8(s) <==> exists cs: seq<nat> :: (forall c :: c in cs ==> Scalar(c)) && s == EncodeAll(cs)
  {
    if Utf8(s) {
      var cs := TextOf(s);
    }
    forall cs: seq<nat> | (forall c :: c in cs ==> Scalar(c)) && s == EncodeAll(cs) ensures Utf8(s) {
      EncodedIsUtf8(cs);
    }
  }

  lemma {:induction false} TextOf(s: Bytes) returns (cs: seq<nat>)
    requires Utf8(s)
    ensures (forall c :: c in cs ==> Scalar(c)) && s == EncodeAll(cs)
    decreases |s|
  {
    hide SequenceLength, Encode;
    if s == [] {
      cs := [];
    } else {
      var n := SequenceLength(s);
      var c := Decode(s);
      var rest := TextOf(s[n..]);
      cs := [c] + rest;
      assert s == s[..n] + s[n..] && cs[1..] == rest;
    }
  }

  lemma {:induction false} EncodedIsUtf8(cs: seq<nat>)
    requires forall c :: c in cs ==> Scalar(c)
    ensures Utf8(EncodeAll(cs))
  {
    hide SequenceLength, Encode;
    if cs != [] {
      var rest := EncodeAll(cs[1..]);
      EncodedIsASequence(cs[0], rest);
      EncodedIsUtf8(cs[1..]);
      assert (Encode(cs[0]) + rest)[|Encode(cs[0])|..] == rest;
    }
  }

  lemma SequenceStays(a: Bytes, b: Bytes)
    requires SequenceLength(a) > 0
    ensures SequenceLength(a + b) == SequenceLength(a)
  {
  }

  lemma {:induction false} Utf8Append(a: Bytes, b: Bytes)
    requires Utf8(a)
    ensures Utf8(a + b) <==> Utf8(b)
    decreases |a|
  {
    hide SequenceLength;
    if a == [] {
      assert a + b == b;
    } else {
      var n := SequenceLength(a);
      SequenceStays(a, b);
      Utf8Append(a[n..], b);
      assert (a + b)[n..] == a[n..] + b;
    }
  }

  predicate EndsLine(s: Bytes) {
    s != [] && s[|s| - 1] == NEWLINE
  }

  /** No character contains a newline byte: text cut after a newline is text. */
  lemma {:induction false} Utf8Cut(a: Bytes, b: Bytes)
    requires EndsLine(a) && Utf8(a + b)
    ensures Utf8(a)
    decreases |a|
  {
    var n := SequenceLength(a + b);
    assert n <= |a| by {
      assert (a + b)[|a| - 1] == NEWLINE;
    }
    assert SequenceLength(a) == n;
    assert (a + b)[n..] == a[n..] + b;
    if n < |a| {
      Utf8Cut(a[n..], b);
    }
  }
}
