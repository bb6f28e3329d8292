/** UTF-8, as System.Text.Encoding.UTF8 applies it: GetBytes encodes each
    Unicode scalar value in one to four bytes; GetString decodes, replacing
    every maximal ill-formed subpart by U+FFFD (Unicode 15, section 3.9,
    table 3-7 and "U+FFFD Substitution of Maximal Subparts").
    A Dafny char is a Unicode scalar value, so every Dafny string is a
    well-formed Unicode string and GetBytes never meets a lone surrogate. */
module Utf8 {
  import opened Bytes

  predicate IsContinuation(b: byte) {
    0x80 <= b <= 0xBF
  }

  /** The bytes that encode one scalar value. */
  function EncodeScalar(c: char): (r: seq<byte>)
    ensures 1 <= |r| <= 4
    ensures |r| == 1 <==> c as int < 0x80
  {
    var n := c as int;
    if n < 0x80 then [n]
    else if n < 0x800 then [0xC0 + n / 0x40, 0x80 + n % 0x40]
    else if n < 0x10000 then [0xE0 + n / 0x1000, 0x80 + (n / 0x40) % 0x40, 0x80 + n % 0x40]
    else [0xF0 + n / 0x40000, 0x80 + (n / 0x1000) % 0x40, 0x80 + (n / 0x40) % 0x40, 0x80 + n % 0x40]
  }

  /** Encoding.UTF8.GetBytes. */
  function Encode(s: string): (b: seq<byte>)
    ensures |s| <= |b| <= 4 * |s|
  {
    if s == [] then [] else EncodeScalar(s[0]) + Encode(s[1..])
  }

  /** The length of the well-formed sequence that a lead byte starts, or 0
      for a byte that starts none (a continuation byte, C0, C1, F5..FF). */
  function SequenceLength(lead: byte): (n: nat)
    ensures n <= 4
  {
    if lead < 0x80 then 1
    else if 0xC2 <= lead <= 0xDF then 2
    else if 0xE0 <= lead <= 0xEF then 3
    else if 0xF0 <= lead <= 0xF4 then 4
    else 0
  }

  /** The bounds table 3-7 places on the byte after a lead byte; they rule
      out over-long forms, surrogates and values above U+10FFFF. */
  function SecondLow(lead: byte): byte {
    if lead == 0xE0 then 0xA0 else if lead == 0xF0 then 0x90 else 0x80
  }

  function SecondHigh(lead: byte): byte {
    if lead == 0xED then 0x9F else if lead == 0xF4 then 0x8F else 0xBF
  }

  /** How many leading bytes of b begin a well-formed sequence: the whole
      sequence when it is complete, otherwise its maximal subpart; 0 when
      b[0] leads no sequence at all. */
  function ValidPrefix(b: seq<byte>): (k: nat)
    requires b != []
    ensures k <= SequenceLength(b[0]) && k <= |b|
    ensures SequenceLength(b[0]) > 0 ==> k >= 1
  {
    var len := SequenceLength(b[0]);
    if len == 0 then 0
    else if len == 1 || |b| < 2 || !(SecondLow(b[0]) <= b[1] <= SecondHigh(b[0])) then 1
    else if len == 2 || |b| < 3 || !IsContinuation(b[2]) then 2
    else if len == 3 || |b| < 4 || !IsContinuation(b[3]) then 3
    else 4
  }

  /** b is exactly one complete well-formed sequence. */
  predicate IsSequence(b: seq<byte>) {
    b != [] && SequenceLength(b[0]) == |b| && ValidPrefix(b) == |b|
  }

  /** The scalar value of one well-formed sequence. */
  function DecodeSequence(b: seq<byte>): char
    requires IsSequence(b)
  {
    var b0: int := b[0];
    if |b| == 1 then b0 as char
    else
      var b1: int := b[1];
      if |b| == 2 then ((b0 - 0xC0) * 0x40 + (b1 - 0x80)) as char
      else
        var b2: int := b[2];
        if |b| == 3 then ((b0 - 0xE0) * 0x1000 + (b1 - 0x80) * 0x40 + (b2 - 0x80)) as char
        else
          var b3: int := b[3];
          ((b0 - 0xF0) * 0x40000 + (b1 - 0x80) * 0x1000 + (b2 - 0x80) * 0x40 + (b3 - 0x80)) as char
  }

  const Replacement: char := '\U{FFFD}'

  /** Encoding.UTF8.GetString: never fails; ill-formed input yields U+FFFD. */
  function Decode(b: seq<byte>): (s: string)
    ensures |s| <= |b|
    decreases |b|
  {
    if b == [] then []
    else
      var len := SequenceLength(b[0]);
      var k := ValidPrefix(b);
      if len > 0 && k == len then [DecodeSequence(b[..len])] + Decode(b[len..])
      else [Replacement] + Decode(b[if k == 0 then 1 else k..])
  }

  lemma EncodeScalarIsSequence(c: char)
    ensures IsSequence(EncodeScalar(c))
    ensures DecodeSequence(EncodeScalar(c)) == c
  {
    var n := c as int;
    if n < 0x80 {
    } else if n < 0x800 {
      assert n == (n / 0x40) * 0x40 + n % 0x40;
    } else if n < 0x10000 {
      ThreeByteSequence(n);
    } else {
      FourByteSequence(n);
    }
  }

  lemma ThreeByteSequence(n: int)
    requires 0x800 <= n < 0xD800 || 0xE000 <= n < 0x10000
    ensures var e := EncodeScalar(n as char); |e| == 3 && IsSequence(e) && DecodeSequence(e) == n as char
  {
    var q := n / 0x1000;
    var m := n % 0x1000;
    assert n == q * 0x1000 + m;
    assert (n / 0x40) % 0x40 == m / 0x40;
    assert m == (m / 0x40) * 0x40 + n % 0x40;
  }

  lemma FourByteSequence(n: int)
    requires 0x10000 <= n < 0x110000
    ensures var e := EncodeScalar(n as char); |e| == 4 && IsSequence(e) && DecodeSequence(e) == n as char
  {
    var q := n / 0x40000;
    var m := n % 0x40000;
    assert n == q * 0x40000 + m;
    assert (n / 0x1000) % 0x40 == m / 0x1000;
    var m2 := m % 0x1000;
    assert m == (m / 0x1000) * 0x1000 + m2;
    assert (n / 0x40) % 0x40 == m2 / 0x40;
    assert m2 == (m2 / 0x40) * 0x40 + n % 0x40;
  }

  lemma DecodeEncodedScalar(c: char, rest: seq<byte>)
    ensures Decode(EncodeScalar(c) + rest) == [c] + Decode(rest)
  {
    var e := EncodeScalar(c);
    var b := e + rest;
    EncodeScalarIsSequence(c);
    assert b[..|e|] == e;
    assert b[|e|..] == rest;
    assert ValidPrefix(b) == ValidPrefix(e);
  }

  /** GetString undoes GetBytes on every string. */
  lemma {:induction false} DecodeEncode(s: string)
    ensures Decode(Encode(s)) == s
  {
    if s != [] {
      DecodeEncodedScalar(s[0], Encode(s[1..]));
      DecodeEncode(s[1..]);
    }
  }

  /** Distinct strings never share an encoding. */
  lemma EncodeInjective(s: string, t: string)
    requires Encode(s) == Encode(t)
    ensures s == t
  {
    DecodeEncode(s);
    DecodeEncode(t);
  }
}
