/** base64url (section 5 of RFC 4648) as ASP.NET Core's WebEncoders applies
    it. Base64UrlEncode writes the URL- and filename-safe alphabet and drops
    the '=' padding. Base64UrlDecode rejects a length of 1 modulo 4, maps
    '-' and '_' back to '+' and '/', restores the padding and hands the text
    to Convert.FromBase64CharArray, which skips the white space ' ', TAB, CR
    and LF, accepts '=' only at the end of the last quantum and ignores the
    unused low bits of a final partial quantum. */
module Base64Url {
  import opened Wrappers
  import opened Bytes

  /** Every decoding failure surfaces as a System.FormatException. */
  datatype DecodeError = FormatError

  /** The character of 6-bit value v in the URL-safe alphabet (RFC 4648, table 2). */
  function UrlChar(v: nat): (c: char)
    requires v < 64
  {
    if v < 26 then (('A' as int) + v) as char
    else if v < 52 then (('a' as int) + v - 26) as char
    else if v < 62 then (('0' as int) + v - 52) as char
    else if v == 62 then '-'
    else '_'
  }

  /** c belongs to the URL-safe alphabet. */
  predicate IsUrlChar(c: char) {
    ('A' <= c <= 'Z') || ('a' <= c <= 'z') || ('0' <= c <= '9') || c == '-' || c == '_'
  }

  /** The 6-bit value of c in the standard alphabet (RFC 4648, table 1). */
  function StandardValue(c: char): (v: Option<nat>)
    ensures v.Some? ==> v.value < 64
  {
    if 'A' <= c <= 'Z' then Some(c as int - 'A' as int)
    else if 'a' <= c <= 'z' then Some(c as int - 'a' as int + 26)
    else if '0' <= c <= '9' then Some(c as int - '0' as int + 52)
    else if c == '+' then Some(62)
    else if c == '/' then Some(63)
    else None
  }

  /** The four characters of one full 3-byte group. */
  function EncodeGroup(b0: byte, b1: byte, b2: byte): (s: string)
    ensures |s| == 4
  {
    [UrlChar(b0 / 4), UrlChar((b0 % 4) * 16 + b1 / 16), UrlChar((b1 % 16) * 4 + b2 / 64), UrlChar(b2 % 64)]
  }

  /** The number of characters a trailing group of r bytes encodes to. */
  function TailLength(r: nat): nat {
    if r == 0 then 0 else if r == 1 then 2 else 3
  }

  /** WebEncoders.Base64UrlEncode. */
  function Encode(b: seq<byte>): (s: string)
    ensures |s| == 4 * (|b| / 3) + TailLength(|b| % 3)
    ensures forall i :: 0 <= i < |s| ==> IsUrlChar(s[i])
  {
    if |b| == 0 then ""
    else if |b| == 1 then [UrlChar(b[0] / 4), UrlChar((b[0] % 4) * 16)]
    else if |b| == 2 then [UrlChar(b[0] / 4), UrlChar((b[0] % 4) * 16 + b[1] / 16), UrlChar((b[1] % 16) * 4)]
    else EncodeGroup(b[0], b[1], b[2]) + Encode(b[3..])
  }

  function UrlToStandard(c: char): char {
    if c == '-' then '+' else if c == '_' then '/' else c
  }

  /** The character-by-character translation back to the standard alphabet. */
  function ToStandard(s: string): (t: string)
    ensures |t| == |s|
    ensures forall i :: 0 <= i < |s| ==> t[i] == UrlToStandard(s[i])
  {
    seq(|s|, i requires 0 <= i < |s| => UrlToStandard(s[i]))
  }

  /** The '=' characters Base64UrlDecode appends for an input of length n. */
  function Padding(n: nat): string {
    if n % 4 == 2 then "==" else if n % 4 == 3 then "=" else ""
  }

  /** The characters Convert.FromBase64CharArray skips. */
  predicate IsSpace(c: char) {
    c == ' ' || c == '\t' || c == '\r' || c == '\n'
  }

  function RemoveSpace(s: string): (t: string)
    ensures |t| <= |s|
    ensures forall i :: 0 <= i < |t| ==> !IsSpace(t[i])
  {
    if s == [] then []
    else if IsSpace(s[0]) then RemoveSpace(s[1..])
    else [s[0]] + RemoveSpace(s[1..])
  }

  /** The three bytes of four 6-bit values. */
  function Bytes3(v0: nat, v1: nat, v2: nat, v3: nat): (b: seq<byte>)
    requires v0 < 64 && v1 < 64 && v2 < 64 && v3 < 64
    ensures |b| == 3
  {
    [v0 * 4 + v1 / 16, (v1 % 16) * 16 + v2 / 4, (v2 % 4) * 64 + v3]
  }

  /** A quantum that is not the last one: four alphabet characters. */
  function DecodeFull(q: string): (r: Result<seq<byte>, DecodeError>)
    requires |q| == 4
    ensures r.Success? ==> |r.value| == 3
  {
    var v0, v1, v2, v3 := StandardValue(q[0]), StandardValue(q[1]), StandardValue(q[2]), StandardValue(q[3]);
    if v0.Some? && v1.Some? && v2.Some? && v3.Some? then Success(Bytes3(v0.value, v1.value, v2.value, v3.value))
    else Failure(FormatError)
  }

  /** The last quantum, which may end in "=" (two bytes) or "==" (one byte). */
  function DecodeFinal(q: string): (r: Result<seq<byte>, DecodeError>)
    requires |q| == 4
    ensures r.Success? ==> 1 <= |r.value| <= 3
  {
    var v0, v1, v2, v3 := StandardValue(q[0]), StandardValue(q[1]), StandardValue(q[2]), StandardValue(q[3]);
    if v0.None? || v1.None? then Failure(FormatError)
    else if v2.Some? && v3.Some? then Success(Bytes3(v0.value, v1.value, v2.value, v3.value))
    else if v2.Some? && q[3] == '=' then Success(Bytes3(v0.value, v1.value, v2.value, 0)[..2])
    else if q[2] == '=' && q[3] == '=' then Success(Bytes3(v0.value, v1.value, 0, 0)[..1])
    else Failure(FormatError)
  }

  function DecodeQuanta(u: string): (r: Result<seq<byte>, DecodeError>)
    requires |u| % 4 == 0
    decreases |u|
  {
    if u == [] then Success([])
    else if |u| == 4 then DecodeFinal(u)
    else
      match DecodeFull(u[..4])
      case Failure(e) => Failure(e)
      case Success(head) =>
        match DecodeQuanta(u[4..])
        case Failure(e) => Failure(e)
        case Success(tail) => Success(head + tail)
  }

  /** Convert.FromBase64CharArray. */
  function FromBase64(t: string): (r: Result<seq<byte>, DecodeError>) {
    var u := RemoveSpace(t);
    if |u| % 4 != 0 then Failure(FormatError) else DecodeQuanta(u)
  }

  /** WebEncoders.Base64UrlDecode. */
  function Decode(s: string): (r: Result<seq<byte>, DecodeError>)
    ensures |s| % 4 == 1 ==> r == Failure(FormatError)
  {
    if s == [] then Success([])
    else if |s| % 4 == 1 then Failure(FormatError)
    else FromBase64(ToStandard(s) + Padding(|s|))
  }

  // ---------------------------------------------------------------------
  // Round trip

  lemma UrlCharValue(v: nat)
    requires v < 64
    ensures StandardValue(UrlToStandard(UrlChar(v))) == Some(v)
  {
  }

  lemma GroupRoundTrip(b0: byte, b1: byte, b2: byte)
    ensures DecodeFull(ToStandard(EncodeGroup(b0, b1, b2))) == Success([b0, b1, b2])
    ensures DecodeFinal(ToStandard(EncodeGroup(b0, b1, b2))) == Success([b0, b1, b2])
  {
    var v0, v1, v2, v3 := b0 / 4, (b0 % 4) * 16 + b1 / 16, (b1 % 16) * 4 + b2 / 64, b2 % 64;
    UrlCharValue(v0);
    UrlCharValue(v1);
    UrlCharValue(v2);
    UrlCharValue(v3);
    assert v1 / 16 == b0 % 4 && v1 % 16 == b1 / 16;
    assert v2 / 4 == b1 % 16 && v2 % 4 == b2 / 64;
    assert Bytes3(v0, v1, v2, v3) == [b0, b1, b2];
  }

  lemma TwoByteRoundTrip(b0: byte, b1: byte)
    ensures DecodeFinal(ToStandard(Encode([b0, b1])) + "=") == Success([b0, b1])
  {
    var v0, v1, v2 := b0 / 4, (b0 % 4) * 16 + b1 / 16, (b1 % 16) * 4;
    UrlCharValue(v0);
    UrlCharValue(v1);
    UrlCharValue(v2);
    var q := ToStandard(Encode([b0, b1])) + "=";
    assert q[0] == UrlToStandard(UrlChar(v0)) && q[1] == UrlToStandard(UrlChar(v1));
    assert q[2] == UrlToStandard(UrlChar(v2)) && q[3] == '=';
    assert v1 / 16 == b0 % 4 && v1 % 16 == b1 / 16 && v2 / 4 == b1 % 16;
    assert Bytes3(v0, v1, v2, 0)[..2] == [b0, b1];
  }

  lemma OneByteRoundTrip(b0: byte)
    ensures DecodeFinal(ToStandard(Encode([b0])) + "==") == Success([b0])
  {
    var v0, v1 := b0 / 4, (b0 % 4) * 16;
    UrlCharValue(v0);
    UrlCharValue(v1);
    var q := ToStandard(Encode([b0])) + "==";
    assert q[0] == UrlToStandard(UrlChar(v0)) && q[1] == UrlToStandard(UrlChar(v1));
    assert q[2] == '=' && q[3] == '=';
    assert StandardValue('=') == None;
    assert v1 / 16 == b0 % 4;
    assert Bytes3(v0, v1, 0, 0)[..1] == [b0];
    assert DecodeFinal(q) == Success(Bytes3(v0, v1, 0, 0)[..1]);
  }

  lemma ToStandardAppend(s: string, t: string)
    ensures ToStandard(s + t) == ToStandard(s) + ToStandard(t)
  {
  }

  lemma EncodeUnfold(b: seq<byte>)
    requires |b| >= 3
    ensures Encode(b) == EncodeGroup(b[0], b[1], b[2]) + Encode(b[3..])
  {
  }

  lemma LastGroupRoundTrip(b: seq<byte>)
    requires |b| == 3
    ensures |ToStandard(Encode(b)) + Padding(|Encode(b)|)| == 4
    ensures DecodeQuanta(ToStandard(Encode(b)) + Padding(|Encode(b)|)) == Success(b)
  {
    GroupRoundTrip(b[0], b[1], b[2]);
    EncodeUnfold(b);
    assert Encode(b[3..]) == "";
    assert b == [b[0], b[1], b[2]];
    assert ToStandard(Encode(b)) + Padding(|Encode(b)|) == ToStandard(EncodeGroup(b[0], b[1], b[2]));
  }

  lemma ShortRoundTrip(b: seq<byte>)
    requires 1 <= |b| <= 2
    ensures |ToStandard(Encode(b)) + Padding(|Encode(b)|)| == 4
    ensures DecodeQuanta(ToStandard(Encode(b)) + Padding(|Encode(b)|)) == Success(b)
  {
    if |b| == 1 {
      OneByteRoundTrip(b[0]);
      assert b == [b[0]];
    } else {
      TwoByteRoundTrip(b[0], b[1]);
      assert b == [b[0], b[1]];
    }
  }

  lemma {:induction false} QuantaRoundTrip(b: seq<byte>)
    requires b != []
    ensures |ToStandard(Encode(b)) + Padding(|Encode(b)|)| % 4 == 0
    ensures DecodeQuanta(ToStandard(Encode(b)) + Padding(|Encode(b)|)) == Success(b)
  {
    if |b| <= 2 {
      ShortRoundTrip(b);
    } else if |b| == 3 {
      LastGroupRoundTrip(b);
    } else {
      QuantaRoundTrip(b[3..]);
      GroupThenRest(b);
    }
  }

  lemma ShiftByFour(n: nat)
    ensures (n + 4) % 4 == n % 4
    ensures Padding(n + 4) == Padding(n)
  {
  }

  /** A full quantum in front of further quanta decodes to its three bytes
      in front of theirs. */
  lemma QuantaCons(q: string, x: string, head: seq<byte>, tail: seq<byte>)
    requires |q| == 4 && |x| % 4 == 0 && x != []
    requires DecodeFull(q) == Success(head) && DecodeQuanta(x) == Success(tail)
    ensures |q + x| % 4 == 0
    ensures DecodeQuanta(q + x) == Success(head + tail)
  {
    ShiftByFour(|x|);
    assert (q + x)[..4] == q && (q + x)[4..] == x;
  }

  lemma PaddedAppend(g: string, rest: string)
    requires |g| == 4
    ensures ToStandard(g + rest) + Padding(|g + rest|) == ToStandard(g) + (ToStandard(rest) + Padding(|rest|))
  {
    ToStandardAppend(g, rest);
    ShiftByFour(|rest|);
  }

  /** One step of the induction: a full group in front of a non-empty rest. */
  lemma GroupThenRest(b: seq<byte>)
    requires |b| > 3
    requires |ToStandard(Encode(b[3..])) + Padding(|Encode(b[3..])|)| % 4 == 0
    requires DecodeQuanta(ToStandard(Encode(b[3..])) + Padding(|Encode(b[3..])|)) == Success(b[3..])
    ensures |ToStandard(Encode(b)) + Padding(|Encode(b)|)| % 4 == 0
    ensures DecodeQuanta(ToStandard(Encode(b)) + Padding(|Encode(b)|)) == Success(b)
  {
    var g := EncodeGroup(b[0], b[1], b[2]);
    var rest := Encode(b[3..]);
    var x := ToStandard(rest) + Padding(|rest|);
    GroupRoundTrip(b[0], b[1], b[2]);
    EncodeUnfold(b);
    PaddedAppend(g, rest);
    QuantaCons(ToStandard(g), x, [b[0], b[1], b[2]], b[3..]);
    assert [b[0], b[1], b[2]] + b[3..] == b;
  }

  lemma {:induction false} RemoveSpaceOfSpaceFree(s: string)
    requires forall i :: 0 <= i < |s| ==> !IsSpace(s[i])
    ensures RemoveSpace(s) == s
  {
    if s != [] {
      RemoveSpaceOfSpaceFree(s[1..]);
    }
  }

  /** Base64UrlDecode undoes Base64UrlEncode on every byte sequence. */
  lemma DecodeEncode(b: seq<byte>)
    ensures Decode(Encode(b)) == Success(b)
  {
    if b != [] {
      var s := Encode(b);
      var t := ToStandard(s) + Padding(|s|);
      QuantaRoundTrip(b);
      forall i | 0 <= i < |t| ensures !IsSpace(t[i]) {
        if i < |s| {
          assert IsUrlChar(s[i]);
        }
      }
      RemoveSpaceOfSpaceFree(t);
    }
  }

  /** Distinct byte sequences never share an encoding. */
  lemma EncodeInjective(a: seq<byte>, b: seq<byte>)
    requires Encode(a) == Encode(b)
    ensures a == b
  {
    DecodeEncode(a);
    DecodeEncode(b);
  }

  /** The encoding never contains padding or the standard alphabet's '+'
      and '/', so it can stand in a URL query unescaped. */
  lemma EncodeIsUrlSafe(b: seq<byte>, i: nat)
    requires i < |Encode(b)|
    ensures Encode(b)[i] !in {'=', '+', '/', '&', '?', '#', '%'}
  {
    assert IsUrlChar(Encode(b)[i]);
  }

  // ---------------------------------------------------------------------
  // Rejection

  /** A character that is neither a base64 character (of either alphabet),
      nor '=', nor skipped white space makes FromBase64 fail. */
  predicate IsForeign(c: char) {
    StandardValue(UrlToStandard(c)).None? && c != '=' && !IsSpace(c)
  }

  lemma {:induction false} DecodeQuantaRejectsForeign(u: string, i: nat)
    requires |u| % 4 == 0 && i < |u|
    requires StandardValue(u[i]).None? && u[i] != '='
    ensures DecodeQuanta(u).Failure?
  {
    if |u| > 4 && i >= 4 {
      DecodeQuantaRejectsForeign(u[4..], i - 4);
    }
  }

  lemma {:induction false} RemoveSpaceKeeps(s: string, i: nat) returns (j: nat)
    requires i < |s| && !IsSpace(s[i])
    ensures j < |RemoveSpace(s)| && RemoveSpace(s)[j] == s[i]
  {
    if i == 0 {
      j := 0;
    } else if IsSpace(s[0]) {
      j := RemoveSpaceKeeps(s[1..], i - 1);
    } else {
      var k := RemoveSpaceKeeps(s[1..], i - 1);
      j := k + 1;
    }
  }

  /** Base64UrlDecode fails on any input holding a foreign character. */
  lemma DecodeRejectsForeign(s: string, i: nat)
    requires i < |s| && IsForeign(s[i])
    ensures Decode(s).Failure?
  {
    if |s| % 4 != 1 {
      var t := ToStandard(s) + Padding(|s|);
      assert t[i] == UrlToStandard(s[i]);
      var j := RemoveSpaceKeeps(t, i);
      var u := RemoveSpace(t);
      if |u| % 4 == 0 {
        DecodeQuantaRejectsForeign(u, j);
      }
    }
  }
}
