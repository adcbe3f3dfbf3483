/** The standard padded base64 alphabet of section 4 of RFC 4648, as Go's
    `base64.StdEncoding` implements it: encoding always pads to a multiple
    of four characters; decoding skips carriage returns and line feeds
    wherever they appear, rejects anything else outside the alphabet,
    allows `=` padding only in the final quantum, and (not being in strict
    mode) ignores the unused low bits of a padded final quantum. */
module Base64 {
  import opened Wrappers

  type byte = x: int | 0 <= x < 256
  type sextet = x: int | 0 <= x < 64

  datatype DecodeError = CorruptInput

  const Pad: char := '='

  /** The character that encodes `v` (Table 1 of RFC 4648). */
  function CharOf(v: sextet): char
  {
    if v < 26 then ('A' as int + v) as char
    else if v < 52 then ('a' as int + (v - 26)) as char
    else if v < 62 then ('0' as int + (v - 52)) as char
    else if v == 62 then '+'
    else '/'
  }

  /** The value a character encodes, or None outside the alphabet. */
  function ValueOf(c: char): (r: Option<sextet>)
    ensures r.Some? ==> CharOf(r.value) == c
    ensures r.None? ==> forall v: sextet :: CharOf(v) != c
  {
    if 'A' <= c <= 'Z' then Some(c as int - 'A' as int)
    else if 'a' <= c <= 'z' then Some(c as int - 'a' as int + 26)
    else if '0' <= c <= '9' then Some(c as int - '0' as int + 52)
    else if c == '+' then Some(62)
    else if c == '/' then Some(63)
    else None
  }

  lemma ValueOfCharOf(v: sextet)
    ensures ValueOf(CharOf(v)) == Some(v)
  {
  }

  predicate InAlphabet(c: char)
  {
    ValueOf(c).Some?
  }

  /* Bit plumbing: three bytes are 24 bits, read as four six-bit groups. */
  function Hi0(b0: byte): sextet { b0 / 4 }
  function Hi1(b0: byte, b1: byte): sextet { (b0 % 4) * 16 + b1 / 16 }
  function Hi2(b1: byte, b2: byte): sextet { (b1 % 16) * 4 + b2 / 64 }
  function Hi3(b2: byte): sextet { b2 % 64 }

  function Lo0(v0: sextet, v1: sextet): byte { v0 * 4 + v1 / 16 }
  function Lo1(v1: sextet, v2: sextet): byte { (v1 % 16) * 16 + v2 / 4 }
  function Lo2(v2: sextet, v3: sextet): byte { (v2 % 4) * 64 + v3 }

  lemma Lo0Hi(b0: byte, b1: byte)
    ensures Lo0(Hi0(b0), Hi1(b0, b1)) == b0
  {
    assert Hi1(b0, b1) / 16 == b0 % 4;
  }

  lemma Lo1Hi(b0: byte, b1: byte, b2: byte)
    ensures Lo1(Hi1(b0, b1), Hi2(b1, b2)) == b1
  {
    assert Hi1(b0, b1) % 16 == b1 / 16;
    assert Hi2(b1, b2) / 4 == b1 % 16;
  }

  lemma Lo2Hi(b1: byte, b2: byte)
    ensures Lo2(Hi2(b1, b2), Hi3(b2)) == b2
  {
    assert Hi2(b1, b2) % 4 == b2 / 64;
  }

  /** Four characters for three bytes. */
  function EncodeBlock(b0: byte, b1: byte, b2: byte): string
  {
    [CharOf(Hi0(b0)), CharOf(Hi1(b0, b1)), CharOf(Hi2(b1, b2)), CharOf(Hi3(b2))]
  }

  /** The padded final quantum for one or two leftover bytes. */
  function EncodeTail(b: seq<byte>): string
    requires 1 <= |b| <= 2
  {
    if |b| == 1 then [CharOf(Hi0(b[0])), CharOf(Hi1(b[0], 0)), Pad, Pad]
    else [CharOf(Hi0(b[0])), CharOf(Hi1(b[0], b[1])), CharOf(Hi2(b[1], 0)), Pad]
  }

  /** Go's `StdEncoding.EncodeToString`. */
  function Encode(b: seq<byte>): (s: string)
    ensures |s| == 4 * ((|b| + 2) / 3)
    ensures Encoded(s)
    decreases |b|
  {
    if |b| == 0 then []
    else if |b| < 3 then
      TailEncoded(b);
      EncodeTail(b)
    else
      QuantaCount(|b|);
      BlockEncoded(b[0], b[1], b[2]);
      EncodedAppend(EncodeBlock(b[0], b[1], b[2]), Encode(b[3..]));
      EncodeBlock(b[0], b[1], b[2]) + Encode(b[3..])
  }

  /** Every character is in the alphabet or is padding. */
  predicate Encoded(s: string)
  {
    forall k :: 0 <= k < |s| ==> InAlphabet(s[k]) || s[k] == Pad
  }

  lemma EncodedAppend(a: string, b: string)
    requires Encoded(a) && Encoded(b)
    ensures Encoded(a + b)
  {
    assert forall k :: |a| <= k < |a + b| ==> (a + b)[k] == b[k - |a|];
  }

  lemma BlockEncoded(b0: byte, b1: byte, b2: byte)
    ensures Encoded(EncodeBlock(b0, b1, b2))
  {
    ValueOfCharOf(Hi0(b0));
    ValueOfCharOf(Hi1(b0, b1));
    ValueOfCharOf(Hi2(b1, b2));
    ValueOfCharOf(Hi3(b2));
  }

  lemma TailEncoded(b: seq<byte>)
    requires 1 <= |b| <= 2
    ensures Encoded(EncodeTail(b))
  {
    ValueOfCharOf(Hi0(b[0]));
    if |b| == 1 {
      ValueOfCharOf(Hi1(b[0], 0));
    } else {
      ValueOfCharOf(Hi1(b[0], b[1]));
      ValueOfCharOf(Hi2(b[1], 0));
    }
  }

  /** Three more bytes make one more quantum. */
  lemma QuantaCount(n: nat)
    requires n >= 3
    ensures (n + 2) / 3 == (n - 3 + 2) / 3 + 1
  {
  }

  predicate IsLineBreak(c: char)
  {
    c == '\r' || c == '\n'
  }

  /** Removes every carriage return and line feed. */
  function StripLineBreaks(s: string): (r: string)
    ensures |r| <= |s|
    ensures forall k :: 0 <= k < |r| ==> !IsLineBreak(r[k])
    ensures (forall k :: 0 <= k < |s| ==> !IsLineBreak(s[k])) ==> r == s
  {
    if |s| == 0 then []
    else if IsLineBreak(s[0]) then StripLineBreaks(s[1..])
    else [s[0]] + StripLineBreaks(s[1..])
  }

  /** One quantum of four characters. Padding is allowed only in the final
      quantum (`last`), as `xx==` or `xxx=`. */
  function DecodeQuantum(c0: char, c1: char, c2: char, c3: char, last: bool): (r: Result<seq<byte>, DecodeError>)
    ensures r.Success? ==> 1 <= |r.value| <= 3
    ensures r.Success? && |r.value| < 3 ==> last && c3 == Pad
    ensures r.Success? <==>
              InAlphabet(c0) && InAlphabet(c1)
              && ((InAlphabet(c2) && InAlphabet(c3))
                  || (last && InAlphabet(c2) && c3 == Pad)
                  || (last && c2 == Pad && c3 == Pad))
  {
    match (ValueOf(c0), ValueOf(c1), ValueOf(c2), ValueOf(c3))
    case (Some(v0), Some(v1), Some(v2), Some(v3)) =>
      Success([Lo0(v0, v1), Lo1(v1, v2), Lo2(v2, v3)])
    case (Some(v0), Some(v1), Some(v2), None) =>
      if last && c3 == Pad then Success([Lo0(v0, v1), Lo1(v1, v2)])
      else Failure(CorruptInput)
    case (Some(v0), Some(v1), None, None) =>
      if last && c2 == Pad && c3 == Pad then Success([Lo0(v0, v1)])
      else Failure(CorruptInput)
    case _ => Failure(CorruptInput)
  }

  /** Decodes a line-break-free string quantum by quantum. */
  function DecodeQuanta(s: string): (r: Result<seq<byte>, DecodeError>)
    ensures r.Success? ==> |s| % 4 == 0 && |r.value| <= 3 * (|s| / 4)
    decreases |s|
  {
    if |s| == 0 then Success([])
    else if |s| < 4 then Failure(CorruptInput)
    else
      match DecodeQuantum(s[0], s[1], s[2], s[3], |s| == 4)
      case Failure(e) => Failure(e)
      case Success(q) =>
        match DecodeQuanta(s[4..])
        case Failure(e) => Failure(e)
        case Success(rest) =>
          assert |s[4..]| / 4 == |s| / 4 - 1;
          Success(q + rest)
  }

  /** Go's `StdEncoding.DecodeString`. */
  function Decode(s: string): Result<seq<byte>, DecodeError>
  {
    DecodeQuanta(StripLineBreaks(s))
  }

  lemma BlockRoundTrip(b0: byte, b1: byte, b2: byte, last: bool)
    ensures var e := EncodeBlock(b0, b1, b2);
            DecodeQuantum(e[0], e[1], e[2], e[3], last) == Success([b0, b1, b2])
  {
    ValueOfCharOf(Hi0(b0));
    ValueOfCharOf(Hi1(b0, b1));
    ValueOfCharOf(Hi2(b1, b2));
    ValueOfCharOf(Hi3(b2));
    Lo0Hi(b0, b1);
    Lo1Hi(b0, b1, b2);
    Lo2Hi(b1, b2);
  }

  lemma TailRoundTrip(b: seq<byte>)
    requires 1 <= |b| <= 2
    ensures var e := EncodeTail(b);
            DecodeQuantum(e[0], e[1], e[2], e[3], true) == Success(b)
  {
    assert ValueOf(Pad) == None;
    ValueOfCharOf(Hi0(b[0]));
    if |b| == 1 {
      ValueOfCharOf(Hi1(b[0], 0));
      Lo0Hi(b[0], 0);
      assert b == [b[0]];
    } else {
      ValueOfCharOf(Hi1(b[0], b[1]));
      ValueOfCharOf(Hi2(b[1], 0));
      Lo0Hi(b[0], b[1]);
      Lo1Hi(b[0], b[1], 0);
      assert b == [b[0], b[1]];
    }
  }

  /** Decoding a quantum followed by more quanta. */
  lemma DecodeQuantaCons(q: string, rest: string, x: seq<byte>, y: seq<byte>)
    requires |q| == 4
    requires DecodeQuantum(q[0], q[1], q[2], q[3], |rest| == 0) == Success(x)
    requires DecodeQuanta(rest) == Success(y)
    ensures DecodeQuanta(q + rest) == Success(x + y)
  {
    var s := q + rest;
    assert s[4..] == rest;
    assert s[0] == q[0] && s[1] == q[1] && s[2] == q[2] && s[3] == q[3];
  }

  lemma {:induction false} DecodeQuantaEncode(b: seq<byte>)
    ensures DecodeQuanta(Encode(b)) == Success(b)
    decreases |b|
  {
    if |b| == 0 {
    } else if |b| < 3 {
      DecodeQuantaEncodeTail(b);
    } else {
      var blk := EncodeBlock(b[0], b[1], b[2]);
      var rest := Encode(b[3..]);
      assert Encode(b) == blk + rest;
      BlockRoundTrip(b[0], b[1], b[2], |rest| == 0);
      DecodeQuantaEncode(b[3..]);
      DecodeQuantaCons(blk, rest, [b[0], b[1], b[2]], b[3..]);
      assert b == [b[0], b[1], b[2]] + b[3..];
    }
  }

  /** The last one or two bytes come back from their padded quantum. */
  lemma DecodeQuantaEncodeTail(b: seq<byte>)
    requires 0 < |b| < 3
    ensures DecodeQuanta(Encode(b)) == Success(b)
  {
    TailRoundTrip(b);
    var e := EncodeTail(b);
    assert Encode(b) == e + [];
    DecodeQuantaCons(e, [], b, []);
    assert b + [] == b;
  }

  /** Decoding an encoding gives the original bytes back. */
  lemma DecodeEncode(b: seq<byte>)
    ensures Decode(Encode(b)) == Success(b)
  {
    var e := Encode(b);
    assert forall k :: 0 <= k < |e| ==> !IsLineBreak(e[k]);
    DecodeQuantaEncode(b);
  }
}
