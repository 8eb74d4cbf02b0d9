/**
 * The "base64" encoding of section 4 of RFC 4648: the standard alphabet
 * A-Z a-z 0-9 + /, with '=' padding to a multiple of four characters. This is
 * what `java.util.Base64.getEncoder()` produces for the proxy credential.
 * A decoder is defined beside it as the encoder's inverse.
 */
module Base64 {
  import opened Results
  import opened Text

  type sextet = v: int | 0 <= v < 64

  /** The alphabet of Table 1 of RFC 4648. */
  function Letter(v: sextet): char {
    if v < 26 then ('A' as int + v) as char
    else if v < 52 then ('a' as int + (v - 26)) as char
    else if v < 62 then ('0' as int + (v - 52)) as char
    else if v == 62 then '+'
    else '/'
  }

  function LetterValue(c: char): Option<sextet> {
    if 'A' <= c <= 'Z' then Some(c as int - 'A' as int)
    else if 'a' <= c <= 'z' then Some(c as int - 'a' as int + 26)
    else if '0' <= c <= '9' then Some(c as int - '0' as int + 52)
    else if c == '+' then Some(62)
    else if c == '/' then Some(63)
    else None
  }

  lemma LetterValueOfLetter(v: sextet)
    ensures LetterValue(Letter(v)) == Some(v)
  {
  }

  /** Three bytes as four letters: each letter carries six of the 24 bits, most significant first. */
  function EncodeGroup(b0: byte, b1: byte, b2: byte): string {
    [Letter(b0 / 4), Letter((b0 % 4) * 16 + b1 / 16), Letter((b1 % 16) * 4 + b2 / 64), Letter(b2 % 64)]
  }

  /** RFC 4648 section 4, with the padding of its cases (2) and (3) for a final group of one or two bytes. */
  function Encode(bs: seq<byte>): string {
    if |bs| == 0 then ""
    else if |bs| == 1 then [Letter(bs[0] / 4), Letter((bs[0] % 4) * 16), '=', '=']
    else if |bs| == 2 then
      [Letter(bs[0] / 4), Letter((bs[0] % 4) * 16 + bs[1] / 16), Letter((bs[1] % 16) * 4), '=']
    else EncodeGroup(bs[0], bs[1], bs[2]) + Encode(bs[3..])
  }

  function DecodeGroup(v0: sextet, v1: sextet, v2: sextet, v3: sextet): seq<byte> {
    [v0 * 4 + v1 / 16, (v1 % 16) * 16 + v2 / 4, (v2 % 4) * 64 + v3]
  }

  /** The inverse of Encode: four letters at a time, with '=' padding allowed only in the last group. */
  function Decode(s: string): Option<seq<byte>> {
    if |s| == 0 then Some([])
    else if |s| < 4 then None
    else
      var v0, v1, v2, v3 := LetterValue(s[0]), LetterValue(s[1]), LetterValue(s[2]), LetterValue(s[3]);
      if v0.None? || v1.None? then None
      else if |s| == 4 && s[2] == '=' && s[3] == '=' then
        Some([v0.value * 4 + v1.value / 16])
      else if v2.None? then None
      else if |s| == 4 && s[3] == '=' then
        Some([v0.value * 4 + v1.value / 16, (v1.value % 16) * 16 + v2.value / 4])
      else if v3.None? then None
      else
        match Decode(s[4..])
        case None => None
        case Some(rest) => Some(DecodeGroup(v0.value, v1.value, v2.value, v3.value) + rest)
  }

  /** The output is four characters for every started group of three bytes. */
  lemma {:induction false} EncodedLength(bs: seq<byte>)
    ensures |Encode(bs)| == 4 * ((|bs| + 2) / 3)
  {
    if |bs| > 2 {
      EncodedLength(bs[3..]);
    }
  }

  lemma GroupRoundTrip(b0: byte, b1: byte, b2: byte)
    ensures DecodeGroup(b0 / 4, (b0 % 4) * 16 + b1 / 16, (b1 % 16) * 4 + b2 / 64, b2 % 64) == [b0, b1, b2]
  {
  }

  /** A final group of one byte: two letters and two pads. */
  lemma DecodeEncodeOne(b0: byte)
    ensures Decode(Encode([b0])) == Some([b0])
  {
    LetterValueOfLetter(b0 / 4);
    LetterValueOfLetter((b0 % 4) * 16);
  }

  /** A final group of two bytes: three letters and one pad. */
  lemma DecodeEncodeTwo(b0: byte, b1: byte)
    ensures Decode(Encode([b0, b1])) == Some([b0, b1])
  {
    var v0, v1, v2 := b0 / 4, (b0 % 4) * 16 + b1 / 16, (b1 % 16) * 4;
    LetterValueOfLetter(v0);
    LetterValueOfLetter(v1);
    LetterValueOfLetter(v2);
    var s := Encode([b0, b1]);
    assert s == [Letter(v0), Letter(v1), Letter(v2), '='];
    assert s[2] != '=';
    assert v0 * 4 + v1 / 16 == b0;
    assert (v1 % 16) * 16 + v2 / 4 == b1;
  }

  /** Decoding what Encode produced gives the bytes back. */
  lemma {:induction false} DecodeEncode(bs: seq<byte>)
    ensures Decode(Encode(bs)) == Some(bs)
  {
    if |bs| == 1 {
      assert bs == [bs[0]];
      DecodeEncodeOne(bs[0]);
    } else if |bs| == 2 {
      assert bs == [bs[0], bs[1]];
      DecodeEncodeTwo(bs[0], bs[1]);
    } else if |bs| > 2 {
      var rest := bs[3..];
      assert bs == [bs[0], bs[1], bs[2]] + rest;
      DecodeEncode(rest);
      DecodeEncodeGroup(bs[0], bs[1], bs[2], rest);
    }
  }

  /** One full group in front of a tail that already round-trips. */
  lemma DecodeEncodeGroup(b0: byte, b1: byte, b2: byte, rest: seq<byte>)
    requires Decode(Encode(rest)) == Some(rest)
    ensures Decode(Encode([b0, b1, b2] + rest)) == Some([b0, b1, b2] + rest)
  {
    var bs := [b0, b1, b2] + rest;
    LetterValueOfLetter(b0 / 4);
    LetterValueOfLetter((b0 % 4) * 16 + b1 / 16);
    LetterValueOfLetter((b1 % 16) * 4 + b2 / 64);
    LetterValueOfLetter(b2 % 64);
    assert bs[3..] == rest;
    var s := Encode(bs);
    assert s == EncodeGroup(b0, b1, b2) + Encode(rest);
    EncodedLength(rest);
    assert s[4..] == Encode(rest);
    assert s[2] != '=' && s[3] != '=';
    GroupRoundTrip(b0, b1, b2);
  }

  /** Every output character is a letter of the alphabet or the pad '='. */
  lemma {:induction false} EncodedAlphabet(bs: seq<byte>)
    ensures forall i | 0 <= i < |Encode(bs)| :: Encode(bs)[i] == '=' || LetterValue(Encode(bs)[i]).Some?
  {
    if |bs| == 1 {
      LetterValueOfLetter(bs[0] / 4);
      LetterValueOfLetter((bs[0] % 4) * 16);
    } else if |bs| == 2 {
      LetterValueOfLetter(bs[0] / 4);
      LetterValueOfLetter((bs[0] % 4) * 16 + bs[1] / 16);
      LetterValueOfLetter((bs[1] % 16) * 4);
    } else if |bs| > 2 {
      var b0, b1, b2 := bs[0], bs[1], bs[2];
      LetterValueOfLetter(b0 / 4);
      LetterValueOfLetter((b0 % 4) * 16 + b1 / 16);
      LetterValueOfLetter((b1 % 16) * 4 + b2 / 64);
      LetterValueOfLetter(b2 % 64);
      EncodedAlphabet(bs[3..]);
      assert Encode(bs) == EncodeGroup(b0, b1, b2) + Encode(bs[3..]);
    }
  }

  /** The credential of the end-to-end scenario: "foo:bar" encodes to "Zm9vOmJhcg==". */
  lemma FooBar()
    ensures Encode(Text.Encode("foo:bar")) == "Zm9vOmJhcg=="
  {
    var bs := Text.Encode("foo:bar");
    assert bs == [102, 111, 111, 58, 98, 97, 114];
    assert Encode(bs) == EncodeGroup(102, 111, 111) + Encode(bs[3..]);
    assert Encode(bs[3..]) == EncodeGroup(58, 98, 97) + Encode(bs[6..]);
    assert Encode(bs[6..]) == [Letter(114 / 4), Letter((114 % 4) * 16), '=', '='];
  }
}
