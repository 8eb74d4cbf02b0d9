/**
 * Character and byte helpers the proxy's header handling relies on, each
 * written to behave like the JDK/Kotlin routine the source calls:
 * US-ASCII decoding and encoding with the JDK's replacement characters,
 * Kotlin's `isWhitespace` and `trim()`, `split("\r\n")` and
 * `joinToString("\r\n")`, `lowercase()` and `startsWith`.
 */
module Text {
  import opened Results

  /** A byte as `InputStream.read()` delivers it (its non-negative range). */
  type byte = b: int | 0 <= b < 256

  const CRLF: string := "\r\n"

  /** The header-block terminator CR LF CR LF, as bytes. */
  const CRLFCRLF: seq<byte> := [13, 10, 13, 10]

  // ---------------------------------------------------------------------
  // US-ASCII charset
  // ---------------------------------------------------------------------

  predicate AllAscii(bs: seq<byte>) {
    forall i | 0 <= i < |bs| :: bs[i] < 0x80
  }

  predicate IsAsciiText(s: string) {
    forall i | 0 <= i < |s| :: s[i] as int < 0x80
  }

  /** The JDK's US-ASCII decoder: a byte of 0x80 or more is malformed and becomes U+FFFD. */
  function DecodeByte(b: byte): char {
    if b < 0x80 then b as char else '\U{FFFD}'
  }

  /** `String(bytes, US_ASCII)`. */
  function Decode(bs: seq<byte>): string {
    seq(|bs|, i requires 0 <= i < |bs| => DecodeByte(bs[i]))
  }

  /** The JDK's US-ASCII encoder: an unmappable character becomes '?'. */
  function EncodeChar(c: char): byte {
    if c as int < 0x80 then c as int else '?' as int
  }

  /** `String.toByteArray(US_ASCII)`. */
  function Encode(s: string): seq<byte> {
    seq(|s|, i requires 0 <= i < |s| => EncodeChar(s[i]))
  }

  /** Decoding then encoding gives the bytes back exactly when every byte is ASCII. */
  lemma EncodeDecode(bs: seq<byte>)
    ensures Encode(Decode(bs)) == bs <==> AllAscii(bs)
  {
    if AllAscii(bs) {
      assert forall i | 0 <= i < |bs| :: Encode(Decode(bs))[i] == bs[i];
    } else {
      var i :| 0 <= i < |bs| && bs[i] >= 0x80;
      assert Encode(Decode(bs))[i] == '?' as int != bs[i];
    }
  }

  /** Encoding then decoding gives an ASCII text back. */
  lemma DecodeEncode(s: string)
    requires IsAsciiText(s)
    ensures Decode(Encode(s)) == s
  {
    assert forall i | 0 <= i < |s| :: Decode(Encode(s))[i] == s[i];
  }

  lemma DecodeAppend(a: seq<byte>, b: seq<byte>)
    ensures Decode(a + b) == Decode(a) + Decode(b)
  {
    assert forall i | 0 <= i < |a + b| :: Decode(a + b)[i] == (Decode(a) + Decode(b))[i];
  }

  lemma EncodeAppend(a: string, b: string)
    ensures Encode(a + b) == Encode(a) + Encode(b)
  {
    assert forall i | 0 <= i < |a + b| :: Encode(a + b)[i] == (Encode(a) + Encode(b))[i];
  }

  /** The header terminator as text and as bytes. */
  lemma TerminatorCodes()
    ensures Encode("\r\n\r\n") == CRLFCRLF
    ensures Decode(CRLFCRLF) == "\r\n\r\n"
  {
  }

  // ---------------------------------------------------------------------
  // Kotlin whitespace and trim()
  // ---------------------------------------------------------------------

  /**
   * Kotlin's `Char.isWhitespace()` on the JVM: `Character.isWhitespace` or
   * `Character.isSpaceChar`. In the ASCII range these are 0x09-0x0D and 0x1C-0x20.
   */
  predicate IsWhitespace(c: char) {
    var n := c as int;
    (0x09 <= n <= 0x0D) || (0x1C <= n <= 0x20) || n == 0xA0 || n == 0x1680
    || (0x2000 <= n <= 0x200A) || n == 0x2028 || n == 0x2029 || n == 0x202F
    || n == 0x205F || n == 0x3000
  }

  function TrimStart(s: string): string {
    if |s| > 0 && IsWhitespace(s[0]) then TrimStart(s[1..]) else s
  }

  function TrimEnd(s: string): string {
    if |s| > 0 && IsWhitespace(s[|s| - 1]) then TrimEnd(s[..|s| - 1]) else s
  }

  /** Kotlin's `String.trim()`: drop leading and trailing whitespace. */
  function Trim(s: string): string {
    TrimEnd(TrimStart(s))
  }

  /** A text that trim() leaves alone: empty, or neither end is whitespace. */
  predicate Untrimmable(s: string) {
    s == [] || (!IsWhitespace(s[0]) && !IsWhitespace(s[|s| - 1]))
  }

  lemma TrimUntrimmable(s: string)
    requires Untrimmable(s)
    ensures Trim(s) == s
  {
  }

  /** Trailing whitespace after an untrimmable text is all that trim() removes. */
  lemma {:induction false} TrimTrailing(s: string, w: string)
    requires Untrimmable(s)
    requires forall k | 0 <= k < |w| :: IsWhitespace(w[k])
    ensures Trim(s + w) == s
  {
    if s == [] {
      assert s + w == w;
      TrimAllWhitespace(w);
    } else {
      assert TrimStart(s + w) == s + w;
      TrimEndWhitespaceSuffix(s, w);
    }
  }

  lemma {:induction false} TrimAllWhitespace(w: string)
    requires forall k | 0 <= k < |w| :: IsWhitespace(w[k])
    ensures Trim(w) == []
  {
    if w != [] {
      assert TrimStart(w) == TrimStart(w[1..]);
      TrimAllWhitespace(w[1..]);
      TrimStartEmpty(w[1..]);
    }
  }

  lemma {:induction false} TrimStartEmpty(w: string)
    requires forall k | 0 <= k < |w| :: IsWhitespace(w[k])
    ensures TrimStart(w) == []
  {
    if w != [] {
      TrimStartEmpty(w[1..]);
    }
  }

  lemma {:induction false} TrimEndWhitespaceSuffix(s: string, w: string)
    requires s != [] && !IsWhitespace(s[|s| - 1])
    requires forall k | 0 <= k < |w| :: IsWhitespace(w[k])
    ensures TrimEnd(s + w) == s
  {
    if w == [] {
      assert s + w == s;
    } else {
      var w' := w[..|w| - 1];
      assert (s + w)[..|s + w| - 1] == s + w';
      TrimEndWhitespaceSuffix(s, w');
    }
  }

  // ---------------------------------------------------------------------
  // split("\r\n") and joinToString("\r\n")
  // ---------------------------------------------------------------------

  /** A CR LF pair starts at index k of s. */
  predicate CrlfAt(s: string, k: int) {
    0 <= k && k + 2 <= |s| && s[k] == '\r' && s[k + 1] == '\n'
  }

  predicate HasCrlf(s: string) {
    exists k | 0 <= k < |s| :: CrlfAt(s, k)
  }

  /** `s.indexOf("\r\n", from)`, as an option. */
  function IndexOfCrlf(s: string, from: nat): (r: Option<nat>)
    decreases |s| - from
    ensures r.Some? ==>
      from <= r.value && CrlfAt(s, r.value) && forall k | from <= k < r.value :: !CrlfAt(s, k)
    ensures r.None? ==> forall k | from <= k :: !CrlfAt(s, k)
  {
    if from + 2 > |s| then None
    else if s[from] == '\r' && s[from + 1] == '\n' then Some(from)
    else IndexOfCrlf(s, from + 1)
  }

  /** Kotlin's `s.split("\r\n")`: every piece between CR LF pairs, trailing empty pieces kept. */
  function Split(s: string): seq<string>
    decreases |s|
  {
    match IndexOfCrlf(s, 0)
    case None => [s]
    case Some(i) => [s[..i]] + Split(s[i + 2..])
  }

  /** Kotlin's `lines.joinToString("\r\n")`. */
  function Join(lines: seq<string>): string {
    if |lines| == 0 then ""
    else if |lines| == 1 then lines[0]
    else lines[0] + CRLF + Join(lines[1..])
  }

  predicate NoCrlfIn(lines: seq<string>) {
    forall i | 0 <= i < |lines| :: !HasCrlf(lines[i])
  }

  /** split() never returns an empty list, its pieces hold no CR LF, and joining them restores the text. */
  lemma {:induction false} SplitJoin(s: string)
    ensures |Split(s)| >= 1
    ensures NoCrlfIn(Split(s))
    ensures Join(Split(s)) == s
    decreases |s|
  {
    match IndexOfCrlf(s, 0)
    case None =>
      assert Split(s) == [s];
    case Some(i) =>
      var rest := s[i + 2..];
      SplitJoin(rest);
      assert Split(s) == [s[..i]] + Split(rest);
      assert !HasCrlf(s[..i]) by {
        forall k | 0 <= k < i ensures !CrlfAt(s[..i], k) {
          assert !CrlfAt(s, k);
        }
      }
      assert Split(s)[1..] == Split(rest);
      assert Join(Split(s)) == s[..i] + CRLF + rest;
      assert s == s[..i] + CRLF + rest;
  }

  /** Joining CR LF-free lines and splitting again gives the same lines back. */
  lemma {:induction false} JoinSplit(lines: seq<string>)
    requires |lines| >= 1
    requires NoCrlfIn(lines)
    ensures Split(Join(lines)) == lines
  {
    if |lines| == 1 {
      HasCrlfIndex(lines[0]);
    } else {
      var head, rest := lines[0], Join(lines[1..]);
      var s := head + CRLF + rest;
      assert Join(lines) == s;
      FirstCrlfAfter(head, rest);
      assert s[|head| + 2..] == rest;
      JoinSplit(lines[1..]);
      assert s[..|head|] == head;
      assert lines == [head] + lines[1..];
    }
  }

  lemma HasCrlfIndex(s: string)
    ensures HasCrlf(s) <==> IndexOfCrlf(s, 0).Some?
  {
    var r := IndexOfCrlf(s, 0);
    if r.Some? {
      assert CrlfAt(s, r.value) && r.value < |s|;
    }
  }

  /** In head + CR LF + rest with a CR LF-free head, the first CR LF is the one after head. */
  lemma FirstCrlfAfter(head: string, rest: string)
    requires !HasCrlf(head)
    ensures IndexOfCrlf(head + CRLF + rest, 0) == Some(|head|)
  {
    var s := head + CRLF + rest;
    assert CrlfAt(s, |head|);
    forall k | 0 <= k < |head| ensures !CrlfAt(s, k) {
      if k + 1 < |head| {
        assert !CrlfAt(head, k);
      } else {
        assert s[k + 1] == '\r';
      }
    }
    var r := IndexOfCrlf(s, 0);
    assert r.Some?;
  }

  // ---------------------------------------------------------------------
  // lowercase() and startsWith
  // ---------------------------------------------------------------------

  /**
   * One character of Kotlin's `lowercase()` (Locale.ROOT). ASCII capitals map
   * to small letters; the KELVIN SIGN lowers to 'k' and U+0130 to "i" followed
   * by U+0307, the only non-ASCII characters whose lower case holds an ASCII
   * letter. Every other character is kept as it is (its real lower case is
   * non-ASCII either way, which is all any caller here inspects).
   */
  function LowerChar(c: char): string {
    if 'A' <= c <= 'Z' then [(c as int + 32) as char]
    else if c == '\U{212A}' then "k"
    else if c == '\U{0130}' then "i\U{0307}"
    else [c]
  }

  function Lower(s: string): string {
    if s == [] then [] else LowerChar(s[0]) + Lower(s[1..])
  }

  function AsciiLower(c: char): char {
    if 'A' <= c <= 'Z' then (c as int + 32) as char else c
  }

  /** Lower case of an ASCII text, character by character. */
  function AsciiLowered(s: string): string {
    seq(|s|, i requires 0 <= i < |s| => AsciiLower(s[i]))
  }

  /** On an ASCII prefix, lowercase() works character by character. */
  lemma {:induction false} LowerAsciiPrefix(p: string, r: string)
    requires IsAsciiText(p)
    ensures Lower(p + r) == AsciiLowered(p) + Lower(r)
  {
    if p == [] {
      assert p + r == r;
    } else {
      assert (p + r)[1..] == p[1..] + r;
      LowerAsciiPrefix(p[1..], r);
      assert LowerChar(p[0]) == [AsciiLower(p[0])];
      assert Lower(p + r) == LowerChar(p[0]) + Lower(p[1..] + r);
      assert AsciiLowered(p) == [AsciiLower(p[0])] + AsciiLowered(p[1..]);
    }
  }

  lemma LowerAscii(p: string)
    requires IsAsciiText(p)
    ensures Lower(p) == AsciiLowered(p)
  {
    LowerAsciiPrefix(p, "");
    assert p + "" == p;
  }

  lemma {:induction false} LowerAppend(a: string, b: string)
    ensures Lower(a + b) == Lower(a) + Lower(b)
  {
    if a == [] {
      assert a + b == b;
    } else {
      assert (a + b)[1..] == a[1..] + b;
      LowerAppend(a[1..], b);
    }
  }

  predicate StartsWith(s: string, prefix: string) {
    |prefix| <= |s| && s[..|prefix|] == prefix
  }
}
