/**
 * Converters between the text a user types (or the configuration file holds)
 * and a setting's value (`Converter`): yes/no flags, 32-bit integers and
 * plain strings. A value is one of the three kinds; a converter only ever
 * sees or produces its own kind.
 */
module Converters {
  import opened Results
  import opened Text

  datatype Value = BoolValue(b: bool) | IntValue(i: int) | StringValue(s: string)

  datatype Converter = YesNo | Integer | Str

  /** The two InvalidSettingExceptions a conversion raises. */
  datatype ConversionError =
    | NotYesNo     // "Value should be 'Yes' or 'No'"
    | NotInteger   // "Value should be an integer"

  /** The range of a Kotlin `Int`. */
  const INT_MIN: int := -0x8000_0000
  const INT_MAX: int := 0x7FFF_FFFF

  predicate IsInt32(n: int) {
    INT_MIN <= n <= INT_MAX
  }

  /** The value is of the kind the converter produces. */
  predicate Fits(c: Converter, v: Value) {
    match c
    case YesNo => v.BoolValue?
    case Integer => v.IntValue? && IsInt32(v.i)
    case Str => v.StringValue?
  }

  // ---------------------------------------------------------------------
  // YES_NO
  // ---------------------------------------------------------------------

  const YES: set<string> := {"yes", "y", "true"}
  const NO: set<string> := {"no", "n", "false"}

  /** `YES_NO.fromString`: the lower case of the text is looked up in YES, then in NO. */
  function ParseYesNo(s: string): (r: Result<bool, ConversionError>)
    ensures r.Ok? ==> (r.value <==> Lower(s) in YES)
    ensures r.Ok? <==> Lower(s) in YES + NO
  {
    var l := Lower(s);
    if l in YES then Ok(true)
    else if l in NO then Ok(false)
    else Err(NotYesNo)
  }

  /** `YES_NO.toString`. */
  function ShowYesNo(b: bool): string {
    if b then "Yes" else "No"
  }

  /** The two word lists share no word, so the order of the lookups does not matter. */
  lemma YesNoDisjoint()
    ensures YES * NO == {}
  {
    assert "yes" !in NO && "y" !in NO && "true" !in NO;
    assert forall w | w in YES * NO :: w in YES && w in NO;
  }

  /** Printing a flag and parsing it back gives the flag. */
  lemma YesNoRoundTrip(b: bool)
    ensures ParseYesNo(ShowYesNo(b)) == Ok(b)
  {
    if b {
      LowerAscii("Yes");
      assert AsciiLowered("Yes") == "yes";
    } else {
      LowerAscii("No");
      assert AsciiLowered("No") == "no";
    }
  }

  /**
   * No word of either list holds a 'k' or anything outside ASCII, so every
   * accepted text is plain ASCII: the Unicode characters whose lower case is
   * an ASCII letter (the KELVIN SIGN, U+0130) never make a text acceptable.
   */
  lemma YesNoAcceptsAsciiOnly(s: string)
    requires ParseYesNo(s).Ok?
    ensures IsAsciiText(s)
  {
    var l := Lower(s);
    assert IsAsciiText(l) && 'k' !in l by {
      assert l in YES + NO;
      assert l == "yes" || l == "y" || l == "true" || l == "no" || l == "n" || l == "false";
    }
    AsciiIfLowerIs(s);
  }

  /** A text whose lower case is ASCII without a 'k' is ASCII itself. */
  lemma {:induction false} AsciiIfLowerIs(s: string)
    requires IsAsciiText(Lower(s)) && 'k' !in Lower(s)
    ensures IsAsciiText(s)
  {
    if s != [] {
      var head, tail := LowerChar(s[0]), Lower(s[1..]);
      assert Lower(s) == head + tail;
      assert IsAsciiText(head) && 'k' !in head by {
        forall i | 0 <= i < |head| ensures head[i] == Lower(s)[i] {
        }
      }
      assert IsAsciiText(tail) && 'k' !in tail by {
        forall i | 0 <= i < |tail| ensures tail[i] == Lower(s)[|head| + i] {
        }
      }
      LowerCharAscii(s[0]);
      AsciiIfLowerIs(s[1..]);
    }
  }

  /** The same for one character. */
  lemma LowerCharAscii(c: char)
    ensures IsAsciiText(LowerChar(c)) && 'k' !in LowerChar(c) ==> c as int < 0x80
  {
    if c == '\U{212A}' {
      assert LowerChar(c)[0] == 'k';
    } else if c == '\U{0130}' {
      assert LowerChar(c)[1] == '\U{0307}';
    } else if !('A' <= c <= 'Z') {
      assert LowerChar(c)[0] == c;
    }
  }

  /** Case does not matter: both spellings of the scenario parse, "Foo" does not. */
  lemma YesNoExamples(upper: string, mixed: string, other: string)
    requires upper == "YES" && mixed == "No" && other == "Foo"
    ensures ParseYesNo(upper) == Ok(true)
    ensures ParseYesNo(mixed) == Ok(false)
    ensures ParseYesNo(other) == Err(NotYesNo)
  {
    LowerAscii(upper);
    assert AsciiLowered(upper) == "yes";
    LowerAscii(mixed);
    assert AsciiLowered(mixed) == "no";
    LowerAscii(other);
    assert AsciiLowered(other) == "foo";
  }

  // ---------------------------------------------------------------------
  // INTEGER
  // ---------------------------------------------------------------------

  predicate IsDigit(c: char) {
    '0' <= c <= '9'
  }

  predicate AllDigits(s: string) {
    forall i | 0 <= i < |s| :: IsDigit(s[i])
  }

  function DigitValue(c: char): nat
    requires IsDigit(c)
  {
    c as int - '0' as int
  }

  /** The number a run of decimal digits denotes, most significant first. */
  function DigitsValue(ds: string): nat
    requires AllDigits(ds)
  {
    if ds == [] then 0 else DigitsValue(ds[..|ds| - 1]) * 10 + DigitValue(ds[|ds| - 1])
  }

  /** The text after an optional leading sign. */
  function Unsigned(s: string): (r: string)
    ensures |r| <= |s| && r == s[|s| - |r|..]
  {
    if |s| > 0 && (s[0] == '+' || s[0] == '-') then s[1..] else s
  }

  /**
   * `String.toInt()`: an optional '+' or '-', then at least one decimal
   * digit and nothing else, denoting a number in the `Int` range.
   */
  function ParseInt(s: string): (r: Result<int, ConversionError>)
    ensures r.Ok? ==> IsInt32(r.value)
    ensures r.Ok? ==> |s| >= 1 && (IsDigit(s[0]) || s[0] == '+' || s[0] == '-')
    ensures |s| >= 1 && AllDigits(s) && DigitsValue(s) <= INT_MAX ==> r == Ok(DigitsValue(s))
    ensures var d := Unsigned(s);
      r.Ok? <==> |d| >= 1 && AllDigits(d) && IsInt32(if s[0] == '-' then -(DigitsValue(d) as int) else DigitsValue(d))
    ensures r.Ok? ==> r.value == if s[0] == '-' then -(DigitsValue(Unsigned(s)) as int) else DigitsValue(Unsigned(s))
  {
    var signed := |s| > 0 && (s[0] == '-' || s[0] == '+');
    var digits := if signed then s[1..] else s;
    if |digits| == 0 || !AllDigits(digits) then Err(NotInteger)
    else
      var n: int := if signed && s[0] == '-' then -(DigitsValue(digits) as int) else DigitsValue(digits);
      if IsInt32(n) then Ok(n) else Err(NotInteger)
  }

  function DigitChar(d: nat): char
    requires d < 10
  {
    ('0' as int + d) as char
  }

  /** The decimal digits of n, without leading zeros. */
  function NatToString(n: nat): (r: string)
    ensures |r| >= 1 && AllDigits(r) && DigitsValue(r) == n
    ensures r[0] == '0' ==> n == 0
  {
    if n < 10 then [DigitChar(n)]
    else
      var r := NatToString(n / 10) + [DigitChar(n % 10)];
      assert r[..|r| - 1] == NatToString(n / 10);
      r
  }

  /** `Int.toString()`: a minus sign for negative numbers, then the digits. */
  function IntToString(n: int): string {
    if n < 0 then "-" + NatToString(-n) else NatToString(n)
  }

  /** Printing an `Int` and parsing it back gives the number. */
  lemma IntegerRoundTrip(n: int)
    requires IsInt32(n)
    ensures ParseInt(IntToString(n)) == Ok(n)
  {
    if n < 0 {
      var s := IntToString(n);
      assert s[1..] == NatToString(-n);
    }
  }

  /** The texts of the setting scenario: "3" is three, "Foo" is no integer. */
  lemma IntegerExamples()
    ensures ParseInt("3") == Ok(3)
    ensures ParseInt("-42") == Ok(-42)
    ensures ParseInt("Foo") == Err(NotInteger)
    ensures ParseInt("") == Err(NotInteger) && ParseInt("-") == Err(NotInteger)
  {
    assert DigitsValue("3") == 3;
    assert DigitsValue("42") == 42 by {
      assert "42"[..1] == "4";
    }
    assert "-42"[1..] == "42";
    assert !IsDigit("Foo"[0]);
    assert "-"[1..] == "";
  }

  /** One past the largest `Int` is out of range. */
  lemma IntegerOverflow()
    ensures ParseInt("2147483648") == Err(NotInteger)
  {
    var big := "2147483648";
    assert DigitsValue(big[..1]) == 2;
    assert DigitsValue(big[..2]) == 21 by { assert big[..2][..1] == big[..1]; }
    assert DigitsValue(big[..3]) == 214 by { assert big[..3][..2] == big[..2]; }
    assert DigitsValue(big[..4]) == 2147 by { assert big[..4][..3] == big[..3]; }
    assert DigitsValue(big[..5]) == 21474 by { assert big[..5][..4] == big[..4]; }
    assert DigitsValue(big[..6]) == 214748 by { assert big[..6][..5] == big[..5]; }
    assert DigitsValue(big[..7]) == 2147483 by { assert big[..7][..6] == big[..6]; }
    assert DigitsValue(big[..8]) == 21474836 by { assert big[..8][..7] == big[..7]; }
    assert DigitsValue(big[..9]) == 214748364 by { assert big[..9][..8] == big[..8]; }
    assert DigitsValue(big) == 2147483648 by { assert big[..9] == big[..|big| - 1]; }
  }

  // ---------------------------------------------------------------------
  // The three converters
  // ---------------------------------------------------------------------

  /** `fromString` of each converter; STRING takes the text as it is. */
  function FromString(c: Converter, s: string): (r: Result<Value, ConversionError>)
    ensures r.Ok? ==> Fits(c, r.value)
    ensures c == Str ==> r == Ok(StringValue(s))
    ensures c == YesNo && r.Err? ==> r.error == NotYesNo
    ensures c == Integer && r.Err? ==> r.error == NotInteger
  {
    match c
    case YesNo =>
      (match ParseYesNo(s)
       case Ok(b) => Ok(BoolValue(b))
       case Err(e) => Err(e))
    case Integer =>
      (match ParseInt(s)
       case Ok(n) => Ok(IntValue(n))
       case Err(e) => Err(e))
    case Str => Ok(StringValue(s))
  }

  /** `toString` of each converter: "Yes"/"No", the decimal number, the string itself. */
  function ToString(c: Converter, v: Value): string
    requires Fits(c, v)
  {
    match c
    case YesNo => ShowYesNo(v.b)
    case Integer => IntToString(v.i)
    case Str => v.s
  }

  /** Every value a converter can hold survives printing and parsing. */
  lemma RoundTrip(c: Converter, v: Value)
    requires Fits(c, v)
    ensures FromString(c, ToString(c, v)) == Ok(v)
  {
    match c
    case YesNo => YesNoRoundTrip(v.b);
    case Integer => IntegerRoundTrip(v.i);
    case Str =>
  }
}
