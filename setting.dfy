/**
 * One configuration setting (`Setting`): its fixed declaration (default,
 * converter, whether it is special, an optional validator, optional bounds)
 * and its current value, which every assignment routes through the bounds
 * check. The console is a class holding the lines still to be typed.
 */
module Settings {
  import opened Results
  import opened Converters

  /** The exceptions an assignment or a conversion raises. */
  datatype SettingError =
    | Conversion(error: ConversionError)  // from the converter
    | Rejected(reason: string)            // from the validator
    | BelowMinimum(min: int)              // "less than minimum (min)"
    | AboveMaximum(max: int)              // "greater than minimum (max)", as the message is written
    | NullValue                           // the `!!` on a missing value

  /**
   * What the setter decides for a new value: the minimum is checked first,
   * then the maximum, both inclusive. A bound compared with a missing value
   * fails on the missing value; with no bound, a missing value is accepted.
   */
  function CheckBounds(min: Option<int>, max: Option<int>, v: Option<Value>): (r: Option<SettingError>)
    ensures r.None? <==> InBounds(min, max, v)
    ensures r.Some? && r.value.BelowMinimum? ==> min == Some(r.value.min)
    ensures r.Some? && r.value.AboveMaximum? ==> max == Some(r.value.max)
  {
    if min.Some? && v.None? then Some(NullValue)
    else if min.Some? && v.value.IntValue? && v.value.i < min.value then Some(BelowMinimum(min.value))
    else if max.Some? && v.None? then Some(NullValue)
    else if max.Some? && v.value.IntValue? && v.value.i > max.value then Some(AboveMaximum(max.value))
    else None
  }

  /** A value the setter accepts: present whenever a bound is set, and within every bound that is. */
  predicate InBounds(min: Option<int>, max: Option<int>, v: Option<Value>) {
    && ((min.Some? || max.Some?) ==> v.Some?)
    && (min.Some? && v.Some? && v.value.IntValue? ==> min.value <= v.value.i)
    && (max.Some? && v.Some? && v.value.IntValue? ==> v.value.i <= max.value)
  }

  /** The message of each exception, as the source words it. */
  function Message(e: SettingError): string {
    match e
    case Conversion(NotYesNo) => "Value should be 'Yes' or 'No'"
    case Conversion(NotInteger) => "Value should be an integer"
    case Rejected(reason) => reason
    case BelowMinimum(m) => "less than minimum (" + IntToString(m) + ")"
    case AboveMaximum(m) => "greater than minimum (" + IntToString(m) + ")"
    case NullValue => "NullPointerException"
  }

  /** The console: the lines still to be typed, and what has been asked so far. */
  class Console {
    var lines: seq<string>
    var asked: seq<string>

    constructor (lines: seq<string>)
      ensures this.lines == lines && asked == []
    {
      this.lines := lines;
      asked := [];
    }

    /** `readLine`: the next line, or none once input has ended. */
    method ReadLine() returns (line: Option<string>)
      modifies this`lines
      ensures old(lines) == [] ==> line == None && lines == []
      ensures old(lines) != [] ==> line == Some(old(lines)[0]) && lines == old(lines)[1..]
    {
      if lines == [] {
        line := None;
      } else {
        line := Some(lines[0]);
        lines := lines[1..];
      }
    }

    method Ask(name: string)
      modifies this`asked
      ensures asked == old(asked) + [name]
    {
      asked := asked + [name];
    }
  }

  class Setting {
    const defaultValue: Option<Value>
    const converter: Converter
    /** Special settings (the credentials) are prompted for and saved differently. */
    const special: bool
    /** `validator`: given the text, a reason to reject it, or none to let it through. */
    const validator: Option<string -> Option<string>>
    const min: Option<int>
    const max: Option<int>
    var currentValue: Option<Value>

    /** What Kotlin's types guarantee: values are of the converter's kind, and bounds are on integers only. */
    ghost predicate Typed()
    {
      && (defaultValue.Some? ==> Fits(converter, defaultValue.value))
      && ((min.Some? || max.Some?) ==> converter == Integer)
    }

    /** A value this setting can hold: of the converter's kind and within the bounds. */
    ghost predicate Admits(v: Option<Value>)
    {
      && Typed()
      && (v.Some? ==> Fits(converter, v.value))
      && InBounds(min, max, v)
    }

    ghost predicate Valid()
      reads this
    {
      Admits(currentValue)
    }

    /**
     * The constructor's `init`, for a default the setter accepts (when it
     * does not, construction raises: see `Create`).
     */
    constructor (defaultValue: Option<Value>, converter: Converter, special: bool,
                 validator: Option<string -> Option<string>>, min: Option<int>, max: Option<int>)
      requires defaultValue.Some? ==> Fits(converter, defaultValue.value)
      requires (min.Some? || max.Some?) ==> converter == Integer
      requires CheckBounds(min, max, defaultValue).None?
      ensures Valid()
      ensures this.defaultValue == defaultValue && this.converter == converter && this.special == special
      ensures this.validator == validator
      ensures this.min == min && this.max == max
      ensures currentValue == defaultValue
    {
      this.defaultValue := defaultValue;
      this.converter := converter;
      this.special := special;
      this.validator := validator;
      this.min := min;
      this.max := max;
      currentValue := defaultValue;
    }

    /** The `value` setter: a rejected value leaves the current one as it was. */
    method SetValue(newValue: Option<Value>) returns (error: Option<SettingError>)
      requires Valid()
      requires newValue.Some? ==> Fits(converter, newValue.value)
      modifies this`currentValue
      ensures Valid()
      ensures error == CheckBounds(min, max, newValue)
      ensures currentValue == if error.None? then newValue else old(currentValue)
    {
      error := CheckBounds(min, max, newValue);
      if error.None? {
        currentValue := newValue;
      }
    }

    /** `setString` without its final assignment: the validator, then the converter, then the bounds. */
    function Parse(s: string): (r: Result<Value, SettingError>)
      requires Typed()
      ensures r.Ok? ==> Fits(converter, r.value) && InBounds(min, max, Some(r.value))
      ensures r.Ok? ==> FromString(converter, s) == Ok(r.value)
      ensures validator.Some? && validator.value(s).Some? ==> r == Err(Rejected(validator.value(s).value))
      ensures (validator.None? || validator.value(s).None?) && FromString(converter, s).Err? ==>
        r == Err(Conversion(FromString(converter, s).error))
      ensures (validator.None? || validator.value(s).None?) && FromString(converter, s).Ok? ==>
        var v := FromString(converter, s).value;
        r == if InBounds(min, max, Some(v)) then Ok(v) else Err(CheckBounds(min, max, Some(v)).value)
    {
      if validator.Some? && validator.value(s).Some? then Err(Rejected(validator.value(s).value))
      else match FromString(converter, s)
        case Err(e) => Err(Conversion(e))
        case Ok(v) =>
          match CheckBounds(min, max, Some(v))
          case Some(e) => Err(e)
          case None => Ok(v)
    }

    method SetString(s: string) returns (error: Option<SettingError>)
      requires Valid()
      modifies this`currentValue
      ensures Valid()
      ensures error.None? <==> Parse(s).Ok?
      ensures error.Some? ==> error == Some(Parse(s).error)
      ensures currentValue == if Parse(s).Ok? then Some(Parse(s).value) else old(currentValue)
    {
      if validator.Some? {
        var reason := validator.value(s);
        if reason.Some? {
          return Some(Rejected(reason.value));
        }
      }
      var converted := FromString(converter, s);
      if converted.Err? {
        return Some(Conversion(converted.error));
      }
      error := SetValue(Some(converted.value));
    }

    /** `toUserString`: the value as the converter prints it; the `!!` fails on a missing value. */
    function ToUserString(): (r: Result<string, SettingError>)
      requires Valid()
      reads this
      ensures r.Err? <==> currentValue.None?
      ensures r.Err? ==> r.error == NullValue
      ensures r.Ok? ==> r.value == ToString(converter, currentValue.value)
    {
      match currentValue
      case None => Err(NullValue)
      case Some(v) => Ok(ToString(converter, v))
    }

    /**
     * How the prompt loop ends on the lines typed at it: it stops at the first
     * empty line met while a value is present; every other line is parsed, and
     * a line that parses becomes the value (without ending the loop). Running
     * out of lines is the null that `readLine` returns at end of input.
     */
    function PromptOutcome(current: Option<Value>, lines: seq<string>): (r: Result<(Value, nat), SettingError>)
      requires Typed()
      decreases |lines|
      ensures r.Ok? ==> 1 <= r.value.1 <= |lines|
      ensures r.Err? ==> r.error == NullValue
    {
      if lines == [] then Err(NullValue)
      else if lines[0] == "" && current.Some? then Ok((current.value, 1))
      else Shift(PromptOutcome(AfterLine(current, lines[0]), lines[1..]), 1)
    }

    /**
     * The prompt ends on the blank line it consumes last, and its value is
     * the one present at the start or one that a line read on the way parsed to.
     */
    lemma {:induction false} PromptOutcomeMeaning(current: Option<Value>, lines: seq<string>)
      requires Typed()
      decreases |lines|
      ensures var r := PromptOutcome(current, lines);
        r.Ok? ==> (lines[r.value.1 - 1] == ""
          && (Some(r.value.0) == current || exists k | 0 <= k < r.value.1 :: Parse(lines[k]) == Ok(r.value.0)))
    {
      if lines != [] && !(lines[0] == "" && current.Some?) {
        var next := AfterLine(current, lines[0]);
        PromptOutcomeMeaning(next, lines[1..]);
        var r := PromptOutcome(next, lines[1..]);
        if r.Ok? {
          assert lines[r.value.1] == lines[1..][r.value.1 - 1];
          if Some(r.value.0) == next {
            if next != current {
              assert Parse(lines[0]) == Ok(r.value.0);
            }
          } else {
            var k :| 0 <= k < r.value.1 && Parse(lines[1..][k]) == Ok(r.value.0);
            assert lines[k + 1] == lines[1..][k];
          }
        }
      }
    }

    /** The value after one line typed at the prompt that does not end it. */
    function AfterLine(current: Option<Value>, line: string): Option<Value>
      requires Typed()
    {
      match Parse(line)
      case Ok(v) => Some(v)
      case Err(_) => current
    }

    /** A line that does not end the prompt is consumed, and the rest of the loop runs on. */
    lemma PromptUnfold(current: Option<Value>, lines: seq<string>)
      requires Typed() && lines != [] && !(lines[0] == "" && current.Some?)
      ensures PromptOutcome(current, lines) == Shift(PromptOutcome(AfterLine(current, lines[0]), lines[1..]), 1)
    {
    }

    /**
     * One round of the prompt loop: ask, read a line, and either stop (end of
     * input, or an empty line while a value is present) or hand the line to
     * `setString`, whose refusal is only printed.
     */
    method PromptRound(name: string, con: Console) returns (stop: Option<Option<SettingError>>)
      requires Valid()
      modifies this`currentValue, con
      ensures Valid() && con.asked == old(con.asked) + [name]
      ensures old(con.lines) == [] ==> stop == Some(Some(NullValue)) && con.lines == []
      ensures old(con.lines) != [] ==> con.lines == old(con.lines)[1..]
      ensures old(con.lines) != [] && old(con.lines)[0] == "" && old(currentValue).Some? ==>
        stop == Some(None) && currentValue == old(currentValue)
      ensures old(con.lines) != [] && !(old(con.lines)[0] == "" && old(currentValue).Some?) ==>
        stop == None && currentValue == AfterLine(old(currentValue), old(con.lines)[0])
      ensures stop.None? ==> PromptOutcome(old(currentValue), old(con.lines)) == Shift(PromptOutcome(currentValue, con.lines), 1)
      ensures stop.Some? ==> var out := PromptOutcome(old(currentValue), old(con.lines));
        && (stop.value.None? <==> out.Ok?)
        && (out.Ok? ==> currentValue.Some? && out.value == (currentValue.value, 1))
        && (out.Err? ==> stop.value == Some(NullValue) && con.lines == [])
    {
      con.Ask(name);
      var read := con.ReadLine();
      if read.None? {
        return Some(Some(NullValue));
      }
      var line := read.value;
      if line == "" && currentValue.Some? {
        return Some(None);
      }
      var _ := SetString(line);
      PromptUnfold(old(currentValue), old(con.lines));
      return None;
    }

    /**
     * `prompt`: asks for the setting by name until an empty line is typed
     * while a value is present. Every line that parses is assigned on the
     * way; the value afterwards is the last one assigned, or the old one.
     */
    method Prompt(name: string, con: Console) returns (error: Option<SettingError>)
      requires Valid()
      modifies this`currentValue, con
      ensures Valid()
      ensures var out := PromptOutcome(old(currentValue), old(con.lines));
        && (error.None? <==> out.Ok?)
        && (out.Ok? ==> currentValue == Some(out.value.0) && con.lines == old(con.lines)[out.value.1..])
        && (out.Err? ==> error == Some(NullValue) && con.lines == [])
    {
      ghost var lines0 := con.lines;
      ghost var taken := 0;
      while true
        invariant Valid()
        invariant 0 <= taken <= |lines0| && con.lines == lines0[taken..]
        invariant PromptOutcome(old(currentValue), lines0) == Shift(PromptOutcome(currentValue, con.lines), taken)
        decreases |con.lines|
      {
        var stop := PromptRound(name, con);
        if stop.Some? {
          return stop.value;
        }
        ShiftShift(PromptOutcome(currentValue, con.lines), 1, taken);
        taken := taken + 1;
      }
    }
  }

  /** An outcome of the prompt loop counted from `taken` lines further back. */
  function Shift(r: Result<(Value, nat), SettingError>, taken: nat): Result<(Value, nat), SettingError> {
    match r
    case Ok((v, n)) => Ok((v, n + taken))
    case Err(e) => Err(e)
  }

  lemma ShiftShift(r: Result<(Value, nat), SettingError>, a: nat, b: nat)
    ensures Shift(Shift(r, a), b) == Shift(r, a + b)
  {
  }

  /** Both bounds are inclusive: only values strictly outside them are refused, the minimum first. */
  lemma BoundsInclusive(lo: int, hi: int, n: int)
    requires lo <= hi
    ensures CheckBounds(Some(lo), Some(hi), Some(IntValue(n))).None? <==> lo <= n <= hi
    ensures n < lo ==> CheckBounds(Some(lo), Some(hi), Some(IntValue(n))) == Some(BelowMinimum(lo))
    ensures n > hi ==> CheckBounds(Some(lo), Some(hi), Some(IntValue(n))) == Some(AboveMaximum(hi))
  {
  }

  /** A missing value gets past the setter only when there is no bound at all. */
  lemma MissingValueNeedsNoBounds(min: Option<int>, max: Option<int>)
    ensures CheckBounds(min, max, None).None? <==> min.None? && max.None?
    ensures CheckBounds(min, max, None).Some? ==> CheckBounds(min, max, None) == Some(NullValue)
  {
  }

  /**
   * What `toUserString` prints, `setString` reads back as the same value,
   * provided the validator still lets the text through: save and load keep
   * every setting.
   */
  lemma SettingRoundTrip(setting: Setting, v: Value)
    requires setting.Typed() && Fits(setting.converter, v) && InBounds(setting.min, setting.max, Some(v))
    requires setting.validator.Some? ==> setting.validator.value(ToString(setting.converter, v)).None?
    ensures setting.Parse(ToString(setting.converter, v)) == Ok(v)
  {
    RoundTrip(setting.converter, v);
  }

  /** An INTEGER setting on 0..100 with default 5, set from "3": it holds 3 and shows "3". */
  method IntegerScenario() returns (initial: Option<Value>, value: Option<Value>, shown: Result<string, SettingError>)
    ensures initial == Some(IntValue(5))
    ensures value == Some(IntValue(3)) && shown == Ok("3")
  {
    var setting := new Setting(Some(IntValue(5)), Integer, false, None, Some(0), Some(100));
    initial := setting.currentValue;
    IntegerExamples();
    var _ := setting.SetString("3");
    value := setting.currentValue;
    shown := setting.ToUserString();
  }

  /** "Foo" is refused by an INTEGER setting and by a YES_NO setting, and neither value changes. */
  method InvalidScenarios(foo: string) returns (intError: Option<SettingError>, intValue: Option<Value>,
                                                 flagError: Option<SettingError>, flagValue: Option<Value>)
    requires foo == "Foo"
    ensures intError == Some(Conversion(NotInteger)) && intValue == Some(IntValue(5))
    ensures flagError == Some(Conversion(NotYesNo)) && flagValue == None
  {
    IntegerExamples();
    YesNoExamples("YES", "No", foo);
    var number := new Setting(Some(IntValue(5)), Integer, false, None, Some(0), Some(100));
    intError := number.SetString(foo);
    intValue := number.currentValue;
    var flag := new Setting(None, YesNo, false, None, None, None);
    flagError := flag.SetString(foo);
    flagValue := flag.currentValue;
  }

  /** `init` as a whole: construction raises exactly when the setter rejects the default. */
  method Create(defaultValue: Option<Value>, converter: Converter, special: bool,
                validator: Option<string -> Option<string>>, min: Option<int>, max: Option<int>)
    returns (r: Result<Setting, SettingError>)
    requires defaultValue.Some? ==> Fits(converter, defaultValue.value)
    requires (min.Some? || max.Some?) ==> converter == Integer
    ensures r.Err? <==> CheckBounds(min, max, defaultValue).Some?
    ensures r.Err? ==> r.error == CheckBounds(min, max, defaultValue).value
    ensures r.Ok? ==> fresh(r.value) && r.value.Valid() && r.value.currentValue == defaultValue
    ensures r.Ok? ==> r.value.converter == converter && r.value.special == special
    ensures r.Ok? ==> r.value.validator == validator && r.value.min == min && r.value.max == max
  {
    var check := CheckBounds(min, max, defaultValue);
    if check.Some? {
      return Err(check.value);
    }
    var s := new Setting(defaultValue, converter, special, validator, min, max);
    return Ok(s);
  }
}
