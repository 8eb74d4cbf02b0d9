/**
 * The configuration (`Configuration`): the fourteen settings with their
 * defaults and bounds, loading from a properties table, saving to one, and
 * the start-up sequence that loads, asks on the console, saves and finally
 * insists that every setting has a value. The properties file is a map from
 * keys to texts (none when the file does not exist); the field reflection of
 * `allConfigFields` is the static table `SpecOf`.
 */
module Config {
  import opened Results
  import opened Converters
  import opened Settings

  /** The fields of type Setting, by name. */
  datatype Key =
    | BUF_SIZE | DEBUG | SOCKET_TIMEOUT | LISTEN_BACKLOG | STOP_ON_PROXY_AUTH_ERROR | MAX_ACTIVE_REQUESTS
    | CONNECTION_CLOSE | LISTEN_ADDRESS | LISTEN_PORT | UPSTREAM_PROXY_HOST | UPSTREAM_PROXY_PORT
    | USERNAME | PASSWORD | SAVE_PASS

  /** The keys in declaration order. */
  const KEYS: seq<Key> := [
    BUF_SIZE, DEBUG, SOCKET_TIMEOUT, LISTEN_BACKLOG, STOP_ON_PROXY_AUTH_ERROR, MAX_ACTIVE_REQUESTS,
    CONNECTION_CLOSE, LISTEN_ADDRESS, LISTEN_PORT, UPSTREAM_PROXY_HOST, UPSTREAM_PROXY_PORT,
    USERNAME, PASSWORD, SAVE_PASS]

  /** Where a key stands in KEYS. */
  function Index(k: Key): (i: nat)
    ensures i < |KEYS| && KEYS[i] == k
  {
    match k
    case BUF_SIZE => 0
    case DEBUG => 1
    case SOCKET_TIMEOUT => 2
    case LISTEN_BACKLOG => 3
    case STOP_ON_PROXY_AUTH_ERROR => 4
    case MAX_ACTIVE_REQUESTS => 5
    case CONNECTION_CLOSE => 6
    case LISTEN_ADDRESS => 7
    case LISTEN_PORT => 8
    case UPSTREAM_PROXY_HOST => 9
    case UPSTREAM_PROXY_PORT => 10
    case USERNAME => 11
    case PASSWORD => 12
    case SAVE_PASS => 13
  }

  /** The field name, which is also the key in the properties file. */
  function Name(k: Key): string {
    match k
    case BUF_SIZE => "BUF_SIZE"
    case DEBUG => "DEBUG"
    case SOCKET_TIMEOUT => "SOCKET_TIMEOUT"
    case LISTEN_BACKLOG => "LISTEN_BACKLOG"
    case STOP_ON_PROXY_AUTH_ERROR => "STOP_ON_PROXY_AUTH_ERROR"
    case MAX_ACTIVE_REQUESTS => "MAX_ACTIVE_REQUESTS"
    case CONNECTION_CLOSE => "CONNECTION_CLOSE"
    case LISTEN_ADDRESS => "LISTEN_ADDRESS"
    case LISTEN_PORT => "LISTEN_PORT"
    case UPSTREAM_PROXY_HOST => "UPSTREAM_PROXY_HOST"
    case UPSTREAM_PROXY_PORT => "UPSTREAM_PROXY_PORT"
    case USERNAME => "USERNAME"
    case PASSWORD => "PASSWORD"
    case SAVE_PASS => "SAVE_PASS"
  }

  /** The lookup `allConfigFields[key]` makes: the setting a properties key names, if any. */
  function KeyNamed(name: string): (r: Option<Key>)
    ensures r.Some? ==> Name(r.value) == name
    ensures r.None? ==> forall k :: Name(k) != name
  {
    if name == "BUF_SIZE" then Some(BUF_SIZE)
    else if name == "DEBUG" then Some(DEBUG)
    else if name == "SOCKET_TIMEOUT" then Some(SOCKET_TIMEOUT)
    else if name == "LISTEN_BACKLOG" then Some(LISTEN_BACKLOG)
    else if name == "STOP_ON_PROXY_AUTH_ERROR" then Some(STOP_ON_PROXY_AUTH_ERROR)
    else if name == "MAX_ACTIVE_REQUESTS" then Some(MAX_ACTIVE_REQUESTS)
    else if name == "CONNECTION_CLOSE" then Some(CONNECTION_CLOSE)
    else if name == "LISTEN_ADDRESS" then Some(LISTEN_ADDRESS)
    else if name == "LISTEN_PORT" then Some(LISTEN_PORT)
    else if name == "UPSTREAM_PROXY_HOST" then Some(UPSTREAM_PROXY_HOST)
    else if name == "UPSTREAM_PROXY_PORT" then Some(UPSTREAM_PROXY_PORT)
    else if name == "USERNAME" then Some(USERNAME)
    else if name == "PASSWORD" then Some(PASSWORD)
    else if name == "SAVE_PASS" then Some(SAVE_PASS)
    else None
  }

  /** Every field is found under its own name. */
  lemma KeyNamedName(k: Key)
    ensures KeyNamed(Name(k)) == Some(k)
  {
  }

  /** Adding a name to a set of names adds the field of that name, if any, and no other. */
  lemma AddName(names: set<string>, name: string)
    ensures forall k :: Name(k) in names + {name} <==> Name(k) in names || KeyNamed(name) == Some(k)
  {
    forall k ensures Name(k) in names + {name} <==> Name(k) in names || KeyNamed(name) == Some(k) {
      KeyNamedName(k);
    }
  }

  /** No two fields share a name. */
  lemma NameInjective()
    ensures forall k1, k2 | Name(k1) == Name(k2) :: k1 == k2
  {
    forall k1, k2 | Name(k1) == Name(k2) ensures k1 == k2 {
      KeyNamedName(k1);
      KeyNamedName(k2);
    }
  }

  /** Only the credentials are special. */
  predicate Special(k: Key) {
    k == USERNAME || k == PASSWORD || k == SAVE_PASS
  }

  /** One declared setting: its constructor arguments. */
  datatype Spec = Spec(defaultValue: Option<Value>, converter: Converter, special: bool,
                       validated: bool, min: Option<int>, max: Option<int>)

  /**
   * The declaration of each field. The USERNAME default is the environment's
   * USERNAME variable; LISTEN_ADDRESS is the only one with a validator.
   */
  function SpecOf(k: Key, envUser: Option<string>): (s: Spec)
    ensures s.special <==> Special(k)
  {
    match k
    case BUF_SIZE => Spec(Some(IntValue(1024)), Integer, false, false, Some(100), None)
    case DEBUG => Spec(Some(BoolValue(true)), YesNo, false, false, None, None)
    case SOCKET_TIMEOUT => Spec(Some(IntValue(180000)), Integer, false, false, Some(0), None)
    case LISTEN_BACKLOG => Spec(Some(IntValue(50)), Integer, false, false, Some(0), None)
    case STOP_ON_PROXY_AUTH_ERROR => Spec(Some(BoolValue(true)), YesNo, false, false, None, None)
    case MAX_ACTIVE_REQUESTS => Spec(Some(IntValue(20)), Integer, false, false, Some(1), None)
    case CONNECTION_CLOSE => Spec(Some(BoolValue(true)), YesNo, false, false, None, None)
    case LISTEN_ADDRESS => Spec(Some(StringValue("127.0.0.127")), Str, false, true, None, None)
    case LISTEN_PORT => Spec(Some(IntValue(8080)), Integer, false, false, Some(0), Some(65535))
    case UPSTREAM_PROXY_HOST => Spec(None, Str, false, false, None, None)
    case UPSTREAM_PROXY_PORT => Spec(Some(IntValue(8080)), Integer, false, false, Some(1), Some(65535))
    case USERNAME => Spec(if envUser.Some? then Some(StringValue(envUser.value)) else None, Str, true, false, None, None)
    case PASSWORD => Spec(None, Str, true, false, None, None)
    case SAVE_PASS => Spec(Some(BoolValue(false)), YesNo, true, false, None, None)
  }

  /** A declared setting is well typed and its default gets past its own setter. */
  predicate Admissible(s: Spec) {
    && (s.defaultValue.Some? ==> Fits(s.converter, s.defaultValue.value))
    && ((s.min.Some? || s.max.Some?) ==> s.converter == Integer)
    && CheckBounds(s.min, s.max, s.defaultValue).None?
  }

  /** Every default lies within its bounds, so building the configuration never raises. */
  lemma DefaultsAdmissible(k: Key, envUser: Option<string>)
    ensures Admissible(SpecOf(k, envUser))
  {
  }

  /** KEYS lists every field once. */
  lemma KeysDistinct()
    ensures forall i | 0 <= i < |KEYS| :: Index(KEYS[i]) == i
  {
  }

  /** Every field is in KEYS. */
  lemma KeysComplete()
    ensures forall k :: k in KEYS
  {
    forall k ensures k in KEYS {
      assert KEYS[Index(k)] == k;
    }
  }

  /** The bounds of the numeric settings, as declared; only these four and the backlog and timeout have any. */
  lemma NumericBounds(envUser: Option<string>)
    ensures SpecOf(BUF_SIZE, envUser).min == Some(100) && SpecOf(BUF_SIZE, envUser).max == None
    ensures SpecOf(MAX_ACTIVE_REQUESTS, envUser).min == Some(1)
    ensures SpecOf(LISTEN_PORT, envUser).min == Some(0) && SpecOf(LISTEN_PORT, envUser).max == Some(65535)
    ensures SpecOf(UPSTREAM_PROXY_PORT, envUser).min == Some(1) && SpecOf(UPSTREAM_PROXY_PORT, envUser).max == Some(65535)
    ensures forall k | SpecOf(k, envUser).min.Some? || SpecOf(k, envUser).max.Some? ::
      k in {BUF_SIZE, SOCKET_TIMEOUT, LISTEN_BACKLOG, MAX_ACTIVE_REQUESTS, LISTEN_PORT, UPSTREAM_PROXY_PORT}
  {
  }

  /** Where the properties come from, as `load` is written: a missing file always raises. */
  datatype LoadError =
    | ConfigMissing   // "Configuration file proxyauth.properties not found", when the file is required
    | ReaderFailed    // FileReader's own FileNotFoundException

  function LoadSourceAsWritten(file: Option<map<string, string>>, required: bool): (r: Result<map<string, string>, LoadError>)
    ensures file.Some? ==> r == Ok(file.value)
    ensures file.None? ==> r.Err?
  {
    if file.None? && required then Err(ConfigMissing)
    else if file.None? then Err(ReaderFailed)
    else Ok(file.value)
  }

  /** The only call, `load(false)`, still raises when there is no file yet. */
  lemma OptionalLoadFailsAsWritten()
    ensures LoadSourceAsWritten(None, false) == Err(ReaderFailed)
  {
  }

  /** Where the properties come from, as the `required` flag intends: a missing optional file is empty. */
  function LoadSource(file: Option<map<string, string>>, required: bool): (r: Result<map<string, string>, LoadError>)
    ensures r.Err? <==> file.None? && required
    ensures file.None? && !required ==> r == Ok(map[])
    ensures file.Some? ==> r == Ok(file.value)
  {
    if file.None? && required then Err(ConfigMissing)
    else if file.None? then Ok(map[])
    else Ok(file.value)
  }

  /** Both agree whenever the file exists or is required. */
  lemma LoadSourcesAgree(file: Option<map<string, string>>, required: bool)
    requires file.Some? || required
    ensures LoadSource(file, required) == LoadSourceAsWritten(file, required)
  {
  }

  /** The failures `init` passes on. */
  datatype InitError =
    | ConsoleClosed        // readLine or readPassword returned null
    | SaveFailed           // the `!!` on a missing SAVE_PASS
    | NotSet(key: Key)     // "Setting <key> is not set"

  /** How `load` went: keys the table does not know are discarded, keys whose text is refused are reported. */
  datatype LoadReport = LoadReport(discarded: set<string>, failed: set<Key>)

  /** What a console line for the username becomes: an empty line keeps the current name, or "". */
  function UsernameEntry(line: string, current: Option<Value>): (r: Value)
    requires current.Some? ==> current.value.StringValue?
    ensures line != "" ==> r == StringValue(line)
    ensures line == "" && current.Some? ==> r == current.value
    ensures line == "" && current.None? ==> r == StringValue("")
  {
    if line != "" then StringValue(line)
    else if current.Some? then current.value
    else StringValue("")
  }

  /** The setting was built from the declaration. */
  ghost predicate Matches(setting: Setting, s: Spec, canListen: string -> Option<string>) {
    && setting.defaultValue == s.defaultValue && setting.converter == s.converter
    && setting.special == s.special
    && setting.validator == (if s.validated then Some(canListen) else None)
    && setting.min == s.min && setting.max == s.max
  }

  /**
   * The username line (an empty line keeps the current name, or ""), then
   * the password line, each assigned to its (string) setting.
   */
  method ReadCredentials(username: Setting, password: Setting, con: Console) returns (r: Result<(), InitError>)
    requires username.Valid() && password.Valid() && username.converter == Str && password.converter == Str
    modifies username`currentValue, password`currentValue, con
    ensures username.Valid() && password.Valid()
    ensures r.Err? ==> r.error == ConsoleClosed
    ensures r.Ok? <==> |old(con.lines)| >= 2
    ensures r.Ok? ==> con.lines == old(con.lines)[2..]
    ensures r.Ok? ==> password.currentValue == Some(StringValue(old(con.lines)[1]))
    ensures r.Ok? && username != password ==>
      username.currentValue == Some(UsernameEntry(old(con.lines)[0], old(username.currentValue)))
  {
    con.Ask("Username");
    var user := con.ReadLine();
    if user.None? {
      return Err(ConsoleClosed);
    }
    var current := username.currentValue;
    var _ := username.SetValue(Some(UsernameEntry(user.value, current)));
    con.Ask("Password");
    var pass := con.ReadLine();
    if pass.None? {
      return Err(ConsoleClosed);
    }
    var _ := password.SetValue(Some(StringValue(pass.value)));
    return Ok(());
  }

  /** The setting of field k, as declared and holding its default. */
  ghost predicate Built(setting: Setting, k: Key, envUser: Option<string>, canListen: string -> Option<string>)
    reads setting
  {
    && setting.Valid() && (setting.special <==> Special(k))
    && Matches(setting, SpecOf(k, envUser), canListen) && setting.currentValue == SpecOf(k, envUser).defaultValue
  }

  /** One declared field: its setting, built from the table. */
  method NewSetting(k: Key, envUser: Option<string>, canListen: string -> Option<string>) returns (setting: Setting)
    ensures fresh(setting) && Built(setting, k, envUser, canListen)
  {
    var s := SpecOf(k, envUser);
    DefaultsAdmissible(k, envUser);
    setting := new Setting(s.defaultValue, s.converter, s.special,
                           if s.validated then Some(canListen) else None, s.min, s.max);
  }

  /** The settings of all fields, in the order of KEYS, each a new object. */
  method NewSettings(envUser: Option<string>, canListen: string -> Option<string>) returns (built: seq<Setting>)
    ensures |built| == |KEYS|
    ensures forall a, b | 0 <= a < b < |built| :: built[a] != built[b]
    ensures forall j | 0 <= j < |built| :: fresh(built[j]) && Built(built[j], KEYS[j], envUser, canListen)
  {
    built := [];
    while |built| < |KEYS|
      invariant |built| <= |KEYS|
      invariant forall a, b | 0 <= a < b < |built| :: built[a] != built[b]
      invariant forall j | 0 <= j < |built| :: fresh(built[j]) && Built(built[j], KEYS[j], envUser, canListen)
    {
      var setting := NewSetting(KEYS[|built|], envUser, canListen);
      built := built + [setting];
    }
  }

  /** One valid setting per field, no two fields sharing one, the credentials typed as declared. */
  ghost predicate ValidFields(fields: map<Key, Setting>)
    reads fields.Values
  {
    && (forall k :: k in fields)
    && (forall k1, k2 | k1 in fields && k2 in fields && k1 != k2 :: fields[k1] != fields[k2])
    && (forall k | k in fields :: fields[k].Valid() && (fields[k].special <==> Special(k)))
    && fields[USERNAME].converter == Str && fields[PASSWORD].converter == Str && fields[SAVE_PASS].converter == YesNo
  }

  /** Settings built from the table for every field make a valid configuration. */
  lemma BuiltValid(built: seq<Setting>, fields: map<Key, Setting>, envUser: Option<string>, canListen: string -> Option<string>)
    requires |built| == |KEYS|
    requires forall a, b | 0 <= a < b < |built| :: built[a] != built[b]
    requires forall j | 0 <= j < |built| :: Built(built[j], KEYS[j], envUser, canListen)
    requires forall k :: k in fields && fields[k] == built[Index(k)]
    ensures ValidFields(fields)
    ensures forall k :: Built(fields[k], k, envUser, canListen)
  {
    forall k1, k2 | k1 != k2 ensures fields[k1] != fields[k2] {
      var a, b := Index(k1), Index(k2);
      assert a != b;
      if a < b {
        assert built[a] != built[b];
      } else {
        assert built[b] != built[a];
      }
    }
    forall k ensures Built(fields[k], k, envUser, canListen) {
      assert Built(built[Index(k)], KEYS[Index(k)], envUser, canListen);
    }
    assert Built(fields[USERNAME], USERNAME, envUser, canListen);
    assert Built(fields[PASSWORD], PASSWORD, envUser, canListen);
    assert Built(fields[SAVE_PASS], SAVE_PASS, envUser, canListen);
  }

  /** What Kotlin's types guarantee of every setting. */
  ghost predicate TypedFields(fields: map<Key, Setting>) {
    forall k :: k in fields && fields[k].Typed()
  }

  /** The value a setting has after `load` handed it the keys `names` of the table `props`. */
  ghost function Merged(setting: Setting, k: Key, before: Option<Value>, props: map<string, string>, names: set<string>): Option<Value>
    requires setting.Typed() && names <= props.Keys
  {
    if Name(k) in names && setting.Parse(props[Name(k)]).Ok? then Some(setting.Parse(props[Name(k)]).value)
    else before
  }

  /**
   * The invariant of the loop of `load` once it handled the keys `names` of
   * `props`: the names without a field are discarded, the fields whose
   * setting refused its text failed, and every value is merged.
   */
  ghost predicate LoadedSoFar(fields: map<Key, Setting>, values: map<Key, Option<Value>>, props: map<string, string>,
                              names: set<string>, before: map<Key, Option<Value>>, discarded: set<string>, failed: set<Key>)
  {
    && TypedFields(fields) && names <= props.Keys
    && (forall name :: name in discarded <==> name in names && KeyNamed(name).None?)
    && (forall k :: k in failed <==> Name(k) in names && fields[k].Parse(props[Name(k)]).Err?)
    && (forall k :: k in before && k in values && values[k] == Merged(fields[k], k, before[k], props, names))
  }

  /** Before the first key, nothing is discarded, nothing failed and every value is as it was. */
  lemma LoadStart(fields: map<Key, Setting>, values: map<Key, Option<Value>>, props: map<string, string>)
    requires TypedFields(fields) && forall k :: k in values
    ensures LoadedSoFar(fields, values, props, {}, values, {}, {})
  {
  }

  /** After the last key: what the loop of `load` reports and leaves, for the whole table. */
  lemma LoadEnd(fields: map<Key, Setting>, values: map<Key, Option<Value>>, props: map<string, string>,
                before: map<Key, Option<Value>>, discarded: set<string>, failed: set<Key>)
    requires TypedFields(fields) && LoadedSoFar(fields, values, props, props.Keys, before, discarded, failed)
    ensures forall name :: name in discarded <==> name in props && KeyNamed(name).None?
    ensures forall k :: k in failed <==> Name(k) in props && fields[k].Parse(props[Name(k)]).Err?
    ensures forall k :: k in values && k in before && values[k] == Merged(fields[k], k, before[k], props, props.Keys)
  {
  }

  /** A name without a field is discarded, and nothing else changes. */
  lemma LoadDiscards(fields: map<Key, Setting>, values: map<Key, Option<Value>>, props: map<string, string>, names: set<string>,
                     name: string, before: map<Key, Option<Value>>, discarded: set<string>, failed: set<Key>)
    requires TypedFields(fields) && names <= props.Keys && name in props && name !in names
    requires KeyNamed(name).None?
    requires LoadedSoFar(fields, values, props, names, before, discarded, failed)
    ensures LoadedSoFar(fields, values, props, names + {name}, before, discarded + {name}, failed)
  {
    AddName(names, name);
  }

  /**
   * A name with a field is handed to its setting: the value becomes the
   * parsed text, or stays when the setting refuses it and the field failed.
   */
  lemma LoadHands(fields: map<Key, Setting>, values: map<Key, Option<Value>>, values': map<Key, Option<Value>>,
                  props: map<string, string>, names: set<string>, name: string, before: map<Key, Option<Value>>,
                  discarded: set<string>, failed: set<Key>)
    requires TypedFields(fields) && names <= props.Keys && name in props && name !in names
    requires KeyNamed(name).Some?
    requires LoadedSoFar(fields, values, props, names, before, discarded, failed)
    requires forall k :: k in values' && (k != KeyNamed(name).value ==> values'[k] == values[k])
    requires var key := KeyNamed(name).value;
      var r := fields[key].Parse(props[name]);
      values'[key] == if r.Ok? then Some(r.value) else values[key]
    ensures var key := KeyNamed(name).value;
      LoadedSoFar(fields, values', props, names + {name}, before,
                  discarded, if fields[key].Parse(props[name]).Err? then failed + {key} else failed)
  {
    AddName(names, name);
    KeyNamedName(KeyNamed(name).value);
  }

  /** The table `save` builds from the fields `keys`, in order, from the text of each field it keeps. */
  ghost function Table(entries: map<Key, string>, keys: seq<Key>): map<string, string> {
    if keys == [] then map[]
    else
      var k := keys[|keys| - 1];
      var table := Table(entries, keys[..|keys| - 1]);
      if k in entries then table[Name(k) := entries[k]] else table
  }

  /** One more key of a prefix: its text, if it is kept, is entered under its name. */
  lemma TableStep(entries: map<Key, string>, keys: seq<Key>, i: nat)
    requires i < |keys|
    ensures Table(entries, keys[..i + 1])
      == if keys[i] in entries then Table(entries, keys[..i])[Name(keys[i]) := entries[keys[i]]] else Table(entries, keys[..i])
  {
    assert keys[..i + 1][..i] == keys[..i];
  }

  /** The whole of the keys is their longest prefix. */
  lemma TableWhole(entries: map<Key, string>, keys: seq<Key>)
    ensures Table(entries, keys[..|keys|]) == Table(entries, keys)
  {
    assert keys[..|keys|] == keys;
  }

  /** Every name in the table is that of a kept field among the keys. */
  lemma {:induction false} TableName(entries: map<Key, string>, keys: seq<Key>, name: string) returns (k: Key)
    requires name in Table(entries, keys)
    ensures k in entries && k in keys && Name(k) == name
  {
    var last := keys[|keys| - 1];
    if name == Name(last) && last in entries {
      k := last;
    } else {
      k := TableName(entries, keys[..|keys| - 1], name);
    }
  }

  /** The table holds each kept field among the keys under its name, with its text. */
  lemma {:induction false} TableEntry(entries: map<Key, string>, keys: seq<Key>, k: Key)
    requires k in entries && k in keys
    ensures Name(k) in Table(entries, keys) && Table(entries, keys)[Name(k)] == entries[k]
  {
    var last := keys[|keys| - 1];
    if k != last {
      NameInjective();
      assert k in keys[..|keys| - 1] by {
        var j :| 0 <= j < |keys| && keys[j] == k;
        assert keys[..|keys| - 1][j] == k;
      }
      TableEntry(entries, keys[..|keys| - 1], k);
    }
  }

  /**
   * The invariant of the first pass of `init` after the first i fields:
   * exactly the asked ones among them were prompted for and now have a
   * value, and every other setting still holds its value from `before`.
   */
  ghost predicate PromptedSoFar(values: map<Key, Option<Value>>, i: nat, doWizard: bool, before: map<Key, Option<Value>>, asked: set<Key>) {
    forall k :: k in before && k in values
      && (k in asked <==> Index(k) < i && (before[k].None? || doWizard) && !Special(k))
      && (if k in asked then values[k].Some? else values[k] == before[k])
  }

  /** A field that is not asked for keeps its value. */
  lemma PromptSkips(values: map<Key, Option<Value>>, i: nat, doWizard: bool, before: map<Key, Option<Value>>, asked: set<Key>)
    requires i < |KEYS| && KEYS[i] in values && PromptedSoFar(values, i, doWizard, before, asked)
    requires !((values[KEYS[i]].None? || doWizard) && !Special(KEYS[i]))
    ensures PromptedSoFar(values, i + 1, doWizard, before, asked)
  {
    KeysDistinct();
  }

  /** A field that is asked for gets a value, and no other field changes. */
  lemma PromptAsks(values: map<Key, Option<Value>>, values': map<Key, Option<Value>>, i: nat, doWizard: bool,
                   before: map<Key, Option<Value>>, asked: set<Key>)
    requires i < |KEYS| && KEYS[i] in values && PromptedSoFar(values, i, doWizard, before, asked)
    requires (values[KEYS[i]].None? || doWizard) && !Special(KEYS[i])
    requires forall k :: k in values' && (k != KEYS[i] ==> values'[k] == values[k])
    requires values'[KEYS[i]].Some?
    ensures PromptedSoFar(values', i + 1, doWizard, before, asked + {KEYS[i]})
  {
    KeysDistinct();
  }

  /**
   * The prompt for one field, as the first pass of `init` sees it: that
   * setting gets a value, or the console ran out of lines; no other setting
   * changes.
   */
  method PromptField(fields: map<Key, Setting>, key: Key, con: Console) returns (entered: bool)
    requires ValidFields(fields)
    modifies fields[key], con
    ensures ValidFields(fields)
    ensures forall k | k != key :: fields[k].currentValue == old(fields[k].currentValue)
    ensures entered <==> fields[key].PromptOutcome(old(fields[key].currentValue), old(con.lines)).Ok?
    ensures entered ==> fields[key].currentValue.Some?
  {
    var setting := fields[key];
    var error := setting.Prompt(Name(key), con);
    forall k | k != key ensures fields[k].currentValue == old(fields[k].currentValue) && fields[k].Valid() {
      assert fields[k] != setting;
    }
    entered := error.None?;
  }

  class Configuration {
    /** `allConfigFields`: every setting by its field. */
    const fields: map<Key, Setting>

    ghost predicate Valid()
      reads this, fields.Values
    {
      ValidFields(fields)
    }

    /**
     * The singleton's initialisation: one setting per declared field, each
     * holding its default. `canListen` is the LISTEN_ADDRESS validator.
     */
    constructor (envUser: Option<string>, canListen: string -> Option<string>)
      ensures Valid()
      ensures forall k :: fresh(fields[k]) && Built(fields[k], k, envUser, canListen)
    {
      var built := NewSettings(envUser, canListen);
      var m := map k: Key | true :: built[Index(k)];
      BuiltValid(built, m, envUser, canListen);
      fields := m;
    }

    /** The value of every setting, by its field. */
    ghost function Values(): (v: map<Key, Option<Value>>)
      requires Valid()
      reads this, fields.Values
      ensures forall k :: k in v && v[k] == fields[k].currentValue
    {
      map k: Key | true :: fields[k].currentValue
    }

    /** The state of the loop of `load` once it handled the keys `names` of `props`. */
    ghost predicate Loaded(props: map<string, string>, names: set<string>, before: map<Key, Option<Value>>,
                           discarded: set<string>, failed: set<Key>)
      reads this, fields.Values
    {
      Valid() && LoadedSoFar(fields, Values(), props, names, before, discarded, failed)
    }

    /**
     * One key of the file: handed to the setting of that name, which keeps
     * its value when it refuses the text, or discarded when there is none.
     */
    method LoadKey(props: map<string, string>, ghost names: set<string>, name: string, ghost before: map<Key, Option<Value>>,
                   discarded: set<string>, failed: set<Key>)
      returns (discarded': set<string>, failed': set<Key>)
      requires name in props && name !in names && Loaded(props, names, before, discarded, failed)
      modifies fields.Values
      ensures Loaded(props, names + {name}, before, discarded', failed')
    {
      var key := KeyNamed(name);
      if key.None? {
        LoadDiscards(fields, Values(), props, names, name, before, discarded, failed);
        return discarded + {name}, failed;
      }
      ghost var values := Values();
      var setting := fields[key.value];
      var error := setting.SetString(props[name]);
      forall k | k != key.value ensures fields[k].currentValue == old(fields[k].currentValue) {
        assert fields[k] != setting;
      }
      forall k | k != key.value ensures fields[k].Valid() {
        assert fields[k] != setting;
      }
      LoadHands(fields, values, Values(), props, names, name, before, discarded, failed);
      return discarded, if error.Some? then failed + {key.value} else failed;
    }

    /**
     * The loop of `load`: each key of the table is handed to its setting's
     * `setString`; a key without a setting is discarded, a refused text is
     * reported and the setting keeps its value. The keys come in no
     * particular order.
     */
    method LoadKeys(props: map<string, string>, ghost before: map<Key, Option<Value>>)
      returns (discarded: set<string>, failed: set<Key>)
      requires Loaded(props, {}, before, {}, {})
      modifies fields.Values
      ensures Loaded(props, props.Keys, before, discarded, failed)
    {
      var keys := props.Keys;
      discarded, failed := {}, {};
      ghost var names: set<string> := {};
      while keys != {}
        invariant keys <= props.Keys
        invariant forall x :: x in names <==> x in props && x !in keys
        invariant Loaded(props, names, before, discarded, failed)
        decreases |keys|
      {
        var name :| name in keys;
        discarded, failed := LoadKey(props, names, name, before, discarded, failed);
        keys := keys - {name};
        names := names + {name};
      }
      assert names == props.Keys;
    }

    /** What the loop of `load` reports, and the value it leaves in every setting. */
    method LoadTable(props: map<string, string>) returns (report: LoadReport)
      requires Valid()
      modifies fields.Values
      ensures Valid()
      ensures forall name :: name in report.discarded <==> name in props && KeyNamed(name).None?
      ensures forall k :: k in report.failed <==> Name(k) in props && fields[k].Parse(props[Name(k)]).Err?
      ensures forall k :: fields[k].currentValue == Merged(fields[k], k, old(fields[k].currentValue), props, props.Keys)
    {
      ghost var before := Values();
      LoadStart(fields, before, props);
      var discarded, failed := LoadKeys(props, before);
      LoadEnd(fields, Values(), props, before, discarded, failed);
      return LoadReport(discarded, failed);
    }

    /**
     * `load`: the file, if it can be read, is merged by LoadTable. A file
     * that cannot be read leaves every setting as it was.
     */
    method Load(file: Option<map<string, string>>, required: bool) returns (r: Result<LoadReport, LoadError>)
      requires Valid()
      modifies fields.Values
      ensures Valid()
      ensures r.Err? <==> LoadSource(file, required).Err?
      ensures r.Err? ==> forall k :: fields[k].currentValue == old(fields[k].currentValue)
      ensures r.Ok? ==> var props := LoadSource(file, required).value;
        && (forall name :: name in r.value.discarded <==> name in props && KeyNamed(name).None?)
        && (forall k :: k in r.value.failed <==> Name(k) in props && fields[k].Parse(props[Name(k)]).Err?)
        && (forall k :: fields[k].currentValue == Merged(fields[k], k, old(fields[k].currentValue), props, props.Keys))
    {
      var source := LoadSource(file, required);
      if source.Err? {
        return Err(source.error);
      }
      var report := LoadTable(source.value);
      return Ok(report);
    }

    /** `save` keeps a setting exactly when it has a value and is not a credential, or SAVE_PASS is Yes. */
    ghost predicate Saved(k: Key)
      requires Valid()
      reads this, fields.Values
    {
      fields[k].currentValue.Some? && (!fields[k].special || fields[SAVE_PASS].currentValue == Some(BoolValue(true)))
    }

    /** The text of every field `save` keeps, as `toUserString` shows it. */
    ghost function SavedEntries(): map<Key, string>
      requires Valid()
      reads this, fields.Values
    {
      map k | Saved(k) :: fields[k].ToUserString().value
    }

    /** A credential with a value while SAVE_PASS has none: the `!!` of `save` raises on it. */
    ghost predicate Blocks(k: Key)
      requires Valid()
      reads this, fields.Values
    {
      Special(k) && fields[k].currentValue.Some? && fields[SAVE_PASS].currentValue.None?
    }

    /** Some field among the first n of `order` blocks `save`. */
    ghost predicate BlocksAmong(order: seq<Key>, n: nat)
      requires Valid() && n <= |order|
      reads this, fields.Values
    {
      n > 0 && (BlocksAmong(order, n - 1) || Blocks(order[n - 1]))
    }

    /** When none of the first n blocks, none of them blocks. */
    lemma {:induction false} NoneBlocks(order: seq<Key>, n: nat, j: nat)
      requires Valid() && j < n <= |order| && !BlocksAmong(order, n)
      ensures !Blocks(order[j])
    {
      if j < n - 1 {
        NoneBlocks(order, n - 1, j);
      }
    }

    /** When no field of an order holding every field blocks, no field blocks. */
    lemma NoBlocker(order: seq<Key>)
      requires Valid() && (forall k :: k in order) && !BlocksAmong(order, |order|)
      ensures forall k :: !Blocks(k)
    {
      forall k ensures !Blocks(k) {
        assert k in order;
        var j :| 0 <= j < |order| && order[j] == k;
        NoneBlocks(order, |order|, j);
      }
    }

    /**
     * `save`: the table written to the file, each kept setting under its
     * name, as `toUserString` shows it, visiting the fields in `order` (the
     * iteration order of `allConfigFields`, a hash map). The `!!` on
     * SAVE_PASS raises when it has no value and some credential does, and
     * then nothing is written.
     */
    method Save(order: seq<Key>) returns (r: Result<map<string, string>, InitError>)
      requires Valid() && forall k :: k in order
      ensures r.Err? <==> exists k :: Blocks(k)
      ensures r.Err? ==> r.error == SaveFailed
      ensures r.Ok? ==> r.value == Table(SavedEntries(), order)
    {
      ghost var entries := SavedEntries();
      var savePass := fields[SAVE_PASS];
      var props := map[];
      var i := 0;
      while i < |order|
        invariant 0 <= i <= |order|
        invariant props == Table(entries, order[..i])
        invariant !BlocksAmong(order, i)
      {
        var key := order[i];
        var setting := fields[key];
        assert setting.special <==> Special(key);
        assert savePass.currentValue.Some? ==> savePass.currentValue.value.BoolValue?;
        if setting.currentValue.Some? && setting.special && savePass.currentValue.None? {
          assert Blocks(key);
          return Err(SaveFailed);
        }
        assert !BlocksAmong(order, i + 1);
        assert key in entries <==> Saved(key);
        TableStep(entries, order, i);
        if setting.currentValue.Some? && (!setting.special || savePass.currentValue.value.b) {
          var shown := setting.ToUserString();
          props := props[Name(key) := shown.value];
        }
        i := i + 1;
      }
      TableWhole(entries, order);
      NoBlocker(order);
      return Ok(props);
    }

    /**
     * What `save` writes, whatever the order it visits the fields in: each
     * saved setting under its name, as `toUserString` shows it, and nothing
     * else.
     */
    lemma SaveTable(order: seq<Key>)
      requires Valid() && forall k :: k in order
      ensures forall name | name in Table(SavedEntries(), order) :: KeyNamed(name).Some? && Saved(KeyNamed(name).value)
      ensures forall k :: Name(k) in Table(SavedEntries(), order) <==> Saved(k)
      ensures forall k | Saved(k) :: Ok(Table(SavedEntries(), order)[Name(k)]) == fields[k].ToUserString()
    {
      var entries := SavedEntries();
      forall k | Saved(k) ensures Name(k) in Table(entries, order) && Ok(Table(entries, order)[Name(k)]) == fields[k].ToUserString() {
        TableEntry(entries, order, k);
      }
      forall name | name in Table(entries, order) ensures KeyNamed(name).Some? && Saved(KeyNamed(name).value) {
        var k := TableName(entries, order, name);
        KeyNamedName(k);
      }
      forall k | Name(k) in Table(entries, order) ensures Saved(k) {
        var k' := TableName(entries, order, Name(k));
        NameInjective();
      }
    }

    /** The final check of `init`: the first setting met without a value is named. */
    method CheckComplete() returns (missing: Option<Key>)
      requires Valid()
      ensures missing.None? <==> forall k :: fields[k].currentValue.Some?
      ensures missing.Some? ==> fields[missing.value].currentValue.None?
    {
      var i := 0;
      while i < |KEYS|
        invariant 0 <= i <= |KEYS|
        invariant forall k | Index(k) < i :: fields[k].currentValue.Some?
      {
        KeysDistinct();
        if fields[KEYS[i]].currentValue.None? {
          return Some(KEYS[i]);
        }
        i := i + 1;
      }
      return None;
    }

    /** One field of the first pass: prompted for when it is asked, left alone otherwise. */
    method PromptKey(i: nat, doWizard: bool, con: Console, ghost before: map<Key, Option<Value>>, asked: set<Key>)
      returns (r: Result<set<Key>, InitError>)
      requires Valid() && i < |KEYS| && PromptedSoFar(Values(), i, doWizard, before, asked)
      modifies fields.Values, con
      ensures Valid()
      ensures r.Err? ==> r.error == ConsoleClosed
      ensures r.Ok? ==> PromptedSoFar(Values(), i + 1, doWizard, before, r.value)
    {
      var key := KEYS[i];
      var setting := fields[key];
      ghost var values := Values();
      if (setting.currentValue.None? || doWizard) && !setting.special {
        var entered := PromptField(fields, key, con);
        if !entered {
          return Err(ConsoleClosed);
        }
        PromptAsks(values, Values(), i, doWizard, before, asked);
        return Ok(asked + {key});
      }
      PromptSkips(values, i, doWizard, before, asked);
      return Ok(asked);
    }

    /** Whether the first pass of `init` asks for a setting: an ordinary one that is unset, or any with the wizard. */
    ghost predicate Asked(k: Key, doWizard: bool)
      requires Valid()
      reads this, fields.Values
    {
      (fields[k].currentValue.None? || doWizard) && !fields[k].special
    }

    /**
     * The first pass of `init`: every ordinary setting that is unset, or
     * every ordinary setting under the wizard, is prompted for, each until
     * it has a value. Credentials are left alone.
     */
    method PromptSettings(doWizard: bool, con: Console) returns (r: Result<set<Key>, InitError>)
      requires Valid()
      modifies fields.Values, con
      ensures Valid()
      ensures r.Err? ==> r.error == ConsoleClosed
      ensures r.Ok? ==> forall k :: k in r.value <==> old(Asked(k, doWizard))
      ensures r.Ok? ==> forall k | k in r.value :: fields[k].currentValue.Some?
      ensures r.Ok? ==> forall k | !old(Asked(k, doWizard)) :: fields[k].currentValue == old(fields[k].currentValue)
    {
      ghost var before := map k: Key | true :: fields[k].currentValue;
      var asked := {};
      var i := 0;
      while i < |KEYS|
        invariant 0 <= i <= |KEYS|
        invariant Valid()
        invariant PromptedSoFar(Values(), i, doWizard, before, asked)
      {
        var step := PromptKey(i, doWizard, con, before, asked);
        if step.Err? {
          return step;
        }
        asked := step.value;
        i := i + 1;
      }
      return Ok(asked);
    }

    /**
     * The username line (an empty line keeps the current name, or ""), then
     * the password line. Only the two credentials change.
     */
    method ReadLogin(con: Console) returns (r: Result<(), InitError>)
      requires Valid()
      modifies fields[USERNAME], fields[PASSWORD], con
      ensures Valid()
      ensures r.Err? ==> r.error == ConsoleClosed
      ensures r.Ok? <==> |old(con.lines)| >= 2
      ensures r.Ok? ==> con.lines == old(con.lines)[2..]
      ensures r.Ok? ==>
        && fields[USERNAME].currentValue == Some(UsernameEntry(old(con.lines)[0], old(fields[USERNAME].currentValue)))
        && fields[PASSWORD].currentValue == Some(StringValue(old(con.lines)[1]))
    {
      r := ReadCredentials(fields[USERNAME], fields[PASSWORD], con);
    }

    /**
     * The second pass of `init`: the username and password lines, then with
     * saving the SAVE_PASS prompt. No ordinary setting changes.
     */
    method AskCredentials(doSave: bool, con: Console) returns (r: Result<(), InitError>)
      requires Valid()
      modifies fields.Values, con
      ensures Valid()
      ensures r.Err? ==> r.error == ConsoleClosed
      ensures |old(con.lines)| < 2 ==> r.Err?
      ensures |old(con.lines)| >= 2 && r.Ok? ==>
        && fields[USERNAME].currentValue == Some(UsernameEntry(old(con.lines)[0], old(fields[USERNAME].currentValue)))
        && fields[PASSWORD].currentValue == Some(StringValue(old(con.lines)[1]))
      ensures |old(con.lines)| >= 2 && !doSave ==> r.Ok? && con.lines == old(con.lines)[2..]
      ensures !doSave ==> fields[SAVE_PASS].currentValue == old(fields[SAVE_PASS].currentValue)
      ensures forall k | !Special(k) :: fields[k].currentValue == old(fields[k].currentValue)
    {
      r := ReadLogin(con);
      if r.Err? || !doSave {
        return;
      }
      var error := fields[SAVE_PASS].Prompt("SAVE_PASS", con);
      if error.Some? {
        return Err(ConsoleClosed);
      }
    }

    /**
     * The second pass of `init` runs when the username or password is unset,
     * or under the wizard; otherwise nothing changes.
     */
    method Login(doSave: bool, doWizard: bool, con: Console) returns (r: Result<(), InitError>)
      requires Valid()
      modifies fields.Values, con
      ensures Valid()
      ensures r.Err? ==> r.error == ConsoleClosed
      ensures forall k | !Special(k) :: fields[k].currentValue == old(fields[k].currentValue)
      ensures old(fields[USERNAME].currentValue).Some? && old(fields[PASSWORD].currentValue).Some? && !doWizard ==>
        r.Ok? && forall k :: fields[k].currentValue == old(fields[k].currentValue)
    {
      if fields[USERNAME].currentValue.None? || fields[PASSWORD].currentValue.None? || doWizard {
        r := AskCredentials(doSave, con);
      } else {
        r := Ok(());
      }
    }

    /**
     * The two passes of `init` that read the console, from the values
     * `before`: the ordinary settings are prompted for, then Login.
     * `prompted` is the set the first pass asked for.
     */
    method Converse(doSave: bool, doWizard: bool, con: Console, ghost before: map<Key, Option<Value>>)
      returns (r: Result<(), InitError>, ghost prompted: set<Key>)
      requires Valid() && before == Values()
      modifies fields.Values, con
      ensures Valid()
      ensures r.Err? ==> r.error == ConsoleClosed
      ensures r.Ok? ==> forall k :: k in prompted <==> (before[k].None? || doWizard) && !Special(k)
      ensures r.Ok? ==> forall k | !Special(k) && k !in prompted :: fields[k].currentValue == before[k]
      ensures r.Ok? && before[USERNAME].Some? && before[PASSWORD].Some? && !doWizard ==>
        forall k | Special(k) :: fields[k].currentValue == before[k]
    {
      var asked := PromptSettings(doWizard, con);
      if asked.Err? {
        return Err(asked.error), {};
      }
      prompted := asked.value;
      forall k ensures k in prompted <==> (before[k].None? || doWizard) && !Special(k) {
        assert fields[k].special <==> Special(k);
      }
      r := Login(doSave, doWizard, con);
    }

    /** The save step of `init`: with saving, the table Save writes in the order of the fields. */
    method SaveIf(doSave: bool) returns (r: Result<(), InitError>, saved: Option<map<string, string>>)
      requires Valid()
      ensures r.Err? ==> r.error == SaveFailed && doSave
      ensures saved.Some? <==> doSave && r.Ok?
      ensures saved.Some? ==> saved.value == Table(SavedEntries(), KEYS)
    {
      if !doSave {
        return Ok(()), None;
      }
      KeysComplete();
      var table := Save(KEYS);
      if table.Err? {
        return Err(table.error), None;
      }
      return Ok(()), Some(table.value);
    }

    /**
     * The console part of `init`, from the values `before`: Converse, then
     * with saving the table is saved.
     */
    method Interact(doSave: bool, doWizard: bool, con: Console, ghost before: map<Key, Option<Value>>)
      returns (r: Result<(), InitError>, ghost prompted: set<Key>, saved: Option<map<string, string>>)
      requires Valid() && before == Values()
      modifies fields.Values, con
      ensures Valid()
      ensures r.Err? ==> r.error == ConsoleClosed || r.error == SaveFailed
      ensures (r.Ok? || r.error == SaveFailed) ==>
        forall k :: k in prompted <==> (before[k].None? || doWizard) && !Special(k)
      ensures r.Ok? ==> forall k | !Special(k) && k !in prompted :: fields[k].currentValue == before[k]
      ensures r.Ok? && before[USERNAME].Some? && before[PASSWORD].Some? && !doWizard ==>
        forall k | Special(k) :: fields[k].currentValue == before[k]
      ensures saved.Some? ==> doSave && r.Ok? && saved.value == Table(SavedEntries(), KEYS)
      ensures r.Ok? && doSave ==> saved.Some?
    {
      r, prompted := Converse(doSave, doWizard, con, before);
      saved := None;
      if r.Ok? {
        r, saved := SaveIf(doSave);
      }
    }

    /**
     * `init`. With loading, the file is merged first, giving the values
     * `loaded`. In quiet mode nothing is asked and nothing is saved.
     * Otherwise Interact runs from `loaded`. Last, `init` raises unless
     * every setting has a value.
     */
    method Init(doLoad: bool, doSave: bool, doWizard: bool, quiet: bool,
                file: Option<map<string, string>>, con: Console)
      returns (r: Result<(), InitError>, saved: Option<map<string, string>>,
               ghost loaded: map<Key, Option<Value>>, ghost prompted: set<Key>)
      requires Valid()
      modifies fields.Values, con
      ensures Valid()
      ensures var props := LoadSource(file, false).value;
        forall k :: k in loaded && loaded[k] == (if doLoad then Merged(fields[k], k, old(fields[k].currentValue), props, props.Keys) else old(fields[k].currentValue))
      ensures quiet ==> con.lines == old(con.lines) && con.asked == old(con.asked) && saved.None?
      ensures quiet ==> Values() == loaded
      ensures !quiet && (r.Ok? || r.error == SaveFailed) ==>
        forall k :: k in prompted <==> (loaded[k].None? || doWizard) && !Special(k)
      ensures !quiet && r.Ok? ==> forall k | !Special(k) && k !in prompted :: Values()[k] == loaded[k]
      ensures !quiet && r.Ok? && loaded[USERNAME].Some? && loaded[PASSWORD].Some? && !doWizard ==>
        forall k | Special(k) :: Values()[k] == loaded[k]
      ensures saved.Some? ==> saved.value == Table(SavedEntries(), KEYS)
      ensures r.Ok? && !quiet && doSave ==> saved.Some?
      ensures !doSave ==> saved.None?
      ensures r.Ok? ==> forall k :: fields[k].currentValue.Some?
      ensures r.Err? && r.error.NotSet? ==> fields[r.error.key].currentValue.None?
    {
      saved, prompted := None, {};
      loaded := LoadIf(doLoad, file);
      if quiet {
        r := Ok(());
      } else {
        r, prompted, saved := Interact(doSave, doWizard, con, loaded);
      }
      if r.Ok? {
        r := Complete();
      }
    }

    /** The merge step of `init`: with loading, the file, which may be missing, is merged. */
    method LoadIf(doLoad: bool, file: Option<map<string, string>>) returns (ghost loaded: map<Key, Option<Value>>)
      requires Valid()
      modifies fields.Values
      ensures Valid() && loaded == Values()
      ensures var props := LoadSource(file, false).value;
        forall k :: loaded[k] == (if doLoad then Merged(fields[k], k, old(fields[k].currentValue), props, props.Keys) else old(fields[k].currentValue))
    {
      if doLoad {
        // An optional file that is missing loads as an empty table: this cannot fail.
        var _ := Load(file, false);
      }
      loaded := Values();
    }

    /** The last step of `init`: it raises, naming a setting, unless every setting has a value. */
    method Complete() returns (r: Result<(), InitError>)
      requires Valid()
      ensures r.Ok? <==> forall k :: fields[k].currentValue.Some?
      ensures r.Err? ==> r.error.NotSet? && fields[r.error.key].currentValue.None?
      ensures Valid() && Values() == old(Values()) && SavedEntries() == old(SavedEntries())
    {
      var missing := CheckComplete();
      if missing.Some? {
        return Err(NotSet(missing.value));
      }
      return Ok(());
    }
  }
}
