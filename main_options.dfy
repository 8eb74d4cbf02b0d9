/**
 * The command line switches (`Main`, `Option`): every argument is cleaned to
 * its lower-case word characters and looked up in the alias sets of the
 * seven options, in their declared order; the first option that knows it is
 * set. An argument no option knows sets the help option and makes the parse
 * report an error.
 */
module MainOptions {
  import opened Results
  import opened Text

  // ---------------------------------------------------------------------
  // Option.clean
  // ---------------------------------------------------------------------

  /** The characters `\W` does not match: ASCII letters, digits and '_'. */
  predicate IsWordChar(c: char) {
    'a' <= c <= 'z' || 'A' <= c <= 'Z' || '0' <= c <= '9' || c == '_'
  }

  /** The characters a cleaned argument is made of. */
  predicate IsCleanChar(c: char) {
    'a' <= c <= 'z' || '0' <= c <= '9' || c == '_'
  }

  predicate AllClean(s: string) {
    forall i | 0 <= i < |s| :: IsCleanChar(s[i])
  }

  /** `replace("\\W".toRegex(), "")`: the word characters of s, in order. */
  function WordChars(s: string): (r: string)
    ensures |r| <= |s|
  {
    if s == [] then [] else (if IsWordChar(s[0]) then [s[0]] else []) + WordChars(s[1..])
  }

  /** `Option.clean`: lower case, then every non-word character removed. */
  function Clean(arg: string): string {
    WordChars(Lower(arg))
  }

  /** No ASCII capital survives `lowercase()`. */
  lemma {:induction false} LowerHasNoCapitals(s: string)
    ensures forall i | 0 <= i < |Lower(s)| :: !('A' <= Lower(s)[i] <= 'Z')
  {
    if s != [] {
      LowerHasNoCapitals(s[1..]);
      var head := LowerChar(s[0]);
      assert Lower(s) == head + Lower(s[1..]);
      forall i | 0 <= i < |Lower(s)| ensures !('A' <= Lower(s)[i] <= 'Z') {
        if i >= |head| {
          assert Lower(s)[i] == Lower(s[1..])[i - |head|];
        }
      }
    }
  }

  /** The word characters of a text without capitals are clean characters. */
  lemma {:induction false} WordCharsClean(s: string)
    requires forall i | 0 <= i < |s| :: !('A' <= s[i] <= 'Z')
    ensures AllClean(WordChars(s))
  {
    if s != [] {
      WordCharsClean(s[1..]);
      var head := if IsWordChar(s[0]) then [s[0]] else [];
      assert WordChars(s) == head + WordChars(s[1..]);
      forall i | 0 <= i < |WordChars(s)| ensures IsCleanChar(WordChars(s)[i]) {
        if i >= |head| {
          assert WordChars(s)[i] == WordChars(s[1..])[i - |head|];
        }
      }
    }
  }

  /** A cleaned argument holds only small ASCII letters, digits and '_'. */
  lemma CleanAlphabet(arg: string)
    ensures AllClean(Clean(arg))
  {
    LowerHasNoCapitals(arg);
    WordCharsClean(Lower(arg));
  }

  /** A clean text is its own lower case. */
  lemma {:induction false} LowerOfClean(s: string)
    requires AllClean(s)
    ensures Lower(s) == s
  {
    if s != [] {
      assert AllClean(s[1..]) by {
        forall i | 0 <= i < |s[1..]| ensures IsCleanChar(s[1..][i]) {
          assert s[1..][i] == s[i + 1];
        }
      }
      LowerOfClean(s[1..]);
      assert LowerChar(s[0]) == [s[0]];
      assert s == [s[0]] + s[1..];
    }
  }

  /** A clean text is made of word characters only. */
  lemma {:induction false} WordCharsOfClean(s: string)
    requires AllClean(s)
    ensures WordChars(s) == s
  {
    if s != [] {
      assert AllClean(s[1..]) by {
        forall i | 0 <= i < |s[1..]| ensures IsCleanChar(s[1..][i]) {
          assert s[1..][i] == s[i + 1];
        }
      }
      WordCharsOfClean(s[1..]);
      assert s == [s[0]] + s[1..];
    }
  }

  /** Cleaning twice is cleaning once. */
  lemma CleanIdempotent(arg: string)
    ensures Clean(Clean(arg)) == Clean(arg)
  {
    CleanAlphabet(arg);
    LowerOfClean(Clean(arg));
    WordCharsOfClean(Clean(arg));
  }

  /** An ASCII non-word first character is dropped. */
  lemma DropNonWord(s: string)
    requires s != [] && !IsWordChar(s[0]) && s[0] as int < 0x80
    ensures Clean(s) == Clean(s[1..])
  {
    LowerAppend([s[0]], s[1..]);
    assert [s[0]] + s[1..] == s;
    assert Lower([s[0]]) == [s[0]] by {
      assert [s[0]][1..] == [];
      assert LowerChar(s[0]) == [s[0]];
    }
    assert ([s[0]] + Lower(s[1..]))[1..] == Lower(s[1..]);
  }

  /** A clean text cleans to itself. */
  lemma CleanOfClean(s: string)
    requires AllClean(s)
    ensures Clean(s) == s
  {
    LowerOfClean(s);
    WordCharsOfClean(s);
  }

  /** The Windows, Unix and bare spellings of a switch clean alike. */
  lemma CleanSpellings(windows: string, unix: string, bare: string)
    requires windows == "/foo" && unix == "--foo" && bare == "foo"
    ensures Clean(windows) == "foo" && Clean(unix) == "foo" && Clean(bare) == "foo"
  {
    assert AllClean(bare);
    CleanOfClean(bare);
    DropNonWord(windows);
    assert windows[1..] == bare;
    DropNonWord(unix);
    DropNonWord(unix[1..]);
    assert unix[1..][1..] == bare;
  }

  /** "/?" and "-?" clean to the empty text. */
  lemma CleanQueries(query: string, dashQuery: string)
    requires query == "/?" && dashQuery == "-?"
    ensures Clean(query) == "" && Clean(dashQuery) == ""
  {
    DropNonWord(query);
    DropNonWord(query[1..]);
    assert query[1..][1..] == [];
    DropNonWord(dashQuery);
    DropNonWord(dashQuery[1..]);
    assert dashQuery[1..][1..] == [];
  }

  // ---------------------------------------------------------------------
  // The OPTIONS table
  // ---------------------------------------------------------------------

  /** The clean aliases of the seven options, in the order of OPTIONS. */
  const HELP: set<string> := {"help", "", "h"}
  const LICENCE: set<string> := {"licence", "license", "l", "copyright", "copyleft", "gpl"}
  const WIZARD: set<string> := {"wizard", "config", "w"}
  const RESET: set<string> := {"reset", "noload", "r"}
  const NO_SAVE: set<string> := {"nosave", "n"}
  const QUIET: set<string> := {"quiet", "q"}
  const NO_CONSOLE: set<string> := {"noconsole"}

  const ALIASES: seq<set<string>> := [HELP, LICENCE, WIZARD, RESET, NO_SAVE, QUIET, NO_CONSOLE]

  /** Positions in OPTIONS. */
  const OPT_HELP := 0
  const OPT_WIZARD := 2
  const OPT_RESET := 3
  const OPT_NO_SAVE := 4
  const OPT_QUIET := 5

  /** The first option from position j on whose aliases hold c. */
  function FirstMatch(c: string, j: nat): (r: Option<nat>)
    requires j <= |ALIASES|
    decreases |ALIASES| - j
    ensures r.Some? ==> j <= r.value < |ALIASES| && c in ALIASES[r.value]
    ensures r.Some? ==> forall m | j <= m < r.value :: c !in ALIASES[m]
    ensures r.None? ==> forall m | j <= m < |ALIASES| :: c !in ALIASES[m]
  {
    if j == |ALIASES| then None
    else if c in ALIASES[j] then Some(j)
    else FirstMatch(c, j + 1)
  }

  /** The option an argument sets: the first that knows it, or help for an unknown one. */
  function Target(arg: string): nat {
    match FirstMatch(Clean(arg), 0)
    case Some(j) => j
    case None => OPT_HELP
  }

  /** No alias belongs to two options. */
  lemma AliasesDisjoint()
    ensures forall i, j | 0 <= i < j < |ALIASES| :: ALIASES[i] * ALIASES[j] == {}
  {
    assert HELP * LICENCE == {} && HELP * WIZARD == {} && HELP * RESET == {};
    assert HELP * NO_SAVE == {} && HELP * QUIET == {} && HELP * NO_CONSOLE == {};
    assert LICENCE * WIZARD == {} && LICENCE * RESET == {} && LICENCE * NO_SAVE == {};
    assert LICENCE * QUIET == {} && LICENCE * NO_CONSOLE == {};
    assert WIZARD * RESET == {} && WIZARD * NO_SAVE == {} && WIZARD * QUIET == {} && WIZARD * NO_CONSOLE == {};
    assert RESET * NO_SAVE == {} && RESET * QUIET == {} && RESET * NO_CONSOLE == {};
    assert NO_SAVE * QUIET == {} && NO_SAVE * NO_CONSOLE == {};
    assert QUIET * NO_CONSOLE == {};
  }

  /** So the option whose aliases hold a cleaned argument is the one it sets, whatever the order of OPTIONS. */
  lemma MatchIsUnique(c: string, j: nat)
    requires j < |ALIASES| && c in ALIASES[j]
    ensures FirstMatch(c, 0) == Some(j)
  {
    AliasesDisjoint();
  }

  /** "/?" and "-?" ask for help. */
  lemma QueryMeansHelp(query: string, dashQuery: string)
    requires query == "/?" && dashQuery == "-?"
    ensures Target(query) == OPT_HELP && FirstMatch(Clean(query), 0).Some?
    ensures Target(dashQuery) == OPT_HELP && FirstMatch(Clean(dashQuery), 0).Some?
  {
    CleanQueries(query, dashQuery);
    assert "" in ALIASES[OPT_HELP];
  }

  /** The options the arguments set. */
  function Hits(args: seq<string>): set<nat> {
    set k | 0 <= k < |args| :: Target(args[k])
  }

  /** Some argument is known to no option. */
  predicate Unrecognised(args: seq<string>) {
    exists k | 0 <= k < |args| :: FirstMatch(Clean(args[k]), 0).None?
  }

  /** One more argument adds the option it targets. */
  lemma HitsStep(args: seq<string>, k: nat)
    requires k < |args|
    ensures Hits(args[..k + 1]) == Hits(args[..k]) + {Target(args[k])}
  {
    var longer, shorter := args[..k + 1], args[..k];
    forall j | j in Hits(longer) ensures j in Hits(shorter) + {Target(args[k])} {
      var m :| 0 <= m < |longer| && Target(longer[m]) == j;
      if m < k {
        assert shorter[m] == longer[m];
      }
    }
    forall j | j in Hits(shorter) ensures j in Hits(longer) {
      var m :| 0 <= m < |shorter| && Target(shorter[m]) == j;
      assert longer[m] == shorter[m];
    }
    assert longer[k] == args[k];
  }

  /** One more argument is unknown exactly when it or an earlier one is. */
  lemma UnrecognisedStep(args: seq<string>, k: nat)
    requires k < |args|
    ensures Unrecognised(args[..k + 1]) <==> Unrecognised(args[..k]) || FirstMatch(Clean(args[k]), 0).None?
  {
    var longer, shorter := args[..k + 1], args[..k];
    if Unrecognised(longer) {
      var m :| 0 <= m < |longer| && FirstMatch(Clean(longer[m]), 0).None?;
      if m < k {
        assert shorter[m] == longer[m];
      }
    }
    if Unrecognised(shorter) {
      var m :| 0 <= m < |shorter| && FirstMatch(Clean(shorter[m]), 0).None?;
      assert longer[m] == shorter[m];
    }
    assert longer[k] == args[k];
  }

  /** An unknown argument sets help. */
  lemma UnrecognisedSetsHelp(args: seq<string>)
    requires Unrecognised(args)
    ensures OPT_HELP in Hits(args)
  {
    var k :| 0 <= k < |args| && FirstMatch(Clean(args[k]), 0).None?;
    assert Target(args[k]) == OPT_HELP;
  }

  // ---------------------------------------------------------------------
  // Option and parseArgs
  // ---------------------------------------------------------------------

  /** `Option`: one command line switch. */
  class Switch {
    /** The clean spellings that trigger this option. */
    const args: set<string>
    var isSet: bool

    constructor (args: set<string>)
      ensures this.args == args && !isSet
    {
      this.args := args;
      isSet := false;
    }

    /** `set()`: afterwards the option is set, however often it is called. */
    method Set()
      modifies this`isSet
      ensures isSet
    {
      isSet := true;
    }
  }

  /** The seven options of `Main`, in the order of OPTIONS. */
  class Cli {
    const options: seq<Switch>

    ghost predicate Valid()
      reads this
    {
      && |options| == |ALIASES|
      && (forall i | 0 <= i < |options| :: options[i].args == ALIASES[i])
      && (forall i, j | 0 <= i < j < |options| :: options[i] != options[j])
    }

    ghost function Flags(): seq<bool>
      requires Valid()
      reads this, set o | o in options
    {
      seq(|options|, i requires 0 <= i < |options| reads options => options[i].isSet)
    }

    constructor ()
      ensures Valid() && Flags() == seq(|ALIASES|, _ => false)
      ensures forall i | 0 <= i < |options| :: fresh(options[i])
    {
      var help := new Switch(HELP);
      var licence := new Switch(LICENCE);
      var wizard := new Switch(WIZARD);
      var reset := new Switch(RESET);
      var noSave := new Switch(NO_SAVE);
      var quiet := new Switch(QUIET);
      var noConsole := new Switch(NO_CONSOLE);
      options := [help, licence, wizard, reset, noSave, quiet, noConsole];
    }

    /**
     * The inner loop of `parseArgs` for one argument: the first option whose
     * aliases hold the cleaned argument is set, and the search stops there.
     */
    method Match(arg: string) returns (found: bool)
      requires Valid()
      modifies set o | o in options
      ensures Valid()
      ensures found <==> FirstMatch(Clean(arg), 0).Some?
      ensures forall i | 0 <= i < |options| ::
        options[i].isSet == (old(options[i].isSet) || FirstMatch(Clean(arg), 0) == Some(i))
    {
      var cleaned := Clean(arg);
      var j := 0;
      while j < |options|
        invariant 0 <= j <= |options|
        invariant forall m | 0 <= m < j :: cleaned !in ALIASES[m]
        invariant forall i | 0 <= i < |options| :: options[i].isSet == old(options[i].isSet)
      {
        if cleaned in options[j].args {
          options[j].Set();
          assert FirstMatch(cleaned, 0) == Some(j) by {
            MatchIsUnique(cleaned, j);
          }
          return true;
        }
        j := j + 1;
      }
      return false;
    }

    /**
     * `parseArgs`: every argument sets the option it targets (help for an
     * unknown one); the result says whether some argument was unknown.
     */
    method ParseArgs(args: seq<string>) returns (err: bool)
      requires Valid()
      modifies set o | o in options
      ensures Valid()
      ensures err <==> Unrecognised(args)
      ensures forall i | 0 <= i < |options| :: options[i].isSet == (old(options[i].isSet) || i in Hits(args))
    {
      err := false;
      var k := 0;
      while k < |args|
        invariant 0 <= k <= |args|
        invariant err <==> Unrecognised(args[..k])
        invariant forall i | 0 <= i < |options| :: options[i].isSet == (old(options[i].isSet) || i in Hits(args[..k]))
      {
        var found := Match(args[k]);
        if !found {
          options[OPT_HELP].Set();
          err := true;
        }
        HitsStep(args, k);
        UnrecognisedStep(args, k);
        k := k + 1;
      }
      assert args[..k] == args;
    }

    /** In quiet mode the wizard option is ignored: it is cleared, and nothing else changes. */
    method QuietOverridesWizard()
      requires Valid()
      modifies options[OPT_WIZARD]
      ensures Valid()
      ensures options[OPT_WIZARD].isSet == (old(options[OPT_WIZARD].isSet) && !options[OPT_QUIET].isSet)
    {
      if options[OPT_QUIET].isSet && options[OPT_WIZARD].isSet {
        options[OPT_WIZARD].isSet := false;
      }
    }

    /** The arguments `Configuration.init` receives: load unless reset, save unless nosave, wizard, quiet. */
    function InitArguments(): (r: (bool, bool, bool, bool))
      requires Valid()
      reads this, set o | o in options
      ensures r.0 <==> !options[OPT_RESET].isSet
      ensures r.1 <==> !options[OPT_NO_SAVE].isSet
      ensures r.2 <==> options[OPT_WIZARD].isSet
      ensures r.3 <==> options[OPT_QUIET].isSet
    {
      (!options[OPT_RESET].isSet, !options[OPT_NO_SAVE].isSet, options[OPT_WIZARD].isSet, options[OPT_QUIET].isSet)
    }
  }
}
