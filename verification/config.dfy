/** Linter settings and their translation from a directory's configuration
    (linter/config.go). */
module Config {

  datatype Option<T> = None | Some(value: T)

  /** An annotation severity level; Go's `Severity` string restricted to its two constants. */
  datatype Severity = SeverityError | SeverityWarning

  /** A configuration problem encountered at runtime: a string-carrying error kind. */
  datatype ConfigError = ConfigError(text: string) {
    /** The carried string, unchanged: the error is recovered from its text. */
    function Error(): (s: string)
      ensures ConfigError(s) == this
    {
      text
    }
  }

  /** A Go `error` value: a ConfigError, or any other error known only by its text. */
  datatype Error = Config(ce: ConfigError) | Other(message: string) {
    function Text(): string {
      match this
      case Config(ce) => ce.Error()
      case Other(m) => m
    }
  }

  /** A regular-expression option as the configuration lookup returns it:
      not set, set but not compilable, or compiled (its source text and what it matches). */
  datatype Pattern = Unset | Malformed(reason: string) | Compiled(source: string, matches: string -> bool)

  /** The configuration values of one directory, already looked up, split on ',' and trimmed. */
  datatype DirConfig = DirConfig(
    Warnings: seq<string>,      // "warnings"
    Errors: seq<string>,        // "errors"
    AllowCharset: seq<string>,  // "allow-charset"
    AllowEngine: seq<string>,   // "allow-engine"
    SchemaNames: seq<string>,   // "schema"
    IgnoreTable: Pattern,       // "ignore-table"
    IgnoreSchema: Pattern,      // "ignore-schema"
    RelPath: string)            // the directory's path as reported in messages

  /** Parsed settings controlling linter behaviour. */
  datatype Options = Options(
    ProblemSeverity: map<string, Severity>,
    AllowedCharSets: seq<string>,
    AllowedEngines: seq<string>)

  const WarningsPrefix := "Option warnings must be a comma-separated list including these values: "
  const ErrorsPrefix := "Option errors must be a comma-separated list including these values: "

  function LowerChar(c: char): char {
    if 'A' <= c <= 'Z' then (c as int + 32) as char else c
  }

  predicate IsLower(s: string) {
    forall i :: 0 <= i < |s| ==> !('A' <= s[i] <= 'Z')
  }

  /** Lower-casing of ASCII letters; every other character is kept. */
  function ToLower(s: string): (r: string)
    ensures |r| == |s| && IsLower(r)
    ensures forall i :: 0 <= i < |s| && !('A' <= s[i] <= 'Z') ==> r[i] == s[i]
    ensures forall i :: 0 <= i < |s| && 'A' <= s[i] <= 'Z' ==> r[i] == (s[i] as int + 32) as char
  {
    if s == [] then [] else [LowerChar(s[0])] + ToLower(s[1..])
  }

  function Join(parts: seq<string>, sep: string): string {
    if |parts| == 0 then ""
    else if |parts| == 1 then parts[0]
    else parts[0] + sep + Join(parts[1..], sep)
  }

  /** The text every ConfigError about problem names ends with: all known names. */
  function AllAllowed(registry: seq<string>): string {
    Join(registry, ", ")
  }

  /** Every part occurs in the joined text. */
  lemma {:induction false} JoinContains(parts: seq<string>, sep: string, k: nat)
    requires k < |parts|
    ensures exists pre, post :: Join(parts, sep) == pre + parts[k] + post
  {
    if |parts| == 1 {
      assert Join(parts, sep) == [] + parts[0] + [];
    } else if k == 0 {
      assert Join(parts, sep) == [] + parts[0] + (sep + Join(parts[1..], sep));
    } else {
      JoinContains(parts[1..], sep, k - 1);
      var pre, post :| Join(parts[1..], sep) == pre + parts[1..][k - 1] + post;
      assert Join(parts, sep) == (parts[0] + sep + pre) + parts[k] + post;
    }
  }

  /** The list of allowed values in a ConfigError names every known problem. */
  lemma AllAllowedNamesEveryProblem(registry: seq<string>, k: nat)
    requires k < |registry|
    ensures exists pre, post :: AllAllowed(registry) == pre + registry[k] + post
  {
    JoinContains(registry, ", ", k);
  }

  /** True when some entry of vals lower-cases to name. */
  predicate Names(vals: seq<string>, name: string) {
    exists i :: 0 <= i < |vals| && ToLower(vals[i]) == name
  }

  /** m after storing sev under the lower-cased form of each of vals, in order. */
  function Assign(m: map<string, Severity>, vals: seq<string>, sev: Severity): map<string, Severity>
    decreases |vals|
  {
    if vals == [] then m
    else Assign(m, vals[..|vals| - 1], sev)[ToLower(vals[|vals| - 1]) := sev]
  }

  /** The index of the first entry whose lower-cased form is not a known problem name, or |vals|. */
  function FirstUnknown(vals: seq<string>, registry: seq<string>): (k: nat)
    ensures k <= |vals|
    ensures forall i :: 0 <= i < k ==> ToLower(vals[i]) in registry
    ensures k < |vals| ==> ToLower(vals[k]) !in registry
  {
    if vals == [] then 0
    else if ToLower(vals[0]) !in registry then 0
    else 1 + FirstUnknown(vals[1..], registry)
  }

  /** What the loop over one list leaves behind: sevs with sev stored under each
      entry before the first unknown name, and whether an unknown name stopped it. */
  function Stored(sevs: map<string, Severity>, vals: seq<string>, sev: Severity, registry: seq<string>): (map<string, Severity>, bool) {
    var k := FirstUnknown(vals, registry);
    (Assign(sevs, vals[..k], sev), k < |vals|)
  }

  /** What OptionsForDir returns: the options built so far and, on failure, the ConfigError. */
  function Translate(cfg: DirConfig, registry: seq<string>): (Options, Option<ConfigError>) {
    var base := Options(map[], cfg.AllowCharset, cfg.AllowEngine);
    var (afterWarnings, badWarning) := Stored(map[], cfg.Warnings, SeverityWarning, registry);
    if badWarning then
      (base.(ProblemSeverity := afterWarnings), Some(ConfigError(WarningsPrefix + AllAllowed(registry))))
    else
      var (afterErrors, badError) := Stored(afterWarnings, cfg.Errors, SeverityError, registry);
      (base.(ProblemSeverity := afterErrors),
       if badError then Some(ConfigError(ErrorsPrefix + AllAllowed(registry))) else None)
  }

  /** The loop OptionsForDir runs over each list: stores sev under the lower-cased
      form of each entry, in order, and stops at the first entry that is not a known
      problem name. */
  method StoreSeverities(sevs: map<string, Severity>, vals: seq<string>, sev: Severity, registry: seq<string>)
    returns (stored: map<string, Severity>, unknown: bool)
    ensures (stored, unknown) == Stored(sevs, vals, sev, registry)
  {
    stored := sevs;
    for i := 0 to |vals|
      invariant stored == Assign(sevs, vals[..i], sev)
      invariant i <= FirstUnknown(vals, registry)
    {
      var val := ToLower(vals[i]);
      if val !in registry {
        assert FirstUnknown(vals, registry) == i;
        return stored, true;
      }
      assert vals[..i + 1][..i] == vals[..i];
      stored := stored[val := sev];
    }
    assert FirstUnknown(vals, registry) == |vals|;
    unknown := false;
  }

  /** Converts a directory's configuration into linter Options. The registry lists
      the known problem names, in the order the error message enumerates them. */
  method OptionsForDir(cfg: DirConfig, registry: seq<string>) returns (opts: Options, err: Option<ConfigError>)
    ensures (opts, err) == Translate(cfg, registry)
  {
    opts := Options(map[], cfg.AllowCharset, cfg.AllowEngine);
    var allAllowed := AllAllowed(registry);
    var sevs, unknown := StoreSeverities(opts.ProblemSeverity, cfg.Warnings, SeverityWarning, registry);
    opts := opts.(ProblemSeverity := sevs);
    if unknown {
      err := Some(ConfigError(WarningsPrefix + allAllowed));
      return;
    }
    sevs, unknown := StoreSeverities(opts.ProblemSeverity, cfg.Errors, SeverityError, registry);
    opts := opts.(ProblemSeverity := sevs);
    if unknown {
      err := Some(ConfigError(ErrorsPrefix + allAllowed));
      return;
    }
    err := None;
  }

  /** Assign stores sev under exactly the names of vals and keeps every other entry of m. */
  lemma {:induction false} AssignKeys(m: map<string, Severity>, vals: seq<string>, sev: Severity, name: string)
    ensures name in Assign(m, vals, sev) <==> name in m || Names(vals, name)
    ensures Names(vals, name) ==> Assign(m, vals, sev)[name] == sev
    ensures !Names(vals, name) && name in m ==> Assign(m, vals, sev)[name] == m[name]
  {
    if vals != [] {
      var init := vals[..|vals| - 1];
      AssignKeys(m, init, sev, name);
      if Names(vals, name) && ToLower(vals[|vals| - 1]) != name {
        var i :| 0 <= i < |vals| && ToLower(vals[i]) == name;
        assert init[i] == vals[i];
      }
      if Names(init, name) {
        var i :| 0 <= i < |init| && ToLower(init[i]) == name;
        assert vals[i] == init[i];
      }
    }
  }

  /** FirstUnknown finds an unknown name exactly when one exists. */
  lemma FirstUnknownIff(vals: seq<string>, registry: seq<string>)
    ensures FirstUnknown(vals, registry) < |vals| <==> exists i :: 0 <= i < |vals| && ToLower(vals[i]) !in registry
  {
  }

  /** Translation succeeds exactly when every entry of both lists names a known problem. */
  lemma TranslateSucceedsIff(cfg: DirConfig, registry: seq<string>)
    ensures Translate(cfg, registry).1 == None <==>
      (forall i :: 0 <= i < |cfg.Warnings| ==> ToLower(cfg.Warnings[i]) in registry) &&
      (forall i :: 0 <= i < |cfg.Errors| ==> ToLower(cfg.Errors[i]) in registry)
  {
    FirstUnknownIff(cfg.Warnings, registry);
    FirstUnknownIff(cfg.Errors, registry);
  }

  /** On success the severity map holds exactly the lower-cased names of both lists,
      each a known, lower-case problem name; a name in the errors list is an error
      (errors are stored after warnings), any other is a warning. */
  lemma TranslateSuccess(cfg: DirConfig, registry: seq<string>, name: string)
    requires Translate(cfg, registry).1 == None
    ensures var sevs := Translate(cfg, registry).0.ProblemSeverity;
      (name in sevs <==> Names(cfg.Warnings, name) || Names(cfg.Errors, name)) &&
      (name in sevs ==> name in registry && IsLower(name)) &&
      (name in sevs ==> sevs[name] == if Names(cfg.Errors, name) then SeverityError else SeverityWarning)
  {
    TranslateSucceedsIff(cfg, registry);
    FirstUnknownIff(cfg.Warnings, registry);
    FirstUnknownIff(cfg.Errors, registry);
    assert cfg.Warnings[..|cfg.Warnings|] == cfg.Warnings;
    assert cfg.Errors[..|cfg.Errors|] == cfg.Errors;
    var afterWarnings := Assign(map[], cfg.Warnings, SeverityWarning);
    assert Translate(cfg, registry).0.ProblemSeverity == Assign(afterWarnings, cfg.Errors, SeverityError);
    AssignKeys(map[], cfg.Warnings, SeverityWarning, name);
    AssignKeys(afterWarnings, cfg.Errors, SeverityError, name);
  }

  /** The allow-lists are copied verbatim, whether or not translation fails. */
  lemma TranslateKeepsAllowLists(cfg: DirConfig, registry: seq<string>)
    ensures Translate(cfg, registry).0.AllowedCharSets == cfg.AllowCharset
    ensures Translate(cfg, registry).0.AllowedEngines == cfg.AllowEngine
  {
  }

  /** An unknown name in warnings is reported with the warnings prefix, whatever the errors list holds. */
  lemma UnknownWarningReported(cfg: DirConfig, registry: seq<string>, i: nat)
    requires i < |cfg.Warnings| && ToLower(cfg.Warnings[i]) !in registry
    ensures Translate(cfg, registry).1 == Some(ConfigError(WarningsPrefix + AllAllowed(registry)))
  {
    FirstUnknownIff(cfg.Warnings, registry);
  }

  /** With every warnings name known, an unknown name in errors is reported with the errors prefix. */
  lemma UnknownErrorReported(cfg: DirConfig, registry: seq<string>, i: nat)
    requires forall j :: 0 <= j < |cfg.Warnings| ==> ToLower(cfg.Warnings[j]) in registry
    requires i < |cfg.Errors| && ToLower(cfg.Errors[i]) !in registry
    ensures Translate(cfg, registry).1 == Some(ConfigError(ErrorsPrefix + AllAllowed(registry)))
  {
    FirstUnknownIff(cfg.Warnings, registry);
    FirstUnknownIff(cfg.Errors, registry);
  }
}
