# Linter model

A Dafny model of the `linter` package of skeema, the schema management tool for
MySQL. The package checks the logical schemas of a directory. It validates the
directory's linter configuration, then runs each logical schema through a
workspace, which turns the CREATE statements into a real schema. Statement
errors are reported, every configured problem checker runs, and each canonical
CREATE text is compared with its file.

Three modules:

- `Decimal` (decimal.dfy): Go's `%d` rendering of an `int`, with a parser that
  reads the rendering back. `MessageWithLocation` uses it.
- `Config` (config.dfy), for linter/config.go:
  - severities, `Options` and `ConfigError`;
  - `OptionsForDir`, an imperative translation of the `warnings` and `errors`
    lists into a severity map, proved against the specification function
    `Translate`.
- `Linter` (linter.dfy), for linter/linter.go:
  - `Annotation` and its location rendering;
  - the `Result` accumulator, a class with five sequence fields, with `Merge`
    and `BadConfigResult`;
  - `LintDir`.

  `LintDir` is imperative, with the same early returns and `continue`s as the
  source. Its loops live in helper methods, each proved against a fold function
  over `Findings` (the value of a `Result`). `LintDirSpec` gives the whole run
  in closed form. The lemmas state what a run does:
  - configuration failures are fatal;
  - an ignore-schema match ends the run;
  - a workspace failure adds one exception;
  - checker output is split by severity;
  - format notices appear exactly for objects that need reformatting.

`LintDir`'s collaborators become inputs:
- the ignore patterns are `Pattern` values: unset, malformed (with the error's
  text), or compiled (their source text and a match predicate);
- the workspace's result for each logical schema is a `Materialization`;
- the problem registry's names, the checkers, the text of an object key and
  `SplitTextBody` are fields of `Collaborators`;
- the order in which each `range` over a Go map visits its keys is a given
  sequence.

## Model

| member | source | states |
|---|---|---|
| Decimal.NatToString | linter/linter.go:29-31 | the rendering of a natural number is non-empty, all decimal digits, with no leading zero |
| Decimal.IntToString | linter/linter.go:29-31 | `%d` of an int: a leading minus exactly for negative values, then decimal digits with no leading zero (a lone "0" only for zero) |
| Decimal.NatRoundTrip | linter/linter.go:29-31 | reading the digits of a natural number back gives the number |
| Decimal.IntRoundTrip | linter/linter.go:29-31 | reading the `%d` text of any int back gives that int |
| Decimal.IntToStringInjective | linter/linter.go:29-31 | distinct ints render as distinct texts, so a rendered line number identifies the line |
| Config.ConfigError.Error | linter/config.go:68-70 | the error's text is the carried string unchanged: wrapping it again gives the same ConfigError |
| Config.ToLower | linter/config.go:47 | lower-casing keeps the length, turns each upper-case ASCII letter into its own lower-case letter, and keeps every other character |
| Config.JoinContains | linter/config.go:45 | every part occurs in the text the parts are joined into |
| Config.AllAllowedNamesEveryProblem | linter/config.go:45-56 | the list of allowed values that ends both ConfigError messages contains every known problem name |
| Config.FirstUnknown | linter/config.go:46-57 | the index where a list's loop stops: every entry before it lower-cases to a known problem name, and the entry at it (if any) does not |
| Config.FirstUnknownIff | linter/config.go:46-57 | a list's loop stops early exactly when some entry is not a known problem name |
| Config.StoreSeverities | linter/config.go:46-58 | the loop over one list stores the severity under each entry's lower-cased name, in order, up to the first unknown name, and reports whether it stopped there |
| Config.OptionsForDir | linter/config.go:38-62 | returns exactly the options and error of `Translate`: warnings are checked and stored first, then errors; the first unknown name fails with that list's message; the options built so far are returned with it |
| Config.AssignKeys | linter/config.go:51-58 | storing a list under a severity adds exactly that list's lower-cased names, gives each of them the severity (last write wins), and keeps every other entry |
| Config.TranslateSucceedsIff | linter/config.go:46-61 | translation succeeds if and only if every entry of both lists lower-cases to a known problem name |
| Config.TranslateSuccess | linter/config.go:46-61 | on success the map's keys are exactly the lower-cased names of both lists; each key is a known, lower-case name; a name in the errors list is an error even when it is also in warnings; any other name is a warning |
| Config.TranslateKeepsAllowLists | linter/config.go:39-43 | the allowed character sets and engines equal the configured lists, in order, whether or not translation fails |
| Config.UnknownWarningReported | linter/config.go:46-50 | an unknown name in warnings fails with the warnings message, whatever the errors list holds: warnings are validated first |
| Config.UnknownErrorReported | linter/config.go:53-57 | with every warnings name known, an unknown name in errors fails with the errors message |
| Linter.Annotation.MessageWithLocation | linter/linter.go:24-32 | without a file or line number: the message, then " [Full SQL: ", the statement text and "]"; with a zero offset and a column beyond 1: `file:line:column: message`; otherwise `file:(line+offset): message` |
| Linter.LocatedLineReadsBack | linter/linter.go:28-31 | a located rendering is the file, a colon, a number that reads back as the statement's line plus the offset, text starting with a colon (so the number is the whole run of digits before it), and the message |
| Linter.PlusAssociative | linter/linter.go:45-51 | merging results is associative |
| Linter.PlusIdentity | linter/linter.go:45-51 | an empty result is neutral for merging |
| Linter.Result.constructor | linter/linter.go:67 | a new Result has five empty fields |
| Linter.Result.Merge | linter/linter.go:45-51 | each of the five fields becomes its old value followed by other's, in order (doubling it when other is the receiver); other is unchanged when it is a different result |
| Linter.AsConfigError | linter/linter.go:57-59 | the reported error is always a ConfigError: err itself when it already is one, otherwise one with err's text |
| Linter.BadConfig | linter/linter.go:56-63 | the value of BadConfigResult: exactly one exception, a ConfigError with err's text (err itself if it is one), and every other field empty |
| Linter.BadConfigResult | linter/linter.go:56-63 | returns a fresh Result whose value is `BadConfig(err)` |
| Linter.AppendStatementErrors | linter/linter.go:106-116 | the statement-error loop appends exactly the findings of the errors, in order |
| Linter.StatementErrorsOutcome | linter/linter.go:106-116 | each statement error yields exactly one entry; an error on a table that ignore-table matches yields a debug log; every other error yields an Errors annotation at its statement with summary "SQL statement returned an error" and the error's text as message; every Errors annotation comes from such an error; no other field is touched |
| Linter.AppendProblems | linter/linter.go:118-125 | the problem loop appends exactly the findings of running each configured problem in the given order |
| Linter.ProblemsPartitionedBySeverity | linter/linter.go:118-125 | every annotation of a warning problem lands in Warnings and every annotation of an error problem in Errors; these two fields hold nothing else, and no other field is touched |
| Linter.CompareDefinition | linter/linter.go:131-143 | one comparison step: an ignored table gets a debug log; otherwise a canonical text that differs from the file body gets a format notice |
| Linter.AppendReformatNotices | linter/linter.go:130-144 | the comparison loop appends exactly the findings of the definitions, in order |
| Linter.DefinitionsOnlyNoticesAndLogs | linter/linter.go:130-144 | the comparison adds no error, warning or exception |
| Linter.ReformatNoticesSound | linter/linter.go:135-143 | every format notice belongs to a non-ignored object whose canonical text differs from its file body; it sits at the file's statement, and its message is the canonical text followed by the file's suffix |
| Linter.ReformatNoticesComplete | linter/linter.go:130-143 | every object that needs reformatting gets its format notice, and every ignored table its debug log |
| Linter.ReformatNoticesIff | linter/linter.go:130-144 | a format notice is emitted if and only if the object is not an ignored table and its canonical text differs from the file body |
| Linter.LintMaterialized | linter/linter.go:106-144 | once the workspace has run, statement errors, then problems, then comparisons are appended |
| Linter.LintOutcome | linter/linter.go:101-144 | a workspace failure appends one exception naming the directory; a materialised schema is linted |
| Linter.FindIgnoredName | linter/linter.go:86-92 | the scan finds a match exactly when the ignore-schema pattern matches one of the configured schema names |
| Linter.LintSchemas | linter/linter.go:82-146 | the loop over logical schemas yields, in order, the findings of each; when ignore-schema matches and there is a logical schema, the result is only the skip log |
| Linter.LintDir | linter/linter.go:66-147 | the returned result is freshly allocated and its value is `LintDirSpec`: a malformed ignore-table, then ignore-schema, then an OptionsForDir failure give `BadConfig` of that error; otherwise the loop's findings |
| Linter.MaterializedAddsNoException | linter/linter.go:106-144 | a materialised logical schema adds no exception |
| Linter.SchemaExceptionsAreWorkspaceFailures | linter/linter.go:82-105 | among the first n logical schemas, the exceptions number exactly the workspace failures, and none is a ConfigError |
| Linter.ConfigFailureIsFatal | linter/linter.go:69-80 | a malformed ignore pattern or an invalid problem list gives exactly one ConfigError with the failure's text and nothing else, whatever the workspace would return |
| Linter.IgnoredSchemaEndsRun | linter/linter.go:86-96 | when ignore-schema matches a configured schema name, the result is the one skip log and nothing else, whatever the workspace would return |
| Linter.RunExceptionsAreWorkspaceFailures | linter/linter.go:82-105 | with a valid configuration and no ignored schema, there is one exception per workspace failure, and none is a ConfigError |
| Linter.WorkspaceFailureContributesOneException | linter/linter.go:101-105 | a failed materialisation contributes one exception naming the directory and the error, and nothing else |

## Left out

- `AddCommandOptions` (linter/config.go:22-27) registers command-line options and their defaults. It is not modelled; the configuration arrives as already-read values in `DirConfig`.
- Config.ToLower: lower-cases ASCII letters only. Go's `strings.ToLower` also folds non-ASCII letters, so a name with such letters may be judged differently.
- Linter.Annotation.MessageWithLocation: `LineNo + LineOffset` is an unbounded integer. Go's `int` would wrap around at 64 bits.
- Regular-expression compilation and matching are a foreign library. A pattern is given as unset, malformed (with the compile error's text), or compiled (its source text and a match predicate). The text `%s` prints for a compiled pattern is taken to be its source.
- `workspace.ExecLogicalSchema` provisions a database. Its result for each logical schema is an input (`Materialization`), and the text of its error is given.
- The problem registry (`problems`, `problemExists`, `allProblemNames`) is not part of this model. Its names are an input sequence in the order the error message lists them, and the checkers are an opaque function.
- Configuration lookups are inputs: `GetSlice`'s splitting and trimming, `RelPath`, `Statement.SplitTextBody` and the text of an object key.
- Go map iteration order is random. Each `range` over `ProblemSeverity` and `ObjectDefinitions` visits its keys in a given order, one per logical schema. The lemmas hold for every order.
- A missing CREATE statement for a compared object would dereference a nil pointer in Go. `LintDir` requires every non-ignored compared object to have one (`LintInputs`).
- Annotations hold a `Statement` value rather than a pointer, so sharing between annotations is not modelled.
- The loops of `LintDir` are separate methods (`LintSchemas`, `LintOutcome`, `AppendStatementErrors`, `AppendProblems`, `AppendReformatNotices` with `CompareDefinition`). Each updates the same result in place, in the same order as the source.
- The Go error values besides `ConfigError` are represented by their text (`Error.Other`). `fmt.Errorf` wrapping is not modelled beyond the message it produces.
