/** Annotations, results and the per-directory lint run (linter/linter.go). */
module Linter {
  import opened Config
  import Decimal

  const ObjectTypeTable := "table"
  const StatementErrorSummary := "SQL statement returned an error"
  const ReformatSummary := "SQL statement should be reformatted"

  /** A statement from the filesystem: where it is and its raw text. */
  datatype Statement = Statement(File: string, LineNo: int, CharNo: int, Text: string)

  /** An error, warning or notice from linting a single SQL statement. */
  datatype Annotation = Annotation(Statement: Statement, LineOffset: int, Summary: string, Message: string) {

    /** The message with the statement's location before it when the location is
        known, and with the full statement text after it otherwise. The column is
        shown only for a zero offset and a column beyond the first. */
    function MessageWithLocation(): (s: string)
      ensures Statement.File == "" || Statement.LineNo == 0 ==>
        s == Message + " [Full SQL: " + Statement.Text + "]"
      ensures Statement.File != "" && Statement.LineNo != 0 && LineOffset == 0 && Statement.CharNo > 1 ==>
        s == Statement.File + ":" + Decimal.IntToString(Statement.LineNo) + ":" + Decimal.IntToString(Statement.CharNo) + ": " + Message
      ensures Statement.File != "" && Statement.LineNo != 0 && (LineOffset != 0 || Statement.CharNo <= 1) ==>
        s == Statement.File + ":" + Decimal.IntToString(Statement.LineNo + LineOffset) + ": " + Message
    {
      if Statement.File == "" || Statement.LineNo == 0 then
        Message + " [Full SQL: " + Statement.Text + "]"
      else if LineOffset == 0 && Statement.CharNo > 1 then
        Statement.File + ":" + Decimal.IntToString(Statement.LineNo) + ":" + Decimal.IntToString(Statement.CharNo) + ": " + Message
      else
        Statement.File + ":" + Decimal.IntToString(Statement.LineNo + LineOffset) + ": " + Message
    }
  }

  /** A located rendering is the file, a colon, a line number that reads back as the
      statement's line plus the offset, then text starting with a colon (so the number
      is exactly the digits between the two colons), and the message. */
  lemma LocatedLineReadsBack(a: Annotation)
    requires a.Statement.File != "" && a.Statement.LineNo != 0
    ensures exists line: string, middle: string ::
      |line| >= 1 && (line[0] == '-' || Decimal.IsDigit(line[0])) &&
      (forall i :: 1 <= i < |line| ==> Decimal.IsDigit(line[i])) &&
      Decimal.ParseInt(line) == a.Statement.LineNo + a.LineOffset &&
      |middle| >= 1 && middle[0] == ':' &&
      a.MessageWithLocation() == a.Statement.File + ":" + line + middle + a.Message
  {
    var st := a.Statement;
    var line := Decimal.IntToString(st.LineNo + a.LineOffset);
    Decimal.IntRoundTrip(st.LineNo + a.LineOffset);
    var middle := if a.LineOffset == 0 && st.CharNo > 1 then ":" + Decimal.IntToString(st.CharNo) + ": " else ": ";
    assert middle[0] == ':';
    assert a.MessageWithLocation() == st.File + ":" + line + middle + a.Message;
  }

  /** The value of a Result: the five sequences it accumulates. */
  datatype Findings = Findings(
    Errors: seq<Annotation>,
    Warnings: seq<Annotation>,
    FormatNotices: seq<Annotation>,
    DebugLogs: seq<string>,
    Exceptions: seq<Error>)
  {
    function Plus(other: Findings): Findings {
      Findings(Errors + other.Errors, Warnings + other.Warnings, FormatNotices + other.FormatNotices,
               DebugLogs + other.DebugLogs, Exceptions + other.Exceptions)
    }
  }

  const NoFindings := Findings([], [], [], [], [])

  /** Merging is associative, so merging results one by one equals merging their merge. */
  lemma PlusAssociative(a: Findings, b: Findings, c: Findings)
    ensures a.Plus(b).Plus(c) == a.Plus(b.Plus(c))
  {
  }

  /** An empty result is neutral for merging. */
  lemma PlusIdentity(f: Findings)
    ensures NoFindings.Plus(f) == f && f.Plus(NoFindings) == f
  {
  }

  /** A combined set of annotations and errors from linting a directory. */
  class Result {
    var Errors: seq<Annotation>
    var Warnings: seq<Annotation>
    var FormatNotices: seq<Annotation>
    var DebugLogs: seq<string>
    var Exceptions: seq<Error>

    constructor ()
      ensures Snapshot() == NoFindings
    {
      Errors, Warnings, FormatNotices, DebugLogs, Exceptions := [], [], [], [], [];
    }

    function Snapshot(): Findings
      reads this
    {
      Findings(Errors, Warnings, FormatNotices, DebugLogs, Exceptions)
    }

    /** Appends each of other's sequences to this result's, field by field. */
    method Merge(other: Result)
      modifies this
      ensures Errors == old(Errors) + old(other.Errors)
      ensures Warnings == old(Warnings) + old(other.Warnings)
      ensures FormatNotices == old(FormatNotices) + old(other.FormatNotices)
      ensures DebugLogs == old(DebugLogs) + old(other.DebugLogs)
      ensures Exceptions == old(Exceptions) + old(other.Exceptions)
      ensures other != this ==> unchanged(other)
      ensures Snapshot() == old(Snapshot()).Plus(old(other.Snapshot()))
    {
      Errors := Errors + other.Errors;
      Warnings := Warnings + other.Warnings;
      FormatNotices := FormatNotices + other.FormatNotices;
      DebugLogs := DebugLogs + other.DebugLogs;
      Exceptions := Exceptions + other.Exceptions;
    }
  }

  /** The error BadConfigResult reports: err itself when it is a ConfigError,
      otherwise a ConfigError carrying err's text. */
  function AsConfigError(err: Error): (e: Error)
    ensures e.Config?
    ensures err.Config? ==> e == err
    ensures e.Text() == err.Text()
  {
    if err.Config? then err else Config(ConfigError(err.Text()))
  }

  /** The value of BadConfigResult(err): one ConfigError and nothing else. */
  function BadConfig(err: Error): (f: Findings)
    ensures f.Errors == [] && f.Warnings == [] && f.FormatNotices == [] && f.DebugLogs == []
    ensures |f.Exceptions| == 1 && f.Exceptions[0].Config? && f.Exceptions[0].Text() == err.Text()
    ensures err.Config? ==> f.Exceptions[0] == err
  {
    NoFindings.(Exceptions := [AsConfigError(err)])
  }

  /** A new Result holding only err, converted to a ConfigError if it is not one. */
  method BadConfigResult(err: Error) returns (r: Result)
    ensures fresh(r)
    ensures r.Snapshot() == BadConfig(err)
  {
    var e := err;
    if !err.Config? {
      e := Config(ConfigError(err.Text()));
    }
    r := new Result();
    r.Exceptions := [e];
  }

  // ---- The directory being linted and the collaborators of LintDir ----

  /** The identity of a schema object: its type ("table", ...) and name. */
  datatype ObjectKey = ObjectKey(Type: string, Name: string)

  /** A logical schema from the filesystem: the CREATE statement of each object. */
  datatype LogicalSchema = LogicalSchema(Creates: map<ObjectKey, Statement>)

  /** A directory: its configuration and the logical schemas declared in it. */
  datatype Dir = Dir(Config: DirConfig, LogicalSchemas: seq<LogicalSchema>)

  /** A materialised schema: each object's canonical CREATE text, in iteration order. */
  datatype Schema = Schema(ObjectDefinitions: seq<(ObjectKey, string)>)

  /** A statement that failed when the workspace executed it. */
  datatype StatementError = StatementError(ObjectType: string, ObjectName: string, Err: Error, Statement: Statement) {
    function Key(): ObjectKey {
      ObjectKey(ObjectType, ObjectName)
    }
  }

  /** What the workspace returns for one logical schema. */
  datatype Materialization =
    | ExecFailed(err: Error)
    | Executed(schema: Schema, statementErrors: seq<StatementError>)

  /** The code LintDir calls but does not define: the problem registry's names (in the
      order error messages list them) and checkers, the text of an object key, and the
      split of a statement's text into body and trailing suffix. */
  datatype Collaborators = Collaborators(
    ProblemNames: seq<string>,
    Check: (string, Schema, LogicalSchema, Options) -> seq<Annotation>,
    KeyString: ObjectKey -> string,
    SplitTextBody: Statement -> (string, string))

  /** A table object whose name the ignore-table pattern matches. */
  predicate TableIgnored(ignoreTable: Pattern, objectType: string, name: string) {
    objectType == ObjectTypeTable && ignoreTable.Compiled? && ignoreTable.matches(name)
  }

  /** The ignore-schema pattern is set and matches one of the configured literal schema names. */
  predicate SchemaIgnored(cfg: DirConfig) {
    cfg.IgnoreSchema.Compiled? &&
    exists i :: 0 <= i < |cfg.SchemaNames| && cfg.IgnoreSchema.matches(cfg.SchemaNames[i])
  }

  function SkipSchemaLog(cfg: DirConfig): string
    requires cfg.IgnoreSchema.Compiled?
  {
    "Skipping schema in " + cfg.RelPath + " because ignore-schema='" + cfg.IgnoreSchema.source + "'"
  }

  function SkipTableLog(cfg: DirConfig, env: Collaborators, key: ObjectKey): string
    requires cfg.IgnoreTable.Compiled?
  {
    "Skipping " + env.KeyString(key) + " because ignore-table='" + cfg.IgnoreTable.source + "'"
  }

  function ExecFailure(cfg: DirConfig, err: Error): Error {
    Other("Skipping schema in " + cfg.RelPath + " due to error: " + err.Text())
  }

  function ErrorAnnotation(se: StatementError): Annotation {
    Annotation(se.Statement, 0, StatementErrorSummary, se.Err.Text())
  }

  function ReformatNotice(env: Collaborators, stmt: Statement, canonical: string): Annotation {
    Annotation(stmt, 0, ReformatSummary, canonical + env.SplitTextBody(stmt).1)
  }

  /** The findings of the statement errors, handled in order. */
  function StatementErrorsFindings(cfg: DirConfig, env: Collaborators, errs: seq<StatementError>): Findings
    decreases |errs|
  {
    if errs == [] then NoFindings
    else
      var se := errs[|errs| - 1];
      var prev := StatementErrorsFindings(cfg, env, errs[..|errs| - 1]);
      if TableIgnored(cfg.IgnoreTable, se.ObjectType, se.ObjectName) then
        prev.Plus(NoFindings.(DebugLogs := [SkipTableLog(cfg, env, se.Key())]))
      else
        prev.Plus(NoFindings.(Errors := [ErrorAnnotation(se)]))
  }

  /** Each statement error yields exactly one entry: a debug log when it concerns a
      table that ignore-table matches, otherwise an Errors annotation at its statement
      whose summary says the statement returned an error and whose message is the
      error's text; no other field receives anything. */
  lemma {:induction false} StatementErrorsOutcome(cfg: DirConfig, env: Collaborators, errs: seq<StatementError>)
    ensures var f := StatementErrorsFindings(cfg, env, errs);
      f.Warnings == [] && f.FormatNotices == [] && f.Exceptions == [] &&
      |f.Errors| + |f.DebugLogs| == |errs| &&
      (forall a :: a in f.Errors ==>
        a.Summary == StatementErrorSummary && a.LineOffset == 0 &&
        exists se :: se in errs && !TableIgnored(cfg.IgnoreTable, se.ObjectType, se.ObjectName) &&
                     a.Statement == se.Statement && a.Message == se.Err.Text()) &&
      (forall se :: se in errs && !TableIgnored(cfg.IgnoreTable, se.ObjectType, se.ObjectName) ==>
        ErrorAnnotation(se) in f.Errors) &&
      (forall se :: se in errs && TableIgnored(cfg.IgnoreTable, se.ObjectType, se.ObjectName) ==>
        SkipTableLog(cfg, env, se.Key()) in f.DebugLogs)
  {
    if errs != [] {
      var init, se := errs[..|errs| - 1], errs[|errs| - 1];
      StatementErrorsOutcome(cfg, env, init);
      var prev := StatementErrorsFindings(cfg, env, init);
      var f := StatementErrorsFindings(cfg, env, errs);
      assert forall x :: x in errs ==> x in init || x == se;
      assert forall x :: x in init ==> x in errs;
      if TableIgnored(cfg.IgnoreTable, se.ObjectType, se.ObjectName) {
        assert f.Errors == prev.Errors && f.DebugLogs == prev.DebugLogs + [SkipTableLog(cfg, env, se.Key())];
      } else {
        assert f.Errors == prev.Errors + [ErrorAnnotation(se)] && f.DebugLogs == prev.DebugLogs;
        forall a | a in f.Errors
          ensures exists x :: x in errs && !TableIgnored(cfg.IgnoreTable, x.ObjectType, x.ObjectName) &&
                              a.Statement == x.Statement && a.Message == x.Err.Text()
        {
          if a !in prev.Errors {
            assert a == ErrorAnnotation(se);
          }
        }
      }
    }
  }

  /** The findings of the configured problems, visited in the given order. */
  function ProblemsFindings(opts: Options, env: Collaborators, schema: Schema, ls: LogicalSchema, order: seq<string>): Findings
    requires forall i :: 0 <= i < |order| ==> order[i] in opts.ProblemSeverity
    decreases |order|
  {
    if order == [] then NoFindings
    else
      var p := order[|order| - 1];
      var prev := ProblemsFindings(opts, env, schema, ls, order[..|order| - 1]);
      var annotations := env.Check(p, schema, ls, opts);
      if opts.ProblemSeverity[p] == SeverityWarning then
        prev.Plus(NoFindings.(Warnings := annotations))
      else
        prev.Plus(NoFindings.(Errors := annotations))
  }

  /** Checker output is partitioned by severity: every annotation of a warning problem
      is in Warnings and every annotation of an error problem in Errors, and these two
      fields hold nothing else; no other field receives anything. */
  lemma {:induction false} ProblemsPartitionedBySeverity(opts: Options, env: Collaborators, schema: Schema, ls: LogicalSchema, order: seq<string>)
    requires forall i :: 0 <= i < |order| ==> order[i] in opts.ProblemSeverity
    ensures var f := ProblemsFindings(opts, env, schema, ls, order);
      f.FormatNotices == [] && f.DebugLogs == [] && f.Exceptions == [] &&
      (forall a :: a in f.Warnings ==>
        exists p :: p in order && opts.ProblemSeverity[p] == SeverityWarning && a in env.Check(p, schema, ls, opts)) &&
      (forall a :: a in f.Errors ==>
        exists p :: p in order && opts.ProblemSeverity[p] == SeverityError && a in env.Check(p, schema, ls, opts)) &&
      (forall p, a :: p in order && a in env.Check(p, schema, ls, opts) ==>
        if opts.ProblemSeverity[p] == SeverityWarning then a in f.Warnings else a in f.Errors)
  {
    if order != [] {
      var init := order[..|order| - 1];
      ProblemsPartitionedBySeverity(opts, env, schema, ls, init);
      assert forall x :: x in order ==> x in init || x == order[|order| - 1];
      assert forall x :: x in init ==> x in order;
    }
  }

  /** Every non-ignored object whose canonical text is in ls.Creates. */
  predicate CreatesCover(cfg: DirConfig, ls: LogicalSchema, defs: seq<(ObjectKey, string)>) {
    forall i :: 0 <= i < |defs| && !TableIgnored(cfg.IgnoreTable, defs[i].0.Type, defs[i].0.Name) ==>
      defs[i].0 in ls.Creates
  }

  /** Every prefix of covered definitions is covered. */
  lemma CreatesCoverPrefix(cfg: DirConfig, ls: LogicalSchema, defs: seq<(ObjectKey, string)>, n: nat)
    requires CreatesCover(cfg, ls, defs) && n <= |defs|
    ensures CreatesCover(cfg, ls, defs[..n])
  {
    assert forall i :: 0 <= i < n ==> defs[..n][i] == defs[i];
  }

  /** An object needs reformatting when it is not an ignored table and its canonical
      text differs from the body of its CREATE statement on the filesystem. */
  predicate NeedsReformat(cfg: DirConfig, env: Collaborators, ls: LogicalSchema, key: ObjectKey, canonical: string)
    requires !TableIgnored(cfg.IgnoreTable, key.Type, key.Name) ==> key in ls.Creates
  {
    !TableIgnored(cfg.IgnoreTable, key.Type, key.Name) &&
    canonical != env.SplitTextBody(ls.Creates[key]).0
  }

  /** The findings of comparing one canonical definition with its filesystem statement. */
  function DefinitionStep(cfg: DirConfig, env: Collaborators, ls: LogicalSchema, key: ObjectKey, canonical: string): Findings
    requires !TableIgnored(cfg.IgnoreTable, key.Type, key.Name) ==> key in ls.Creates
  {
    if TableIgnored(cfg.IgnoreTable, key.Type, key.Name) then
      NoFindings.(DebugLogs := [SkipTableLog(cfg, env, key)])
    else
      var stmt := ls.Creates[key];
      if canonical != env.SplitTextBody(stmt).0 then
        NoFindings.(FormatNotices := [ReformatNotice(env, stmt, canonical)])
      else
        NoFindings
  }

  /** The findings of comparing each canonical definition with its filesystem statement. */
  function DefinitionsFindings(cfg: DirConfig, env: Collaborators, ls: LogicalSchema, defs: seq<(ObjectKey, string)>): Findings
    requires CreatesCover(cfg, ls, defs)
    decreases |defs|
  {
    if defs == [] then NoFindings
    else
      var n := |defs| - 1;
      CreatesCoverPrefix(cfg, ls, defs, n);
      DefinitionsFindings(cfg, env, ls, defs[..n]).Plus(DefinitionStep(cfg, env, ls, defs[n].0, defs[n].1))
  }

  /** The canonical text comparison fills only FormatNotices and DebugLogs. */
  lemma {:induction false} DefinitionsOnlyNoticesAndLogs(cfg: DirConfig, env: Collaborators, ls: LogicalSchema, defs: seq<(ObjectKey, string)>)
    requires CreatesCover(cfg, ls, defs)
    ensures var f := DefinitionsFindings(cfg, env, ls, defs);
      f.Errors == [] && f.Warnings == [] && f.Exceptions == []
  {
    if defs != [] {
      CreatesCoverPrefix(cfg, ls, defs, |defs| - 1);
      DefinitionsOnlyNoticesAndLogs(cfg, env, ls, defs[..|defs| - 1]);
    }
  }

  /** Every format notice belongs to an object that needs reformatting: it sits at the
      object's filesystem statement and its message is the canonical text followed by
      the statement's suffix. */
  lemma {:induction false} ReformatNoticesSound(cfg: DirConfig, env: Collaborators, ls: LogicalSchema, defs: seq<(ObjectKey, string)>)
    requires CreatesCover(cfg, ls, defs)
    ensures forall a :: a in DefinitionsFindings(cfg, env, ls, defs).FormatNotices ==>
      a.Summary == ReformatSummary && a.LineOffset == 0 &&
      exists i :: 0 <= i < |defs| && NeedsReformat(cfg, env, ls, defs[i].0, defs[i].1) &&
                  a.Statement == ls.Creates[defs[i].0] &&
                  a.Message == defs[i].1 + env.SplitTextBody(ls.Creates[defs[i].0]).1
  {
    if defs != [] {
      var n := |defs| - 1;
      var init := defs[..n];
      CreatesCoverPrefix(cfg, ls, defs, n);
      ReformatNoticesSound(cfg, env, ls, init);
      assert forall i :: 0 <= i < n ==> init[i] == defs[i];
      var (key, canonical) := defs[n];
      var prev := DefinitionsFindings(cfg, env, ls, init);
      if !TableIgnored(cfg.IgnoreTable, key.Type, key.Name) && canonical != env.SplitTextBody(ls.Creates[key]).0 {
        assert DefinitionsFindings(cfg, env, ls, defs).FormatNotices ==
          prev.FormatNotices + [ReformatNotice(env, ls.Creates[key], canonical)];
        assert NeedsReformat(cfg, env, ls, defs[n].0, defs[n].1);
      } else {
        assert DefinitionsFindings(cfg, env, ls, defs).FormatNotices == prev.FormatNotices;
      }
    }
  }

  /** Every object that needs reformatting gets its format notice, and every ignored
      table its debug log. */
  lemma {:induction false} ReformatNoticesComplete(cfg: DirConfig, env: Collaborators, ls: LogicalSchema, defs: seq<(ObjectKey, string)>)
    requires CreatesCover(cfg, ls, defs)
    ensures var f := DefinitionsFindings(cfg, env, ls, defs);
      (forall i :: 0 <= i < |defs| && NeedsReformat(cfg, env, ls, defs[i].0, defs[i].1) ==>
        ReformatNotice(env, ls.Creates[defs[i].0], defs[i].1) in f.FormatNotices) &&
      (forall i :: 0 <= i < |defs| && TableIgnored(cfg.IgnoreTable, defs[i].0.Type, defs[i].0.Name) ==>
        SkipTableLog(cfg, env, defs[i].0) in f.DebugLogs)
  {
    if defs != [] {
      var n := |defs| - 1;
      var init := defs[..n];
      CreatesCoverPrefix(cfg, ls, defs, n);
      ReformatNoticesComplete(cfg, env, ls, init);
      assert forall i :: 0 <= i < n ==> init[i] == defs[i];
      var (key, canonical) := defs[n];
      var prev := DefinitionsFindings(cfg, env, ls, init);
      var f := DefinitionsFindings(cfg, env, ls, defs);
      if TableIgnored(cfg.IgnoreTable, key.Type, key.Name) {
        assert f == prev.Plus(NoFindings.(DebugLogs := [SkipTableLog(cfg, env, key)]));
      } else if canonical != env.SplitTextBody(ls.Creates[key]).0 {
        assert f == prev.Plus(NoFindings.(FormatNotices := [ReformatNotice(env, ls.Creates[key], canonical)]));
      } else {
        assert f == prev;
      }
    }
  }

  /** A format notice is emitted exactly for the objects that need reformatting: each
      such object gets one whose message is the canonical text followed by the
      statement's suffix, and every notice is of that kind; an ignored table gets a
      debug log instead; no other field receives anything. */
  lemma ReformatNoticesIff(cfg: DirConfig, env: Collaborators, ls: LogicalSchema, defs: seq<(ObjectKey, string)>)
    requires CreatesCover(cfg, ls, defs)
    ensures var f := DefinitionsFindings(cfg, env, ls, defs);
      f.Errors == [] && f.Warnings == [] && f.Exceptions == [] &&
      (forall a :: a in f.FormatNotices ==>
        a.Summary == ReformatSummary && a.LineOffset == 0 &&
        exists i :: 0 <= i < |defs| && NeedsReformat(cfg, env, ls, defs[i].0, defs[i].1) &&
                    a.Statement == ls.Creates[defs[i].0] &&
                    a.Message == defs[i].1 + env.SplitTextBody(ls.Creates[defs[i].0]).1) &&
      (forall i :: 0 <= i < |defs| && NeedsReformat(cfg, env, ls, defs[i].0, defs[i].1) ==>
        ReformatNotice(env, ls.Creates[defs[i].0], defs[i].1) in f.FormatNotices) &&
      (forall i :: 0 <= i < |defs| && TableIgnored(cfg.IgnoreTable, defs[i].0.Type, defs[i].0.Name) ==>
        SkipTableLog(cfg, env, defs[i].0) in f.DebugLogs)
  {
    DefinitionsOnlyNoticesAndLogs(cfg, env, ls, defs);
    ReformatNoticesSound(cfg, env, ls, defs);
    ReformatNoticesComplete(cfg, env, ls, defs);
  }

  /** The findings one logical schema contributes once the workspace has run. */
  function SchemaFindings(cfg: DirConfig, opts: Options, env: Collaborators, ls: LogicalSchema,
                          m: Materialization, order: seq<string>): Findings
    requires m.Executed? ==> CreatesCover(cfg, ls, m.schema.ObjectDefinitions)
    requires forall i :: 0 <= i < |order| ==> order[i] in opts.ProblemSeverity
  {
    match m
    case ExecFailed(err) => NoFindings.(Exceptions := [ExecFailure(cfg, err)])
    case Executed(schema, errs) =>
      StatementErrorsFindings(cfg, env, errs)
        .Plus(ProblemsFindings(opts, env, schema, ls, order))
        .Plus(DefinitionsFindings(cfg, env, ls, schema.ObjectDefinitions))
  }

  /** The order lists every key of the set exactly once. */
  predicate Enumerates(order: seq<string>, keys: set<string>) {
    (forall i :: 0 <= i < |order| ==> order[i] in keys) &&
    (forall k :: k in keys ==> k in order) &&
    (forall i, j :: 0 <= i < j < |order| ==> order[i] != order[j])
  }

  /** What LintDir needs of its inputs: one workspace outcome and one iteration order of
      the severity map per logical schema, each order listing the map's keys (when
      the configuration is valid), and a CREATE statement for every object to compare. */
  predicate LintInputs(dir: Dir, env: Collaborators, outcomes: seq<Materialization>, orders: seq<seq<string>>) {
    |outcomes| == |dir.LogicalSchemas| && |orders| == |dir.LogicalSchemas| &&
    (forall i :: 0 <= i < |outcomes| && outcomes[i].Executed? ==>
       CreatesCover(dir.Config, dir.LogicalSchemas[i], outcomes[i].schema.ObjectDefinitions)) &&
    (Translate(dir.Config, env.ProblemNames).1 == None ==>
       forall i :: 0 <= i < |orders| ==> Enumerates(orders[i], Translate(dir.Config, env.ProblemNames).0.ProblemSeverity.Keys))
  }

  /** Inputs of the loop over logical schemas: one outcome and one order per logical
      schema, every order within the severity map, every compared object covered. */
  predicate SchemaInputs(dir: Dir, opts: Options, outcomes: seq<Materialization>, orders: seq<seq<string>>) {
    |dir.LogicalSchemas| == |outcomes| == |orders| &&
    (forall i :: 0 <= i < |outcomes| && outcomes[i].Executed? ==>
      CreatesCover(dir.Config, dir.LogicalSchemas[i], outcomes[i].schema.ObjectDefinitions)) &&
    (forall i, k :: 0 <= i < |orders| && 0 <= k < |orders[i]| ==> orders[i][k] in opts.ProblemSeverity)
  }

  /** The findings of the first n logical schemas, in order. */
  function SchemasFindings(dir: Dir, opts: Options, env: Collaborators,
                           outcomes: seq<Materialization>, orders: seq<seq<string>>, n: nat): Findings
    requires SchemaInputs(dir, opts, outcomes, orders) && n <= |dir.LogicalSchemas|
  {
    if n == 0 then NoFindings
    else
      SchemasFindings(dir, opts, env, outcomes, orders, n - 1)
        .Plus(SchemaFindings(dir.Config, opts, env, dir.LogicalSchemas[n - 1], outcomes[n - 1], orders[n - 1]))
  }

  /** The result LintDir returns for dir. */
  function LintDirSpec(dir: Dir, env: Collaborators, outcomes: seq<Materialization>, orders: seq<seq<string>>): Findings
    requires LintInputs(dir, env, outcomes, orders)
  {
    var cfg := dir.Config;
    if cfg.IgnoreTable.Malformed? then BadConfig(Other(cfg.IgnoreTable.reason))
    else if cfg.IgnoreSchema.Malformed? then BadConfig(Other(cfg.IgnoreSchema.reason))
    else
      var (opts, err) := Translate(cfg, env.ProblemNames);
      if err.Some? then BadConfig(Config(err.value))
      else if SchemaIgnored(cfg) && |dir.LogicalSchemas| > 0 then NoFindings.(DebugLogs := [SkipSchemaLog(cfg)])
      else SchemasFindings(dir, opts, env, outcomes, orders, |dir.LogicalSchemas|)
  }

  /** The statement-error loop of LintDir: appends the findings of errs to result. */
  method AppendStatementErrors(result: Result, cfg: DirConfig, env: Collaborators, errs: seq<StatementError>)
    modifies result
    ensures result.Snapshot() == old(result.Snapshot()).Plus(StatementErrorsFindings(cfg, env, errs))
  {
    for j := 0 to |errs|
      invariant result.Snapshot() == old(result.Snapshot()).Plus(StatementErrorsFindings(cfg, env, errs[..j]))
    {
      assert errs[..j + 1][..j] == errs[..j];
      ghost var prev := StatementErrorsFindings(cfg, env, errs[..j]);
      var stmtErr := errs[j];
      if stmtErr.ObjectType == ObjectTypeTable && cfg.IgnoreTable.Compiled? && cfg.IgnoreTable.matches(stmtErr.ObjectName) {
        ghost var step := NoFindings.(DebugLogs := [SkipTableLog(cfg, env, stmtErr.Key())]);
        assert StatementErrorsFindings(cfg, env, errs[..j + 1]) == prev.Plus(step);
        PlusAssociative(old(result.Snapshot()), prev, step);
        result.DebugLogs := result.DebugLogs + [SkipTableLog(cfg, env, stmtErr.Key())];
        assert result.Snapshot() == old(result.Snapshot()).Plus(prev).Plus(step);
        continue;
      }
      ghost var step := NoFindings.(Errors := [ErrorAnnotation(stmtErr)]);
      assert StatementErrorsFindings(cfg, env, errs[..j + 1]) == prev.Plus(step);
      PlusAssociative(old(result.Snapshot()), prev, step);
      result.Errors := result.Errors + [Annotation(stmtErr.Statement, 0, StatementErrorSummary, stmtErr.Err.Text())];
      assert result.Snapshot() == old(result.Snapshot()).Plus(prev).Plus(step);
    }
    assert errs[..|errs|] == errs;
  }

  /** The problem loop of LintDir: runs each problem's checker, in the given order of
      the severity map, and files its annotations by the problem's severity. */
  method AppendProblems(result: Result, opts: Options, env: Collaborators, schema: Schema, ls: LogicalSchema, order: seq<string>)
    requires forall i :: 0 <= i < |order| ==> order[i] in opts.ProblemSeverity
    modifies result
    ensures result.Snapshot() == old(result.Snapshot()).Plus(ProblemsFindings(opts, env, schema, ls, order))
  {
    for j := 0 to |order|
      invariant result.Snapshot() == old(result.Snapshot()).Plus(ProblemsFindings(opts, env, schema, ls, order[..j]))
    {
      assert order[..j + 1][..j] == order[..j];
      ghost var prev := ProblemsFindings(opts, env, schema, ls, order[..j]);
      var problemName := order[j];
      var annotations := env.Check(problemName, schema, ls, opts);
      if opts.ProblemSeverity[problemName] == SeverityWarning {
        ghost var step := NoFindings.(Warnings := annotations);
        assert ProblemsFindings(opts, env, schema, ls, order[..j + 1]) == prev.Plus(step);
        PlusAssociative(old(result.Snapshot()), prev, step);
        result.Warnings := result.Warnings + annotations;
        assert result.Snapshot() == old(result.Snapshot()).Plus(prev).Plus(step);
      } else {
        ghost var step := NoFindings.(Errors := annotations);
        assert ProblemsFindings(opts, env, schema, ls, order[..j + 1]) == prev.Plus(step);
        PlusAssociative(old(result.Snapshot()), prev, step);
        result.Errors := result.Errors + annotations;
        assert result.Snapshot() == old(result.Snapshot()).Plus(prev).Plus(step);
      }
    }
    assert order[..|order|] == order;
  }

  /** One iteration of the reformat loop of LintDir: an ignored table is logged and
      skipped; otherwise a canonical text that differs from the body of the filesystem
      CREATE statement yields a format notice. */
  method CompareDefinition(result: Result, cfg: DirConfig, env: Collaborators, ls: LogicalSchema, key: ObjectKey, instCreateText: string)
    requires !TableIgnored(cfg.IgnoreTable, key.Type, key.Name) ==> key in ls.Creates
    modifies result
    ensures result.Snapshot() == old(result.Snapshot()).Plus(DefinitionStep(cfg, env, ls, key, instCreateText))
  {
    if key.Type == ObjectTypeTable && cfg.IgnoreTable.Compiled? && cfg.IgnoreTable.matches(key.Name) {
      result.DebugLogs := result.DebugLogs + [SkipTableLog(cfg, env, key)];
      return;
    }
    var fsStmt := ls.Creates[key];
    var (fsBody, fsSuffix) := env.SplitTextBody(fsStmt);
    if instCreateText != fsBody {
      result.FormatNotices := result.FormatNotices + [Annotation(fsStmt, 0, ReformatSummary, instCreateText + fsSuffix)];
    }
  }

  /** The reformat loop of LintDir: compares each canonical definition with the body of
      its filesystem CREATE statement. */
  method AppendReformatNotices(result: Result, cfg: DirConfig, env: Collaborators, ls: LogicalSchema, defs: seq<(ObjectKey, string)>)
    requires CreatesCover(cfg, ls, defs)
    modifies result
    ensures result.Snapshot() == old(result.Snapshot()).Plus(DefinitionsFindings(cfg, env, ls, defs))
  {
    for j := 0 to |defs|
      invariant CreatesCover(cfg, ls, defs[..j])
      invariant result.Snapshot() == old(result.Snapshot()).Plus(DefinitionsFindings(cfg, env, ls, defs[..j]))
    {
      assert defs[..j + 1][..j] == defs[..j];
      CreatesCoverPrefix(cfg, ls, defs, j + 1);
      var (key, instCreateText) := defs[j];
      CompareDefinition(result, cfg, env, ls, key, instCreateText);
      PlusAssociative(old(result.Snapshot()), DefinitionsFindings(cfg, env, ls, defs[..j]),
                      DefinitionStep(cfg, env, ls, key, instCreateText));
    }
    assert defs[..|defs|] == defs;
  }

  /** The body of LintDir's loop once the workspace has materialised ls: statement
      errors, then the configured problems, then the canonical text comparison. */
  method LintMaterialized(result: Result, cfg: DirConfig, opts: Options, env: Collaborators, ls: LogicalSchema,
                          schema: Schema, statementErrors: seq<StatementError>, order: seq<string>)
    requires CreatesCover(cfg, ls, schema.ObjectDefinitions)
    requires forall i :: 0 <= i < |order| ==> order[i] in opts.ProblemSeverity
    modifies result
    ensures result.Snapshot() == old(result.Snapshot()).Plus(SchemaFindings(cfg, opts, env, ls, Executed(schema, statementErrors), order))
  {
    AppendStatementErrors(result, cfg, env, statementErrors);
    AppendProblems(result, opts, env, schema, ls, order);
    AppendReformatNotices(result, cfg, env, ls, schema.ObjectDefinitions);
    ghost var errorsPart := StatementErrorsFindings(cfg, env, statementErrors);
    ghost var problemsPart := ProblemsFindings(opts, env, schema, ls, order);
    PlusAssociative(old(result.Snapshot()), errorsPart, problemsPart);
    PlusAssociative(old(result.Snapshot()), errorsPart.Plus(problemsPart), DefinitionsFindings(cfg, env, ls, schema.ObjectDefinitions));
  }

  /** The scan of the configured literal schema names against the ignore-schema pattern. */
  method FindIgnoredName(cfg: DirConfig) returns (foundIgnoredName: bool)
    requires cfg.IgnoreSchema.Compiled?
    ensures foundIgnoredName == SchemaIgnored(cfg)
  {
    foundIgnoredName := false;
    for j := 0 to |cfg.SchemaNames|
      invariant foundIgnoredName <==> exists k :: 0 <= k < j && cfg.IgnoreSchema.matches(cfg.SchemaNames[k])
    {
      if cfg.IgnoreSchema.matches(cfg.SchemaNames[j]) {
        foundIgnoredName := true;
      }
    }
  }

  /** What LintDir's loop does with the workspace's outcome for one logical schema: a
      failure is recorded as an exception naming the directory, a materialised schema
      is linted. */
  method LintOutcome(result: Result, cfg: DirConfig, opts: Options, env: Collaborators, ls: LogicalSchema,
                     m: Materialization, order: seq<string>)
    requires m.Executed? ==> CreatesCover(cfg, ls, m.schema.ObjectDefinitions)
    requires forall i :: 0 <= i < |order| ==> order[i] in opts.ProblemSeverity
    modifies result
    ensures result.Snapshot() == old(result.Snapshot()).Plus(SchemaFindings(cfg, opts, env, ls, m, order))
  {
    if m.ExecFailed? {
      result.Exceptions := result.Exceptions + [ExecFailure(cfg, m.err)];
      return;
    }
    LintMaterialized(result, cfg, opts, env, ls, m.schema, m.statementErrors, order);
  }

  /** The loop of LintDir over the logical schemas, run on the result LintDir created. */
  method LintSchemas(result: Result, dir: Dir, opts: Options, env: Collaborators,
                     outcomes: seq<Materialization>, orders: seq<seq<string>>)
    requires SchemaInputs(dir, opts, outcomes, orders)
    requires result.Snapshot() == NoFindings
    modifies result
    ensures result.Snapshot() ==
      if SchemaIgnored(dir.Config) && |dir.LogicalSchemas| > 0 then NoFindings.(DebugLogs := [SkipSchemaLog(dir.Config)])
      else SchemasFindings(dir, opts, env, outcomes, orders, |dir.LogicalSchemas|)
  {
    var cfg := dir.Config;
    for i := 0 to |dir.LogicalSchemas|
      invariant result.Snapshot() == SchemasFindings(dir, opts, env, outcomes, orders, i)
      invariant SchemaIgnored(cfg) ==> i == 0
    {
      var logicalSchema := dir.LogicalSchemas[i];
      if cfg.IgnoreSchema.Compiled? {
        var foundIgnoredName := FindIgnoredName(cfg);
        if foundIgnoredName {
          result.DebugLogs := result.DebugLogs + [SkipSchemaLog(cfg)];
          return;
        }
      }

      LintOutcome(result, cfg, opts, env, logicalSchema, outcomes[i], orders[i]);
    }
  }

  /** Lints dir: validates its configuration, then takes each logical schema through
      the workspace, the statement errors, the configured problems and the canonical
      text comparison. outcomes[i] is what the workspace returns for the i-th logical
      schema and orders[i] the order in which that iteration visits the severity map. */
  method LintDir(dir: Dir, env: Collaborators, outcomes: seq<Materialization>, orders: seq<seq<string>>)
    returns (result: Result)
    requires LintInputs(dir, env, outcomes, orders)
    ensures fresh(result)
    ensures result.Snapshot() == LintDirSpec(dir, env, outcomes, orders)
  {
    result := new Result();
    var cfg := dir.Config;
    if cfg.IgnoreTable.Malformed? {
      result := BadConfigResult(Other(cfg.IgnoreTable.reason));
      return;
    }
    if cfg.IgnoreSchema.Malformed? {
      result := BadConfigResult(Other(cfg.IgnoreSchema.reason));
      return;
    }
    var opts, err := OptionsForDir(cfg, env.ProblemNames);
    if err.Some? {
      result := BadConfigResult(Config(err.value));
      return;
    }
    assert Translate(cfg, env.ProblemNames) == (opts, None);
    assert SchemaInputs(dir, opts, outcomes, orders);
    LintSchemas(result, dir, opts, env, outcomes, orders);
  }

  /** The number of logical schemas the workspace failed to materialise. */
  function FailedCount(outcomes: seq<Materialization>): nat {
    if outcomes == [] then 0
    else FailedCount(outcomes[..|outcomes| - 1]) + if outcomes[|outcomes| - 1].ExecFailed? then 1 else 0
  }

  /** A materialised logical schema adds no exception. */
  lemma MaterializedAddsNoException(cfg: DirConfig, opts: Options, env: Collaborators, ls: LogicalSchema,
                                    m: Materialization, order: seq<string>)
    requires m.Executed? && CreatesCover(cfg, ls, m.schema.ObjectDefinitions)
    requires forall i :: 0 <= i < |order| ==> order[i] in opts.ProblemSeverity
    ensures SchemaFindings(cfg, opts, env, ls, m, order).Exceptions == []
  {
    StatementErrorsOutcome(cfg, env, m.statementErrors);
    ProblemsPartitionedBySeverity(opts, env, m.schema, ls, order);
    DefinitionsOnlyNoticesAndLogs(cfg, env, ls, m.schema.ObjectDefinitions);
  }

  /** Each workspace failure among the first n logical schemas adds exactly one
      exception, and nothing else adds one; none of them is a ConfigError. */
  lemma {:induction false} SchemaExceptionsAreWorkspaceFailures(dir: Dir, opts: Options, env: Collaborators,
                                                               outcomes: seq<Materialization>, orders: seq<seq<string>>, n: nat)
    requires SchemaInputs(dir, opts, outcomes, orders) && n <= |dir.LogicalSchemas|
    ensures |SchemasFindings(dir, opts, env, outcomes, orders, n).Exceptions| == FailedCount(outcomes[..n])
    ensures forall e :: e in SchemasFindings(dir, opts, env, outcomes, orders, n).Exceptions ==> e.Other?
  {
    if n > 0 {
      SchemaExceptionsAreWorkspaceFailures(dir, opts, env, outcomes, orders, n - 1);
      var m := outcomes[n - 1];
      if m.Executed? {
        MaterializedAddsNoException(dir.Config, opts, env, dir.LogicalSchemas[n - 1], m, orders[n - 1]);
      }
      assert outcomes[..n][..n - 1] == outcomes[..n - 1];
    }
  }

  /** A malformed ignore pattern or an invalid problem list makes the result exactly
      one ConfigError carrying the failure's text, with no findings or debug logs,
      whatever the workspace would have returned. */
  lemma ConfigFailureIsFatal(dir: Dir, env: Collaborators, outcomes: seq<Materialization>, orders: seq<seq<string>>,
                             otherOutcomes: seq<Materialization>, otherOrders: seq<seq<string>>)
    requires LintInputs(dir, env, outcomes, orders) && LintInputs(dir, env, otherOutcomes, otherOrders)
    requires dir.Config.IgnoreTable.Malformed? || dir.Config.IgnoreSchema.Malformed? ||
             Translate(dir.Config, env.ProblemNames).1.Some?
    ensures var f := LintDirSpec(dir, env, outcomes, orders);
      f.Errors == [] && f.Warnings == [] && f.FormatNotices == [] && f.DebugLogs == [] &&
      |f.Exceptions| == 1 && f.Exceptions[0].Config? &&
      f.Exceptions[0].Text() ==
        if dir.Config.IgnoreTable.Malformed? then dir.Config.IgnoreTable.reason
        else if dir.Config.IgnoreSchema.Malformed? then dir.Config.IgnoreSchema.reason
        else Translate(dir.Config, env.ProblemNames).1.value.Error()
    ensures LintDirSpec(dir, env, outcomes, orders) == LintDirSpec(dir, env, otherOutcomes, otherOrders)
  {
  }

  /** When ignore-schema matches a configured schema name, the first logical schema
      ends the run: the result is one debug log, whatever the workspace would return. */
  lemma IgnoredSchemaEndsRun(dir: Dir, env: Collaborators, outcomes: seq<Materialization>, orders: seq<seq<string>>,
                             otherOutcomes: seq<Materialization>, otherOrders: seq<seq<string>>)
    requires LintInputs(dir, env, outcomes, orders) && LintInputs(dir, env, otherOutcomes, otherOrders)
    requires !dir.Config.IgnoreTable.Malformed? && Translate(dir.Config, env.ProblemNames).1 == None
    requires SchemaIgnored(dir.Config) && |dir.LogicalSchemas| > 0
    ensures LintDirSpec(dir, env, outcomes, orders) ==
      Findings([], [], [], ["Skipping schema in " + dir.Config.RelPath + " because ignore-schema='" + dir.Config.IgnoreSchema.source + "'"], [])
    ensures LintDirSpec(dir, env, outcomes, orders) == LintDirSpec(dir, env, otherOutcomes, otherOrders)
  {
  }

  /** With a valid configuration and no ignored schema, the exceptions are exactly one
      per logical schema the workspace failed on, and none is a ConfigError. */
  lemma RunExceptionsAreWorkspaceFailures(dir: Dir, env: Collaborators, outcomes: seq<Materialization>, orders: seq<seq<string>>)
    requires LintInputs(dir, env, outcomes, orders)
    requires !dir.Config.IgnoreTable.Malformed? && !dir.Config.IgnoreSchema.Malformed?
    requires Translate(dir.Config, env.ProblemNames).1 == None
    requires !SchemaIgnored(dir.Config)
    ensures |LintDirSpec(dir, env, outcomes, orders).Exceptions| == FailedCount(outcomes)
    ensures forall e :: e in LintDirSpec(dir, env, outcomes, orders).Exceptions ==> !e.Config?
  {
    var opts := Translate(dir.Config, env.ProblemNames).0;
    SchemaExceptionsAreWorkspaceFailures(dir, opts, env, outcomes, orders, |outcomes|);
    assert outcomes[..|outcomes|] == outcomes;
  }

  /** A failed materialisation contributes one exception naming the directory and nothing else. */
  lemma WorkspaceFailureContributesOneException(cfg: DirConfig, opts: Options, env: Collaborators,
                                                ls: LogicalSchema, err: Error, order: seq<string>)
    requires forall i :: 0 <= i < |order| ==> order[i] in opts.ProblemSeverity
    ensures SchemaFindings(cfg, opts, env, ls, ExecFailed(err), order) ==
      Findings([], [], [], [], [Other("Skipping schema in " + cfg.RelPath + " due to error: " + err.Text())])
  {
  }
}
