/**
 * Test cases as a rule-tester `run` receives them, and the per-case work done
 * before anything is registered: a string case becomes an object, a missing
 * filename is derived, and the dependency-based `skip` flag is decided.
 */
module TestCases {
  import opened Wrappers
  import opened DependencyConstraints

  /** The parser shipped with the project; the tester's parser when none is configured. */
  const TsEslintParser := "@typescript-eslint/parser"
  const DefaultTsFilename := "file.ts"
  const DefaultTsxFilename := "react.tsx"

  /** The parser options the rule tester reads; any others are carried along untouched. */
  datatype ParserOptions = ParserOptions(
    jsx: Option<bool>,                   // ecmaFeatures.jsx
    project: Option<string>,
    tsconfigRootDir: Option<string>,
    useProjectService: Option<bool>)     // EXPERIMENTAL_useProjectService

  /** The file names used when a case has none, for plain and for JSX sources. */
  datatype DefaultFilenames = DefaultFilenames(ts: string, tsx: string)

  /** The configuration a tester is constructed with; it never changes afterwards. */
  datatype TesterConfig = TesterConfig(
    parser: Option<string>,
    parserOptions: Option<ParserOptions>,
    dependencyConstraints: Option<Constraints>,
    defaultFilenames: Option<DefaultFilenames>)

  /** One expected diagnostic of an invalid case. */
  datatype ExpectedError = ExpectedError(messageId: Option<string>, message: Option<string>)

  /** A test case object. `errors` is present on invalid cases and absent on valid ones. */
  datatype CaseObject = CaseObject(
    code: string,
    filename: Option<string>,
    parser: Option<string>,
    parserOptions: Option<ParserOptions>,
    dependencyConstraints: Option<Constraints>,
    only: Option<bool>,
    errors: Option<seq<ExpectedError>>,
    output: Option<string>)

  /** A valid case: a bare source string, or an object. */
  datatype ValidCase = Source(code: string) | Object(obj: CaseObject)

  /** A case as handed to the rule runner: the case object and the `skip` flag, when one was set. */
  datatype RunCase = RunCase(item: CaseObject, skip: Option<bool>)

  /** The object holding only `code`. */
  function CodeOnly(code: string): CaseObject
  {
    CaseObject(code, None, None, None, None, None, None, None)
  }

  /** The object form of a valid case: a bare string becomes `{code}`, an object stays as it is. */
  function ToObject(c: ValidCase): (o: CaseObject)
    ensures c.Object? ==> o == c.obj
    ensures c.Source? ==> o == CodeOnly(c.code)
  {
    match c
    case Source(code) => CodeOnly(code)
    case Object(obj) => obj
  }

  /** A string case and the object holding only its code are the same case. */
  lemma ToObjectToStringAgree(code: string)
    ensures ToObject(Source(code)) == ToObject(Object(CodeOnly(code)))
    ensures ToObject(Source(code)).code == code
    ensures ToObject(Source(code)).filename.None? && ToObject(Source(code)).errors.None?
  {
  }

  // ----- filenames -----

  /** Whether the case's source is JSX: the case's own `ecmaFeatures.jsx` first, then the constructor's. */
  predicate JsxEnabled(config: TesterConfig, opts: Option<ParserOptions>)
  {
    if opts.Some? && opts.value.jsx.Some? then opts.value.jsx.value
    else config.parserOptions.Some? && config.parserOptions.value.jsx == Some(true)
  }

  /** The directory prepended to a derived filename: the case's `tsconfigRootDir`, then the constructor's, else none. */
  function RootDir(config: TesterConfig, opts: Option<ParserOptions>): string
  {
    if opts.Some? && opts.value.tsconfigRootDir.Some? then opts.value.tsconfigRootDir.value
    else if config.parserOptions.Some? && config.parserOptions.value.tsconfigRootDir.Some? then
      config.parserOptions.value.tsconfigRootDir.value
    else ""
  }

  /** The default file name for a plain or a JSX source. */
  function DefaultName(config: TesterConfig, jsx: bool): string
  {
    match config.defaultFilenames
    case Some(names) => if jsx then names.tsx else names.ts
    case None => if jsx then DefaultTsxFilename else DefaultTsFilename
  }

  /** The filename given to a case that has none. */
  function DerivedFilename(config: TesterConfig, opts: Option<ParserOptions>): string
  {
    RootDir(config, opts) + DefaultName(config, JsxEnabled(config, opts))
  }

  /** The case with its filename: an explicit filename is kept, a missing one is derived. */
  function WithFilename(config: TesterConfig, o: CaseObject): CaseObject
  {
    if o.filename.Some? then o else o.(filename := Some(DerivedFilename(config, o.parserOptions)))
  }

  /** Adding the filename changes nothing but the filename, and never replaces an explicit one. */
  lemma WithFilenameChangesOnlyFilename(config: TesterConfig, o: CaseObject)
    ensures WithFilename(config, o).filename.Some?
    ensures WithFilename(config, o) == o.(filename := WithFilename(config, o).filename)
    ensures o.filename.Some? ==> WithFilename(config, o) == o
    ensures o.filename.None? ==>
      WithFilename(config, o).filename == Some(DerivedFilename(config, o.parserOptions))
  {
  }

  /**
   * Without a root directory anywhere and without configured default names, the
   * derived filename is "react.tsx" for JSX and "file.ts" otherwise.
   */
  lemma BareDefaultFilename(config: TesterConfig, opts: Option<ParserOptions>)
    requires config.defaultFilenames.None?
    requires opts.None? || opts.value.tsconfigRootDir.None?
    requires config.parserOptions.None? || config.parserOptions.value.tsconfigRootDir.None?
    ensures DerivedFilename(config, opts) == if JsxEnabled(config, opts) then "react.tsx" else "file.ts"
  {
    assert RootDir(config, opts) == "";
  }

  /** Configured default names replace the built-in ones, and the root directory still comes first. */
  lemma ConfiguredDefaultFilename(config: TesterConfig, opts: Option<ParserOptions>, ts: string, tsx: string)
    requires config.defaultFilenames == Some(DefaultFilenames(ts, tsx))
    ensures !JsxEnabled(config, opts) ==> DerivedFilename(config, opts) == RootDir(config, opts) + ts
    ensures JsxEnabled(config, opts) ==> DerivedFilename(config, opts) == RootDir(config, opts) + tsx
  {
  }

  /**
   * A case's own `tsconfigRootDir` wins over the constructor's: the derived
   * filename starts with it, whatever the constructor configured.
   */
  lemma CaseRootDirWins(config: TesterConfig, other: ParserOptions, opts: ParserOptions, dir: string)
    requires opts.tsconfigRootDir == Some(dir)
    ensures RootDir(config, Some(opts)) == dir
    ensures RootDir(config.(parserOptions := Some(other)), Some(opts)) == dir
    ensures DerivedFilename(config, Some(opts))[..|dir|] == dir
  {
  }

  /**
   * A case that sets both its own `tsconfigRootDir` and its own `ecmaFeatures.jsx`
   * gets the same filename whatever parser options the constructor has.
   */
  lemma CaseOptionsDecideFilename(config: TesterConfig, other: ParserOptions, opts: ParserOptions)
    requires opts.tsconfigRootDir.Some? && opts.jsx.Some?
    ensures DerivedFilename(config, Some(opts)) == DerivedFilename(config.(parserOptions := Some(other)), Some(opts))
  {
  }

  /** Without a root directory of its own, a case takes the constructor's. */
  lemma ConstructorRootDirApplies(config: TesterConfig, opts: Option<ParserOptions>, dir: string)
    requires opts.None? || opts.value.tsconfigRootDir.None?
    requires config.parserOptions.Some? && config.parserOptions.value.tsconfigRootDir == Some(dir)
    ensures DerivedFilename(config, opts)[..|dir|] == dir
    ensures DerivedFilename(config, opts)[|dir|..] == DefaultName(config, JsxEnabled(config, opts))
  {
  }

  // ----- the dependency-based skip flag -----

  /** Whether a case declares a non-empty `dependencyConstraints` object. */
  predicate HasConstraints(o: CaseObject)
  {
    o.dependencyConstraints.Some? && NonEmpty(o.dependencyConstraints.value)
  }

  predicate IsOnly(o: CaseObject)
  {
    o.only == Some(true)
  }

  /** What one scan over all cases of a run (valid, then invalid) finds. */
  datatype RunFlags = RunFlags(anyOnly: bool, anyConstrained: bool)

  function Flags(objs: seq<CaseObject>): RunFlags
  {
    RunFlags(
      exists i :: 0 <= i < |objs| && IsOnly(objs[i]),
      exists i :: 0 <= i < |objs| && HasConstraints(objs[i]))
  }

  /** The scan's findings, stated over the cases rather than their positions. */
  lemma FlagsByMembership(objs: seq<CaseObject>)
    ensures Flags(objs).anyOnly <==> exists o :: o in objs && IsOnly(o)
    ensures Flags(objs).anyConstrained <==> exists o :: o in objs && HasConstraints(o)
  {
    if exists o :: o in objs && IsOnly(o) {
      var o :| o in objs && IsOnly(o);
      var k :| 0 <= k < |objs| && objs[k] == o;
    }
    if exists o :: o in objs && HasConstraints(o) {
      var o :| o in objs && HasConstraints(o);
      var k :| 0 <= k < |objs| && objs[k] == o;
    }
  }

  /** Whether the evaluator is consulted about this case's constraints. */
  predicate Consulted(flags: RunFlags, o: CaseObject)
  {
    !flags.anyOnly && flags.anyConstrained && HasConstraints(o)
  }

  /**
   * The `skip` flag set on a case: none in a run with an `only` case or without
   * any constrained case; otherwise whether its non-empty constraints fail.
   */
  function SkipOf(env: Env, flags: RunFlags, o: CaseObject): Option<bool>
  {
    if flags.anyOnly || !flags.anyConstrained then None
    else if HasConstraints(o) then Some(!SatisfiesAll(env, o.dependencyConstraints.value))
    else Some(false)
  }

  /** The case handed to the rule runner. */
  function Prepare(config: TesterConfig, env: Env, flags: RunFlags, o: CaseObject): RunCase
  {
    RunCase(WithFilename(config, o), SkipOf(env, flags, o))
  }

  predicate Skipped(c: RunCase)
  {
    c.skip == Some(true)
  }

  /**
   * Within a run, a case is skipped exactly when no case of the run is `only`
   * and its own non-empty constraints are not satisfied.
   */
  lemma SkipDecision(config: TesterConfig, env: Env, objs: seq<CaseObject>, k: nat)
    requires k < |objs|
    ensures Skipped(Prepare(config, env, Flags(objs), objs[k])) <==>
      && !Flags(objs).anyOnly
      && HasConstraints(objs[k])
      && !SatisfiesAll(env, objs[k].dependencyConstraints.value)
    ensures Consulted(Flags(objs), objs[k]) <==> !Flags(objs).anyOnly && HasConstraints(objs[k])
  {
    if HasConstraints(objs[k]) {
      assert Flags(objs).anyConstrained;
    }
  }

  /** A case without constraints, or with an empty constraint map, is never skipped and never checked. */
  lemma UnconstrainedRuns(env: Env, flags: RunFlags, o: CaseObject)
    requires !HasConstraints(o)
    ensures !Skipped(RunCase(o, SkipOf(env, flags, o)))
    ensures SkipOf(env, flags, o).Some? ==> SkipOf(env, flags, o) == Some(false)
    ensures !Consulted(flags, o)
  {
  }
}
