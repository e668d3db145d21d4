/**
 * The rule tester's own test suite, case by case: the mocked environment, the
 * inputs each test passes to `run`, and the exact outcome each test expects.
 */
module Scenarios {
  import opened Wrappers
  import opened Versions
  import opened DependencyConstraints
  import opened TestCases
  import opened Registration
  import opened Tester

  const TotallyReal := "totally-real-dependency"
  const TotallyRealPrerelease := "totally-real-dependency-prerelease"
  const Ten := Version(10, 0, 0, "")
  const TenRc := Version(10, 0, 0, "rc.1")

  /**
   * The process as the suite mocks it: two resolvable fake packages, and the
   * semver library's verdicts on the ranges the suite asks about.
   */
  const MockEnv := Env(
    map[TotallyReal := Ten, TotallyRealPrerelease := TenRc],
    map[
      RangeQuery(Ten, "^10", None) := true,
      RangeQuery(Ten, "<999", None) := true,
      RangeQuery(Ten, "^999", None) := false,
      RangeQuery(Ten, ">=999.0", None) := false,
      RangeQuery(TenRc, "^10", Some(false)) := false])

  /** The root directory the suite's constructors configure. */
  const Root := "/some/path/that/totally/exists/"
  const TestRoot := "/set/in/the/test/"
  const ProjectOptions := ParserOptions(None, Some("tsconfig.json"), Some(Root), None)
  const JsxOptions := ParserOptions(Some(true), None, None, None)

  /** A tester on the project's parser, with a type-aware project rooted at a fixed directory. */
  const ProjectConfig := TesterConfig(Some(TsEslintParser), Some(ProjectOptions), None, None)
  const ParserOnlyConfig := TesterConfig(Some(TsEslintParser), None, None, None)
  const NoConfig := TesterConfig(None, None, None, None)

  function InvalidCase(code: string): CaseObject
  {
    CodeOnly(code).(errors := Some([ExpectedError(Some("error"), None)]))
  }

  function AtLeastOn(name: string, version: string): Constraints
  {
    map[name := AtLeastString(version)]
  }

  // ----- string constraints against the installed 10.0.0 -----

  /** Installed 10.0.0 satisfies "10", "10.0" and "10.0.0", and none of "999", "999.0", "999.0.0", "99999". */
  lemma StringConstraintOutcomes()
    ensures AtLeast(Ten, "10") && AtLeast(Ten, "10.0") && AtLeast(Ten, "10.0.0")
    ensures !AtLeast(Ten, "999") && !AtLeast(Ten, "999.0") && !AtLeast(Ten, "999.0.0")
    ensures !AtLeast(Ten, "99999")
  {
    assert Format([10]) == "10";
    assert Format([10, 0]) == "10.0";
    assert Format([10, 0, 0]) == "10.0.0";
    assert Format([999]) == "999";
    assert Format([999, 0]) == "999.0";
    assert Format([999, 0, 0]) == "999.0.0";
    assert Format([99999]) == "99999";
    AtLeastMeaning(Ten, [10]);
    AtLeastMeaning(Ten, [10, 0]);
    AtLeastMeaning(Ten, [10, 0, 0]);
    AtLeastMeaning(Ten, [999]);
    AtLeastMeaning(Ten, [999, 0]);
    AtLeastMeaning(Ten, [999, 0, 0]);
    AtLeastMeaning(Ten, [99999]);
  }

  /** A prerelease of 10.0.0 satisfies no string constraint, not even "10". */
  lemma PrereleaseFailsStringConstraint()
    ensures !SatisfiesAll(MockEnv, AtLeastOn(TotallyRealPrerelease, "10"))
  {
    var cs := AtLeastOn(TotallyRealPrerelease, "10");
    assert MockEnv.installed[TotallyRealPrerelease] == TenRc;
    assert !SatisfiesConstraint(MockEnv, TotallyRealPrerelease, cs[TotallyRealPrerelease]);
  }

  // ----- helpers for reading off what the rule runner receives -----

  /** Without a root directory, a case is named "file.ts". */
  lemma PlainFilename()
    ensures DerivedFilename(ParserOnlyConfig, None) == "file.ts"
  {
    assert RootDir(ParserOnlyConfig, None) == "";
  }

  /** A case as the rule runner receives it without a root directory: named "file.ts", with its `skip` flag. */
  function Ran(o: CaseObject, skip: bool): RunCase
  {
    RunCase(o.(filename := Some("file.ts")), Some(skip))
  }

  /** A case without options of its own, in a run that decides `skip`, as the rule runner receives it. */
  lemma PreparedPlain(o: CaseObject, skip: bool)
    requires o.filename.None? && o.parserOptions.None?
    requires SkipOf(MockEnv, RunFlags(false, true), o) == Some(skip)
    ensures Prepare(ParserOnlyConfig, MockEnv, RunFlags(false, true), o) == Ran(o, skip)
  {
    PlainFilename();
  }

  function Constrained(code: string, cs: Constraints): CaseObject
  {
    CodeOnly(code).(dependencyConstraints := Some(cs))
  }

  function InvalidConstrained(code: string, cs: Constraints): CaseObject
  {
    InvalidCase(code).(dependencyConstraints := Some(cs))
  }

  function RangeOn(name: string, range: string, pre: Option<bool>): Constraints
  {
    map[name := SemverRange(range, pre)]
  }

  lemma AtLeastVerdict(name: string, version: string)
    requires name in MockEnv.installed
    ensures SatisfiesAll(MockEnv, AtLeastOn(name, version)) <==> AtLeast(MockEnv.installed[name], version)
  {
    var cs := AtLeastOn(name, version);
    assert SatisfiesAll(MockEnv, cs) <==> SatisfiesConstraint(MockEnv, name, cs[name]);
  }

  lemma RangeVerdict(name: string, range: string, pre: Option<bool>)
    requires name in MockEnv.installed
    requires RangeQuery(MockEnv.installed[name], range, pre) in MockEnv.rangeVerdicts
    ensures SatisfiesAll(MockEnv, RangeOn(name, range, pre)) == MockEnv.rangeVerdicts[RangeQuery(MockEnv.installed[name], range, pre)]
  {
    var cs := RangeOn(name, range, pre);
    assert SatisfiesAll(MockEnv, cs) <==> SatisfiesConstraint(MockEnv, name, cs[name]);
  }

  /** The verdicts on the constraint maps of the string-based tests. */
  lemma StringVerdicts()
    ensures SatisfiesAll(MockEnv, AtLeastOn(TotallyReal, "10"))
    ensures SatisfiesAll(MockEnv, AtLeastOn(TotallyReal, "10.0"))
    ensures SatisfiesAll(MockEnv, AtLeastOn(TotallyReal, "10.0.0"))
    ensures !SatisfiesAll(MockEnv, AtLeastOn(TotallyReal, "999"))
    ensures !SatisfiesAll(MockEnv, AtLeastOn(TotallyReal, "999.0"))
    ensures !SatisfiesAll(MockEnv, AtLeastOn(TotallyReal, "999.0.0"))
    ensures !SatisfiesAll(MockEnv, AtLeastOn(TotallyReal, "99999"))
  {
    StringConstraintOutcomes();
    AtLeastVerdict(TotallyReal, "10");
    AtLeastVerdict(TotallyReal, "10.0");
    AtLeastVerdict(TotallyReal, "10.0.0");
    AtLeastVerdict(TotallyReal, "999");
    AtLeastVerdict(TotallyReal, "999.0");
    AtLeastVerdict(TotallyReal, "999.0.0");
    AtLeastVerdict(TotallyReal, "99999");
  }

  // ----- 'automatically sets the filename for tests' -----

  function FilenameValid(): seq<ValidCase>
  {
    [
      Source("string based valid test"),
      Object(CodeOnly("object based valid test")),
      Object(ExplicitFilenameCase()),
      Object(JsxCase()),
      Object(TypeAwareCase())
    ]
  }

  function ExplicitFilenameCase(): CaseObject
  {
    CodeOnly("explicit filename shouldn't be overwritten").(filename := Some("/set/in/the/test.ts"))
  }

  function JsxCase(): CaseObject
  {
    CodeOnly("jsx should have the correct filename").(parserOptions := Some(JsxOptions))
  }

  function TypeAwareCase(): CaseObject
  {
    CodeOnly("type-aware parser options should override the constructor config").(parserOptions :=
      Some(ParserOptions(None, Some("tsconfig.test-specific.json"), Some(TestRoot), Some(false))))
  }

  function FilenameInvalid(): seq<CaseObject>
  {
    [InvalidCase("invalid tests should work as well")]
  }

  lemma FilenameObjects()
    ensures var objs := AllObjects(FilenameValid(), FilenameInvalid());
      && objs[0] == CodeOnly("string based valid test")
      && objs[1] == FilenameValid()[1].obj
      && objs[2] == ExplicitFilenameCase()
      && objs[3] == JsxCase()
      && objs[4] == TypeAwareCase()
      && objs[5] == FilenameInvalid()[0]
  {
  }

  lemma FilenameFlags()
    ensures Flags(AllObjects(FilenameValid(), FilenameInvalid())) == RunFlags(false, false)
  {
    var objs := AllObjects(FilenameValid(), FilenameInvalid());
    assert objs == [
      CodeOnly("string based valid test"),
      FilenameValid()[1].obj, ExplicitFilenameCase(), JsxCase(), TypeAwareCase(),
      FilenameInvalid()[0]];
    FlagsByMembership(objs);
  }

  /**
   * Every case reaches the rule runner with a filename under the constructor's
   * root directory, "react.tsx" for the JSX case; an explicit filename is kept,
   * and the case's own root directory wins. No other field is added.
   */
  lemma FilenamesAreDerived(ruleName: string)
    ensures var runs := RuleRuns(RunEvents(ProjectConfig, MockEnv, ruleName, FilenameValid(), FilenameInvalid()));
      && |runs| == 6
      && runs[0] == RunCase(CodeOnly("string based valid test").(filename := Some(Root + "file.ts")), None)
      && runs[1] == RunCase(CodeOnly("object based valid test").(filename := Some(Root + "file.ts")), None)
      && runs[2] == RunCase(ExplicitFilenameCase(), None)
      && runs[3] == RunCase(JsxCase().(filename := Some(Root + "react.tsx")), None)
      && runs[4] == RunCase(TypeAwareCase().(filename := Some(TestRoot + "file.ts")), None)
      && runs[5] == RunCase(FilenameInvalid()[0].(filename := Some(Root + "file.ts")), None)
  {
    FilenameFlags();
    RuleRunsAreCases(ProjectConfig, MockEnv, ruleName, FilenameValid(), FilenameInvalid());
    FilenameObjects();
    FilenamePrepared();
  }

  /** How each case of the filename test is prepared in a run without `only` and without constraints. */
  lemma FilenamePrepared()
    ensures Prepare(ProjectConfig, MockEnv, RunFlags(false, false), CodeOnly("string based valid test")) ==
      RunCase(CodeOnly("string based valid test").(filename := Some(Root + "file.ts")), None)
    ensures Prepare(ProjectConfig, MockEnv, RunFlags(false, false), FilenameValid()[1].obj) ==
      RunCase(CodeOnly("object based valid test").(filename := Some(Root + "file.ts")), None)
    ensures Prepare(ProjectConfig, MockEnv, RunFlags(false, false), ExplicitFilenameCase()) ==
      RunCase(ExplicitFilenameCase(), None)
    ensures Prepare(ProjectConfig, MockEnv, RunFlags(false, false), JsxCase()) ==
      RunCase(JsxCase().(filename := Some(Root + "react.tsx")), None)
    ensures Prepare(ProjectConfig, MockEnv, RunFlags(false, false), TypeAwareCase()) ==
      RunCase(TypeAwareCase().(filename := Some(TestRoot + "file.ts")), None)
    ensures Prepare(ProjectConfig, MockEnv, RunFlags(false, false), FilenameInvalid()[0]) ==
      RunCase(FilenameInvalid()[0].(filename := Some(Root + "file.ts")), None)
  {
  }

  // ----- 'allows the automated filenames to be overridden in the constructor' -----

  const RenamingConfig := ProjectConfig.(defaultFilenames := Some(DefaultFilenames("set-in-constructor.ts", "react-set-in-constructor.tsx")))

  function RenamingValid(): seq<ValidCase>
  {
    [Object(CodeOnly("normal")), Object(CodeOnly("jsx").(parserOptions := Some(JsxOptions)))]
  }

  /** The constructor's default names replace "file.ts" and "react.tsx", still under the root directory. */
  lemma ConstructorFilenamesApply(ruleName: string)
    ensures var runs := RuleRuns(RunEvents(RenamingConfig, MockEnv, ruleName, RenamingValid(), []));
      && |runs| == 2
      && runs[0] == RunCase(CodeOnly("normal").(filename := Some(Root + "set-in-constructor.ts")), None)
      && runs[1] == RunCase(RenamingValid()[1].obj.(filename := Some(Root + "react-set-in-constructor.tsx")), None)
  {
    var objs := AllObjects(RenamingValid(), []);
    assert objs == [RenamingValid()[0].obj, RenamingValid()[1].obj];
    FlagsByMembership(objs);
    assert Flags(objs) == RunFlags(false, false);
    RuleRunsAreCases(RenamingConfig, MockEnv, ruleName, RenamingValid(), []);
  }

  // ----- 'correctly handles string-based at-least' -----

  function AtLeastValid(): seq<ValidCase>
  {
    [
      Object(Constrained("passing - major", AtLeastOn(TotallyReal, "10"))),
      Object(Constrained("passing - major.minor", AtLeastOn(TotallyReal, "10.0"))),
      Object(Constrained("passing - major.minor.patch", AtLeastOn(TotallyReal, "10.0.0")))
    ]
  }

  function AtLeastInvalid(): seq<CaseObject>
  {
    [
      InvalidConstrained("failing - major", AtLeastOn(TotallyReal, "999")),
      InvalidConstrained("failing - major.minor", AtLeastOn(TotallyReal, "999.0")),
      InvalidConstrained("failing - major.minor.patch", AtLeastOn(TotallyReal, "999.0.0"))
    ]
  }

  lemma AtLeastObjects()
    ensures var objs := AllObjects(AtLeastValid(), AtLeastInvalid());
      && objs[0] == AtLeastValid()[0].obj
      && objs[1] == AtLeastValid()[1].obj
      && objs[2] == AtLeastValid()[2].obj
      && objs[3] == AtLeastInvalid()[0]
      && objs[4] == AtLeastInvalid()[1]
      && objs[5] == AtLeastInvalid()[2]
  {
  }

  lemma AtLeastFlags()
    ensures Flags(AllObjects(AtLeastValid(), AtLeastInvalid())) == RunFlags(false, true)
  {
    var objs := AllObjects(AtLeastValid(), AtLeastInvalid());
    assert objs == [
      AtLeastValid()[0].obj, AtLeastValid()[1].obj, AtLeastValid()[2].obj,
      AtLeastInvalid()[0], AtLeastInvalid()[1], AtLeastInvalid()[2]];
    FlagsByMembership(objs);
    assert HasConstraints(objs[0]);
  }

  /** In a run that decides `skip`, a case with one string constraint is skipped exactly when the installed version is too old. */
  lemma StringSkip(o: CaseObject, name: string, version: string)
    requires o.dependencyConstraints == Some(AtLeastOn(name, version)) && name in MockEnv.installed
    ensures SkipOf(MockEnv, RunFlags(false, true), o) == Some(!AtLeast(MockEnv.installed[name], version))
  {
    AtLeastVerdict(name, version);
    assert name in AtLeastOn(name, version);
  }

  lemma AtLeastSkips()
    ensures SkipOf(MockEnv, RunFlags(false, true), AtLeastValid()[0].obj) == Some(false)
    ensures SkipOf(MockEnv, RunFlags(false, true), AtLeastValid()[1].obj) == Some(false)
    ensures SkipOf(MockEnv, RunFlags(false, true), AtLeastValid()[2].obj) == Some(false)
    ensures SkipOf(MockEnv, RunFlags(false, true), AtLeastInvalid()[0]) == Some(true)
    ensures SkipOf(MockEnv, RunFlags(false, true), AtLeastInvalid()[1]) == Some(true)
    ensures SkipOf(MockEnv, RunFlags(false, true), AtLeastInvalid()[2]) == Some(true)
  {
    StringConstraintOutcomes();
    StringSkip(AtLeastValid()[0].obj, TotallyReal, "10");
    StringSkip(AtLeastValid()[1].obj, TotallyReal, "10.0");
    StringSkip(AtLeastValid()[2].obj, TotallyReal, "10.0.0");
    StringSkip(AtLeastInvalid()[0], TotallyReal, "999");
    StringSkip(AtLeastInvalid()[1], TotallyReal, "999.0");
    StringSkip(AtLeastInvalid()[2], TotallyReal, "999.0.0");
  }

  /** The cases asking for at least 10, 10.0 and 10.0.0 run; those asking for 999, 999.0 and 999.0.0 are skipped. */
  lemma AtLeastSnapshot(ruleName: string)
    ensures var runs := RuleRuns(RunEvents(ParserOnlyConfig, MockEnv, ruleName, AtLeastValid(), AtLeastInvalid()));
      && |runs| == 6
      && runs[0] == Ran(AtLeastValid()[0].obj, false)
      && runs[1] == Ran(AtLeastValid()[1].obj, false)
      && runs[2] == Ran(AtLeastValid()[2].obj, false)
      && runs[3] == Ran(AtLeastInvalid()[0], true)
      && runs[4] == Ran(AtLeastInvalid()[1], true)
      && runs[5] == Ran(AtLeastInvalid()[2], true)
  {
    AtLeastFlags();
    AtLeastSkips();
    RuleRunsAreCases(ParserOnlyConfig, MockEnv, ruleName, AtLeastValid(), AtLeastInvalid());
    AtLeastObjects();
    PreparedPlain(AtLeastValid()[0].obj, false);
    PreparedPlain(AtLeastValid()[1].obj, false);
    PreparedPlain(AtLeastValid()[2].obj, false);
    PreparedPlain(AtLeastInvalid()[0], true);
    PreparedPlain(AtLeastInvalid()[1], true);
    PreparedPlain(AtLeastInvalid()[2], true);
  }

  // ----- 'correctly handles object-based semver' -----

  function RangeValid(): seq<ValidCase>
  {
    [
      Object(Constrained("passing - major", RangeOn(TotallyReal, "^10", None))),
      Object(Constrained("passing - major.minor", RangeOn(TotallyReal, "<999", None)))
    ]
  }

  function RangeInvalid(): seq<CaseObject>
  {
    [
      InvalidConstrained("failing - major", RangeOn(TotallyReal, "^999", None)),
      InvalidConstrained("failing - major.minor", RangeOn(TotallyReal, ">=999.0", None)),
      InvalidConstrained("failing with options", RangeOn(TotallyRealPrerelease, "^10", Some(false)))
    ]
  }

  lemma RangeObjects()
    ensures var objs := AllObjects(RangeValid(), RangeInvalid());
      && objs[0] == RangeValid()[0].obj
      && objs[1] == RangeValid()[1].obj
      && objs[2] == RangeInvalid()[0]
      && objs[3] == RangeInvalid()[1]
      && objs[4] == RangeInvalid()[2]
  {
  }

  lemma RangeFlags()
    ensures Flags(AllObjects(RangeValid(), RangeInvalid())) == RunFlags(false, true)
  {
    var objs := AllObjects(RangeValid(), RangeInvalid());
    assert objs == [RangeValid()[0].obj, RangeValid()[1].obj, RangeInvalid()[0], RangeInvalid()[1], RangeInvalid()[2]];
    FlagsByMembership(objs);
    assert HasConstraints(objs[0]);
  }

  lemma RangeSkips()
    ensures SkipOf(MockEnv, RunFlags(false, true), RangeValid()[0].obj) == Some(false)
    ensures SkipOf(MockEnv, RunFlags(false, true), RangeValid()[1].obj) == Some(false)
    ensures SkipOf(MockEnv, RunFlags(false, true), RangeInvalid()[0]) == Some(true)
    ensures SkipOf(MockEnv, RunFlags(false, true), RangeInvalid()[1]) == Some(true)
    ensures SkipOf(MockEnv, RunFlags(false, true), RangeInvalid()[2]) == Some(true)
  {
    RangeVerdict(TotallyReal, "^10", None);
    RangeVerdict(TotallyReal, "<999", None);
    RangeVerdict(TotallyReal, "^999", None);
    RangeVerdict(TotallyReal, ">=999.0", None);
    RangeVerdict(TotallyRealPrerelease, "^10", Some(false));
  }

  /** Each case is skipped exactly when the semver library rejects its range for the installed version. */
  lemma RangeSnapshot(ruleName: string)
    ensures var runs := RuleRuns(RunEvents(ParserOnlyConfig, MockEnv, ruleName, RangeValid(), RangeInvalid()));
      && |runs| == 5
      && runs[0] == Ran(RangeValid()[0].obj, false)
      && runs[1] == Ran(RangeValid()[1].obj, false)
      && runs[2] == Ran(RangeInvalid()[0], true)
      && runs[3] == Ran(RangeInvalid()[1], true)
      && runs[4] == Ran(RangeInvalid()[2], true)
  {
    RangeFlags();
    RangeSkips();
    RuleRunsAreCases(ParserOnlyConfig, MockEnv, ruleName, RangeValid(), RangeInvalid());
    RangeObjects();
    PreparedPlain(RangeValid()[0].obj, false);
    PreparedPlain(RangeValid()[1].obj, false);
    PreparedPlain(RangeInvalid()[0], true);
    PreparedPlain(RangeInvalid()[1], true);
    PreparedPlain(RangeInvalid()[2], true);
  }

  // ----- 'tests without versions should always be run' -----

  function MixedValid(): seq<ValidCase>
  {
    [
      Source("string based is always run"),
      Object(CodeOnly("no constraints is always run")),
      Object(Constrained("empty object is always run", map[])),
      Object(Constrained("passing constraint", AtLeastOn(TotallyReal, "10")))
    ]
  }

  function MixedInvalid(): seq<CaseObject>
  {
    [
      InvalidCase("no constraints is always run"),
      InvalidConstrained("empty object is always run", map[]),
      InvalidConstrained("failing constraint", AtLeastOn(TotallyReal, "99999"))
    ]
  }

  lemma MixedObjects()
    ensures var objs := AllObjects(MixedValid(), MixedInvalid());
      && objs[0] == CodeOnly("string based is always run")
      && objs[1] == MixedValid()[1].obj
      && objs[2] == MixedValid()[2].obj
      && objs[3] == MixedValid()[3].obj
      && objs[4] == MixedInvalid()[0]
      && objs[5] == MixedInvalid()[1]
      && objs[6] == MixedInvalid()[2]
  {
  }

  lemma MixedFlags()
    ensures Flags(AllObjects(MixedValid(), MixedInvalid())) == RunFlags(false, true)
  {
    var objs := AllObjects(MixedValid(), MixedInvalid());
    assert objs == [
      CodeOnly("string based is always run"), MixedValid()[1].obj, MixedValid()[2].obj, MixedValid()[3].obj,
      MixedInvalid()[0], MixedInvalid()[1], MixedInvalid()[2]];
    FlagsByMembership(objs);
    assert HasConstraints(objs[3]);
  }

  lemma MixedSkips()
    ensures SkipOf(MockEnv, RunFlags(false, true), CodeOnly("string based is always run")) == Some(false)
    ensures SkipOf(MockEnv, RunFlags(false, true), MixedValid()[1].obj) == Some(false)
    ensures SkipOf(MockEnv, RunFlags(false, true), MixedValid()[2].obj) == Some(false)
    ensures SkipOf(MockEnv, RunFlags(false, true), MixedValid()[3].obj) == Some(false)
    ensures SkipOf(MockEnv, RunFlags(false, true), MixedInvalid()[0]) == Some(false)
    ensures SkipOf(MockEnv, RunFlags(false, true), MixedInvalid()[1]) == Some(false)
    ensures SkipOf(MockEnv, RunFlags(false, true), MixedInvalid()[2]) == Some(true)
  {
    StringConstraintOutcomes();
    StringSkip(MixedValid()[3].obj, TotallyReal, "10");
    StringSkip(MixedInvalid()[2], TotallyReal, "99999");
  }

  /**
   * Once some case of the run is constrained, every case carries `skip`: false
   * for the string case, the case without constraints, the empty constraint
   * map and the satisfied constraint; true only for the one asking for 99999.
   */
  lemma MixedSnapshot(ruleName: string)
    ensures var runs := RuleRuns(RunEvents(ParserOnlyConfig, MockEnv, ruleName, MixedValid(), MixedInvalid()));
      && |runs| == 7
      && runs[0] == Ran(CodeOnly("string based is always run"), false)
      && runs[1] == Ran(MixedValid()[1].obj, false)
      && runs[2] == Ran(MixedValid()[2].obj, false)
      && runs[3] == Ran(MixedValid()[3].obj, false)
      && runs[4] == Ran(MixedInvalid()[0], false)
      && runs[5] == Ran(MixedInvalid()[1], false)
      && runs[6] == Ran(MixedInvalid()[2], true)
  {
    MixedFlags();
    MixedSkips();
    RuleRunsAreCases(ParserOnlyConfig, MockEnv, ruleName, MixedValid(), MixedInvalid());
    MixedObjects();
    PreparedPlain(CodeOnly("string based is always run"), false);
    PreparedPlain(MixedValid()[1].obj, false);
    PreparedPlain(MixedValid()[2].obj, false);
    PreparedPlain(MixedValid()[3].obj, false);
    PreparedPlain(MixedInvalid()[0], false);
    PreparedPlain(MixedInvalid()[1], false);
    PreparedPlain(MixedInvalid()[2], true);
  }

  // ----- the tester object: construction and `run` -----

  /**
   * 'schedules the parser caches to be cleared afterAll': `afterAll` goes from
   * zero calls to one, and its callback clears the caches once, only when invoked.
   */
  method CacheClearScenario() returns (hooksBefore: nat, hooksAfter: nat, clearsBefore: nat, clearsAfter: nat)
    ensures hooksBefore == 0 && hooksAfter == 1
    ensures clearsBefore == 0 && clearsAfter == 1
  {
    var host := new Host();
    hooksBefore := |host.hooks|;
    var tester := new RuleTester(ProjectConfig, MockEnv, host);
    hooksAfter := |host.hooks|;
    clearsBefore := host.cacheClears;
    host.InvokeHook(0);
    clearsAfter := host.cacheClears;
  }

  /**
   * 'throws an error if you attempt to set the parser to ts-eslint at the test
   * level': `run` throws, and the error names the project's parser.
   */
  method DuplicateParserScenario(ruleName: string) returns (r: Outcome<RunError>, message: string)
    ensures r == Fail(DuplicateParser(TsEslintParser))
    ensures message == DuplicateTsEslintText
  {
    var host := new Host();
    var tester := new RuleTester(ProjectConfig, MockEnv, host);
    var valid := [Object(CodeOnly("object based valid test").(parser := Some(TsEslintParser)))];
    assert RejectsParser(ProjectConfig, AllObjects(valid, [])[0]);
    r := tester.Run(ruleName, valid, []);
    DuplicateParserText();
    message := Message(r.error);
  }

  /** The text the suite expects the error to carry. */
  const DuplicateTsEslintText :=
    "Do not set the parser at the test level unless you want to use a parser other than \"" + "@typescript-eslint/parser" + "\""

  /** The thrown text for the project's own parser. */
  lemma DuplicateParserText()
    ensures Message(DuplicateParser(TsEslintParser)) == DuplicateTsEslintText
  {
  }

  /** Runs `run` on a fresh tester and returns what the evaluator was asked. */
  method ChecksOf(ruleName: string, config: TesterConfig, valid: seq<ValidCase>, invalid: seq<CaseObject>) returns (checks: seq<Constraints>)
    requires RunOutcome(config, valid, invalid).Pass?
    ensures checks == RunQueries(config, MockEnv, valid, invalid)
  {
    var host := new Host();
    var tester := new RuleTester(config, MockEnv, host);
    var r := tester.Run(ruleName, valid, invalid);
    checks := host.constraintChecks;
  }

  function OnlyValid(): seq<ValidCase>
  {
    [
      Source("const x = 1;"),
      Object(CodeOnly("const x = 2;")),
      Object(CodeOnly("const x = 3;").(only := Some(true))),
      Object(Constrained("const x = 4;", AtLeastOn(TotallyReal, "999")))
    ]
  }

  /** 'does not check dependencies if there are no dependency constraints'. */
  method NoConstraintsScenario(ruleName: string) returns (checks: seq<Constraints>)
    ensures checks == []
  {
    NoConstraintsUnchecked(ruleName);
    checks := ChecksOf(ruleName, ParserOnlyConfig, NoConstraintsValid(), []);
  }

  function NoConstraintsValid(): seq<ValidCase>
  {
    [Source("const x = 1;"), Object(CodeOnly("const x = 2;")), Object(Constrained("const x = 3;", map[]))]
  }

  lemma NoConstraintsUnchecked(ruleName: string)
    ensures RunOutcome(ParserOnlyConfig, NoConstraintsValid(), []).Pass?
    ensures RunQueries(ParserOnlyConfig, MockEnv, NoConstraintsValid(), []) == []
  {
    var objs := AllObjects(NoConstraintsValid(), []);
    assert objs == [CodeOnly("const x = 1;"), NoConstraintsValid()[1].obj, NoConstraintsValid()[2].obj];
    NoConstraintsFlags(objs);
    UnconstrainedRunNotChecked(ParserOnlyConfig, MockEnv, ruleName, NoConstraintsValid(), []);
  }

  lemma NoConstraintsFlags(objs: seq<CaseObject>)
    requires objs == [CodeOnly("const x = 1;"), CodeOnly("const x = 2;"), Constrained("const x = 3;", map[])]
    ensures forall k :: 0 <= k < |objs| ==> !HasConstraints(objs[k]) && objs[k].parser.None?
  {
    assert |objs[2].dependencyConstraints.value| == 0;
  }

  /** 'does not check dependencies if is an "only" manually set', in the valid section. */
  method OnlyInValidScenario(ruleName: string) returns (checks: seq<Constraints>)
    ensures checks == []
  {
    var objs := AllObjects(OnlyValid(), []);
    assert objs == [CodeOnly("const x = 1;"), OnlyValid()[1].obj, OnlyValid()[2].obj, OnlyValid()[3].obj];
    assert forall k :: 0 <= k < 4 ==> objs[k].parser.None?;
    OnlySuppressesChecks(ParserOnlyConfig, MockEnv, ruleName, OnlyValid(), [], 2);
    checks := ChecksOf(ruleName, ParserOnlyConfig, OnlyValid(), []);
  }

  /** The same, with the `only` case in the invalid section. */
  method OnlyInInvalidScenario(ruleName: string) returns (checks: seq<Constraints>)
    ensures checks == []
  {
    var valid := [OnlyValid()[0], OnlyValid()[1], OnlyValid()[3]];
    var invalid := [InvalidCase("const x = 3;").(only := Some(true))];
    var objs := AllObjects(valid, invalid);
    assert objs == [CodeOnly("const x = 1;"), OnlyValid()[1].obj, OnlyValid()[3].obj, invalid[0]];
    assert forall k :: 0 <= k < 4 ==> objs[k].parser.None?;
    OnlySuppressesChecks(ParserOnlyConfig, MockEnv, ruleName, valid, invalid, 3);
    checks := ChecksOf(ruleName, ParserOnlyConfig, valid, invalid);
  }

  /** Runs `run` on a fresh tester and returns the framework's call log. */
  method LogOf(ruleName: string, config: TesterConfig, valid: seq<ValidCase>, invalid: seq<CaseObject>) returns (log: seq<Event>)
    requires RunOutcome(config, valid, invalid).Pass?
    ensures log == RunEvents(config, MockEnv, ruleName, valid, invalid)
  {
    var host := new Host();
    var tester := new RuleTester(config, MockEnv, host);
    var r := tester.Run(ruleName, valid, invalid);
    log := host.log;
  }

  /** Testers whose constructor asks for at least 999, and for at least 10, of the installed dependency. */
  const Requires999 := ParserOnlyConfig.(dependencyConstraints := Some(AtLeastOn(TotallyReal, "999")))
  const Requires10 := ParserOnlyConfig.(dependencyConstraints := Some(AtLeastOn(TotallyReal, "10")))

  lemma ConstructorVerdicts()
    ensures !ConstructorSatisfied(Requires999, MockEnv)
    ensures ConstructorSatisfied(Requires10, MockEnv)
  {
    StringVerdicts();
  }

  function SkipValid(): seq<ValidCase> { [Object(CodeOnly("passing - major"))] }
  function SkipInvalid(): seq<CaseObject> { [InvalidCase("failing - major")] }
  /** The one-case sections of the later tests. */
  function LoneInvalid(): seq<CaseObject> { [InvalidCase("invalid")] }
  function LoneValid(): seq<ValidCase> { [Object(CodeOnly("valid"))] }

  /** No case of the two constructor tests names a parser, so `run` does not throw. */
  lemma SkipRunPasses()
    ensures RunOutcome(Requires999, SkipValid(), SkipInvalid()).Pass?
  {
    NoParserPasses(Requires999, SkipValid(), SkipInvalid());
  }

  lemma PassRunPasses()
    ensures RunOutcome(Requires10, LoneValid(), LoneInvalid()).Pass?
  {
    NoParserPasses(Requires10, LoneValid(), LoneInvalid());
  }

  /** The name of the last `it` in a log, or "" when there is none. */
  function LastIt(log: seq<Event>): string
  {
    var its := ItCalls(log);
    if |its| == 0 then "" else its[|its| - 1]
  }

  /** The log of the unsatisfied-constructor run: one `describeSkip`, and the marker as the only `it`. */
  lemma ConstructorSkipLog(ruleName: string)
    ensures DescribeSkipCalls(RunEvents(Requires999, MockEnv, ruleName, SkipValid(), SkipInvalid())) == [ruleName]
    ensures LastIt(RunEvents(Requires999, MockEnv, ruleName, SkipValid(), SkipInvalid())) == SkipMarker
  {
    ConstructorVerdicts();
    ConstructorSkipsAll(Requires999, MockEnv, ruleName, SkipValid(), SkipInvalid());
  }

  /** The log of the satisfied-constructor run: three `describe`s and no `describeSkip`. */
  lemma ConstructorPassLog(ruleName: string)
    ensures |DescribeCalls(RunEvents(Requires10, MockEnv, ruleName, LoneValid(), LoneInvalid()))| == 3
    ensures DescribeSkipCalls(RunEvents(Requires10, MockEnv, ruleName, LoneValid(), LoneInvalid())) == []
  {
    ConstructorVerdicts();
    DescribeShape(Requires10, MockEnv, ruleName, LoneValid(), LoneInvalid());
  }

  /**
   * 'skips all tests if a constructor constraint is not satisifed': one
   * `describeSkip`, and the last `it` is the marker.
   */
  method ConstructorSkipScenario(ruleName: string) returns (describeSkips: nat, lastIt: string)
    ensures describeSkips == 1 && lastIt == SkipMarker
  {
    SkipRunPasses();
    ConstructorSkipLog(ruleName);
    var log := LogOf(ruleName, Requires999, SkipValid(), SkipInvalid());
    describeSkips := |DescribeSkipCalls(log)|;
    lastIt := LastIt(log);
  }

  /** 'does not skip all tests if a constructor constraint is satisifed': three `describe`s, no `describeSkip`. */
  method ConstructorPassScenario(ruleName: string) returns (describes: nat, describeSkips: nat)
    ensures describes == 3 && describeSkips == 0
  {
    PassRunPasses();
    ConstructorPassLog(ruleName);
    var log := LogOf(ruleName, Requires10, LoneValid(), LoneInvalid());
    describes := |DescribeCalls(log)|;
    describeSkips := |DescribeSkipCalls(log)|;
  }

  /** Without valid cases, `describe` is called for the rule and for "invalid" only. */
  lemma NoValidLog(ruleName: string)
    ensures RunOutcome(NoConfig, [], LoneInvalid()).Pass?
    ensures DescribeCalls(RunEvents(NoConfig, MockEnv, ruleName, [], LoneInvalid())) == [ruleName, "invalid"]
  {
    NoParserPasses(NoConfig, [], LoneInvalid());
    DescribeShape(NoConfig, MockEnv, ruleName, [], LoneInvalid());
    assert [ruleName] + [] + ["invalid"] == [ruleName, "invalid"];
  }

  /** Without invalid cases, `describe` is called for the rule and for "valid" only. */
  lemma NoInvalidLog(ruleName: string)
    ensures RunOutcome(NoConfig, LoneValid(), []).Pass?
    ensures DescribeCalls(RunEvents(NoConfig, MockEnv, ruleName, LoneValid(), [])) == [ruleName, "valid"]
  {
    NoParserPasses(NoConfig, LoneValid(), []);
    DescribeShape(NoConfig, MockEnv, ruleName, LoneValid(), []);
    assert [ruleName] + ["valid"] + [] == [ruleName, "valid"];
  }

  /** 'does not call describe with valid if no valid tests are provided'. */
  method NoValidScenario(ruleName: string) returns (describes: seq<string>)
    ensures describes == [ruleName, "invalid"]
  {
    NoValidLog(ruleName);
    var log := LogOf(ruleName, NoConfig, [], LoneInvalid());
    describes := DescribeCalls(log);
  }

  /** 'does not call describe with invalid if no invalid tests are provided'. */
  method NoInvalidScenario(ruleName: string) returns (describes: seq<string>)
    ensures describes == [ruleName, "valid"]
  {
    NoInvalidLog(ruleName);
    var log := LogOf(ruleName, NoConfig, LoneValid(), []);
    describes := DescribeCalls(log);
  }
}
