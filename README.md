# RuleTester: case preparation, dependency skipping and test registration

This project models the `RuleTester` of the `rule-tester` package of
typescript-eslint. The model follows what the package's test suite,
`packages/rule-tester/tests/RuleTester.test.ts`, asserts about it.

A `RuleTester` is built from a configuration:
- a parser;
- parser options;
- dependency constraints;
- default filenames.

Building one registers a single parser-cache clean-up with the test framework's `afterAll`.

`run(ruleName, rule, {valid, invalid})` works in this order:
1. It rejects any case that names the tester's own parser, with a message naming the configured parser.
2. It checks the constructor's dependency constraints. When they fail, it registers one `describeSkip` for the rule, holding one marker `it`.
3. Otherwise it turns every case into a case object. A bare string becomes `{code}`.
4. It derives a filename for every case that has none.
5. When the run has no `only` case and at least one constrained case, it asks the dependency-constraint evaluator about each case with a non-empty constraint map and sets that case's `skip` flag from the verdict; every other case gets `skip: false`.
6. It registers `describe(ruleName)`, and inside it one `describe("valid")` and one `describe("invalid")` for each section that is not empty. Each case is registered with `it`, `itOnly` or `itSkip` and then handed to the rule runner.

The test framework is the one the suite installs: `describe`, `describeSkip`, `it`, `itOnly` and `itSkip` run their callbacks immediately (test file lines 58-64). So one run leaves one ordered log of framework calls and rule executions.

Modules:
- `Wrappers` (`wrappers.dfy`): `Option` and `Outcome`.
- `Versions` (`versions.dfy`): installed versions; the "at least" string constraint (`"10"`, `"10.0"`, `"10.0.0"`) and its parser, with a round trip between formatting and parsing.
- `DependencyConstraints` (`constraints.dfy`): the evaluator.
  - Installed versions are a map, standing in for `require('<name>/package.json')`.
  - Range constraints are decided by a table of the semver library's verdicts.
- `TestCases` (`cases.dfy`): case objects, the object form of a string case, filename derivation, the run-wide `only`/constraint scan, and the `skip` decision.
- `Registration` (`registration.dfy`): the specification of one `run`:
  - `RunOutcome`: whether `run` throws;
  - `RunEvents`: the calls it makes;
  - `RunQueries`: the evaluator calls it makes;
  - the mocks' call records as projections of the log, with the lemmas the suite's assertions follow from.
- `Tester` (`tester.dfy`): the imperative part.
  - Class `Host` holds what the suite observes: the call log, the `afterAll` callbacks, the cache-clear count and the evaluator calls.
  - Class `RuleTester` holds the constructor and `run`. Its loops are proved against the `Registration` functions.
- `Scenarios` (`scenarios.dfy`): each test of the suite, with the suite's mocked environment and inputs, and the exact outcome its snapshot or assertion expects. Wherever the suite writes `'my-rule'`, the scenarios use any rule name.

## Model

| member | source | states |
|---|---|---|
| Versions.ParseFormat | packages/rule-tester/tests/RuleTester.test.ts:405-447 | every string constraint of one to three numerals written without leading zeros is read as the release it names, the missing components being zero |
| Versions.AtLeastMeaning | packages/rule-tester/tests/RuleTester.test.ts:399-517 | the string constraint naming `comps` holds exactly when the installed version is no prerelease and the padded `comps` are at most its release |
| Versions.AtLeastMonotone | packages/rule-tester/tests/RuleTester.test.ts:399-517 | a newer stable release satisfies every string constraint an older one does |
| DependencyConstraints.UnresolvableFails | packages/rule-tester/tests/RuleTester.test.ts:30-44 | a constraint on a dependency the version lookup cannot resolve makes the whole map unsatisfied |
| DependencyConstraints.SatisfiesAllSplit | packages/rule-tester/tests/RuleTester.test.ts:20-26 | "satisfies all constraints" of a map is the conjunction over any split of it into disjoint maps |
| DependencyConstraints.SingleStringConstraint | packages/rule-tester/tests/RuleTester.test.ts:405-447 | a map with one string constraint on an installed dependency holds exactly when that dependency is a stable release at least the one named |
| TestCases.ToObjectToStringAgree | packages/rule-tester/tests/RuleTester.test.ts:182-191 | a bare string case is the object `{code}`: same code, no filename and no expected errors |
| TestCases.WithFilenameChangesOnlyFilename | packages/rule-tester/tests/RuleTester.test.ts:182-224 | preparing a case sets a filename and changes no other field; an explicit filename is kept; a missing one is the derived one |
| TestCases.BareDefaultFilename | packages/rule-tester/tests/RuleTester.test.ts:450-459 | without a root directory and without configured defaults, the derived filename is "react.tsx" for JSX and "file.ts" otherwise |
| TestCases.ConfiguredDefaultFilename | packages/rule-tester/tests/RuleTester.test.ts:227-273 | the constructor's `defaultFilenames.ts` and `.tsx` replace the built-in names, after the root directory |
| TestCases.CaseRootDirWins | packages/rule-tester/tests/RuleTester.test.ts:165-213 | a case's own `tsconfigRootDir` is the root directory whatever the constructor's parser options are, and starts its derived filename |
| TestCases.CaseOptionsDecideFilename | packages/rule-tester/tests/RuleTester.test.ts:157-213 | a case setting both its own `tsconfigRootDir` and its own `ecmaFeatures.jsx` gets the same filename under any constructor parser options |
| TestCases.ConstructorRootDirApplies | packages/rule-tester/tests/RuleTester.test.ts:182-191 | a case without its own root directory gets the constructor's `tsconfigRootDir` followed by the default name |
| TestCases.FlagsByMembership | packages/rule-tester/tests/RuleTester.test.ts:341-397 | the run-wide scan finds `only` (or a non-empty constraint map) exactly when some case of the run has it |
| TestCases.SkipDecision | packages/rule-tester/tests/RuleTester.test.ts:652-755 | a case is skipped exactly when no case of the run is `only` and its own non-empty constraints fail; the evaluator is consulted on it exactly when no case is `only` and it has non-empty constraints |
| TestCases.UnconstrainedRuns | packages/rule-tester/tests/RuleTester.test.ts:700-711 | a case with absent or empty constraints is never skipped and never checked, and carries `skip: false` whenever it carries a flag |
| Registration.NoParserPasses | packages/rule-tester/tests/RuleTester.test.ts:297-320 | a run none of whose cases names a parser does not throw |
| Registration.DuplicateParserRejected | packages/rule-tester/tests/RuleTester.test.ts:297-320 | `run` throws exactly when some valid or invalid case names the configured parser, and the error carries that parser |
| Registration.ConstructorSkipsAll | packages/rule-tester/tests/RuleTester.test.ts:758-789 | failing constructor constraints give exactly one `describeSkip`, for the rule; no `describe`; the marker as the only `it`; no rule execution; one evaluator call, on the constructor's map |
| Registration.DescribeShape | packages/rule-tester/tests/RuleTester.test.ts:791-870 | with satisfied constructor constraints, `describe` is called for the rule, then "valid" and "invalid" for the non-empty sections only, and `describeSkip` never |
| Registration.RuleRunsAreCases | packages/rule-tester/tests/RuleTester.test.ts:138-224 | with satisfied constructor constraints, the rule runner receives every case once, valid ones first, each as its prepared case |
| Registration.OnlySuppressesChecks | packages/rule-tester/tests/RuleTester.test.ts:341-397 | when any case, valid or invalid, is `only`, the evaluator is never asked about a case and no case carries `skip` |
| Registration.UnconstrainedRunNotChecked | packages/rule-tester/tests/RuleTester.test.ts:323-339 | when no case has a non-empty constraint map (an empty one included), the evaluator is never asked about a case and no case carries `skip` |
| Tester.Host.constructor | packages/rule-tester/tests/RuleTester.test.ts:112-114 | the mocks start with empty call records and no cache clears |
| Tester.Host.InvokeHook | packages/rule-tester/tests/RuleTester.test.ts:289-294 | invoking the `afterAll` callback clears the parser caches once more and changes nothing else |
| Tester.RuleTester.constructor | packages/rule-tester/tests/RuleTester.test.ts:277-288 | construction adds exactly one `afterAll` callback, the cache clean-up, and calls nothing else |
| Tester.RuleTester.FindDuplicateParser | packages/rule-tester/tests/RuleTester.test.ts:297-320 | the scan reports a duplicate exactly when some case names the configured parser |
| Tester.RuleTester.ScanFlags | packages/rule-tester/tests/RuleTester.test.ts:341-397 | one pass over all cases computes whether any is `only` and whether any has non-empty constraints |
| Tester.RuleTester.PrepareCase | packages/rule-tester/tests/RuleTester.test.ts:399-517 | one case is prepared as `Prepare` says, with one evaluator call exactly when the case is consulted |
| Tester.RuleTester.PrepareCases | packages/rule-tester/tests/RuleTester.test.ts:652-755 | a section's cases are prepared in order, with the evaluator calls `CaseQueries` lists, and nothing is registered |
| Tester.RuleTester.RegisterSection | packages/rule-tester/tests/RuleTester.test.ts:58-64 | each case is registered with `itSkip`, `itOnly` or `it` and then run, in order |
| Tester.RuleTester.RegisterSectionUnder | packages/rule-tester/tests/RuleTester.test.ts:819-870 | a section gets its `describe` and its cases, and an empty section gets nothing |
| Tester.RuleTester.RegisterRule | packages/rule-tester/tests/RuleTester.test.ts:791-817 | the rule's `describe` comes first, then the valid section, then the invalid one |
| Tester.RuleTester.CheckConstructorConstraints | packages/rule-tester/tests/RuleTester.test.ts:758-817 | the constructor's constraints are checked with one evaluator call when they are non-empty, and the verdict is theirs |
| Tester.RuleTester.RegisterCases | packages/rule-tester/tests/RuleTester.test.ts:791-870 | with satisfied constructor constraints, the calls made are `RunEvents` and the evaluator calls are those of the cases |
| Tester.RuleTester.RegisterChecked | packages/rule-tester/tests/RuleTester.test.ts:758-817 | after the parser check, the calls made are `RunEvents` and the evaluator calls are `RunQueries` |
| Tester.RuleTester.Run | packages/rule-tester/tests/RuleTester.test.ts:306-319 | `run` throws as `RunOutcome` says and then registers nothing; otherwise it makes exactly the calls `RunEvents` lists and the evaluator calls `RunQueries` lists; the `afterAll` callbacks and the cache-clear count are untouched |
| Scenarios.StringConstraintOutcomes | packages/rule-tester/tests/RuleTester.test.ts:399-517 | installed 10.0.0 satisfies "10", "10.0" and "10.0.0", and none of "999", "999.0", "999.0.0" and "99999" |
| Scenarios.StringVerdicts | packages/rule-tester/tests/RuleTester.test.ts:405-447 | the same verdicts for the constraint maps on `totally-real-dependency` under the suite's mocked lookup |
| Scenarios.PrereleaseFailsStringConstraint | packages/rule-tester/tests/RuleTester.test.ts:35-37 | the mocked 10.0.0-rc.1 satisfies not even "10" |
| Scenarios.FilenamesAreDerived | packages/rule-tester/tests/RuleTester.test.ts:138-225 | the six cases reach the rule runner exactly as the snapshot lists them: filenames under the constructor's root, "react.tsx" for JSX, the explicit filename kept, the case's own root winning, no `skip` |
| Scenarios.ConstructorFilenamesApply | packages/rule-tester/tests/RuleTester.test.ts:227-274 | the two cases get the constructor's default names under the root directory |
| Scenarios.AtLeastSnapshot | packages/rule-tester/tests/RuleTester.test.ts:399-517 | the six cases reach the rule runner named "file.ts", the three asking for 10 with `skip: false` and the three asking for 999 with `skip: true` |
| Scenarios.RangeSnapshot | packages/rule-tester/tests/RuleTester.test.ts:519-650 | the five range cases reach the rule runner skipped exactly as the semver verdicts say |
| Scenarios.MixedSnapshot | packages/rule-tester/tests/RuleTester.test.ts:652-756 | all seven cases carry `skip`, false except for the one asking for 99999 |
| Scenarios.CacheClearScenario | packages/rule-tester/tests/RuleTester.test.ts:277-295 | `afterAll` goes from zero callbacks to one, and the caches go from zero clears to one only when it is invoked |
| Scenarios.DuplicateParserText | packages/rule-tester/tests/RuleTester.test.ts:317-319 | the thrown text for the project's parser is exactly the suite's |
| Scenarios.DuplicateParserScenario | packages/rule-tester/tests/RuleTester.test.ts:297-320 | `run` throws the duplicate-parser error for `@typescript-eslint/parser`, with the suite's message |
| Scenarios.NoConstraintsUnchecked | packages/rule-tester/tests/RuleTester.test.ts:323-339 | the run does not throw and makes no evaluator call |
| Scenarios.NoConstraintsScenario | packages/rule-tester/tests/RuleTester.test.ts:323-339 | a tester with three unconstrained cases (one with an empty map) never calls the evaluator |
| Scenarios.OnlyInValidScenario | packages/rule-tester/tests/RuleTester.test.ts:342-367 | an `only` valid case stops every evaluator call, even for the case asking for 999 |
| Scenarios.OnlyInInvalidScenario | packages/rule-tester/tests/RuleTester.test.ts:369-396 | an `only` invalid case does the same for the valid cases |
| Scenarios.ConstructorVerdicts | packages/rule-tester/tests/RuleTester.test.ts:760-797 | the constructor asking for 999 is unsatisfied and the one asking for 10 is satisfied |
| Scenarios.ConstructorSkipLog | packages/rule-tester/tests/RuleTester.test.ts:759-789 | the unsatisfied run calls `describeSkip` once, for the rule, and its last `it` is the marker |
| Scenarios.ConstructorSkipScenario | packages/rule-tester/tests/RuleTester.test.ts:759-789 | one `describeSkip` call, and the last `it` is "All tests skipped due to unsatisfied constructor dependency constraints" |
| Scenarios.ConstructorPassLog | packages/rule-tester/tests/RuleTester.test.ts:791-817 | the satisfied run makes three `describe` calls and no `describeSkip` |
| Scenarios.ConstructorPassScenario | packages/rule-tester/tests/RuleTester.test.ts:791-817 | three `describe` calls and no `describeSkip` call |
| Scenarios.NoValidLog | packages/rule-tester/tests/RuleTester.test.ts:819-844 | without valid cases the run does not throw and `describe` is called for the rule and "invalid" |
| Scenarios.NoValidScenario | packages/rule-tester/tests/RuleTester.test.ts:819-844 | the `describe` calls are exactly the rule name and "invalid" |
| Scenarios.NoInvalidLog | packages/rule-tester/tests/RuleTester.test.ts:846-870 | without invalid cases the run does not throw and `describe` is called for the rule and "valid" |
| Scenarios.NoInvalidScenario | packages/rule-tester/tests/RuleTester.test.ts:846-870 | the `describe` calls are exactly the rule name and "valid" |

## Left out

- `RuleTester`'s own source file is not part of this model. The model is built from what the test suite asserts about it. Where the suite does not decide something, the model makes a choice, and each choice is listed here.
- The root directory of a derived filename: a case's own `tsconfigRootDir` wins over the constructor's (`CaseRootDirWins`), as the case at lines 165-172 and its snapshot at lines 205-212 show.
- The parser check when the tester configures no parser: the project's own parser `@typescript-eslint/parser` is still rejected at the case level (`ConfiguredParser`). The message at line 318 names exactly that parser. No test of the suite gives a case a parser under a tester without one.
- An empty constructor `dependencyConstraints` map `{}` counts as satisfied, and the evaluator is not called for it (`ConstructorQueries`, `CheckConstructorConstraints`). The suite has no such test.
- Whether a case is JSX: the case's own `ecmaFeatures.jsx` decides when it sets one; otherwise the constructor's `ecmaFeatures.jsx` does (`JsxEnabled`). The suite only tests JSX set on the case (lines 157-164, 245-252).
- In a run with an `only` case, the constructor's constraints are still checked, and only the cases are exempt (`RunQueries`, `OnlySuppressesChecks`). The suite's `only` tests use testers without constructor constraints (lines 341-397).
- Object-form constraints (`{range, options}`) are decided by the semver library, which is not part of this model. `Env.rangeVerdicts` is a table of its verdicts. A question missing from the table counts as unsatisfied. The model's mocked environment, `Scenarios.MockEnv`, holds the five verdicts the suite's range test observes.
- Unknown dependencies: the suite's lookup falls back to the real `require` for any name but the two fake packages, so nothing is asserted about them. The model counts a constraint on a name missing from `Env.installed` as unsatisfied (`UnresolvableFails`).
- String constraints other than one to three plain numerals (`"^10"`, `"10.x"`, `"v10"`) never hold in the model. The suite uses only plain numerals. An installed prerelease satisfies no string constraint; the suite does not test this for string constraints.
- The `skip` flag's presence: the model sets `skip` on every case when the run has no `only` case and some case has a non-empty constraint map, and on no case otherwise. This agrees with every snapshot. The suite states no general rule, so the presence rule is a choice made by the model.
- When the evaluator is asked: in a run with a constrained case and no `only` case, the model asks it only about the cases whose constraint map is non-empty, once each, valid cases first; the other cases get `skip: false` without a call (`Consulted`, `CaseQueries`, `SkipDecision`). The suite counts evaluator calls only in runs without constraints or with an `only` case (lines 338, 366, 395).
- Which parser a case may not name: the tester's configured parser, whatever it is (`RejectsParser`, `ConfiguredParser`). A case naming another parser, `@typescript-eslint/parser` included, passes under a tester configured with a different one. The suite only configures `@typescript-eslint/parser` or no parser (lines 140, 229, 281, 299, 325, 820, 847).
- The order of the checks in `run`: the parser check comes first, then the constructor's constraints. The suite runs no test that could tell the two orders apart.
- Running a rule and comparing diagnostics and fixes, and the parser itself, are left out. The suite replaces the rule runner with a mock (lines 89-110). `RunRule(c)` in the log stands for one call of that mock.
- Checking the shape of invalid cases (a missing `errors`, say) is left out. No test of the suite exercises it.
- `it` names are the case's code. Any name sanitising or truncation the real tester may do is left out, because the suite asserts only the marker name.
- The `project` / `EXPERIMENTAL_useProjectService` options are carried along but never read. The filename is root directory plus name, joined by plain concatenation, as the snapshots show; path normalisation is left out.
- The suite's normalisation of Windows path separators in what it reads back (line 132) is left out. It is part of the suite, not of the tester.
- Concurrency and the framework's later execution of the registered tests are left out. The suite's framework runs every callback at once, so the model has a single ordered log.
- `packages/integration-tests/tools/pack-packages.ts` is left out: it is file-system and subprocess work.
- The vitest configuration files are left out: they are declarative and contain no logic.
