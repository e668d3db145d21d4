/**
 * What one `run` call registers with the test framework, as a log of calls.
 *
 * The framework here is the one the rule tester's own test suite installs: each
 * of `describe`, `describeSkip`, `it`, `itOnly` and `itSkip` records its call
 * and invokes its callback at once, so a case's rule execution is logged right
 * after the `it` that registers it.
 */
module Registration {
  import opened Wrappers
  import opened DependencyConstraints
  import opened TestCases

  /** One call the tester makes: a framework function, or the rule runner on a prepared case. */
  datatype Event =
    | Describe(name: string)
    | DescribeSkip(name: string)
    | It(name: string)
    | ItOnly(name: string)
    | ItSkip(name: string)
    | RunRule(item: RunCase)

  /** The name of the single case registered when the constructor's constraints fail. */
  const SkipMarker := "All tests skipped due to unsatisfied constructor dependency constraints"

  /** The parser a case must not name again: the configured one, else the project's own. */
  function ConfiguredParser(config: TesterConfig): string
  {
    config.parser.GetOr(TsEslintParser)
  }

  /** Why `run` throws: a case sets the tester's own parser, kept apart from the text it is reported with. */
  datatype RunError = DuplicateParser(parser: string)

  /** The message of the error `run` throws. */
  function Message(e: RunError): string
  {
    match e
    case DuplicateParser(parser) =>
      "Do not set the parser at the test level unless you want to use a parser other than \"" + parser + "\""
  }

  predicate RejectsParser(config: TesterConfig, o: CaseObject)
  {
    o.parser == Some(ConfiguredParser(config))
  }

  /** The valid cases as objects, in order. */
  function ValidObjects(valid: seq<ValidCase>): (objs: seq<CaseObject>)
    ensures |objs| == |valid|
    ensures forall k :: 0 <= k < |valid| ==> objs[k] == ToObject(valid[k])
  {
    seq(|valid|, k requires 0 <= k < |valid| => ToObject(valid[k]))
  }

  /** Every case of a run, valid ones first. */
  function AllObjects(valid: seq<ValidCase>, invalid: seq<CaseObject>): seq<CaseObject>
  {
    ValidObjects(valid) + invalid
  }

  /** Whether `run` throws: some case names the tester's own parser. */
  function RunOutcome(config: TesterConfig, valid: seq<ValidCase>, invalid: seq<CaseObject>): Outcome<RunError>
  {
    var objs := AllObjects(valid, invalid);
    if exists k :: 0 <= k < |objs| && RejectsParser(config, objs[k]) then
      Fail(DuplicateParser(ConfiguredParser(config)))
    else Pass
  }

  /** A run none of whose cases names a parser never throws. */
  lemma NoParserPasses(config: TesterConfig, valid: seq<ValidCase>, invalid: seq<CaseObject>)
    requires forall k :: 0 <= k < |valid| + |invalid| ==> AllObjects(valid, invalid)[k].parser.None?
    ensures RunOutcome(config, valid, invalid).Pass?
  {
  }

  /** Whether the constructor's constraints hold; absent or empty ones always do. */
  predicate ConstructorSatisfied(config: TesterConfig, env: Env)
  {
    config.dependencyConstraints.None? || SatisfiesAll(env, config.dependencyConstraints.value)
  }

  /** The evaluator calls made for the constructor's constraints: one when they are non-empty. */
  function ConstructorQueries(config: TesterConfig): seq<Constraints>
  {
    match config.dependencyConstraints
    case Some(cs) => if NonEmpty(cs) then [cs] else []
    case None => []
  }

  /** The cases as handed to the rule runner, in order. */
  function PreparedAll(config: TesterConfig, env: Env, flags: RunFlags, objs: seq<CaseObject>): (cases: seq<RunCase>)
    ensures |cases| == |objs|
    ensures forall k :: 0 <= k < |objs| ==> cases[k] == Prepare(config, env, flags, objs[k])
    decreases |objs|
  {
    if |objs| == 0 then []
    else PreparedAll(config, env, flags, objs[..|objs| - 1]) + [Prepare(config, env, flags, objs[|objs| - 1])]
  }

  /** The evaluator calls made while preparing `objs`: one per consulted case, in order. */
  function CaseQueries(flags: RunFlags, objs: seq<CaseObject>): seq<Constraints>
    decreases |objs|
  {
    if |objs| == 0 then []
    else
      var last := objs[|objs| - 1];
      CaseQueries(flags, objs[..|objs| - 1]) + (if Consulted(flags, last) then [last.dependencyConstraints.value] else [])
  }

  /** The framework function a case is registered with. */
  function Registered(c: RunCase): Event
  {
    if Skipped(c) then ItSkip(c.item.code)
    else if IsOnly(c.item) then ItOnly(c.item.code)
    else It(c.item.code)
  }

  /** The calls made for the cases of one section: each case's registration, then its rule execution. */
  function SectionEvents(cases: seq<RunCase>): seq<Event>
    decreases |cases|
  {
    if |cases| == 0 then []
    else
      var last := cases[|cases| - 1];
      SectionEvents(cases[..|cases| - 1]) + [Registered(last), RunRule(last)]
  }

  /** A section's `describe` and its cases; nothing at all for an empty section. */
  function Section(heading: string, cases: seq<RunCase>): seq<Event>
  {
    if |cases| == 0 then [] else [Describe(heading)] + SectionEvents(cases)
  }

  /** Every call one `run(ruleName, ...)` makes, when it does not throw. */
  function RunEvents(config: TesterConfig, env: Env, ruleName: string, valid: seq<ValidCase>, invalid: seq<CaseObject>): seq<Event>
  {
    if !ConstructorSatisfied(config, env) then [DescribeSkip(ruleName), It(SkipMarker)]
    else
      var flags := Flags(AllObjects(valid, invalid));
      PassedLog(ruleName, PreparedAll(config, env, flags, ValidObjects(valid)), PreparedAll(config, env, flags, invalid))
  }

  /** Every evaluator call one `run` makes, when it does not throw. */
  function RunQueries(config: TesterConfig, env: Env, valid: seq<ValidCase>, invalid: seq<CaseObject>): seq<Constraints>
  {
    if !ConstructorSatisfied(config, env) then ConstructorQueries(config)
    else
      var flags := Flags(AllObjects(valid, invalid));
      ConstructorQueries(config) + CaseQueries(flags, ValidObjects(valid)) + CaseQueries(flags, invalid)
  }

  // ----- the framework mocks' call records -----

  /** The names passed to `describe`, in order. */
  function DescribeCalls(log: seq<Event>): seq<string>
    decreases |log|
  {
    if |log| == 0 then []
    else DescribeCalls(log[..|log| - 1]) + (if log[|log| - 1].Describe? then [log[|log| - 1].name] else [])
  }

  /** The names passed to `describeSkip`, in order. */
  function DescribeSkipCalls(log: seq<Event>): seq<string>
    decreases |log|
  {
    if |log| == 0 then []
    else DescribeSkipCalls(log[..|log| - 1]) + (if log[|log| - 1].DescribeSkip? then [log[|log| - 1].name] else [])
  }

  /** The names passed to `it`, in order. */
  function ItCalls(log: seq<Event>): seq<string>
    decreases |log|
  {
    if |log| == 0 then []
    else ItCalls(log[..|log| - 1]) + (if log[|log| - 1].It? then [log[|log| - 1].name] else [])
  }

  /** The cases handed to the rule runner, in order. */
  function RuleRuns(log: seq<Event>): seq<RunCase>
    decreases |log|
  {
    if |log| == 0 then []
    else RuleRuns(log[..|log| - 1]) + (if log[|log| - 1].RunRule? then [log[|log| - 1].item] else [])
  }

  /** Each call record of a log is the record of its first part followed by that of the rest. */
  lemma CallsOfAppend(a: seq<Event>, b: seq<Event>)
    ensures DescribeCalls(a + b) == DescribeCalls(a) + DescribeCalls(b)
    ensures DescribeSkipCalls(a + b) == DescribeSkipCalls(a) + DescribeSkipCalls(b)
    ensures ItCalls(a + b) == ItCalls(a) + ItCalls(b)
    ensures RuleRuns(a + b) == RuleRuns(a) + RuleRuns(b)
  {
    DescribeCallsOfAppend(a, b);
    DescribeSkipCallsOfAppend(a, b);
    ItCallsOfAppend(a, b);
    RuleRunsOfAppend(a, b);
  }

  /** The last event of `a + b` and the log before it, when `b` is not empty. */
  lemma AppendSplit(a: seq<Event>, b: seq<Event>)
    requires |b| > 0
    ensures (a + b)[..|a + b| - 1] == a + b[..|b| - 1]
    ensures (a + b)[|a + b| - 1] == b[|b| - 1]
  {
  }

  lemma {:induction false} DescribeCallsOfAppend(a: seq<Event>, b: seq<Event>)
    ensures DescribeCalls(a + b) == DescribeCalls(a) + DescribeCalls(b)
    decreases |b|
  {
    if |b| > 0 {
      AppendSplit(a, b);
      DescribeCallsOfAppend(a, b[..|b| - 1]);
    } else {
      assert a + b == a;
    }
  }

  lemma {:induction false} DescribeSkipCallsOfAppend(a: seq<Event>, b: seq<Event>)
    ensures DescribeSkipCalls(a + b) == DescribeSkipCalls(a) + DescribeSkipCalls(b)
    decreases |b|
  {
    if |b| > 0 {
      AppendSplit(a, b);
      DescribeSkipCallsOfAppend(a, b[..|b| - 1]);
    } else {
      assert a + b == a;
    }
  }

  lemma {:induction false} ItCallsOfAppend(a: seq<Event>, b: seq<Event>)
    ensures ItCalls(a + b) == ItCalls(a) + ItCalls(b)
    decreases |b|
  {
    if |b| > 0 {
      AppendSplit(a, b);
      ItCallsOfAppend(a, b[..|b| - 1]);
    } else {
      assert a + b == a;
    }
  }

  lemma {:induction false} RuleRunsOfAppend(a: seq<Event>, b: seq<Event>)
    ensures RuleRuns(a + b) == RuleRuns(a) + RuleRuns(b)
    decreases |b|
  {
    if |b| > 0 {
      AppendSplit(a, b);
      RuleRunsOfAppend(a, b[..|b| - 1]);
    } else {
      assert a + b == a;
    }
  }

  /** What a single event contributes to each call record. */
  lemma OneEventCalls(e: Event)
    ensures DescribeCalls([e]) == if e.Describe? then [e.name] else []
    ensures DescribeSkipCalls([e]) == if e.DescribeSkip? then [e.name] else []
    ensures ItCalls([e]) == if e.It? then [e.name] else []
    ensures RuleRuns([e]) == if e.RunRule? then [e.item] else []
  {
    assert [e][..0] == [];
  }

  /** The calls of one case's registration and rule execution. */
  lemma CaseCalls(c: RunCase)
    ensures DescribeCalls([Registered(c), RunRule(c)]) == []
    ensures DescribeSkipCalls([Registered(c), RunRule(c)]) == []
    ensures RuleRuns([Registered(c), RunRule(c)]) == [c]
  {
    var r, rr := Registered(c), RunRule(c);
    assert [r, rr] == [r] + [rr];
    OneEventCalls(r);
    OneEventCalls(rr);
    DescribeCallsOfAppend([r], [rr]);
    DescribeSkipCallsOfAppend([r], [rr]);
    RuleRunsOfAppend([r], [rr]);
  }

  /** A section's cases make no `describe` or `describeSkip` call. */
  lemma {:induction false} SectionNoDescribes(cases: seq<RunCase>)
    ensures DescribeCalls(SectionEvents(cases)) == []
    ensures DescribeSkipCalls(SectionEvents(cases)) == []
    decreases |cases|
  {
    if |cases| > 0 {
      var init, last := cases[..|cases| - 1], cases[|cases| - 1];
      SectionNoDescribes(init);
      CaseCalls(last);
      DescribeCallsOfAppend(SectionEvents(init), [Registered(last), RunRule(last)]);
      DescribeSkipCallsOfAppend(SectionEvents(init), [Registered(last), RunRule(last)]);
    }
  }

  /** A section hands exactly its cases to the rule runner, in order. */
  lemma {:induction false} SectionRuns(cases: seq<RunCase>)
    ensures RuleRuns(SectionEvents(cases)) == cases
    decreases |cases|
  {
    if |cases| > 0 {
      var init, last := cases[..|cases| - 1], cases[|cases| - 1];
      SectionRuns(init);
      SectionRunsStep(init, last);
      assert init + [last] == cases;
    }
  }

  lemma SectionRunsStep(init: seq<RunCase>, last: RunCase)
    requires RuleRuns(SectionEvents(init)) == init
    ensures RuleRuns(SectionEvents(init + [last])) == init + [last]
  {
    var cases := init + [last];
    assert cases[..|cases| - 1] == init;
    CaseCalls(last);
    RuleRunsOfAppend(SectionEvents(init), [Registered(last), RunRule(last)]);
  }

  lemma SectionOfCalls(heading: string, cases: seq<RunCase>)
    ensures DescribeCalls(Section(heading, cases)) == if |cases| == 0 then [] else [heading]
    ensures DescribeSkipCalls(Section(heading, cases)) == []
  {
    SectionNoDescribes(cases);
    if |cases| > 0 {
      OneEventCalls(Describe(heading));
      DescribeCallsOfAppend([Describe(heading)], SectionEvents(cases));
      DescribeSkipCallsOfAppend([Describe(heading)], SectionEvents(cases));
    }
  }

  lemma SectionRunsOf(heading: string, cases: seq<RunCase>)
    ensures RuleRuns(Section(heading, cases)) == cases
  {
    SectionRuns(cases);
    if |cases| > 0 {
      OneEventCalls(Describe(heading));
      RuleRunsOfAppend([Describe(heading)], SectionEvents(cases));
    }
  }

  /** The log of a run that passes the constructor check, in terms of its two prepared sections. */
  function PassedLog(ruleName: string, pv: seq<RunCase>, pi: seq<RunCase>): seq<Event>
  {
    [Describe(ruleName)] + Section("valid", pv) + Section("invalid", pi)
  }

  /** The calls of a run that passes the constructor check, in terms of its two prepared sections. */
  lemma RunLogCalls(ruleName: string, pv: seq<RunCase>, pi: seq<RunCase>)
    ensures var log := PassedLog(ruleName, pv, pi);
      && DescribeCalls(log) == [ruleName] + (if |pv| > 0 then ["valid"] else []) + (if |pi| > 0 then ["invalid"] else [])
      && DescribeSkipCalls(log) == []
      && RuleRuns(log) == pv + pi
  {
    RunLogDescribes(ruleName, pv, pi);
    RunLogDescribeSkips(ruleName, pv, pi);
    RunLogRuns(ruleName, pv, pi);
  }

  lemma RunLogDescribes(ruleName: string, pv: seq<RunCase>, pi: seq<RunCase>)
    ensures DescribeCalls(PassedLog(ruleName, pv, pi)) ==
      [ruleName] + (if |pv| > 0 then ["valid"] else []) + (if |pi| > 0 then ["invalid"] else [])
  {
    OneEventCalls(Describe(ruleName));
    SectionOfCalls("valid", pv);
    SectionOfCalls("invalid", pi);
    DescribeCallsOfThree([Describe(ruleName)], Section("valid", pv), Section("invalid", pi));
  }

  lemma RunLogDescribeSkips(ruleName: string, pv: seq<RunCase>, pi: seq<RunCase>)
    ensures DescribeSkipCalls(PassedLog(ruleName, pv, pi)) == []
  {
    OneEventCalls(Describe(ruleName));
    SectionOfCalls("valid", pv);
    SectionOfCalls("invalid", pi);
    DescribeSkipCallsOfThree([Describe(ruleName)], Section("valid", pv), Section("invalid", pi));
  }

  lemma DescribeCallsOfThree(a: seq<Event>, b: seq<Event>, c: seq<Event>)
    ensures DescribeCalls(a + b + c) == DescribeCalls(a) + DescribeCalls(b) + DescribeCalls(c)
  {
    DescribeCallsOfAppend(a, b);
    DescribeCallsOfAppend(a + b, c);
  }

  lemma DescribeSkipCallsOfThree(a: seq<Event>, b: seq<Event>, c: seq<Event>)
    ensures DescribeSkipCalls(a + b + c) == DescribeSkipCalls(a) + DescribeSkipCalls(b) + DescribeSkipCalls(c)
  {
    DescribeSkipCallsOfAppend(a, b);
    DescribeSkipCallsOfAppend(a + b, c);
  }

  lemma RunLogRuns(ruleName: string, pv: seq<RunCase>, pi: seq<RunCase>)
    ensures RuleRuns(PassedLog(ruleName, pv, pi)) == pv + pi
  {
    OneEventCalls(Describe(ruleName));
    SectionRunsOf("valid", pv);
    SectionRunsOf("invalid", pi);
    RuleRunsOfThree([Describe(ruleName)], Section("valid", pv), Section("invalid", pi), pv, pi);
  }

  /** A log in three parts whose first part runs nothing runs the cases of the other two. */
  lemma RuleRunsOfThree(a: seq<Event>, b: seq<Event>, c: seq<Event>, x: seq<RunCase>, y: seq<RunCase>)
    requires RuleRuns(a) == [] && RuleRuns(b) == x && RuleRuns(c) == y
    ensures RuleRuns(a + b + c) == x + y
  {
    RuleRunsOfAppend(a, b);
    RuleRunsOfAppend(a + b, c);
    assert [] + x == x;
  }

  // ----- what the test suite asserts of a run -----

  /**
   * Unsatisfied constructor constraints register exactly one `describeSkip` for
   * the rule holding the marker `it`, and hand no case to the rule runner; the
   * evaluator is consulted on the constructor's constraints alone.
   */
  lemma ConstructorSkipsAll(config: TesterConfig, env: Env, ruleName: string, valid: seq<ValidCase>, invalid: seq<CaseObject>)
    requires !ConstructorSatisfied(config, env)
    ensures DescribeSkipCalls(RunEvents(config, env, ruleName, valid, invalid)) == [ruleName]
    ensures DescribeCalls(RunEvents(config, env, ruleName, valid, invalid)) == []
    ensures ItCalls(RunEvents(config, env, ruleName, valid, invalid)) == [SkipMarker]
    ensures RuleRuns(RunEvents(config, env, ruleName, valid, invalid)) == []
    ensures RunQueries(config, env, valid, invalid) == [config.dependencyConstraints.value]
  {
    SkipLogCalls(ruleName, SkipMarker);
  }

  /** The calls of a `describeSkip` followed by one `it`. */
  lemma SkipLogCalls(name: string, marker: string)
    ensures DescribeSkipCalls([DescribeSkip(name), It(marker)]) == [name]
    ensures DescribeCalls([DescribeSkip(name), It(marker)]) == []
    ensures ItCalls([DescribeSkip(name), It(marker)]) == [marker]
    ensures RuleRuns([DescribeSkip(name), It(marker)]) == []
  {
    assert [DescribeSkip(name), It(marker)] == [DescribeSkip(name)] + [It(marker)];
    OneEventCalls(DescribeSkip(name));
    OneEventCalls(It(marker));
    CallsOfAppend([DescribeSkip(name)], [It(marker)]);
  }

  /**
   * With satisfied constructor constraints, `describe` is called for the rule,
   * then for "valid" and for "invalid" when that section is non-empty, and
   * `describeSkip` is never called.
   */
  lemma DescribeShape(config: TesterConfig, env: Env, ruleName: string, valid: seq<ValidCase>, invalid: seq<CaseObject>)
    requires ConstructorSatisfied(config, env)
    ensures DescribeCalls(RunEvents(config, env, ruleName, valid, invalid)) ==
      [ruleName] + (if |valid| > 0 then ["valid"] else []) + (if |invalid| > 0 then ["invalid"] else [])
    ensures DescribeSkipCalls(RunEvents(config, env, ruleName, valid, invalid)) == []
  {
    var flags := Flags(AllObjects(valid, invalid));
    RunLogCalls(ruleName, PreparedAll(config, env, flags, ValidObjects(valid)), PreparedAll(config, env, flags, invalid));
  }

  /**
   * With satisfied constructor constraints, the rule runner receives every case
   * once, valid ones first, each being the case object with its filename set
   * (an explicit one kept) and, in runs that decide it, its `skip` flag.
   */
  lemma RuleRunsAreCases(config: TesterConfig, env: Env, ruleName: string, valid: seq<ValidCase>, invalid: seq<CaseObject>)
    requires ConstructorSatisfied(config, env)
    ensures |RuleRuns(RunEvents(config, env, ruleName, valid, invalid))| == |valid| + |invalid|
    ensures forall k :: 0 <= k < |valid| + |invalid| ==>
      RuleRuns(RunEvents(config, env, ruleName, valid, invalid))[k] ==
        Prepare(config, env, Flags(AllObjects(valid, invalid)), AllObjects(valid, invalid)[k])
  {
    var objs := AllObjects(valid, invalid);
    var flags := Flags(objs);
    var pv := PreparedAll(config, env, flags, ValidObjects(valid));
    var pi := PreparedAll(config, env, flags, invalid);
    RunLogCalls(ruleName, pv, pi);
    var runs := RuleRuns(RunEvents(config, env, ruleName, valid, invalid));
    assert runs == pv + pi;
    forall k | 0 <= k < |valid| + |invalid| ensures runs[k] == Prepare(config, env, flags, objs[k]) {
      if k < |valid| {
        assert runs[k] == pv[k];
      } else {
        assert runs[k] == pi[k - |valid|];
        assert objs[k] == invalid[k - |valid|];
      }
    }
  }

  /** No `only` case and no constraint: no `skip` flag is set and no case is checked. */
  lemma {:induction false} NoQueriesWhenUnconsulted(flags: RunFlags, objs: seq<CaseObject>)
    requires flags.anyOnly || forall k :: 0 <= k < |objs| ==> !HasConstraints(objs[k])
    ensures CaseQueries(flags, objs) == []
    decreases |objs|
  {
    if |objs| > 0 {
      NoQueriesWhenUnconsulted(flags, objs[..|objs| - 1]);
    }
  }

  /**
   * When any case of the run, valid or invalid, is `only`, the evaluator is
   * never consulted about a case and no case is skipped.
   */
  lemma OnlySuppressesChecks(config: TesterConfig, env: Env, ruleName: string, valid: seq<ValidCase>, invalid: seq<CaseObject>, k: nat)
    requires k < |valid| + |invalid| && IsOnly(AllObjects(valid, invalid)[k])
    ensures RunQueries(config, env, valid, invalid) == ConstructorQueries(config)
    ensures forall c :: c in RuleRuns(RunEvents(config, env, ruleName, valid, invalid)) ==> c.skip.None?
  {
    var flags := Flags(AllObjects(valid, invalid));
    assert flags.anyOnly;
    NoQueriesWhenUnconsulted(flags, ValidObjects(valid));
    NoQueriesWhenUnconsulted(flags, invalid);
    if ConstructorSatisfied(config, env) {
      RuleRunsAreCases(config, env, ruleName, valid, invalid);
    } else {
      ConstructorSkipsAll(config, env, ruleName, valid, invalid);
    }
  }

  /**
   * When no case declares a non-empty constraint map, the evaluator is never
   * consulted about a case and no case carries a `skip` flag.
   */
  lemma UnconstrainedRunNotChecked(config: TesterConfig, env: Env, ruleName: string, valid: seq<ValidCase>, invalid: seq<CaseObject>)
    requires forall k :: 0 <= k < |valid| + |invalid| ==> !HasConstraints(AllObjects(valid, invalid)[k])
    ensures RunQueries(config, env, valid, invalid) == ConstructorQueries(config)
    ensures forall c :: c in RuleRuns(RunEvents(config, env, ruleName, valid, invalid)) ==> c.skip.None?
  {
    var objs := AllObjects(valid, invalid);
    var flags := Flags(objs);
    assert !flags.anyConstrained;
    forall k | 0 <= k < |valid| ensures !HasConstraints(ValidObjects(valid)[k]) {
      assert objs[k] == ValidObjects(valid)[k];
    }
    forall k | 0 <= k < |invalid| ensures !HasConstraints(invalid[k]) {
      assert objs[|valid| + k] == invalid[k];
    }
    NoQueriesWhenUnconsulted(flags, ValidObjects(valid));
    NoQueriesWhenUnconsulted(flags, invalid);
    if ConstructorSatisfied(config, env) {
      RuleRunsAreCases(config, env, ruleName, valid, invalid);
    } else {
      ConstructorSkipsAll(config, env, ruleName, valid, invalid);
    }
  }

  /** `run` throws exactly when some case names the configured parser, and then with the fixed message. */
  lemma DuplicateParserRejected(config: TesterConfig, valid: seq<ValidCase>, invalid: seq<CaseObject>)
    ensures RunOutcome(config, valid, invalid).Fail? <==>
      (exists k :: 0 <= k < |valid| && RejectsParser(config, ToObject(valid[k])))
      || (exists k :: 0 <= k < |invalid| && RejectsParser(config, invalid[k]))
    ensures RunOutcome(config, valid, invalid).Fail? ==>
      RunOutcome(config, valid, invalid).error == DuplicateParser(ConfiguredParser(config))
  {
    var objs := AllObjects(valid, invalid);
    var vo := ValidObjects(valid);
    assert objs == vo + invalid;
    var inValid := exists k :: 0 <= k < |valid| && RejectsParser(config, ToObject(valid[k]));
    var inInvalid := exists k :: 0 <= k < |invalid| && RejectsParser(config, invalid[k]);
    var anywhere := exists j :: 0 <= j < |objs| && RejectsParser(config, objs[j]);
    if inValid {
      var k :| 0 <= k < |valid| && RejectsParser(config, ToObject(valid[k]));
      assert objs[k] == vo[k];
    }
    if inInvalid {
      var k :| 0 <= k < |invalid| && RejectsParser(config, invalid[k]);
      assert objs[|vo| + k] == invalid[k];
    }
    if anywhere {
      var j :| 0 <= j < |objs| && RejectsParser(config, objs[j]);
      if j < |vo| {
        assert objs[j] == vo[j];
      } else {
        assert objs[j] == invalid[j - |vo|];
      }
    }
    assert anywhere <==> inValid || inInvalid;
  }
}
