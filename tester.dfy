/**
 * The rule tester as an object: construction schedules the parser-cache
 * clean-up with the framework's `afterAll`, and `run` checks the cases, makes
 * the constraint checks and registers the `describe`/`it` calls in order.
 */
module Tester {
  import opened Wrappers
  import opened DependencyConstraints
  import opened TestCases
  import opened Registration

  /** A callback handed to `afterAll`. */
  datatype Hook = ClearParserCaches

  /**
   * Everything the tester talks to and the test suite observes: the framework's
   * call log, the callbacks registered with `afterAll`, the number of times the
   * parser's caches were cleared, and the constraint maps given to the evaluator.
   */
  class Host {
    var log: seq<Event>
    var hooks: seq<Hook>
    var cacheClears: nat
    var constraintChecks: seq<Constraints>

    constructor ()
      ensures log == [] && hooks == [] && cacheClears == 0 && constraintChecks == []
    {
      log := [];
      hooks := [];
      cacheClears := 0;
      constraintChecks := [];
    }

    /** The framework invokes the `i`-th `afterAll` callback. */
    method InvokeHook(i: nat)
      requires i < |hooks|
      modifies this
      ensures hooks == old(hooks) && log == old(log) && constraintChecks == old(constraintChecks)
      ensures cacheClears == old(cacheClears) + 1
    {
      match hooks[i]
      case ClearParserCaches =>
        cacheClears := cacheClears + 1;
    }
  }

  lemma AppendFour<T>(o: seq<T>, a: seq<T>, b: seq<T>, c: seq<T>)
    ensures o + a + b + c == o + (a + b + c)
  {
  }

  class RuleTester {
    const config: TesterConfig
    const env: Env
    const host: Host

    /** Construction schedules exactly one parser-cache clean-up and does nothing else. */
    constructor (config: TesterConfig, env: Env, host: Host)
      modifies host
      ensures this.config == config && this.env == env && this.host == host
      ensures host.hooks == old(host.hooks) + [ClearParserCaches]
      ensures host.cacheClears == old(host.cacheClears)
      ensures host.log == old(host.log) && host.constraintChecks == old(host.constraintChecks)
    {
      this.config := config;
      this.env := env;
      this.host := host;
      new;
      host.hooks := host.hooks + [ClearParserCaches];
    }

    /** Whether some case names the configured parser. */
    method FindDuplicateParser(objs: seq<CaseObject>) returns (found: bool)
      ensures found <==> exists k :: 0 <= k < |objs| && RejectsParser(config, objs[k])
    {
      var parser := ConfiguredParser(config);
      found := false;
      var i := 0;
      while i < |objs| && !found
        invariant 0 <= i <= |objs|
        invariant found <==> exists k :: 0 <= k < i && RejectsParser(config, objs[k])
      {
        if objs[i].parser == Some(parser) {
          found := true;
        }
        i := i + 1;
      }
    }

    /** One pass over all cases: is any of them `only`, does any declare non-empty constraints? */
    method ScanFlags(objs: seq<CaseObject>) returns (flags: RunFlags)
      ensures flags == Flags(objs)
    {
      var anyOnly, anyConstrained := false, false;
      var i := 0;
      while i < |objs|
        invariant 0 <= i <= |objs|
        invariant anyOnly <==> exists k :: 0 <= k < i && IsOnly(objs[k])
        invariant anyConstrained <==> exists k :: 0 <= k < i && HasConstraints(objs[k])
      {
        if objs[i].only == Some(true) {
          anyOnly := true;
        }
        if objs[i].dependencyConstraints.Some? && |objs[i].dependencyConstraints.value| > 0 {
          anyConstrained := true;
        }
        i := i + 1;
      }
      flags := RunFlags(anyOnly, anyConstrained);
    }

    /** Prepares one case: its `skip` flag, consulting the evaluator when the run checks it, and its filename. */
    method PrepareCase(flags: RunFlags, o: CaseObject) returns (c: RunCase)
      modifies host
      ensures c == Prepare(config, env, flags, o)
      ensures host.constraintChecks == old(host.constraintChecks) + (if Consulted(flags, o) then [o.dependencyConstraints.value] else [])
      ensures host.log == old(host.log) && host.hooks == old(host.hooks) && host.cacheClears == old(host.cacheClears)
    {
      var skip: Option<bool> := None;
      if !flags.anyOnly && flags.anyConstrained {
        if o.dependencyConstraints.Some? && |o.dependencyConstraints.value| > 0 {
          host.constraintChecks := host.constraintChecks + [o.dependencyConstraints.value];
          skip := Some(!SatisfiesAll(env, o.dependencyConstraints.value));
        } else {
          skip := Some(false);
        }
      }
      var named := if o.filename.Some? then o else o.(filename := Some(DerivedFilename(config, o.parserOptions)));
      c := RunCase(named, skip);
    }

    /** Prepares the cases of one section, consulting the evaluator on each case it checks. */
    method PrepareCases(flags: RunFlags, objs: seq<CaseObject>) returns (cases: seq<RunCase>)
      modifies host
      ensures cases == PreparedAll(config, env, flags, objs)
      ensures host.constraintChecks == old(host.constraintChecks) + CaseQueries(flags, objs)
      ensures host.log == old(host.log) && host.hooks == old(host.hooks) && host.cacheClears == old(host.cacheClears)
    {
      cases := [];
      var i := 0;
      while i < |objs|
        invariant 0 <= i <= |objs|
        invariant cases == PreparedAll(config, env, flags, objs[..i])
        invariant host.constraintChecks == old(host.constraintChecks) + CaseQueries(flags, objs[..i])
        invariant host.log == old(host.log) && host.hooks == old(host.hooks) && host.cacheClears == old(host.cacheClears)
      {
        var c := PrepareCase(flags, objs[i]);
        cases := cases + [c];
        assert objs[..i + 1][..i] == objs[..i];
        i := i + 1;
      }
      assert objs[..|objs|] == objs;
    }

    /** Registers the cases of one section, each followed by its rule execution. */
    method RegisterSection(cases: seq<RunCase>)
      modifies host
      ensures host.log == old(host.log) + SectionEvents(cases)
      ensures host.hooks == old(host.hooks) && host.cacheClears == old(host.cacheClears)
      ensures host.constraintChecks == old(host.constraintChecks)
    {
      var i := 0;
      while i < |cases|
        invariant 0 <= i <= |cases|
        invariant host.log == old(host.log) + SectionEvents(cases[..i])
        invariant host.hooks == old(host.hooks) && host.cacheClears == old(host.cacheClears)
        invariant host.constraintChecks == old(host.constraintChecks)
      {
        var c := cases[i];
        host.log := host.log + [Registered(c), RunRule(c)];
        assert cases[..i + 1][..i] == cases[..i];
        i := i + 1;
      }
      assert cases[..|cases|] == cases;
    }

    /** Registers a section's `describe` and its cases, or nothing for an empty section. */
    method RegisterSectionUnder(heading: string, cases: seq<RunCase>)
      modifies host
      ensures host.log == old(host.log) + Section(heading, cases)
      ensures host.hooks == old(host.hooks) && host.cacheClears == old(host.cacheClears)
      ensures host.constraintChecks == old(host.constraintChecks)
    {
      if |cases| > 0 {
        host.log := host.log + [Describe(heading)];
        RegisterSection(cases);
      }
    }

    /** Registers the rule's `describe` and, inside it, each non-empty section. */
    method RegisterRule(ruleName: string, validCases: seq<RunCase>, invalidCases: seq<RunCase>)
      modifies host
      ensures host.log == old(host.log) + [Describe(ruleName)] + Section("valid", validCases) + Section("invalid", invalidCases)
      ensures host.hooks == old(host.hooks) && host.cacheClears == old(host.cacheClears)
      ensures host.constraintChecks == old(host.constraintChecks)
    {
      host.log := host.log + [Describe(ruleName)];
      RegisterSectionUnder("valid", validCases);
      RegisterSectionUnder("invalid", invalidCases);
    }

    /** Checks the constructor's constraints when there are any; false means all tests are skipped. */
    method CheckConstructorConstraints() returns (satisfied: bool)
      modifies host
      ensures satisfied == ConstructorSatisfied(config, env)
      ensures host.constraintChecks == old(host.constraintChecks) + ConstructorQueries(config)
      ensures host.log == old(host.log) && host.hooks == old(host.hooks) && host.cacheClears == old(host.cacheClears)
    {
      satisfied := true;
      match config.dependencyConstraints
      case Some(cs) =>
        if |cs| > 0 {
          host.constraintChecks := host.constraintChecks + [cs];
          satisfied := SatisfiesAll(env, cs);
        } else {
          assert cs == map[];
        }
      case None =>
    }

    /** Prepares and registers every case of a run whose constructor constraints hold. */
    method RegisterCases(ruleName: string, valid: seq<ValidCase>, invalid: seq<CaseObject>)
      requires ConstructorSatisfied(config, env)
      modifies host
      ensures host.log == old(host.log) + RunEvents(config, env, ruleName, valid, invalid)
      ensures var flags := Flags(AllObjects(valid, invalid));
        host.constraintChecks == old(host.constraintChecks) + CaseQueries(flags, ValidObjects(valid)) + CaseQueries(flags, invalid)
      ensures host.hooks == old(host.hooks) && host.cacheClears == old(host.cacheClears)
    {
      var validObjs := ValidObjects(valid);
      var flags := ScanFlags(validObjs + invalid);
      var validCases := PrepareCases(flags, validObjs);
      var invalidCases := PrepareCases(flags, invalid);
      RegisterRule(ruleName, validCases, invalidCases);
    }

    /** The part of `run` after the parser check: the constructor check, then every case. */
    method RegisterChecked(ruleName: string, valid: seq<ValidCase>, invalid: seq<CaseObject>)
      modifies host
      ensures host.log == old(host.log) + RunEvents(config, env, ruleName, valid, invalid)
      ensures host.constraintChecks == old(host.constraintChecks) + RunQueries(config, env, valid, invalid)
      ensures host.hooks == old(host.hooks) && host.cacheClears == old(host.cacheClears)
    {
      var satisfied := CheckConstructorConstraints();
      if !satisfied {
        assert RunQueries(config, env, valid, invalid) == ConstructorQueries(config);
        host.log := host.log + [DescribeSkip(ruleName), It(SkipMarker)];
        return;
      }
      ghost var before := host.constraintChecks;
      RegisterCases(ruleName, valid, invalid);
      ghost var flags := Flags(AllObjects(valid, invalid));
      ghost var a, b, c := ConstructorQueries(config), CaseQueries(flags, ValidObjects(valid)), CaseQueries(flags, invalid);
      assert before == old(host.constraintChecks) + a;
      assert RunQueries(config, env, valid, invalid) == a + b + c;
      assert host.constraintChecks == before + b + c;
      AppendFour(old(host.constraintChecks), a, b, c);
    }

    /**
     * `run(ruleName, rule, {valid, invalid})`: throws when a case names the
     * configured parser; otherwise makes exactly the calls `RunEvents` lists and
     * the evaluator calls `RunQueries` lists. The `afterAll` callbacks and the
     * cache-clear count are never touched.
     */
    method Run(ruleName: string, valid: seq<ValidCase>, invalid: seq<CaseObject>) returns (r: Outcome<RunError>)
      modifies host
      ensures r == RunOutcome(config, valid, invalid)
      ensures r.Fail? ==> host.log == old(host.log) && host.constraintChecks == old(host.constraintChecks)
      ensures r.Pass? ==> host.log == old(host.log) + RunEvents(config, env, ruleName, valid, invalid)
      ensures r.Pass? ==> host.constraintChecks == old(host.constraintChecks) + RunQueries(config, env, valid, invalid)
      ensures host.hooks == old(host.hooks) && host.cacheClears == old(host.cacheClears)
    {
      var duplicate := FindDuplicateParser(AllObjects(valid, invalid));
      if duplicate {
        return Fail(DuplicateParser(ConfiguredParser(config)));
      }
      RegisterChecked(ruleName, valid, invalid);
      return Pass;
    }
  }
}
