/**
 * The dependency-constraint evaluator: whether every dependency a constraint
 * map names is installed at a version that satisfies its constraint.
 */
module DependencyConstraints {
  import opened Wrappers
  import opened Versions

  /**
   * A constraint on one dependency: either a bare version string, meaning "at
   * least this version", or a range expression handed to the semver library
   * together with its `includePrerelease` option.
   */
  datatype Constraint =
    | AtLeastString(version: string)
    | SemverRange(range: string, includePrerelease: Option<bool>)

  /** Dependency name to constraint, as a `dependencyConstraints` object maps them. */
  type Constraints = map<string, Constraint>

  /** One question put to the semver library: does `installed` satisfy `range` under these options? */
  datatype RangeQuery = RangeQuery(installed: Version, range: string, includePrerelease: Option<bool>)

  /**
   * What the evaluator can see of the process: the version each resolvable
   * `<name>/package.json` declares, and the verdicts the semver library gives
   * on range questions. A name missing from `installed` cannot be resolved.
   */
  datatype Env = Env(installed: map<string, Version>, rangeVerdicts: map<RangeQuery, bool>)

  /** Whether dependency `name` is installed at a version that satisfies `c`. */
  predicate SatisfiesConstraint(env: Env, name: string, c: Constraint)
  {
    && name in env.installed
    && match c
       case AtLeastString(s) => AtLeast(env.installed[name], s)
       case SemverRange(r, pre) =>
         var q := RangeQuery(env.installed[name], r, pre);
         q in env.rangeVerdicts && env.rangeVerdicts[q]
  }

  /** Whether every constraint in `cs` is satisfied; an empty map is vacuously satisfied. */
  predicate SatisfiesAll(env: Env, cs: Constraints)
  {
    forall name :: name in cs ==> SatisfiesConstraint(env, name, cs[name])
  }

  /** Only non-empty constraint maps are ever handed to the evaluator. */
  predicate NonEmpty(cs: Constraints)
  {
    |cs| > 0
  }

  /** A constraint on a dependency that cannot be resolved fails closed. */
  lemma UnresolvableFails(env: Env, cs: Constraints, name: string)
    requires name in cs && name !in env.installed
    ensures !SatisfiesAll(env, cs)
  {
  }

  /** The verdict on a map is the conjunction of the verdicts on any split of it. */
  lemma SatisfiesAllSplit(env: Env, a: Constraints, b: Constraints)
    requires a.Keys !! b.Keys
    ensures SatisfiesAll(env, a + b) <==> SatisfiesAll(env, a) && SatisfiesAll(env, b)
  {
    if SatisfiesAll(env, a) && SatisfiesAll(env, b) {
      forall name | name in a + b ensures SatisfiesConstraint(env, name, (a + b)[name]) {
        if name in b {
          assert (a + b)[name] == b[name];
        } else {
          assert (a + b)[name] == a[name];
        }
      }
    }
    if SatisfiesAll(env, a + b) {
      forall name | name in a ensures SatisfiesConstraint(env, name, a[name]) {
        assert name !in b;
        assert (a + b)[name] == a[name];
      }
      forall name | name in b ensures SatisfiesConstraint(env, name, b[name]) {
        assert (a + b)[name] == b[name];
      }
    }
  }

  /** A single string constraint on an installed dependency means "at least this release". */
  lemma SingleStringConstraint(env: Env, name: string, comps: seq<nat>)
    requires 1 <= |comps| <= 3
    requires name in env.installed
    ensures SatisfiesAll(env, map[name := AtLeastString(Format(comps))]) <==>
      env.installed[name].prerelease == "" && TripleLe(Pad(comps), Release(env.installed[name]))
  {
    var cs := map[name := AtLeastString(Format(comps))];
    AtLeastMeaning(env.installed[name], comps);
    assert SatisfiesAll(env, cs) <==> SatisfiesConstraint(env, name, cs[name]);
  }
}
