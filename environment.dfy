/**
 * The environment filter: an exception is reported unless the deployment
 * environment current at dispatch time is one of the excluded environments.
 */
module Environment {
  /** A deployment environment, a Ruby symbol such as `:production`. */
  type Env = string

  const Production: Env := "production"
  const Development: Env := "development"

  /** An exclusion set holding only development, the one excluded environment the
      reporter's examples show; the plugin's actual default list is not part of this model. */
  const DefaultExcluded: set<Env> := {Development}

  /** Report if and only if `env` is not excluded. */
  predicate ShouldReport(env: Env, excluded: set<Env>)
  {
    env !in excluded
  }

  /** Excluding more environments never makes an environment reportable. */
  lemma ExcludingMoreReportsLess(env: Env, excluded: set<Env>, more: set<Env>)
    requires excluded <= more
    ensures ShouldReport(env, more) ==> ShouldReport(env, excluded)
  {
  }

  /** The decision about `env` depends on no exclusion other than `env` itself. */
  lemma OnlyOwnExclusionMatters(env: Env, excluded: set<Env>, other: Env)
    requires other != env
    ensures ShouldReport(env, excluded + {other}) == ShouldReport(env, excluded)
    ensures ShouldReport(env, excluded - {other}) == ShouldReport(env, excluded)
  {
  }

  /** With the default exclusions, production and `:foo` are reported and development is not. */
  lemma DefaultPolicy()
    ensures ShouldReport(Production, DefaultExcluded)
    ensures ShouldReport("foo", DefaultExcluded)
    ensures !ShouldReport(Development, DefaultExcluded)
  {
  }
}
