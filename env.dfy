/** The process environment as the persistence and auth code reads it: a
    variable is truthy when it is set to a non-empty string. */
module Env {
  type Env = map<string, string>

  /** `if (env.KEY)`: set and not the empty string. */
  predicate Truthy(env: Env, key: string) {
    key in env && env[key] != ""
  }

  /** `env.NODE_ENV !== 'production'`; an unset `NODE_ENV` counts as not
      production. */
  predicate NonProduction(env: Env) {
    !("NODE_ENV" in env && env["NODE_ENV"] == "production")
  }
}
