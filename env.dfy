/** Reading configuration from the process environment, with an optional default
    (backend/src/utils/get-env.ts). */
module Env {
  import opened Wrappers

  /** The process environment: the keys that are set, each with its (possibly empty) value. */
  type Environment = map<string, string>

  /** The message of the error raised for a key that is unset and has no default. */
  function NotSetMessage(key: string): string
  {
    "Environment variable of " + key + " not set"
  }

  /** getEnv: the value of `key` if it is set (even to the empty string), otherwise
      the default if that is non-empty, otherwise an error. An omitted default is
      the empty string, which counts as no default at all. The environment is a
      value here, so reading it can change nothing. */
  function GetEnv(env: Environment, key: string, defaultValue: string := ""): (r: Result<string, string>)
    ensures key in env ==> r == Ok(env[key])
    ensures key !in env ==> (r.Ok? <==> defaultValue != "")
    ensures r.Err? ==> r.error == NotSetMessage(key)
  {
    if key !in env then
      if defaultValue != "" then Ok(defaultValue) else Err(NotSetMessage(key))
    else
      Ok(env[key])
  }

  /** A key that is set but empty yields the empty string, whatever the default:
      the test is for absence, not for falsiness. */
  lemma SetButEmptyIsReturned(env: Environment, key: string, defaultValue: string)
    requires key in env && env[key] == ""
    ensures GetEnv(env, key, defaultValue) == Ok("")
  {
  }

  /** Omitting the default is the same as passing the empty string, and then an
      unset key is an error. */
  lemma OmittedDefaultIsNoDefault(env: Environment, key: string)
    ensures GetEnv(env, key) == GetEnv(env, key, "")
    ensures GetEnv(env, key).Err? <==> key !in env
  {
  }

  /** The only strings getEnv ever returns are the stored value and the default. */
  lemma ResultIsStoredOrDefault(env: Environment, key: string, defaultValue: string)
    requires GetEnv(env, key, defaultValue).Ok?
    ensures GetEnv(env, key, defaultValue).value in (if key in env then {env[key]} else {}) + {defaultValue}
  {
  }

  /** getEnv fails exactly when the key is unset and the default is empty. */
  lemma FailsExactlyWhenUnsetWithoutDefault(env: Environment, key: string, defaultValue: string)
    ensures GetEnv(env, key, defaultValue).Err? <==> key !in env && defaultValue == ""
  {
  }
}
