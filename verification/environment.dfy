/** The process environment, as seen through `os.Getenv`. */
module Environment {

  /** Environment variables by name. */
  type Env = map<string, string>

  /** `os.Getenv`: the variable's value, or the empty string when it is unset,
      so an unset variable and one set to "" cannot be told apart. */
  function Getenv(env: Env, name: string): string {
    if name in env then env[name] else ""
  }

  /** Unsetting a variable and setting it to the empty string are
      indistinguishable to a reader of the environment. */
  lemma UnsetReadsAsEmpty(env: Env, name: string)
    ensures Getenv(env - {name}, name) == Getenv(env[name := ""], name)
  {
  }
}
