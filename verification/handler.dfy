/** The log-level decision made by the request handler. */
module Handler {
  import opened Environment

  /** The two logrus levels the handler chooses between. */
  datatype Level = Info | Debug

  /** True for the deployment environments that may log verbosely: any
      non-empty value other than "production". */
  predicate Verbose(vercelEnv: string) {
    vercelEnv != "" && vercelEnv != "production"
  }

  /** The levels the handler sets, in order: Info first, then Debug only in
      a verbose environment. */
  function SetLevelCalls(env: Env): (levels: seq<Level>)
    ensures 1 <= |levels| <= 2 && levels[0] == Info
    ensures |levels| == 2 <==> Verbose(Getenv(env, "VERCEL_ENV"))
    ensures |levels| == 2 ==> levels[1] == Debug
  {
    [Info] + (if Verbose(Getenv(env, "VERCEL_ENV")) then [Debug] else [])
  }

  /** The level in force after the handler has run: Debug exactly when
      `VERCEL_ENV` is set to something other than "" and "production". */
  function LogLevel(env: Env): (level: Level)
    ensures level == Debug
            <==> "VERCEL_ENV" in env && env["VERCEL_ENV"] != "" && env["VERCEL_ENV"] != "production"
  {
    var levels := SetLevelCalls(env);
    levels[|levels| - 1]
  }

  /** Example: a preview deployment logs at Debug. */
  lemma PreviewIsVerbose(env: Env)
    requires "VERCEL_ENV" in env && env["VERCEL_ENV"] == "preview"
    ensures LogLevel(env) == Debug
  {
  }
}
