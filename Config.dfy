/**
 * Start-up configuration (src/index.ts, `main`): the transport is chosen from
 * the process environment once, before anything is served.
 */
module Config {
  import opened Wrappers

  /** The process environment: variables that are set, with their values. */
  type Env = map<string, string>

  /** Standard-stream transport, or the HTTP event-stream transport listening
      on `portText` (the text handed to `parseInt(·, 10)`) at `host`. */
  datatype Transport = Stdio | Sse(portText: string, host: string)

  const DefaultPort := "8080"
  const DefaultHost := "0.0.0.0"

  function Lookup(env: Env, key: string): Option<string> {
    if key in env then Some(env[key]) else None
  }

  /** JavaScript's `process.env[key] || fallback`: an unset or empty variable
      is falsy and gives the fallback. */
  function EnvOr(env: Env, key: string, fallback: string): (r: string)
    ensures key in env && env[key] != "" ==> r == env[key]
    ensures key !in env || env[key] == "" ==> r == fallback
  {
    if key in env && env[key] != "" then env[key] else fallback
  }

  /** Event-stream mode is chosen when USE_SSE is exactly "true" or NODE_ENV
      is exactly "production"; the port and host then fall back to 8080 and
      all interfaces when unset or empty. */
  function SelectTransport(env: Env): (t: Transport)
    ensures t.Sse? <==> Lookup(env, "USE_SSE") == Some("true") || Lookup(env, "NODE_ENV") == Some("production")
    ensures t.Sse? ==> t.portText != "" && t.host != ""
    ensures t.Sse? && ("PORT" !in env || env["PORT"] == "") ==> t.portText == DefaultPort
    ensures t.Sse? && "PORT" in env && env["PORT"] != "" ==> t.portText == env["PORT"]
    ensures t.Sse? && ("HOST" !in env || env["HOST"] == "") ==> t.host == DefaultHost
    ensures t.Sse? && "HOST" in env && env["HOST"] != "" ==> t.host == env["HOST"]
  {
    var isProduction := Lookup(env, "NODE_ENV") == Some("production");
    var useSse := Lookup(env, "USE_SSE") == Some("true") || isProduction;
    if useSse then Sse(EnvOr(env, "PORT", DefaultPort), EnvOr(env, "HOST", DefaultHost)) else Stdio
  }

  /** Production forces event-stream mode whatever USE_SSE says. */
  lemma ProductionOverridesUseSse(env: Env)
    requires Lookup(env, "NODE_ENV") == Some("production")
    ensures SelectTransport(env).Sse?
  {
  }

  /** The comparisons are exact: "TRUE", "1" or "yes" outside production keep
      the standard-stream transport. */
  lemma OnlyLiteralTrueEnablesSse(env: Env, v: string)
    requires Lookup(env, "NODE_ENV") != Some("production")
    requires v != "true"
    ensures SelectTransport(env["USE_SSE" := v]) == Stdio
  {
  }

  /** An empty environment serves over the standard streams. */
  lemma EmptyEnvironmentUsesStdio()
    ensures SelectTransport(map[]) == Stdio
  {
  }

  /** `USE_SSE=true` alone listens on 0.0.0.0:8080. */
  lemma DefaultsInEventStreamMode()
    ensures SelectTransport(map["USE_SSE" := "true"]) == Sse("8080", "0.0.0.0")
  {
  }
}
