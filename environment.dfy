/** The process environment as the scripts read it through `os.getenv`. A
    variable that is unset has no entry; a variable set to the empty string
    has the entry `""`. */
module Environment {
  import opened PyValues

  type Env = map<string, string>

  /** `os.getenv(name)` is truthy: set and not empty. */
  predicate IsSet(env: Env, name: string) {
    name in env && env[name] != ""
  }

  /** Both credentials, `FA_EMAIL` and `FA_PASSWORD`, are set and not empty. */
  predicate HasCredentials(env: Env) {
    IsSet(env, "FA_EMAIL") && IsSet(env, "FA_PASSWORD")
  }

  /** `require_env(name)`: the value when the variable is set and non-empty,
      otherwise `sys.exit(2)`. */
  function RequireEnv(env: Env, name: string): (r: Outcome<string>)
    ensures r.Done? <==> IsSet(env, name)
    ensures r.Done? ==> name in env && r.value == env[name] && r.value != ""
    ensures !r.Done? ==> r == Exit(2)
  {
    if name in env && env[name] != "" then Done(env[name]) else Exit(2)
  }

  /** `os.getenv(name, default)`: the default replaces an UNSET variable only;
      a variable set to `""` yields `""`. */
  function GetEnv(env: Env, name: string, default: string): (v: string)
    ensures name !in env ==> v == default
    ensures name in env ==> v == env[name]
  {
    if name in env then env[name] else default
  }
}

/** What the scripts send and what they get back, with the HTTP library's
    internals abstracted away. */
module Http {
  import opened PyValues

  /** A response: `r.ok`, the result of `r.json()` (`None` when it raises
      `ValueError`) and `r.text`. */
  datatype Response = Response(ok: bool, parsed: Option<Json>, text: string)

  /** What a call to `requests.post` or `requests.get` did: raised (a
      connection error or a timeout), or returned a response. */
  datatype Reply = RequestFailed | Replied(response: Response)

  /** A request a script issues: the signin POST carrying the credentials, or
      the open-positions GET carrying `provider_id` as a query parameter and the
      token in a header literally named `token`. */
  datatype Call =
    | SigninCall(email: string, password: string)
    | PositionsCall(providerId: string, token: Json)
}
