/** save_open_positions.py: sign in, fetch the provider's open positions and
    build the snapshot record written to `<out_dir>/<provider_id>.json`. The
    HTTP responses, the environment and the current time are parameters; the
    directory creation and the file write themselves are not modelled. */
module SaveOpenPositions {
  import opened PyValues
  import opened Environment
  import opened Http

  const DefaultProviderId := "931"
  const DefaultOutDir := "open_positions"

  /** The `or` chain that picks the token out of the decoded signin body. Its
      last two operands read the nested object `(data.get("data") or {})`. */
  function TokenChain(data: Json): Outcome<Json> {
    var nested := PyOr(DictGet(data, "data"), Done(JObj([])));
    PyOr(PyOr(PyOr(PyOr(PyOr(
      DictGet(data, "token"),
      DictGet(data, "tokn")),
      DictGet(data, "access_token")),
      DictGet(data, "accessToken")),
      GetOn(nested, "token")),
      GetOn(nested, "tokn"))
  }

  /** The four top-level candidates, in the order they are tried. */
  function TopCandidates(fields: seq<(string, Json)>): seq<Json> {
    [Field(fields, "token"), Field(fields, "tokn"),
     Field(fields, "access_token"), Field(fields, "accessToken")]
  }

  /** The object the nested lookups read: the `"data"` member when it is an
      object, and `{}` when it is missing or falsy. */
  function Inner(fields: seq<(string, Json)>): seq<(string, Json)> {
    var d := Field(fields, "data");
    if d.JObj? then d.fields else []
  }

  /** All six candidates, in the order they are tried. */
  function Candidates(fields: seq<(string, Json)>): seq<Json> {
    TopCandidates(fields) + [Field(Inner(fields), "token"), Field(Inner(fields), "tokn")]
  }

  /** When the token lookup raises: the body is not an object, or the search
      reaches the nested lookups while `"data"` holds a truthy non-object. */
  predicate Crashes(data: Json) {
    !data.JObj? ||
    (FirstTruthy(TopCandidates(data.fields)).None? &&
     Truthy(Field(data.fields, "data")) && !Field(data.fields, "data").JObj?)
  }

  /** The token selection of `signin_and_get_token` followed by its
      `if not token: sys.exit(1)`: the first truthy of the six candidates wins. */
  function SelectToken(data: Json): (r: Outcome<Json>)
    ensures r.Crash? <==> Crashes(data)
    ensures !r.Crash? ==> data.JObj? && r == TokenOrExit(FirstTruthy(Candidates(data.fields)))
  {
    ChainFindsFirstTruthy(data);
    match TokenChain(data)
    case Done(t) => if Truthy(t) then Done(t) else Exit(1)
    case Exit(c) => Exit(c)
    case Crash => Crash
  }

  /** The first four operands of the chain, `token or tokn or access_token
      or accessToken`. */
  function TopChain(data: Json): Outcome<Json> {
    PyOr(PyOr(PyOr(
      DictGet(data, "token"),
      DictGet(data, "tokn")),
      DictGet(data, "access_token")),
      DictGet(data, "accessToken"))
  }

  /** On an object the top-level part of the chain never raises and yields
      the first truthy top-level candidate, or a falsy value. */
  lemma TopChainFindsFirstTruthy(fields: seq<(string, Json)>)
    ensures TopChain(JObj(fields)).Done?
    ensures var t := TopChain(JObj(fields)).value;
      FirstTruthy(TopCandidates(fields)) == (if Truthy(t) then Some(t) else None)
  {
    FirstTruthyOfFour(Field(fields, "token"), Field(fields, "tokn"),
                      Field(fields, "access_token"), Field(fields, "accessToken"));
  }

  /** The chain yields the first truthy candidate, or a falsy value when there
      is none, and raises exactly in the cases `Crashes` names. */
  lemma ChainFindsFirstTruthy(data: Json)
    ensures TokenChain(data).Crash? <==> Crashes(data)
    ensures !Crashes(data) ==>
      TokenChain(data).Done? &&
      (var t := TokenChain(data).value;
       FirstTruthy(Candidates(data.fields)) == (if Truthy(t) then Some(t) else None))
  {
    if !data.JObj? { return; }
    var fields := data.fields;
    var nested := PyOr(DictGet(data, "data"), Done(JObj([])));
    var top := TopChain(data);
    assert TokenChain(data) == PyOr(PyOr(top, GetOn(nested, "token")), GetOn(nested, "tokn"));
    TopChainFindsFirstTruthy(fields);
    var inner := [Field(Inner(fields), "token"), Field(Inner(fields), "tokn")];
    FirstTruthyAppend(TopCandidates(fields), inner);
    FirstTruthyOfTwo(inner[0], inner[1]);
  }

  /** `signin_and_get_token` on the signin response: a non-OK status or a
      body that is not JSON exits with 1 before any lookup. */
  function SigninAndGetToken(r: Response): (o: Outcome<Json>)
    ensures !r.ok || r.parsed.None? ==> o == Exit(1)
    ensures r.ok && r.parsed.Some? ==> o == SelectToken(r.parsed.value)
  {
    if !r.ok then Exit(1)
    else match r.parsed
      case None => Exit(1)
      case Some(data) => SelectToken(data)
  }

  /** `fetch_open_positions` on the positions response: a non-OK status exits
      with 1; a JSON body is returned as decoded; any other body is kept as
      the text under the single key `"raw"`. */
  function FetchOpenPositions(r: Response): (o: Outcome<Json>)
    ensures !o.Crash?
    ensures o.Exit? <==> !r.ok
    ensures o.Exit? ==> o.code == 1
    ensures r.ok && r.parsed.Some? ==> o == Done(r.parsed.value)
    ensures r.ok && r.parsed.None? ==>
      o.Done? && o.value.JObj? && Keys(o.value.fields) == ["raw"] &&
      Lookup(o.value.fields, "raw") == Some(JStr(r.text))
  {
    if !r.ok then Exit(1)
    else match r.parsed
      case Some(body) => Done(body)
      case None => Done(JObj([("raw", JStr(r.text))]))
  }

  /** The record written to the snapshot file. */
  function Record(providerId: string, fetchedAt: string, positions: Json): (r: Json)
    ensures r.JObj? && Keys(r.fields) == ["provider_id", "fetched_at_utc", "data"]
    ensures Lookup(r.fields, "provider_id") == Some(JStr(providerId))
    ensures Lookup(r.fields, "fetched_at_utc") == Some(JStr(fetchedAt))
    ensures Lookup(r.fields, "data") == Some(positions)
  {
    JObj([("provider_id", JStr(providerId)),
          ("fetched_at_utc", JStr(fetchedAt)),
          ("data", positions)])
  }

  /** Two-argument `os.path.join` on POSIX: an absolute second part discards
      the first; otherwise a `/` is inserted unless the first part is empty
      or already ends in one. */
  function Join(dir: string, name: string): (p: string)
    ensures |p| >= |name| && p[|p| - |name|..] == name
    ensures name != [] && name[0] == '/' ==> p == name
    ensures (name == [] || name[0] != '/') ==>
      |p| >= |dir| && p[..|dir|] == dir &&
      (dir == "" || dir[|dir| - 1] == '/' ==> p == dir + name) &&
      (dir != "" && dir[|dir| - 1] != '/' ==> p == dir + "/" + name)
  {
    if |name| > 0 && name[0] == '/' then name
    else if dir == "" || dir[|dir| - 1] == '/' then dir + name
    else dir + "/" + name
  }

  /** `PROVIDER_ID`, defaulting to "931" only when unset. */
  function ProviderId(env: Env): string {
    GetEnv(env, "PROVIDER_ID", DefaultProviderId)
  }

  /** `OUT_DIR`, defaulting to "open_positions" only when unset. */
  function OutDir(env: Env): string {
    GetEnv(env, "OUT_DIR", DefaultOutDir)
  }

  /** Where the snapshot of `providerId` goes. */
  function SnapshotPath(outDir: string, providerId: string): string {
    Join(outDir, providerId + ".json")
  }

  datatype Snapshot = Snapshot(path: string, record: Json)

  /** One run of the script: the requests it made and how it ended. A run that
      ends normally has written `snapshot`. */
  datatype Run = Run(calls: seq<Call>, result: Outcome<Snapshot>)

  /** `main`, with what the signin and positions requests did and the current
      UTC time (as its ISO-8601 text) supplied by the caller. A request that
      raises is not caught anywhere, so the run crashes. */
  function Main(env: Env, signin: Reply, fetch: Reply, now: string): (run: Run)
    ensures run.result == Exit(2) <==> !HasCredentials(env)
    ensures !HasCredentials(env) ==> run.calls == []
    ensures HasCredentials(env) ==>
      1 <= |run.calls| <= 2 && run.calls[0] == SigninCall(env["FA_EMAIL"], env["FA_PASSWORD"])
    ensures |run.calls| == 2 <==>
      HasCredentials(env) && signin.Replied? && SigninAndGetToken(signin.response).Done?
    ensures |run.calls| == 2 ==>
      run.calls[1] == PositionsCall(ProviderId(env), SigninAndGetToken(signin.response).value)
    ensures run.result.Crash? <==>
      HasCredentials(env) &&
      (signin.RequestFailed? || SigninAndGetToken(signin.response).Crash? ||
       (|run.calls| == 2 && fetch.RequestFailed?))
    ensures run.result.Done? <==> |run.calls| == 2 && fetch.Replied? && fetch.response.ok
    ensures run.result.Done? ==>
      run.result.value.path == SnapshotPath(OutDir(env), ProviderId(env)) &&
      run.result.value.record == Record(ProviderId(env), now, FetchOpenPositions(fetch.response).value)
    ensures run.result.Exit? ==> run.result.code in {1, 2}
  {
    var email := RequireEnv(env, "FA_EMAIL");
    if !email.Done? then Run([], Fail(email))
    else
      var password := RequireEnv(env, "FA_PASSWORD");
      if !password.Done? then Run([], Fail(password))
      else
        var providerId := ProviderId(env);
        var calls := [SigninCall(email.value, password.value)];
        match signin
        case RequestFailed => Run(calls, Crash)
        case Replied(sr) =>
          var token := SigninAndGetToken(sr);
          if !token.Done? then Run(calls, Fail(token))
          else
            var calls := calls + [PositionsCall(providerId, token.value)];
            match fetch
            case RequestFailed => Run(calls, Crash)
            case Replied(fr) =>
              var positions := FetchOpenPositions(fr);
              if !positions.Done? then Run(calls, Fail(positions))
              else
                var path := SnapshotPath(OutDir(env), providerId);
                Run(calls, Done(Snapshot(path, Record(providerId, now, positions.value))))
  }

  /** A present but falsy candidate does not stop the search. */
  lemma FalsyCandidateSkipped()
    ensures SelectToken(JObj([("token", JStr("")), ("tokn", JStr("t"))])) == Done(JStr("t"))
  {
  }

  /** Any truthy JSON value is accepted as the token, not only a string. */
  lemma AnyTruthyValueIsToken(t: Json)
    requires Truthy(t)
    ensures SelectToken(JObj([("accessToken", t)])) == Done(t)
    ensures SelectToken(JObj([("data", JObj([("tokn", t)]))])) == Done(t)
  {
  }

  /** Exit 1 exactly when nothing raises and all six candidates are absent
      or falsy. */
  lemma ExitOneIffNoCandidate(data: Json)
    ensures SelectToken(data) == Exit(1) <==>
      data.JObj? && !Crashes(data) &&
      forall i :: 0 <= i < |Candidates(data.fields)| ==> !Truthy(Candidates(data.fields)[i])
  {
  }

  /** When `"data"` is missing or falsy the nested lookups read `{}` and only
      the four top-level candidates matter. */
  lemma FalsyDataContributesNothing(fields: seq<(string, Json)>)
    requires !Truthy(Field(fields, "data"))
    ensures SelectToken(JObj(fields)) == TokenOrExit(FirstTruthy(TopCandidates(fields)))
  {
  }

  /** The lookup raises on a body that is not an object, and on a truthy
      non-object `"data"` once the top-level candidates are exhausted, but a
      top-level token found first hides such a `"data"`. */
  lemma CrashCases(t: Json)
    requires Truthy(t)
    ensures SelectToken(JStr("t")) == Crash
    ensures SelectToken(JArr([JObj([("token", t)])])) == Crash
    ensures SelectToken(JObj([("data", JStr("x"))])) == Crash
    ensures SelectToken(JObj([("data", JArr([t]))])) == Crash
    ensures SelectToken(JObj([("token", t), ("data", JStr("x"))])) == Done(t)
  {
  }

  /** With neither `PROVIDER_ID` nor `OUT_DIR` set the snapshot goes to
      `open_positions/931.json`. */
  lemma DefaultSnapshotPath(env: Env)
    requires "PROVIDER_ID" !in env && "OUT_DIR" !in env
    ensures SnapshotPath(OutDir(env), ProviderId(env)) == "open_positions/931.json"
  {
  }

  /** `PROVIDER_ID` set to the empty string is not replaced by the default:
      the file is named `.json`. */
  lemma EmptyProviderIdPath(env: Env)
    requires "PROVIDER_ID" in env && env["PROVIDER_ID"] == "" && "OUT_DIR" !in env
    ensures SnapshotPath(OutDir(env), ProviderId(env)) == "open_positions/.json"
  {
  }

  /** For every environment whose output directory is non-empty without a
      trailing `/`, and whose provider id is not an absolute path, the
      snapshot goes to `<OUT_DIR>/<provider_id>.json`. */
  lemma SnapshotUnderOutDir(env: Env)
    requires OutDir(env) != "" && OutDir(env)[|OutDir(env)| - 1] != '/'
    requires ProviderId(env) == "" || ProviderId(env)[0] != '/'
    ensures SnapshotPath(OutDir(env), ProviderId(env)) == OutDir(env) + "/" + ProviderId(env) + ".json"
  {
  }

  /** A run that completes saves the fetched payload unmodified: the decoded
      JSON body, or `{"raw": text}` for a body that is not JSON. */
  lemma SnapshotKeepsPayload(env: Env, signin: Reply, fetch: Reply, now: string)
    requires Main(env, signin, fetch, now).result.Done?
    ensures fetch.Replied?
    ensures var rec := Main(env, signin, fetch, now).result.value.record;
      var r := fetch.response;
      rec.JObj? &&
      (r.parsed.Some? ==> Lookup(rec.fields, "data") == r.parsed) &&
      (r.parsed.None? ==> Lookup(rec.fields, "data") == Some(JObj([("raw", JStr(r.text))])))
  {
  }
}
