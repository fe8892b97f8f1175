/** get_open_positions.py: sign in and return the provider's open positions.
    Its token lookup tries five candidates where save_open_positions.py tries
    six, and reads the nested object with `data.get("data", {})`; the lemmas
    at the end relate the two variants. */
module GetOpenPositions {
  import opened PyValues
  import opened Environment
  import opened Http
  import Save = SaveOpenPositions

  /** The `or` chain of this variant: the same four top-level lookups, then
      `data.get("data", {}).get("token")`. */
  function TokenChain(data: Json): Outcome<Json> {
    PyOr(Save.TopChain(data), GetOn(DictGetOr(data, "data", JObj([])), "token"))
  }

  /** All five candidates, in the order they are tried. The nested one reads
      the same object as in the save variant whenever the lookup does not
      raise: the `"data"` member when it is an object, `{}` when the key is
      absent. */
  function Candidates(fields: seq<(string, Json)>): seq<Json> {
    Save.TopCandidates(fields) + [Field(Save.Inner(fields), "token")]
  }

  /** When the lookup raises: the body is not an object, or the search reaches
      the nested lookup while `"data"` is PRESENT with a non-object value, even
      a falsy one such as `null`, `""` or `[]`. */
  predicate Crashes(data: Json) {
    !data.JObj? ||
    (FirstTruthy(Save.TopCandidates(data.fields)).None? &&
     "data" in Keys(data.fields) && !Field(data.fields, "data").JObj?)
  }

  /** The token selection of `signin_and_get_token` followed by its
      `if not token: sys.exit(1)`: the first truthy of the five candidates wins. */
  function SelectToken(data: Json): (r: Outcome<Json>)
    ensures r.Crash? <==> Crashes(data)
    ensures !r.Crash? ==> data.JObj? && r == TokenOrExit(FirstTruthy(Candidates(data.fields)))
  {
    ChainFindsFirstTruthy(data);
    match TokenChain(data)
    case Done(t) => if Truthy(t) then Done(t) else Exit(1)
    case Exit(c) => Exit(c)
    case Crash => Crash
  }

  /** The chain yields the first truthy candidate, or a falsy value when there
      is none, and raises exactly in the cases `Crashes` names. */
  lemma ChainFindsFirstTruthy(data: Json)
    ensures TokenChain(data).Crash? <==> Crashes(data)
    ensures !Crashes(data) ==>
      TokenChain(data).Done? &&
      (var t := TokenChain(data).value;
       FirstTruthy(Candidates(data.fields)) == (if Truthy(t) then Some(t) else None))
  {
    if !data.JObj? { return; }
    var fields := data.fields;
    Save.TopChainFindsFirstTruthy(fields);
    var inner := [Field(Save.Inner(fields), "token")];
    FirstTruthyAppend(Save.TopCandidates(fields), inner);
    FirstTruthyCons(inner[0], []);
    assert [inner[0]] + [] == inner;
  }

  /** `signin_and_get_token` on the signin response: a non-OK status or a
      body that is not JSON exits with 1 before any lookup. */
  function SigninAndGetToken(r: Response): (o: Outcome<Json>)
    ensures !r.ok || r.parsed.None? ==> o == Exit(1)
    ensures r.ok && r.parsed.Some? ==> o == SelectToken(r.parsed.value)
  {
    if !r.ok then Exit(1)
    else match r.parsed
      case None => Exit(1)
      case Some(data) => SelectToken(data)
  }

  /** `get_open_positions` on the positions response: a non-OK status exits
      with 1; a JSON body is returned as decoded; any other body is returned
      as the bare text, a Python string. */
  function FetchOpenPositions(r: Response): (o: Outcome<Json>)
    ensures !o.Crash?
    ensures o.Exit? <==> !r.ok
    ensures o.Exit? ==> o.code == 1
    ensures r.ok && r.parsed.Some? ==> o == Done(r.parsed.value)
    ensures r.ok && r.parsed.None? ==> o == Done(JStr(r.text))
  {
    if !r.ok then Exit(1)
    else match r.parsed
      case Some(body) => Done(body)
      case None => Done(JStr(r.text))
  }

  /** One run of the script: the requests it made and how it ended. A run that
      ends normally prints `result`. */
  datatype Run = Run(calls: seq<Call>, result: Outcome<Json>)

  /** `main`, with what the signin and positions requests did supplied by the
      caller. A request that raises is not caught anywhere, so the run
      crashes. */
  function Main(env: Env, signin: Reply, fetch: Reply): (run: Run)
    ensures run.result == Exit(2) <==> !HasCredentials(env)
    ensures !HasCredentials(env) ==> run.calls == []
    ensures HasCredentials(env) ==>
      1 <= |run.calls| <= 2 && run.calls[0] == SigninCall(env["FA_EMAIL"], env["FA_PASSWORD"])
    ensures |run.calls| == 2 <==>
      HasCredentials(env) && signin.Replied? && SigninAndGetToken(signin.response).Done?
    ensures |run.calls| == 2 ==>
      run.calls[1] == PositionsCall(Save.ProviderId(env), SigninAndGetToken(signin.response).value)
    ensures run.result.Crash? <==>
      HasCredentials(env) &&
      (signin.RequestFailed? || SigninAndGetToken(signin.response).Crash? ||
       (|run.calls| == 2 && fetch.RequestFailed?))
    ensures run.result.Done? <==> |run.calls| == 2 && fetch.Replied? && fetch.response.ok
    ensures run.result.Done? ==> run.result == FetchOpenPositions(fetch.response)
    ensures run.result.Exit? ==> run.result.code in {1, 2}
  {
    var email := RequireEnv(env, "FA_EMAIL");
    if !email.Done? then Run([], Fail(email))
    else
      var password := RequireEnv(env, "FA_PASSWORD");
      if !password.Done? then Run([], Fail(password))
      else
        var providerId := Save.ProviderId(env);
        var calls := [SigninCall(email.value, password.value)];
        match signin
        case RequestFailed => Run(calls, Crash)
        case Replied(sr) =>
          var token := SigninAndGetToken(sr);
          if !token.Done? then Run(calls, Fail(token))
          else
            var calls := calls + [PositionsCall(providerId, token.value)];
            match fetch
            case RequestFailed => Run(calls, Crash)
            case Replied(fr) => Run(calls, FetchOpenPositions(fr))
  }

  /** Every token this variant accepts is the token the save variant picks
      from the same response. */
  lemma {:induction false} RefinesSave(data: Json)
    requires SelectToken(data).Done?
    ensures Save.SelectToken(data) == SelectToken(data)
  {
    var fields := data.fields;
    var top := Save.TopCandidates(fields);
    Save.ChainFindsFirstTruthy(data);
    if FirstTruthy(top).None? {
      var d := Field(fields, "data");
      FirstTruthyAppend(top, [Field(Save.Inner(fields), "token")]);
      FirstTruthyCons(Field(Save.Inner(fields), "token"), []);
      assert [Field(Save.Inner(fields), "token")] + [] == [Field(Save.Inner(fields), "token")];
      assert d.JObj? && d.fields != [];
      FirstTruthyAppend(top, [Field(d.fields, "token"), Field(d.fields, "tokn")]);
      FirstTruthyCons(Field(d.fields, "token"), [Field(d.fields, "tokn")]);
    }
  }

  /** Whenever the save variant raises, so does this one. */
  lemma SaveCrashImpliesCrash(data: Json)
    requires Save.SelectToken(data).Crash?
    ensures SelectToken(data).Crash?
  {
  }

  /** The two variants disagree exactly when the top-level candidates are all
      falsy and either `"data"` holds a falsy non-object (this variant raises,
      the save variant exits with 1) or `"data"` is an object whose `token` is
      falsy and whose `tokn` is truthy (this variant exits with 1, the save
      variant returns `tokn`). */
  lemma WhereVariantsDiffer(data: Json)
    ensures SelectToken(data) != Save.SelectToken(data) <==>
      data.JObj? && FirstTruthy(Save.TopCandidates(data.fields)).None? &&
      (var d := Field(data.fields, "data");
       ("data" in Keys(data.fields) && !d.JObj? && !Truthy(d)) ||
       (d.JObj? && !Truthy(Field(d.fields, "token")) && Truthy(Field(d.fields, "tokn"))))
  {
    if data.JObj? {
      var fields := data.fields;
      var top := Save.TopCandidates(fields);
      var d := Field(fields, "data");
      var inner := Save.Inner(fields);
      FirstTruthyAppend(top, [Field(inner, "token")]);
      FirstTruthyCons(Field(inner, "token"), []);
      assert [Field(inner, "token")] + [] == [Field(inner, "token")];
      FirstTruthyAppend(top, [Field(inner, "token"), Field(inner, "tokn")]);
      FirstTruthyCons(Field(inner, "token"), [Field(inner, "tokn")]);
      FirstTruthyCons(Field(inner, "tokn"), []);
      assert [Field(inner, "tokn")] + [] == [Field(inner, "tokn")];
      assert "data" !in Keys(fields) ==> d == JNull;
    }
  }

  /** `{"data": {"tokn": t}}` is refused here but accepted by the save
      variant; `{"data": null}` raises here but exits with 1 there. */
  lemma DivergingExamples(t: Json)
    requires Truthy(t)
    ensures SelectToken(JObj([("data", JObj([("tokn", t)]))])) == Exit(1)
    ensures Save.SelectToken(JObj([("data", JObj([("tokn", t)]))])) == Done(t)
    ensures SelectToken(JObj([("data", JNull)])) == Crash
    ensures Save.SelectToken(JObj([("data", JNull)])) == Exit(1)
    ensures SelectToken(JObj([("data", JObj([]))])) == Exit(1)
  {
  }

  /** Both fetch variants fail on the same responses and return a JSON body
      alike; they differ only in the fallback, where the save variant wraps
      under `"raw"` the very text this variant returns bare. */
  lemma FetchVariantsAgree(r: Response)
    ensures FetchOpenPositions(r).Exit? == Save.FetchOpenPositions(r).Exit?
    ensures r.parsed.Some? ==> FetchOpenPositions(r) == Save.FetchOpenPositions(r)
    ensures r.ok && r.parsed.None? ==>
      Save.FetchOpenPositions(r) == Done(JObj([("raw", FetchOpenPositions(r).value)]))
  {
  }
}
