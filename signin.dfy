/** signin.py: check the credentials, sign in once, print the response with
    token-like values redacted, and exit non-zero on a failed request. */
module Signin {
  import opened PyValues
  import opened Environment
  import opened Http

  /** What replaces a redacted value. */
  const Placeholder := JStr("<redacted>")

  /** `str.lower` on one character, for the ASCII letters. */
  function LowerChar(c: char): (d: char)
    ensures 'A' <= c <= 'Z' ==> d as int == c as int + 32
    ensures !('A' <= c <= 'Z') ==> d == c
  {
    if 'A' <= c <= 'Z' then (c as int + 32) as char else c
  }

  /** `str.lower`, for the ASCII letters. */
  function Lower(s: string): (t: string)
    ensures |t| == |s|
    ensures forall i :: 0 <= i < |s| ==> t[i] == LowerChar(s[i])
  {
    seq(|s|, i requires 0 <= i < |s| => LowerChar(s[i]))
  }

  /** `sub` occurs in `s` starting at position `i`. */
  predicate OccursAt(s: string, sub: string, i: int) {
    0 <= i && i + |sub| <= |s| && s[i..i + |sub|] == sub
  }

  /** `sub in s` for strings: `sub` occurs in `s` at some position. */
  predicate Contains(s: string, sub: string) {
    exists i :: 0 <= i <= |s| - |sub| && OccursAt(s, sub, i)
  }

  /** The redaction test: the lowercased key contains "token". */
  predicate Sensitive(k: string) {
    Contains(Lower(k), "token")
  }

  /** The redacting comprehension: every pair keeps its key; a value whose key
      is `Sensitive` becomes the placeholder, every other value, nested
      objects included, is kept as it is. */
  function Redact(fields: seq<(string, Json)>): (r: seq<(string, Json)>)
    ensures |r| == |fields|
  {
    if fields == [] then []
    else
      var (k, v) := fields[0];
      [(k, if Sensitive(k) then Placeholder else v)] + Redact(fields[1..])
  }

  /** Pair by pair, redaction keeps the key and replaces the value exactly
      when the key is sensitive. */
  lemma {:induction false} RedactPairwise(fields: seq<(string, Json)>)
    ensures forall i :: 0 <= i < |fields| ==>
      Redact(fields)[i].0 == fields[i].0 &&
      Redact(fields)[i].1 == (if Sensitive(fields[i].0) then Placeholder else fields[i].1)
  {
    if fields != [] {
      RedactPairwise(fields[1..]);
      assert Redact(fields)[1..] == Redact(fields[1..]);
    }
  }

  /** Redaction keeps the keys and their order. */
  lemma {:induction false} RedactKeepsKeys(fields: seq<(string, Json)>)
    ensures Keys(Redact(fields)) == Keys(fields)
  {
    var r := Redact(fields);
    RedactPairwise(fields);
    assert |Keys(r)| == |Keys(fields)|;
    forall i | 0 <= i < |fields| ensures Keys(r)[i] == Keys(fields)[i] {
    }
  }

  /** Redacting twice gives what redacting once gives. */
  lemma {:induction false} RedactIdempotent(fields: seq<(string, Json)>)
    ensures Redact(Redact(fields)) == Redact(fields)
  {
    var once := Redact(fields);
    var twice := Redact(once);
    RedactPairwise(fields);
    RedactPairwise(once);
    assert |twice| == |once|;
    forall i | 0 <= i < |once| ensures twice[i] == once[i] {
    }
  }

  /** Looking a key up in the redacted object: a sensitive key present in
      the input holds the placeholder, any other key holds its original value. */
  lemma {:induction false} LookupAfterRedact(fields: seq<(string, Json)>, k: string)
    ensures Lookup(Redact(fields), k) ==
      if Sensitive(k) && Lookup(fields, k).Some? then Some(Placeholder) else Lookup(fields, k)
  {
    if fields != [] {
      var r := Redact(fields);
      assert r[1..] == Redact(fields[1..]);
      LookupAfterRedact(fields[1..], k);
    }
  }

  /** `token` and `TOKEN` are redacted. */
  lemma PlainSpellingsRedacted()
    ensures Sensitive("token") && Sensitive("TOKEN")
  {
    var s := Lower("token");
    assert s[0..5] == "token" && OccursAt(s, "token", 0);
    var t := Lower("TOKEN");
    assert t[0..5] == "token" && OccursAt(t, "token", 0);
  }

  /** `accessToken` is redacted. */
  lemma CamelSpellingRedacted()
    ensures Sensitive("accessToken")
  {
    var t := Lower("accessToken");
    assert t[6] == 't' && t[7] == 'o' && t[8] == 'k' && t[9] == 'e' && t[10] == 'n';
    assert t[6..11] == "token" && OccursAt(t, "token", 6);
  }

  /** `access_token` is redacted. */
  lemma SnakeSpellingRedacted()
    ensures Sensitive("access_token")
  {
    var t := Lower("access_token");
    assert t[7] == 't' && t[8] == 'o' && t[9] == 'k' && t[10] == 'e' && t[11] == 'n';
    assert t[7..12] == "token" && OccursAt(t, "token", 7);
  }

  /** The misspelling `tokn`, accepted as a token by both position scripts,
      is not redacted, and neither is `data`. */
  lemma UnredactedSpellings()
    ensures !Sensitive("tokn") && !Sensitive("data")
  {
    assert |Lower("tokn")| == 4 && |Lower("data")| == 4;
  }

  /** The body as printed: nothing, the redacted object, or the raw text. */
  datatype Shown = NoBody | RedactedBody(fields: seq<(string, Json)>) | RawText(text: string)

  /** One run: the requests made, the body printed and how the run ended
      (`Done(())` is a normal return, exit status 0). */
  datatype Run = Run(calls: seq<Call>, shown: Shown, status: Outcome<()>)

  /** The decoded body exists and is not an object, so `.items()` raises
      `AttributeError`, which `except ValueError` does not catch. */
  predicate NonObjectBody(r: Response) {
    r.parsed.Some? && !r.parsed.value.JObj?
  }

  /** `main`, with the outcome of the signin request supplied by the caller. */
  function Main(env: Env, reply: Reply): (run: Run)
    ensures run.status == Exit(2) <==> !HasCredentials(env)
    ensures run.calls == [] <==> !HasCredentials(env)
    ensures HasCredentials(env) ==> run.calls == [SigninCall(env["FA_EMAIL"], env["FA_PASSWORD"])]
    ensures run.status.Crash? <==>
      HasCredentials(env) && reply.Replied? && NonObjectBody(reply.response)
    ensures run.status == Exit(1) <==>
      HasCredentials(env) &&
      (reply.RequestFailed? || (!reply.response.ok && !NonObjectBody(reply.response)))
    ensures run.status.Done? <==>
      HasCredentials(env) && reply.Replied? && reply.response.ok && !NonObjectBody(reply.response)
    ensures run.shown.RedactedBody? <==>
      HasCredentials(env) && reply.Replied? && reply.response.parsed.Some? &&
      reply.response.parsed.value.JObj?
    ensures run.shown.RedactedBody? ==>
      run.shown.fields == Redact(reply.response.parsed.value.fields)
    ensures run.shown.RawText? <==>
      HasCredentials(env) && reply.Replied? && reply.response.parsed.None?
    ensures run.shown.RawText? ==> run.shown.text == reply.response.text
  {
    if !IsSet(env, "FA_EMAIL") || !IsSet(env, "FA_PASSWORD") then Run([], NoBody, Exit(2))
    else
      var calls := [SigninCall(env["FA_EMAIL"], env["FA_PASSWORD"])];
      match reply
      case RequestFailed => Run(calls, NoBody, Exit(1))
      case Replied(r) =>
        var status := if r.ok then Done(()) else Exit(1);
        match r.parsed
        case None => Run(calls, RawText(r.text), status)
        case Some(JObj(fields)) => Run(calls, RedactedBody(Redact(fields)), status)
        case Some(_) => Run(calls, NoBody, Crash)
  }
}
