/** How the redaction of signin.py measures up against the token lookup of
    save_open_positions.py: the keys it misses, and the fact that whatever
    real token the printed object still carries is the live one. */
module RedactionGaps {
  import opened PyValues
  import opened Signin
  import Save = SaveOpenPositions

  /** Tokens that save_open_positions.py accepts under `tokn` or under
      `data.token` reach the printed output unredacted. */
  lemma TokensThatLeak(t: Json)
    requires Truthy(t)
    ensures Redact([("tokn", t)]) == [("tokn", t)]
    ensures Save.SelectToken(JObj([("tokn", t)])) == Done(t)
    ensures Redact([("data", JObj([("token", t)]))]) == [("data", JObj([("token", t)]))]
    ensures Save.SelectToken(JObj([("data", JObj([("token", t)]))])) == Done(t)
  {
  }

  /** `d.get(k)` on the redacted object is the placeholder or the original
      value. */
  lemma FieldAfterRedact(fields: seq<(string, Json)>, k: string)
    ensures Field(Redact(fields), k) == Field(fields, k) || Field(Redact(fields), k) == Placeholder
  {
    LookupAfterRedact(fields, k);
  }

  /** `d.get(k)` for a key that is not sensitive is unchanged by redaction. */
  lemma FieldOfPlainKey(fields: seq<(string, Json)>, k: string)
    requires !Sensitive(k)
    ensures Field(Redact(fields), k) == Field(fields, k)
  {
    LookupAfterRedact(fields, k);
  }

  /** The fields of `shown` agree with those of `fields` except that some
      values may read as the placeholder; `"data"` agrees exactly. */
  ghost predicate PlaceholderMasked(shown: seq<(string, Json)>, fields: seq<(string, Json)>) {
    Field(shown, "data") == Field(fields, "data") &&
    forall k :: Field(shown, k) == Field(fields, k) || Field(shown, k) == Placeholder
  }

  /** The redacted object is a placeholder-masked copy of the response. */
  lemma RedactMasks(fields: seq<(string, Json)>)
    ensures PlaceholderMasked(Redact(fields), fields)
  {
    UnredactedSpellings();
    FieldOfPlainKey(fields, "data");
    forall k ensures Field(Redact(fields), k) == Field(fields, k) || Field(Redact(fields), k) == Placeholder {
      FieldAfterRedact(fields, k);
    }
  }

  /** On a placeholder-masked copy each of the six candidates is the original
      candidate or the placeholder. */
  lemma MaskedCandidates(shown: seq<(string, Json)>, fields: seq<(string, Json)>)
    requires PlaceholderMasked(shown, fields)
    ensures MaskedBy(Save.TopCandidates(shown), Save.TopCandidates(fields), Placeholder)
    ensures MaskedBy(Save.Candidates(shown), Save.Candidates(fields), Placeholder)
  {
    MaskedByOfFour(
      Field(shown, "token"), Field(shown, "tokn"), Field(shown, "access_token"), Field(shown, "accessToken"),
      Field(fields, "token"), Field(fields, "tokn"), Field(fields, "access_token"), Field(fields, "accessToken"),
      Placeholder);
    assert Save.Inner(shown) == Save.Inner(fields);
    var nested := [Field(Save.Inner(fields), "token"), Field(Save.Inner(fields), "tokn")];
    assert MaskedBy(nested, nested, Placeholder);
    MaskedByAppend(Save.TopCandidates(shown), Save.TopCandidates(fields), nested, nested, Placeholder);
  }

  /** A token other than the placeholder that save_open_positions.py would
      pick out of a placeholder-masked copy is the token it picks out of the
      original. */
  lemma {:induction false} MaskedTokenIsOriginal(shown: seq<(string, Json)>, fields: seq<(string, Json)>, t: Json)
    requires PlaceholderMasked(shown, fields)
    requires Save.SelectToken(JObj(shown)) == Done(t) && t != Placeholder
    ensures Save.SelectToken(JObj(fields)) == Done(t)
  {
    MaskedCandidates(shown, fields);
    FirstTruthyThroughMask(Save.Candidates(shown), Save.Candidates(fields), Placeholder);
    FirstTruthyThroughMask(Save.TopCandidates(shown), Save.TopCandidates(fields), Placeholder);
  }

  /** A token other than the placeholder that save_open_positions.py would
      pick out of the PRINTED object is the very token it picks out of the
      real response: what gets through redaction is the live credential. */
  lemma ExposedTokenIsLive(fields: seq<(string, Json)>, t: Json)
    requires Save.SelectToken(JObj(Redact(fields))) == Done(t) && t != Placeholder
    ensures Save.SelectToken(JObj(fields)) == Done(t)
  {
    RedactMasks(fields);
    MaskedTokenIsOriginal(Redact(fields), fields, t);
  }
}
