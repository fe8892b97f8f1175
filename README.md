# duplitrade signin and open-positions scripts, modelled in Dafny

The repository holds three small Python clients of the DupliTrade API:

- `signin.py` checks that `FA_EMAIL` and `FA_PASSWORD` are configured, signs in once, prints the response with token-like values redacted, and exits non-zero when the request fails.
- `get_open_positions.py` signs in, picks the session token out of the signin response, fetches the open positions of a provider (`PROVIDER_ID`, default `931`) and prints them.
- `save_open_positions.py` signs in and fetches in the same way, but tries one more token key and guards the nested lookup with `or {}`. Instead of printing the positions it stores them as a snapshot record `{provider_id, fetched_at_utc, data}` in `<OUT_DIR>/<provider_id>.json` (default directory `open_positions`).

The only logic in these scripts is how they read the environment and the responses, and what they build from them. This project models that layer as pure functions. The HTTP responses, the environment and the clock are parameters:

- `PyValues` holds the Python semantics the scripts depend on. It models JSON values as decoded by `r.json()` and Python truthiness (`None`, `False`, `0`, `""`, `[]` and `{}` are falsy). It models `dict.get` with and without a default, and raises when the receiver is not a dict. It also models the short-circuiting `or`, and the three ways a run can end: a value, `sys.exit(code)`, or an uncaught exception (`Crash`).
- `Environment` models `os.getenv`, `require_env` and the credential check. `Http` models a response as `(ok, parsed JSON or none, text)` and a request as the call a script makes.
- `SaveOpenPositions` and `GetOpenPositions` model the two token lookups and the two fetch fallbacks. They also model each script's `main` as a run: the requests it issued, and its result or exit code.
- `Signin` models the redaction comprehension and `main`'s exit status.
- `RedactionGaps` relates the redaction to the token lookup of `save_open_positions.py`.

Main results:

- The token is the first truthy candidate in a fixed order. Each variant crashes in exactly the cases its predicate `Crashes` names.
- Every token the five-key variant accepts is also the token the six-key variant picks. The lemma `WhereVariantsDiffer` lists exactly the responses on which the two variants differ.
- Redaction keeps the keys and their order, and it is idempotent. It misses the keys `tokn` and `data.token`. A token other than the placeholder that the save variant's lookup picks from the printed object is the token it picks from the real response.

Behaviour of the scripts that is easy to misread:

- The token search takes the first **truthy** value, so `0`, `[]` and `{}` are skipped as well as missing and empty values. Any truthy JSON value is accepted, not only a string.
- `get_open_positions.py` looks up only `data.token`, not `data.tokn`. It reads the nested object with `data.get("data", {})`, so once the four top-level candidates are falsy, a `"data"` that is `null`, `""` or `[]` crashes there, where the save variant exits with 1.
- `save_open_positions.py` always writes the snapshot. It does not compare ticket sets, it never skips the write, and it sends no notification. `data` is the fetched payload as is, with no unwrapping of a nested `data`.
- `PROVIDER_ID` is optional (default `931`). Set to the empty string, it is used as is, which gives the file name `.json`.

## Model

| member | source | states |
|---|---|---|
| `PyValues.Truthy` | save_open_positions.py:34-45 | definition, no contract: Python truthiness on decoded JSON, where `None`, `False`, `0`, `""`, `[]` and `{}` are false |
| `PyValues.DictGet` | save_open_positions.py:35-40 | `x.get(k)` raises exactly when `x` is not a dict; on a dict it yields the stored value, or `None` for a missing key |
| `PyValues.DictGetOr` | get_open_positions.py:40 | `x.get(k, default)` raises exactly when `x` is not a dict; the default replaces only a missing key, not a falsy value |
| `PyValues.PyOr` | save_open_positions.py:34-41 | `a or b` yields `a` when it is truthy and `b` when it is falsy; a crash in `a` propagates |
| `PyValues.FirstTruthy` | save_open_positions.py:34-41 | finds nothing exactly when every candidate is falsy; otherwise returns a truthy candidate preceded only by falsy ones |
| `PyValues.TokenOrExit` | save_open_positions.py:43-45 | the token when a truthy candidate exists, otherwise exit status 1 |
| `PyValues.FirstTruthyAppend` | save_open_positions.py:34-41 | the candidates after a group are consulted only when the group has no truthy one |
| `Environment.IsSet` | save_open_positions.py:11-12 | definition, no contract: `os.getenv(name)` is truthy, i.e. the variable is set and not the empty string, the negation of `not v` in `require_env` |
| `Environment.HasCredentials` | signin.py:13 | definition, no contract: both `FA_EMAIL` and `FA_PASSWORD` are set and non-empty, the negation of `not email or not password` |
| `Environment.RequireEnv` | save_open_positions.py:10-15 | returns the value exactly when the variable is set and non-empty, otherwise exits with 2 (identical in get_open_positions.py:9-14) |
| `Environment.GetEnv` | save_open_positions.py:72 | `os.getenv(name, default)` uses the default only for an unset variable; a variable set to `""` yields `""` |
| `SaveOpenPositions.TokenChain` | save_open_positions.py:34-41 | definition, no contract: the six-operand `or` chain as written, with `(data.get("data") or {})` evaluated for each nested operand; its meaning is stated by `SaveOpenPositions.ChainFindsFirstTruthy` |
| `SaveOpenPositions.Crashes` | save_open_positions.py:34-41 | definition, no contract: the chain raises when the body is not a dict, or when the four top-level candidates are falsy and `"data"` holds a truthy non-dict |
| `SaveOpenPositions.SelectToken` | save_open_positions.py:34-45 | raises exactly when the body is not an object, or when the four top-level candidates are falsy and `"data"` is a truthy non-object; otherwise the first truthy of `token`, `tokn`, `access_token`, `accessToken`, `data.token`, `data.tokn`, or exit 1 when none is truthy |
| `SaveOpenPositions.ChainFindsFirstTruthy` | save_open_positions.py:34-41 | the left-nested `or` chain evaluates to the first truthy candidate, or to a falsy value when there is none, and raises exactly under `Crashes` |
| `SaveOpenPositions.TopChain` | save_open_positions.py:35-38 | definition, no contract: the four top-level operands `token or tokn or access_token or accessToken`, left-nested; `GetOpenPositions.TokenChain` reuses it for get_open_positions.py:36-39; its meaning is stated by `SaveOpenPositions.TopChainFindsFirstTruthy` |
| `SaveOpenPositions.TopChainFindsFirstTruthy` | save_open_positions.py:35-38 | on a dict the four top-level lookups never raise and yield the first truthy top-level candidate |
| `SaveOpenPositions.SigninAndGetToken` | save_open_positions.py:24-47 | a non-OK status or a body that is not JSON exits with 1; otherwise the result is the token selection on the decoded body |
| `SaveOpenPositions.FetchOpenPositions` | save_open_positions.py:59-67 | exits with 1 exactly on a non-OK status and never raises; a JSON body is returned unchanged; any other body becomes an object with the single key `raw` holding the text |
| `SaveOpenPositions.Record` | save_open_positions.py:83-87 | the snapshot record has exactly the keys `provider_id`, `fetched_at_utc`, `data` in that order, holding the provider id, the timestamp and the payload unmodified |
| `SaveOpenPositions.Join` | save_open_positions.py:81 | the path always ends with the file name; an absolute file name replaces the directory; any other file name is placed under the directory, which the path starts with, joined by exactly one `/` unless the directory is empty or already ends in `/` |
| `SaveOpenPositions.ProviderId` | save_open_positions.py:72 | definition, no contract: `os.getenv("PROVIDER_ID", "931")`, whose contract is `Environment.GetEnv`'s; get_open_positions.py:74 reads it the same way and uses this function |
| `SaveOpenPositions.OutDir` | save_open_positions.py:78 | definition, no contract: `os.getenv("OUT_DIR", "open_positions")`, whose contract is `Environment.GetEnv`'s |
| `SaveOpenPositions.SnapshotPath` | save_open_positions.py:81 | definition, no contract: `os.path.join(out_dir, f"{provider_id}.json")`; its meaning is stated by `SaveOpenPositions.Join` and `SaveOpenPositions.SnapshotUnderOutDir` |
| `SaveOpenPositions.SnapshotUnderOutDir` | save_open_positions.py:72-81 | for every environment whose output directory is non-empty without a trailing `/` and whose provider id does not start with `/`, the snapshot path is `<OUT_DIR>/<provider_id>.json` |
| `SaveOpenPositions.Main` | save_open_positions.py:69-92 | exit 2 exactly when a credential is missing, and then no request is made; otherwise the signin request carries the credentials; the positions request is made exactly when a token was found, with `PROVIDER_ID` and that token; the run crashes exactly when the signin request raises, the token lookup raises, or the positions request raises; a snapshot is produced exactly when both requests succeed, at `<OUT_DIR>/<provider_id>.json`, holding the fetched payload |
| `SaveOpenPositions.FalsyCandidateSkipped` | save_open_positions.py:34-41 | `{"token": "", "tokn": "t"}` yields `"t"`: a present but falsy candidate does not stop the search |
| `SaveOpenPositions.AnyTruthyValueIsToken` | save_open_positions.py:34-47 | any truthy JSON value is returned as the token, including one found under `data.tokn` |
| `SaveOpenPositions.ExitOneIffNoCandidate` | save_open_positions.py:43-45 | exit 1 exactly when nothing raises and all six candidates are missing or falsy |
| `SaveOpenPositions.FalsyDataContributesNothing` | save_open_positions.py:39-40 | when `"data"` is missing, `null`, `""`, `[]`, `{}` or otherwise falsy, only the four top-level candidates decide the outcome |
| `SaveOpenPositions.CrashCases` | save_open_positions.py:35-40 | a non-object body raises; a truthy string or list under `"data"` raises once the top-level candidates are exhausted; a top-level token found first prevents that |
| `SaveOpenPositions.DefaultSnapshotPath` | save_open_positions.py:72-81 | with `PROVIDER_ID` and `OUT_DIR` unset the snapshot path is `open_positions/931.json` |
| `SaveOpenPositions.EmptyProviderIdPath` | save_open_positions.py:72-81 | `PROVIDER_ID` set to `""` is not replaced by the default, so the file is `open_positions/.json` |
| `SaveOpenPositions.SnapshotKeepsPayload` | save_open_positions.py:63-87 | a completed run stores the decoded JSON body under `data`, or `{"raw": text}` when the body was not JSON |
| `GetOpenPositions.TokenChain` | get_open_positions.py:35-41 | definition, no contract: the five-operand `or` chain as written, ending in `data.get("data", {}).get("token")`; its meaning is stated by `GetOpenPositions.ChainFindsFirstTruthy` |
| `GetOpenPositions.Crashes` | get_open_positions.py:35-41 | definition, no contract: the chain raises when the body is not a dict, or when the four top-level candidates are falsy and `"data"` is present with a non-dict value, falsy or not |
| `GetOpenPositions.SelectToken` | get_open_positions.py:35-46 | raises exactly when the body is not an object, or when the four top-level candidates are falsy and `"data"` is present with a non-object value, even a falsy one; otherwise the first truthy of the five candidates, or exit 1 |
| `GetOpenPositions.ChainFindsFirstTruthy` | get_open_positions.py:35-41 | the five-operand `or` chain evaluates to the first truthy candidate, or a falsy value, and raises exactly under `Crashes` |
| `GetOpenPositions.SigninAndGetToken` | get_open_positions.py:24-48 | a non-OK status or a body that is not JSON exits with 1; otherwise the result is this variant's token selection |
| `GetOpenPositions.FetchOpenPositions` | get_open_positions.py:61-68 | exits with 1 exactly on a non-OK status and never raises; a JSON body is returned unchanged; any other body is returned as the bare text |
| `GetOpenPositions.Main` | get_open_positions.py:70-80 | exit 2 exactly when a credential is missing, with no request made; the positions request is made exactly when a token was found, with `PROVIDER_ID` (default `931` only when unset) and that token; the run crashes exactly when the signin request raises, the token lookup raises, or the positions request raises; the printed result is the fetched body |
| `GetOpenPositions.RefinesSave` | get_open_positions.py:35-41 | whenever this variant returns a token, the save variant returns the same token on the same response |
| `GetOpenPositions.SaveCrashImpliesCrash` | get_open_positions.py:35-41 | whenever the save variant raises, this variant raises too |
| `GetOpenPositions.WhereVariantsDiffer` | get_open_positions.py:40 | the variants differ exactly when the top-level candidates are falsy and either `"data"` is a falsy non-object (crash here, exit 1 there) or `"data"` is an object with a falsy `token` and a truthy `tokn` (exit 1 here, token there) |
| `GetOpenPositions.DivergingExamples` | get_open_positions.py:40 | `{"data": {"tokn": t}}` exits with 1 here but yields `t` in the save variant; `{"data": null}` raises here but exits with 1 there; `{"data": {}}` exits with 1 |
| `GetOpenPositions.FetchVariantsAgree` | get_open_positions.py:61-68 | both fetches exit on the same responses and return JSON bodies alike; on other bodies the save variant wraps under `raw` exactly the text this one returns |
| `Signin.Lower` | signin.py:36 | lowercasing keeps the length and maps each character through ASCII lowercasing |
| `Signin.Redact` | signin.py:36 | the comprehension itself; its contract states only that the length is kept, and its meaning is stated by `Signin.RedactPairwise` |
| `Signin.Contains` | signin.py:36 | definition, no contract: Python's `sub in s` on strings, an occurrence of `sub` at some position of `s` |
| `Signin.Sensitive` | signin.py:36 | definition, no contract: the test `"token" in k.lower()`; which spellings pass it is stated by the four spelling lemmas below |
| `Signin.RedactPairwise` | signin.py:36 | pair by pair, every key is kept and a value is replaced by `"<redacted>"` exactly when its lowercased key contains `token`; other values, nested objects included, pass through unchanged |
| `Signin.RedactKeepsKeys` | signin.py:36 | redaction keeps the same keys in the same order |
| `Signin.RedactIdempotent` | signin.py:36 | redacting twice gives the same result as redacting once |
| `Signin.LookupAfterRedact` | signin.py:36 | after redaction a sensitive key that is present holds the placeholder, and every other key holds its original value |
| `Signin.PlainSpellingsRedacted` | signin.py:36 | the keys `token` and `TOKEN` are redacted |
| `Signin.CamelSpellingRedacted` | signin.py:36 | the key `accessToken` is redacted |
| `Signin.SnakeSpellingRedacted` | signin.py:36 | the key `access_token` is redacted |
| `Signin.UnredactedSpellings` | signin.py:36 | the keys `tokn` and `data` are not redacted |
| `Signin.NonObjectBody` | signin.py:33-38 | definition, no contract: `r.json()` decoded a value that is not a dict, so `data.items()` raises `AttributeError`, which `except ValueError` does not catch |
| `Signin.Main` | signin.py:9-43 | exit 2 exactly when `FA_EMAIL` or `FA_PASSWORD` is unset or empty, and then no request is made; a failed request exits with 1; a JSON body that is not an object crashes; otherwise the exit status is 1 on a non-OK status and 0 on success; an object body is printed redacted and a non-JSON body as raw text, whatever the status |
| `RedactionGaps.TokensThatLeak` | signin.py:36 | a token under `tokn`, or nested under `data.token`, passes redaction unchanged, and the save variant accepts it as the token |
| `RedactionGaps.RedactMasks` | signin.py:36 | every lookup in the printed object gives the original value or the placeholder, and `data` is printed unchanged |
| `RedactionGaps.ExposedTokenIsLive` | signin.py:36 | any token other than the placeholder that the save variant's lookup finds in the printed object is the very token it finds in the real response |

## Left out

- HTTP through `requests` is not modelled: URLs, headers, JSON request bodies, timeouts, how `r.ok` is computed and how `r.json()` decodes. A response is given as `(ok, decoded JSON or nothing, text)`, and a request that raises (a connection error or a timeout) is the case `Http.RequestFailed`, in all three scripts. The exception types are not distinguished.
- Request arguments are recorded; how `requests` validates them is not modelled. `Http.Call` records the credentials and the provider id and token sent; what `requests` does with a non-string token as the `token` header value is not modelled.
- `datetime.now(timezone.utc).isoformat()` is an input: the timestamp text is a parameter of `SaveOpenPositions.Main`.
- File-system effects are left out: `os.makedirs`, `open` and the `json.dump` formatting (`indent`, `ensure_ascii`). The model produces the record value and the path string only. So it does not model a failure to create or write the file, such as `OUT_DIR` set to the empty string.
- `os.path.join` is modelled with its POSIX rules for two arguments. Windows path rules are not modelled.
- Printed messages and stderr text are not modelled. For `signin.py` the model records only which body is printed: the redacted object, the raw text, or none.
- JSON floating-point numbers are not modelled. Numbers are integers, truthy when non-zero.
- Decoded objects are assumed to have distinct keys. With a duplicated key `json.loads` keeps the last value, while `PyValues.Lookup` returns the first entry with that key.
- Signin.Lower: models `str.lower` on the ASCII letters only; Unicode case mapping (for example the Kelvin sign lowering to `k`) is not modelled.
- Signin.Redact: its own contract states only that the length is kept; the pair-by-pair meaning is stated by `Signin.RedactPairwise`.
- The interpreter's exit status after an uncaught exception is not modelled. It stays the abstract outcome `Crash`.
- None of the three scripts compares ticket sets, skips an unchanged snapshot or sends a notification, so the model has none of these either: `save_open_positions.py` writes the snapshot on every successful run.
