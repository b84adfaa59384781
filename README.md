# FreeFire API gateway: a Dafny model of its three request handlers

`app.py` is a small Flask gateway with three GET endpoints:

- `/get_search_account_by_keyword` searches accounts by keyword.
- `/get_player_stats` returns a player's statistics, wrapped as `{success, data, metadata}`.
- `/get_player_personal_show` returns a player's profile.

Each handler follows the same fixed chain:

1. Check the query parameters.
2. Check the region (`server`, upper-cased, default `IND`) against the `accounts` registry.
3. Obtain an account token with the region's stored credential (stage 1).
4. Exchange it for a game session (stage 2).
5. Make one data call.
6. Map every failure to an HTTP status and an error body.

This project models each handler as a pure function. Its inputs are:

- the query parameters (`Args`, a map from name to string);
- the registry (`Registry`, the region/credential entries in insertion order, so `list(accounts.keys())` is exact);
- the outcome each collaborator call would have (`Upstreams`). A collaborator either raises an exception class (`Raises`) or returns `None` or a dict (`Returns`).

A handler returns a response: a status, a body datatype naming the error kind or carrying the success payload, and `calls`, the collaborator calls actually made, in order and with their arguments. Short-circuiting, fail-fast validation and call arguments are stated as properties of that trace.

Modules:

- `Wrappers`: `Option` and `Result`.
- `PyText`: the Python string operations the handlers rely on. It covers `upper`/`lower`, `strip` with Python's `str.isspace` set, `isdigit`, and `int()` on a string. `int()` takes surrounding whitespace, an optional sign, and digits with single underscores between them. The whitespace `int()` skips is narrower than `strip()`'s: the separators U+001C to U+001F are whitespace to `strip()` only. It also covers `str()` of an int, with the round trip `int(str(n)) == n`.
- `Gateway`: the parameters, the registry, collaborator replies and the call trace, shared by the three handlers.
- `KeywordSearch`, `PlayerStats`, `PersonalShow`: one module per handler. Each has a validator (`Validate*`, the checks before any call), a pipeline (`Run*`, from the credential lookup to the answer) and the handler (`Handle*`) composing them.
- `Endpoints`: properties relating the three handlers.

The three handlers do not treat the same situations alike. These behaviours of the code are modelled as written:

- **Empty search result.** An empty result from the search call is answered 200 with the empty result, while stats and personal show answer an empty result 404.
- **Unknown region.** The search endpoint's unknown-region body does not list the available regions, while the stats and personal-show bodies do.
- **Stage-1 and stage-2 exceptions.** In the stats handler these answer 502. In the search and personal-show handlers they reach the outer handler, which answers 500.
- **`open_id`.** Search and stats do not require `open_id` in the stage-1 reply. When it is missing, the `KeyError` raised when reading it ends as 500 "Missing configuration" on search and as 502 "Major login error" on stats.
- **Stats fetch exceptions.** The stats fetch's `except` list names `ProtobufError` and `APIError`, which `app.py` never imports (app.py:188, app.py:194). Any exception other than `ValueError` or `ConnectionError` therefore raises `NameError` while the clauses are matched, and the outer handler answers 500 "Internal server error". The same happens to a `KeyError` for a missing `serverUrl` in the stage-2 reply, because it is raised inside that `try`. The "Data processing error", "External API error" and "Stats retrieval error" answers are never produced. `PlayerStats.UnreachableHandlers` proves this.

## Model

| member | source | states |
|---|---|---|
| PyText.Upper | app.py:26 | `str.upper()`: same length, each character mapped to its upper-case form |
| PyText.Lower | app.py:69 | `str.lower()`: same length, each character mapped to its lower-case form |
| PyText.LowerEqualsToken | app.py:269 | comparing `s.lower()` with a lower-case token is exactly case-insensitive equality with that token |
| PyText.Strip | app.py:34 | `str.strip()`: no longer than its input, empty exactly when the input is all whitespace, otherwise starts and ends with a non-whitespace character |
| PyText.TrimPadded | app.py:34 | `strip()` (and the whitespace skipping of `int()`) removes exactly the surrounding whitespace: a core without whitespace at its ends, padded with whitespace on both sides, trims back to the core |
| PyText.TrimUnchanged | app.py:34 | a string with no whitespace at either end is unchanged by the trim |
| PyText.ParseInt | app.py:236 | `int(s)`: a value is produced only when something other than `int()`'s whitespace remains, and a negative one only when that remainder starts with `-` |
| PyText.IntRejectsFileSeparator | app.py:236 | U+001C followed by "5" strips to "5", yet `int()` rejects it: `int()` skips less whitespace than `strip()` |
| PyText.ParseLiteral | app.py:287 | the literal `int()` reads after it skips its whitespace: it is non-empty, and is negative only with a leading `-` |
| PyText.DigitStringValue | app.py:80 | an ASCII digit string (what the modelled `isdigit` accepts, as the stats uid check uses it) is read by `int()`, as personal show reads a uid, as the base-10 value of its digits |
| PyText.NatToDecimal | app.py:350 | `str(n)` for a natural number: non-empty, all digits, no leading zero |
| PyText.ParseFormatRoundTrip | app.py:350 | `int(str(n)) == n` for every integer `n` |
| Gateway.Get | app.py:27 | `request.args.get(name)` is present exactly when the parameter was given, and is then its value |
| Gateway.GetOr | app.py:26 | `request.args.get(name, default)` is the given value, or the default when absent |
| Gateway.Regions | app.py:92 | `list(accounts.keys())`: one region per registry entry, in order |
| Gateway.Lookup | app.py:42 | `accounts[region]` for a known region is the credential of an entry with that region |
| Gateway.LookupDistinct | app.py:42 | with distinct regions, as a dict has, `accounts[region]` for the region of any entry is that entry's credential |
| KeywordSearch.ValidateSearch | app.py:26-39 | the keyword checks, then the region check: each 400 error occurs exactly when its check is the first to fail; success carries the upper-cased region and the keyword as given |
| KeywordSearch.RunSearch | app.py:41-61 | after validation: 200 exactly for a results body, every error status matches its kind, only 200/401/500, and no call is made exactly when the credential lacks `uid` or `password` |
| KeywordSearch.HandleSearch | app.py:22-61 | statuses are 200/400/401/500; 400 exactly when a parameter check fails; no call is made unless both checks pass; a failed check answers with the validator's error and no call; otherwise the answer is the pipeline's on the region's credential and the keyword as given |
| KeywordSearch.StagesInOrder | app.py:42-52 | at most three calls: the token call with the stored credential, the session call exactly when stage 1 issued both tokens (with them), the search exactly when stage 2 opened a session (with its URL, token and the unstripped keyword) |
| KeywordSearch.Stage1ShortCircuit | app.py:42-44 | a falsy stage-1 reply or one without `access_token` is 401 "Authentication failed" after exactly one call |
| KeywordSearch.Stage2ShortCircuit | app.py:47-49 | a falsy stage-2 reply or one without `token` is 401 "Major login failed" after exactly two calls |
| KeywordSearch.ExceptionsAre500 | app.py:58-61 | a missing credential field, `open_id` or `serverUrl`, or a raised `KeyError`, is 500 "Missing configuration"; any other exception is 500 "Internal server error" |
| KeywordSearch.SuccessExactly | app.py:51-56 | 200 exactly when both stages succeed and the search returns, with the returned value as the body, empty or not |
| PlayerStats.ValidateStats | app.py:67-109 | the five checks in the code's order (uid present, uid `isdigit`, server known, gamemode in {br, cs}, matchmode in {CAREER, NORMAL, RANKED}): each 400 error occurs exactly when its check is the first to fail; the server error lists the registry's regions; success carries the normalised parameters and the raw uid |
| PlayerStats.FetchFailure | app.py:176-213 | a fetch exception gives 400 exactly for `ValueError`, 503 exactly for `ConnectionError`, and the outer 500 "Internal server error" for every other class; never one of the three unreachable answers |
| PlayerStats.RunStats | app.py:111-213 | after validation: 200 exactly for a stats body, every error status matches its kind, statuses within 200/400/401/404/500/502/503, and no call exactly when the credential lacks `uid` or `password` |
| PlayerStats.HandleStats | app.py:63-213 | a failed check is 400 with no call; any call implies every check passed; a failed check answers with the validator's error (e.g. "Invalid UID" for "-5"); otherwise the answer is the pipeline's on the region's credential and the validated parameters |
| PlayerStats.Stage1Outcomes | app.py:112-127 | stage 1 raising, or a credential without `uid`/`password`, is 502 "Garena authentication error" with at most one call; a falsy reply or one without `access_token` is 401 after exactly the token call |
| PlayerStats.Stage2Outcomes | app.py:130-145 | a stage-1 reply without `open_id`, or stage 2 raising, is 502 "Major login error"; a falsy stage-2 reply or one without `token` is 401; in each case the fetch is not called |
| PlayerStats.StagesInOrder | app.py:112-155 | at most three calls; the session call exactly when stage 1 issued both tokens, the fetch exactly when stage 2 opened a session, with the session's token and URL, the gamemode, the raw uid and the matchmode |
| PlayerStats.FetchOutcomes | app.py:147-213 | once fetched: empty is 404, non-empty is 200 with data and metadata, `ValueError` is 400, `ConnectionError` is 503, any other exception is the outer 500 |
| PlayerStats.MissingServerUrl | app.py:148-155 | a stage-2 reply with `token` but no `serverUrl` is the outer 500 after two calls |
| PlayerStats.SuccessExactly | app.py:157-174 | 200 exactly when both stages succeed and the fetch returns a non-empty result, which the body carries with the metadata |
| PlayerStats.PipelineNeverUnreachable | app.py:188-205 | no pipeline outcome is "Data processing error", "External API error" or "Stats retrieval error" |
| PlayerStats.UnreachableHandlers | app.py:188-205 | the handler never answers with the bodies of the `ProtobufError`, `APIError` or stage-level `Exception` clauses |
| PlayerStats.SuccessMetadata | app.py:165-174 | a 200 answer echoes the upper-cased server, the uid exactly as given (all digits), the lower-cased gamemode and the upper-cased matchmode, and carries the non-empty fetched data |
| PersonalShow.GalleryFlag | app.py:221-283 | `need_gallery_info`: absent is false; true only for a string whose lower-case form is in {true, 1, yes}, false only for one in {false, 0, no}; rejected exactly outside both |
| PersonalShow.CallSignSrc | app.py:222-287 | `call_sign_src`: absent is 7, otherwise `int()` of the given string |
| PersonalShow.ValidateShow | app.py:217-303 | uid present, then `int(uid)` succeeds, then positive, then server known (listing the regions), then gallery flag, then call-sign source: each of the first four errors exactly when its check is the first to fail; success carries the parsed values |
| PersonalShow.RunShow | app.py:305-357 | after validation: 200 exactly for a data body, every error status matches its kind, only 200/401/404/500, and no call exactly when the credential lacks `uid` or `password` |
| PersonalShow.HandleShow | app.py:216-372 | a failed parameter check is 400 with no call; any call implies every check passed; a failed check answers with the validator's code; otherwise the answer is the pipeline's on the region's credential and the parsed parameters |
| PersonalShow.GalleryTokens | app.py:268-274 | the token table without `lower()`: true exactly for "true", "1", "yes" in any case, false exactly for "false", "0", "no" in any case, rejected otherwise |
| PersonalShow.UidChecksFirst | app.py:225-253 | an unaccepted uid is 400 `MISSING_UID`, `INVALID_UID_FORMAT` or `INVALID_UID_RANGE` with no call, whatever the other parameters |
| PersonalShow.UnknownServer | app.py:255-264 | a valid uid with an unknown server is 400 `SERVER_NOT_FOUND`, with `available_servers` equal to the registry's regions in order |
| PersonalShow.Defaults | app.py:221-222 | without the two optional parameters, the gallery flag is false and the call-sign source is 7 |
| PersonalShow.ParameterCodes | app.py:266-303 | a gallery flag outside the table is `INVALID_GALLERY_PARAM`; then an unparseable call-sign source is `INVALID_CALL_SIGN_FORMAT` and a negative one `INVALID_CALL_SIGN_SRC` |
| PersonalShow.StageCodes | app.py:305-372 | `SERVER_CONFIG_ERROR` (500, no call) exactly for a credential without `uid`/`password`; 401 `GARENA_AUTH_FAILED` exactly when stage 1 returns without both tokens; 401 `MAJOR_LOGIN_FAILED` when stage 2 returns without both fields; 500 `INTERNAL_SERVER_ERROR` exactly when a call that is made raises |
| PersonalShow.StagesInOrder | app.py:315-344 | at most three calls; the session call exactly when stage 1 issued both tokens, the fetch exactly when stage 2 opened a session, with its URL and token and the parsed uid, flag and source |
| PersonalShow.FetchOutcomes | app.py:346-357 | once fetched: an empty result is 404 `PLAYER_DATA_NOT_FOUND` for the uid, a non-empty one is 200 carrying it |
| PersonalShow.NotFoundMessageNamesUid | app.py:350 | the not-found message is its fixed prefix followed by the uid written so that `int()` reads it back |
| Endpoints.UnknownRegionEverywhere | app.py:38 | on all three endpoints, an unknown region is 400 with no call, whatever else the request holds |
| Endpoints.ZeroUid | app.py:238 | the uid "0" passes the stats uid checks but is `INVALID_UID_RANGE` on personal show |
| Endpoints.EmptyResult | app.py:346 | after both stages succeed, an empty result is 404 on stats and personal show but 200 on search |
| Endpoints.Stage1StopsSearch | app.py:43 | a stage-1 reply without `access_token` stops search after at most one call, 401 when that call was made |
| Endpoints.Stage1StopsStats | app.py:115 | the same for stats |
| Endpoints.Stage1StopsShow | app.py:317 | a stage-1 reply without both tokens stops personal show after at most one call, 401 when that call was made |

## Left out

- The Flask application, CORS, route registration and the start-up code (app.py:1-17, app.py:376-378) are web-server plumbing. A handler here is a function of its inputs.
- `load_accounts` (app.py:7, app.py:12) is not part of this model. Its result is the `Registry` parameter.
- The bodies of `get_garena_token`, `get_major_login`, `search_account_by_keyword`, `get_player_stats` and `get_player_personal_show` are not part of this model. Each call is a fixed outcome in `Upstreams`: the exception class it raises, or the value it returns.
- Collaborator return values are modelled as `None` or a dict of string fields. Truthiness of other Python values (lists, numbers) is not modelled.
- JSON serialisation (`json.dumps` indentation and `ensure_ascii`, `jsonify`) and the `Content-Type` headers are not modelled. Bodies are datatypes naming the error kind.
- Messages are partly modelled. Only the fixed `error` titles (`ErrorText`, `ErrorTitle`), the personal-show codes (`Code`) and the not-found message are modelled.
- Messages built from `str(e)` are not modelled.
- The "Server '...' not found. Available servers: [...]" message text is not modelled. Its list is carried as a sequence field of the error.
- Debug printing and the traceback (app.py:360-364) are output only.
- Exceptions are modelled by class: `KeyError`, `ValueError`, `TypeError`, `ConnectionError` and any other `Exception`. `ConnectionError` here means Python's built-in class. An exception from an HTTP client library that does not derive from it counts as "any other".
- `BaseException` subclasses that are not `Exception` (such as `KeyboardInterrupt`) escape every handler, and are not modelled.
- PyText.Upper: maps ASCII letters only. Python's full Unicode case mapping (such as "ß" to "SS") is not modelled.
- PyText.Lower: maps ASCII letters only. Python's full Unicode case mapping is not modelled.
- PyText.IsDigitString accepts ASCII digits only. Python's `isdigit` also accepts other Unicode digits.
- PyText.DigitStringValue: holds for ASCII digit strings only. Python's `isdigit()` also accepts non-decimal digits such as "²" and "①", which `int()` rejects. Such a uid passes the stats check (app.py:80) and is sent on as given, while personal show answers 400 `INVALID_UID_FORMAT` (app.py:236, app.py:246-253). The model does not capture this second disagreement between the endpoints.
- PyText.ParseInt accepts ASCII digits only. Python's `int()` also accepts other Unicode decimal digits.
- PyText.ParseInt does not model CPython's limit on the number of digits `int()` converts (4300 by default). Above that limit CPython raises `ValueError`.
- PyText.ParseInt: the non-ASCII whitespace `int()` skips is taken to be the non-ASCII part of the `str.isspace()` set.
- Gateway.Lookup: a `Registry` may list a region twice, which a Python dict cannot. The handlers do not require `DistinctRegions`, so with a repeated region the model answers with the first entry's credential and lists the region twice. `Gateway.LookupDistinct` covers registries a dict can produce.
- `request.args` is modelled as one value per name, the first one Flask returns. Repeated parameters are not modelled.
