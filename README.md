# enphase-collector, modelled in Dafny

The collector is a batch job. Each run opens one logging transaction and builds
an `Enphase` client. The client reads the vendor credentials from a Kubernetes
secret. When the stored tokens are older than the refresh threshold, it
refreshes the OAuth token pair and writes the secret back. It then fetches the
site's summary, events and alarms, and merges them into one flat record. When
every stage returned 200, the collector posts that record to a local ingestion
API. It then closes the transaction with the run's return code.

This project models that core:

- `Enphase.process`, `_call_api`, `_format_data`, `_decode`,
  `_load_and_refresh_tokens` and `_refresh_access_token` in `src/enphase.py`;
- `EnphaseCollector.process` and `_load_data` in `src/enphase-collector.py`.

It follows the source's own form:

- **Objects become classes.** The two classes are Dafny classes whose methods
  update their fields. The Python dictionaries that the code shares and
  mutates (the request `params` and the collector's `payload`) are `JsonDict`
  objects.
- **Methods are checked against pure functions.** Each method is proved equal
  to a pure "what happens" function:
  - `Tokens.LoadAndRefresh` for the token stage;
  - `EnphaseClient.Expected` for `process()`;
  - `CollectorPipeline.Closing` and `Forwarded` for the collector.
- **Pure code stays pure.** The static `_format_data` and `_decode` are
  functions (`Format.FormatData`, `Tokens.Decode`), which `process()` and the
  token stage call directly.
- **The source's promises are lemmas.** They are proved about those functions.

Everything outside the process is a `World` object (`outside.dfy`). This covers
the secret store, the OAuth endpoint, the vendor data endpoints, the local sink,
the clock, and the base64 and ISO-8601 library parsers. A `World` fixes the
outcome of every request for one run and keeps a ghost trace of the requests
issued (`World.calls`). The jTookkit logger is a `Logger` object (`logging.dfy`).
It hands out handles and keeps a ghost trace of the start, end and message
entries written.

Modules:

| file | module | content |
|---|---|---|
| wrappers.dfy | Wrappers | `Option` |
| text.dfy | Text | joins with the list separator, character counts, ASCII lower-casing, decimal rendering of integers |
| json.dfy | Json | decoded JSON values, `str()` of a value, the shared `JsonDict` |
| outside.dfy | Outside | `World`: the outcomes of I/O and the request trace |
| logging.dfy | Logging | `Logger`, log entries, span/transaction shape of a trace |
| format.dfy | Format | `_format_data` |
| tokens.dfy | Tokens | `_decode`, staleness, write-back, `_load_and_refresh_tokens` as a function |
| stages.dfy | Stages | UTC midnight, the short-circuit reduction of the stage codes |
| enphase.dfy | EnphaseClient | the `Enphase` class and the `Expected` specification of `process()` |
| collector.dfy | CollectorPipeline | the `EnphaseCollector` class |

One behaviour of the code is easy to miss:

- **A failed token refresh is not reported as an error.** `_refresh_access_token` returns
  `(None, None)` on failure. `_load_and_refresh_tokens` stores both `None`s,
  patches the secret with them, and returns 200 when the patch succeeds
  (`src/enphase.py:234-249`).

## Model

| member | source | states |
|---|---|---|
| Tokens.Decode | src/enphase.py:206-208 | an absent or empty value decodes to `None`; any other value is base64-decoded, and a decoding failure is an error |
| Tokens.DecodeSecret | src/enphase.py:219 | the decoded secret has the same keys, each value is its `_decode`; it fails exactly when some value fails to decode |
| Tokens.CredentialsOf | src/enphase.py:222-226 | each of the five credential fields is `data.get(key)`: the decoded value when the key is present, else `None` |
| Tokens.NewTokens | src/enphase.py:176-190 | the pair `_refresh_access_token` returns: the response's `access_token` and `refresh_token` members, or `(None, None)` when the request failed |
| Tokens.Stale | src/enphase.py:230-233 | the token record is stale exactly when it is more than `refresh_hours * 3600` seconds old |
| Tokens.StaleBoundary | src/enphase.py:233 | the staleness test is strict: exactly `refresh_hours` old is fresh, one hour more is stale |
| Tokens.WriteBack | src/enphase.py:241-248 | the written-back secret has exactly the six fields api_key, user_id, client_secret, access_token, refresh_token, last_updated, with the current field values and the new timestamp |
| Tokens.LoadAndRefresh | src/enphase.py:210-258 | the token stage returns 200 or 500 and always starts with the secret read |
| Tokens.LoadWithoutSecretFails | src/enphase.py:218-219 | a store error, a secret without data or an undecodable value gives 500, leaves the fields unchanged and issues no other request |
| Tokens.LoadSetsFieldsFromSecret | src/enphase.py:222-226 | once the secret decodes, api_key, user_id and client_secret are the secret's values whatever happens next |
| Tokens.LoadWithoutTimestampFails | src/enphase.py:227-231 | a missing `last_updated`, one that does not parse, or one without a UTC offset (whose naive datetime cannot be subtracted from the aware clock reading) gives 500 with no refresh and no patch, after the fields were set |
| Tokens.LoadFreshSkipsRefresh | src/enphase.py:230-233 | a fresh record gives 200 with the fields from the secret and no refresh or patch |
| Tokens.LoadStaleRefreshesAndPatches | src/enphase.py:233-249 | a stale record makes exactly one refresh request with the old refresh token, then one patch with the six-field write-back; the code is 200 exactly when the patch succeeds |
| Tokens.FailedRefreshStillWritesBack | src/enphase.py:234-249 | a failed refresh sets both tokens to `None`, still patches the secret with `None` tokens, and returns 200 when the patch succeeds |
| Stages.MidnightUtc | src/enphase.py:35 | the start time is a multiple of 86400 at most `now`, less than a day before it |
| Stages.MidnightUnique | src/enphase.py:35 | that start time is the only such instant: the UTC midnight of the run's day |
| Stages.Drive | src/enphase.py:40-55 | starting from 200, at least one stage is attempted; the status is the maximum of 200 and the attempted stages' codes; every attempted stage found the status still 200, and the run stops early only when it is not |
| Stages.DriveOutcome | src/enphase.py:40-55 | over codes that are each 200 or 500, the status is 200 exactly when every stage returned 200, and then all stages ran; otherwise it is 500, the last stage run is the first failure, and no stage after it runs |
| EnphaseClient.StageCode | src/enphase.py:78-82 | `_call_api` returns 200 exactly when the GET, the status check and the JSON parse all succeed, else 500 |
| EnphaseClient.Body | src/enphase.py:63-80 | `_call_api`'s data is the parsed response body, or `{}` when the request failed |
| EnphaseClient.Authorization | src/enphase.py:71-73 | the header is `Bearer ` followed by the access token, or by `None` when there is none |
| EnphaseClient.Query | src/enphase.py:74-77 | the sent parameters are the given ones (none becomes `{}`) with `key` and `user_id` set from the fields; other keys are kept |
| EnphaseClient.DataCalls | src/enphase.py:44-55 | the data stages issue three requests |
| EnphaseClient.DataCallsParams | src/enphase.py:36-77 | each data request carries the bearer header, `key` and `user_id`; only events and alarms carry `start_time`, the run's UTC midnight |
| EnphaseClient.QueryIdempotent | src/enphase.py:49-53 | re-sending the parameter dictionary the events call updated sets the same two keys again |
| EnphaseClient.AlarmsReuseQuery | src/enphase.py:49-53 | the alarms request sends exactly the dictionary the events request left |
| EnphaseClient.Expected | src/enphase.py:29-58 | `process()` keeps the token stage's fields, runs between one and four stages, and issues the token requests followed by that prefix of the data requests |
| EnphaseClient.ExpectedShortCircuits | src/enphase.py:40-55 | a stage runs only when every earlier stage returned 200, and the run stops early only after a stage returned 500 |
| EnphaseClient.ExpectedStatusIsWorst | src/enphase.py:30-55 | the returned status is the maximum of 200 and the codes of the stages that ran, and is 200 or 500 |
| EnphaseClient.ExpectedRecordIffAllSucceed | src/enphase.py:56-58 | a record is returned with 200 exactly when all four stages returned 200 and the formatter succeeds; the run raises exactly when all four returned 200 and the formatter fails |
| EnphaseClient.ExpectedRecordIsFormatted | src/enphase.py:56-58 | a completed run returns a record exactly when its status is 200, and that record is `_format_data` of the three responses |
| EnphaseClient.Enphase.constructor | src/enphase.py:10-22 | the new object keeps the logger, the collector's transaction, the API prefix, the namespace, the secret name and the refresh threshold it was given, and all five credential fields are `None` |
| EnphaseClient.Enphase.Process | src/enphase.py:29-58 | the method's result, its credential fields and its request trace are those of `Expected`; the log only gains spans |
| EnphaseClient.Enphase.Gather | src/enphase.py:43-55 | the three guarded stages report the `Drive` verdict of the stage codes and issue that prefix of the data requests; when all succeed, the three bodies are returned |
| EnphaseClient.Enphase.Stage | src/enphase.py:44-55 | one guarded stage runs its request only when the status so far is 200, and folds its code into the status |
| EnphaseClient.Enphase.CallApi | src/enphase.py:60-95 | one GET with the bearer header and the `Query` parameters; the code and body follow the response (`{}` on failure); the caller's parameter dictionary is updated in place; exactly one span is written, with a message on failure |
| EnphaseClient.Enphase.Send | src/enphase.py:71-78 | the GET sends the bearer header and the `Query` parameters, written back into the caller's dictionary |
| EnphaseClient.Enphase.RefreshAccessToken | src/enphase.py:170-204 | one token request with the user id, client secret and refresh token; returns the new pair, or `(None, None)` on failure, inside one span |
| EnphaseClient.Enphase.LoadAndRefreshTokens | src/enphase.py:210-258 | the fields, the return code and the request trace are those of `LoadAndRefresh`; the stage's log opens with the `K8s: Read Secret` span start and closes with its span end, carrying the code and, on 500, the failure message |
| EnphaseClient.Enphase.ReadAndRefresh | src/enphase.py:216-249 | the try block sets the fields and issues the requests of `LoadAndRefresh`, failing exactly when it reports 500 |
| EnphaseClient.Enphase.RefreshAndPatch | src/enphase.py:234-249 | a stale record's refresh stores the new token pair, then patches the secret with the six-field write-back; succeeds exactly when the patch does |
| Format.ItemsOf | src/enphase.py:99-106 | an absent list key iterates as the empty list, a list iterates over its items, and a non-dictionary payload is an error; any other present value iterates as nothing when it is an empty string or dictionary, and is an error otherwise |
| Format.RenderAll | src/enphase.py:99-106 | every item is rendered in order, one line per item; it fails exactly when some item fails |
| Format.Joined | src/enphase.py:99-106 | the rendered list exists exactly when `payload.get(key, [])` iterates and every item renders, and is then the lines, in order, joined with the list separator |
| Format.AlarmLine | src/enphase.py:100 | an alarm renders exactly when it is a dictionary holding `id`, `cleared` and `severity`, as `id: …, cleared: …, severity: …` with `cleared` lower-cased; otherwise the lookup raises |
| Format.EventLine | src/enphase.py:104 | an event renders exactly when it is a dictionary holding `status` and `event_type_id`, as `status: …, event_type_id: …`; otherwise the lookup raises |
| Json.Str | src/enphase.py:100-104 | f-string rendering of a value: a string is itself; an integer is canonical decimal text (digits without leading zeros, a `-` exactly when negative) that reads back as the same number; a boolean is `True`/`False`; null is `None` |
| Text.IntToString | src/enphase.py:100-104 | `str(i)` is canonical decimal text, with a leading `-` exactly when `i` is negative |
| Text.IntTextIsPrinted | src/enphase.py:100-104 | canonical decimal text is unique: any such text is exactly `str` of the integer it reads back as, so the rendering and the round trip fix the text |
| Text.Lower | src/enphase.py:100 | `str.lower()` keeps the length, maps each ASCII letter `A`-`Z` to its lower-case letter, and changes no other character |
| Text.Join | src/enphase.py:99-106 | the join of no parts is `""`, of one part is that part |
| Text.JoinEnds | src/enphase.py:99-106 | a join of one or more parts starts with the first part and ends with the last |
| Text.JoinCount | src/enphase.py:99-106 | each occurrence of a character in a join comes from a part or from one of the n - 1 separators |
| Format.FormatData | src/enphase.py:97-122 | the record exists exactly when the summary has the eleven fields and both lists render; it has exactly the thirteen record keys, copies the summary fields unchanged, and holds the two joined lists |
| Format.RecordHasThirteenKeys | src/enphase.py:107-121 | the record has thirteen distinct keys |
| Format.JoinedLayout | src/enphase.py:99-106 | an absent or empty list renders as `""`; n rendered lines are joined in input order with exactly n - 1 separators when no line holds a bar |
| Format.ClearedRendersLowercase | src/enphase.py:100 | `str(cleared).lower()` renders a boolean as `true` or `false` |
| Logging.TransactionBoundaries | src/enphase-collector.py:22-36 | a transaction trace holds exactly one TRANSACTION_START, and one TRANSACTION_END when it was closed, all spans lying in between |
| CollectorPipeline.AfterInsert | src/enphase-collector.py:39-52 | after `_load_data`, `return_code` is 200 with `inserted` 1 when the post succeeds, else 500 with the insert failure message; every other key keeps its value, including an existing `message` after a success and an existing `inserted` after a failure |
| CollectorPipeline.AfterEnphaseFailure | src/enphase-collector.py:30-32 | a vendor failure sets the message and `return_code` 500; every other key keeps its value |
| CollectorPipeline.Closing | src/enphase-collector.py:20-36 | the transaction ends with code 200 exactly when the vendor returned 200 and the post succeeded, else 500; `return_code` is popped from the payload before it is logged |
| CollectorPipeline.Forwarded | src/enphase-collector.py:28-29 | at most one sink post, of the vendor's record, exactly when the vendor run returned 200 with a record |
| CollectorPipeline.Vendor | src/enphase-collector.py:26-27 | the collector's `Enphase` object, built with the default namespace, secret name and 12-hour threshold, first reads the secret `enphase-tokens` in namespace `collector` |
| CollectorPipeline.VendorWithoutSecretStops | src/enphase-collector.py:26-27 | without a decoded secret, the fresh object keeps no credentials, reports 500 without a record, and issues no request after the secret read |
| CollectorPipeline.ForwardsIffVendorSucceeds | src/enphase-collector.py:27-29 | the collector forwards a record exactly when the vendor client reported 200 |
| CollectorPipeline.EnphaseCollector.constructor | src/enphase-collector.py:12-17 | the new collector has a fresh logger with no entries and no handles issued, keeps the sink URL it was given, and has no transaction yet |
| CollectorPipeline.EnphaseCollector.Process | src/enphase-collector.py:19-36 | opens one transaction, runs the vendor client from fresh credentials, forwards exactly `Forwarded`, and, unless the formatter raised, ends with the one TRANSACTION_END of `Closing`; only spans lie in between |
| CollectorPipeline.EnphaseCollector.Open | src/enphase-collector.py:22 | writes the TRANSACTION_START and keeps its handle as the transaction |
| CollectorPipeline.EnphaseCollector.RunVendor | src/enphase-collector.py:26-27 | the vendor run and its requests are those of `Vendor`; a 200 run carries a record |
| CollectorPipeline.EnphaseCollector.Continue | src/enphase-collector.py:26-36 | after the transaction is open: the vendor run, the forward, and the closing entry of `Closing` unless the run raised |
| CollectorPipeline.EnphaseCollector.Finish | src/enphase-collector.py:28-36 | loads or records the vendor failure, pops `return_code` and writes the TRANSACTION_END of `Closing` |
| CollectorPipeline.EnphaseCollector.LoadData | src/enphase-collector.py:38-60 | one post of the record inside one span; the shared payload becomes `AfterInsert`; exactly SPAN_START, a message on failure, SPAN_END |

## Left out

- HTTP, Kubernetes, the jTookkit logger and configuration are not modelled as
  code. Their outcomes are constants of a `World`, and the logger is a trace.
  The environment variables, `main()` and `print` calls are left out.
- `Enphase.__init__`: reading `ENPHASE_BASE_URL`, `ENPHASE_API_URL` and
  `SYSTEM_ID`, and loading the cluster configuration, are not modelled. The API
  prefix is a constructor parameter.
- `EnphaseCollector.__init__`: the logging configuration is not modelled.
  `LOCAL_API_BASE_URL` is a constructor parameter.
- `_get_authorization_code` and `_get_access_token` are not part of this model.
  They are a manual one-off OAuth bootstrap that `process()` never calls.
- Base64 and UTF-8 decoding and ISO-8601 parsing and formatting are functions
  fixed by the `World` (`base64Decode`, `parseIso`, `formatIso`). Only whether
  they succeed, and their results, are modelled. `parseIso` folds two
  failures into `None`. One is a `fromisoformat` error. The other is a
  timestamp without a UTC offset: it parses to a naive datetime, and the age
  subtraction at `src/enphase.py:231` then raises `TypeError`. The model does
  not tell these two apart; both give 500.
- Tokens.LoadAndRefresh: reads the clock once per run (`World.now`). The source
  reads it three times: for the midnight, the age and the new `last_updated`
  (lines 35, 231 and 238).
- Tokens.Stale: `total_seconds() / 3600` is taken as an exact rational division.
  Floating-point rounding and sub-second ages are not modelled.
- Json.Str: lists and dictionaries inside an alarm or event line render as fixed
  placeholders, not as Python's `repr`. Floating-point JSON numbers are not
  modelled.
- Text.Lower: lowercases ASCII letters only.
- Logging.Logger: keeps the event kind, handle, parent, component, payload and
  return code of each entry. More is left out:
  - transactions written without a payload or component are recorded as
    `null` and `""`;
  - a message's exception, stack trace and diagnostic `data` (status code,
    response text) are not recorded;
  - the timestamps and JSON layout of the emitted lines are not modelled.
- EnphaseClient.Enphase.CallApi: when `params` is `None` or empty,
  `_call_api` sends a fresh dictionary and leaves the caller's untouched. The
  model sends the same parameters.
- CollectorPipeline.EnphaseCollector.Process: an exception the formatter raises
  ends the run, with no TRANSACTION_END and nothing forwarded. The model
  reports it as `raised`, and states the log shape for that case only as
  "spans were added".
- CollectorPipeline.EnphaseCollector.LoadData: any exception from the post or
  the status check ends up as `postSucceeds == false`. The two are not told
  apart.
- Concurrency, retries and timeouts are left out: the source has none beyond
  the library defaults.
