/**
 * The vendor client of `src/enphase.py`: the `Enphase` object with its
 * credential fields, the four-stage `process`, one authenticated GET per data
 * endpoint, the token refresh and the secret load, all against a `World`.
 */
module EnphaseClient {
  import opened Wrappers
  import opened Json
  import opened Outside
  import opened Logging
  import opened Tokens
  import opened Stages
  import Format

  const DefaultNamespace := "collector"
  const DefaultSecretName := "enphase-tokens"
  const DefaultRefreshHours := 12

  const ReadSecretComponent := "K8s: Read Secret"
  const RefreshComponent := "Enphase: Refresh Token"
  const SecretFailure := "Exception getting secret from Kubernetes"
  const RefreshFailure := "Exception calling Enphase to Refresh the Token"
  const DataFailurePrefix := "Exception collecting Enphase data for "

  /** What `Enphase.process()` does: returns `(code, formatted_data)`, or raises from the formatter. */
  datatype Run = Completed(code: int, data: Option<Record>) | Raised

  /** `_call_api`'s return code for a response. */
  function StageCode(o: HttpOutcome): (code: int)
    ensures code == 200 <==> o.HttpOk?
    ensures code == 200 || code == 500
  {
    if o.HttpOk? then 200 else 500
  }

  /** `_call_api`'s returned data: the parsed body, or `{}` on failure. */
  function Body(o: HttpOutcome): (r: Json)
    ensures o.HttpOk? ==> r == o.body
    ensures o.HttpFailed? ==> r == JObject(map[])
  {
    match o
    case HttpOk(b) => b
    case HttpFailed => JObject(map[])
  }

  /** The query parameters after `params["key"]` and `params["user_id"]` are set. */
  function Query(base: Record, c: Credentials): (r: Record)
    ensures r.Keys == base.Keys + {"key", "user_id"}
    ensures r["key"] == OfOption(c.apiKey) && r["user_id"] == OfOption(c.userId)
    ensures forall k :: k in base && k != "key" && k != "user_id" ==> r[k] == base[k]
  {
    base["key" := OfOption(c.apiKey)]["user_id" := OfOption(c.userId)]
  }

  /** The `Authorization` header; a missing token renders as "None". */
  function Authorization(c: Credentials): (r: string)
    ensures |r| >= 7 && r[..7] == "Bearer "
    ensures c.accessToken.Some? ==> r[7..] == c.accessToken.value
    ensures c.accessToken.None? ==> r[7..] == "None"
  {
    "Bearer " + OptStr(c.accessToken)
  }

  /** The three data requests in the order `process` issues them. */
  function DataCalls(apiUrl: string, c: Credentials, startTime: int): (r: seq<Call>)
    ensures |r| == 3
  {
    var filter := map["start_time" := JInt(startTime)];
    [ApiGet(apiUrl + "summary", Authorization(c), Query(map[], c)),
     ApiGet(apiUrl + "events", Authorization(c), Query(filter, c)),
     ApiGet(apiUrl + "alarms", Authorization(c), Query(filter, c))]
  }

  /**
   * Every data request carries the bearer header and `key`/`user_id`; only
   * events and alarms carry `start_time`, the UTC midnight of the run.
   */
  lemma DataCallsParams(apiUrl: string, c: Credentials, startTime: int)
    ensures var r := DataCalls(apiUrl, c, startTime);
            && (forall i :: 0 <= i < 3 ==> r[i].ApiGet? && r[i].authorization == Authorization(c))
            && r[0].url == apiUrl + "summary" && r[1].url == apiUrl + "events" && r[2].url == apiUrl + "alarms"
            && r[0].params.Keys == {"key", "user_id"}
            && (forall i :: 1 <= i < 3 ==> r[i].params.Keys == {"start_time", "key", "user_id"})
            && (forall i :: 1 <= i < 3 ==> r[i].params["start_time"] == JInt(startTime))
            && (forall i :: 0 <= i < 3 ==>
                  r[i].params["key"] == OfOption(c.apiKey) && r[i].params["user_id"] == OfOption(c.userId))
  {
  }

  /** The return codes the four stages would report, in order. */
  function StageCodes(w: World, apiUrl: string, tokenCode: int): seq<int> {
    [tokenCode,
     StageCode(w.Response(apiUrl + "summary")),
     StageCode(w.Response(apiUrl + "events")),
     StageCode(w.Response(apiUrl + "alarms"))]
  }

  /** The record `_format_data` builds from the three responses. */
  function Formatted(w: World, apiUrl: string): Option<Record> {
    Format.FormatData(Body(w.Response(apiUrl + "summary")),
                      Body(w.Response(apiUrl + "events")),
                      Body(w.Response(apiUrl + "alarms")))
  }

  /** One `process()` run: its result, the credential fields after it, and the requests it issues. */
  datatype Expectation = Expectation(run: Run, creds: Credentials, calls: seq<Call>, attempted: nat)

  /**
   * What `Enphase.process()` does on world `w` once the token stage has had
   * outcome `t`: the data stages, the status and the formatted record.
   */
  function Expected(w: World, apiUrl: string, t: TokenRun): (x: Expectation)
    ensures x.creds == t.creds
    // The token load always runs; the data stages follow in a fixed order.
    ensures 1 <= x.attempted <= 4
    ensures x.calls == t.calls + DataCalls(apiUrl, t.creds, MidnightUtc(w.now))[..x.attempted - 1]
  {
    var v := Drive(Success, StageCodes(w, apiUrl, t.code));
    var calls := t.calls + DataCalls(apiUrl, t.creds, MidnightUtc(w.now))[..v.attempted - 1];
    var run :=
      if v.overall != Success then Completed(v.overall, None)
      else (
        match Formatted(w, apiUrl)
        case None => Raised
        case Some(r) => Completed(Success, Some(r)));
    Expectation(run, t.creds, calls, v.attempted)
  }

  /** A stage runs only after every earlier stage returned 200, and the run stops only at a failure. */
  lemma ExpectedShortCircuits(w: World, apiUrl: string, t: TokenRun)
    requires t.code == 200 || t.code == 500
    ensures var x := Expected(w, apiUrl, t);
            var codes := StageCodes(w, apiUrl, t.code);
            && (forall i :: 0 <= i < x.attempted - 1 ==> codes[i] == 200)
            && (x.attempted < 4 ==> codes[x.attempted - 1] == 500)
  {
    var codes := StageCodes(w, apiUrl, t.code);
    DriveOutcome(codes);
    var v := Drive(Success, codes);
    ExpectedParts(w, apiUrl, t, v.overall, v.attempted);
  }

  /** The status `process()` reports is the worst code among the stages that ran: 200 or 500. */
  lemma ExpectedStatusIsWorst(w: World, apiUrl: string, t: TokenRun)
    requires t.code == 200 || t.code == 500
    ensures var x := Expected(w, apiUrl, t);
            var codes := StageCodes(w, apiUrl, t.code);
            && (x.run.Completed? ==> x.run.code == MaxFrom(200, codes[..x.attempted]))
            && (x.run.Completed? ==> x.run.code == 200 || x.run.code == 500)
  {
    var codes := StageCodes(w, apiUrl, t.code);
    DriveOutcome(codes);
    var v := Drive(Success, codes);
    ExpectedParts(w, apiUrl, t, v.overall, v.attempted);
  }

  /** A record exists exactly when all four stages succeeded and the formatter did not raise. */
  lemma ExpectedRecordIffAllSucceed(w: World, apiUrl: string, t: TokenRun)
    requires t.code == 200 || t.code == 500
    ensures var x := Expected(w, apiUrl, t);
            var codes := StageCodes(w, apiUrl, t.code);
            && ((x.run.Completed? && x.run.code == 200) <==>
                  (forall i :: 0 <= i < 4 ==> codes[i] == 200) && Formatted(w, apiUrl).Some?)
            && (x.run.Raised? <==> (forall i :: 0 <= i < 4 ==> codes[i] == 200) && Formatted(w, apiUrl).None?)
  {
    var codes := StageCodes(w, apiUrl, t.code);
    DriveOutcome(codes);
    var v := Drive(Success, codes);
    ExpectedParts(w, apiUrl, t, v.overall, v.attempted);
  }

  /** The record returned is the formatted one, and it is returned exactly when the status is 200. */
  lemma ExpectedRecordIsFormatted(w: World, apiUrl: string, t: TokenRun)
    ensures var x := Expected(w, apiUrl, t);
            && (x.run.Completed? ==> (x.run.data.Some? <==> x.run.code == 200))
            && (x.run.Completed? && x.run.data.Some? ==> x.run.data == Formatted(w, apiUrl))
  {
    var v := Drive(Success, StageCodes(w, apiUrl, t.code));
    ExpectedParts(w, apiUrl, t, v.overall, v.attempted);
  }

  lemma ConcatAssoc<T>(a: seq<T>, b: seq<T>, c: seq<T>)
    ensures a + b + c == a + (b + c)
  {
  }

  lemma CallsStep<T>(base: seq<T>, s: seq<T>, k: nat, before: seq<T>, after: seq<T>)
    requires k < |s| && before == base + s[..k] && after == before + [s[k]]
    ensures after == base + s[..k + 1]
  {
    assert s[..k + 1] == s[..k] + [s[k]];
  }

  /** Sending the same parameter dictionary twice re-sets the same two keys. */
  lemma QueryIdempotent(base: map<string, Json>, c: Credentials)
    ensures Query(Query(base, c), c) == Query(base, c)
  {
  }

  /** The alarms request re-sends the dictionary the events request updated. */
  lemma AlarmsReuseQuery(apiUrl: string, c: Credentials, startTime: int)
    ensures var gets := DataCalls(apiUrl, c, startTime);
            ApiGet(apiUrl + "alarms", Authorization(c), Query(gets[1].params, c)) == gets[2]
  {
    QueryIdempotent(map["start_time" := JInt(startTime)], c);
  }

  /** `Expected` spelled out in terms of its parts. */
  lemma ExpectedParts(w: World, apiUrl: string, t: TokenRun, overall: int, done: nat)
    requires Drive(Success, StageCodes(w, apiUrl, t.code)) == Verdict(overall, done)
    ensures var x := Expected(w, apiUrl, t);
            && x.attempted == done
            && x.run == if overall != Success then Completed(overall, None)
                        else if Formatted(w, apiUrl).None? then Raised
                        else Completed(Success, Formatted(w, apiUrl))
  {
  }

  class Enphase {
    const world: World
    const logger: Logger
    /** The collector's transaction handle, the parent of every span this object opens. */
    const transaction: Option<nat>
    /** The vendor API prefix, `ENPHASE_BASE_URL + ENPHASE_API_URL` with the system id filled in. */
    const apiUrl: string
    const namespace: string
    const secretName: string
    const refreshHours: int

    var apiKey: Option<string>
    var userId: Option<string>
    var clientSecret: Option<string>
    var accessToken: Option<string>
    var refreshToken: Option<string>

    function Creds(): Credentials
      reads this
    {
      Credentials(apiKey, userId, clientSecret, accessToken, refreshToken)
    }

    constructor (world: World, logger: Logger, transaction: Option<nat>, apiUrl: string,
                 namespace: string, secretName: string, refreshHours: int)
      ensures this.world == world && this.logger == logger && this.transaction == transaction
      ensures this.apiUrl == apiUrl && this.namespace == namespace
      ensures this.secretName == secretName && this.refreshHours == refreshHours
      ensures Creds() == Unset
    {
      this.world := world;
      this.logger := logger;
      this.transaction := transaction;
      this.apiUrl := apiUrl;
      this.namespace := namespace;
      this.secretName := secretName;
      this.refreshHours := refreshHours;
      apiKey, userId, clientSecret, accessToken, refreshToken := None, None, None, None, None;
    }

    /** `process()`: token load, then summary, events and alarms, then the formatted record. */
    method Process() returns (run: Run)
      modifies this, logger, world
      ensures var x := Expected(world, apiUrl, LoadAndRefresh(world, secretName, namespace, refreshHours, old(Creds())));
              && run == x.run
              && Creds() == x.creds
              && world.calls == old(world.calls) + x.calls
      ensures logger.issued >= old(logger.issued)
      ensures SpansAdded(old(logger.events), logger.events)
    {
      ghost var events0 := logger.events;
      ghost var calls0 := world.calls;
      ghost var before := Creds();
      var now := world.Now();
      var params := new JsonDict(map["start_time" := JInt(MidnightUtc(now))]);

      var code := LoadAndRefreshTokens();
      ghost var t := LoadAndRefresh(world, secretName, namespace, refreshHours, before);
      ghost var events1 := logger.events;
      ghost var calls1 := world.calls;
      var overall, summary, events, alarms := Gather(code, params, MidnightUtc(now));
      SpansAddedTrans(events0, events1, logger.events);
      ghost var v := Drive(Success, StageCodes(world, apiUrl, code));
      ExpectedParts(world, apiUrl, t, overall, v.attempted);
      ghost var x := Expected(world, apiUrl, t);
      ConcatAssoc(calls0, t.calls, DataCalls(apiUrl, t.creds, MidnightUtc(now))[..v.attempted - 1]);
      assert world.calls == calls0 + x.calls;
      var formatted: Option<Record> := None;
      if overall == 200 {
        var f := Format.FormatData(summary, events, alarms);
        if f.None? {
          run := Raised;
          return;
        }
        formatted := f;
      }
      run := Completed(overall, formatted);
    }

    /**
     * The three guarded API stages of `process()`, starting from the overall
     * code the token stage left: each stage runs only while that code is 200.
     */
    method Gather(tokenCode: int, params: JsonDict, ghost startTime: int)
      returns (overall: int, summary: Json, events: Json, alarms: Json)
      requires params.entries == map["start_time" := JInt(startTime)]
      modifies logger, world, params
      ensures var v := Drive(Success, StageCodes(world, apiUrl, tokenCode));
              && overall == v.overall
              && world.calls == old(world.calls) + DataCalls(apiUrl, Creds(), startTime)[..v.attempted - 1]
      ensures overall == Success ==>
                && summary == Body(world.Response(apiUrl + "summary"))
                && events == Body(world.Response(apiUrl + "events"))
                && alarms == Body(world.Response(apiUrl + "alarms"))
      ensures logger.issued >= old(logger.issued)
      ensures SpansAdded(old(logger.events), logger.events)
    {
      ghost var events0 := logger.events;
      ghost var base := world.calls;
      ghost var codes := StageCodes(world, apiUrl, tokenCode);
      ghost var c := Creds();
      ghost var gets := DataCalls(apiUrl, c, startTime);
      overall := 200;
      summary, events, alarms := JNull, JNull, JNull;
      ProgressStart(codes);
      if tokenCode > overall {
        overall := tokenCode;
      }
      ghost var done := 1;
      assert world.calls == base + gets[..done - 1];

      ghost var events1 := logger.events;
      overall, summary, done := Stage("summary", null, overall, summary, codes, gets, base, done);

      ghost var events2 := logger.events;
      assert "start_time" in params.entries;
      overall, events, done := Stage("events", params, overall, events, codes, gets, base, done);
      SpansAddedTrans(events0, events2, logger.events);

      ghost var events3 := logger.events;
      if overall == 200 {
        assert params.entries == gets[1].params;
        AlarmsReuseQuery(apiUrl, c, startTime);
      }
      overall, alarms, done := Stage("alarms", params, overall, alarms, codes, gets, base, done);
      SpansAddedTrans(events0, events3, logger.events);
      ProgressStop(codes, done, overall);
      assert Drive(Success, codes).attempted == done;
      assert gets == DataCalls(apiUrl, Creds(), startTime);
    }

    /**
     * One guarded stage of `process()`: `_call_api(api, params)` runs only
     * while the overall code is still 200, and the overall code becomes the
     * larger of the two. The ghost parameters place the stage in the run:
     * `done` stages of `codes` have been attempted so far, and the requests
     * issued since `base` are the first `done - 1` of `gets`.
     */
    method Stage(api: string, params: JsonDict?, overall: int, prior: Json,
                 ghost codes: seq<int>, ghost gets: seq<Call>, ghost base: seq<Call>, ghost done: nat)
      returns (next: int, body: Json, ghost attempted: nat)
      requires 1 <= done <= |gets| + 1 && Progress(codes, done, overall)
      requires world.calls == base + gets[..done - 1]
      requires overall == Success ==>
                 && done < |codes| && done <= |gets|
                 && codes[done] == StageCode(world.Response(apiUrl + api))
                 && gets[done - 1] == ApiGet(apiUrl + api, Authorization(Creds()),
                                             Query(if params == null then map[] else params.entries, Creds()))
      modifies logger, world, params
      ensures attempted == if overall == Success then done + 1 else done
      ensures 1 <= attempted <= |gets| + 1 && Progress(codes, attempted, next)
      ensures world.calls == base + gets[..attempted - 1]
      ensures overall != Success ==>
                && next == overall && body == prior
                && (params != null ==> params.entries == old(params.entries))
      ensures overall == Success ==>
                && body == Body(world.Response(apiUrl + api))
                && (params != null && old(params.entries) != map[] ==>
                      params.entries == Query(old(params.entries), Creds()))
      ensures Creds() == old(Creds())
      ensures logger.issued >= old(logger.issued)
      ensures SpansAdded(old(logger.events), logger.events)
    {
      next, body, attempted := overall, prior, done;
      if overall == 200 {
        ProgressStep(codes, done, overall);
        ghost var calls0 := world.calls;
        var code;
        code, body := CallApi(api, params);
        if code > next {
          next := code;
        }
        CallsStep(base, gets, done - 1, calls0, world.calls);
        attempted := done + 1;
      } else {
        SpansAddedNone(logger.events);
      }
    }

    /**
     * `_call_api(api, params)`: one authenticated GET of `apiUrl + api`. A
     * non-empty `params` dictionary is updated in place; a missing or empty
     * one is replaced by a fresh dictionary.
     */
    method CallApi(api: string, params: JsonDict?) returns (code: int, body: Json)
      modifies logger, world, params
      ensures var sent := Query(if params == null then map[] else old(params.entries), Creds());
              world.calls == old(world.calls) + [ApiGet(apiUrl + api, Authorization(Creds()), sent)]
      ensures code == StageCode(world.Response(apiUrl + api))
      ensures body == Body(world.Response(apiUrl + api))
      ensures params != null && old(params.entries) != map[] ==>
                params.entries == Query(old(params.entries), Creds())
      ensures params != null && old(params.entries) == map[] ==> params.entries == map[]
      ensures logger.issued == old(logger.issued) + 1
      ensures SpansAdded(old(logger.events), logger.events)
      ensures var span := old(logger.issued);
              logger.events ==
                old(logger.events)
                + [Event(SpanStart, span, transaction, "Enphase: " + api, JObject(map["url" := JStr(apiUrl + api)]), None)]
                + (if code == 500 then [Message(DataFailurePrefix + api, span)] else [])
                + [Event(SpanEnd, span, None, "", body, Some(code))]
    {
      ghost var events0 := logger.events;
      code := 200;
      body := JObject(map[]);
      var url := apiUrl + api;
      var span := logger.Start(SpanStart, transaction, "Enphase: " + api, JObject(map["url" := JStr(url)]));
      ghost var start := logger.events[|events0|];
      var response := Send(url, params);
      match response {
        case HttpOk(b) =>
          body := b;
        case HttpFailed =>
          code := 500;
          logger.Note(DataFailurePrefix + api, span);
      }
      logger.End(SpanEnd, span, body, code);
      ghost var added := [start] + (if code == 500 then [Message(DataFailurePrefix + api, span)] else [])
                         + [Event(SpanEnd, span, None, "", body, Some(code))];
      assert logger.events == events0 + added;
      SpansAddedBy(events0, added);
    }

    /**
     * The request inside `_call_api`'s `try` block: the bearer header and the
     * query with `key` and `user_id` set. A missing or empty `params` is
     * replaced by a fresh dictionary that no caller sees; a non-empty one is
     * updated in place before the request is sent.
     */
    method Send(url: string, params: JsonDict?) returns (response: HttpOutcome)
      modifies world, params
      ensures var sent := Query(if params == null then map[] else old(params.entries), Creds());
              world.calls == old(world.calls) + [ApiGet(url, Authorization(Creds()), sent)]
      ensures response == world.Response(url)
      ensures params != null && old(params.entries) != map[] ==>
                params.entries == Query(old(params.entries), Creds())
      ensures params != null && old(params.entries) == map[] ==> params.entries == map[]
    {
      var headers := Authorization(Creds());
      var query: Record := if params == null || params.entries == map[] then map[] else params.entries;
      query := query["key" := OfOption(apiKey)];
      query := query["user_id" := OfOption(userId)];
      if params != null && params.entries != map[] {
        params.entries := query;
      }
      response := world.Get(url, headers, query);
    }

    /** `_refresh_access_token()`: the new token pair, or `(None, None)` when the call fails. */
    method RefreshAccessToken() returns (access: Option<string>, refresh: Option<string>)
      modifies logger, world
      ensures world.calls == old(world.calls) + [TokenPost(userId, clientSecret, refreshToken)]
      ensures (access, refresh) == NewTokens(world.refresh)
      ensures logger.issued == old(logger.issued) + 1
      ensures SpansAdded(old(logger.events), logger.events)
      ensures var span := old(logger.issued);
              logger.events ==
                old(logger.events)
                + [Event(SpanStart, span, transaction, RefreshComponent, JObject(map[]), None)]
                + (if world.refresh.RefreshFailed? then [Message(RefreshFailure, span)] else [])
                + [Event(SpanEnd, span, None, "",
                         if world.refresh.RefreshFailed? then JObject(map["message" := JStr(RefreshFailure)])
                         else JObject(map[]),
                         Some(if world.refresh.RefreshFailed? then 500 else 200))]
    {
      ghost var events0 := logger.events;
      var span := logger.Start(SpanStart, transaction, RefreshComponent, JObject(map[]));
      ghost var events1 := logger.events;
      var outcome := world.PostToken(userId, clientSecret, refreshToken);
      match outcome {
        case Refreshed(a, r) =>
          access, refresh := a, r;
          logger.End(SpanEnd, span, JObject(map[]), 200);
        case RefreshFailed =>
          access, refresh := None, None;
          logger.Note(RefreshFailure, span);
          logger.End(SpanEnd, span, JObject(map["message" := JStr(RefreshFailure)]), 500);
      }
      SpansAddedBy(events0, logger.events[|events0|..]);
      assert events0 + logger.events[|events0|..] == logger.events;
    }

    /**
     * `_load_and_refresh_tokens()`: sets the credential fields from the secret
     * and, when the record is older than `refreshHours`, refreshes the token
     * pair and patches the secret.
     */
    method LoadAndRefreshTokens() returns (code: int)
      modifies this, logger, world
      ensures var t := LoadAndRefresh(world, secretName, namespace, refreshHours, old(Creds()));
              && code == t.code
              && Creds() == t.creds
              && world.calls == old(world.calls) + t.calls
      ensures logger.issued > old(logger.issued)
      ensures SpansAdded(old(logger.events), logger.events)
      ensures |logger.events| >= |old(logger.events)| + 2
      ensures var added := logger.events[|old(logger.events)|..];
              && added[0] == Event(SpanStart, old(logger.issued), transaction, ReadSecretComponent, JObject(map[]), None)
              && added[|added| - 1] ==
                   Event(SpanEnd, old(logger.issued), None, "",
                         if code == 500 then JObject(map["message" := JStr(SecretFailure)]) else JObject(map[]),
                         Some(code))
    {
      ghost var events0 := logger.events;
      var span := logger.Start(SpanStart, transaction, ReadSecretComponent, JObject(map[]));
      SpansAddedNone(events0);
      SpansAddedAppend(events0, events0, logger.events[|events0|..]);
      assert events0 + logger.events[|events0|..] == logger.events;
      ghost var events1 := logger.events;
      var failed := ReadAndRefresh();
      SpansAddedTrans(events0, events1, logger.events);
      ghost var events2 := logger.events;
      if failed {
        code := 500;
        logger.Note(SecretFailure, span);
        logger.End(SpanEnd, span, JObject(map["message" := JStr(SecretFailure)]), code);
      } else {
        code := 200;
        logger.End(SpanEnd, span, JObject(map[]), code);
      }
      SpansAddedAppend(events0, events2, logger.events[|events2|..]);
      assert events2 + logger.events[|events2|..] == logger.events;
    }

    /**
     * The stale branch of `_load_and_refresh_tokens()`: refresh the token
     * pair, overwrite both token fields with whatever came back (`None` after
     * a failed refresh), and patch the secret with the six fields.
     */
    method RefreshAndPatch(raw: map<string, Option<string>>, now: int) returns (ok: bool)
      modifies this, logger, world
      ensures var tokens := NewTokens(world.refresh);
              Creds() == old(Creds()).(accessToken := tokens.0, refreshToken := tokens.1)
      ensures world.calls == old(world.calls) +
                [TokenPost(old(userId), old(clientSecret), old(refreshToken)),
                 SecretPatch(secretName, namespace, raw, WriteBack(Creds(), world.formatIso(now)))]
      ensures ok == world.patchSucceeds
      ensures logger.issued >= old(logger.issued)
      ensures SpansAdded(old(logger.events), logger.events)
    {
      var newAccess, newRefresh := RefreshAccessToken();
      accessToken := newAccess;
      refreshToken := newRefresh;
      var stamp := world.formatIso(now);
      ok := world.PatchSecret(secretName, namespace, raw, WriteBack(Creds(), stamp));
    }

    /**
     * The `try` block of `_load_and_refresh_tokens()`: read and decode the
     * secret, set the five credentials, and refresh and write back when the
     * tokens are stale. `failed` is set where the source raises.
     */
    method ReadAndRefresh() returns (failed: bool)
      modifies this, logger, world
      ensures var t := LoadAndRefresh(world, secretName, namespace, refreshHours, old(Creds()));
              && failed == (t.code != Success)
              && Creds() == t.creds
              && world.calls == old(world.calls) + t.calls
      ensures logger.issued >= old(logger.issued)
      ensures SpansAdded(old(logger.events), logger.events)
    {
      ghost var events0 := logger.events;
      ghost var before := Creds();
      ghost var spec := LoadAndRefresh(world, secretName, namespace, refreshHours, before);
      ghost var calls0 := world.calls;
      SpansAddedNone(events0);
      failed := false;
      var secret := world.ReadSecret(secretName, namespace);
      assert world.calls == calls0 + spec.calls[..1];
      match secret {
        case StoreError =>
          failed := true;
          assert spec.calls == spec.calls[..1];
        case Found(data) =>
          if data.None? {
            failed := true;
            assert spec.calls == spec.calls[..1];
          } else {
            var decoded := DecodeSecret(data.value, world.base64Decode);
            assert decoded == DecodedSecret(world);
            if decoded.None? {
              failed := true;
              assert spec.calls == spec.calls[..1];
            } else {
              var d := decoded.value;
              apiKey := Field(d, "api_key");
              userId := Field(d, "user_id");
              clientSecret := Field(d, "client_secret");
              accessToken := Field(d, "access_token");
              refreshToken := Field(d, "refresh_token");
              var lastUpdated := Field(d, "last_updated");
              var parsed := if lastUpdated.None? then None else world.parseIso(lastUpdated.value);
              assert parsed == LastUpdated(world);
              if parsed.None? {
                failed := true;
                assert spec.calls == spec.calls[..1];
              } else {
                var now := world.Now();
                if Stale(parsed.value, now, refreshHours) {
                  ghost var c := CredentialsOf(d);
                  assert Creds() == c;
                  ghost var mid := world.calls;
                  ghost var events1 := logger.events;
                  var ok := RefreshAndPatch(data.value, now);
                  SpansAddedTrans(events0, events1, logger.events);
                  LoadStaleRefreshesAndPatches(world, secretName, namespace, refreshHours, before);
                  assert world.calls == calls0 + spec.calls;
                  if !ok {
                    failed := true;
                  }
                } else {
                  assert spec.calls == spec.calls[..1];
                }
              }
            }
          }
      }
    }
  }
}
