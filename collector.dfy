/**
 * The entry point of `src/enphase-collector.py`: one transaction per run that
 * drives the vendor client and, when it succeeds, forwards the record to the
 * local sink inside a span of its own.
 */
module CollectorPipeline {
  import opened Wrappers
  import opened Json
  import opened Outside
  import opened Logging
  import opened Tokens
  import opened Stages
  import opened EnphaseClient

  const InsertComponent := "enphase: Local Insert"
  const EnphaseFailure := "Issue calling Enphase"
  const InsertFailure := "Exception inserting Enphase data locally"

  /** The transaction payload once `payload['return_code'] = 200` has run on an empty dictionary. */
  const InitialPayload: Record := map["return_code" := JInt(200)]

  /** The payload after `_load_data`, for a sink post that succeeded (`posted`) or raised. */
  function AfterInsert(p: Record, posted: bool): (r: Record)
    ensures posted ==> r.Keys == p.Keys + {"return_code", "inserted"} && r["inserted"] == JInt(1)
    ensures !posted ==> r.Keys == p.Keys + {"return_code", "message"} && r["message"] == JStr(InsertFailure)
    ensures "return_code" in r && r["return_code"] == JInt(if posted then 200 else 500)
    ensures forall k :: k in p && k != "return_code" && (posted ==> k != "inserted") && (!posted ==> k != "message") ==>
              r[k] == p[k]
  {
    var started := p["return_code" := JInt(200)];
    if posted then started["inserted" := JInt(1)]
    else started["return_code" := JInt(500)]["message" := JStr(InsertFailure)]
  }

  /** The payload after the vendor client reported a failure. */
  function AfterEnphaseFailure(p: Record): (r: Record)
    ensures r.Keys == p.Keys + {"return_code", "message"}
    ensures r["return_code"] == JInt(500) && r["message"] == JStr(EnphaseFailure)
    ensures forall k :: k in p && k != "message" && k != "return_code" ==> r[k] == p[k]
  {
    p["message" := JStr(EnphaseFailure)]["return_code" := JInt(500)]
  }

  /**
   * The `TRANSACTION_END` payload and return code of a run whose vendor
   * client returned `enphaseCode` and whose sink post succeeded or not:
   * `return_code` is read and popped before the event is written.
   */
  function Closing(enphaseCode: int, posted: bool): (r: (Record, int))
    ensures r.1 == 200 <==> enphaseCode == 200 && posted
    ensures r.1 == 200 || r.1 == 500
    ensures "return_code" !in r.0
    ensures r.0 == if enphaseCode != 200 then map["message" := JStr(EnphaseFailure)]
                   else if posted then map["inserted" := JInt(1)]
                   else map["message" := JStr(InsertFailure)]
  {
    var p := if enphaseCode == 200 then AfterInsert(InitialPayload, posted) else AfterEnphaseFailure(InitialPayload);
    (p - {"return_code"}, p["return_code"].i)
  }

  /** The `TRANSACTION_END` entry that closes transaction `handle`, carrying the `Closing` payload and code. */
  function Closed(handle: nat, enphaseCode: int, posted: bool): LogEntry {
    var closing := Closing(enphaseCode, posted);
    Event(TransactionEnd, handle, None, "", JObject(closing.0), Some(closing.1))
  }

  /** `events` is `since` followed by span entries and then the `TRANSACTION_END` entry `Closed(handle, enphaseCode, posted)`. */
  predicate Closes(since: seq<LogEntry>, events: seq<LogEntry>, handle: nat, enphaseCode: int, posted: bool) {
    |events| > 0 && SpansAdded(since, events[..|events| - 1]) && events[|events| - 1] == Closed(handle, enphaseCode, posted)
  }

  /** The request forwarded to the sink: the record, exactly when the vendor run returned 200 with one. */
  function Forwarded(run: Run, url: string): (r: seq<Call>)
    ensures |r| <= 1
    ensures |r| == 1 <==> run.Completed? && run.code == 200 && run.data.Some?
    ensures |r| == 1 ==> r[0] == SinkPost(url, run.data.value)
  {
    if run.Completed? && run.code == 200 && run.data.Some? then [SinkPost(url, run.data.value)] else []
  }

  /** The vendor run: its token stage from fresh credentials, then its data stages. */
  function Vendor(w: World, apiUrl: string): (x: Expectation)
    // The object reads the secret "enphase-tokens" in namespace "collector" first.
    ensures |x.calls| >= 1 && x.calls[0] == SecretGet("enphase-tokens", "collector")
  {
    Expected(w, apiUrl, LoadAndRefresh(w, DefaultSecretName, DefaultNamespace, DefaultRefreshHours, Unset))
  }

  /**
   * Without a decoded secret the fresh object keeps no credentials, reports
   * 500 without a record, and issues nothing after the secret read.
   */
  lemma VendorWithoutSecretStops(w: World, apiUrl: string)
    requires DecodedSecret(w).None?
    ensures var x := Vendor(w, apiUrl);
            && x.creds == Unset && x.run == Completed(500, None)
            && x.calls == [SecretGet("enphase-tokens", "collector")]
  {
    var t := LoadAndRefresh(w, DefaultSecretName, DefaultNamespace, DefaultRefreshHours, Unset);
    LoadWithoutSecretFails(w, DefaultSecretName, DefaultNamespace, DefaultRefreshHours, Unset);
    var codes := StageCodes(w, apiUrl, t.code);
    var v := Drive(Success, codes);
    assert codes[..1] == [codes[0]] && codes[..1][..0] == [];
    assert MaxFrom(Success, codes[..1]) == 500;
    ExpectedParts(w, apiUrl, t, v.overall, v.attempted);
  }

  /** The collector forwards a record exactly when the vendor run reported 200. */
  lemma ForwardsIffVendorSucceeds(w: World, apiUrl: string, url: string)
    ensures var run := Vendor(w, apiUrl).run;
            |Forwarded(run, url)| == 1 <==> run.Completed? && run.code == 200
  {
    ExpectedRecordIsFormatted(w, apiUrl, LoadAndRefresh(w, DefaultSecretName, DefaultNamespace, DefaultRefreshHours, Unset));
  }

  class EnphaseCollector {
    const world: World
    const logger: Logger
    /** `LOCAL_API_BASE_URL`, where records are posted. */
    const localApiBaseUrl: string
    /** The vendor API prefix handed to each `Enphase` object. */
    const enphaseApiUrl: string
    /** The handle of the current transaction; `None` until `process()` opens one. */
    var transaction: Option<nat>

    constructor (world: World, localApiBaseUrl: string, enphaseApiUrl: string)
      ensures this.world == world && this.localApiBaseUrl == localApiBaseUrl
      ensures this.enphaseApiUrl == enphaseApiUrl
      ensures transaction == None && fresh(logger)
      ensures logger.issued == 0 && logger.events == []
    {
      this.world := world;
      this.localApiBaseUrl := localApiBaseUrl;
      this.enphaseApiUrl := enphaseApiUrl;
      transaction := None;
      logger := new Logger();
    }

    /**
     * `_load_data(data, payload)`: post the record inside one span. The
     * payload dictionary is the caller's and is updated in place.
     */
    method LoadData(data: Record, payload: JsonDict)
      modifies logger, world, payload
      ensures payload.entries == AfterInsert(old(payload.entries), world.postSucceeds)
      ensures world.calls == old(world.calls) + [SinkPost(localApiBaseUrl, data)]
      ensures logger.issued == old(logger.issued) + 1
      ensures var span := old(logger.issued);
              logger.events ==
                old(logger.events)
                + [Event(SpanStart, span, transaction, InsertComponent,
                         JObject(old(payload.entries)["return_code" := JInt(200)]), None)]
                + (if world.postSucceeds then [] else [Message(InsertFailure, span)])
                + [Event(SpanEnd, span, None, "", JObject(payload.entries),
                         Some(if world.postSucceeds then 200 else 500))]
      ensures SpansAdded(old(logger.events), logger.events)
    {
      ghost var events0 := logger.events;
      payload.entries := payload.entries["return_code" := JInt(200)];
      var span := logger.Start(SpanStart, transaction, InsertComponent, JObject(payload.entries));
      ghost var start := logger.events[|events0|];
      var ok := world.PostLocal(localApiBaseUrl, data);
      var code := 200;
      if ok {
        payload.entries := payload.entries["inserted" := JInt(1)];
      } else {
        code := 500;
        payload.entries := payload.entries["return_code" := JInt(500)];
        payload.entries := payload.entries["message" := JStr(InsertFailure)];
        logger.Note(InsertFailure, span);
      }
      logger.End(SpanEnd, span, JObject(payload.entries), code);
      ghost var added := [start] + (if ok then [] else [Message(InsertFailure, span)])
                         + [Event(SpanEnd, span, None, "", JObject(payload.entries), Some(code))];
      assert logger.events == events0 + added;
      SpansAddedBy(events0, added);
    }

    /**
     * `process()`: open the transaction, run the vendor client, forward its
     * record when it returned 200, and close the transaction. When the
     * formatter raises, the exception leaves `process()` and no
     * `TRANSACTION_END` is written.
     */
    method Process() returns (raised: bool)
      modifies this, logger, world
      ensures var x := Vendor(world, enphaseApiUrl);
              && raised == x.run.Raised?
              && world.calls == old(world.calls) + x.calls + Forwarded(x.run, localApiBaseUrl)
      ensures transaction == Some(old(logger.issued))
      ensures Transaction(old(logger.events), logger.events,
                          Event(TransactionStart, old(logger.issued), None, "", JNull, None), !raised)
      ensures !raised ==>
                logger.events[|logger.events| - 1] ==
                  Closed(old(logger.issued), Vendor(world, enphaseApiUrl).run.code, world.postSucceeds)
    {
      ghost var start := Event(TransactionStart, logger.issued, None, "", JNull, None);
      ghost var events0 := logger.events;
      var payload := new JsonDict(map[]);
      var handle := Open();
      payload.entries := payload.entries["return_code" := JInt(200)];
      assert logger.events == events0 + [start];
      ghost var run;
      raised, run := Continue(payload, handle);
      TransactionOf(events0, start, logger.events, !raised);
    }

    /**
     * `process()` after `TRANSACTION_START`: run the vendor client, then
     * forward its record when it returned 200, and close the transaction.
     */
    method Continue(payload: JsonDict, handle: nat) returns (raised: bool, ghost run: Run)
      requires transaction.Some? && payload.entries == InitialPayload
      modifies logger, world, payload
      ensures run == Vendor(world, enphaseApiUrl).run
      ensures raised == run.Raised?
      ensures world.calls == old(world.calls) + Vendor(world, enphaseApiUrl).calls + Forwarded(run, localApiBaseUrl)
      ensures raised ==> SpansAdded(old(logger.events), logger.events)
      ensures !raised ==> Closes(old(logger.events), logger.events, handle, run.code, world.postSucceeds)
    {
      ghost var events1 := logger.events;
      var vendor := RunVendor();
      run := vendor;
      raised := vendor.Raised?;
      if !raised {
        Finish(vendor, payload, handle, events1);
      }
    }

    /** The `TRANSACTION_START` of `process()`, whose handle every later event points back to. */
    method Open() returns (handle: nat)
      modifies this, logger
      ensures handle == old(logger.issued) && transaction == Some(handle)
      ensures logger.issued == old(logger.issued) + 1
      ensures logger.events == old(logger.events) + [Event(TransactionStart, handle, None, "", JNull, None)]
    {
      handle := logger.Start(TransactionStart, None, "", JNull);
      transaction := Some(handle);
    }

    /**
     * `Enphase(transaction=...).process()`: a fresh vendor client, so its
     * credentials start unset, sharing this object's logger and transaction.
     */
    method RunVendor() returns (run: Run)
      requires transaction.Some?
      modifies logger, world
      ensures var x := Vendor(world, enphaseApiUrl);
              && run == x.run
              && world.calls == old(world.calls) + x.calls
              && (run.Completed? && run.code == 200 ==> run.data.Some?)
      ensures SpansAdded(old(logger.events), logger.events)
    {
      var enphase := new Enphase(world, logger, transaction, enphaseApiUrl,
                                 DefaultNamespace, DefaultSecretName, DefaultRefreshHours);
      run := enphase.Process();
      ExpectedRecordIsFormatted(world, enphaseApiUrl,
                                LoadAndRefresh(world, DefaultSecretName, DefaultNamespace, DefaultRefreshHours, Unset));
    }

    /**
     * The rest of `process()` once the vendor client has returned: forward
     * the record or mark the failure, pop `return_code`, and close the
     * transaction with it.
     */
    method Finish(run: Run, payload: JsonDict, handle: nat, ghost since: seq<LogEntry>)
      requires run.Completed? && (run.code == 200 ==> run.data.Some?)
      requires SpansAdded(since, logger.events)
      requires payload.entries == InitialPayload
      modifies logger, world, payload
      ensures world.calls == old(world.calls) + Forwarded(run, localApiBaseUrl)
      ensures Closes(since, logger.events, handle, run.code, world.postSucceeds)
    {
      ghost var events0 := logger.events;
      if run.code == 200 {
        LoadData(run.data.value, payload);
      } else {
        payload.entries := payload.entries["message" := JStr(EnphaseFailure)];
        payload.entries := payload.entries["return_code" := JInt(500)];
        SpansAddedNone(events0);
      }
      var code := payload.entries["return_code"].i;
      payload.entries := payload.entries - {"return_code"};
      ghost var events1 := logger.events;
      logger.End(TransactionEnd, handle, JObject(payload.entries), code);
      assert logger.events[..|logger.events| - 1] == events1;
      SpansAddedTrans(since, events0, events1);
    }
  }

}
