/**
 * Everything outside the collector process: the cluster secret store, the
 * vendor's OAuth and data endpoints, the local ingestion sink, the clock, and
 * the two library parsers (base64/UTF-8 and ISO-8601) whose internals are not
 * part of this model. A `World` fixes the outcome of every request for one run
 * and records, as a ghost trace, every request the collector issues.
 */
module Outside {
  import opened Wrappers
  import opened Json

  /** What `read_namespaced_secret` gives: a store error, or a secret whose `data` may be absent. */
  datatype SecretRead =
    | StoreError
    | Found(data: Option<map<string, Option<string>>>)

  /** A vendor GET: a 2xx response whose body parsed as JSON, or any failure. */
  datatype HttpOutcome = HttpOk(body: Json) | HttpFailed

  /**
   * The token endpoint: the `access_token` and `refresh_token` members of a
   * 2xx JSON response (absent members are `None`), or any failure.
   */
  datatype RefreshOutcome =
    | Refreshed(accessToken: Option<string>, refreshToken: Option<string>)
    | RefreshFailed

  /** One request the collector issues, with the parts of it the model tracks. */
  datatype Call =
    | SecretGet(name: string, namespace: string)
    | TokenPost(userId: Option<string>, clientSecret: Option<string>, refreshToken: Option<string>)
    | ApiGet(url: string, authorization: string, params: map<string, Json>)
    | SecretPatch(name: string, namespace: string, data: map<string, Option<string>>,
                  stringData: map<string, Option<string>>)
    | SinkPost(url: string, body: Record)

  class World {
    /** The clock, in whole epoch seconds (UTC). */
    const now: int
    const secret: SecretRead
    const refresh: RefreshOutcome
    const patchSucceeds: bool
    /** The outcome of a GET, by URL. A URL not listed fails. */
    const responses: map<string, HttpOutcome>
    const postSucceeds: bool
    /** `base64.b64decode(v).decode("utf-8")`; `None` when it raises. */
    const base64Decode: string -> Option<string>
    /**
     * The instant, in epoch seconds, of `datetime.fromisoformat(s.replace("Z", "+00:00"))`
     * when that can be subtracted from the aware UTC clock reading. `None` when
     * parsing raises, and also when the text carries no UTC offset: the result
     * is then a naive datetime, and the subtraction raises `TypeError`.
     */
    const parseIso: string -> Option<int>
    /** `datetime.isoformat()` of an instant given in epoch seconds. */
    const formatIso: int -> string

    /** The requests issued so far, oldest first. */
    ghost var calls: seq<Call>

    constructor (now: int, secret: SecretRead, refresh: RefreshOutcome, patchSucceeds: bool,
                 responses: map<string, HttpOutcome>, postSucceeds: bool,
                 base64Decode: string -> Option<string>, parseIso: string -> Option<int>,
                 formatIso: int -> string)
      ensures this.now == now && this.secret == secret && this.refresh == refresh
      ensures this.patchSucceeds == patchSucceeds && this.responses == responses
      ensures this.postSucceeds == postSucceeds && this.base64Decode == base64Decode
      ensures this.parseIso == parseIso && this.formatIso == formatIso
      ensures calls == []
    {
      this.now := now;
      this.secret := secret;
      this.refresh := refresh;
      this.patchSucceeds := patchSucceeds;
      this.responses := responses;
      this.postSucceeds := postSucceeds;
      this.base64Decode := base64Decode;
      this.parseIso := parseIso;
      this.formatIso := formatIso;
      calls := [];
    }

    function Response(url: string): HttpOutcome {
      if url in responses then responses[url] else HttpFailed
    }

    method Now() returns (t: int)
      ensures t == now
    {
      t := now;
    }

    method ReadSecret(name: string, namespace: string) returns (s: SecretRead)
      modifies this
      ensures s == secret
      ensures calls == old(calls) + [SecretGet(name, namespace)]
    {
      s := secret;
      calls := calls + [SecretGet(name, namespace)];
    }

    method PostToken(userId: Option<string>, clientSecret: Option<string>, refreshToken: Option<string>)
      returns (o: RefreshOutcome)
      modifies this
      ensures o == refresh
      ensures calls == old(calls) + [TokenPost(userId, clientSecret, refreshToken)]
    {
      o := refresh;
      calls := calls + [TokenPost(userId, clientSecret, refreshToken)];
    }

    method Get(url: string, authorization: string, params: map<string, Json>) returns (o: HttpOutcome)
      modifies this
      ensures o == Response(url)
      ensures calls == old(calls) + [ApiGet(url, authorization, params)]
    {
      o := Response(url);
      calls := calls + [ApiGet(url, authorization, params)];
    }

    method PatchSecret(name: string, namespace: string, data: map<string, Option<string>>,
                       stringData: map<string, Option<string>>) returns (ok: bool)
      modifies this
      ensures ok == patchSucceeds
      ensures calls == old(calls) + [SecretPatch(name, namespace, data, stringData)]
    {
      ok := patchSucceeds;
      calls := calls + [SecretPatch(name, namespace, data, stringData)];
    }

    method PostLocal(url: string, body: Record) returns (ok: bool)
      modifies this
      ensures ok == postSucceeds
      ensures calls == old(calls) + [SinkPost(url, body)]
    {
      ok := postSucceeds;
      calls := calls + [SinkPost(url, body)];
    }
  }
}
