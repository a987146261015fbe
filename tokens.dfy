/**
 * The token lifecycle of `Enphase._load_and_refresh_tokens` as a function of
 * the world: read the secret, decode it into the credential fields, decide
 * staleness from `last_updated`, and when stale refresh the token pair and
 * write the six-field record back.
 */
module Tokens {
  import opened Wrappers
  import opened Outside

  /** The credential fields of an `Enphase` object. */
  datatype Credentials = Credentials(
    apiKey: Option<string>,
    userId: Option<string>,
    clientSecret: Option<string>,
    accessToken: Option<string>,
    refreshToken: Option<string>)

  /** The fields as the constructor leaves them. */
  const Unset := Credentials(None, None, None, None, None)

  const SecondsPerHour := 3600

  /**
   * `Enphase._decode`: a falsy value (absent or empty) is `None`; any other
   * value is base64-decoded, and a decoding failure raises (outer `None`).
   */
  function Decode(value: Option<string>, base64Decode: string -> Option<string>): (r: Option<Option<string>>)
    ensures value == None || value == Some("") ==> r == Some(None)
    ensures value.Some? && value.value != "" ==> (r.Some? <==> base64Decode(value.value).Some?)
    ensures value.Some? && value.value != "" && r.Some? ==> r.value == base64Decode(value.value)
  {
    match value
    case None => Some(None)
    case Some(v) =>
      if v == "" then Some(None)
      else (
        match base64Decode(v)
        case None => None
        case Some(text) => Some(Some(text)))
  }

  /** `{k: Enphase._decode(v) for k, v in secret.data.items()}`; raises if any value fails. */
  function DecodeSecret(data: map<string, Option<string>>, base64Decode: string -> Option<string>)
    : (r: Option<map<string, Option<string>>>)
    ensures r.Some? <==> forall k :: k in data ==> Decode(data[k], base64Decode).Some?
    ensures r.Some? ==> r.value.Keys == data.Keys
    ensures r.Some? ==> forall k :: k in data ==> r.value[k] == Decode(data[k], base64Decode).value
  {
    if forall k :: k in data ==> Decode(data[k], base64Decode).Some? then
      Some(map k | k in data :: Decode(data[k], base64Decode).value)
    else
      None
  }

  /** `data.get(key)`. */
  function Field(decoded: map<string, Option<string>>, key: string): Option<string> {
    if key in decoded then decoded[key] else None
  }

  /** The credential fields as set from the decoded secret. */
  function CredentialsOf(decoded: map<string, Option<string>>): (c: Credentials)
    ensures c.apiKey == if "api_key" in decoded then decoded["api_key"] else None
    ensures c.userId == if "user_id" in decoded then decoded["user_id"] else None
    ensures c.clientSecret == if "client_secret" in decoded then decoded["client_secret"] else None
    ensures c.accessToken == if "access_token" in decoded then decoded["access_token"] else None
    ensures c.refreshToken == if "refresh_token" in decoded then decoded["refresh_token"] else None
  {
    Credentials(Field(decoded, "api_key"), Field(decoded, "user_id"), Field(decoded, "client_secret"),
                Field(decoded, "access_token"), Field(decoded, "refresh_token"))
  }

  /**
   * `age_hours > refresh_hours` with `age_hours = seconds / 3600` taken as an
   * exact quotient: the same as comparing whole seconds with the threshold in
   * seconds.
   */
  function Stale(lastUpdated: int, now: int, refreshHours: int): (r: bool)
    ensures r <==> now - lastUpdated > refreshHours * SecondsPerHour
  {
    ((now - lastUpdated) as real) / (SecondsPerHour as real) > refreshHours as real
  }

  /**
   * The comparison is strict: a record exactly `refreshHours` old is still
   * used, one an hour older is refreshed.
   */
  lemma StaleBoundary(now: int, refreshHours: int)
    ensures !Stale(now - refreshHours * SecondsPerHour, now, refreshHours)
    ensures Stale(now - (refreshHours + 1) * SecondsPerHour, now, refreshHours)
  {
  }

  /** The token pair `_refresh_access_token` returns: `(None, None)` when the call failed. */
  function NewTokens(o: RefreshOutcome): (r: (Option<string>, Option<string>))
    ensures o.RefreshFailed? ==> r == (None, None)
    ensures o.Refreshed? ==> r.0 == o.accessToken && r.1 == o.refreshToken
  {
    match o
    case Refreshed(access, refresh) => (access, refresh)
    case RefreshFailed => (None, None)
  }

  const WriteBackKeys: set<string> :=
    {"api_key", "user_id", "client_secret", "access_token", "refresh_token", "last_updated"}

  /** `secret.string_data` as rebuilt before the patch. */
  function WriteBack(c: Credentials, lastUpdated: string): (r: map<string, Option<string>>)
    ensures r.Keys == WriteBackKeys
    ensures r["api_key"] == c.apiKey && r["user_id"] == c.userId && r["client_secret"] == c.clientSecret
    ensures r["access_token"] == c.accessToken && r["refresh_token"] == c.refreshToken
    ensures r["last_updated"] == Some(lastUpdated)
  {
    map["api_key" := c.apiKey, "user_id" := c.userId, "client_secret" := c.clientSecret,
        "access_token" := c.accessToken, "refresh_token" := c.refreshToken,
        "last_updated" := Some(lastUpdated)]
  }

  /** The decoded secret, if it was read, carried data and every value decoded. */
  function DecodedSecret(w: World): Option<map<string, Option<string>>> {
    match w.secret
    case StoreError => None
    case Found(data) =>
      match data
      case None => None
      case Some(raw) => DecodeSecret(raw, w.base64Decode)
  }

  /**
   * The parsed `last_updated` instant, if the secret got that far and the text
   * parses to an instant with a UTC offset (`World.parseIso`).
   */
  function LastUpdated(w: World): Option<int> {
    match DecodedSecret(w)
    case None => None
    case Some(decoded) =>
      match Field(decoded, "last_updated")
      case None => None
      case Some(text) => w.parseIso(text)
  }

  /** What one call of `_load_and_refresh_tokens` does. */
  datatype TokenRun = TokenRun(code: int, creds: Credentials, calls: seq<Call>)

  /**
   * The outcome of `_load_and_refresh_tokens` on world `w` for an object whose
   * credential fields were `before`.
   */
  function LoadAndRefresh(w: World, name: string, namespace: string, refreshHours: int, before: Credentials)
    : (r: TokenRun)
    ensures r.code == 200 || r.code == 500
    ensures |r.calls| >= 1 && r.calls[0] == SecretGet(name, namespace)
  {
    var read := [SecretGet(name, namespace)];
    match w.secret
    case StoreError => TokenRun(500, before, read)
    case Found(data) =>
      match data
      case None => TokenRun(500, before, read)
      case Some(raw) =>
        match DecodeSecret(raw, w.base64Decode)
        case None => TokenRun(500, before, read)
        case Some(decoded) =>
          var c := CredentialsOf(decoded);
          match Field(decoded, "last_updated")
          case None => TokenRun(500, c, read)
          case Some(text) =>
            match w.parseIso(text)
            case None => TokenRun(500, c, read)
            case Some(t) =>
              if !Stale(t, w.now, refreshHours) then TokenRun(200, c, read)
              else
                var tokens := NewTokens(w.refresh);
                var refreshed := c.(accessToken := tokens.0, refreshToken := tokens.1);
                var patch := SecretPatch(name, namespace, raw, WriteBack(refreshed, w.formatIso(w.now)));
                TokenRun(if w.patchSucceeds then 200 else 500, refreshed,
                         read + [TokenPost(c.userId, c.clientSecret, c.refreshToken), patch])
  }

  /** Nothing decoded: the fields keep their old values and nothing else is requested. */
  lemma LoadWithoutSecretFails(w: World, name: string, namespace: string, refreshHours: int, before: Credentials)
    requires DecodedSecret(w).None?
    ensures LoadAndRefresh(w, name, namespace, refreshHours, before) ==
              TokenRun(500, before, [SecretGet(name, namespace)])
  {
  }

  /** Decoded: the fields are set from the secret before `last_updated` is examined. */
  lemma LoadSetsFieldsFromSecret(w: World, name: string, namespace: string, refreshHours: int, before: Credentials)
    requires DecodedSecret(w).Some?
    ensures var r := LoadAndRefresh(w, name, namespace, refreshHours, before);
            var c := CredentialsOf(DecodedSecret(w).value);
            r.creds.apiKey == c.apiKey && r.creds.userId == c.userId && r.creds.clientSecret == c.clientSecret
  {
  }

  /**
   * Missing `last_updated`, or text that does not parse or carries no UTC offset
   * (so the age cannot be computed): failure, no refresh, no patch.
   */
  lemma LoadWithoutTimestampFails(w: World, name: string, namespace: string, refreshHours: int,
                                  before: Credentials)
    requires DecodedSecret(w).Some? && LastUpdated(w).None?
    ensures LoadAndRefresh(w, name, namespace, refreshHours, before) ==
              TokenRun(500, CredentialsOf(DecodedSecret(w).value), [SecretGet(name, namespace)])
  {
  }

  /** Fresh enough: success, no refresh, no patch. */
  lemma LoadFreshSkipsRefresh(w: World, name: string, namespace: string, refreshHours: int, before: Credentials)
    requires LastUpdated(w).Some? && !Stale(LastUpdated(w).value, w.now, refreshHours)
    ensures LoadAndRefresh(w, name, namespace, refreshHours, before) ==
              TokenRun(200, CredentialsOf(DecodedSecret(w).value), [SecretGet(name, namespace)])
  {
  }

  /** Stale: exactly one refresh, then one patch; the refresh outcome never decides the code. */
  lemma LoadStaleRefreshesAndPatches(w: World, name: string, namespace: string, refreshHours: int,
                                     before: Credentials)
    requires LastUpdated(w).Some? && Stale(LastUpdated(w).value, w.now, refreshHours)
    ensures var r := LoadAndRefresh(w, name, namespace, refreshHours, before);
            var c := CredentialsOf(DecodedSecret(w).value);
            var tokens := NewTokens(w.refresh);
            && r.creds == c.(accessToken := tokens.0, refreshToken := tokens.1)
            && r.calls == [SecretGet(name, namespace),
                           TokenPost(c.userId, c.clientSecret, c.refreshToken),
                           SecretPatch(name, namespace, w.secret.data.value,
                                       WriteBack(r.creds, w.formatIso(w.now)))]
            && r.code == if w.patchSucceeds then 200 else 500
  {
  }

  /**
   * A failed refresh is not reported: both tokens are overwritten with `None`,
   * the secret is still patched with them, and the load succeeds when the patch
   * does.
   */
  lemma FailedRefreshStillWritesBack(w: World, name: string, namespace: string, refreshHours: int,
                                     before: Credentials)
    requires LastUpdated(w).Some? && Stale(LastUpdated(w).value, w.now, refreshHours)
    requires w.refresh == RefreshFailed
    ensures var r := LoadAndRefresh(w, name, namespace, refreshHours, before);
            && r.creds.accessToken == None && r.creds.refreshToken == None
            && r.calls[2].SecretPatch?
            && r.calls[2].stringData["access_token"] == None
            && r.calls[2].stringData["refresh_token"] == None
            && (w.patchSucceeds ==> r.code == 200)
  {
  }
}
