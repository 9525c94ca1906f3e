/** The courier API client (`CourierApiService`): per-courier credentials, endpoint paths,
    a time-to-live cache of GET responses, a bounded retry loop with linear backoff that
    re-authenticates on HTTP 401, and the mock tracking data the polling hook consumes.

    The network, the clock and the timers are parameters: `now` is the instant of a cache
    lookup, and the replies of the courier's server are scripted by call number
    (`fetchAt(k)` answers the k-th data request, `authAt(k)` the k-th login request). */
module CourierApi {
  import opened Wrappers
  import opened Text

  const RetryAttempts: nat := 3
  /** Milliseconds; the wait after the n-th failed attempt is `RetryDelay * n`. */
  const RetryDelay: nat := 1000
  /** Five minutes, in milliseconds. */
  const CacheExpiry: int := 5 * 60 * 1000
  /** The period of the background cache sweep (ten minutes), in milliseconds. */
  const CleanInterval: nat := 10 * 60 * 1000
  const DefaultBaseUrl: string := "https://api.courier.example.com"

  // ---------------------------------------------------------------------------------------
  // Configuration

  /** The build-time environment (`import.meta.env`); a name that is absent is `undefined`. */
  type Env = map<string, string>

  function EnvVar(env: Env, name: string): Option<string> {
    if name in env then Some(env[name]) else None
  }

  /** JavaScript truthiness of a string that may be `undefined`. */
  predicate Truthy(v: Option<string>) {
    v.Some? && v.value != ""
  }

  /** JavaScript's `v || w`. */
  function OrElse(v: Option<string>, w: Option<string>): (r: Option<string>)
    ensures Truthy(v) ==> r == v
    ensures !Truthy(v) ==> r == w
  {
    if Truthy(v) then v else w
  }

  /** The environment-variable stem of each courier the client knows by name. */
  function CourierStem(courier: Option<string>): Option<string> {
    if courier == Some("J&T Express") then Some("JT_EXPRESS")
    else if courier == Some("LBC") then Some("LBC")
    else if courier == Some("Ninja Van") then Some("NINJA_VAN")
    else if courier == Some("GrabExpress") then Some("GRAB_EXPRESS")
    else None
  }

  datatype CredentialKind = ApiKey | ClientId | ClientSecret

  function VarSuffix(kind: CredentialKind): string {
    match kind
    case ApiKey => "_API_KEY"
    case ClientId => "_CLIENT_ID"
    case ClientSecret => "_CLIENT_SECRET"
  }

  /** The generic variable every courier falls back to, e.g. `VITE_COURIER_API_KEY`. */
  function GenericVar(kind: CredentialKind): string {
    "VITE_COURIER" + VarSuffix(kind)
  }

  /** `_getCourierApiKey`, `_getCourierClientId`, `_getCourierClientSecret`: a known courier
      uses its own variable when that is set to a non-empty value; any other courier, and a
      known courier whose variable is unset or empty, gets the generic variable. */
  function Credential(env: Env, courier: Option<string>, kind: CredentialKind): (r: Option<string>)
    ensures CourierStem(courier).None? ==> r == EnvVar(env, GenericVar(kind))
    ensures CourierStem(courier).Some? ==>
      var own := EnvVar(env, "VITE_" + CourierStem(courier).value + VarSuffix(kind));
      r == if Truthy(own) then own else EnvVar(env, GenericVar(kind))
  {
    var generic := EnvVar(env, GenericVar(kind));
    match CourierStem(courier)
    case None => generic
    case Some(stem) => OrElse(EnvVar(env, "VITE_" + stem + VarSuffix(kind)), generic)
  }

  /** Each of the four known couriers reads its own variables. */
  lemma KnownCouriersHaveOwnVariables(env: Env, kind: CredentialKind)
    ensures Credential(env, Some("J&T Express"), kind)
      == OrElse(EnvVar(env, "VITE_JT_EXPRESS" + VarSuffix(kind)), EnvVar(env, GenericVar(kind)))
    ensures Credential(env, Some("LBC"), kind)
      == OrElse(EnvVar(env, "VITE_LBC" + VarSuffix(kind)), EnvVar(env, GenericVar(kind)))
    ensures Credential(env, Some("Ninja Van"), kind)
      == OrElse(EnvVar(env, "VITE_NINJA_VAN" + VarSuffix(kind)), EnvVar(env, GenericVar(kind)))
    ensures Credential(env, Some("GrabExpress"), kind)
      == OrElse(EnvVar(env, "VITE_GRAB_EXPRESS" + VarSuffix(kind)), EnvVar(env, GenericVar(kind)))
  {
    assert "VITE_" + "JT_EXPRESS" == "VITE_JT_EXPRESS";
    assert "VITE_" + "LBC" == "VITE_LBC";
    assert "VITE_" + "NINJA_VAN" == "VITE_NINJA_VAN";
    assert "VITE_" + "GRAB_EXPRESS" == "VITE_GRAB_EXPRESS";
  }

  /** No two known couriers share a variable stem. */
  lemma CourierStemsDistinct(c1: Option<string>, c2: Option<string>)
    requires CourierStem(c1).Some? && CourierStem(c2).Some? && c1 != c2
    ensures CourierStem(c1) != CourierStem(c2)
  {
  }

  /** The login request `authenticate()` sends. Its body carries the GENERIC client id and
      secret, not the per-courier ones the constructor resolved; only the API-key header is
      per courier. */
  datatype AuthRequest = AuthRequest(url: string, apiKeyHeader: Option<string>,
                                     clientId: Option<string>, clientSecret: Option<string>)

  function BaseUrl(env: Env): string {
    OrElse(EnvVar(env, "VITE_COURIER_API_URL"), Some(DefaultBaseUrl)).value
  }

  function LoginRequest(env: Env, courier: Option<string>): (r: AuthRequest)
    ensures r.url == BaseUrl(env) + "/auth/login"
    ensures r.apiKeyHeader == Credential(env, courier, ApiKey)
    ensures r.clientId == EnvVar(env, GenericVar(ClientId)) && r.clientSecret == EnvVar(env, GenericVar(ClientSecret))
  {
    AuthRequest(BaseUrl(env) + "/auth/login", Credential(env, courier, ApiKey),
                EnvVar(env, GenericVar(ClientId)), EnvVar(env, GenericVar(ClientSecret)))
  }

  /** The client id a courier's client resolves is not the one its login sends: with
      `VITE_LBC_CLIENT_ID` and `VITE_COURIER_CLIENT_ID` both set, the LBC client holds the
      former and logs in with the latter. */
  lemma LoginIgnoresCourierClientId()
    ensures var env := map["VITE_LBC_CLIENT_ID" := "lbc-id", "VITE_COURIER_CLIENT_ID" := "generic-id"];
      && Credential(env, Some("LBC"), ClientId) == Some("lbc-id")
      && LoginRequest(env, Some("LBC")).clientId == Some("generic-id")
  {
    var env := map["VITE_LBC_CLIENT_ID" := "lbc-id", "VITE_COURIER_CLIENT_ID" := "generic-id"];
    assert "VITE_" + "LBC" + VarSuffix(ClientId) == "VITE_LBC_CLIENT_ID";
    assert GenericVar(ClientId) == "VITE_COURIER_CLIENT_ID";
    assert "VITE_LBC_CLIENT_ID" != "VITE_COURIER_CLIENT_ID";
  }

  // ---------------------------------------------------------------------------------------
  // Endpoints and cache keys

  function TrackingPath(trackingNumber: string): string {
    "/tracking/" + trackingNumber
  }

  function LocationPath(trackingNumber: string): string {
    "/tracking/" + trackingNumber + "/location"
  }

  function RoutePath(trackingNumber: string): string {
    "/tracking/" + trackingNumber + "/route"
  }

  /** `getStatusUpdates`: `since` is appended only when it is truthy, so a `since` of 0 is
      dropped like a missing one. */
  function UpdatesPath(trackingNumber: string, since: Option<nat>): (r: string)
    ensures since.None? || since == Some(0) ==> r == "/tracking/" + trackingNumber + "/updates"
    ensures since.Some? && since.value != 0 ==>
      r == "/tracking/" + trackingNumber + "/updates?since=" + NatToString(since.value)
  {
    var params := if since.Some? && since.value != 0 then "?since=" + NatToString(since.value) else "";
    "/tracking/" + trackingNumber + "/updates" + params
  }

  /** The `options` argument of `_makeRequest`; only its `method` (here `verb`) matters to the model. */
  datatype RequestOptions = RequestOptions(verb: Option<string>)

  const NoOptions: RequestOptions := RequestOptions(None)

  /** `JSON.stringify(options)` (string escaping is not modelled). */
  function OptionsJson(options: RequestOptions): string {
    match options.verb
    case None => "{}"
    case Some(m) => "{\"method\":\"" + m + "\"}"
  }

  /** `_getCacheKey`. */
  function CacheKey(endpoint: string, options: RequestOptions): string {
    endpoint + "_" + OptionsJson(options)
  }

  /** With the same options, different endpoints never share a cache entry. */
  lemma CacheKeyInjective(e1: string, e2: string, options: RequestOptions)
    requires CacheKey(e1, options) == CacheKey(e2, options)
    ensures e1 == e2
  {
    var suffix := "_" + OptionsJson(options);
    assert CacheKey(e1, options) == e1 + suffix;
    assert CacheKey(e2, options) == e2 + suffix;
    assert |e1| == |e2|;
    assert e1 == (e1 + suffix)[..|e1|];
    assert e2 == (e2 + suffix)[..|e2|];
  }

  /** The paths are not prefix-free: the route of `n` and the tracking data of `n + "/route"`
      are the same request and share one cache entry. */
  lemma RouteAliasesTracking(n: string)
    ensures CacheKey(RoutePath(n), NoOptions) == CacheKey(TrackingPath(n + "/route"), NoOptions)
  {
    assert RoutePath(n) == TrackingPath(n + "/route");
  }

  /** The cache is consulted and filled only when `useCache` holds and the method is absent,
      empty or `GET`. */
  predicate UsesCache(options: RequestOptions, useCache: bool) {
    useCache && (options.verb.None? || options.verb == Some("") || options.verb == Some("GET"))
  }

  // ---------------------------------------------------------------------------------------
  // The time-to-live cache

  /** A parsed JSON response body. */
  datatype Payload = Null | Bool(b: bool) | Number(n: int) | Str(s: string) | Document(json: string)

  /** JavaScript truthiness of a payload: objects and arrays are always truthy. */
  predicate IsTruthy(p: Payload) {
    match p
    case Null => false
    case Bool(b) => b
    case Number(n) => n != 0
    case Str(s) => s != ""
    case Document(_) => true
  }

  datatype CacheEntry = CacheEntry(data: Payload, timestamp: int)

  type Cache = map<string, CacheEntry>

  /** An entry still served by a lookup at `now` (strictly younger than the expiry). */
  predicate IsFresh(e: CacheEntry, now: int) {
    now - e.timestamp < CacheExpiry
  }

  /** An entry the sweep at `now` removes (strictly older than the expiry). */
  predicate IsExpired(e: CacheEntry, now: int) {
    now - e.timestamp > CacheExpiry
  }

  /** What `_getCachedData(key)` returns at `now`. */
  function CachedData(cache: Cache, key: string, now: int): (r: Option<Payload>)
    ensures r.Some? <==> key in cache && now - cache[key].timestamp < CacheExpiry
    ensures r.Some? ==> r.value == cache[key].data
  {
    if key in cache && IsFresh(cache[key], now) then Some(cache[key].data) else None
  }

  /** The cache after `_getCachedData(key)` at `now`: a miss (absent or stale) deletes the
      key, a hit leaves the cache as it was. */
  function CacheAfterLookup(cache: Cache, key: string, now: int): (r: Cache)
    ensures CachedData(cache, key, now).Some? ==> r == cache
    ensures CachedData(cache, key, now).None? ==> key !in r && r == cache - {key}
  {
    if key in cache && IsFresh(cache[key], now) then cache else cache - {key}
  }

  /** The cache after `_cleanCache()` at `now`. */
  function Swept(cache: Cache, now: int): (r: Cache)
    ensures forall k :: k in r <==> k in cache && !IsExpired(cache[k], now)
    ensures forall k :: k in r ==> r[k] == cache[k]
  {
    map k | k in cache && !IsExpired(cache[k], now) :: cache[k]
  }

  /** Storing and then looking up the same key at the same instant gives the stored payload,
      whatever the key held before. */
  lemma StoreThenLookup(cache: Cache, key: string, data: Payload, now: int)
    ensures CachedData(cache[key := CacheEntry(data, now)], key, now) == Some(data)
    ensures CacheAfterLookup(cache[key := CacheEntry(data, now)], key, now) == cache[key := CacheEntry(data, now)]
  {
  }

  /** An entry exactly `CacheExpiry` old survives the sweep but is already a miss on lookup;
      one any older is removed by both. */
  lemma ExpiryBoundary(e: CacheEntry, now: int)
    ensures now - e.timestamp == CacheExpiry ==> !IsExpired(e, now) && !IsFresh(e, now)
    ensures now - e.timestamp > CacheExpiry ==> IsExpired(e, now) && !IsFresh(e, now)
    ensures now - e.timestamp < CacheExpiry ==> !IsExpired(e, now) && IsFresh(e, now)
  {
  }

  /** The sweep is a clean-up only: at the instant of the sweep and at every later instant,
      every lookup answers exactly as it would have without the sweep. */
  lemma {:induction false} SweepPreservesLookups(cache: Cache, sweptAt: int, key: string, now: int)
    requires sweptAt <= now
    ensures CachedData(Swept(cache, sweptAt), key, now) == CachedData(cache, key, now)
  {
    var r := Swept(cache, sweptAt);
    if key in cache && key !in r {
      assert IsExpired(cache[key], sweptAt);
      assert !IsFresh(cache[key], now);
    }
  }

  // ---------------------------------------------------------------------------------------
  // The retry loop of `_makeRequest`

  /** The reply to a login request: an HTTP status with the `access_token` of the body (which
      may be missing), or an exception thrown by `fetch` or by parsing the body. */
  datatype AuthReply = AuthResponse(status: nat, accessToken: Option<string>) | AuthThrown(message: string)

  datatype Body = Json(data: Payload) | Unparsable(message: string)

  /** The reply to a data request. */
  datatype FetchReply = Response(status: nat, statusText: string, body: Body) | FetchThrown(message: string)

  /** `response.ok`. */
  predicate IsOk(status: nat) {
    200 <= status <= 299
  }

  /** Why an attempt threw: an exception from `fetch` or from parsing a body, a login answered
      with an error status, or a data request answered with an error status other than 401. */
  datatype Failure = Thrown(message: string) | AuthRejected(status: nat) | HttpError(status: nat, statusText: string)
  {
    /** The `message` of the `Error` the client throws. */
    function Message(): string {
      match this
      case Thrown(m) => m
      case AuthRejected(s) => "Authentication failed: " + NatToString(s)
      case HttpError(s, t) => "API request failed: " + NatToString(s) + " " + t
    }
  }

  /** How `authenticate()` ends: with the token it stores (the body's `access_token`, which
      may be missing), or with the failure it throws. */
  datatype Login = LoggedIn(token: Option<string>) | LoginFailed(failure: Failure)

  function AuthenticateStep(reply: AuthReply): Login {
    match reply
    case AuthThrown(m) => LoginFailed(Thrown(m))
    case AuthResponse(status, token) =>
      if IsOk(status) then LoggedIn(token) else LoginFailed(AuthRejected(status))
  }

  /** How one pass through the body of the `while` loop ends: with the data, with a 401
      followed by a successful re-login (counted as an attempt, no wait), or with an
      exception caught by the `catch` block. */
  datatype AttemptEnd = Returned(data: Payload) | Reauthenticated | Threw(failure: Failure)

  /** One attempt: how it ends, the token afterwards, and how many data and login requests
      have been made in all. */
  datatype Attempt = Attempt(end: AttemptEnd, token: Option<string>, fetches: nat, auths: nat)

  /** The data request of an attempt, made with `token`. A 401 drops the token and logs in
      again; a login that fails leaves no token. */
  function Send(token: Option<string>, fetches: nat, auths: nat,
                fetchAt: nat -> FetchReply, authAt: nat -> AuthReply): (r: Attempt)
    ensures r.fetches == fetches + 1
    ensures r.auths == (if fetchAt(fetches).Response? && fetchAt(fetches).status == 401 then auths + 1 else auths)
    ensures r.end.Reauthenticated? ==> fetchAt(fetches).Response? && fetchAt(fetches).status == 401
    ensures r.end.Returned? <==> fetchAt(fetches).Response? && IsOk(fetchAt(fetches).status) && fetchAt(fetches).body.Json?
  {
    match fetchAt(fetches)
    case FetchThrown(m) => Attempt(Threw(Thrown(m)), token, fetches + 1, auths)
    case Response(status, text, body) =>
      if status == 401 then
        match AuthenticateStep(authAt(auths))
        case LoginFailed(f) => Attempt(Threw(f), None, fetches + 1, auths + 1)
        case LoggedIn(t) => Attempt(Reauthenticated, t, fetches + 1, auths + 1)
      else if !IsOk(status) then
        Attempt(Threw(HttpError(status, text)), token, fetches + 1, auths)
      else
        match body
        case Unparsable(m) => Attempt(Threw(Thrown(m)), token, fetches + 1, auths)
        case Json(d) => Attempt(Returned(d), token, fetches + 1, auths)
  }

  /** One attempt: log in first when no (truthy) token is held, then send the data request.
      A failed first login throws before any data request is made. */
  function TryOnce(token: Option<string>, fetches: nat, auths: nat,
                   fetchAt: nat -> FetchReply, authAt: nat -> AuthReply): (r: Attempt)
    ensures fetches <= r.fetches <= fetches + 1 && auths <= r.auths <= auths + 2
    ensures Truthy(token) ==> r == Send(token, fetches, auths, fetchAt, authAt)
    ensures !Truthy(token) ==> auths < r.auths
    ensures r.fetches == fetches ==> r.end.Threw?
  {
    if !Truthy(token) then
      match AuthenticateStep(authAt(auths))
      case LoginFailed(f) => Attempt(Threw(f), token, fetches, auths + 1)
      case LoggedIn(t) => Send(t, fetches, auths + 1, fetchAt, authAt)
    else
      Send(token, fetches, auths, fetchAt, authAt)
  }

  /** How a call of `_makeRequest` settles: it resolves with data, rejects after the given
      number of attempts because of the last failure, or resolves to `undefined`. */
  datatype RequestOutcome = Resolved(data: Payload) | Rejected(attempts: nat, cause: Failure) | ResolvedUndefined
  {
    /** The message of the error a rejected call throws. */
    function ErrorMessage(): string
      requires Rejected?
    {
      "API request failed after " + NatToString(attempts) + " attempts: " + cause.Message()
    }
  }

  /** The result of the loop: its outcome, the token afterwards, the requests made, the waits
      performed (in milliseconds) and how each attempt ended. */
  datatype Run = Run(outcome: RequestOutcome, token: Option<string>, fetches: nat, auths: nat,
                     delays: seq<nat>, trace: seq<AttemptEnd>)

  /** What one pass through the `try` block does, given the token held and the requests made
      so far. */
  type Step = (Option<string>, nat, nat) -> Attempt

  /** The attempts of a client whose server answers the k-th data request with `fetchAt(k)`
      and the k-th login request with `authAt(k)`. */
  function Attempts(fetchAt: nat -> FetchReply, authAt: nat -> AuthReply): Step {
    (token: Option<string>, fetches: nat, auths: nat) => TryOnce(token, fetches, auths, fetchAt, authAt)
  }

  /** An attempt makes at most one data request and never takes back a login. */
  ghost predicate Counts(step: Step) {
    forall token: Option<string>, fetches: nat, auths: nat ::
      fetches <= step(token, fetches, auths).fetches <= fetches + 1
                                 && auths <= step(token, fetches, auths).auths
  }

  lemma AttemptsCount(fetchAt: nat -> FetchReply, authAt: nat -> AuthReply)
    ensures Counts(Attempts(fetchAt, authAt))
  {
  }

  /** The `while (attempts < this.retryAttempts)` loop from the given point on. */
  function RetryLoop(attempts: nat, token: Option<string>, fetches: nat, auths: nat,
                     delays: seq<nat>, trace: seq<AttemptEnd>, step: Step): Run
    decreases RetryAttempts - attempts
  {
    if attempts >= RetryAttempts then Run(ResolvedUndefined, token, fetches, auths, delays, trace)
    else
      var a := step(token, fetches, auths);
      var trace' := trace + [a.end];
      match a.end
      case Returned(d) => Run(Resolved(d), a.token, a.fetches, a.auths, delays, trace')
      case Reauthenticated => RetryLoop(attempts + 1, a.token, a.fetches, a.auths, delays, trace', step)
      case Threw(f) =>
        if attempts + 1 >= RetryAttempts then
          Run(Rejected(attempts + 1, f), a.token, a.fetches, a.auths, delays, trace')
        else
          RetryLoop(attempts + 1, a.token, a.fetches, a.auths, delays + [RetryDelay * (attempts + 1)], trace', step)
  }

  /** The reference backoff schedule: after the n-th attempt (counting from 1) there is a wait
      of `RetryDelay * n` exactly when that attempt threw and was not the last allowed one. */
  function Backoff(trace: seq<AttemptEnd>): seq<nat>
    decreases |trace|
  {
    if trace == [] then []
    else
      var n := |trace|;
      Backoff(trace[..n - 1]) + (if trace[n - 1].Threw? && n < RetryAttempts then [RetryDelay * n] else [])
  }

  /** Whether the loop goes on after attempt number `i` (from 0) ended as `end`. */
  predicate GoesOn(end: AttemptEnd, i: nat) {
    end.Reauthenticated? || (end.Threw? && i + 1 < RetryAttempts)
  }

  /** An attempt trace after which the loop keeps going. */
  predicate Continuing(trace: seq<AttemptEnd>) {
    forall i :: 0 <= i < |trace| ==> GoesOn(trace[i], i)
  }

  /** A complete attempt trace: at least one attempt, every attempt before the last kept the
      loop going, and the last one either returned data or used up the attempts. */
  predicate Finished(trace: seq<AttemptEnd>) {
    && 1 <= |trace| <= RetryAttempts
    && (forall i :: 0 <= i < |trace| - 1 ==> GoesOn(trace[i], i))
    && (trace[|trace| - 1].Returned? || |trace| == RetryAttempts)
  }

  /** What the loop settles on once its last attempt, the `n`-th, ended as `last`. */
  function Settled(last: AttemptEnd, n: nat): RequestOutcome {
    match last
    case Returned(d) => Resolved(d)
    case Threw(f) => Rejected(n, f)
    case Reauthenticated => ResolvedUndefined
  }

  /** The loop as `_makeRequest` starts it: no attempts made, no requests sent, no waits. */
  function Loop(token: Option<string>, fetchAt: nat -> FetchReply, authAt: nat -> AuthReply): Run {
    RetryLoop(0, token, 0, 0, [], [], Attempts(fetchAt, authAt))
  }

  /** The loop only appends to the trace it is given, one entry per attempt. */
  lemma {:induction false} RetryLoopTrace(attempts: nat, token: Option<string>, fetches: nat, auths: nat,
                                          delays: seq<nat>, trace: seq<AttemptEnd>, step: Step)
    requires attempts <= RetryAttempts && |trace| == attempts
    ensures var r := RetryLoop(attempts, token, fetches, auths, delays, trace, step);
      |trace| <= |r.trace| <= RetryAttempts && r.trace[..|trace|] == trace
    decreases RetryAttempts - attempts
  {
    if attempts < RetryAttempts {
      var a := step(token, fetches, auths);
      var trace' := trace + [a.end];
      if GoesOn(a.end, attempts) {
        var delays' := if a.end.Threw? then delays + [RetryDelay * (attempts + 1)] else delays;
        var r := RetryLoop(attempts + 1, a.token, a.fetches, a.auths, delays', trace', step);
        RetryLoopTrace(attempts + 1, a.token, a.fetches, a.auths, delays', trace', step);
        assert r.trace[..|trace|] == r.trace[..|trace'|][..|trace|];
      }
    }
  }

  /** Each attempt makes at most one data request, and logins are never undone. */
  lemma {:induction false} RetryLoopCounts(attempts: nat, token: Option<string>, fetches: nat, auths: nat,
                                          delays: seq<nat>, trace: seq<AttemptEnd>, step: Step)
    requires Counts(step)
    requires attempts <= RetryAttempts && |trace| == attempts
    ensures var r := RetryLoop(attempts, token, fetches, auths, delays, trace, step);
      && fetches <= r.fetches <= fetches + (|r.trace| - |trace|)
      && auths <= r.auths
    decreases RetryAttempts - attempts
  {
    if attempts < RetryAttempts {
      var a := step(token, fetches, auths);
      var trace' := trace + [a.end];
      if GoesOn(a.end, attempts) {
        var delays' := if a.end.Threw? then delays + [RetryDelay * (attempts + 1)] else delays;
        RetryLoopCounts(attempts + 1, a.token, a.fetches, a.auths, delays', trace', step);
      }
    }
  }

  /** The loop waits exactly as the backoff schedule says. */
  lemma {:induction false} RetryLoopDelays(attempts: nat, token: Option<string>, fetches: nat, auths: nat,
                                          delays: seq<nat>, trace: seq<AttemptEnd>, step: Step)
    requires attempts <= RetryAttempts && |trace| == attempts && delays == Backoff(trace)
    ensures var r := RetryLoop(attempts, token, fetches, auths, delays, trace, step);
      r.delays == Backoff(r.trace)
    decreases RetryAttempts - attempts
  {
    if attempts < RetryAttempts {
      var a := step(token, fetches, auths);
      var trace' := trace + [a.end];
      assert trace'[..|trace'| - 1] == trace;
      var delays' := if a.end.Threw? && attempts + 1 < RetryAttempts then delays + [RetryDelay * (attempts + 1)] else delays;
      assert Backoff(trace') == delays';
      if GoesOn(a.end, attempts) {
        RetryLoopDelays(attempts + 1, a.token, a.fetches, a.auths, delays', trace', step);
      }
    }
  }

  /** The loop goes on exactly as long as its attempts keep it going. */
  lemma {:induction false} RetryLoopFinishes(attempts: nat, token: Option<string>, fetches: nat, auths: nat,
                                            delays: seq<nat>, trace: seq<AttemptEnd>, step: Step)
    requires attempts <= RetryAttempts && |trace| == attempts && Continuing(trace)
    ensures Finished(RetryLoop(attempts, token, fetches, auths, delays, trace, step).trace)
    decreases RetryAttempts - attempts
  {
    if attempts < RetryAttempts {
      var a := step(token, fetches, auths);
      var trace' := trace + [a.end];
      if GoesOn(a.end, attempts) {
        var delays' := if a.end.Threw? then delays + [RetryDelay * (attempts + 1)] else delays;
        RetryLoopFinishes(attempts + 1, a.token, a.fetches, a.auths, delays', trace', step);
      }
    } else {
    }
  }

  /** How the loop ends is decided by its last attempt alone. */
  lemma {:induction false} RetryLoopOutcome(attempts: nat, token: Option<string>, fetches: nat, auths: nat,
                                            delays: seq<nat>, trace: seq<AttemptEnd>, step: Step)
    requires attempts <= RetryAttempts && |trace| == attempts
    requires attempts == RetryAttempts ==> trace[RetryAttempts - 1].Reauthenticated?
    ensures var r := RetryLoop(attempts, token, fetches, auths, delays, trace, step);
      |r.trace| >= 1 && r.outcome == Settled(r.trace[|r.trace| - 1], |r.trace|)
    decreases RetryAttempts - attempts
  {
    if attempts < RetryAttempts {
      var a := step(token, fetches, auths);
      var trace' := trace + [a.end];
      if GoesOn(a.end, attempts) {
        var delays' := if a.end.Threw? then delays + [RetryDelay * (attempts + 1)] else delays;
        RetryLoopOutcome(attempts + 1, a.token, a.fetches, a.auths, delays', trace', step);
      }
    }
  }

  /** The loop in full, whatever one attempt does: between one and `RetryAttempts`
      attempts, no more data requests than attempts, waits that follow the backoff schedule,
      and an outcome decided by the last attempt alone. */
  lemma LoopShape(token: Option<string>, step: Step)
    requires Counts(step)
    ensures var r := RetryLoop(0, token, 0, 0, [], [], step);
      && Finished(r.trace) && r.fetches <= |r.trace|
      && r.delays == Backoff(r.trace)
      && r.outcome == Settled(r.trace[|r.trace| - 1], |r.trace|)
  {
    RetryLoopTrace(0, token, 0, 0, [], [], step);
    RetryLoopCounts(0, token, 0, 0, [], [], step);
    RetryLoopDelays(0, token, 0, 0, [], [], step);
    RetryLoopFinishes(0, token, 0, 0, [], [], step);
    RetryLoopOutcome(0, token, 0, 0, [], [], step);
  }

  /** Spelled out: a call resolves with data exactly when its last attempt returned them, and
      no earlier attempt did; it rejects exactly when the third attempt threw, with that
      attempt's failure; and it resolves to `undefined` exactly when the third attempt was a
      401 followed by a successful re-login. */
  lemma LoopOutcomes(token: Option<string>, step: Step)
    requires Counts(step)
    ensures var r := RetryLoop(0, token, 0, 0, [], [], step);
      && (r.outcome.Resolved? <==> r.trace[|r.trace| - 1].Returned?)
      && (r.outcome.Rejected? <==> |r.trace| == RetryAttempts && r.trace[RetryAttempts - 1].Threw?)
      && (r.outcome.Rejected? ==> r.outcome == Rejected(RetryAttempts, r.trace[RetryAttempts - 1].failure))
      && (r.outcome.ResolvedUndefined? <==> |r.trace| == RetryAttempts && r.trace[RetryAttempts - 1].Reauthenticated?)
      && (forall i :: 0 <= i < |r.trace| - 1 ==> !r.trace[i].Returned?)
  {
    LoopShape(token, step);
    FinishedOutcomes(RetryLoop(0, token, 0, 0, [], [], step).trace);
  }

  /** The outcomes a complete trace can settle on. */
  lemma FinishedOutcomes(trace: seq<AttemptEnd>)
    requires Finished(trace)
    ensures var o := Settled(trace[|trace| - 1], |trace|);
      && (o.Resolved? <==> trace[|trace| - 1].Returned?)
      && (o.Rejected? <==> |trace| == RetryAttempts && trace[RetryAttempts - 1].Threw?)
      && (o.Rejected? ==> o == Rejected(RetryAttempts, trace[RetryAttempts - 1].failure))
      && (o.ResolvedUndefined? <==> |trace| == RetryAttempts && trace[RetryAttempts - 1].Reauthenticated?)
      && (forall i :: 0 <= i < |trace| - 1 ==> !trace[i].Returned?)
  {
    forall i | 0 <= i < |trace| - 1
      ensures !trace[i].Returned?
    {
      assert GoesOn(trace[i], i);
    }
  }

  /** The result of the whole of `_makeRequest`: the loop's result together with the cache
      afterwards. A cache hit makes no request and changes nothing. */
  datatype RequestRun = RequestRun(outcome: RequestOutcome, cache: Cache, token: Option<string>,
                                   fetches: nat, auths: nat, delays: seq<nat>, trace: seq<AttemptEnd>)

  /** A lookup that `_makeRequest` answers from the cache: a cacheable request whose key holds
      a fresh entry with a truthy payload. */
  predicate ServedFromCache(cache: Cache, endpoint: string, options: RequestOptions, useCache: bool, now: int) {
    var cached := CachedData(cache, CacheKey(endpoint, options), now);
    UsesCache(options, useCache) && cached.Some? && IsTruthy(cached.value)
  }

  /** `_makeRequest(endpoint, options, useCache)`, looked up at `now` and, on success, stored
      with the timestamp `storedAt` (the clock is read again after the awaits). */
  function Request(cache: Cache, token: Option<string>, endpoint: string, options: RequestOptions,
                   useCache: bool, now: int, storedAt: int,
                   fetchAt: nat -> FetchReply, authAt: nat -> AuthReply): (r: RequestRun)
    ensures ServedFromCache(cache, endpoint, options, useCache, now) ==>
      && r.outcome == Resolved(cache[CacheKey(endpoint, options)].data)
      && r.cache == cache && r.token == token && r.fetches == 0 && r.auths == 0 && r.delays == [] && r.trace == []
    ensures !ServedFromCache(cache, endpoint, options, useCache, now) ==>
      var run := Loop(token, fetchAt, authAt);
      && r.outcome == run.outcome && r.token == run.token && r.fetches == run.fetches
      && r.auths == run.auths && r.delays == run.delays && r.trace == run.trace
  {
    var key := CacheKey(endpoint, options);
    var cacheable := UsesCache(options, useCache);
    var cached := if cacheable then CachedData(cache, key, now) else None;
    var cache1 := if cacheable then CacheAfterLookup(cache, key, now) else cache;
    if cached.Some? && IsTruthy(cached.value) then
      RequestRun(Resolved(cached.value), cache1, token, 0, 0, [], [])
    else
      var run := Loop(token, fetchAt, authAt);
      var cache2 := if cacheable && run.outcome.Resolved? then cache1[key := CacheEntry(run.outcome.data, storedAt)] else cache1;
      RequestRun(run.outcome, cache2, run.token, run.fetches, run.auths, run.delays, run.trace)
  }

  /** What a request leaves in the cache when it goes to the network: a cacheable request that
      resolved stores its data under its key with the store time and keeps every other entry;
      a cacheable one that did not resolve only drops its stale entry; a request that bypasses
      the cache leaves it alone. */
  lemma RequestCacheEffect(cache: Cache, token: Option<string>, endpoint: string, options: RequestOptions,
                           useCache: bool, now: int, storedAt: int,
                           fetchAt: nat -> FetchReply, authAt: nat -> AuthReply)
    requires !ServedFromCache(cache, endpoint, options, useCache, now)
    ensures var r := Request(cache, token, endpoint, options, useCache, now, storedAt, fetchAt, authAt);
      var key := CacheKey(endpoint, options);
      && (!UsesCache(options, useCache) ==> r.cache == cache)
      && (UsesCache(options, useCache) && r.outcome.Resolved? ==>
            key in r.cache && r.cache[key] == CacheEntry(r.outcome.data, storedAt)
            && forall k :: k in cache && k != key ==> k in r.cache && r.cache[k] == cache[k])
      && (UsesCache(options, useCache) && !r.outcome.Resolved? ==> r.cache == CacheAfterLookup(cache, key, now))
  {
  }

  /** At most `RetryAttempts` data requests, in every case. */
  lemma AtMostThreeFetches(cache: Cache, token: Option<string>, endpoint: string, options: RequestOptions,
                           useCache: bool, now: int, storedAt: int,
                           fetchAt: nat -> FetchReply, authAt: nat -> AuthReply)
    ensures Request(cache, token, endpoint, options, useCache, now, storedAt, fetchAt, authAt).fetches <= RetryAttempts
  {
    AttemptsCount(fetchAt, authAt);
    LoopShape(token, Attempts(fetchAt, authAt));
  }

  /** Backoff is linear: three attempts that all throw wait 1000 ms, then 2000 ms. */
  lemma ThreeFailuresSchedule(f1: Failure, f2: Failure, f3: Failure)
    ensures Backoff([Threw(f1), Threw(f2), Threw(f3)]) == [1000, 2000]
  {
    assert [Threw(f1), Threw(f2), Threw(f3)][..2] == [Threw(f1), Threw(f2)];
    assert [Threw(f1), Threw(f2)][..1] == [Threw(f1)];
    assert [Threw(f1)][..0] == [];
    assert Backoff([Threw(f1)]) == [1000];
  }

  /** After the third failure the call rejects with "API request failed after 3 attempts: "
      followed by the message of the last cause. */
  lemma ThreeFailuresMessage(f: Failure)
    ensures Settled(Threw(f), 3).ErrorMessage() == "API request failed after 3 attempts: " + f.Message()
  {
    assert NatToString(3) == "3";
    var prefix := "API request failed after " + NatToString(3) + " attempts: ";
    assert prefix == "API request failed after 3 attempts: ";
    assert Settled(Threw(f), 3).ErrorMessage() == prefix + f.Message();
  }

  /** A held token and a network that throws on every data request: three requests, waits of
      1000 ms and 2000 ms, and a rejection with the third exception. */
  lemma {:induction false} NetworkDownRejects(token: Option<string>, fetchAt: nat -> FetchReply, authAt: nat -> AuthReply)
    requires Truthy(token)
    requires forall k :: fetchAt(k).FetchThrown?
    ensures var r := Loop(token, fetchAt, authAt);
      && r.outcome == Rejected(RetryAttempts, Thrown(fetchAt(2).message))
      && r.fetches == 3 && r.auths == 0 && r.delays == [1000, 2000]
  {
    var a0 := TryOnce(token, 0, 0, fetchAt, authAt);
    assert a0 == Attempt(Threw(Thrown(fetchAt(0).message)), token, 1, 0);
    var a1 := TryOnce(token, 1, 0, fetchAt, authAt);
    assert a1 == Attempt(Threw(Thrown(fetchAt(1).message)), token, 2, 0);
    var a2 := TryOnce(token, 2, 0, fetchAt, authAt);
    assert a2 == Attempt(Threw(Thrown(fetchAt(2).message)), token, 3, 0);
  }

  /** When every data request answers 401 and every login succeeds, three data requests are
      made, nothing is waited for, and the call resolves to `undefined` without throwing. */
  lemma {:induction false} AllUnauthorizedResolvesUndefined(token: Option<string>, fetchAt: nat -> FetchReply, authAt: nat -> AuthReply)
    requires forall k :: fetchAt(k).Response? && fetchAt(k).status == 401
    requires forall k :: authAt(k).AuthResponse? && IsOk(authAt(k).status)
    ensures var r := Loop(token, fetchAt, authAt);
      r.outcome == ResolvedUndefined && r.fetches == RetryAttempts && r.delays == []
  {
    var a0 := TryOnce(token, 0, 0, fetchAt, authAt);
    assert a0.end == Reauthenticated && a0.fetches == 1;
    var a1 := TryOnce(a0.token, 1, a0.auths, fetchAt, authAt);
    assert a1.end == Reauthenticated && a1.fetches == 2;
    var a2 := TryOnce(a1.token, 2, a1.auths, fetchAt, authAt);
    assert a2.end == Reauthenticated && a2.fetches == 3;
  }

  /** A token that is held is used as it is: when no data request answers 401, a request
      that starts with a token never logs in. */
  lemma {:induction false} HeldTokenIsReused(attempts: nat, token: Option<string>, fetches: nat, auths: nat,
                                             delays: seq<nat>, trace: seq<AttemptEnd>,
                                             fetchAt: nat -> FetchReply, authAt: nat -> AuthReply)
    requires Truthy(token)
    requires forall k :: !(fetchAt(k).Response? && fetchAt(k).status == 401)
    ensures var r := RetryLoop(attempts, token, fetches, auths, delays, trace, Attempts(fetchAt, authAt));
      r.auths == auths && r.token == token
    decreases RetryAttempts - attempts
  {
    if attempts < RetryAttempts {
      var a := TryOnce(token, fetches, auths, fetchAt, authAt);
      assert a.auths == auths && a.token == token && !a.end.Reauthenticated?;
      if a.end.Threw? && attempts + 1 < RetryAttempts {
        HeldTokenIsReused(attempts + 1, a.token, a.fetches, a.auths, delays + [RetryDelay * (attempts + 1)], trace + [a.end], fetchAt, authAt);
      }
    }
  }

  /** A call makes at least the logins of its first attempt. */
  lemma FirstAttemptLogins(token: Option<string>, step: Step)
    requires Counts(step)
    ensures RetryLoop(0, token, 0, 0, [], [], step).auths >= step(token, 0, 0).auths
  {
    var a := step(token, 0, 0);
    if GoesOn(a.end, 0) {
      RetryLoopCounts(1, a.token, a.fetches, a.auths, if a.end.Threw? then [RetryDelay] else [], [a.end], step);
    }
  }

  /** Without a (truthy) token the first thing a request does is log in. */
  lemma MissingTokenLogsInFirst(token: Option<string>, fetchAt: nat -> FetchReply, authAt: nat -> AuthReply)
    requires !Truthy(token)
    ensures Loop(token, fetchAt, authAt).auths >= 1
  {
    AttemptsCount(fetchAt, authAt);
    FirstAttemptLogins(token, Attempts(fetchAt, authAt));
    assert Attempts(fetchAt, authAt)(token, 0, 0) == TryOnce(token, 0, 0, fetchAt, authAt);
  }

  /** A 401 on a held token: the client logs in exactly once and sends the request again,
      with no wait in between, and the second answer is what the call resolves with. */
  lemma UnauthorizedThenSuccess(token: Option<string>, newToken: string, text: string, d: Payload,
                                fetchAt: nat -> FetchReply, authAt: nat -> AuthReply)
    requires Truthy(token) && newToken != ""
    requires fetchAt(0) == Response(401, text, Json(Null))
    requires authAt(0) == AuthResponse(200, Some(newToken))
    requires fetchAt(1) == Response(200, "OK", Json(d))
    ensures var r := Loop(token, fetchAt, authAt);
      r.outcome == Resolved(d) && r.auths == 1 && r.fetches == 2 && r.delays == []
      && r.token == Some(newToken) && r.trace == [Reauthenticated, Returned(d)]
  {
  }

  /** `getRealTimeLocation` passes `useCache = false`: the cache is neither read nor written. */
  lemma LocationBypassesCache(cache: Cache, token: Option<string>, n: string, now: int, storedAt: int,
                              fetchAt: nat -> FetchReply, authAt: nat -> AuthReply)
    ensures Request(cache, token, LocationPath(n), NoOptions, false, now, storedAt, fetchAt, authAt).cache == cache
    ensures Request(cache, token, LocationPath(n), NoOptions, false, now, storedAt, fetchAt, authAt).outcome
         == Loop(token, fetchAt, authAt).outcome
  {
  }

  /** A fresh cached payload that is falsy (`null`, `false`, `0`, `""`) is returned by the
      lookup but ignored, so the request goes to the network anyway. */
  lemma FalsyCachedPayloadIsRefetched(cache: Cache, token: Option<string>, endpoint: string, now: int, storedAt: int,
                                      fetchAt: nat -> FetchReply, authAt: nat -> AuthReply)
    requires CachedData(cache, CacheKey(endpoint, NoOptions), now).Some?
    requires !IsTruthy(CachedData(cache, CacheKey(endpoint, NoOptions), now).value)
    ensures Request(cache, token, endpoint, NoOptions, true, now, storedAt, fetchAt, authAt).trace
         == Loop(token, fetchAt, authAt).trace
    ensures |Request(cache, token, endpoint, NoOptions, true, now, storedAt, fetchAt, authAt).trace| >= 1
  {
    AttemptsCount(fetchAt, authAt);
    LoopShape(token, Attempts(fetchAt, authAt));
  }

  // ---------------------------------------------------------------------------------------
  // Mock tracking data

  datatype LatLng = LatLng(lat: real, lng: real)

  datatype RoutePoint = RoutePoint(lat: real, lng: real, timestamp: int, status: string)

  /** What `getMockTrackingData` resolves with (the polling hook's `trackingData`). */
  datatype Snapshot = Snapshot(trackingNumber: string, currentLocation: RoutePoint, route: seq<RoutePoint>,
                               status: string, estimatedDelivery: string, lastUpdate: string,
                               courier: Option<string>)

  /** What `getMockRealTimeLocation` resolves with (the polling hook's `realTimeLocation`). */
  datatype LiveLocation = LiveLocation(lat: real, lng: real, timestamp: int, speed: real, heading: real,
                                       courier: Option<string>)

  /** The four route coordinates of each known courier, oldest first. */
  function KnownRoute(courier: Option<string>): Option<seq<LatLng>> {
    if courier == Some("J&T Express") then
      Some([LatLng(14.5995, 120.9842), LatLng(14.6095, 120.9942), LatLng(14.6195, 121.0042), LatLng(14.6295, 121.0142)])
    else if courier == Some("LBC") then
      Some([LatLng(14.5895, 120.9742), LatLng(14.5995, 120.9842), LatLng(14.6095, 120.9942), LatLng(14.6195, 121.0042)])
    else if courier == Some("Ninja Van") then
      Some([LatLng(14.5795, 120.9642), LatLng(14.5895, 120.9742), LatLng(14.5995, 120.9842), LatLng(14.6095, 120.9942)])
    else if courier == Some("GrabExpress") then
      Some([LatLng(14.5695, 120.9542), LatLng(14.5795, 120.9642), LatLng(14.5895, 120.9742), LatLng(14.5995, 120.9842)])
    else None
  }

  /** `courierRoutes[this.courier] || courierRoutes['J&T Express']`. */
  function RouteCoordinates(courier: Option<string>): seq<LatLng> {
    match KnownRoute(courier)
    case Some(r) => r
    case None => KnownRoute(Some("J&T Express")).value
  }

  /** The base position `getMockRealTimeLocation` oscillates around; J&T Express for any
      courier it does not know. */
  function MockBase(courier: Option<string>): LatLng {
    if courier == Some("LBC") then LatLng(14.6195, 121.0042)
    else if courier == Some("Ninja Van") then LatLng(14.6095, 120.9942)
    else if courier == Some("GrabExpress") then LatLng(14.5995, 120.9842)
    else LatLng(14.6295, 121.0142)
  }

  const MockStatuses: seq<string> := ["Picked up", "In transit", "Approaching destination", "Out for delivery"]

  /** The mock route at `now`: points one hour, half an hour and a quarter of an hour old, and
      one at `now`. */
  function MockRoute(courier: Option<string>, now: int): seq<RoutePoint> {
    var c := RouteCoordinates(courier);
    [ RoutePoint(c[0].lat, c[0].lng, now - 3600000, MockStatuses[0]),
      RoutePoint(c[1].lat, c[1].lng, now - 1800000, MockStatuses[1]),
      RoutePoint(c[2].lat, c[2].lng, now - 900000, MockStatuses[2]),
      RoutePoint(c[3].lat, c[3].lng, now, MockStatuses[3]) ]
  }

  /** `getMockTrackingData(trackingNumber)` at `now`; `isoNow` is `new Date().toISOString()`. */
  function MockTrackingData(courier: Option<string>, trackingNumber: string, now: int, isoNow: string): Snapshot {
    var route := MockRoute(courier, now);
    Snapshot(trackingNumber, route[|route| - 1], route, "In Transit", "Today", isoNow, courier)
  }

  /** `getMockRealTimeLocation` with its sine oscillation and its random speed and heading
      given as parameters. */
  function MockRealTimeLocation(courier: Option<string>, now: int, variation: real, speed: real, heading: real): LiveLocation {
    var base := MockBase(courier);
    LiveLocation(base.lat + variation, base.lng + variation, now, speed, heading, courier)
  }

  /** The mock snapshot: four points, oldest first, ending at `now`, with the fixed status
      labels; the current location is the last point, which is also the base the live
      location oscillates around; an unknown courier gets J&T Express's route but keeps its
      own name in the snapshot. */
  lemma MockSnapshotShape(courier: Option<string>, trackingNumber: string, now: int, isoNow: string)
    ensures var s := MockTrackingData(courier, trackingNumber, now, isoNow);
      && |s.route| == 4
      && s.currentLocation == s.route[3]
      && (forall i, j :: 0 <= i < j < 4 ==> s.route[i].timestamp < s.route[j].timestamp)
      && s.route[3].timestamp == now
      && (forall i :: 0 <= i < 4 ==> s.route[i].status == MockStatuses[i])
      && LatLng(s.currentLocation.lat, s.currentLocation.lng) == MockBase(courier)
      && s.trackingNumber == trackingNumber && s.courier == courier
      && s.status == "In Transit" && s.estimatedDelivery == "Today"
      && (KnownRoute(courier).None? ==> s.route == MockTrackingData(Some("J&T Express"), trackingNumber, now, isoNow).route)
  {
  }

  // ---------------------------------------------------------------------------------------
  // The client object

  /** One `CourierApiService` instance: its credentials are fixed at construction; the token
      and the cache change as requests are made. */
  class CourierClient {
    const courier: Option<string>
    const env: Env
    const baseUrl: string
    const apiKey: Option<string>
    const clientId: Option<string>
    const clientSecret: Option<string>
    var authToken: Option<string>
    var cache: Cache

    constructor (courier: Option<string>, env: Env)
      ensures this.courier == courier && this.env == env && baseUrl == BaseUrl(env)
      ensures apiKey == Credential(env, courier, ApiKey)
      ensures clientId == Credential(env, courier, ClientId)
      ensures clientSecret == Credential(env, courier, ClientSecret)
      ensures authToken == None && cache == map[]
    {
      this.courier := courier;
      this.env := env;
      baseUrl := BaseUrl(env);
      apiKey := Credential(env, courier, ApiKey);
      clientId := Credential(env, courier, ClientId);
      clientSecret := Credential(env, courier, ClientSecret);
      authToken := None;
      cache := map[];
    }

    /** `authenticate()`: on success the token of the reply replaces the held one and no
        failure is returned; on failure the held token is left as it was. */
    method Authenticate(reply: AuthReply) returns (failure: Option<Failure>)
      modifies this`authToken
      ensures AuthenticateStep(reply).LoggedIn? ==> failure == None && authToken == AuthenticateStep(reply).token
      ensures AuthenticateStep(reply).LoginFailed? ==> failure == Some(AuthenticateStep(reply).failure) && authToken == old(authToken)
    {
      match reply
      case AuthThrown(m) =>
        failure := Some(Thrown(m));
      case AuthResponse(status, token) =>
        if !IsOk(status) {
          failure := Some(AuthRejected(status));
        } else {
          authToken := token;
          failure := None;
        }
    }

    /** `_getCachedData(key)` at `now`. */
    method GetCachedData(key: string, now: int) returns (r: Option<Payload>)
      modifies this`cache
      ensures r == CachedData(old(cache), key, now)
      ensures cache == CacheAfterLookup(old(cache), key, now)
    {
      if key in cache && now - cache[key].timestamp < CacheExpiry {
        return Some(cache[key].data);
      }
      cache := cache - {key};
      return None;
    }

    /** `_setCachedData(key, data)` at `now`: overwrites any earlier entry for `key`. */
    method SetCachedData(key: string, data: Payload, now: int)
      modifies this`cache
      ensures cache == old(cache)[key := CacheEntry(data, now)]
    {
      cache := cache[key := CacheEntry(data, now)];
    }

    /** `_cleanCache()` at `now`: walks the entries and deletes each one older than the expiry. */
    method CleanCache(now: int)
      modifies this`cache
      ensures cache == Swept(old(cache), now)
    {
      var pending := cache.Keys;
      ghost var c0 := cache;
      while pending != {}
        invariant pending <= c0.Keys
        invariant cache == map k | k in c0 && (k in pending || !IsExpired(c0[k], now)) :: c0[k]
        decreases pending
      {
        var k :| k in pending;
        if now - cache[k].timestamp > CacheExpiry {
          cache := cache - {k};
        }
        pending := pending - {k};
      }
    }

    /** The body of the `try` block: one attempt, which logs in first when no token is held. */
    method TryRequest(fetches: nat, auths: nat, fetchAt: nat -> FetchReply, authAt: nat -> AuthReply)
      returns (end: AttemptEnd, fetches': nat, auths': nat)
      modifies this`authToken
      ensures Attempt(end, authToken, fetches', auths') == TryOnce(old(authToken), fetches, auths, fetchAt, authAt)
    {
      fetches', auths' := fetches, auths;
      if !Truthy(authToken) {
        var failure := Authenticate(authAt(auths'));
        auths' := auths' + 1;
        if failure.Some? {
          return Threw(failure.value), fetches', auths';
        }
      }
      var response := fetchAt(fetches');
      fetches' := fetches' + 1;
      match response {
        case FetchThrown(m) =>
          return Threw(Thrown(m)), fetches', auths';
        case Response(status, text, body) =>
          if status == 401 {
            authToken := None;
            var failure := Authenticate(authAt(auths'));
            auths' := auths' + 1;
            if failure.Some? {
              return Threw(failure.value), fetches', auths';
            }
            return Reauthenticated, fetches', auths';
          }
          if !IsOk(status) {
            return Threw(HttpError(status, text)), fetches', auths';
          }
          match body {
            case Unparsable(m) =>
              return Threw(Thrown(m)), fetches', auths';
            case Json(data) =>
              return Returned(data), fetches', auths';
          }
      }
    }

    /** `_makeRequest(endpoint, options, useCache)`: returns the outcome together with the
        number of data and login requests made and the waits performed. */
    method MakeRequest(endpoint: string, options: RequestOptions, useCache: bool, now: int, storedAt: int,
                       fetchAt: nat -> FetchReply, authAt: nat -> AuthReply)
      returns (outcome: RequestOutcome, fetches: nat, auths: nat, delays: seq<nat>)
      modifies this`cache, this`authToken
      ensures var spec := Request(old(cache), old(authToken), endpoint, options, useCache, now, storedAt, fetchAt, authAt);
        && outcome == spec.outcome && cache == spec.cache && authToken == spec.token
        && fetches == spec.fetches && auths == spec.auths && delays == spec.delays
    {
      var cacheKey := CacheKey(endpoint, options);
      var cacheable := UsesCache(options, useCache);
      fetches, auths, delays := 0, 0, [];
      if cacheable {
        var cachedData := GetCachedData(cacheKey, now);
        if cachedData.Some? && IsTruthy(cachedData.value) {
          return Resolved(cachedData.value), 0, 0, [];
        }
      }
      ghost var token0 := authToken;
      ghost var cache1 := cache;
      ghost var trace: seq<AttemptEnd> := [];
      var attempts: nat := 0;
      while attempts < RetryAttempts
        invariant attempts <= RetryAttempts && |trace| == attempts && cache == cache1
        invariant RetryLoop(attempts, authToken, fetches, auths, delays, trace, Attempts(fetchAt, authAt))
               == Loop(token0, fetchAt, authAt)
        decreases RetryAttempts - attempts
      {
        var end;
        end, fetches, auths := TryRequest(fetches, auths, fetchAt, authAt);
        trace := trace + [end];
        match end {
          case Returned(data) =>
            if cacheable {
              SetCachedData(cacheKey, data, storedAt);
            }
            return Resolved(data), fetches, auths, delays;
          case Reauthenticated =>
            attempts := attempts + 1;
          case Threw(failure) =>
            attempts := attempts + 1;
            if attempts >= RetryAttempts {
              return Rejected(attempts, failure), fetches, auths, delays;
            }
            delays := delays + [RetryDelay * attempts];
        }
      }
      outcome := ResolvedUndefined;
    }

    /** `getTrackingData(trackingNumber)`: a cached GET. */
    method GetTrackingData(trackingNumber: string, now: int, storedAt: int,
                           fetchAt: nat -> FetchReply, authAt: nat -> AuthReply)
      returns (outcome: RequestOutcome, fetches: nat, auths: nat, delays: seq<nat>)
      modifies this`cache, this`authToken
      ensures var spec := Request(old(cache), old(authToken), TrackingPath(trackingNumber), NoOptions, true, now, storedAt, fetchAt, authAt);
        && outcome == spec.outcome && cache == spec.cache && authToken == spec.token
        && fetches == spec.fetches && auths == spec.auths && delays == spec.delays
    {
      outcome, fetches, auths, delays := MakeRequest(TrackingPath(trackingNumber), NoOptions, true, now, storedAt, fetchAt, authAt);
    }

    /** `getRealTimeLocation(trackingNumber)`: never read from nor written to the cache. */
    method GetRealTimeLocation(trackingNumber: string, now: int, storedAt: int,
                               fetchAt: nat -> FetchReply, authAt: nat -> AuthReply)
      returns (outcome: RequestOutcome, fetches: nat, auths: nat, delays: seq<nat>)
      modifies this`cache, this`authToken
      ensures cache == old(cache)
      ensures var run := Loop(old(authToken), fetchAt, authAt);
        && outcome == run.outcome && authToken == run.token
        && fetches == run.fetches && auths == run.auths && delays == run.delays
    {
      outcome, fetches, auths, delays := MakeRequest(LocationPath(trackingNumber), NoOptions, false, now, storedAt, fetchAt, authAt);
    }

    /** `getRouteData(trackingNumber)`: a cached GET. */
    method GetRouteData(trackingNumber: string, now: int, storedAt: int,
                        fetchAt: nat -> FetchReply, authAt: nat -> AuthReply)
      returns (outcome: RequestOutcome, fetches: nat, auths: nat, delays: seq<nat>)
      modifies this`cache, this`authToken
      ensures var spec := Request(old(cache), old(authToken), RoutePath(trackingNumber), NoOptions, true, now, storedAt, fetchAt, authAt);
        && outcome == spec.outcome && cache == spec.cache && authToken == spec.token
        && fetches == spec.fetches && auths == spec.auths && delays == spec.delays
    {
      outcome, fetches, auths, delays := MakeRequest(RoutePath(trackingNumber), NoOptions, true, now, storedAt, fetchAt, authAt);
    }

    /** `getStatusUpdates(trackingNumber, since)`: a cached GET. */
    method GetStatusUpdates(trackingNumber: string, since: Option<nat>, now: int, storedAt: int,
                            fetchAt: nat -> FetchReply, authAt: nat -> AuthReply)
      returns (outcome: RequestOutcome, fetches: nat, auths: nat, delays: seq<nat>)
      modifies this`cache, this`authToken
      ensures var spec := Request(old(cache), old(authToken), UpdatesPath(trackingNumber, since), NoOptions, true, now, storedAt, fetchAt, authAt);
        && outcome == spec.outcome && cache == spec.cache && authToken == spec.token
        && fetches == spec.fetches && auths == spec.auths && delays == spec.delays
    {
      outcome, fetches, auths, delays := MakeRequest(UpdatesPath(trackingNumber, since), NoOptions, true, now, storedAt, fetchAt, authAt);
    }
  }
}
