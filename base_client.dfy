/** `CloudflareBaseClient`: the configuration defaults, and `request`, the
    bounded retry loop with exponential backoff that every resource client
    goes through. The network is not modelled: the outcome of attempt `a` is
    `outcome(a)`, the random factor drawn after it is `jitter(a)`, and the
    sleeps are recorded as a list of delays. */
module BaseClient {
  import opened Common

  const DefaultBaseUrl := "https://api.cloudflare.com/client/v4"
  const DefaultTimeout := 15000
  const DefaultMaxRetries := 3

  /** `CloudflareClientConfig`; the optional fields are `Option`s. */
  datatype ClientConfig = ClientConfig(
    accountId: string,
    apiToken: string,
    baseUrl: Option<string>,
    timeout: Option<int>,
    maxRetries: Option<int>)

  /** `config.x || default` for a string. */
  function StringOr(o: Option<string>, default: string): (r: string)
    ensures o.Some? && o.value != "" ==> r == o.value
    ensures o.None? || o.value == "" ==> r == default
  {
    if TruthyString(o) then o.value else default
  }

  /** `config.x || default` for a number: `0` falls back to the default, a
      negative number is kept. */
  function NumberOr(o: Option<int>, default: int): (r: int)
    ensures o.Some? && o.value != 0 ==> r == o.value
    ensures o.None? || o.value == 0 ==> r == default
  {
    if TruthyNumber(o) then o.value else default
  }

  datatype HttpMethod = GET | POST | PUT | DELETE

  /** The `RequestInit` a caller passes: method, body and extra headers. */
  datatype RequestInit = RequestInit(verb: HttpMethod, body: Option<string>, headers: map<string, string>)

  /** What one attempt hands to `fetch`: the URL, the init with the merged
      headers, and the timeout after which the attempt is aborted. */
  datatype SentRequest = SentRequest(
    url: string,
    verb: HttpMethod,
    headers: map<string, string>,
    body: Option<string>,
    timeoutMs: int)

  /** How one attempt ends. */
  datatype AttemptOutcome =
    | Response(ok: bool, status: int, statusText: string, body: Value)  // the body parsed as JSON
    | Thrown(reason: string)  // fetch rejected, the timeout aborted it, or the body was not JSON

  predicate Succeeds(o: AttemptOutcome) {
    o.Response? && o.ok
  }

  /** The error a failed attempt leaves in `lastError`: a non-ok response is
      turned into an error inside the `try`, exactly like a thrown one. */
  function AttemptError(o: AttemptOutcome): (e: Error)
    requires !Succeeds(o)
    ensures o.Response? ==> e == ApiError(o.status, o.statusText, o.body)
    ensures o.Thrown? ==> e == TransportError(o.reason)
  {
    match o
    case Response(_, status, statusText, body) => ApiError(status, statusText, body)
    case Thrown(reason) => TransportError(reason)
  }

  /** The headers of every attempt: the bearer token and the JSON content
      type, which the caller's own headers override. */
  function RequestHeaders(apiToken: string, callerHeaders: map<string, string>): (h: map<string, string>)
    ensures h.Keys == {"Authorization", "Content-Type"} + callerHeaders.Keys
    ensures forall k :: k in callerHeaders ==> h[k] == callerHeaders[k]
    ensures "Authorization" !in callerHeaders ==> h["Authorization"] == "Bearer " + apiToken
    ensures "Content-Type" !in callerHeaders ==> h["Content-Type"] == "application/json"
  {
    map["Authorization" := "Bearer " + apiToken, "Content-Type" := "application/json"] + callerHeaders
  }

  function Pow2(a: nat): (p: nat)
    ensures p >= 1
  {
    if a == 0 then 1 else 2 * Pow2(a - 1)
  }

  /** Scaling by `0.5 + random * 0.5` keeps at least half and less than all. */
  lemma JitterBounds(nominal: real, random: real)
    requires nominal > 0.0 && 0.0 <= random < 1.0
    ensures nominal * 0.5 <= nominal * (0.5 + random * 0.5) < nominal
  {
    var half := nominal * 0.5;
    assert nominal * (0.5 + random * 0.5) == half + half * random;
    assert 0.0 <= half * random < half by {
      assert half * (1.0 - random) > 0.0;
    }
  }

  /** `Math.min(1000 * 2 ** a * (0.5 + random * 0.5), 10000)` with `random`
      in `[0, 1)`: at least half the nominal delay `1000 * 2 ** a`, below it,
      and never above ten seconds. */
  function Backoff(a: nat, random: real): (d: real)
    requires 0.0 <= random < 1.0
    ensures (if 500 * Pow2(a) < 10000 then 500 * Pow2(a) else 10000) as real <= d <= 10000.0
    ensures d < (1000 * Pow2(a)) as real
  {
    var nominal := (1000 * Pow2(a)) as real;
    var raw := nominal * (0.5 + random * 0.5);
    JitterBounds(nominal, random);
    if raw < 10000.0 then raw else 10000.0
  }

  /** The index of the first successful attempt among the first `n`, or `n`
      when none of them succeeds. */
  function FirstSuccess(outcome: nat -> AttemptOutcome, n: nat): (k: nat)
    ensures k <= n
    ensures forall j :: 0 <= j < k ==> !Succeeds(outcome(j))
    ensures k < n ==> Succeeds(outcome(k))
  {
    if n == 0 then 0
    else
      var k := FirstSuccess(outcome, n - 1);
      if k < n - 1 then k else if Succeeds(outcome(n - 1)) then n - 1 else n
  }

  /** Extending the horizon does not move an earlier success. */
  lemma {:induction false} FirstSuccessStable(outcome: nat -> AttemptOutcome, n: nat, m: nat)
    requires n <= m
    requires FirstSuccess(outcome, n) < n
    ensures FirstSuccess(outcome, m) == FirstSuccess(outcome, n)
  {
    if n < m {
      FirstSuccessStable(outcome, n, m - 1);
    }
  }

  class CloudflareBaseClient {
    const accountId: string
    const apiToken: string
    const baseUrl: string
    const timeout: int
    const maxRetries: int

    constructor(config: ClientConfig)
      ensures accountId == config.accountId && apiToken == config.apiToken
      ensures baseUrl == StringOr(config.baseUrl, DefaultBaseUrl)
      ensures timeout == NumberOr(config.timeout, DefaultTimeout)
      ensures maxRetries == NumberOr(config.maxRetries, DefaultMaxRetries)
    {
      accountId := config.accountId;
      apiToken := config.apiToken;
      baseUrl := StringOr(config.baseUrl, DefaultBaseUrl);
      timeout := NumberOr(config.timeout, DefaultTimeout);
      maxRetries := NumberOr(config.maxRetries, DefaultMaxRetries);
    }

    /** The number of attempts the loop allows: `maxRetries`, none when it is
        not positive. */
    function AttemptBudget(): (n: nat)
      reads this
      ensures maxRetries > 0 ==> n == maxRetries
      ensures maxRetries <= 0 ==> n == 0
    {
      if maxRetries > 0 then maxRetries else 0
    }

    /** `request(path, init)`. Returns the body of the first ok response, or
        the error of the last attempt when all `maxRetries` fail, or
        `RequestFailed` when no attempt is made; `sent` lists what each
        attempt sent and `delays` the sleeps between attempts. */
    method Request(path: string, init: RequestInit, outcome: nat -> AttemptOutcome, jitter: nat -> real)
      returns (r: Result<Value>, sent: seq<SentRequest>, delays: seq<real>)
      requires forall a: nat :: 0.0 <= jitter(a) < 1.0
      ensures var n := AttemptBudget(); var k := FirstSuccess(outcome, n);
        && (r.Ok? <==> k < n)
        && (k < n ==> r == Ok(outcome(k).body) && |sent| == k + 1 && |delays| == k)
        && (k == n && n > 0 ==> r == Err(AttemptError(outcome(n - 1))) && |sent| == n && |delays| == n - 1)
        && (n == 0 ==> r == Err(RequestFailed) && sent == [] && delays == [])
      ensures forall i :: 0 <= i < |sent| ==>
        sent[i] == SentRequest(baseUrl + path, init.verb, RequestHeaders(apiToken, init.headers), init.body, timeout)
      ensures forall i :: 0 <= i < |delays| ==> delays[i] == Backoff(i, jitter(i))
    {
      var url := baseUrl + path;
      var headers := RequestHeaders(apiToken, init.headers);
      var request := SentRequest(url, init.verb, headers, init.body, timeout);
      var lastError: Option<Error> := None;
      sent, delays := [], [];
      var attempt := 0;
      while attempt < maxRetries
        invariant 0 <= attempt <= AttemptBudget()
        invariant FirstSuccess(outcome, attempt) == attempt
        invariant |sent| == attempt
        invariant forall i :: 0 <= i < |sent| ==> sent[i] == request
        invariant |delays| == if attempt < maxRetries || attempt == 0 then attempt else attempt - 1
        invariant forall i :: 0 <= i < |delays| ==> delays[i] == Backoff(i, jitter(i))
        invariant attempt == 0 ==> lastError == None
        invariant attempt > 0 ==> lastError == Some(AttemptError(outcome(attempt - 1)))
      {
        sent := sent + [request];
        var o := outcome(attempt);
        if Succeeds(o) {
          FirstSuccessStable(outcome, attempt + 1, AttemptBudget());
          return Ok(o.body), sent, delays;
        }
        lastError := Some(AttemptError(o));
        if attempt < maxRetries - 1 {
          delays := delays + [Backoff(attempt, jitter(attempt))];
        }
        attempt := attempt + 1;
      }
      r := if lastError.Some? then Err(lastError.value) else Err(RequestFailed);
    }
  }

  /** `get(path)`: no body. */
  function GetInit(): (init: RequestInit)
    ensures init.verb == GET && init.body == None && init.headers == map[]
  {
    RequestInit(GET, None, map[])
  }

  /** `delete(path)`: no body. */
  function DeleteInit(): (init: RequestInit)
    ensures init.verb == DELETE && init.body == None && init.headers == map[]
  {
    RequestInit(DELETE, None, map[])
  }

  /** `post(path, body)`: `body ? JSON.stringify(body) : undefined`;
      `stringify` is `JSON.stringify`. */
  function PostInit(body: Value, stringify: Value -> string): (init: RequestInit)
    ensures init.verb == POST && init.headers == map[]
    ensures init.body.Some? <==> Truthy(body)
    ensures init.body.Some? ==> init.body.value == stringify(body)
  {
    RequestInit(POST, if Truthy(body) then Some(stringify(body)) else None, map[])
  }

  /** `put(path, body)`: as `post`. */
  function PutInit(body: Value, stringify: Value -> string): (init: RequestInit)
    ensures init.verb == PUT && init.headers == map[]
    ensures init.body.Some? <==> Truthy(body)
    ensures init.body.Some? ==> init.body.value == stringify(body)
  {
    RequestInit(PUT, if Truthy(body) then Some(stringify(body)) else None, map[])
  }
}
