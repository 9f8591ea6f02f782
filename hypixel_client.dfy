/** The Hypixel client around its network calls: which replies become which
    errors, how the API key joins the query parameters, the three-attempt
    retry policy, the empty-profiles check and the Mojang id lookup. The
    network itself is a parameter: a function from a request and the attempt
    number to the reply it produced. */
module HypixelClient {
  import opened Results
  import opened JsonValues
  import opened PlayerIds

  /** The transport failures of httpx: `TimeoutException` and `NetworkError`,
      which the retry policy retries, and any other transport error (a
      protocol or proxy error, too many redirects), which it does not. */
  datatype TransportFault = Timeout | NetworkError | OtherTransport

  /** What one request produced: a transport failure, or a status and a
      decoded body. */
  datatype Reply = Failed(fault: TransportFault) | Response(status: int, body: Json)

  /** `retry_if_exception_type((httpx.TimeoutException, httpx.NetworkError))`:
      the replies after which another attempt is made. */
  predicate Retries(reply: Reply) {
    reply.Failed? && (reply.fault.Timeout? || reply.fault.NetworkError?)
  }

  /** An outbound request: the endpoint path and its query parameters. */
  datatype Request = Request(endpoint: string, params: map<string, string>)

  /** Which "not found" the client reports: a 404 from Hypixel, an unknown
      in-game name at Mojang, or a player without Skyblock profiles. */
  datatype NotFoundCause = UnknownPlayer | UnknownIgn(ign: string) | NoProfiles

  /** The errors the client raises. `PlayerNotFound`, `RateLimited`,
      `ServerError`, `HttpError`, `Unsuccessful` and `MojangError` are the
      client's own API errors; `Transport` is an httpx error escaping a call
      without retries, `RetriesExhausted` the retry library's error once every
      attempt failed, and `Malformed` a Python error raised by a body of the
      wrong shape. */
  datatype Failure =
    | PlayerNotFound(cause: NotFoundCause)
    | RateLimited
    | ServerError(status: int)
    | HttpError(status: int)
    | Unsuccessful(reason: Json)
    | MojangError(status: int)
    | Transport(fault: TransportFault)
    | RetriesExhausted(last: TransportFault)
    | Malformed(pyFault: PyFault)

  const MaxAttempts: nat := 3
  const ProfilesEndpoint: string := "/v2/skyblock/profiles"
  const PlayerEndpoint: string := "/player"

  /** The statuses httpx's `raise_for_status` accepts. */
  predicate IsSuccess(status: int) {
    200 <= status < 300
  }

  /** The body of `_get` after the reply arrived: the status checks in order,
      then the `success` flag of the body. */
  function ClassifyResponse(status: int, body: Json): (r: Result<Json, Failure>)
    ensures r == Err(PlayerNotFound(UnknownPlayer)) <==> status == 404
    ensures r == Err(RateLimited) <==> status == 429
    ensures r == Err(ServerError(status)) <==> status >= 500
    ensures r == Err(HttpError(status)) <==> !IsSuccess(status) && status != 404 && status != 429 && status < 500
    ensures IsSuccess(status) && body.Obj? && !Truthy(GetOr(body.fields, "success", Null)) ==>
      r == Err(Unsuccessful(GetOr(body.fields, "cause", Str("Unknown error"))))
    ensures IsSuccess(status) && !body.Obj? ==> r == Err(Malformed(AttributeError))
    ensures r.Ok? <==> IsSuccess(status) && body.Obj? && Truthy(GetOr(body.fields, "success", Null))
    ensures r.Ok? ==> r.value == body
  {
    if status == 404 then Err(PlayerNotFound(UnknownPlayer))
    else if status == 429 then Err(RateLimited)
    else if status >= 500 then Err(ServerError(status))
    else if !IsSuccess(status) then Err(HttpError(status))
    else match body
      case Obj(fields) =>
        if Truthy(GetOr(fields, "success", Null)) then Ok(body)
        else Err(Unsuccessful(GetOr(fields, "cause", Str("Unknown error"))))
      case _ => Err(Malformed(AttributeError))
  }

  /** `if self.api_key:` — a configured, non-empty key. */
  predicate HasKey(apiKey: Option<string>) {
    apiKey.Some? && apiKey.value != ""
  }

  /** The parameters after `params['key'] = self.api_key` when a key is set. */
  function WithApiKey(params: map<string, string>, apiKey: Option<string>): (r: map<string, string>)
    ensures HasKey(apiKey) ==> r.Keys == params.Keys + {"key"} && r["key"] == apiKey.value
    ensures forall k :: k in params && k != "key" ==> k in r && r[k] == params[k]
    ensures !HasKey(apiKey) ==> r == params
  {
    if HasKey(apiKey) then params["key" := apiKey.value] else params
  }

  /** Attaching the key again, as every retried attempt does, changes nothing. */
  lemma WithApiKeyIdempotent(params: map<string, string>, apiKey: Option<string>)
    ensures WithApiKey(WithApiKey(params, apiKey), apiKey) == WithApiKey(params, apiKey)
  {
  }

  /** The query-parameter dict a caller hands to `_get`, which adds the key to
      it in place. */
  class Params {
    var entries: map<string, string>

    constructor (initial: map<string, string>)
      ensures entries == initial
    {
      entries := initial;
    }

    method AttachApiKey(apiKey: Option<string>)
      modifies this
      ensures entries == WithApiKey(old(entries), apiKey)
    {
      if HasKey(apiKey) {
        entries := entries["key" := apiKey.value];
      }
    }
  }

  /** The attempts the retry policy makes for `req`, counting from attempt
      `k`: it stops at the first outcome that is not a retried transport
      failure, or after the third attempt. */
  function AttemptsFrom(network: (Request, nat) -> Reply, req: Request, k: nat): (n: nat)
    requires k < MaxAttempts
    ensures k < n <= MaxAttempts
    ensures forall j :: k <= j < n - 1 ==> Retries(network(req, j))
    ensures n < MaxAttempts ==> !Retries(network(req, n - 1))
    decreases MaxAttempts - k
  {
    if k + 1 == MaxAttempts || !Retries(network(req, k)) then k + 1
    else AttemptsFrom(network, req, k + 1)
  }

  /** What a retried call ends with: the last reply classified; a transport
      error the policy does not retry, raised as it is; or the retry library's
      error when even the last attempt failed with a retried one. */
  function Settle(reply: Reply): (r: Result<Json, Failure>)
    ensures r.Err? && r.error.RetriesExhausted? <==> Retries(reply)
    ensures Retries(reply) ==> r == Err(RetriesExhausted(reply.fault))
    ensures reply.Failed? && !Retries(reply) ==> r == Err(Transport(reply.fault))
    ensures reply.Response? ==> r == ClassifyResponse(reply.status, reply.body)
    ensures r.Ok? ==> reply.Response? && IsSuccess(reply.status) && r.value == reply.body
  {
    match reply
    case Failed(fault) => if Retries(reply) then Err(RetriesExhausted(fault)) else Err(Transport(fault))
    case Response(status, body) => ClassifyResponse(status, body)
  }

  /** The outcome of a retried `_get` of `req`. */
  function Fetch(network: (Request, nat) -> Reply, req: Request): (r: Result<Json, Failure>)
    ensures r.Err? && r.error.RetriesExhausted? <==>
      Retries(network(req, 0)) && Retries(network(req, 1)) && Retries(network(req, 2))
    ensures network(req, 0).Response? ==> r == ClassifyResponse(network(req, 0).status, network(req, 0).body)
    ensures forall j :: 0 <= j < MaxAttempts && (forall i :: 0 <= i < j ==> Retries(network(req, i))) ==>
      && (network(req, j).Response? ==> r == ClassifyResponse(network(req, j).status, network(req, j).body))
      && (network(req, j).Failed? && !Retries(network(req, j)) ==> r == Err(Transport(network(req, j).fault)))
  {
    Settle(network(req, AttemptsFrom(network, req, 0) - 1))
  }

  /** The request `_get(endpoint, params)` sends: an absent dict is a fresh `{}`. */
  function Sent(endpoint: string, params: Option<map<string, string>>, apiKey: Option<string>): (r: Request)
    ensures r.endpoint == endpoint
    ensures r.params == WithApiKey(if params.Some? then params.value else map[], apiKey)
    ensures params.None? ==> r.params == if HasKey(apiKey) then map["key" := apiKey.value] else map[]
    ensures params.Some? ==> forall k :: k in params.value && k != "key" ==> k in r.params && r.params[k] == params.value[k]
    ensures HasKey(apiKey) ==> "key" in r.params && r.params["key"] == apiKey.value
  {
    Request(endpoint, WithApiKey(if params.Some? then params.value else map[], apiKey))
  }

  /** One attempt of `_get`: default the parameters, attach the key (into the
      caller's dict when there is one) and send. */
  method SendOnce(apiKey: Option<string>, endpoint: string, params: Params?,
                  network: (Request, nat) -> Reply, attempt: nat) returns (reply: Reply)
    modifies params
    ensures params != null ==> params.entries == WithApiKey(old(params.entries), apiKey)
    ensures reply == network(Sent(endpoint, if params == null then None else Some(old(params.entries)), apiKey), attempt)
  {
    var query: map<string, string>;
    if params == null {
      query := WithApiKey(map[], apiKey);
    } else {
      params.AttachApiKey(apiKey);
      query := params.entries;
    }
    reply := network(Request(endpoint, query), attempt);
  }

  /** `_get` under its retry decorator: an attempt that times out or meets a
      network error is repeated, up to three attempts in all; any reply, or
      any other transport error, ends the loop. */
  method Get(apiKey: Option<string>, endpoint: string, params: Params?,
             network: (Request, nat) -> Reply) returns (r: Result<Json, Failure>, attempts: nat)
    modifies params
    ensures params != null ==> params.entries == WithApiKey(old(params.entries), apiKey)
    ensures var req := Sent(endpoint, if params == null then None else Some(old(params.entries)), apiKey);
      attempts == AttemptsFrom(network, req, 0) && r == Fetch(network, req)
  {
    ghost var req := Sent(endpoint, if params == null then None else Some(params.entries), apiKey);
    var reply := SendOnce(apiKey, endpoint, params, network, 0);
    attempts := 1;
    while Retries(reply) && attempts < MaxAttempts
      invariant 1 <= attempts <= MaxAttempts
      invariant params != null ==> params.entries == WithApiKey(old(params.entries), apiKey)
      invariant reply == network(req, attempts - 1)
      invariant AttemptsFrom(network, req, 0) == AttemptsFrom(network, req, attempts - 1)
      decreases MaxAttempts - attempts
    {
      if params != null {
        WithApiKeyIdempotent(old(params.entries), apiKey);
      }
      reply := SendOnce(apiKey, endpoint, params, network, attempts);
      attempts := attempts + 1;
    }
    r := Settle(reply);
  }

  /** The check `get_skyblock_profiles` applies to the reply of `_get`: a
      missing, null or empty `profiles` means the player has none. */
  function RequireProfiles(data: Result<Json, Failure>): (r: Result<Json, Failure>)
    ensures data.Err? ==> r == data
    ensures data.Ok? && data.value.Obj? ==>
      (r == data <==> Truthy(GetOr(data.value.fields, "profiles", Null)))
    ensures data.Ok? && data.value.Obj? && !Truthy(GetOr(data.value.fields, "profiles", Null)) ==>
      r == Err(PlayerNotFound(NoProfiles))
  {
    match data
    case Err(_) => data
    case Ok(body) =>
      match body
      case Obj(fields) => if Truthy(GetOr(fields, "profiles", Null)) then data else Err(PlayerNotFound(NoProfiles))
      case _ => Err(Malformed(AttributeError))
  }

  /** `get_skyblock_profiles(uuid)`: the dashes are stripped, the id is the
      only parameter besides the key, and a reply without profiles is a
      "not found". */
  method GetSkyblockProfiles(apiKey: Option<string>, uuid: string,
                             network: (Request, nat) -> Reply) returns (r: Result<Json, Failure>)
    ensures r == RequireProfiles(Fetch(network, Sent(ProfilesEndpoint, Some(map["uuid" := StripDashes(uuid)]), apiKey)))
  {
    var params := new Params(map["uuid" := StripDashes(uuid)]);
    var data, _ := Get(apiKey, ProfilesEndpoint, params, network);
    r := RequireProfiles(data);
  }

  /** `get_player_data(uuid)`: the same request shape against the player
      endpoint, without the profiles check. */
  method GetPlayerData(apiKey: Option<string>, uuid: string,
                       network: (Request, nat) -> Reply) returns (r: Result<Json, Failure>)
    ensures r == Fetch(network, Sent(PlayerEndpoint, Some(map["uuid" := StripDashes(uuid)]), apiKey))
  {
    var params := new Params(map["uuid" := StripDashes(uuid)]);
    var attempts;
    r, attempts := Get(apiKey, PlayerEndpoint, params, network);
  }

  /** `get_uuid_from_ign(ign)` given the Mojang reply: a single attempt; 404
      names the unknown name, other non-2xx statuses are Mojang errors, and
      the `id` of the body is hyphenated. */
  function UuidFromIgn(ign: string, reply: Reply): (r: Result<string, Failure>)
    ensures reply.Failed? ==> r == Err(Transport(reply.fault))
    ensures reply.Response? && reply.status == 404 ==> r == Err(PlayerNotFound(UnknownIgn(ign)))
    ensures reply.Response? && reply.status != 404 && !IsSuccess(reply.status) ==> r == Err(MojangError(reply.status))
    ensures r.Ok? ==> (reply.Response? && IsSuccess(reply.status) && reply.body.Obj?
      && "id" in reply.body.fields && reply.body.fields["id"].Str?
      && r.value == Hyphenate(reply.body.fields["id"].s))
    ensures (reply.Response? && IsSuccess(reply.status) && reply.body.Obj? && "id" in reply.body.fields
             && reply.body.fields["id"].Str?) ==> r == Ok(Hyphenate(reply.body.fields["id"].s))
    ensures reply.Response? && IsSuccess(reply.status) && reply.body.Obj? && "id" !in reply.body.fields
      ==> r == Err(Malformed(KeyError))
    ensures reply.Response? && IsSuccess(reply.status) && !reply.body.Obj? ==> r == Err(Malformed(TypeError))
    ensures (reply.Response? && IsSuccess(reply.status) && reply.body.Obj? && "id" in reply.body.fields
             && !reply.body.fields["id"].Str?) ==> r == Err(Malformed(TypeError))
  {
    match reply
    case Failed(fault) => Err(Transport(fault))
    case Response(status, body) =>
      if status == 404 then Err(PlayerNotFound(UnknownIgn(ign)))
      else if !IsSuccess(status) then Err(MojangError(status))
      else match Subscript(body, "id")
        case Err(fault) => Err(Malformed(fault))
        case Ok(id) => if id.Str? then Ok(Hyphenate(id.s)) else Err(Malformed(TypeError))
  }

  /** A Mojang id without dashes survives the round trip: hyphenated by the
      lookup, stripped again before the profile request. */
  lemma UuidRoundTrip(ign: string, reply: Reply)
    requires UuidFromIgn(ign, reply).Ok?
    requires '-' !in reply.body.fields["id"].s
    ensures StripDashes(UuidFromIgn(ign, reply).value) == reply.body.fields["id"].s
  {
    HyphenateRoundTrip(reply.body.fields["id"].s);
  }

  /** Only timeouts and network errors are retried: a reply of any status on
      the first attempt is classified at once, any other transport error on
      the first attempt escapes at once, a reply after one retried failure is
      classified, and with three retried failures the call gives up with the
      last one. */
  lemma RetryPolicy(network: (Request, nat) -> Reply, req: Request)
    ensures network(req, 0).Response? ==>
      AttemptsFrom(network, req, 0) == 1 && Fetch(network, req) == ClassifyResponse(network(req, 0).status, network(req, 0).body)
    ensures network(req, 0) == Failed(OtherTransport) ==>
      AttemptsFrom(network, req, 0) == 1 && Fetch(network, req) == Err(Transport(OtherTransport))
    ensures Retries(network(req, 0)) && network(req, 1).Response? ==>
      AttemptsFrom(network, req, 0) == 2 && Fetch(network, req) == ClassifyResponse(network(req, 1).status, network(req, 1).body)
    ensures Retries(network(req, 0)) && Retries(network(req, 1)) && Retries(network(req, 2)) ==>
      AttemptsFrom(network, req, 0) == MaxAttempts && Fetch(network, req) == Err(RetriesExhausted(network(req, 2).fault))
  {
  }
}
