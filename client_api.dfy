/** frontend/src/services/api.ts: the browser's client of the backend. */
module ClientApi {
  import opened Wrappers
  import opened Http

  const DEFAULT_API_URL: string := "http://localhost:3001/api"
  const CHARACTERS_PREFIX: string := "/msu/characters/"
  const GUILDS_PREFIX: string := "/msu/guilds/"
  const ITEMS_PREFIX: string := "/msu/items/"

  /** `API_BASE_URL`: the build-time variable, or the local default. */
  function ApiBaseUrl(envUrl: Option<string>): (url: string)
    ensures Truthy(envUrl) ==> url == envUrl.value
    ensures !Truthy(envUrl) ==> url == DEFAULT_API_URL
    ensures url != ""
  {
    Or(envUrl, DEFAULT_API_URL)
  }

  /** A failed request as the client sees it: the response status, if there was a response. */
  datatype ClientError = ClientError(status: Option<int>, message: string)

  datatype Verb = GET | POST

  /** A request as the configured client sends it. */
  datatype ClientRequest = ClientRequest(verb: Verb, baseUrl: string, path: string, params: Params, body: Option<Json>)

  /** The HTTP client and the backend behind it: `response.data`, or the error. */
  type ClientTransport = ClientRequest -> Result<Json, ClientError>

  /** The console lines the response interceptor writes for a failure. */
  datatype LogLine = ResponseErrorLine | UnauthorizedLine | RateLimitLine

  /** The response interceptor's error branch: it logs and rejects with the very same error. */
  function InterceptResponseError(error: ClientError): (r: (ClientError, seq<LogLine>))
    ensures r.0 == error
    ensures |r.1| >= 1 && r.1[0] == ResponseErrorLine
    ensures UnauthorizedLine in r.1 <==> error.status == Some(401)
    ensures RateLimitLine in r.1 <==> error.status == Some(429)
  {
    if error.status == Some(401) then (error, [ResponseErrorLine, UnauthorizedLine])
    else if error.status == Some(429) then (error, [ResponseErrorLine, RateLimitLine])
    else (error, [ResponseErrorLine])
  }

  /** What a request resolves or rejects with once the interceptor has run. */
  function Deliver(result: Result<Json, ClientError>): (r: Result<Json, ClientError>)
    // for every status, 401 and 429 included, the caller sees exactly what the transport gave
    ensures r == result
  {
    match result
    case Ok(data) => Ok(data)
    case Err(e) => Err(InterceptResponseError(e).0)
  }

  /** `{}`, plus `server` when truthy and `limit` when truthy (so never a zero limit). */
  function ClientListParams(server: Option<string>, limit: Option<int>): (p: Params)
    ensures p.Keys == (if Truthy(server) then {"server"} else {}) + (if TruthyNum(limit) then {"limit"} else {})
    ensures "server" in p ==> p["server"] == PStr(server.value)
    ensures "limit" in p ==> p["limit"] == PNum(limit.value)
    ensures server.None? && limit.None? ==> p == map[]
  {
    var withServer: Params := if Truthy(server) then map["server" := PStr(server.value)] else map[];
    if TruthyNum(limit) then withServer["limit" := PNum(limit.value)] else withServer
  }

  /** `{}`, plus each of `type`, `rarity` and `limit` when it is truthy. */
  function ClientItemParams(itemType: Option<string>, rarity: Option<string>, limit: Option<int>): (p: Params)
    ensures p.Keys == (if Truthy(itemType) then {"type"} else {}) + (if Truthy(rarity) then {"rarity"} else {})
                      + (if TruthyNum(limit) then {"limit"} else {})
    ensures "type" in p ==> p["type"] == PStr(itemType.value)
    ensures "rarity" in p ==> p["rarity"] == PStr(rarity.value)
    ensures "limit" in p ==> p["limit"] == PNum(limit.value)
  {
    var withType: Params := if Truthy(itemType) then map["type" := PStr(itemType.value)] else map[];
    var withRarity := if Truthy(rarity) then withType["rarity" := PStr(rarity.value)] else withType;
    if TruthyNum(limit) then withRarity["limit" := PNum(limit.value)] else withRarity
  }

  /** A single-entity path: the collection's fixed prefix, then the id as given. */
  function EntityPath(prefix: string, id: string): (path: string)
    ensures |path| == |prefix| + |id|
    ensures path[..|prefix|] == prefix && path[|prefix|..] == id
  {
    prefix + id
  }

  /** Reads the id back out of a single-entity path. */
  function EntityId(prefix: string, path: string): Option<string> {
    if |path| >= |prefix| && path[..|prefix|] == prefix then Some(path[|prefix|..]) else None
  }

  /** The id is recovered from its path, and a path that yields an id is that id's path. */
  lemma EntityPathRoundTrip(prefix: string, id: string, path: string)
    ensures EntityId(prefix, EntityPath(prefix, id)) == Some(id)
    ensures EntityId(prefix, path) == Some(id) ==> path == EntityPath(prefix, id)
  {
    if EntityId(prefix, path) == Some(id) {
      assert path == path[..|prefix|] + path[|prefix|..];
    }
  }

  /** `ApiService`: the client configured once with the base URL; the transport stands for axios. */
  class ApiService {
    const baseUrl: string
    const transport: ClientTransport

    constructor(envUrl: Option<string>, transport: ClientTransport)
      ensures baseUrl == ApiBaseUrl(envUrl) && this.transport == transport
    {
      baseUrl := ApiBaseUrl(envUrl);
      this.transport := transport;
    }

    /** `this.api.get(path, { params })`, through the interceptor. */
    function Get(path: string, params: Params): Result<Json, ClientError> {
      Deliver(transport(ClientRequest(GET, baseUrl, path, params, None)))
    }

    method HealthCheck() returns (r: Result<Json, ClientError>)
      ensures r == transport(ClientRequest(GET, baseUrl, "/health", map[], None))
    {
      r := Get("/health", map[]);
    }

    method GetServers() returns (r: Result<Json, ClientError>)
      ensures r == transport(ClientRequest(GET, baseUrl, "/msu/servers", map[], None))
    {
      r := Get("/msu/servers", map[]);
    }

    method MsuHealthCheck() returns (r: Result<Json, ClientError>)
      ensures r == transport(ClientRequest(GET, baseUrl, "/msu/health", map[], None))
    {
      r := Get("/msu/health", map[]);
    }

    method GetCharacters(server: Option<string>, limit: Option<int>) returns (r: Result<Json, ClientError>)
      ensures r == transport(ClientRequest(GET, baseUrl, "/msu/characters", ClientListParams(server, limit), None))
    {
      var params: Params := map[];
      if Truthy(server) {
        params := params["server" := PStr(server.value)];
      }
      if TruthyNum(limit) {
        params := params["limit" := PNum(limit.value)];
      }
      r := Get("/msu/characters", params);
    }

    method GetCharacter(characterId: string) returns (r: Result<Json, ClientError>)
      ensures r == transport(ClientRequest(GET, baseUrl, EntityPath(CHARACTERS_PREFIX, characterId), map[], None))
    {
      r := Get(CHARACTERS_PREFIX + characterId, map[]);
    }

    method SearchCharacters(query: string, server: Option<string>) returns (r: Result<Json, ClientError>)
      ensures r == transport(ClientRequest(GET, baseUrl, "/msu/characters/search", SearchParams(query, "server", server), None))
    {
      var params: Params := map["q" := PStr(query)];
      if Truthy(server) {
        params := params["server" := PStr(server.value)];
      }
      r := Get("/msu/characters/search", params);
    }

    method GetGuilds(server: Option<string>, limit: Option<int>) returns (r: Result<Json, ClientError>)
      ensures r == transport(ClientRequest(GET, baseUrl, "/msu/guilds", ClientListParams(server, limit), None))
    {
      var params: Params := map[];
      if Truthy(server) {
        params := params["server" := PStr(server.value)];
      }
      if TruthyNum(limit) {
        params := params["limit" := PNum(limit.value)];
      }
      r := Get("/msu/guilds", params);
    }

    method GetGuild(guildId: string) returns (r: Result<Json, ClientError>)
      ensures r == transport(ClientRequest(GET, baseUrl, EntityPath(GUILDS_PREFIX, guildId), map[], None))
    {
      r := Get(GUILDS_PREFIX + guildId, map[]);
    }

    method SearchGuilds(query: string, server: Option<string>) returns (r: Result<Json, ClientError>)
      ensures r == transport(ClientRequest(GET, baseUrl, "/msu/guilds/search", SearchParams(query, "server", server), None))
    {
      var params: Params := map["q" := PStr(query)];
      if Truthy(server) {
        params := params["server" := PStr(server.value)];
      }
      r := Get("/msu/guilds/search", params);
    }

    method GetItems(itemType: Option<string>, rarity: Option<string>, limit: Option<int>)
      returns (r: Result<Json, ClientError>)
      ensures r == transport(ClientRequest(GET, baseUrl, "/msu/items", ClientItemParams(itemType, rarity, limit), None))
    {
      var params: Params := map[];
      if Truthy(itemType) {
        params := params["type" := PStr(itemType.value)];
      }
      if Truthy(rarity) {
        params := params["rarity" := PStr(rarity.value)];
      }
      if TruthyNum(limit) {
        params := params["limit" := PNum(limit.value)];
      }
      r := Get("/msu/items", params);
    }

    method GetItem(itemId: string) returns (r: Result<Json, ClientError>)
      ensures r == transport(ClientRequest(GET, baseUrl, EntityPath(ITEMS_PREFIX, itemId), map[], None))
    {
      r := Get(ITEMS_PREFIX + itemId, map[]);
    }

    method SearchItems(query: string, itemType: Option<string>) returns (r: Result<Json, ClientError>)
      ensures r == transport(ClientRequest(GET, baseUrl, "/msu/items/search", SearchParams(query, "type", itemType), None))
    {
      var params: Params := map["q" := PStr(query)];
      if Truthy(itemType) {
        params := params["type" := PStr(itemType.value)];
      }
      r := Get("/msu/items/search", params);
    }

    method Login(email: string, password: string) returns (r: Result<Json, ClientError>)
      ensures r == transport(ClientRequest(POST, baseUrl, "/auth/login", map[],
                                           Some(JObj(map["email" := JStr(email), "password" := JStr(password)]))))
    {
      var body := JObj(map["email" := JStr(email), "password" := JStr(password)]);
      r := Deliver(transport(ClientRequest(POST, baseUrl, "/auth/login", map[], Some(body))));
    }

    method GetProfile() returns (r: Result<Json, ClientError>)
      ensures r == transport(ClientRequest(GET, baseUrl, "/auth/profile", map[], None))
    {
      r := Get("/auth/profile", map[]);
    }
  }
}
