/** backend/src/services/msuApiService.ts: the client of the upstream game-data API. */
module MsuApi {
  import opened Wrappers
  import opened Http
  import opened ErrorHandler

  const DEFAULT_BASE_URL: string := "https://openapi.msu.io/v1rc1"
  const DEFAULT_LIMIT: int := 50
  const MISSING_KEY_MESSAGE: string := "MSU API key không được cấu hình"
  const RATE_LIMIT_MESSAGE: string := "Đã vượt quá giới hạn API requests"
  const INVALID_KEY_MESSAGE: string := "API key không hợp lệ hoặc đã hết hạn"
  const API_FORBIDDEN_MESSAGE: string := "Không có quyền truy cập API"
  const UPSTREAM_SERVER_MESSAGE: string := "Lỗi server từ MSU API"
  const CONNECTION_MESSAGE: string := "Lỗi kết nối đến MSU API"

  /** A non-2xx upstream response: its status and the `message` field of its body, if any. */
  datatype UpstreamErrorResponse = UpstreamErrorResponse(status: int, dataMessage: Option<string>)

  /** A failed request: with an error response, or without one (network error, timeout). */
  datatype UpstreamFailure = UpstreamFailure(response: Option<UpstreamErrorResponse>)

  /** `MSUAPIResponse<T>` (types/index.ts): the upstream's own envelope. */
  datatype MsuApiResponse = MsuApiResponse(success: bool, data: Json, message: Option<string>, timestamp: string)

  /** A response the HTTP client resolves with. */
  datatype UpstreamReply = UpstreamReply(status: int, body: MsuApiResponse)

  /** A GET as the configured client sends it: base URL and bearer header come from the constructor. */
  datatype UpstreamRequest = UpstreamRequest(baseUrl: string, authorization: string, path: string, params: Params)

  /** The HTTP client and the upstream behind it, as an oracle. */
  type Transport = UpstreamRequest -> Result<UpstreamReply, UpstreamFailure>

  /** `error.response?.status`. */
  function FailureStatus(failure: UpstreamFailure): Option<int> {
    if failure.response.Some? then Some(failure.response.value.status) else None
  }

  /** `error.response?.data?.message`. */
  function FailureMessage(failure: UpstreamFailure): Option<string> {
    if failure.response.Some? then failure.response.value.dataMessage else None
  }

  /** The response interceptor's error branch: which `AppError` replaces an upstream failure. */
  function TranslateUpstreamError(failure: UpstreamFailure): (e: AppError)
    ensures e.isOperational
    ensures e.statusCode in {401, 403, 429, 502}
    // 401, 403 and 429 are forwarded; everything else, no response included, becomes 502
    ensures e.statusCode == (if FailureStatus(failure) in {Some(401), Some(403), Some(429)}
                             then FailureStatus(failure).value else 502)
    ensures e.code == "RATE_LIMIT_EXCEEDED" <==> FailureStatus(failure) == Some(429)
    ensures e.code == "INVALID_API_KEY" <==> FailureStatus(failure) == Some(401)
    ensures e.code == "API_FORBIDDEN" <==> FailureStatus(failure) == Some(403)
    ensures e.code == "MSU_API_ERROR" <==> e.statusCode == 502
    ensures FailureStatus(failure) == Some(429) ==> e.message == RATE_LIMIT_MESSAGE
    ensures FailureStatus(failure) == Some(401) ==> e.message == INVALID_KEY_MESSAGE
    ensures FailureStatus(failure) == Some(403) ==> e.message == API_FORBIDDEN_MESSAGE
    ensures FailureStatus(failure).Some? && FailureStatus(failure).value >= 500 ==>
      e.message == UPSTREAM_SERVER_MESSAGE
    // any other failure carries the upstream's message, or the connection message when it has none
    ensures e.statusCode == 502 && !(FailureStatus(failure).Some? && FailureStatus(failure).value >= 500) ==>
      e.message == Or(FailureMessage(failure), CONNECTION_MESSAGE)
  {
    var status := FailureStatus(failure);
    if status == Some(429) then NewAppError(RATE_LIMIT_MESSAGE, 429, "RATE_LIMIT_EXCEEDED")
    else if status == Some(401) then NewAppError(INVALID_KEY_MESSAGE, 401, "INVALID_API_KEY")
    else if status == Some(403) then NewAppError(API_FORBIDDEN_MESSAGE, 403, "API_FORBIDDEN")
    else if status.Some? && status.value >= 500 then NewAppError(UPSTREAM_SERVER_MESSAGE, 502, "MSU_API_ERROR")
    else NewAppError(Or(FailureMessage(failure), CONNECTION_MESSAGE), 502, "MSU_API_ERROR")
  }

  /** A failure without a response, the usual network error, is a 502 with the connection message. */
  lemma NoResponseIsConnectionError()
    ensures TranslateUpstreamError(UpstreamFailure(None)) ==
      AppError(CONNECTION_MESSAGE, 502, "MSU_API_ERROR", true)
  {
  }

  /** A 4xx other than 401, 403 and 429 forwards the upstream's message under 502. */
  lemma OtherClientErrorKeepsMessage(status: int, message: string)
    requires 400 <= status < 500 && status !in {401, 403, 429} && message != ""
    ensures TranslateUpstreamError(UpstreamFailure(Some(UpstreamErrorResponse(status, Some(message))))) ==
      AppError(message, 502, "MSU_API_ERROR", true)
  {
  }

  /** `{ limit }` plus `server` when it is truthy: the list queries for characters and guilds. */
  function ListParams(server: Option<string>, limit: int): (p: Params)
    ensures p.Keys == {"limit"} + (if Truthy(server) then {"server"} else {})
    ensures p["limit"] == PNum(limit)
    ensures "server" in p ==> p["server"] == PStr(server.value)
  {
    if Truthy(server) then map["limit" := PNum(limit), "server" := PStr(server.value)]
    else map["limit" := PNum(limit)]
  }

  /** `{ limit }` plus `type` and `rarity`, each when it is truthy. */
  function ItemListParams(itemType: Option<string>, rarity: Option<string>, limit: int): (p: Params)
    ensures p.Keys == {"limit"} + (if Truthy(itemType) then {"type"} else {}) + (if Truthy(rarity) then {"rarity"} else {})
    ensures p["limit"] == PNum(limit)
    ensures "type" in p ==> p["type"] == PStr(itemType.value)
    ensures "rarity" in p ==> p["rarity"] == PStr(rarity.value)
  {
    var withLimit := map["limit" := PNum(limit)];
    var withType := if Truthy(itemType) then withLimit["type" := PStr(itemType.value)] else withLimit;
    if Truthy(rarity) then withType["rarity" := PStr(rarity.value)] else withType
  }

  /** One call of the service's public methods, as the controllers make it. */
  datatype ServiceCall =
    | CharacterById(characterId: string)
    | CharacterList(server: Option<string>, limit: int)
    | CharacterSearch(query: string, server: Option<string>)
    | GuildById(guildId: string)
    | GuildList(server: Option<string>, limit: int)
    | GuildSearch(query: string, server: Option<string>)
    | ItemById(itemId: string)
    | ItemList(itemType: Option<string>, rarity: Option<string>, limit: int)
    | ItemSearch(query: string, itemType: Option<string>)
    | ServerList

  /** The upstream path each call requests: the collection's path, then the id or `/search`. */
  function CallPath(call: ServiceCall): (path: string)
    // each entity's calls stay under that entity's collection
    ensures |path| >= 2 && path[0] == '/'
    ensures path[1] == (if call.CharacterById? || call.CharacterList? || call.CharacterSearch? then 'c'
                        else if call.GuildById? || call.GuildList? || call.GuildSearch? then 'g'
                        else if call.ItemById? || call.ItemList? || call.ItemSearch? then 'i' else 's')
    ensures (call.CharacterById? || call.CharacterList? || call.CharacterSearch?) <==> "/characters" <= path
    ensures (call.GuildById? || call.GuildList? || call.GuildSearch?) <==> "/guilds" <= path
    ensures (call.ItemById? || call.ItemList? || call.ItemSearch?) <==> "/items" <= path
    ensures call.ServerList? <==> path == "/servers"
    // a single-entity call puts its id, unchanged, after the collection's path and a slash
    ensures call.CharacterById? ==> "/characters/" <= path && path[|"/characters/"|..] == call.characterId
    ensures call.GuildById? ==> "/guilds/" <= path && path[|"/guilds/"|..] == call.guildId
    ensures call.ItemById? ==> "/items/" <= path && path[|"/items/"|..] == call.itemId
  {
    match call
    case CharacterById(id) => "/characters/" + id
    case CharacterList(_, _) => "/characters"
    case CharacterSearch(_, _) => "/characters/search"
    case GuildById(id) => "/guilds/" + id
    case GuildList(_, _) => "/guilds"
    case GuildSearch(_, _) => "/guilds/search"
    case ItemById(id) => "/items/" + id
    case ItemList(_, _, _) => "/items"
    case ItemSearch(_, _) => "/items/search"
    case ServerList => "/servers"
  }

  /** The query parameters each call sends. */
  function CallParams(call: ServiceCall): (p: Params)
    ensures p.Keys <= {"q", "server", "type", "rarity", "limit"}
    ensures (call.CharacterList? || call.GuildList? || call.ItemList?) <==> "limit" in p
    ensures (call.CharacterSearch? || call.GuildSearch? || call.ItemSearch?) <==> "q" in p
  {
    match call
    case CharacterList(server, limit) => ListParams(server, limit)
    case CharacterSearch(query, server) => SearchParams(query, "server", server)
    case GuildList(server, limit) => ListParams(server, limit)
    case GuildSearch(query, server) => SearchParams(query, "server", server)
    case ItemList(itemType, rarity, limit) => ItemListParams(itemType, rarity, limit)
    case ItemSearch(query, itemType) => SearchParams(query, "type", itemType)
    case _ => map[]
  }

  /** `MSUApiService`: the configured client; every field is written by the constructor only. */
  class MSUApiService {
    const apiKey: string
    const baseUrl: string
    const transport: Transport

    /** The constructor after its key check: it keeps a non-empty key. */
    constructor(apiKey: string, baseUrl: string, transport: Transport)
      requires apiKey != ""
      ensures this.apiKey == apiKey && this.baseUrl == baseUrl && this.transport == transport
    {
      this.apiKey := apiKey;
      this.baseUrl := baseUrl;
      this.transport := transport;
    }

    /**
     * `new MSUApiService()` with the two environment variables: an absent or empty key
     * makes construction throw 500 `CONFIG_ERROR`; the base URL has a default.
     */
    static method Create(envApiKey: Option<string>, envBaseUrl: Option<string>, transport: Transport)
      returns (r: Result<MSUApiService, AppError>)
      ensures r.Err? <==> !Truthy(envApiKey)
      ensures r.Err? ==> r.error == NewAppError(MISSING_KEY_MESSAGE, 500, "CONFIG_ERROR")
      ensures r.Ok? ==> fresh(r.value) && r.value.apiKey == envApiKey.value && r.value.transport == transport
      ensures r.Ok? ==> r.value.baseUrl == Or(envBaseUrl, DEFAULT_BASE_URL)
    {
      var key := Or(envApiKey, "");
      if key == "" {
        return Err(NewAppError(MISSING_KEY_MESSAGE, 500, "CONFIG_ERROR"));
      }
      var service := new MSUApiService(key, Or(envBaseUrl, DEFAULT_BASE_URL), transport);
      r := Ok(service);
    }

    /** The `Authorization` header set at construction. */
    function Authorization(): (header: string)
      ensures |header| == |"Bearer "| + |apiKey|
      ensures header[..|"Bearer "|] == "Bearer " && header[|"Bearer "|..] == apiKey
    {
      "Bearer " + apiKey
    }

    /** `this.api.get(path, { params })`. */
    function Send(path: string, params: Params): Result<UpstreamReply, UpstreamFailure> {
      transport(UpstreamRequest(baseUrl, Authorization(), path, params))
    }

    /** `response.data.data`, with the response interceptor translating a failure. */
    function Fetch(path: string, params: Params): (r: Result<Json, AppError>)
      ensures Send(path, params).Ok? ==> r == Ok(Send(path, params).value.body.data)
      ensures Send(path, params).Err? ==> r == Err(TranslateUpstreamError(Send(path, params).error))
    {
      match Send(path, params)
      case Ok(reply) => Ok(reply.body.data)
      case Err(failure) => Err(TranslateUpstreamError(failure))
    }

    /** What a service call returns to the controller. */
    function Perform(call: ServiceCall): Result<Json, AppError> {
      Fetch(CallPath(call), CallParams(call))
    }

    method GetCharacter(characterId: string) returns (r: Result<Json, AppError>)
      ensures r == Fetch("/characters/" + characterId, map[])
      ensures r == Perform(CharacterById(characterId))
    {
      r := Fetch("/characters/" + characterId, map[]);
    }

    method GetCharacters(server: Option<string>, limit: int := DEFAULT_LIMIT) returns (r: Result<Json, AppError>)
      ensures r == Fetch("/characters", ListParams(server, limit))
      ensures r == Perform(CharacterList(server, limit))
    {
      var params: Params := map["limit" := PNum(limit)];
      if Truthy(server) {
        params := params["server" := PStr(server.value)];
      }
      r := Fetch("/characters", params);
    }

    method SearchCharacters(query: string, server: Option<string>) returns (r: Result<Json, AppError>)
      ensures r == Fetch("/characters/search", SearchParams(query, "server", server))
      ensures r == Perform(CharacterSearch(query, server))
    {
      var params: Params := map["q" := PStr(query)];
      if Truthy(server) {
        params := params["server" := PStr(server.value)];
      }
      r := Fetch("/characters/search", params);
    }

    method GetGuild(guildId: string) returns (r: Result<Json, AppError>)
      ensures r == Fetch("/guilds/" + guildId, map[])
      ensures r == Perform(GuildById(guildId))
    {
      r := Fetch("/guilds/" + guildId, map[]);
    }

    method GetGuilds(server: Option<string>, limit: int := DEFAULT_LIMIT) returns (r: Result<Json, AppError>)
      ensures r == Fetch("/guilds", ListParams(server, limit))
      ensures r == Perform(GuildList(server, limit))
    {
      var params: Params := map["limit" := PNum(limit)];
      if Truthy(server) {
        params := params["server" := PStr(server.value)];
      }
      r := Fetch("/guilds", params);
    }

    method SearchGuilds(query: string, server: Option<string>) returns (r: Result<Json, AppError>)
      ensures r == Fetch("/guilds/search", SearchParams(query, "server", server))
      ensures r == Perform(GuildSearch(query, server))
    {
      var params: Params := map["q" := PStr(query)];
      if Truthy(server) {
        params := params["server" := PStr(server.value)];
      }
      r := Fetch("/guilds/search", params);
    }

    method GetItem(itemId: string) returns (r: Result<Json, AppError>)
      ensures r == Fetch("/items/" + itemId, map[])
      ensures r == Perform(ItemById(itemId))
    {
      r := Fetch("/items/" + itemId, map[]);
    }

    method GetItems(itemType: Option<string>, rarity: Option<string>, limit: int := DEFAULT_LIMIT)
      returns (r: Result<Json, AppError>)
      ensures r == Fetch("/items", ItemListParams(itemType, rarity, limit))
      ensures r == Perform(ItemList(itemType, rarity, limit))
    {
      var params: Params := map["limit" := PNum(limit)];
      if Truthy(itemType) {
        params := params["type" := PStr(itemType.value)];
      }
      if Truthy(rarity) {
        params := params["rarity" := PStr(rarity.value)];
      }
      r := Fetch("/items", params);
    }

    method SearchItems(query: string, itemType: Option<string>) returns (r: Result<Json, AppError>)
      ensures r == Fetch("/items/search", SearchParams(query, "type", itemType))
      ensures r == Perform(ItemSearch(query, itemType))
    {
      var params: Params := map["q" := PStr(query)];
      if Truthy(itemType) {
        params := params["type" := PStr(itemType.value)];
      }
      r := Fetch("/items/search", params);
    }

    method GetServers() returns (r: Result<Json, AppError>)
      ensures r == Fetch("/servers", map[])
      ensures r == Perform(ServerList)
    {
      r := Fetch("/servers", map[]);
    }

    /** `healthCheck`: status 200 means healthy; any thrown error is caught as unhealthy. */
    method HealthCheck() returns (healthy: bool)
      ensures healthy <==> Send("/health", map[]).Ok? && Send("/health", map[]).value.status == 200
    {
      var response := Send("/health", map[]);
      if response.Err? {
        return false;
      }
      healthy := response.value.status == 200;
    }
  }
}
