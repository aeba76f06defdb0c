/** backend/src/controllers/msuController.ts: the handlers behind the `/msu` routes. */
module MsuController {
  import opened Wrappers
  import opened Http
  import opened ErrorHandler
  import opened MsuApi

  const MISSING_QUERY_MESSAGE: string := "Tham số tìm kiếm (q) là bắt buộc"
  const SERVICE_NAME: string := "MSU API"

  /** `req.query`: each parameter is absent or a string. */
  type Query = map<string, string>

  /** `req.query[key]`. */
  function Param(query: Query, key: string): Option<string> {
    if key in query then Some(query[key]) else None
  }

  /** The service as the handlers use it: one call in, its data or its thrown `AppError` out. */
  type Service = ServiceCall -> Result<Json, AppError>

  /** `parseInt`, an oracle on the strings it is given. */
  type ParseInt = string -> int

  /** `limit ? parseInt(limit) : 50`: any non-empty string is parsed, even one that reads as zero. */
  function LimitOf(query: Query, parseInt: ParseInt): (limit: int)
    ensures !Truthy(Param(query, "limit")) ==> limit == DEFAULT_LIMIT
    ensures Truthy(Param(query, "limit")) ==> limit == parseInt(query["limit"])
  {
    var raw := Param(query, "limit");
    if Truthy(raw) then parseInt(raw.value) else DEFAULT_LIMIT
  }

  /** `res.json({ success: true, data, timestamp })` on the service's result; a throw is passed on. */
  function Reply(result: Result<Json, AppError>, timestamp: string): (outcome: HandlerOutcome)
    ensures outcome.Responded? <==> result.Ok?
    ensures outcome.Responded? ==>
      outcome.response.status == 200 && IsSuccessEnvelope(outcome.response.body) &&
      outcome.response.body.data == Some(result.value) && outcome.response.body.timestamp == timestamp
    ensures outcome.Forwarded? ==> outcome.error == result.error
  {
    match result
    case Ok(data) => Responded(SuccessResponse(data, timestamp))
    case Err(e) => Forwarded(e)
  }

  /** The 400 sent when a search has no (or an empty) `q`. */
  function MissingQueryResponse(timestamp: string): (r: HttpResponse)
    ensures r.status == 400 && IsErrorEnvelope(r.body) && r.body.error.value.code == "MISSING_QUERY"
    ensures r.body.error.value.message == MISSING_QUERY_MESSAGE && r.body.error.value.details.None?
    ensures r.body.timestamp == timestamp
  {
    FailureResponse(400, "MISSING_QUERY", MISSING_QUERY_MESSAGE, timestamp)
  }

  /** `getCharacter`: the service's character, or its error, unchanged. */
  function GetCharacter(characterId: string, service: Service, timestamp: string): (outcome: HandlerOutcome)
    ensures service(CharacterById(characterId)).Ok? ==> outcome == Responded(SuccessResponse(service(CharacterById(characterId)).value, timestamp))
    ensures service(CharacterById(characterId)).Err? ==> outcome == Forwarded(service(CharacterById(characterId)).error)
  {
    Reply(service(CharacterById(characterId)), timestamp)
  }

  /** `getCharacters`: the `server` filter forwarded as given, `limit` defaulting to 50. */
  function GetCharacters(query: Query, parseInt: ParseInt, service: Service, timestamp: string): (outcome: HandlerOutcome)
    ensures !Truthy(Param(query, "limit")) ==> outcome == Reply(service(CharacterList(Param(query, "server"), DEFAULT_LIMIT)), timestamp)
    ensures Truthy(Param(query, "limit")) ==> outcome == Reply(service(CharacterList(Param(query, "server"), parseInt(query["limit"]))), timestamp)
  {
    Reply(service(CharacterList(Param(query, "server"), LimitOf(query, parseInt))), timestamp)
  }

  /** `searchCharacters`: the `q` guard answers 400 itself, before the service is called. */
  function SearchCharacters(query: Query, service: Service, timestamp: string): (outcome: HandlerOutcome)
    ensures !Truthy(Param(query, "q")) ==> outcome == Responded(MissingQueryResponse(timestamp))
    ensures Truthy(Param(query, "q")) ==>
      outcome == Reply(service(CharacterSearch(query["q"], Param(query, "server"))), timestamp)
  {
    var q := Param(query, "q");
    if !Truthy(q) then Responded(MissingQueryResponse(timestamp))
    else Reply(service(CharacterSearch(q.value, Param(query, "server"))), timestamp)
  }

  /** `getGuild`: the service's guild, or its error, unchanged. */
  function GetGuild(guildId: string, service: Service, timestamp: string): (outcome: HandlerOutcome)
    ensures service(GuildById(guildId)).Ok? ==> outcome == Responded(SuccessResponse(service(GuildById(guildId)).value, timestamp))
    ensures service(GuildById(guildId)).Err? ==> outcome == Forwarded(service(GuildById(guildId)).error)
  {
    Reply(service(GuildById(guildId)), timestamp)
  }

  /** `getGuilds`: the `server` filter forwarded as given, `limit` defaulting to 50. */
  function GetGuilds(query: Query, parseInt: ParseInt, service: Service, timestamp: string): (outcome: HandlerOutcome)
    ensures !Truthy(Param(query, "limit")) ==> outcome == Reply(service(GuildList(Param(query, "server"), DEFAULT_LIMIT)), timestamp)
    ensures Truthy(Param(query, "limit")) ==> outcome == Reply(service(GuildList(Param(query, "server"), parseInt(query["limit"]))), timestamp)
  {
    Reply(service(GuildList(Param(query, "server"), LimitOf(query, parseInt))), timestamp)
  }

  /** `searchGuilds`: the same guard as `searchCharacters`. */
  function SearchGuilds(query: Query, service: Service, timestamp: string): (outcome: HandlerOutcome)
    ensures !Truthy(Param(query, "q")) ==> outcome == Responded(MissingQueryResponse(timestamp))
    ensures Truthy(Param(query, "q")) ==>
      outcome == Reply(service(GuildSearch(query["q"], Param(query, "server"))), timestamp)
  {
    var q := Param(query, "q");
    if !Truthy(q) then Responded(MissingQueryResponse(timestamp))
    else Reply(service(GuildSearch(q.value, Param(query, "server"))), timestamp)
  }

  /** `getItem`: the service's item, or its error, unchanged. */
  function GetItem(itemId: string, service: Service, timestamp: string): (outcome: HandlerOutcome)
    ensures service(ItemById(itemId)).Ok? ==> outcome == Responded(SuccessResponse(service(ItemById(itemId)).value, timestamp))
    ensures service(ItemById(itemId)).Err? ==> outcome == Forwarded(service(ItemById(itemId)).error)
  {
    Reply(service(ItemById(itemId)), timestamp)
  }

  /** `getItems`: the `type` and `rarity` filters forwarded as given, `limit` defaulting to 50. */
  function GetItems(query: Query, parseInt: ParseInt, service: Service, timestamp: string): (outcome: HandlerOutcome)
    ensures !Truthy(Param(query, "limit")) ==> outcome == Reply(service(ItemList(Param(query, "type"), Param(query, "rarity"), DEFAULT_LIMIT)), timestamp)
    ensures Truthy(Param(query, "limit")) ==> outcome == Reply(service(ItemList(Param(query, "type"), Param(query, "rarity"), parseInt(query["limit"]))), timestamp)
  {
    Reply(service(ItemList(Param(query, "type"), Param(query, "rarity"), LimitOf(query, parseInt))), timestamp)
  }

  /** `searchItems`: the same guard, with `type` as the optional filter. */
  function SearchItems(query: Query, service: Service, timestamp: string): (outcome: HandlerOutcome)
    ensures !Truthy(Param(query, "q")) ==> outcome == Responded(MissingQueryResponse(timestamp))
    ensures Truthy(Param(query, "q")) ==>
      outcome == Reply(service(ItemSearch(query["q"], Param(query, "type"))), timestamp)
  {
    var q := Param(query, "q");
    if !Truthy(q) then Responded(MissingQueryResponse(timestamp))
    else Reply(service(ItemSearch(q.value, Param(query, "type"))), timestamp)
  }

  /** `getServers`: the service's server list, or its error, unchanged. */
  function GetServers(service: Service, timestamp: string): (outcome: HandlerOutcome)
    ensures service(ServerList).Ok? ==> outcome == Responded(SuccessResponse(service(ServerList).value, timestamp))
    ensures service(ServerList).Err? ==> outcome == Forwarded(service(ServerList).error)
  {
    Reply(service(ServerList), timestamp)
  }

  /** A search without `q` never consults the service: any two services give the same outcome. */
  lemma SearchWithoutQueryIgnoresService(query: Query, s1: Service, s2: Service, timestamp: string)
    requires !Truthy(Param(query, "q"))
    ensures SearchCharacters(query, s1, timestamp) == SearchCharacters(query, s2, timestamp)
    ensures SearchGuilds(query, s1, timestamp) == SearchGuilds(query, s2, timestamp)
    ensures SearchItems(query, s1, timestamp) == SearchItems(query, s2, timestamp)
    ensures SearchCharacters(query, s1, timestamp).response.status == 400
  {
  }

  /** `msuHealthCheck`'s body: always a success, whatever the upstream's health. */
  function HealthResponse(healthy: bool, timestamp: string): (r: HttpResponse)
    ensures r.status == 200 && IsSuccessEnvelope(r.body)
    ensures r.body.data == Some(JObj(map["healthy" := JBool(healthy), "service" := JStr(SERVICE_NAME)]))
  {
    SuccessResponse(JObj(map["healthy" := JBool(healthy), "service" := JStr(SERVICE_NAME)]), timestamp)
  }

  /** `msuHealthCheck`: asks the service and reports its answer; it never fails. */
  method MsuHealthCheck(service: MSUApiService, timestamp: string) returns (outcome: HandlerOutcome)
    ensures outcome.Responded? && outcome.response.status == 200 && outcome.response.body.success
    ensures var reply := service.Send("/health", map[]);
      outcome.response == HealthResponse(reply.Ok? && reply.value.status == 200, timestamp)
  {
    var isHealthy := service.HealthCheck();
    outcome := Responded(HealthResponse(isHealthy, timestamp));
  }
}
