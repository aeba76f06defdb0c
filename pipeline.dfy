/** Properties across layers: from the browser's params to the upstream's, and back as errors. */
module Pipeline {
  import opened Wrappers
  import opened Http
  import opened ErrorHandler
  import opened MsuApi
  import opened MsuController
  import opened ClientApi

  function Digit(d: nat): char
    requires d < 10
  {
    "0123456789"[d]
  }

  /** The decimal digits of a natural number. */
  function NatString(n: nat): (s: string)
    ensures |s| >= 1
  {
    if n < 10 then [Digit(n)] else NatString(n / 10) + [Digit(n % 10)]
  }

  /** A number as the browser writes it into a query string. */
  function DecimalString(n: int): (s: string)
    ensures s != ""
  {
    if n < 0 then "-" + NatString(-n) else NatString(n)
  }

  function RenderParam(v: ParamValue): string {
    match v
    case PStr(s) => s
    case PNum(n) => DecimalString(n)
  }

  /** The query the backend reads for a params object the browser sends. */
  function ToQuery(p: Params): (q: Query)
    ensures q.Keys == p.Keys
    ensures forall k :: k in p ==> q[k] == RenderParam(p[k])
  {
    map k | k in p :: RenderParam(p[k])
  }

  /** The limit the upstream ends up with for a limit the browser was given. */
  function EffectiveLimit(limit: Option<int>): int {
    if TruthyNum(limit) then limit.value else DEFAULT_LIMIT
  }

  /**
   * A character or guild list asked for by the browser reaches the upstream with the same
   * truthy `server` and with its limit, except that a missing or zero limit becomes 50.
   */
  lemma ListLimitReachesUpstream(server: Option<string>, limit: Option<int>, parseInt: ParseInt)
    requires TruthyNum(limit) ==> parseInt(DecimalString(limit.value)) == limit.value
    ensures var query := ToQuery(ClientListParams(server, limit));
      CallParams(CharacterList(Param(query, "server"), LimitOf(query, parseInt))) ==
        ListParams(server, EffectiveLimit(limit))
    ensures var query := ToQuery(ClientListParams(server, limit));
      CallParams(GuildList(Param(query, "server"), LimitOf(query, parseInt))) ==
        ListParams(server, EffectiveLimit(limit))
  {
    var query := ToQuery(ClientListParams(server, limit));
    assert LimitOf(query, parseInt) == EffectiveLimit(limit);
    assert Truthy(Param(query, "server")) <==> Truthy(server);
    assert Truthy(server) ==> Param(query, "server") == server;
  }

  /** The same for items, with `type` and `rarity` forwarded when truthy. */
  lemma ItemLimitReachesUpstream(itemType: Option<string>, rarity: Option<string>, limit: Option<int>, parseInt: ParseInt)
    requires TruthyNum(limit) ==> parseInt(DecimalString(limit.value)) == limit.value
    ensures var query := ToQuery(ClientItemParams(itemType, rarity, limit));
      CallParams(ItemList(Param(query, "type"), Param(query, "rarity"), LimitOf(query, parseInt))) ==
        ItemListParams(itemType, rarity, EffectiveLimit(limit))
  {
    var query := ToQuery(ClientItemParams(itemType, rarity, limit));
    assert LimitOf(query, parseInt) == EffectiveLimit(limit);
    assert Truthy(itemType) ==> Param(query, "type") == itemType;
    assert Truthy(rarity) ==> Param(query, "rarity") == rarity;
  }

  /** The browser sends `q` even when it is empty; the backend then answers 400 for every service. */
  lemma EmptyClientSearchIsRejected(filter: Option<string>, service: Service, timestamp: string)
    ensures SearchCharacters(ToQuery(SearchParams("", "server", filter)), service, timestamp) ==
      Responded(MissingQueryResponse(timestamp))
    ensures SearchGuilds(ToQuery(SearchParams("", "server", filter)), service, timestamp) ==
      Responded(MissingQueryResponse(timestamp))
    ensures SearchItems(ToQuery(SearchParams("", "type", filter)), service, timestamp) ==
      Responded(MissingQueryResponse(timestamp))
  {
    assert Param(ToQuery(SearchParams("", "server", filter)), "q") == Some("");
    assert Param(ToQuery(SearchParams("", "type", filter)), "q") == Some("");
  }

  /** A non-empty browser search reaches the upstream with exactly the params the browser built. */
  lemma ClientSearchReachesUpstream(query: string, server: Option<string>)
    requires query != ""
    ensures var q := ToQuery(SearchParams(query, "server", server));
      Truthy(Param(q, "q")) &&
      CallParams(CharacterSearch(q["q"], Param(q, "server"))) == SearchParams(query, "server", server)
  {
    var q := ToQuery(SearchParams(query, "server", server));
    assert Truthy(server) ==> Param(q, "server") == server;
  }

  /** Whatever the upstream failure, the error the controller passes on is answered 401, 403, 429 or 502. */
  lemma UpstreamFailureStatus(service: MSUApiService, call: ServiceCall)
    requires service.Perform(call).Err?
    ensures Classify(App(service.Perform(call).error)).statusCode in {401, 403, 429, 502}
    ensures var sent := service.Send(CallPath(call), CallParams(call));
      sent.Err? && Classify(App(service.Perform(call).error)).statusCode ==
        (if FailureStatus(sent.error) in {Some(401), Some(403), Some(429)} then FailureStatus(sent.error).value else 502)
  {
  }

  /** A rate-limited search is answered 429 `RATE_LIMIT_EXCEEDED` once the error handler has run. */
  lemma RateLimitedSearchReachesClient(service: MSUApiService, query: Query, timestamp: string)
    requires Truthy(Param(query, "q"))
    requires var sent := service.Send("/characters/search", SearchParams(query["q"], "server", Param(query, "server")));
      sent.Err? && FailureStatus(sent.error) == Some(429)
    ensures var outcome := SearchCharacters(query, service.Perform, timestamp);
      outcome.Forwarded? &&
      Classify(App(outcome.error)) == Classification(429, "RATE_LIMIT_EXCEEDED", RATE_LIMIT_MESSAGE)
  {
  }
}
