# MapleStory N API: decision tables of the proxy, in Dafny

The backend is an Express server that proxies a third-party game-data API (characters,
guilds, items, servers) and serves a React client. This project models the parts of it
that decide something:

- how the upstream client turns an upstream failure into an `AppError`;
- which query parameters each call sends;
- how the error middleware turns any thrown error into the `{success: false, error, timestamp}` envelope;
- how the bearer token is cut out of the `Authorization` header;
- how the three auth middlewares accept or reject a request;
- how the controllers validate `q` and default `limit`;
- the mock login and the profile fallbacks;
- the 404 envelope;
- the browser client's own parameter rules.

One module per source file:

| module | file | source |
|---|---|---|
| `Wrappers` | wrappers.dfy | `Option`, `Result`, and JavaScript truthiness of `undefined`/string and `undefined`/number |
| `Strings` | strings.dfy | `String.prototype.split` on one character, and `join` |
| `Http` | http.dfy | JSON values, query params, the response envelope (types/index.ts) |
| `ErrorHandler` | error_handler.dfy | backend/src/middleware/errorHandler.ts |
| `NotFound` | not_found.dfy | backend/src/middleware/notFoundHandler.ts |
| `Auth` | auth.dfy | backend/src/middleware/auth.ts |
| `AuthRoutes` | auth_routes.dfy | backend/src/routes/auth.ts |
| `MsuApi` | msu_api.dfy | backend/src/services/msuApiService.ts |
| `MsuController` | msu_controller.dfy | backend/src/controllers/msuController.ts |
| `ClientApi` | client_api.dfy | frontend/src/services/api.ts |
| `Pipeline` | pipeline.dfy | properties across the layers above |

Form of the model:

- Each decision table is a function whose contract states the table.
- Where the source changes state, the model does too:
  - `Auth.Request` is a class whose `user` field `authenticateToken` and `optionalAuth` write.
  - `MsuApi.MSUApiService` and `ClientApi.ApiService` are classes whose fields only their constructors set.
  - The params builders are methods that start from a literal and add keys under `if` guards. Each is proved equal to a params function, and that function's contract gives the exact key set.
  - `errorHandler` is a method that reassigns `statusCode`, `code` and `message` along its if-chain. It is proved against the `Classify` table.
- `AppError` is a datatype. Only its constructor writes its fields, so it is a value. `NewAppError` is that constructor, with the same default arguments.
- These are parameters:
  - the HTTP client of each side (a transport function);
  - `jwt.verify` (a verifier function);
  - `parseInt`;
  - the environment variables (`Option<string>`);
  - the timestamp.

Where the code and its description disagree, the model follows the code:

- Only upstream statuses 401, 403 and 429 are forwarded. Every other failure becomes 502, an upstream 404 included.
- The profile fallbacks use `||`, so an empty claim falls back as well as a missing one.

A note on the JWT library: in `jsonwebtoken`, `TokenExpiredError` is a subclass of `JsonWebTokenError`. So the first `instanceof` test at backend/src/middleware/auth.ts:39 also catches expired tokens, and `TOKEN_EXPIRED` (line 42) cannot be produced. The model keeps the two class tests as two independent flags of the verifier's outcome. It does not model the library's class hierarchy. It proves that the `JsonWebTokenError` test wins whenever both flags are set.

## Model

| member | source | states |
|---|---|---|
| `Strings.Split` | backend/src/middleware/auth.ts:23 | `split(' ')` yields at least one field and no field contains the separator |
| `Strings.JoinSplit` | backend/src/middleware/auth.ts:23 | joining the fields of a split with the separator gives back the original string |
| `Strings.SplitJoin` | backend/src/middleware/auth.ts:23 | splitting a join of separator-free fields gives back exactly those fields (split and join are inverse) |
| `ErrorHandler.NewAppError` | backend/src/middleware/errorHandler.ts:9-13 | an `AppError` keeps the message, status and code it is given and is always operational |
| `ErrorHandler.AppErrorDefaults` | backend/src/middleware/errorHandler.ts:9 | omitted arguments default to status 500 and code `INTERNAL_ERROR` |
| `ErrorHandler.Classify` | backend/src/middleware/errorHandler.ts:25-49 | an `AppError` passes its own status, code and message through. A plain error gets 400 exactly when named `ValidationError`, keeping its message. The three auth error names get 401 with their fixed code and message. Any other name gets a generic 500 |
| `ErrorHandler.PlainMessageNotLeaked` | backend/src/middleware/errorHandler.ts:25-49 | a plain error other than `ValidationError` never sends its own message, only one of the four fixed messages |
| `ErrorHandler.HandleError` | backend/src/middleware/errorHandler.ts:19-78 | the response's status, code and message are those of `Classify`. The body is an error envelope with `success = false`. `details` is the stack in development and absent otherwise |
| `NotFound.NotFoundResponse` | backend/src/middleware/notFoundHandler.ts:3-12 | status 404, `success = false`, code `NOT_FOUND`, and the message is the fixed prefix, the method, a space and the path |
| `NotFound.NotFoundMessageRoundTrip` | backend/src/middleware/notFoundHandler.ts:8 | for a method without spaces, the method and path can be read back out of the message |
| `NotFound.ParsedNotFoundMessage` | backend/src/middleware/notFoundHandler.ts:8 | every message that the reading accepts is the message of the method and path read from it |
| `NotFound.NotFoundInjective` | backend/src/middleware/notFoundHandler.ts:3-12 | for methods without spaces, the 404 body determines method and path: two such requests get the same body only when both agree |
| `Auth.ExtractToken` | backend/src/middleware/auth.ts:22-25 | the token is the second space-separated field. It is non-empty and contains no space, and there is none without a header |
| `Auth.ExtractTokenFromHeader` | backend/src/middleware/auth.ts:23 | a header `scheme token rest` carries `token`, where `rest` is empty or starts a third field |
| `Auth.ExtractedTokenDecomposes` | backend/src/middleware/auth.ts:23 | conversely, an extracted token sits between the first space and the next space or the end |
| `Auth.NoTokenWithoutSpace` | backend/src/middleware/auth.ts:22-27 | a header without a space carries no token |
| `Auth.CatchAuthFailure` | backend/src/middleware/auth.ts:38-45 | every caught error becomes a 401. The `JsonWebTokenError` test comes before the `TokenExpiredError` test, and anything else, the `CONFIG_ERROR` included, becomes `AUTH_ERROR` |
| `Auth.Authenticate` | backend/src/middleware/auth.ts:21-46 | with no token the result is 401 `MISSING_TOKEN`. Every failure has status 401, and a missing secret gives `AUTH_ERROR`. The request succeeds exactly when there is a token, the secret is truthy and verification succeeds, and it then yields the decoded claims. A rejected verification gives the 401 that the catch block chooses for the library's error (`INVALID_TOKEN`, `TOKEN_EXPIRED` or `AUTH_ERROR`) |
| `Auth.AuthenticateToken` | backend/src/middleware/auth.ts:21-46 | the middleware calls `next` or throws as `Authenticate` says. It sets `req.user` to the claims exactly on success and otherwise leaves it unchanged |
| `Auth.RequireRole` | backend/src/middleware/auth.ts:48-60 | proceeds exactly when a user is present and their role is in the list. No user gives 401 `UNAUTHORIZED`, and a role outside the list gives 403 `FORBIDDEN` |
| `Auth.OptionalUser` | backend/src/middleware/auth.ts:62-79 | `optionalAuth` installs a user for exactly the requests `authenticateToken` accepts, with the same claims |
| `Auth.OptionalAuth` | backend/src/middleware/auth.ts:62-79 | always proceeds. It sets `req.user` only when a token exists, the secret is set and verification succeeds, and otherwise leaves it unchanged |
| `AuthRoutes.MockLogin` | backend/src/routes/auth.ts:10-37 | a missing or empty email or password gives 400 `MISSING_CREDENTIALS` before any comparison. Exactly the admin pair succeeds, with `mock-jwt-token` and role `admin`. Any other pair gives 401 `INVALID_CREDENTIALS` |
| `AuthRoutes.LoginHandler` | backend/src/routes/auth.ts:10-37 | responds with the success envelope exactly when the login succeeds. Otherwise it passes on exactly the error `mockLogin` throws, a 400 or a 401 |
| `AuthRoutes.GetProfile` | backend/src/routes/auth.ts:39-51 | each of id, email and role is the user's claim when truthy, and otherwise falls back on its own to `'1'`, the admin email or `'admin'`. The username is always `admin` |
| `AuthRoutes.ProfileFallbackIsLoginUser` | backend/src/routes/auth.ts:39-51 | with no user, or for every user whose id, email and role claims are all absent or empty, the profile is the user that the mock login returns |
| `AuthRoutes.ProfileRoute` | backend/src/routes/auth.ts:55 | `GET /profile` passes on exactly `authenticateToken`'s error, or sends the profile built from the verified claims. It sets `req.user` to those claims exactly on success and otherwise leaves it unchanged |
| `MsuApi.TranslateUpstreamError` | backend/src/services/msuApiService.ts:44-66 | status is always in {401, 403, 429, 502}. Upstream 429, 401 and 403 are forwarded with `RATE_LIMIT_EXCEEDED`, `INVALID_API_KEY` and `API_FORBIDDEN`, and everything else is 502 `MSU_API_ERROR`. At ≥ 500 the message is the fixed server message. Otherwise it is the upstream `data.message` when truthy, or the connection message |
| `MsuApi.NoResponseIsConnectionError` | backend/src/services/msuApiService.ts:61-65 | a failure without a response is 502 `MSU_API_ERROR` with the connection message |
| `MsuApi.OtherClientErrorKeepsMessage` | backend/src/services/msuApiService.ts:61-65 | any other 4xx with a message is 502 and carries the upstream's message |
| `MsuApi.ListParams` | backend/src/services/msuApiService.ts:82-83 | the character and guild list params are exactly `limit`, plus `server` when it is non-empty |
| `MsuApi.ItemListParams` | backend/src/services/msuApiService.ts:150-152 | the item list params are exactly `limit`, plus `type` and `rarity`, each when it is non-empty |
| `Http.SearchParams` | backend/src/services/msuApiService.ts:94-95 | search params are exactly `q`, plus the one filter (`server` or `type`) when it is non-empty |
| `MsuApi.CallPath` | backend/src/services/msuApiService.ts:70-181 | each entity's calls request paths under that entity's collection (`/characters`, `/guilds`, `/items`), and only the server list requests `/servers`. A single-entity call puts its id, unchanged, after the collection path and a slash |
| `MsuApi.CallParams` | backend/src/services/msuApiService.ts:70-181 | only `q`, `server`, `type`, `rarity` and `limit` are ever sent. `limit` is sent exactly on the list calls and `q` exactly on the search calls |
| `MsuApi.MSUApiService.constructor` | backend/src/services/msuApiService.ts:9-24 | a constructed service keeps the key it was given (non-empty), its base URL and its HTTP client |
| `MsuApi.MSUApiService.Authorization` | backend/src/services/msuApiService.ts:20 | the header sent on every request is `Bearer ` (one space) followed by the API key unchanged |
| `MsuApi.MSUApiService.Create` | backend/src/services/msuApiService.ts:9-24 | construction fails with 500 `CONFIG_ERROR` exactly when the key is absent or empty. Otherwise it keeps the key, and the base URL defaults to the public endpoint |
| `MsuApi.MSUApiService.Fetch` | backend/src/services/msuApiService.ts:44-66 | a successful request yields the `data` field of the upstream's envelope. A failed one yields exactly `TranslateUpstreamError` of the failure |
| `MsuApi.MSUApiService.GetCharacter` | backend/src/services/msuApiService.ts:71-78 | requests `/characters/<id>` without params and returns the upstream `data` or the translated error |
| `MsuApi.MSUApiService.GetCharacters` | backend/src/services/msuApiService.ts:80-90 | builds its params in place to equal `ListParams(server, limit)`, with `limit` defaulting to 50 |
| `MsuApi.MSUApiService.SearchCharacters` | backend/src/services/msuApiService.ts:92-102 | builds its params in place to equal `SearchParams(query, "server", server)` |
| `MsuApi.MSUApiService.GetGuild` | backend/src/services/msuApiService.ts:105-112 | requests `/guilds/<id>` without params |
| `MsuApi.MSUApiService.GetGuilds` | backend/src/services/msuApiService.ts:114-124 | builds its params in place to equal `ListParams(server, limit)` |
| `MsuApi.MSUApiService.SearchGuilds` | backend/src/services/msuApiService.ts:126-136 | builds its params in place to equal `SearchParams(query, "server", server)` |
| `MsuApi.MSUApiService.GetItem` | backend/src/services/msuApiService.ts:139-146 | requests `/items/<id>` without params |
| `MsuApi.MSUApiService.GetItems` | backend/src/services/msuApiService.ts:148-159 | builds its params in place to equal `ItemListParams(type, rarity, limit)` |
| `MsuApi.MSUApiService.SearchItems` | backend/src/services/msuApiService.ts:161-171 | builds its params in place to equal `SearchParams(query, "type", type)` |
| `MsuApi.MSUApiService.GetServers` | backend/src/services/msuApiService.ts:174-181 | requests `/servers` without params |
| `MsuApi.MSUApiService.HealthCheck` | backend/src/services/msuApiService.ts:184-191 | healthy exactly when the request succeeds with status 200. Any failure gives false |
| `MsuController.LimitOf` | backend/src/controllers/msuController.ts:21-24 | an absent or empty `limit` gives 50. Any other string is parsed |
| `MsuController.Reply` | backend/src/controllers/msuController.ts:26-30 | a service result becomes a 200 success envelope whose `data` is that result, unmodified. A thrown error is passed on unchanged |
| `MsuController.MissingQueryResponse` | backend/src/controllers/msuController.ts:36-45 | status 400, `success = false`, code `MISSING_QUERY`, the fixed missing-query message, no `details`, and the given timestamp |
| `MsuController.GetCharacter` | backend/src/controllers/msuController.ts:6-16 | sends the service's character as `data`, or passes its error on |
| `MsuController.GetCharacters` | backend/src/controllers/msuController.ts:18-31 | calls the service with the query's `server`, and with `limit` parsed or 50 when absent |
| `MsuController.SearchCharacters` | backend/src/controllers/msuController.ts:33-54 | an absent or empty `q` gives the 400 `MISSING_QUERY` response. Otherwise it replies with the search for `q` and `server` |
| `MsuController.GetGuild` | backend/src/controllers/msuController.ts:57-67 | sends the service's guild as `data`, or passes its error on |
| `MsuController.GetGuilds` | backend/src/controllers/msuController.ts:69-82 | calls the service with the query's `server`, and with `limit` parsed or 50 when absent |
| `MsuController.SearchGuilds` | backend/src/controllers/msuController.ts:84-105 | an absent or empty `q` gives 400 `MISSING_QUERY`. Otherwise it replies with the search for `q` and `server` |
| `MsuController.GetItem` | backend/src/controllers/msuController.ts:108-118 | sends the service's item as `data`, or passes its error on |
| `MsuController.GetItems` | backend/src/controllers/msuController.ts:120-134 | calls the service with `type`, `rarity`, and `limit` parsed or 50 when absent |
| `MsuController.SearchItems` | backend/src/controllers/msuController.ts:136-157 | an absent or empty `q` gives 400 `MISSING_QUERY`. Otherwise it replies with the search for `q` and `type` |
| `MsuController.GetServers` | backend/src/controllers/msuController.ts:160-168 | sends the service's server list as `data`, or passes its error on |
| `MsuController.SearchWithoutQueryIgnoresService` | backend/src/controllers/msuController.ts:36-45 | without `q`, the three searches give the same outcome for any two services, so the service is not consulted |
| `MsuController.HealthResponse` | backend/src/controllers/msuController.ts:174-181 | always a 200 success whose `data` is `{healthy, service: 'MSU API'}` |
| `MsuController.MsuHealthCheck` | backend/src/controllers/msuController.ts:171-182 | always responds with a success, and `healthy` is exactly the service's health-check result |
| `ClientApi.ApiBaseUrl` | frontend/src/services/api.ts:3 | the base URL is `VITE_API_URL` when it is set and non-empty, and otherwise the local default. It is never empty |
| `ClientApi.ApiService.constructor` | frontend/src/services/api.ts:8-16 | the client is configured once with `ApiBaseUrl` of the build variable, and with its HTTP client |
| `ClientApi.InterceptResponseError` | frontend/src/services/api.ts:35-51 | rejects with the very same error for every status. 401 and 429 only add a log line |
| `ClientApi.Deliver` | frontend/src/services/api.ts:30-51 | the caller sees exactly what the transport gave, so the interceptor changes nothing |
| `ClientApi.ClientListParams` | frontend/src/services/api.ts:74-76 | exactly `server` when it is non-empty and `limit` when it is non-zero. With no arguments the params are empty |
| `ClientApi.ClientItemParams` | frontend/src/services/api.ts:120-123 | exactly each of `type`, `rarity` and `limit` that is truthy |
| `ClientApi.EntityPath` | frontend/src/services/api.ts:83 | a single-entity path is the fixed prefix followed by the id, unchanged |
| `ClientApi.EntityPathRoundTrip` | frontend/src/services/api.ts:83 | the id can be read back from its path, and only its own path yields it |
| `ClientApi.ApiService.GetCharacters` | frontend/src/services/api.ts:73-80 | builds its params in place to equal `ClientListParams(server, limit)` |
| `ClientApi.ApiService.GetCharacter` | frontend/src/services/api.ts:82-85 | requests `/msu/characters/` followed by the id |
| `ClientApi.ApiService.SearchCharacters` | frontend/src/services/api.ts:87-93 | builds `SearchParams(query, "server", server)` in place: `q` is always sent |
| `ClientApi.ApiService.GetGuilds` | frontend/src/services/api.ts:96-103 | builds its params in place to equal `ClientListParams(server, limit)` |
| `ClientApi.ApiService.GetGuild` | frontend/src/services/api.ts:105-108 | requests `/msu/guilds/` followed by the id |
| `ClientApi.ApiService.SearchGuilds` | frontend/src/services/api.ts:110-116 | builds `SearchParams(query, "server", server)` in place |
| `ClientApi.ApiService.GetItems` | frontend/src/services/api.ts:119-127 | builds its params in place to equal `ClientItemParams(type, rarity, limit)` |
| `ClientApi.ApiService.GetItem` | frontend/src/services/api.ts:129-132 | requests `/msu/items/` followed by the id |
| `ClientApi.ApiService.SearchItems` | frontend/src/services/api.ts:134-140 | builds `SearchParams(query, "type", type)` in place |
| `ClientApi.ApiService.HealthCheck` | frontend/src/services/api.ts:56-59 | requests `/health` and returns the transport's result unchanged |
| `ClientApi.ApiService.GetServers` | frontend/src/services/api.ts:62-65 | requests `/msu/servers` |
| `ClientApi.ApiService.MsuHealthCheck` | frontend/src/services/api.ts:67-70 | requests `/msu/health` |
| `ClientApi.ApiService.Login` | frontend/src/services/api.ts:143-146 | posts `{email, password}` to `/auth/login` |
| `ClientApi.ApiService.GetProfile` | frontend/src/services/api.ts:148-151 | requests `/auth/profile` |
| `Pipeline.ListLimitReachesUpstream` | backend/src/controllers/msuController.ts:21-24 | a character or guild list from the browser reaches the upstream with the same truthy `server`. A missing or zero client limit becomes 50, and any other limit arrives unchanged |
| `Pipeline.ItemLimitReachesUpstream` | backend/src/controllers/msuController.ts:123-127 | the same for items, with `type` and `rarity` forwarded when truthy |
| `Pipeline.EmptyClientSearchIsRejected` | backend/src/controllers/msuController.ts:139-148 | the browser sends an empty `q`, and the backend then answers 400 `MISSING_QUERY` for every service |
| `Pipeline.ClientSearchReachesUpstream` | frontend/src/services/api.ts:88-89 | a non-empty browser search reaches the upstream with exactly the params the browser built |
| `Pipeline.UpstreamFailureStatus` | backend/src/services/msuApiService.ts:51-65 | after the error handler, any upstream failure gets status 401, 403, 429 or 502, as the upstream status dictates |
| `Pipeline.RateLimitedSearchReachesClient` | backend/src/services/msuApiService.ts:51-52 | an upstream 429 on a search ends as 429 `RATE_LIMIT_EXCEEDED` with the rate-limit message |

## Left out

- HTTP transport on both sides (`axios.create`, GET/POST, timeouts, the `Content-Type` and `User-Agent` headers): a transport function parameter stands for it. The backend's transport receives the base URL, the bearer header, the path and the params. The browser's transport receives the verb, the base URL, the path, the params and the JSON body. It gets no `Authorization` header, because the browser client sets none.
- Console logging in the interceptors and in `errorHandler`: it has no effect on responses. The client's interceptor records its log lines only so that the model can state that they are all it adds.
- `jwt.verify`: a verifier function that returns the claims or a failure with two `instanceof` flags. The library's class hierarchy is not modelled (see the note above).
- Clocks, `Error.captureStackTrace` and environment variables: the timestamp, the stack and each variable are parameters.
- `MsuController.LimitOf`: `parseInt` is an oracle from string to integer. Its `NaN` results, and JavaScript numbers that are not integers, are not modelled.
- `Pipeline.ListLimitReachesUpstream` and `Pipeline.ItemLimitReachesUpstream`: they assume that `parseInt` reads back the plain decimal form of every limit. That holds only for safe integers. JavaScript writes magnitudes of 1e21 and above in exponent form, which `parseInt` reads as a different number, and integers beyond 2^53 lose precision. The model does not capture either.
- `Pipeline.ToQuery` and `Pipeline.DecimalString` stand for library serialisation: axios writes the params object into the query string, and Express reads it back into `req.query`. The model takes string values to travel verbatim and numbers to travel in plain decimal. URL encoding, and the library's own number formatting, are not modelled.
- `ClientApi.ClientListParams`: a `NaN` limit, which is falsy like 0, is not modelled.
- `req.query` values that are arrays, and `req.body` fields that are not strings: the model takes query values and login fields to be absent or strings.
- An `error.response.data.message` that is not a string is not modelled.
- `asyncHandler` promise plumbing: a handler's outcome is either a response or an error passed on, and `HandleError` is what follows the latter.
- Synchronous throws from downstream middleware inside `authenticateToken`'s `next()` are not modelled. The `/profile` handler is `asyncHandler`-wrapped, so it does not throw synchronously.
- The routing tables (backend/src/routes/msu.ts, backend/src/routes/index.ts) are not part of this model, as Express glue. Neither are the database, seed and API-logging modules (database writes). The React pages and components are left out as well (presentation only).
- `MsuApi.MSUApiService.Create`: the module-level singleton `new MSUApiService()` runs once at load. The model gives its construction as a method that can fail, instead of a constructor that throws.
