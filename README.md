# Blockchain RPC gateway: forwarding providers and exchange registry

A Dafny model of the decision logic of two upstream node providers of a
multi-provider JSON-RPC gateway, and of the wallet API's fiat-onramp
exchange registry.

- **Allnodes** (`allnodes.dfy`). The HTTP provider looks the chain up in its
  immutable chain-id → upstream-token map, builds
  `https://<token>.allnodes.me:8545/<api key>`, makes exactly one upstream
  call, and then decides the outgoing status. A 2xx reply whose body is a
  JSON-RPC response carrying an `error` with an internal-error code becomes
  429 when the message reads as rate limiting, or else 500 when it reads as a
  node error. Everything else passes through with its own status and the
  content type forced to `application/json`. The WebSocket provider resolves
  the chain in its own map, dials `wss://<token>.allnodes.me:8546/<api key>`,
  and starts the bridge with the caller's project id. Two factories project
  the configuration's HTTP and WebSocket chain maps.
- **Publicnode** (`publicnode.dfy`). The same contract with the endpoint
  `https://<token>.publicnode.com` (no port, no credential) and no
  reclassification: the reply always passes through.
- **Shared provider layer** (`providers.dfy`, `http.dfy`). The chain-map
  accessors, key collection, the status-only rate-limit signal, the
  classification verdict (rate-limited / node error / unclassified) and the
  normalized response.
- **Exchanges** (`exchanges.dfy`). The closed enumeration
  `Binance, Coinbase, ReownTest` in declaration order, first-match lookup by
  id, the order-preserving asset filter with its validation error, lookup of
  an exchange's description, and the three-branch project feature gate.

Inputs the gateway gets from the outside are parameters of the model:

- `send`: building the request, the upstream HTTP call and reading its body.
- `parse`: the JSON-RPC parse of the reply body.
- `classifier`: the three predicates on `error.code` and `error.message`.
- `connect`: opening the outbound WebSocket.
- `provider` and `parse`: each exchange's id, name, image and asset support,
  and the CAIP-19 asset parser.

Every property is proved for all values of these parameters.

Each HTTP `Proxy` also returns the list of requests it handed to `send`, and
the WebSocket `Proxy` the list of URIs it dialed. This is how the model
states that an unknown chain makes no upstream call, and that a known chain
makes exactly one.

A byte body turned into a response (`(status, body).into_response()`) gets
the content type `application/octet-stream` from the web framework (axum).
`Http.BytesResponse` models that. So the 429 and 500 early returns carry
`application/octet-stream`, and only the fall-through path carries
`application/json` (`Providers.JsonContentTypeIffUnclassified`).

## Model

| member | source | states |
|---|---|---|
| Http.BytesResponse | src/providers/allnodes.rs:139 | models the web framework's (axum's) byte-body conversion `(status, body).into_response()`, which lives outside the repository: the given status and body, content type `application/octet-stream`; also used at allnodes.rs:143 and 151 and publicnode.rs:64 |
| Providers.ChainIds | src/providers/allnodes.rs:93-95 | the collected chain ids are exactly the map's keys, each once, as many as the map has entries |
| Providers.IsRateLimited | src/providers/allnodes.rs:102-107 | a response is rate limited iff its final status is 429 (the WebSocket impl at allnodes.rs:78-86 and publicnode.rs:37-42 are the same predicate) |
| Providers.Classify | src/providers/allnodes.rs:130-149 | RateLimited iff 2xx, a JSON-RPC error, an internal code and a rate-limit message; NodeError iff the same but not rate-limit and node-error message (rate limit takes precedence); a non-2xx status or no error object is always Unclassified |
| Providers.PassThrough | src/providers/allnodes.rs:151-155 | the fall-through response keeps the upstream status and body and has content type `application/json` |
| Providers.NormalizeReply | src/providers/allnodes.rs:130-155 | the body is never changed; RateLimited gives a 429 byte response, NodeError a 500 byte response, Unclassified the pass-through |
| Providers.NonSuccessIsTrusted | src/providers/allnodes.rs:130 | a non-2xx upstream status passes through whatever the body holds |
| Providers.NoErrorObjectPassesThrough | src/providers/allnodes.rs:131-132 | an unparseable body or one without an `error` passes through with its own status |
| Providers.JsonContentTypeIffUnclassified | src/providers/allnodes.rs:137-154 | the result has content type `application/json` iff it took the fall-through path; the 429 and 500 early returns do not |
| Providers.RateLimitedSignal | src/providers/allnodes.rs:102-107 | the final response is rate limited iff it was reclassified to 429 or the upstream itself answered 429 |
| Allnodes.AllnodesProvider.SupportsCaipChainid | src/providers/allnodes.rs:89-91 | membership of the chain id in the HTTP chain map |
| Allnodes.AllnodesProvider.SupportedCaipChains | src/providers/allnodes.rs:93-95 | returns each supported chain id once and only those: `c` is listed iff `SupportsCaipChainid(c)` |
| Allnodes.AllnodesProvider.Kind | src/providers/allnodes.rs:97-99 | the kind is always Allnodes |
| Allnodes.AllnodesProvider.Proxy | src/providers/allnodes.rs:112-156 | ChainNotFound iff the chain is unsupported, and then no request is sent; otherwise exactly one POST to `https://<token>.allnodes.me:8545/<api key>` with JSON content type and the body unchanged; a transport error propagates; a reply is normalized by `NormalizeReply` |
| Allnodes.AllnodesWsProvider.SupportsCaipChainid | src/providers/allnodes.rs:39-41 | membership of the chain id in the WebSocket chain map |
| Allnodes.AllnodesWsProvider.SupportedCaipChains | src/providers/allnodes.rs:43-45 | returns each supported WebSocket chain id once and only those |
| Allnodes.AllnodesWsProvider.Kind | src/providers/allnodes.rs:47-49 | the kind is always Allnodes |
| Allnodes.AllnodesWsProvider.Proxy | src/providers/allnodes.rs:55-75 | ChainNotFound iff the chain is unsupported, and then nothing is dialed; otherwise exactly one dial of `wss://<token>.allnodes.me:8546/<api key>`; a connect failure becomes AxumTungstenite; success starts the bridge with the caller's project id, the upstream socket and metrics name "allnodes" |
| Allnodes.Tokens | src/providers/allnodes.rs:163-167 | same keys as the config map, each value the first component of the config entry |
| Allnodes.NewHttpProvider | src/providers/allnodes.rs:159-175 | the chain map is `supported_chains` projected to tokens; the api key is copied unchanged |
| Allnodes.NewWsProvider | src/providers/allnodes.rs:177-191 | the chain map is `supported_ws_chains` projected to tokens; the api key is copied unchanged |
| Allnodes.FactoriesReadSeparateMaps | src/providers/allnodes.rs:161-190 | the HTTP provider does not depend on the WebSocket map and the WebSocket provider does not depend on the HTTP map |
| Allnodes.HttpUri | src/providers/allnodes.rs:118 | the HTTPS endpoint is `https://`, then the token verbatim, then `.allnodes.me:8545/` and the api key |
| Allnodes.WsUri | src/providers/allnodes.rs:66 | the WebSocket endpoint is `wss://`, then the token verbatim, then `.allnodes.me:8546/` and the api key |
| Allnodes.HttpUriInjective | src/providers/allnodes.rs:118 | for one api key, distinct upstream tokens give distinct HTTPS endpoints |
| Allnodes.WsUriInjective | src/providers/allnodes.rs:66 | for one api key, distinct upstream tokens give distinct WebSocket endpoints |
| Publicnode.PublicnodeProvider.SupportsCaipChainid | src/providers/publicnode.rs:24-26 | membership of the chain id in the chain map |
| Publicnode.PublicnodeProvider.SupportedCaipChains | src/providers/publicnode.rs:28-30 | returns each supported chain id once and only those |
| Publicnode.PublicnodeProvider.Kind | src/providers/publicnode.rs:32-34 | the kind is always Publicnode |
| Publicnode.PublicnodeProvider.Proxy | src/providers/publicnode.rs:47-68 | ChainNotFound iff the chain is unsupported, and then no request is sent; otherwise exactly one POST to `https://<token>.publicnode.com` with JSON content type and the body unchanged; a transport error propagates; any reply passes through with its status and body and content type `application/json` |
| Publicnode.NewProvider | src/providers/publicnode.rs:72-86 | the chain map is `supported_chains` projected to tokens |
| Publicnode.Uri | src/providers/publicnode.rs:53 | the endpoint is `https://`, then the token verbatim, then `.publicnode.com`: no port and no credential |
| Publicnode.UriInjective | src/providers/publicnode.rs:53 | distinct upstream tokens give distinct endpoints |
| Exchanges.ExchangeType.Ordinal | src/handlers/wallet/exchanges/mod.rs:85-91 | every variant sits at its declaration position in the iteration order `Binance, Coinbase, ReownTest` |
| Exchanges.ExchangeTypes | src/handlers/wallet/exchanges/mod.rs:85-91 | `ExchangeType::iter()` yields every variant exactly once (the order is fixed by `ExchangeType.Ordinal`) |
| Exchanges.DeclaredVariants | src/handlers/wallet/exchanges/mod.rs:85-91 | the enumeration is closed: every value is `Binance`, `Coinbase` or `ReownTest` |
| Exchanges.ExchangeType.IsAssetSupported | src/handlers/wallet/exchanges/mod.rs:152-154 | a variant supports an asset iff its provider's `is_asset_supported` says so |
| Exchanges.ExchangeProvider.ToExchange | src/handlers/wallet/exchanges/mod.rs:76-82 | the description's id, name and image URL are the provider's |
| Exchanges.ExchangeType.ToExchange | src/handlers/wallet/exchanges/mod.rs:120-122 | the description of a variant carries its provider's id, name and image URL |
| Exchanges.IndexOfId | src/handlers/wallet/exchanges/mod.rs:125 | the position found holds the id and no earlier position does; none found iff no position holds it |
| Exchanges.ExchangeType.FromId | src/handlers/wallet/exchanges/mod.rs:124-126 | the variant found has the id and no variant declared before it does; None iff no variant has the id |
| Exchanges.FromIdOfOwnId | src/handlers/wallet/exchanges/mod.rs:124-126 | looking a variant up by its own id finds it or an earlier variant with the same id; with distinct ids it finds the variant itself |
| Exchanges.SupportedAmong | src/handlers/wallet/exchanges/mod.rs:162-163 | keeps exactly the variants that support the asset, as a subsequence of the input (order kept) |
| Exchanges.SupportedAmongKeepsAll | src/handlers/wallet/exchanges/mod.rs:162-163 | when every variant supports the asset the filter keeps the whole list |
| Exchanges.ExchangesOf | src/handlers/wallet/exchanges/mod.rs:164-167 | one description per variant, position by position |
| Exchanges.ExchangesOfMembers | src/handlers/wallet/exchanges/mod.rs:164-167 | a description is in the mapped list iff some listed variant has it |
| Exchanges.ExchangesOfKeepsSubsequence | src/handlers/wallet/exchanges/mod.rs:162-165 | mapping `to_exchange` over a subsequence of the variants gives a subsequence of their descriptions |
| Exchanges.GetSupportedExchanges | src/handlers/wallet/exchanges/mod.rs:157-169 | fails iff an asset is given and does not parse, with ValidationError carrying the parse message; no asset gives all three descriptions in declaration order; for a parsed asset a supporting variant's description is listed, every listed description belongs to a supporting variant, and the list is a subsequence of the full list of descriptions (declaration order kept) |
| Exchanges.UniversalAssetListsEverything | src/handlers/wallet/exchanges/mod.rs:157-169 | an asset every exchange supports lists the same exchanges as no asset |
| Exchanges.GetExchangeById | src/handlers/wallet/exchanges/mod.rs:171-173 | None iff no exchange has the id; otherwise the description, with that id, of the variant `from_id` finds |
| Exchanges.GetExchangeByOwnId | src/handlers/wallet/exchanges/mod.rs:171-173 | with distinct ids, looking up an exchange's own id returns its own description |
| Exchanges.IsFeatureEnabledForProjectId | src/handlers/wallet/exchanges/mod.rs:175-201 | Ok iff the project is the testing project or is on a configured allow-list; otherwise "Feature is not enabled" without a list and "Project is not allowed to use this feature" when the project is not listed |

## Left out

- The hyper client, the request builder and `to_bytes`. They are one abstract `send` parameter. Its transport error comes back as `Transport`, unchanged. A request-building failure is one such error.
- The JSON-RPC parse of the reply body. It is an abstract `parse` parameter with three outcomes: not JSON-RPC, no error object, or an error with code and message. JSON grammar is not modelled.
- `is_internal_error_rpc_code`, `is_rate_limited_error_rpc_message` and `is_node_error_rpc_message` are defined in `src/providers/mod.rs`, which is not part of this model. They are the uninterpreted fields of `Providers.Classifier`.
- WebSocket bridging, the upgrade response, `ws::proxy` and the `with_metrics` wrapper. They are concurrent network I/O. The model stops at the session the bridge is started with: project id, upstream socket and metrics name.
- Tracing and `debug!` logging. They have no effect on results.
- The upstream reply's own headers are dropped by the source. The model's reply therefore holds only status and body.
- `Providers.ChainIds`: hash-map iteration order is unspecified. The model picks keys nondeterministically and does not fix an order.
- `ProviderKind` has other variants for providers that are not part of this model. Only `Allnodes` and `Publicnode` are declared.
- `get_buy_url`, `get_buy_status`, `GetBuyUrlParams`, `GetBuyStatusParams`, `BuyTransactionStatus` and `GetBuyStatusResponse`. These are asynchronous calls to third-party purchase APIs and take a floating-point amount.
- The per-exchange providers (`binance`, `coinbase`, `test_exchange`) and `Caip19Asset::parse` are not part of this model. The `provider` and `parse` parameters stand for them.
- The `AsRefStr` derive on `ExchangeType` (lower-case serialized names). None of the modelled functions reads the serialized name.
- `crypto::constant_time_eq` is modelled as string equality. Its timing behaviour is not modelled.
- The exchange `Config` credential fields are not read by the modelled functions. Only `allowed_project_ids` is modelled, together with the server's testing project id, in `Exchanges.FeatureGate`.
