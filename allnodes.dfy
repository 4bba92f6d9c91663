/** The Allnodes upstream: an HTTP forwarding provider that reclassifies
    JSON-RPC errors reported under a success status, and a WebSocket provider
    that resolves the upstream socket before the bridge starts. */
module Allnodes {
  import opened Wrappers
  import opened Http
  import opened Providers

  /** The fields of `AllnodesConfig` the factories read: the credential and
      two chain maps, one for HTTP and one for WebSocket, each chain id mapped
      to a pair whose first component is the upstream token. */
  datatype AllnodesConfig = AllnodesConfig(
    apiKey: string,
    supportedChains: map<string, (string, EntryExtra)>,
    supportedWsChains: map<string, (string, EntryExtra)>)

  /** The projection `.map(|(k, v)| (k.clone(), v.0.clone())).collect()`. */
  function Tokens(entries: map<string, (string, EntryExtra)>): (m: ChainMap)
    ensures m.Keys == entries.Keys
    ensures forall c :: c in m ==> m[c] == entries[c].0
  {
    map c | c in entries :: entries[c].0
  }

  /** The HTTPS endpoint for one upstream token. */
  function HttpUri(token: string, apiKey: string): (u: string)
    ensures |u| == 8 + |token| + 18 + |apiKey|
    ensures u[..8] == "https://" && u[8..8 + |token|] == token
    ensures u[8 + |token|..] == ".allnodes.me:8545/" + apiKey
  {
    "https://" + token + ".allnodes.me:8545/" + apiKey
  }

  /** The secure-WebSocket endpoint for one upstream token. */
  function WsUri(token: string, apiKey: string): (u: string)
    ensures |u| == 6 + |token| + 18 + |apiKey|
    ensures u[..6] == "wss://" && u[6..6 + |token|] == token
    ensures u[6 + |token|..] == ".allnodes.me:8546/" + apiKey
  {
    "wss://" + token + ".allnodes.me:8546/" + apiKey
  }

  /** What the bridge is started with once the outbound socket is open: the
      caller's project id, the upstream connection and the metrics name of
      the bridging task. The bridging itself is not part of this model. */
  datatype WsSession<Conn> = WsSession(projectId: string, upstream: Conn, metricsName: string)

  /** `AllnodesProvider`: the HTTP forwarding provider. */
  datatype AllnodesProvider = AllnodesProvider(supportedChains: ChainMap, apiKey: string)
  {
    predicate SupportsCaipChainid(chainId: string) {
      chainId in supportedChains
    }

    method SupportedCaipChains() returns (ids: seq<string>)
      ensures NoDuplicates(ids) && |ids| == |supportedChains|
      ensures forall c :: c in ids <==> SupportsCaipChainid(c)
    {
      ids := ChainIds(supportedChains);
    }

    function Kind(): (k: ProviderKind)
      ensures k == Allnodes
    {
      Allnodes
    }

    /** Forwards `body` to the upstream of `chainId` and normalizes the reply.
        `send` stands for building the request, issuing it and reading the
        whole body; `parse` for the JSON-RPC parse of the reply body; `sent`
        lists the requests handed to `send`. */
    method Proxy(chainId: string, body: Bytes,
                 send: OutboundRequest -> Result<UpstreamReply, TransportError>,
                 parse: Bytes -> JsonRpcBody, classifier: Classifier)
      returns (r: RpcResult<Response>, sent: seq<OutboundRequest>)
      ensures r == Failure(ChainNotFound) <==> !SupportsCaipChainid(chainId)
      ensures !SupportsCaipChainid(chainId) ==> sent == []
      ensures SupportsCaipChainid(chainId) ==>
        sent == [OutboundRequest(Post,
                                 "https://" + supportedChains[chainId] + ".allnodes.me:8545/" + apiKey,
                                 map[ContentType := ApplicationJson], body)]
      ensures SupportsCaipChainid(chainId) && send(sent[0]).Failure? ==>
        r == Failure(Transport(send(sent[0]).error))
      ensures SupportsCaipChainid(chainId) && send(sent[0]).Success? ==>
        var reply := send(sent[0]).value;
        r == Success(NormalizeReply(reply, parse(reply.body), classifier))
    {
      if chainId !in supportedChains {
        return Failure(ChainNotFound), [];
      }
      var chain := supportedChains[chainId];
      var uri := HttpUri(chain, apiKey);
      var request := OutboundRequest(Post, uri, map[ContentType := ApplicationJson], body);
      sent := [request];
      var upstream := send(request);
      if upstream.Failure? {
        return Failure(Transport(upstream.error)), sent;
      }
      var status := upstream.value.status;
      var replyBody := upstream.value.body;
      if IsSuccess(status) {
        var parsed := parse(replyBody);
        if parsed.WithError? {
          if classifier.isInternalErrorCode(parsed.code) {
            if classifier.isRateLimitedMessage(parsed.message) {
              return Success(BytesResponse(TooManyRequests, replyBody)), sent;
            }
            if classifier.isNodeErrorMessage(parsed.message) {
              return Success(BytesResponse(InternalServerError, replyBody)), sent;
            }
          }
        }
      }
      var response := BytesResponse(status, replyBody);
      response := response.(headers := response.headers[ContentType := ApplicationJson]);
      r := Success(response);
    }
  }

  /** `AllnodesWsProvider`: the WebSocket provider. */
  datatype AllnodesWsProvider = AllnodesWsProvider(supportedChains: ChainMap, apiKey: string)
  {
    predicate SupportsCaipChainid(chainId: string) {
      chainId in supportedChains
    }

    method SupportedCaipChains() returns (ids: seq<string>)
      ensures NoDuplicates(ids) && |ids| == |supportedChains|
      ensures forall c :: c in ids <==> SupportsCaipChainid(c)
    {
      ids := ChainIds(supportedChains);
    }

    function Kind(): (k: ProviderKind)
      ensures k == Allnodes
    {
      Allnodes
    }

    /** Resolves the upstream of `params.chainId`, opens the outbound socket
        with `connect` and, on success, starts the bridge for the caller's
        project id under the metrics name "allnodes". `dialed` lists the
        URIs handed to `connect`. */
    method Proxy<Conn>(params: RpcQueryParams, connect: string -> Result<Conn, WsConnectError>)
      returns (r: RpcResult<WsSession<Conn>>, dialed: seq<string>)
      ensures r == Failure(ChainNotFound) <==> !SupportsCaipChainid(params.chainId)
      ensures !SupportsCaipChainid(params.chainId) ==> dialed == []
      ensures SupportsCaipChainid(params.chainId) ==>
        dialed == ["wss://" + supportedChains[params.chainId] + ".allnodes.me:8546/" + apiKey]
      ensures SupportsCaipChainid(params.chainId) && connect(dialed[0]).Failure? ==>
        r == Failure(AxumTungstenite(connect(dialed[0]).error))
      ensures SupportsCaipChainid(params.chainId) && connect(dialed[0]).Success? ==>
        r == Success(WsSession(params.projectId, connect(dialed[0]).value, "allnodes"))
    {
      if params.chainId !in supportedChains {
        return Failure(ChainNotFound), [];
      }
      var chain := supportedChains[params.chainId];
      var projectId := params.projectId;
      var uri := WsUri(chain, apiKey);
      dialed := [uri];
      var socket := connect(uri);
      if socket.Failure? {
        return Failure(AxumTungstenite(socket.error)), dialed;
      }
      r := Success(WsSession(projectId, socket.value, "allnodes"));
    }
  }

  /** `AllnodesProvider::new`: reads the HTTP chain map. */
  function NewHttpProvider(config: AllnodesConfig): (p: AllnodesProvider)
    ensures p.supportedChains.Keys == config.supportedChains.Keys
    ensures forall c :: c in p.supportedChains ==> p.supportedChains[c] == config.supportedChains[c].0
    ensures p.apiKey == config.apiKey
  {
    AllnodesProvider(Tokens(config.supportedChains), config.apiKey)
  }

  /** `AllnodesWsProvider::new`: reads the WebSocket chain map. */
  function NewWsProvider(config: AllnodesConfig): (p: AllnodesWsProvider)
    ensures p.supportedChains.Keys == config.supportedWsChains.Keys
    ensures forall c :: c in p.supportedChains ==> p.supportedChains[c] == config.supportedWsChains[c].0
    ensures p.apiKey == config.apiKey
  {
    AllnodesWsProvider(Tokens(config.supportedWsChains), config.apiKey)
  }

  /** Each factory reads only its own map: the HTTP provider does not depend
      on the WebSocket map, nor the WebSocket provider on the HTTP map. */
  lemma FactoriesReadSeparateMaps(config: AllnodesConfig, http: map<string, (string, EntryExtra)>, ws: map<string, (string, EntryExtra)>)
    ensures NewHttpProvider(config.(supportedWsChains := ws)) == NewHttpProvider(config)
    ensures NewWsProvider(config.(supportedChains := http)) == NewWsProvider(config)
  {
  }

  /** For the same credential, two different upstream tokens never give the
      same endpoint, so requests for chains mapped to different upstream
      networks cannot reach the same URI. */
  lemma HttpUriInjective(t1: string, t2: string, apiKey: string)
    requires HttpUri(t1, apiKey) == HttpUri(t2, apiKey)
    ensures t1 == t2
  {
    // Immediate from the length and slice postconditions of the endpoint builder.
  }

  /** The same holds of the WebSocket endpoint. */
  lemma WsUriInjective(t1: string, t2: string, apiKey: string)
    requires WsUri(t1, apiKey) == WsUri(t2, apiKey)
    ensures t1 == t2
  {
    // Immediate from the length and slice postconditions of the endpoint builder.
  }
}
