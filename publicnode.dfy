/** The Publicnode upstream: an HTTP forwarding provider with no credential,
    no port and no reclassification of the reply. */
module Publicnode {
  import opened Wrappers
  import opened Http
  import opened Providers

  /** The field of `PublicnodeConfig` the factory reads: chain id mapped to a
      pair whose first component is the upstream token. */
  datatype PublicnodeConfig = PublicnodeConfig(supportedChains: map<string, (string, EntryExtra)>)

  /** The HTTPS endpoint for one upstream token. */
  function Uri(token: string): (u: string)
    ensures |u| == 8 + |token| + 15
    ensures u[..8] == "https://" && u[8..8 + |token|] == token
    ensures u[8 + |token|..] == ".publicnode.com"
  {
    "https://" + token + ".publicnode.com"
  }

  /** `PublicnodeProvider`. */
  datatype PublicnodeProvider = PublicnodeProvider(supportedChains: ChainMap)
  {
    predicate SupportsCaipChainid(chainId: string) {
      chainId in supportedChains
    }

    method SupportedCaipChains() returns (ids: seq<string>)
      ensures NoDuplicates(ids) && |ids| == |supportedChains|
      ensures forall c :: c in ids <==> SupportsCaipChainid(c)
    {
      ids := ChainIds(supportedChains);
    }

    function Kind(): (k: ProviderKind)
      ensures k == Publicnode
    {
      Publicnode
    }

    /** Forwards `body` to the upstream of `chainId` and returns its reply as
        it came, with the content type forced to `application/json`. `send`
        stands for building the request, issuing it and reading the whole
        body; `sent` lists the requests handed to it. */
    method Proxy(chainId: string, body: Bytes,
                 send: OutboundRequest -> Result<UpstreamReply, TransportError>)
      returns (r: RpcResult<Response>, sent: seq<OutboundRequest>)
      ensures r == Failure(ChainNotFound) <==> !SupportsCaipChainid(chainId)
      ensures !SupportsCaipChainid(chainId) ==> sent == []
      ensures SupportsCaipChainid(chainId) ==>
        sent == [OutboundRequest(Post, "https://" + supportedChains[chainId] + ".publicnode.com",
                                 map[ContentType := ApplicationJson], body)]
      ensures SupportsCaipChainid(chainId) && send(sent[0]).Failure? ==>
        r == Failure(Transport(send(sent[0]).error))
      ensures SupportsCaipChainid(chainId) && send(sent[0]).Success? ==>
        r == Success(PassThrough(send(sent[0]).value))
    {
      if chainId !in supportedChains {
        return Failure(ChainNotFound), [];
      }
      var chain := supportedChains[chainId];
      var uri := Uri(chain);
      var request := OutboundRequest(Post, uri, map[ContentType := ApplicationJson], body);
      sent := [request];
      var upstream := send(request);
      if upstream.Failure? {
        return Failure(Transport(upstream.error)), sent;
      }
      var response := BytesResponse(upstream.value.status, upstream.value.body);
      response := response.(headers := response.headers[ContentType := ApplicationJson]);
      r := Success(response);
    }
  }

  /** `PublicnodeProvider::new`. */
  function NewProvider(config: PublicnodeConfig): (p: PublicnodeProvider)
    ensures p.supportedChains.Keys == config.supportedChains.Keys
    ensures forall c :: c in p.supportedChains ==> p.supportedChains[c] == config.supportedChains[c].0
  {
    PublicnodeProvider(map c | c in config.supportedChains :: config.supportedChains[c].0)
  }

  /** The endpoint names the upstream token and nothing else: two different
      tokens never give the same URI. */
  lemma UriInjective(t1: string, t2: string)
    requires Uri(t1) == Uri(t2)
    ensures t1 == t2
  {
    // Immediate from the length and slice postconditions of the endpoint builder.
  }
}
