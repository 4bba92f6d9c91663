/** What every forwarding provider shares: the kind tag, the chain-map
    accessors, the status-only rate-limit signal, and the reclassification of
    an upstream reply that carries a JSON-RPC error under a success status. */
module Providers {
  import opened Wrappers
  import opened Http

  /** The provider implementations this model covers. */
  datatype ProviderKind = Allnodes | Publicnode

  /** A provider's chain-name mapping: CAIP-2 chain id to the upstream's own
      network token. */
  type ChainMap = map<string, string>

  /** The second component a provider configuration pairs with each chain's
      upstream token. The factories read only the first component (`v.0`) of
      each entry, so this one is left uninterpreted and dropped. */
  datatype EntryExtra = EntryExtra(value: nat)

  /** The query of an inbound WebSocket upgrade: the chain to reach and the
      caller's project id. */
  datatype RpcQueryParams = RpcQueryParams(chainId: string, projectId: string)

  /** The outcome of parsing an upstream body as `jsonrpc::Response`. */
  datatype JsonRpcBody =
    | NotJsonRpc
    | NoError
    | WithError(code: int, message: string)

  /** The three classifier predicates on `error.code` and `error.message`.
      Their definitions are not part of this model; every property below
      holds whatever they are. */
  datatype Classifier = Classifier(
    isInternalErrorCode: int -> bool,
    isRateLimitedMessage: string -> bool,
    isNodeErrorMessage: string -> bool)

  /** The semantic category of an upstream reply. */
  datatype Verdict = RateLimited | NodeError | Unclassified

  predicate NoDuplicates(s: seq<string>) {
    forall i, j :: 0 <= i < j < |s| ==> s[i] != s[j]
  }

  /** `supported_chains.keys().cloned().collect()`: the keys of the map,
      each once, in an order the hash map leaves unspecified. */
  method ChainIds(chains: ChainMap) returns (ids: seq<string>)
    ensures NoDuplicates(ids)
    ensures |ids| == |chains|
    ensures forall c :: c in ids <==> c in chains
  {
    var rest := chains.Keys;
    ids := [];
    while rest != {}
      invariant rest <= chains.Keys
      invariant NoDuplicates(ids)
      invariant forall c :: c in ids <==> c in chains && c !in rest
      invariant |ids| + |rest| == |chains.Keys|
      decreases |rest|
    {
      var c :| c in rest;
      ids := ids + [c];
      rest := rest - {c};
    }
  }

  /** `RateLimited::is_rate_limited`: looks at the final status only. */
  predicate IsRateLimited(response: Response) {
    response.status == TooManyRequests
  }

  /** Classification of an upstream reply: only a success status with a
      JSON-RPC error whose code is internal is inspected further; among those
      the rate-limit phrasing wins over the node-error phrasing. */
  function Classify(status: StatusCode, parsed: JsonRpcBody, classifier: Classifier): (v: Verdict)
    ensures v == RateLimited <==>
      IsSuccess(status) && parsed.WithError?
      && classifier.isInternalErrorCode(parsed.code)
      && classifier.isRateLimitedMessage(parsed.message)
    ensures v == NodeError <==>
      IsSuccess(status) && parsed.WithError?
      && classifier.isInternalErrorCode(parsed.code)
      && !classifier.isRateLimitedMessage(parsed.message)
      && classifier.isNodeErrorMessage(parsed.message)
    ensures !IsSuccess(status) || !parsed.WithError? ==> v == Unclassified
  {
    if IsSuccess(status) then
      match parsed
      case WithError(code, message) =>
        if !classifier.isInternalErrorCode(code) then Unclassified
        else if classifier.isRateLimitedMessage(message) then RateLimited
        else if classifier.isNodeErrorMessage(message) then NodeError
        else Unclassified
      case _ => Unclassified
    else Unclassified
  }

  /** The fall-through response: the upstream status and body, with the
      content type forced to `application/json`. */
  function PassThrough(reply: UpstreamReply): (r: Response)
    ensures r.status == reply.status && r.body == reply.body
    ensures ContentType in r.headers && r.headers[ContentType] == ApplicationJson
  {
    var response := BytesResponse(reply.status, reply.body);
    response.(headers := response.headers[ContentType := ApplicationJson])
  }

  /** The response a reclassifying provider hands back for an upstream reply
      whose body parsed as `parsed`. */
  function NormalizeReply(reply: UpstreamReply, parsed: JsonRpcBody, classifier: Classifier): (r: Response)
    ensures r.body == reply.body
    ensures Classify(reply.status, parsed, classifier) == RateLimited ==>
      r == BytesResponse(TooManyRequests, reply.body)
    ensures Classify(reply.status, parsed, classifier) == NodeError ==>
      r == BytesResponse(InternalServerError, reply.body)
    ensures Classify(reply.status, parsed, classifier) == Unclassified ==>
      r == PassThrough(reply)
  {
    match Classify(reply.status, parsed, classifier)
    case RateLimited => BytesResponse(TooManyRequests, reply.body)
    case NodeError => BytesResponse(InternalServerError, reply.body)
    case Unclassified => PassThrough(reply)
  }

  /** A non-2xx upstream status is trusted: whatever the body says, the reply
      passes through unchanged. */
  lemma NonSuccessIsTrusted(reply: UpstreamReply, parsed: JsonRpcBody, classifier: Classifier)
    requires !IsSuccess(reply.status)
    ensures NormalizeReply(reply, parsed, classifier) == PassThrough(reply)
  {
  }

  /** A body that is not a JSON-RPC response, or one without an error object,
      passes through with its original status. */
  lemma NoErrorObjectPassesThrough(reply: UpstreamReply, parsed: JsonRpcBody, classifier: Classifier)
    requires !parsed.WithError?
    ensures NormalizeReply(reply, parsed, classifier) == PassThrough(reply)
  {
  }

  /** Only the fall-through path carries `application/json`; the two early
      returns keep the byte-body default. */
  lemma JsonContentTypeIffUnclassified(reply: UpstreamReply, parsed: JsonRpcBody, classifier: Classifier)
    ensures var r := NormalizeReply(reply, parsed, classifier);
      ContentType in r.headers
      && (r.headers[ContentType] == ApplicationJson
          <==> Classify(reply.status, parsed, classifier) == Unclassified)
  {
  }

  /** The status-only rate-limit signal sees a reclassified 429 and an
      upstream 429 alike, and nothing else. */
  lemma RateLimitedSignal(reply: UpstreamReply, parsed: JsonRpcBody, classifier: Classifier)
    ensures IsRateLimited(NormalizeReply(reply, parsed, classifier)) <==>
      Classify(reply.status, parsed, classifier) == RateLimited || reply.status == TooManyRequests
  {
  }
}
