/** The fiat-onramp exchange registry: a closed enumeration of exchanges
    iterated in declaration order, lookup by id, the asset filter, and the
    per-project feature gate. Each exchange's id, name, image and asset
    support come from its own provider, passed in as `provider`. */
module Exchanges {
  import opened Wrappers

  /** `ExchangeType`, in declaration order. */
  datatype ExchangeType = Binance | Coinbase | ReownTest
  {
    /** Position in declaration order, the order `ExchangeType::iter()`
        yields. */
    function Ordinal(): (n: nat)
      ensures n < |ExchangeTypes()| && ExchangeTypes()[n] == this
    {
      match this
      case Binance => 0
      case Coinbase => 1
      case ReownTest => 2
    }

    /** `ExchangeType::to_exchange`: the public description of this exchange. */
    function ToExchange<Asset>(provider: ExchangeType -> ExchangeProvider<Asset>): (e: Exchange)
      ensures e.id == provider(this).id && e.name == provider(this).name
      ensures e.imageUrl == provider(this).imageUrl
    {
      provider(this).ToExchange()
    }

    /** `ExchangeType::is_asset_supported`. */
    predicate IsAssetSupported<Asset>(provider: ExchangeType -> ExchangeProvider<Asset>, asset: Asset) {
      provider(this).isAssetSupported(asset)
    }

    /** `ExchangeType::from_id`: the first exchange, in declaration order,
        whose provider id is `id`. */
    static function FromId<Asset>(id: string, provider: ExchangeType -> ExchangeProvider<Asset>): (r: Option<ExchangeType>)
      ensures r.Some? ==> provider(r.value).id == id
      ensures r.Some? ==> forall t: ExchangeType :: t.Ordinal() < r.value.Ordinal() ==> provider(t).id != id
      ensures r.None? <==> forall t: ExchangeType :: provider(t).id != id
    {
      match IndexOfId(ExchangeTypes(), id, provider)
      case Some(k) =>
        assert forall t: ExchangeType :: t.Ordinal() < k ==> ExchangeTypes()[t.Ordinal()] == t;
        Some(ExchangeTypes()[k])
      case None =>
        NoMatchAnywhere(id, provider);
        None
    }
  }

  /** `ExchangeType::iter()`: every variant exactly once, in declaration
      order. */
  function ExchangeTypes(): (ts: seq<ExchangeType>)
    ensures forall t: ExchangeType :: t in ts
    ensures forall i, j :: 0 <= i < j < |ts| ==> ts[i] != ts[j]
  {
    DeclaredVariants();
    [Binance, Coinbase, ReownTest]
  }

  /** The enumeration is closed: these three are all its values. */
  lemma DeclaredVariants()
    ensures forall t: ExchangeType :: t in [Binance, Coinbase, ReownTest]
  {
    forall t: ExchangeType
      ensures t in [Binance, Coinbase, ReownTest]
    {
      match t
      case Binance =>
      case Coinbase =>
      case ReownTest =>
    }
  }

  /** `Exchange`: what the wallet API reports about an exchange. */
  datatype Exchange = Exchange(id: string, name: string, imageUrl: Option<string>)

  /** `ExchangeError`. */
  datatype ExchangeError =
    | ConfigurationError(message: string)
    | ValidationError(message: string)
    | GetPayUrlError(message: string)
    | FeatureNotEnabled(message: string)
    | InternalError(message: string)

  /** What an `ExchangeProvider` implementation exposes to the registry. */
  datatype ExchangeProvider<!Asset> = ExchangeProvider(
    id: string,
    name: string,
    imageUrl: Option<string>,
    isAssetSupported: Asset -> bool)
  {
    /** The trait's default `to_exchange`. */
    function ToExchange(): (e: Exchange)
      ensures e.id == id && e.name == name && e.imageUrl == imageUrl
    {
      Exchange(id, name, imageUrl)
    }
  }

  /** The position of the first element of `ts` whose provider id is `id`. */
  function IndexOfId<Asset>(ts: seq<ExchangeType>, id: string, provider: ExchangeType -> ExchangeProvider<Asset>): (k: Option<nat>)
    ensures k.Some? ==> k.value < |ts| && provider(ts[k.value]).id == id
    ensures k.Some? ==> forall j :: 0 <= j < k.value ==> provider(ts[j]).id != id
    ensures k.None? <==> forall j :: 0 <= j < |ts| ==> provider(ts[j]).id != id
  {
    if ts == [] then None
    else if provider(ts[0]).id == id then Some(0)
    else
      match IndexOfId(ts[1..], id, provider)
      case None => None
      case Some(k) => Some(k + 1)
  }

  /** A search of the whole declaration list that finds nothing rules out
      every variant. */
  lemma NoMatchAnywhere<Asset>(id: string, provider: ExchangeType -> ExchangeProvider<Asset>)
    requires forall j :: 0 <= j < |ExchangeTypes()| ==> provider(ExchangeTypes()[j]).id != id
    ensures forall t: ExchangeType :: provider(t).id != id
  {
    forall t: ExchangeType
      ensures provider(t).id != id
    {
      assert ExchangeTypes()[t.Ordinal()] == t;
    }
  }

  /** `xs` is `ys` with some elements left out and the rest in their order. */
  predicate IsSubsequence<T(==)>(xs: seq<T>, ys: seq<T>)
    decreases |ys|
  {
    || xs == []
    || (ys != [] && ((xs[0] == ys[0] && IsSubsequence(xs[1..], ys[1..])) || IsSubsequence(xs, ys[1..])))
  }

  /** `.filter(|e| e.is_asset_supported(&asset))` over `ts`. */
  function SupportedAmong<Asset>(ts: seq<ExchangeType>, asset: Asset, provider: ExchangeType -> ExchangeProvider<Asset>): (r: seq<ExchangeType>)
    ensures forall t :: t in r <==> t in ts && t.IsAssetSupported(provider, asset)
    ensures IsSubsequence(r, ts)
  {
    if ts == [] then []
    else
      var rest := SupportedAmong(ts[1..], asset, provider);
      if ts[0].IsAssetSupported(provider, asset) then [ts[0]] + rest else rest
  }

  /** An asset every listed exchange supports keeps the whole list. */
  lemma {:induction false} SupportedAmongKeepsAll<Asset>(ts: seq<ExchangeType>, asset: Asset, provider: ExchangeType -> ExchangeProvider<Asset>)
    requires forall t :: t in ts ==> t.IsAssetSupported(provider, asset)
    ensures SupportedAmong(ts, asset, provider) == ts
  {
    if ts != [] {
      SupportedAmongKeepsAll(ts[1..], asset, provider);
      assert [ts[0]] + ts[1..] == ts;
    }
  }

  /** `.map(|e| e.to_exchange()).collect()` over `ts`. */
  function ExchangesOf<Asset>(ts: seq<ExchangeType>, provider: ExchangeType -> ExchangeProvider<Asset>): (r: seq<Exchange>)
    ensures |r| == |ts|
    ensures forall i :: 0 <= i < |ts| ==> r[i] == ts[i].ToExchange(provider)
  {
    if ts == [] then [] else [ts[0].ToExchange(provider)] + ExchangesOf(ts[1..], provider)
  }

  /** A description is listed exactly when some listed variant has it. */
  lemma ExchangesOfMembers<Asset>(ts: seq<ExchangeType>, provider: ExchangeType -> ExchangeProvider<Asset>)
    ensures forall t :: t in ts ==> t.ToExchange(provider) in ExchangesOf(ts, provider)
    ensures forall e :: e in ExchangesOf(ts, provider) ==> exists t :: t in ts && e == t.ToExchange(provider)
  {
    var r := ExchangesOf(ts, provider);
    forall t | t in ts
      ensures t.ToExchange(provider) in r
    {
      var i :| 0 <= i < |ts| && ts[i] == t;
      assert r[i] == t.ToExchange(provider);
    }
    forall e | e in r
      ensures exists t :: t in ts && e == t.ToExchange(provider)
    {
      var i :| 0 <= i < |r| && r[i] == e;
      assert ts[i] in ts && e == ts[i].ToExchange(provider);
    }
  }

  /** Describing the variants keeps a subsequence a subsequence. */
  lemma {:induction false} ExchangesOfKeepsSubsequence<Asset>(xs: seq<ExchangeType>, ys: seq<ExchangeType>,
                                                              provider: ExchangeType -> ExchangeProvider<Asset>)
    requires IsSubsequence(xs, ys)
    ensures IsSubsequence(ExchangesOf(xs, provider), ExchangesOf(ys, provider))
    decreases |ys|
  {
    if xs != [] {
      assert ExchangesOf(ys, provider)[1..] == ExchangesOf(ys[1..], provider);
      if xs[0] == ys[0] && IsSubsequence(xs[1..], ys[1..]) {
        ExchangesOfKeepsSubsequence(xs[1..], ys[1..], provider);
        assert ExchangesOf(xs, provider)[1..] == ExchangesOf(xs[1..], provider);
      } else {
        ExchangesOfKeepsSubsequence(xs, ys[1..], provider);
      }
    }
  }

  /** `get_supported_exchanges`: every exchange when no asset is given;
      otherwise the asset must parse, and the exchanges supporting it are
      listed in declaration order. */
  function GetSupportedExchanges<Asset>(asset: Option<string>, parse: string -> Result<Asset, string>,
                                        provider: ExchangeType -> ExchangeProvider<Asset>): (r: Result<seq<Exchange>, ExchangeError>)
    ensures r.Failure? <==> asset.Some? && parse(asset.value).Failure?
    ensures r.Failure? ==> r.error == ValidationError(parse(asset.value).error)
    ensures asset.None? ==>
      && r.Success? && |r.value| == 3
      && r.value[0] == Binance.ToExchange(provider)
      && r.value[1] == Coinbase.ToExchange(provider)
      && r.value[2] == ReownTest.ToExchange(provider)
    ensures asset.Some? && parse(asset.value).Success? ==>
      && r.Success?
      && (forall t: ExchangeType :: t.IsAssetSupported(provider, parse(asset.value).value) ==>
            t.ToExchange(provider) in r.value)
      && (forall e :: e in r.value ==>
            exists t: ExchangeType :: t.IsAssetSupported(provider, parse(asset.value).value) && e == t.ToExchange(provider))
      && IsSubsequence(r.value, ExchangesOf(ExchangeTypes(), provider))
    ensures asset.Some? && parse(asset.value).Success? ==>
      r == Success(ExchangesOf(SupportedAmong(ExchangeTypes(), parse(asset.value).value, provider), provider))
  {
    match asset
    case Some(assetStr) =>
      (match parse(assetStr)
       case Failure(e) => Failure(ValidationError(e))
       case Success(parsed) =>
         var kept := SupportedAmong(ExchangeTypes(), parsed, provider);
         ExchangesOfMembers(kept, provider);
         ExchangesOfKeepsSubsequence(kept, ExchangeTypes(), provider);
         Success(ExchangesOf(kept, provider)))
    case None => Success(ExchangesOf(ExchangeTypes(), provider))
  }

  /** Naming an asset that every exchange supports lists the same exchanges,
      in the same order, as naming no asset. */
  lemma UniversalAssetListsEverything<Asset>(assetStr: string, parse: string -> Result<Asset, string>,
                                             provider: ExchangeType -> ExchangeProvider<Asset>)
    requires parse(assetStr).Success?
    requires forall t: ExchangeType :: t.IsAssetSupported(provider, parse(assetStr).value)
    ensures GetSupportedExchanges(Some(assetStr), parse, provider) == GetSupportedExchanges(None, parse, provider)
  {
    SupportedAmongKeepsAll(ExchangeTypes(), parse(assetStr).value, provider);
  }

  /** `get_exchange_by_id`: the description of the first exchange with that
      id, if any. */
  function GetExchangeById<Asset>(id: string, provider: ExchangeType -> ExchangeProvider<Asset>): (r: Option<Exchange>)
    ensures r.None? <==> forall t: ExchangeType :: provider(t).id != id
    ensures r.Some? ==> r.value.id == id
    ensures r.Some? ==>
      && ExchangeType.FromId(id, provider).Some?
      && r.value == ExchangeType.FromId(id, provider).value.ToExchange(provider)
  {
    match ExchangeType.FromId(id, provider)
    case Some(t) => Some(t.ToExchange(provider))
    case None => None
  }

  /** Distinct exchanges report distinct ids. */
  predicate DistinctIds<Asset>(provider: ExchangeType -> ExchangeProvider<Asset>) {
    forall t1: ExchangeType, t2: ExchangeType :: t1 != t2 ==> provider(t1).id != provider(t2).id
  }

  /** Looking an exchange up by its own id finds it, or an exchange declared
      before it that reuses the id; when ids are distinct it finds itself. */
  lemma FromIdOfOwnId<Asset>(t: ExchangeType, provider: ExchangeType -> ExchangeProvider<Asset>)
    ensures ExchangeType.FromId(t.ToExchange(provider).id, provider).Some?
    ensures ExchangeType.FromId(t.ToExchange(provider).id, provider).value.Ordinal() <= t.Ordinal()
    ensures DistinctIds(provider) ==> ExchangeType.FromId(t.ToExchange(provider).id, provider) == Some(t)
  {
  }

  /** With distinct ids, `get_exchange_by_id` returns each exchange's own
      description from its id. */
  lemma GetExchangeByOwnId<Asset>(t: ExchangeType, provider: ExchangeType -> ExchangeProvider<Asset>)
    requires DistinctIds(provider)
    ensures GetExchangeById(t.ToExchange(provider).id, provider) == Some(t.ToExchange(provider))
  {
    FromIdOfOwnId(t, provider);
  }

  /** The parts of the application configuration the feature gate reads:
      the server's testing project id and the exchanges' allow-list. */
  datatype FeatureGate = FeatureGate(testingProjectId: Option<string>, allowedProjectIds: Option<seq<string>>)

  /** `is_feature_enabled_for_project_id`: the testing project is always
      admitted; otherwise the allow-list must exist and hold the project. */
  function IsFeatureEnabledForProjectId(gate: FeatureGate, projectId: string): (r: Result<(), ExchangeError>)
    ensures r.Success? <==>
      gate.testingProjectId == Some(projectId)
      || (gate.allowedProjectIds.Some? && projectId in gate.allowedProjectIds.value)
    ensures gate.testingProjectId != Some(projectId) && gate.allowedProjectIds.None? ==>
      r == Failure(FeatureNotEnabled("Feature is not enabled"))
    ensures (gate.testingProjectId != Some(projectId) && gate.allowedProjectIds.Some?
             && projectId !in gate.allowedProjectIds.value) ==>
      r == Failure(FeatureNotEnabled("Project is not allowed to use this feature"))
  {
    if gate.testingProjectId.Some? && gate.testingProjectId.value == projectId then Success(())
    else if gate.allowedProjectIds.None? then Failure(FeatureNotEnabled("Feature is not enabled"))
    else if projectId !in gate.allowedProjectIds.value then
      Failure(FeatureNotEnabled("Project is not allowed to use this feature"))
    else Success(())
  }
}
