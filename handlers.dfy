/**
 * The request handlers of handlers/handlers.go, without the HTTP plumbing: a
 * handler receives its path and query parameters as strings and ends in one
 * of two ways, writing the query's answer (status 200) or `http.Error` with a
 * reason: a rejected parameter (400, no query sent) or a failed query (500).
 * The answer is kept as a value; its JSON encoding is not modelled.
 */
module Handlers {
  import opened Wrappers
  import opened Types
  import opened Decimal
  import opened Paging
  import opened Upstream
  import CommonUtils
  import Graphql

  /** Why a handler called `http.Error`. */
  datatype Reason =
    | InvalidAssetId
    | IncorrectStartTime
    | IncorrectEndTime
    | InvalidParameters
    | InvalidBlockId(param: string)
    | QueryFailed(error: QueryError)

  /** What a handler did with its `http.ResponseWriter`. */
  datatype Response<T> = Written(body: T) | HttpError(reason: Reason)

  /** `http.StatusBadRequest` for every rejected parameter, `http.StatusInternalServerError` for a failed query. */
  function ErrorStatus(reason: Reason): (code: nat)
    ensures code == 400 || code == 500
    ensures code == 500 <==> reason.QueryFailed?
  {
    if reason.QueryFailed? then 500 else 400
  }

  /** The status code the client sees; `w.Write` without a status means 200. */
  function Status<T>(resp: Response<T>): (code: nat)
    ensures code == 200 <==> resp.Written?
    ensures code == 400 <==> resp.HttpError? && !resp.reason.QueryFailed?
    ensures code == 500 <==> resp.HttpError? && resp.reason.QueryFailed?
  {
    match resp
    case Written(_) => 200
    case HttpError(reason) => ErrorStatus(reason)
  }

  /** A time parameter: absent (empty) means the given sentinel, otherwise it must parse as a base-10 uint64. */
  function TimeParam(param: string, sentinel: uint64): Option<uint64> {
    if |param| == 0 then Some(sentinel) else ParseUint(param)
  }

  /**
   * The time-range checks of `AssetVolumeRequestHandler`: defaults, then a bad
   * start before a bad end, then an end before the start. On success the
   * range is the one the volume query receives.
   */
  function VolumeRange(startParam: string, endParam: string): (r: Result<(uint64, uint64), Reason>)
    ensures r == Failure(IncorrectStartTime) <==> |startParam| > 0 && ParseUint(startParam).None?
    ensures r == Failure(IncorrectEndTime) <==>
              TimeParam(startParam, MinUint).Some? && |endParam| > 0 && ParseUint(endParam).None?
    ensures r == Failure(InvalidParameters) <==>
              TimeParam(startParam, MinUint).Some? && TimeParam(endParam, MaxUint).Some?
              && TimeParam(endParam, MaxUint).value < TimeParam(startParam, MinUint).value
    ensures r.Failure? ==> r.error in {IncorrectStartTime, IncorrectEndTime, InvalidParameters}
    ensures r.Success? ==> r.value.0 <= r.value.1
    ensures r.Success? ==> (|startParam| == 0 ==> r.value.0 == MinUint)
                           && (|startParam| > 0 ==> ParseUint(startParam) == Some(r.value.0))
    ensures r.Success? ==> (|endParam| == 0 ==> r.value.1 == MaxUint)
                           && (|endParam| > 0 ==> ParseUint(endParam) == Some(r.value.1))
  {
    var startTime := TimeParam(startParam, MinUint);
    var endTime := TimeParam(endParam, MaxUint);
    if startTime.None? then Failure(IncorrectStartTime)
    else if endTime.None? then Failure(IncorrectEndTime)
    else if endTime.value < startTime.value then Failure(InvalidParameters)
    else Success((startTime.value, endTime.value))
  }

  /** Without parameters the whole history is asked for: no bound reaches the query. */
  lemma NoParametersMeansNoBounds(assetId: string)
    ensures VolumeRange("", "") == Success((MinUint, MaxUint))
    ensures Graphql.VolumeQuery(assetId, MinUint, MaxUint).dateGt.None?
    ensures Graphql.VolumeQuery(assetId, MinUint, MaxUint).dateLt.None?
  {
  }

  /** A range given as the numbers' own decimal text is accepted as given, an empty range included. */
  lemma {:induction false} FormattedRangeAccepted(startTime: uint64, endTime: uint64)
    requires startTime <= endTime
    ensures VolumeRange(FormatUint(startTime), FormatUint(endTime)) == Success((startTime, endTime))
  {
    ParseFormat(startTime);
    ParseFormat(endTime);
  }

  /** `AssetPoolsRequestHandler`. */
  method AssetPoolsRequestHandler(g: Subgraph, assetId: string)
    returns (resp: Response<seq<Pool>>, ghost queries: seq<Query>)
    ensures resp == HttpError(InvalidAssetId) <==> !CommonUtils.ValidAddress(assetId)
    ensures Status(resp) == 400 <==> !CommonUtils.ValidAddress(assetId)
    ensures Status(resp) == 400 <==> queries == []
    ensures Status(resp) == 500 <==> queries == [PoolsQuery(assetId)] && PoolsQuery(assetId) in g.unavailable
    ensures resp.HttpError? && resp.reason.QueryFailed? ==> resp.reason.error == UpstreamError(PoolsQuery(assetId))
    ensures resp.Written? ==> queries == [PoolsQuery(assetId)]
                              && resp.body == PoolsWithToken0(g.pools, assetId) + PoolsWithToken1(g.pools, assetId)
  {
    if !CommonUtils.ValidAddress(assetId) {
      return HttpError(InvalidAssetId), [];
    }
    var r;
    r, queries := Graphql.QueryAssetPools(g, assetId);
    if r.Failure? {
      resp := HttpError(QueryFailed(r.error));
    } else {
      resp := Written(r.value);
    }
  }

  /**
   * `AssetVolumeRequestHandler`. The volume loop runs only on a valid asset id
   * and a well-ordered range, and with exactly that range.
   */
  method AssetVolumeRequestHandler(g: Subgraph, assetId: string, startParam: string, endParam: string)
    returns (resp: Response<int>, ghost queries: seq<Query>)
    requires DatesDescending(TokenDays(g.dayDatas, assetId))
    ensures resp == HttpError(InvalidAssetId) <==> !CommonUtils.ValidAddress(assetId)
    ensures CommonUtils.ValidAddress(assetId) && VolumeRange(startParam, endParam).Failure? ==>
              resp == HttpError(VolumeRange(startParam, endParam).error)
    ensures Status(resp) == 400 <==> !CommonUtils.ValidAddress(assetId) || VolumeRange(startParam, endParam).Failure?
    ensures Status(resp) == 400 <==> queries == []
    ensures queries != [] ==>
              CommonUtils.ValidAddress(assetId) && VolumeRange(startParam, endParam).Success?
              && var (startTime, endTime) := VolumeRange(startParam, endParam).value;
                 queries[0] == Graphql.VolumeQuery(assetId, startTime, endTime)
                 && queries == Graphql.VolumeQueries(assetId, startTime, endTime,
                                                     Graphql.VolumeWindow(g, assetId, startTime, endTime), |queries|)
                 && (forall q :: q in queries[..|queries| - 1] ==> q !in g.unavailable)
                 && (resp.Written? ==>
                       |queries| == |Pages(Graphql.VolumeWindow(g, assetId, startTime, endTime), PageSize)|)
                 && (Status(resp) == 500 <==> queries[|queries| - 1] in g.unavailable)
                 && (resp.HttpError? && resp.reason.QueryFailed? ==>
                       resp.reason.error == UpstreamError(queries[|queries| - 1]))
                 && (resp.Written? ==>
                       resp.body == Graphql.TotalVolume(Graphql.VolumeWindow(g, assetId, startTime, endTime)))
  {
    if !CommonUtils.ValidAddress(assetId) {
      return HttpError(InvalidAssetId), [];
    }
    var range := VolumeRange(startParam, endParam);
    if range.Failure? {
      return HttpError(range.error), [];
    }
    var (startTimeUnix, endTimeUnix) := range.value;
    var r;
    ghost var pages;
    r, queries, pages := Graphql.QueryAssetVolume(g, assetId, startTimeUnix, endTimeUnix);
    Graphql.VolumeQueriesAt(assetId, startTimeUnix, endTimeUnix,
                            Graphql.VolumeWindow(g, assetId, startTimeUnix, endTimeUnix), |queries|);
    if r.Failure? {
      resp := HttpError(QueryFailed(r.error));
    } else {
      resp := Written(r.value);
    }
  }

  /** `BlockSwapsRequestHandler`. */
  method BlockSwapsRequestHandler(g: Subgraph, blockNumberParam: string)
    returns (resp: Response<seq<string>>, ghost queries: seq<Query>)
    requires ParseUint(blockNumberParam).Some? ==>
               IdsDescending(BlockTransactions(g.transactions, ParseUint(blockNumberParam).value))
    ensures resp == HttpError(InvalidBlockId(blockNumberParam)) <==> ParseUint(blockNumberParam).None?
    ensures Status(resp) == 400 <==> ParseUint(blockNumberParam).None?
    ensures Status(resp) == 400 <==> queries == []
    ensures queries != [] ==>
              ParseUint(blockNumberParam).Some?
              && var blockNumber := ParseUint(blockNumberParam).value;
                 queries[0] == Graphql.TxQuery(blockNumber, None, SwapIdFields)
                 && queries == Graphql.TxQueries(blockNumber, SwapIdFields, BlockTransactions(g.transactions, blockNumber), |queries|)
                 && (forall q :: q in queries[..|queries| - 1] ==> q !in g.unavailable)
                 && (resp.Written? ==> |queries| == |Pages(BlockTransactions(g.transactions, blockNumber), PageSize)|)
                 && (Status(resp) == 500 <==> queries[|queries| - 1] in g.unavailable)
                 && (resp.HttpError? && resp.reason.QueryFailed? ==>
                       resp.reason.error == UpstreamError(queries[|queries| - 1]))
                 && (resp.Written? ==> resp.body == Graphql.SwapIds(BlockTransactions(g.transactions, blockNumber)))
  {
    var blockNumber := ParseUint(blockNumberParam);
    if blockNumber.None? {
      return HttpError(InvalidBlockId(blockNumberParam)), [];
    }
    var r;
    ghost var pages;
    r, queries, pages := Graphql.QueryBlockSwaps(g, blockNumber.value);
    Graphql.TxQueriesAt(blockNumber.value, SwapIdFields, BlockTransactions(g.transactions, blockNumber.value), |queries|);
    if r.Failure? {
      resp := HttpError(QueryFailed(r.error));
    } else {
      resp := Written(r.value);
    }
  }

  /** `BlockSwappedAssetsRequestHandler`: the answer lists each swapped token once, in no particular order. */
  method BlockSwappedAssetsRequestHandler(g: Subgraph, blockNumberParam: string)
    returns (resp: Response<seq<string>>, ghost queries: seq<Query>)
    requires ParseUint(blockNumberParam).Some? ==>
               IdsDescending(BlockTransactions(g.transactions, ParseUint(blockNumberParam).value))
    ensures resp == HttpError(InvalidBlockId(blockNumberParam)) <==> ParseUint(blockNumberParam).None?
    ensures Status(resp) == 400 <==> ParseUint(blockNumberParam).None?
    ensures Status(resp) == 400 <==> queries == []
    ensures queries != [] ==>
              ParseUint(blockNumberParam).Some?
              && var blockNumber := ParseUint(blockNumberParam).value;
                 queries[0] == Graphql.TxQuery(blockNumber, None, SwapTokenFields)
                 && queries == Graphql.TxQueries(blockNumber, SwapTokenFields, BlockTransactions(g.transactions, blockNumber), |queries|)
                 && (forall q :: q in queries[..|queries| - 1] ==> q !in g.unavailable)
                 && (resp.Written? ==> |queries| == |Pages(BlockTransactions(g.transactions, blockNumber), PageSize)|)
                 && (Status(resp) == 500 <==> queries[|queries| - 1] in g.unavailable)
                 && (resp.HttpError? && resp.reason.QueryFailed? ==>
                       resp.reason.error == UpstreamError(queries[|queries| - 1]))
                 && (resp.Written? ==>
                       (forall a :: a in resp.body <==> a in Graphql.SwapTokens(BlockTransactions(g.transactions, blockNumber)))
                       && (forall p, q :: 0 <= p < q < |resp.body| ==> resp.body[p] != resp.body[q]))
  {
    var blockNumber := ParseUint(blockNumberParam);
    if blockNumber.None? {
      return HttpError(InvalidBlockId(blockNumberParam)), [];
    }
    var r;
    ghost var pages;
    r, queries, pages := Graphql.QueryBlockSwapsAssets(g, blockNumber.value);
    Graphql.TxQueriesAt(blockNumber.value, SwapTokenFields, BlockTransactions(g.transactions, blockNumber.value), |queries|);
    if r.Failure? {
      resp := HttpError(QueryFailed(r.error));
    } else {
      resp := Written(r.value);
    }
  }
}
