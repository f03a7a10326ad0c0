/**
 * The query functions of package main (graphql.go): `queryAssetPools` and
 * `queryAssetVolume` are copies of the package graphql functions that build
 * their own client and fix the page size with a local constant instead of the
 * configured one. With that constant equal to PageSize they issue the same
 * queries and compute the same results, so they are stated through Graphql.
 */
module MainGraphql {
  import opened Wrappers
  import opened Types
  import opened Paging
  import opened Upstream
  import Graphql

  /** `const resultsPerPage = 100` in `queryAssetVolume`. */
  const ResultsPerPage: nat := 100

  /** `queryAssetPools`: the token0 pools followed by the token1 pools, from one query. */
  method QueryAssetPools(g: Subgraph, assetId: string) returns (r: Result<seq<Pool>, QueryError>, ghost queries: seq<Query>)
    ensures queries == [PoolsQuery(assetId)]
    ensures r.Failure? <==> PoolsQuery(assetId) in g.unavailable
    ensures r.Failure? ==> r.error == UpstreamError(PoolsQuery(assetId))
    ensures r.Success? ==>
      var p0, p1 := PoolsWithToken0(g.pools, assetId), PoolsWithToken1(g.pools, assetId);
      |r.value| == |p0| + |p1| && r.value[..|p0|] == p0 && r.value[|p0|..] == p1
  {
    r, queries := Graphql.QueryAssetPools(g, assetId);
  }

  /**
   * `queryAssetVolume`: pages of `ResultsPerPage` records, `date_lt` moved to
   * the 100th date of each full page; the sum of `volumeUSD` over the window.
   */
  method QueryAssetVolume(g: Subgraph, assetId: string, startTimeUnix: uint64, endTimeUnix: uint64)
    returns (r: Result<int, QueryError>, ghost queries: seq<Query>, ghost pages: seq<seq<TokenDayData>>)
    requires DatesDescending(TokenDays(g.dayDatas, assetId))
    ensures forall q :: q in queries ==> q.TokenDayDatasQuery? && q.first == ResultsPerPage
    ensures 0 < |queries| && queries[0] == Graphql.VolumeQuery(assetId, startTimeUnix, endTimeUnix)
    ensures queries == Graphql.VolumeQueries(assetId, startTimeUnix, endTimeUnix,
                                             Graphql.VolumeWindow(g, assetId, startTimeUnix, endTimeUnix), |queries|)
    ensures forall q :: q in queries[..|queries| - 1] ==> q !in g.unavailable
    ensures r.Failure? <==> queries[|queries| - 1] in g.unavailable
    ensures r.Failure? ==> r.error == UpstreamError(queries[|queries| - 1])
    ensures |queries| == |pages| + (if r.Failure? then 1 else 0)
    ensures forall k :: 0 <= k < |pages| && (k < |pages| - 1 || r.Failure?) ==> |pages[k]| == ResultsPerPage
    ensures r.Success? ==> |pages[|pages| - 1]| < ResultsPerPage
    ensures forall k :: 0 <= k < |queries| - 1 ==>
              queries[k + 1] == Graphql.VolumeQuery(assetId, startTimeUnix, pages[k][ResultsPerPage - 1].date)
    ensures |queries| <= |Pages(Graphql.VolumeWindow(g, assetId, startTimeUnix, endTimeUnix), ResultsPerPage)|
    ensures r.Failure? ==> pages == Pages(Graphql.VolumeWindow(g, assetId, startTimeUnix, endTimeUnix), ResultsPerPage)[..|queries| - 1]
    ensures r.Success? ==> pages == Pages(Graphql.VolumeWindow(g, assetId, startTimeUnix, endTimeUnix), ResultsPerPage)
    ensures r.Success? ==> r.value == Graphql.TotalVolume(Graphql.VolumeWindow(g, assetId, startTimeUnix, endTimeUnix))
    ensures r.Failure? ==> r.error.query.TokenDayDatasQuery? && r.error.query.first == ResultsPerPage
                           && r.error.query in g.unavailable
  {
    r, queries, pages := Graphql.QueryAssetVolume(g, assetId, startTimeUnix, endTimeUnix);
    ghost var w := Graphql.VolumeWindow(g, assetId, startTimeUnix, endTimeUnix);
    Graphql.VolumeQueriesAt(assetId, startTimeUnix, endTimeUnix, w, |queries|);
    PagesShape(w, PageSize);
    forall k | 0 <= k < |queries| - 1
      ensures |pages[k]| == ResultsPerPage
      ensures queries[k + 1] == Graphql.VolumeQuery(assetId, startTimeUnix, pages[k][ResultsPerPage - 1].date)
    {
      Graphql.VolumeCursorStep(g, assetId, startTimeUnix, endTimeUnix, k);
    }
  }
}
