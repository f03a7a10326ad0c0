/**
 * The query functions of package graphql (graphql/graphql.go). Each paginated
 * query runs the same loop: fetch at most `PageSize` records sorted descending
 * by a key, fold the page into an accumulator, and when the page was full, move
 * an exclusive cursor to the key of its last record and fetch again; a short
 * page, empty or not, ends the loop. An upstream error ends the call at once and
 * the partial accumulator is dropped.
 *
 * Besides the Go result, each method returns the queries it issued and the
 * pages it received, as ghost values, so that its contract can speak of them.
 */
module Graphql {
  import opened Wrappers
  import opened Types
  import opened Paging
  import opened Upstream

  // ===== QueryAssetPools =====

  /** `append(allPools.PoolsWithToken0, allPools.PoolsWithToken1...)`. */
  function CombinePools(all: AllPools): (pools: seq<Pool>)
    ensures |pools| == |all.poolsWithToken0| + |all.poolsWithToken1|
    ensures pools[..|all.poolsWithToken0|] == all.poolsWithToken0
    ensures pools[|all.poolsWithToken0|..] == all.poolsWithToken1
  {
    all.poolsWithToken0 + all.poolsWithToken1
  }

  /**
   * `QueryAssetPools`: one query; the pools of an asset are those where it is
   * token0, then those where it is token1, each list in upstream order.
   */
  method QueryAssetPools(g: Subgraph, assetId: string) returns (r: Result<seq<Pool>, QueryError>, ghost queries: seq<Query>)
    ensures queries == [PoolsQuery(assetId)]
    ensures r.Failure? <==> PoolsQuery(assetId) in g.unavailable
    ensures r.Failure? ==> r.error == UpstreamError(PoolsQuery(assetId))
    ensures r.Success? ==>
      var p0, p1 := PoolsWithToken0(g.pools, assetId), PoolsWithToken1(g.pools, assetId);
      |r.value| == |p0| + |p1| && r.value[..|p0|] == p0 && r.value[|p0|..] == p1
  {
    queries := [PoolsQuery(assetId)];
    var allPools := RunPools(g, assetId);
    if allPools.Failure? {
      return Failure(allPools.error), queries;
    }
    r := Success(CombinePools(allPools.value));
  }

  // ===== QueryAssetVolume =====

  /**
   * The tokenDayDatas query of one round of the volume loop. A bound equal to
   * its sentinel is left out of the query, so neither sentinel is ever sent.
   */
  function VolumeQuery(assetId: string, startTimeUnix: uint64, endTimeUnix: uint64): (q: Query)
    ensures q.TokenDayDatasQuery? && q.first == PageSize && q.token == assetId
    ensures q.dateGt != Some(MinUint) && q.dateLt != Some(MaxUint)
    ensures q.dateGt.None? <==> startTimeUnix == MinUint
    ensures q.dateGt.Some? ==> q.dateGt.value == startTimeUnix
    ensures q.dateLt.None? <==> endTimeUnix == MaxUint
    ensures q.dateLt.Some? ==> q.dateLt.value == endTimeUnix
  {
    TokenDayDatasQuery(
      PageSize, assetId,
      if startTimeUnix != MinUint then Some(startTimeUnix) else None,
      if endTimeUnix != MaxUint then Some(endTimeUnix) else None)
  }

  /** The records the first query selects: every record the whole loop should fold. */
  function VolumeWindow(g: Subgraph, assetId: string, startTimeUnix: uint64, endTimeUnix: uint64): seq<TokenDayData> {
    var q := VolumeQuery(assetId, startTimeUnix, endTimeUnix);
    DaysInRange(TokenDays(g.dayDatas, assetId), q.dateGt, q.dateLt)
  }

  /** The sum of `volumeUSD`, added in arrival order. */
  function TotalVolume(days: seq<TokenDayData>): int {
    if days == [] then 0 else TotalVolume(days[..|days| - 1]) + days[|days| - 1].volumeUSD
  }

  lemma {:induction false} TotalVolumeAppend(a: seq<TokenDayData>, b: seq<TokenDayData>)
    ensures TotalVolume(a + b) == TotalVolume(a) + TotalVolume(b)
    decreases |b|
  {
    if b != [] {
      assert (a + b)[..|a + b| - 1] == a + b[..|b| - 1];
      assert (a + b)[|a + b| - 1] == b[|b| - 1];
      TotalVolumeAppend(a, b[..|b| - 1]);
    } else {
      assert a + b == a;
    }
  }

  /** The sum of the per-page sums. */
  function PageTotals(pages: seq<seq<TokenDayData>>): int {
    if pages == [] then 0 else TotalVolume(pages[0]) + PageTotals(pages[1..])
  }

  /** Adding one more page's sum to the running total. */
  lemma {:induction false} PageTotalsSnoc(pages: seq<seq<TokenDayData>>, page: seq<TokenDayData>)
    ensures PageTotals(pages + [page]) == PageTotals(pages) + TotalVolume(page)
    decreases |pages|
  {
    if pages != [] {
      assert (pages + [page])[1..] == pages[1..] + [page];
      PageTotalsSnoc(pages[1..], page);
    } else {
      assert (pages + [page])[1..] == [];
    }
  }

  /** Summing page by page gives the sum of the window, whatever the page size. */
  lemma {:induction false} TotalIndependentOfPaging(w: seq<TokenDayData>, size: nat)
    requires size > 0
    ensures PageTotals(Pages(w, size)) == TotalVolume(w)
    decreases |w|
  {
    if |w| >= size {
      TotalIndependentOfPaging(w[size..], size);
      TotalVolumeAppend(w[..size], w[size..]);
      assert w[..size] + w[size..] == w;
    }
  }

  /** The `date_lt` bound of the k-th round: the caller's end, then the date of the last record of the previous page. */
  function DayCursor(w: seq<TokenDayData>, endTimeUnix: uint64, k: nat): uint64 {
    if 0 < k && k * PageSize <= |w| then w[k * PageSize - 1].date else endTimeUnix
  }

  /** The queries of the first k rounds of the volume loop. */
  function VolumeQueries(assetId: string, startTimeUnix: uint64, endTimeUnix: uint64, w: seq<TokenDayData>, k: nat): seq<Query> {
    if k == 0 then []
    else VolumeQueries(assetId, startTimeUnix, endTimeUnix, w, k - 1)
         + [VolumeQuery(assetId, startTimeUnix, DayCursor(w, endTimeUnix, k - 1))]
  }

  lemma {:induction false} VolumeQueriesAt(assetId: string, startTimeUnix: uint64, endTimeUnix: uint64, w: seq<TokenDayData>, k: nat)
    ensures |VolumeQueries(assetId, startTimeUnix, endTimeUnix, w, k)| == k
    ensures forall j :: 0 <= j < k ==>
              VolumeQueries(assetId, startTimeUnix, endTimeUnix, w, k)[j]
              == VolumeQuery(assetId, startTimeUnix, DayCursor(w, endTimeUnix, j))
  {
    if k > 0 {
      VolumeQueriesAt(assetId, startTimeUnix, endTimeUnix, w, k - 1);
    }
  }

  /**
   * One round of the volume loop: the k-th query is answered with the k-th page
   * of the window; a full page is not the last one and its last date is the
   * next round's cursor; a short page is the last one.
   */
  lemma VolumeRound(g: Subgraph, assetId: string, startTimeUnix: uint64, endTimeUnix: uint64, k: nat)
    requires DatesDescending(TokenDays(g.dayDatas, assetId))
    requires k < |Pages(VolumeWindow(g, assetId, startTimeUnix, endTimeUnix), PageSize)|
    ensures var w := VolumeWindow(g, assetId, startTimeUnix, endTimeUnix);
            var q := VolumeQuery(assetId, startTimeUnix, DayCursor(w, endTimeUnix, k));
            RunTokenDayDatas(g, q).Success? ==>
              var page := RunTokenDayDatas(g, q).value;
              page == Pages(w, PageSize)[k]
              && (|page| == PageSize ==>
                    k + 1 < |Pages(w, PageSize)| && page[PageSize - 1].date == DayCursor(w, endTimeUnix, k + 1))
              && (|page| != PageSize ==> k + 1 == |Pages(w, PageSize)|)
  {
    var w := VolumeWindow(g, assetId, startTimeUnix, endTimeUnix);
    var q0 := VolumeQuery(assetId, startTimeUnix, endTimeUnix);
    PageAt(w, k);
    if k > 0 {
      var i := k * PageSize - 1;
      DaysInRangeDescending(TokenDays(g.dayDatas, assetId), q0.dateGt, q0.dateLt);
      assert w[i].date < w[0].date;
      DaysAfterCursor(TokenDays(g.dayDatas, assetId), q0.dateGt, q0.dateLt, i);
    }
    var page := Pages(w, PageSize)[k];
    if |page| == PageSize {
      assert page[PageSize - 1] == w[(k + 1) * PageSize - 1];
    }
  }

  /** From one round to the next, `date_gt` stays and `date_lt` is present and strictly lower. */
  predicate DateCursorMovesDown(prev: Query, next: Query) {
    prev.TokenDayDatasQuery? && next.TokenDayDatasQuery?
    && next.dateGt == prev.dateGt && next.dateLt.Some?
    && (prev.dateLt.Some? ==> next.dateLt.value < prev.dateLt.value)
  }

  /**
   * The cursor sequence of the volume loop: the first query carries the
   * caller's bounds; after a full page the next one keeps `date_gt` and sets
   * `date_lt` to the date of that page's last record, strictly below the
   * previous bound, so no query repeats.
   */
  lemma VolumeCursors(g: Subgraph, assetId: string, startTimeUnix: uint64, endTimeUnix: uint64)
    requires DatesDescending(TokenDays(g.dayDatas, assetId))
    ensures var w := VolumeWindow(g, assetId, startTimeUnix, endTimeUnix);
            var pages: seq<seq<TokenDayData>> := Pages(w, PageSize);
            var queries := VolumeQueries(assetId, startTimeUnix, endTimeUnix, w, |pages|);
            |queries| == |pages|
            && queries[0] == VolumeQuery(assetId, startTimeUnix, endTimeUnix)
            && (forall k :: 0 <= k < |pages| - 1 ==>
                  |pages[k]| == PageSize
                  && queries[k + 1] == VolumeQuery(assetId, startTimeUnix, pages[k][PageSize - 1].date)
                  && DateCursorMovesDown(queries[k], queries[k + 1]))
  {
    var w := VolumeWindow(g, assetId, startTimeUnix, endTimeUnix);
    var pages: seq<seq<TokenDayData>> := Pages(w, PageSize);
    var queries := VolumeQueries(assetId, startTimeUnix, endTimeUnix, w, |pages|);
    VolumeQueriesAt(assetId, startTimeUnix, endTimeUnix, w, |pages|);
    forall k | 0 <= k < |pages| - 1
      ensures |pages[k]| == PageSize
              && queries[k + 1] == VolumeQuery(assetId, startTimeUnix, pages[k][PageSize - 1].date)
              && DateCursorMovesDown(queries[k], queries[k + 1])
    {
      VolumeCursorStep(g, assetId, startTimeUnix, endTimeUnix, k);
    }
  }

  /** The step of VolumeCursors: a full page and the cursor it sets. */
  lemma VolumeCursorStep(g: Subgraph, assetId: string, startTimeUnix: uint64, endTimeUnix: uint64, k: nat)
    requires DatesDescending(TokenDays(g.dayDatas, assetId))
    requires k + 1 < |Pages(VolumeWindow(g, assetId, startTimeUnix, endTimeUnix), PageSize)|
    ensures var w := VolumeWindow(g, assetId, startTimeUnix, endTimeUnix);
            var page := Pages(w, PageSize)[k];
            |page| == PageSize && page[PageSize - 1].date == DayCursor(w, endTimeUnix, k + 1)
            && DateCursorMovesDown(VolumeQuery(assetId, startTimeUnix, DayCursor(w, endTimeUnix, k)),
                                   VolumeQuery(assetId, startTimeUnix, DayCursor(w, endTimeUnix, k + 1)))
  {
    var w := VolumeWindow(g, assetId, startTimeUnix, endTimeUnix);
    var q0 := VolumeQuery(assetId, startTimeUnix, endTimeUnix);
    DaysInRangeDescending(TokenDays(g.dayDatas, assetId), q0.dateGt, q0.dateLt);
    DaysInRangeMatch(TokenDays(g.dayDatas, assetId), q0.dateGt, q0.dateLt);
    PageAt(w, k);
    PageAt(w, k + 1);
    var c := (k + 1) * PageSize - 1;
    assert Pages(w, PageSize)[k][PageSize - 1] == w[c];
    assert w[c].date < w[0].date;
    assert k > 0 ==> w[c].date < w[k * PageSize - 1].date;
  }

  /** The inner loop of one round: `totalVolume += ...VolumeUSD` for each record of the page. */
  method AddVolumes(totalVolume: int, page: seq<TokenDayData>) returns (sum: int)
    ensures sum == totalVolume + TotalVolume(page)
  {
    sum := totalVolume;
    var i := 0;
    while i < |page|
      invariant 0 <= i <= |page|
      invariant sum == totalVolume + TotalVolume(page[..i])
    {
      assert page[..i + 1][..i] == page[..i];
      sum := sum + page[i].volumeUSD;
      i := i + 1;
    }
    assert page[..i] == page;
  }

  /**
   * `QueryAssetVolume`: the sum of `volumeUSD` over the token's day records
   * after `startTimeUnix` and before `endTimeUnix` (a sentinel meaning "no
   * bound"), fetched page by page with `date_lt` moved to the last date seen.
   * The queries issued are the loop's cursor sequence (see VolumeCursors); the
   * pages received are the pages of the window, every record folded once.
   */
  method QueryAssetVolume(g: Subgraph, assetId: string, startTimeUnix: uint64, endTimeUnix: uint64)
    returns (r: Result<int, QueryError>, ghost queries: seq<Query>, ghost pages: seq<seq<TokenDayData>>)
    requires DatesDescending(TokenDays(g.dayDatas, assetId))
    ensures 0 < |queries| <= |Pages(VolumeWindow(g, assetId, startTimeUnix, endTimeUnix), PageSize)|
    ensures queries == VolumeQueries(assetId, startTimeUnix, endTimeUnix,
                                     VolumeWindow(g, assetId, startTimeUnix, endTimeUnix), |queries|)
    ensures forall q :: q in queries[..|queries| - 1] ==> q !in g.unavailable
    ensures r.Failure? <==> queries[|queries| - 1] in g.unavailable
    ensures r.Failure? ==> r.error == UpstreamError(queries[|queries| - 1])
                           && pages == Pages(VolumeWindow(g, assetId, startTimeUnix, endTimeUnix), PageSize)[..|queries| - 1]
    ensures r.Success? ==> |queries| == |pages|
    ensures r.Success? ==> pages == Pages(VolumeWindow(g, assetId, startTimeUnix, endTimeUnix), PageSize)
    ensures r.Success? ==> r.value == TotalVolume(VolumeWindow(g, assetId, startTimeUnix, endTimeUnix))
    ensures r.Failure? ==> r.error.query.TokenDayDatasQuery? && r.error.query in g.unavailable
  {
    ghost var w := VolumeWindow(g, assetId, startTimeUnix, endTimeUnix);
    var totalVolume := 0;
    var endTime := endTimeUnix;
    queries, pages := [], [];
    while true
      invariant |pages| < |Pages(w, PageSize)| && pages == Pages(w, PageSize)[..|pages|]
      invariant endTime == DayCursor(w, endTimeUnix, |pages|)
      invariant totalVolume == PageTotals(pages)
      invariant queries == VolumeQueries(assetId, startTimeUnix, endTimeUnix, w, |pages|)
      invariant |queries| == |pages|
      invariant forall q :: q in queries ==> q !in g.unavailable
      decreases |Pages(w, PageSize)| - |pages|
    {
      ghost var k := |pages|;
      var q := VolumeQuery(assetId, startTimeUnix, endTime);
      var result := RunTokenDayDatas(g, q);
      queries := queries + [q];
      if result.Failure? {
        assert queries[..|queries| - 1] == VolumeQueries(assetId, startTimeUnix, endTimeUnix, w, k);
        r := Failure(result.error);
        return;
      }
      var page := result.value;
      VolumeRound(g, assetId, startTimeUnix, endTimeUnix, k);
      totalVolume := AddVolumes(totalVolume, page);
      PageTotalsSnoc(pages, page);
      NextPage(w, pages, page);
      pages := pages + [page];
      if |page| == PageSize {
        endTime := page[PageSize - 1].date;
      } else {
        break;
      }
    }
    TotalIndependentOfPaging(w, PageSize);
    r := Success(totalVolume);
  }

  // ===== the transactions loop shared by QueryBlockSwaps and QueryBlockSwapsAssets =====

  /**
   * The transactions query of one round: the block, then `id_lt` once a full
   * page has been seen. `fields` is the swap selection of the caller.
   */
  function TxQuery(blockNumber: uint64, idLt: Option<string>, fields: SwapFields): (q: Query)
    ensures q.TransactionsQuery? && q.first == PageSize && q.blockNumber == blockNumber
    ensures q.idLt == idLt && q.fields == fields
  {
    TransactionsQuery(PageSize, blockNumber, idLt, fields)
  }

  /** The `id_lt` bound of the k-th round: none, then the id of the last transaction of the previous page. */
  function TxCursor(txs: seq<Transaction>, k: nat): Option<string> {
    if 0 < k && k * PageSize <= |txs| then Some(txs[k * PageSize - 1].id) else None
  }

  /** The queries of the first k rounds of a transactions loop over the block's transactions `txs`. */
  function TxQueries(blockNumber: uint64, fields: SwapFields, txs: seq<Transaction>, k: nat): seq<Query> {
    if k == 0 then []
    else TxQueries(blockNumber, fields, txs, k - 1) + [TxQuery(blockNumber, TxCursor(txs, k - 1), fields)]
  }

  lemma {:induction false} TxQueriesAt(blockNumber: uint64, fields: SwapFields, txs: seq<Transaction>, k: nat)
    ensures |TxQueries(blockNumber, fields, txs, k)| == k
    ensures forall j :: 0 <= j < k ==>
              TxQueries(blockNumber, fields, txs, k)[j] == TxQuery(blockNumber, TxCursor(txs, j), fields)
  {
    if k > 0 {
      TxQueriesAt(blockNumber, fields, txs, k - 1);
    }
  }

  /**
   * One round of a transactions loop: the k-th query is answered with the
   * k-th page of the block's transactions; a full page is not the last one
   * and its last id is the next round's cursor; a short page is the last one.
   */
  lemma TxRound(g: Subgraph, blockNumber: uint64, fields: SwapFields, k: nat)
    requires IdsDescending(BlockTransactions(g.transactions, blockNumber))
    requires k < |Pages(BlockTransactions(g.transactions, blockNumber), PageSize)|
    ensures var txs := BlockTransactions(g.transactions, blockNumber);
            var q := TxQuery(blockNumber, TxCursor(txs, k), fields);
            RunTransactions(g, q).Success? ==>
              var page := RunTransactions(g, q).value;
              page == Pages(txs, PageSize)[k]
              && (|page| == PageSize ==>
                    k + 1 < |Pages(txs, PageSize)| && Some(page[PageSize - 1].id) == TxCursor(txs, k + 1))
              && (|page| != PageSize ==> k + 1 == |Pages(txs, PageSize)|)
  {
    var txs := BlockTransactions(g.transactions, blockNumber);
    PageAt(txs, k);
    if k == 0 {
      NoIdBoundKeepsAll(txs);
    } else {
      TransactionsAfterCursor(txs, k * PageSize - 1);
    }
    var page := Pages(txs, PageSize)[k];
    if |page| == PageSize {
      assert page[PageSize - 1] == txs[(k + 1) * PageSize - 1];
    }
  }

  /** From one round to the next, the block and the swap selection stay and `id_lt` is present and strictly lower. */
  predicate IdCursorMovesDown(prev: Query, next: Query) {
    prev.TransactionsQuery? && next.TransactionsQuery?
    && next.blockNumber == prev.blockNumber && next.fields == prev.fields && next.idLt.Some?
    && (prev.idLt.Some? ==> LexLess(next.idLt.value, prev.idLt.value))
  }

  /**
   * The cursor sequence of a transactions loop: the first query has no
   * `id_lt`; after a full page the next one carries the id of that page's last
   * transaction, strictly below the previous cursor, so no query repeats.
   */
  lemma TxCursors(g: Subgraph, blockNumber: uint64, fields: SwapFields)
    requires IdsDescending(BlockTransactions(g.transactions, blockNumber))
    ensures var txs := BlockTransactions(g.transactions, blockNumber);
            var pages: seq<seq<Transaction>> := Pages(txs, PageSize);
            var queries := TxQueries(blockNumber, fields, txs, |pages|);
            |queries| == |pages|
            && queries[0] == TxQuery(blockNumber, None, fields)
            && (forall k :: 0 <= k < |pages| - 1 ==>
                  |pages[k]| == PageSize
                  && queries[k + 1] == TxQuery(blockNumber, Some(pages[k][PageSize - 1].id), fields)
                  && IdCursorMovesDown(queries[k], queries[k + 1]))
  {
    var txs := BlockTransactions(g.transactions, blockNumber);
    var pages: seq<seq<Transaction>> := Pages(txs, PageSize);
    var queries := TxQueries(blockNumber, fields, txs, |pages|);
    TxQueriesAt(blockNumber, fields, txs, |pages|);
    forall k | 0 <= k < |pages| - 1
      ensures |pages[k]| == PageSize
              && queries[k + 1] == TxQuery(blockNumber, Some(pages[k][PageSize - 1].id), fields)
              && IdCursorMovesDown(queries[k], queries[k + 1])
    {
      TxCursorStep(g, blockNumber, fields, k);
    }
  }

  /** The step of TxCursors: a full page and the cursor it sets. */
  lemma TxCursorStep(g: Subgraph, blockNumber: uint64, fields: SwapFields, k: nat)
    requires IdsDescending(BlockTransactions(g.transactions, blockNumber))
    requires k + 1 < |Pages(BlockTransactions(g.transactions, blockNumber), PageSize)|
    ensures var txs := BlockTransactions(g.transactions, blockNumber);
            var page := Pages(txs, PageSize)[k];
            |page| == PageSize && Some(page[PageSize - 1].id) == TxCursor(txs, k + 1)
            && IdCursorMovesDown(TxQuery(blockNumber, TxCursor(txs, k), fields),
                                 TxQuery(blockNumber, TxCursor(txs, k + 1), fields))
  {
    var txs := BlockTransactions(g.transactions, blockNumber);
    PageAt(txs, k);
    PageAt(txs, k + 1);
    assert Pages(txs, PageSize)[k][PageSize - 1] == txs[(k + 1) * PageSize - 1];
    assert k > 0 ==> LexLess(txs[(k + 1) * PageSize - 1].id, txs[k * PageSize - 1].id);
  }

  // ===== QueryBlockSwaps =====

  /** The ids of one transaction's swaps, in order. */
  function TxSwapIds(tx: Transaction): (ids: seq<string>)
    ensures |ids| == |tx.swaps|
  {
    seq(|tx.swaps|, j requires 0 <= j < |tx.swaps| => tx.swaps[j].id)
  }

  /** The swap ids of a sequence of transactions: each transaction's swaps, transaction by transaction. */
  function SwapIds(txs: seq<Transaction>): seq<string> {
    if txs == [] then [] else SwapIds(txs[..|txs| - 1]) + TxSwapIds(txs[|txs| - 1])
  }

  /** The number of swaps in a sequence of transactions. */
  function SwapCount(txs: seq<Transaction>): nat {
    if txs == [] then 0 else SwapCount(txs[..|txs| - 1]) + |txs[|txs| - 1].swaps|
  }

  lemma {:induction false} SwapIdsAppend(a: seq<Transaction>, b: seq<Transaction>)
    ensures SwapIds(a + b) == SwapIds(a) + SwapIds(b)
    decreases |b|
  {
    if b == [] {
      assert a + b == a;
    } else {
      assert (a + b)[..|a + b| - 1] == a + b[..|b| - 1];
      SwapIdsAppend(a, b[..|b| - 1]);
    }
  }

  /** One id per swap: the answer lists every swap, none twice over and none left out. */
  lemma {:induction false} SwapIdsCount(txs: seq<Transaction>)
    ensures |SwapIds(txs)| == SwapCount(txs)
    decreases |txs|
  {
    if txs != [] {
      SwapIdsCount(txs[..|txs| - 1]);
    }
  }

  /** An id is listed exactly when some swap of some transaction has it. */
  lemma {:induction false} SwapIdsMembers(txs: seq<Transaction>, id: string)
    ensures id in SwapIds(txs) <==>
            exists i, j :: 0 <= i < |txs| && 0 <= j < |txs[i].swaps| && txs[i].swaps[j].id == id
    decreases |txs|
  {
    if txs != [] {
      var init, last := txs[..|txs| - 1], txs[|txs| - 1];
      SwapIdsMembers(init, id);
      if id in TxSwapIds(last) {
        var j :| 0 <= j < |TxSwapIds(last)| && TxSwapIds(last)[j] == id;
        assert txs[|txs| - 1].swaps[j].id == id;
      }
      if exists i, j :: 0 <= i < |txs| && 0 <= j < |txs[i].swaps| && txs[i].swaps[j].id == id {
        var i, j :| 0 <= i < |txs| && 0 <= j < |txs[i].swaps| && txs[i].swaps[j].id == id;
        if i < |init| {
          assert init[i].swaps[j].id == id;
        } else {
          assert TxSwapIds(last)[j] == id;
        }
      }
    }
  }

  /** The inner loops of one round: `allSwaps = append(allSwaps, tx.Swaps[j].Id)` for each swap of each transaction. */
  method AppendSwapIds(allSwaps: seq<string>, page: seq<Transaction>) returns (out: seq<string>)
    ensures out == allSwaps + SwapIds(page)
  {
    out := allSwaps;
    var i := 0;
    while i < |page|
      invariant 0 <= i <= |page|
      invariant out == allSwaps + SwapIds(page[..i])
    {
      var tx := page[i];
      ghost var before := out;
      var j := 0;
      while j < |tx.swaps|
        invariant 0 <= j <= |tx.swaps|
        invariant out == before + TxSwapIds(tx)[..j]
      {
        assert TxSwapIds(tx)[..j + 1] == TxSwapIds(tx)[..j] + [tx.swaps[j].id];
        out := out + [tx.swaps[j].id];
        j := j + 1;
      }
      assert TxSwapIds(tx)[..j] == TxSwapIds(tx);
      assert page[..i + 1][..i] == page[..i];
      i := i + 1;
    }
    assert page[..i] == page;
  }

  /**
   * `QueryBlockSwaps`: the ids of the swaps of every transaction of the block,
   * fetched page by page in descending id order with `id_lt` moved to the last
   * id seen. On success every transaction of the block is received once, in
   * order, and the answer lists its swaps in order (see SwapIdsCount and
   * SwapIdsMembers for what that list holds).
   */
  method QueryBlockSwaps(g: Subgraph, blockNumber: uint64)
    returns (r: Result<seq<string>, QueryError>, ghost queries: seq<Query>, ghost pages: seq<seq<Transaction>>)
    requires IdsDescending(BlockTransactions(g.transactions, blockNumber))
    ensures 0 < |queries| <= |Pages(BlockTransactions(g.transactions, blockNumber), PageSize)|
    ensures queries == TxQueries(blockNumber, SwapIdFields, BlockTransactions(g.transactions, blockNumber), |queries|)
    ensures forall q :: q in queries[..|queries| - 1] ==> q !in g.unavailable
    ensures r.Failure? <==> queries[|queries| - 1] in g.unavailable
    ensures r.Failure? ==> r.error == UpstreamError(queries[|queries| - 1])
                           && pages == Pages(BlockTransactions(g.transactions, blockNumber), PageSize)[..|queries| - 1]
    ensures r.Success? ==> |queries| == |pages|
    ensures r.Success? ==> pages == Pages(BlockTransactions(g.transactions, blockNumber), PageSize)
    ensures r.Success? ==> r.value == SwapIds(BlockTransactions(g.transactions, blockNumber))
    ensures r.Failure? ==> r.error.query.TransactionsQuery? && r.error.query in g.unavailable
  {
    ghost var txs := BlockTransactions(g.transactions, blockNumber);
    var lastTx: Option<string> := None;
    var allSwaps: seq<string> := [];
    queries, pages := [], [];
    while true
      invariant |pages| < |Pages(txs, PageSize)| && pages == Pages(txs, PageSize)[..|pages|]
      invariant lastTx == TxCursor(txs, |pages|)
      invariant allSwaps == SwapIds(Flatten(pages))
      invariant queries == TxQueries(blockNumber, SwapIdFields, txs, |pages|)
      invariant |queries| == |pages|
      invariant forall q :: q in queries ==> q !in g.unavailable
      decreases |Pages(txs, PageSize)| - |pages|
    {
      ghost var k := |pages|;
      var q := TxQuery(blockNumber, lastTx, SwapIdFields);
      var result := RunTransactions(g, q);
      queries := queries + [q];
      if result.Failure? {
        assert queries[..|queries| - 1] == TxQueries(blockNumber, SwapIdFields, txs, k);
        r := Failure(result.error);
        return;
      }
      var transactions := result.value;
      TxRound(g, blockNumber, SwapIdFields, k);
      allSwaps := AppendSwapIds(allSwaps, transactions);
      FlattenSnoc(pages, transactions);
      SwapIdsAppend(Flatten(pages), transactions);
      NextPage(txs, pages, transactions);
      pages := pages + [transactions];
      if |transactions| == PageSize {
        lastTx := Some(transactions[PageSize - 1].id);
      } else {
        break;
      }
    }
    FlattenPages(txs, PageSize);
    r := Success(allSwaps);
  }

  // ===== QueryBlockSwapsAssets =====

  /** The ids of the tokens on either side of a sequence of swaps. */
  function SwapsTokens(swaps: seq<Swap>): set<string> {
    if swaps == [] then {}
    else SwapsTokens(swaps[..|swaps| - 1]) + {swaps[|swaps| - 1].token0.id, swaps[|swaps| - 1].token1.id}
  }

  /** The ids of the tokens swapped in a sequence of transactions. */
  function SwapTokens(txs: seq<Transaction>): set<string> {
    if txs == [] then {} else SwapTokens(txs[..|txs| - 1]) + SwapsTokens(txs[|txs| - 1].swaps)
  }

  lemma {:induction false} SwapsTokensMembers(swaps: seq<Swap>, id: string)
    ensures id in SwapsTokens(swaps) <==>
            exists j :: 0 <= j < |swaps| && (swaps[j].token0.id == id || swaps[j].token1.id == id)
    decreases |swaps|
  {
    if swaps != [] {
      var init := swaps[..|swaps| - 1];
      SwapsTokensMembers(init, id);
      if exists j :: 0 <= j < |swaps| && (swaps[j].token0.id == id || swaps[j].token1.id == id) {
        var j :| 0 <= j < |swaps| && (swaps[j].token0.id == id || swaps[j].token1.id == id);
        if j < |init| {
          assert init[j] == swaps[j];
        }
      }
      if id in SwapsTokens(init) {
        var j :| 0 <= j < |init| && (init[j].token0.id == id || init[j].token1.id == id);
        assert swaps[j] == init[j];
      }
    }
  }

  /** An id is in the answer exactly when it is token0 or token1 of some swap of some transaction. */
  lemma {:induction false} SwapTokensMembers(txs: seq<Transaction>, id: string)
    ensures id in SwapTokens(txs) <==>
            exists i, j :: 0 <= i < |txs| && 0 <= j < |txs[i].swaps|
                           && (txs[i].swaps[j].token0.id == id || txs[i].swaps[j].token1.id == id)
    decreases |txs|
  {
    if txs != [] {
      var init, last := txs[..|txs| - 1], txs[|txs| - 1];
      SwapTokensMembers(init, id);
      SwapsTokensMembers(last.swaps, id);
      if exists i, j :: 0 <= i < |txs| && 0 <= j < |txs[i].swaps|
                        && (txs[i].swaps[j].token0.id == id || txs[i].swaps[j].token1.id == id) {
        var i, j :| 0 <= i < |txs| && 0 <= j < |txs[i].swaps|
                    && (txs[i].swaps[j].token0.id == id || txs[i].swaps[j].token1.id == id);
        if i < |init| {
          assert init[i] == txs[i];
        }
      }
      if id in SwapTokens(init) {
        var i, j :| 0 <= i < |init| && 0 <= j < |init[i].swaps|
                    && (init[i].swaps[j].token0.id == id || init[i].swaps[j].token1.id == id);
        assert txs[i] == init[i];
      }
    }
  }

  lemma {:induction false} SwapTokensAppend(a: seq<Transaction>, b: seq<Transaction>)
    ensures SwapTokens(a + b) == SwapTokens(a) + SwapTokens(b)
    decreases |b|
  {
    if b == [] {
      assert a + b == a;
    } else {
      assert (a + b)[..|a + b| - 1] == a + b[..|b| - 1];
      SwapTokensAppend(a, b[..|b| - 1]);
    }
  }

  /** Each swap names at most two tokens, so the answer has at most twice as many ids as there are swaps. */
  lemma {:induction false} SwapTokensBound(txs: seq<Transaction>)
    ensures |SwapTokens(txs)| <= 2 * SwapCount(txs)
    decreases |txs|
  {
    if txs != [] {
      SwapTokensBound(txs[..|txs| - 1]);
      SwapsTokensBound(txs[|txs| - 1].swaps);
    }
  }

  lemma {:induction false} SwapsTokensBound(swaps: seq<Swap>)
    ensures |SwapsTokens(swaps)| <= 2 * |swaps|
    decreases |swaps|
  {
    if swaps != [] {
      SwapsTokensBound(swaps[..|swaps| - 1]);
    }
  }

  /** Receiving one more page adds that page's tokens. */
  lemma PageTokens(pages: seq<seq<Transaction>>, page: seq<Transaction>)
    ensures SwapTokens(Flatten(pages + [page])) == SwapTokens(Flatten(pages)) + SwapTokens(page)
  {
    FlattenSnoc(pages, page);
    SwapTokensAppend(Flatten(pages), page);
  }

  /**
   * The inner loops of one round: `allAssets[tx.Swaps[j].Token0.Id] = true` and
   * the same for token1, for each swap of each transaction. Only the keys of
   * the map matter; every value is `true`.
   */
  method AddSwapTokens(allAssets: map<string, bool>, page: seq<Transaction>) returns (out: map<string, bool>)
    ensures out.Keys == allAssets.Keys + SwapTokens(page)
    ensures forall a :: a in SwapTokens(page) ==> out[a]
    ensures forall a :: a in allAssets && a !in SwapTokens(page) ==> out[a] == allAssets[a]
  {
    out := allAssets;
    var i := 0;
    while i < |page|
      invariant 0 <= i <= |page|
      invariant out.Keys == allAssets.Keys + SwapTokens(page[..i])
      invariant forall a :: a in SwapTokens(page[..i]) ==> out[a]
      invariant forall a :: a in allAssets && a !in SwapTokens(page[..i]) ==> out[a] == allAssets[a]
    {
      var tx := page[i];
      ghost var before := out;
      var j := 0;
      while j < |tx.swaps|
        invariant 0 <= j <= |tx.swaps|
        invariant out.Keys == before.Keys + SwapsTokens(tx.swaps[..j])
        invariant forall a :: a in SwapsTokens(tx.swaps[..j]) ==> out[a]
        invariant forall a :: a in before && a !in SwapsTokens(tx.swaps[..j]) ==> out[a] == before[a]
      {
        assert tx.swaps[..j + 1][..j] == tx.swaps[..j];
        out := out[tx.swaps[j].token0.id := true];
        out := out[tx.swaps[j].token1.id := true];
        j := j + 1;
      }
      assert tx.swaps[..j] == tx.swaps;
      assert page[..i + 1][..i] == page[..i];
      i := i + 1;
    }
    assert page[..i] == page;
  }

  /**
   * `make([]string, len(allAssets))` filled by `for k := range allAssets`: every
   * key once, in an order the map chooses (here: any order).
   */
  method MapKeys(allAssets: map<string, bool>) returns (keys: seq<string>)
    ensures |keys| == |allAssets.Keys|
    ensures forall a :: a in keys <==> a in allAssets.Keys
    ensures forall p, q :: 0 <= p < q < |keys| ==> keys[p] != keys[q]
  {
    assert |allAssets| == |allAssets.Keys|;
    var jsonAssets := new string[|allAssets|];
    var remaining := allAssets.Keys;
    var i := 0;
    while remaining != {}
      invariant 0 <= i <= jsonAssets.Length
      invariant i + |remaining| == jsonAssets.Length
      invariant remaining <= allAssets.Keys
      invariant forall p :: 0 <= p < i ==> jsonAssets[p] in allAssets && jsonAssets[p] !in remaining
      invariant forall a :: a in allAssets && a !in remaining ==> a in jsonAssets[..i]
      invariant forall p, q :: 0 <= p < q < i ==> jsonAssets[p] != jsonAssets[q]
      decreases |remaining|
    {
      var k :| k in remaining;
      ghost var filled := jsonAssets[..i];
      jsonAssets[i] := k;
      assert jsonAssets[..i + 1] == filled + [k];
      remaining := remaining - {k};
      i := i + 1;
    }
    keys := jsonAssets[..];
  }

  /**
   * `QueryBlockSwapsAssets`: the ids of the tokens on either side of the swaps
   * of every transaction of the block, each once, fetched with the same
   * transactions loop as QueryBlockSwaps.
   */
  method QueryBlockSwapsAssets(g: Subgraph, blockNumber: uint64)
    returns (r: Result<seq<string>, QueryError>, ghost queries: seq<Query>, ghost pages: seq<seq<Transaction>>)
    requires IdsDescending(BlockTransactions(g.transactions, blockNumber))
    ensures 0 < |queries| <= |Pages(BlockTransactions(g.transactions, blockNumber), PageSize)|
    ensures queries == TxQueries(blockNumber, SwapTokenFields, BlockTransactions(g.transactions, blockNumber), |queries|)
    ensures forall q :: q in queries[..|queries| - 1] ==> q !in g.unavailable
    ensures r.Failure? <==> queries[|queries| - 1] in g.unavailable
    ensures r.Failure? ==> r.error == UpstreamError(queries[|queries| - 1])
                           && pages == Pages(BlockTransactions(g.transactions, blockNumber), PageSize)[..|queries| - 1]
    ensures r.Success? ==> |queries| == |pages|
    ensures r.Success? ==> pages == Pages(BlockTransactions(g.transactions, blockNumber), PageSize)
    ensures r.Failure? ==> r.error.query.TransactionsQuery? && r.error.query in g.unavailable
    ensures r.Success? ==> |r.value| == |SwapTokens(BlockTransactions(g.transactions, blockNumber))|
                           && (forall a :: a in r.value <==> a in SwapTokens(BlockTransactions(g.transactions, blockNumber)))
                           && (forall p, q :: 0 <= p < q < |r.value| ==> r.value[p] != r.value[q])
  {
    ghost var txs := BlockTransactions(g.transactions, blockNumber);
    var lastTx: Option<string> := None;
    var allAssets: map<string, bool> := map[];
    queries, pages := [], [];
    while true
      invariant |pages| < |Pages(txs, PageSize)| && pages == Pages(txs, PageSize)[..|pages|]
      invariant lastTx == TxCursor(txs, |pages|)
      invariant allAssets.Keys == SwapTokens(Flatten(pages))
      invariant queries == TxQueries(blockNumber, SwapTokenFields, txs, |pages|)
      invariant |queries| == |pages|
      invariant forall q :: q in queries ==> q !in g.unavailable
      decreases |Pages(txs, PageSize)| - |pages|
    {
      ghost var k := |pages|;
      var q := TxQuery(blockNumber, lastTx, SwapTokenFields);
      var result := RunTransactions(g, q);
      queries := queries + [q];
      if result.Failure? {
        assert queries[..|queries| - 1] == TxQueries(blockNumber, SwapTokenFields, txs, k);
        r := Failure(result.error);
        return;
      }
      var transactions := result.value;
      TxRound(g, blockNumber, SwapTokenFields, k);
      allAssets := AddSwapTokens(allAssets, transactions);
      PageTokens(pages, transactions);
      NextPage(txs, pages, transactions);
      pages := pages + [transactions];
      if |transactions| == PageSize {
        lastTx := Some(transactions[PageSize - 1].id);
      } else {
        break;
      }
    }
    FlattenPages(txs, PageSize);
    var jsonAssets := MapKeys(allAssets);
    r := Success(jsonAssets);
  }
}
