/**
 * The upstream subgraph, as the query functions see it through
 * `graphqlClient.Run`: a pure oracle over a finite dataset. Queries are
 * structured values instead of query text. A query in `unavailable` fails (a
 * network error, an error status, an undecodable reply); any other query is
 * answered from the dataset. Each kind of record is stored in the order the
 * upstream sorts it (`orderBy: date` / `orderBy: id`, descending), so a
 * `first: n` query returns the first `n` matching records in stored order.
 */
module Upstream {
  import opened Wrappers
  import opened Types
  import opened Paging

  /** A pool entity with the ids of its two tokens. */
  datatype PoolRow = PoolRow(pool: Pool, token0: string, token1: string)

  /** A tokenDayData entity with the id of its token. */
  datatype DayRow = DayRow(token: string, day: TokenDayData)

  /** A transaction entity with the block it belongs to. */
  datatype TxRow = TxRow(blockNumber: uint64, tx: Transaction)

  /** Which fields of a transaction's swaps a query selects. */
  datatype SwapFields = SwapIdFields | SwapTokenFields

  /** The filters a query carries: the `where` clause and the `first` argument. */
  datatype Query =
    | PoolsQuery(assetId: string)
    | TokenDayDatasQuery(first: nat, token: string, dateGt: Option<uint64>, dateLt: Option<uint64>)
    | TransactionsQuery(first: nat, blockNumber: uint64, idLt: Option<string>, fields: SwapFields)

  /** The error `graphqlClient.Run` returns, naming the query that failed. */
  datatype QueryError = UpstreamError(query: Query)

  datatype Subgraph = Subgraph(
    pools: seq<PoolRow>,
    dayDatas: seq<DayRow>,
    transactions: seq<TxRow>,
    unavailable: set<Query>)

  // ----- ordering of transaction ids -----

  /** String order of ids, character by character (a proper prefix comes first). */
  predicate LexLess(a: string, b: string) {
    |b| > 0 && (|a| == 0 || a[0] < b[0] || (a[0] == b[0] && LexLess(a[1..], b[1..])))
  }

  lemma {:induction false} LexIrreflexive(a: string)
    ensures !LexLess(a, a)
  {
    if |a| > 0 {
      LexIrreflexive(a[1..]);
    }
  }

  lemma {:induction false} LexAsymmetric(a: string, b: string)
    requires LexLess(a, b)
    ensures !LexLess(b, a)
  {
    if |a| > 0 && a[0] == b[0] {
      LexAsymmetric(a[1..], b[1..]);
    }
  }

  lemma {:induction false} LexTransitive(a: string, b: string, c: string)
    requires LexLess(a, b) && LexLess(b, c)
    ensures LexLess(a, c)
  {
    if |a| > 0 && a[0] == b[0] && b[0] == c[0] {
      LexTransitive(a[1..], b[1..], c[1..]);
    }
  }

  /** Two distinct ids are always ordered one way or the other. */
  lemma {:induction false} LexTotal(a: string, b: string)
    requires a != b
    ensures LexLess(a, b) || LexLess(b, a)
  {
    if |a| > 0 && |b| > 0 && a[0] == b[0] {
      assert a == [a[0]] + a[1..] && b == [b[0]] + b[1..];
      LexTotal(a[1..], b[1..]);
    }
  }

  // ----- tokenDayDatas -----

  /** The day records of one token, in stored order. */
  function TokenDays(rows: seq<DayRow>, token: string): seq<TokenDayData> {
    if rows == [] then []
    else (if rows[0].token == token then [rows[0].day] else []) + TokenDays(rows[1..], token)
  }

  /** `date_gt` and `date_lt`, each applied only when present. */
  predicate InDateRange(date: uint64, dateGt: Option<uint64>, dateLt: Option<uint64>) {
    (dateGt.None? || dateGt.value < date) && (dateLt.None? || date < dateLt.value)
  }

  function DaysInRange(days: seq<TokenDayData>, dateGt: Option<uint64>, dateLt: Option<uint64>): seq<TokenDayData> {
    if days == [] then []
    else (if InDateRange(days[0].date, dateGt, dateLt) then [days[0]] else [])
         + DaysInRange(days[1..], dateGt, dateLt)
  }

  /** Strictly descending dates: the upstream sort order, one record per day. */
  ghost predicate DatesDescending(days: seq<TokenDayData>) {
    forall i, j :: 0 <= i < j < |days| ==> days[j].date < days[i].date
  }

  // ----- transactions -----

  /** The transactions of one block, in stored order. */
  function BlockTransactions(rows: seq<TxRow>, blockNumber: uint64): seq<Transaction> {
    if rows == [] then []
    else (if rows[0].blockNumber == blockNumber then [rows[0].tx] else [])
         + BlockTransactions(rows[1..], blockNumber)
  }

  predicate IdBelow(id: string, idLt: Option<string>) {
    idLt.None? || LexLess(id, idLt.value)
  }

  function IdsBelow(txs: seq<Transaction>, idLt: Option<string>): seq<Transaction> {
    if txs == [] then []
    else (if IdBelow(txs[0].id, idLt) then [txs[0]] else []) + IdsBelow(txs[1..], idLt)
  }

  /** Strictly descending ids: the upstream sort order; ids are unique. */
  ghost predicate IdsDescending(txs: seq<Transaction>) {
    forall i, j :: 0 <= i < j < |txs| ==> LexLess(txs[j].id, txs[i].id)
  }

  /** Each id sorts below the one stored before it. */
  ghost predicate NeighboursDescending(txs: seq<Transaction>) {
    forall i :: 0 < i < |txs| ==> LexLess(txs[i].id, txs[i - 1].id)
  }

  lemma {:induction false} NeighboursChain(txs: seq<Transaction>, i: nat, j: nat)
    requires NeighboursDescending(txs)
    requires i < j < |txs|
    ensures LexLess(txs[j].id, txs[i].id)
    decreases j - i
  {
    if i + 1 < j {
      NeighboursChain(txs, i + 1, j);
      LexTransitive(txs[j].id, txs[i + 1].id, txs[i].id);
    }
  }

  /**
   * The id order is a strict total order, so a descending sort is fixed by
   * its neighbours: it suffices that each id sorts below its predecessor, and
   * distinct ids of which no neighbour pair ascends are already sorted.
   */
  lemma {:induction false} IdsDescendingByNeighbours(txs: seq<Transaction>)
    ensures IdsDescending(txs) <==> NeighboursDescending(txs)
    ensures (forall i, j :: 0 <= i < j < |txs| ==> txs[i].id != txs[j].id)
            && (forall i :: 0 < i < |txs| ==> !LexLess(txs[i - 1].id, txs[i].id))
            ==> IdsDescending(txs)
  {
    if (forall i, j :: 0 <= i < j < |txs| ==> txs[i].id != txs[j].id)
       && (forall i :: 0 < i < |txs| ==> !LexLess(txs[i - 1].id, txs[i].id)) {
      forall i | 0 < i < |txs|
        ensures LexLess(txs[i].id, txs[i - 1].id)
      {
        LexTotal(txs[i - 1].id, txs[i].id);
      }
    }
    if NeighboursDescending(txs) {
      forall i, j | 0 <= i < j < |txs|
        ensures LexLess(txs[j].id, txs[i].id)
      {
        NeighboursChain(txs, i, j);
      }
    }
  }

  // ----- the oracle -----

  function PoolsWithToken0(rows: seq<PoolRow>, assetId: string): seq<Pool> {
    if rows == [] then []
    else (if rows[0].token0 == assetId then [rows[0].pool] else []) + PoolsWithToken0(rows[1..], assetId)
  }

  function PoolsWithToken1(rows: seq<PoolRow>, assetId: string): seq<Pool> {
    if rows == [] then []
    else (if rows[0].token1 == assetId then [rows[0].pool] else []) + PoolsWithToken1(rows[1..], assetId)
  }

  /** The answer to the two-alias pools query. */
  function RunPools(g: Subgraph, assetId: string): (r: Result<AllPools, QueryError>)
    ensures r.Failure? <==> PoolsQuery(assetId) in g.unavailable
    ensures r.Failure? ==> r.error == UpstreamError(PoolsQuery(assetId))
  {
    if PoolsQuery(assetId) in g.unavailable then Failure(UpstreamError(PoolsQuery(assetId)))
    else Success(AllPools(PoolsWithToken0(g.pools, assetId), PoolsWithToken1(g.pools, assetId)))
  }

  /** The answer to a tokenDayDatas query: at most `first` records, the first that match. */
  function RunTokenDayDatas(g: Subgraph, q: Query): (r: Result<seq<TokenDayData>, QueryError>)
    requires q.TokenDayDatasQuery?
    ensures r.Failure? <==> q in g.unavailable
    ensures r.Failure? ==> r.error == UpstreamError(q)
    ensures r.Success? ==> |r.value| <= q.first
                           && r.value <= DaysInRange(TokenDays(g.dayDatas, q.token), q.dateGt, q.dateLt)
  {
    if q in g.unavailable then Failure(UpstreamError(q))
    else Success(Take(DaysInRange(TokenDays(g.dayDatas, q.token), q.dateGt, q.dateLt), q.first))
  }

  /** The answer to a transactions query: at most `first` transactions of the block, the first that match. */
  function RunTransactions(g: Subgraph, q: Query): (r: Result<seq<Transaction>, QueryError>)
    requires q.TransactionsQuery?
    ensures r.Failure? <==> q in g.unavailable
    ensures r.Failure? ==> r.error == UpstreamError(q)
    ensures r.Success? ==> |r.value| <= q.first
                           && r.value <= IdsBelow(BlockTransactions(g.transactions, q.blockNumber), q.idLt)
  {
    if q in g.unavailable then Failure(UpstreamError(q))
    else Success(Take(IdsBelow(BlockTransactions(g.transactions, q.blockNumber), q.idLt), q.first))
  }

  // ----- cursor lemmas -----

  /** A date filter keeps records that satisfy it, and only records of its input. */
  lemma {:induction false} DaysInRangeBelow(days: seq<TokenDayData>, dateGt: Option<uint64>, dateLt: Option<uint64>, c: int)
    requires forall j :: 0 <= j < |days| ==> days[j].date < c
    ensures forall k :: 0 <= k < |DaysInRange(days, dateGt, dateLt)| ==> DaysInRange(days, dateGt, dateLt)[k].date < c
  {
    if days != [] {
      DaysInRangeBelow(days[1..], dateGt, dateLt, c);
    }
  }

  lemma {:induction false} DaysInRangeMatch(days: seq<TokenDayData>, dateGt: Option<uint64>, dateLt: Option<uint64>)
    ensures forall k :: 0 <= k < |DaysInRange(days, dateGt, dateLt)| ==> InDateRange(DaysInRange(days, dateGt, dateLt)[k].date, dateGt, dateLt)
  {
    if days != [] {
      DaysInRangeMatch(days[1..], dateGt, dateLt);
    }
  }

  /** Every record after the first has an earlier date. */
  lemma TailBelowHead(days: seq<TokenDayData>)
    requires DatesDescending(days) && days != []
    ensures DatesDescending(days[1..])
    ensures forall j :: 0 <= j < |days[1..]| ==> days[1..][j].date < days[0].date
  {
    forall j | 0 <= j < |days[1..]| ensures days[1..][j].date < days[0].date {
      assert days[1..][j] == days[j + 1];
    }
  }

  /** Filtering keeps the upstream's descending order. */
  lemma {:induction false} DaysInRangeDescending(days: seq<TokenDayData>, dateGt: Option<uint64>, dateLt: Option<uint64>)
    requires DatesDescending(days)
    ensures DatesDescending(DaysInRange(days, dateGt, dateLt))
  {
    if days != [] {
      TailBelowHead(days);
      DaysInRangeDescending(days[1..], dateGt, dateLt);
      DaysInRangeBelow(days[1..], dateGt, dateLt, days[0].date);
    }
  }

  /** Replacing the upper bound by one above every record and below the old bound changes nothing. */
  lemma {:induction false} DaysBelowBound(days: seq<TokenDayData>, dateGt: Option<uint64>, dateLt: Option<uint64>, c: uint64)
    requires forall j :: 0 <= j < |days| ==> days[j].date < c
    requires dateLt.None? || c <= dateLt.value
    ensures DaysInRange(days, dateGt, Some(c)) == DaysInRange(days, dateGt, dateLt)
  {
    if days != [] {
      DaysBelowBound(days[1..], dateGt, dateLt, c);
    }
  }

  /**
   * The exclusive date cursor: bounding a query above by the date of the i-th
   * record of a window gives exactly the records after it. Nothing is fetched
   * twice and nothing is skipped.
   */
  lemma {:induction false} DaysAfterCursor(days: seq<TokenDayData>, dateGt: Option<uint64>, dateLt: Option<uint64>, i: nat)
    requires DatesDescending(days)
    requires i < |DaysInRange(days, dateGt, dateLt)|
    ensures DaysInRange(days, dateGt, Some(DaysInRange(days, dateGt, dateLt)[i].date))
            == DaysInRange(days, dateGt, dateLt)[i + 1..]
  {
    var w := DaysInRange(days, dateGt, dateLt);
    var c := w[i].date;
    var t, rest := days[0], days[1..];
    var w' := DaysInRange(rest, dateGt, dateLt);
    TailBelowHead(days);
    DaysInRangeBelow(rest, dateGt, dateLt, t.date);
    if InDateRange(t.date, dateGt, dateLt) {
      assert w == [t] + w';
      if i == 0 {
        DaysBelowBound(rest, dateGt, dateLt, c);
      } else {
        assert w[i] == w'[i - 1];
        DaysAfterCursor(rest, dateGt, dateLt, i - 1);
      }
    } else {
      assert w == w';
      DaysAfterCursor(rest, dateGt, dateLt, i);
    }
  }

  /** Without a bound every transaction is kept. */
  lemma {:induction false} NoIdBoundKeepsAll(txs: seq<Transaction>)
    ensures IdsBelow(txs, None) == txs
  {
    if txs != [] {
      NoIdBoundKeepsAll(txs[1..]);
      assert txs == [txs[0]] + txs[1..];
    }
  }

  lemma {:induction false} IdsBelowBound(txs: seq<Transaction>, c: string)
    requires forall j :: 0 <= j < |txs| ==> LexLess(txs[j].id, c)
    ensures IdsBelow(txs, Some(c)) == txs
  {
    if txs != [] {
      IdsBelowBound(txs[1..], c);
      assert txs == [txs[0]] + txs[1..];
    }
  }

  /**
   * The exclusive id cursor: bounding a query by the id of the i-th transaction
   * gives exactly the transactions after it.
   */
  lemma {:induction false} TransactionsAfterCursor(txs: seq<Transaction>, i: nat)
    requires IdsDescending(txs)
    requires i < |txs|
    ensures IdsBelow(txs, Some(txs[i].id)) == txs[i + 1..]
  {
    var t, rest := txs[0], txs[1..];
    assert IdsDescending(rest);
    if i == 0 {
      LexIrreflexive(t.id);
      IdsBelowBound(rest, t.id);
    } else {
      assert txs[i] == rest[i - 1];
      LexAsymmetric(txs[i].id, t.id);
      TransactionsAfterCursor(rest, i - 1);
    }
  }
}
