# uni-rest-api, modelled in Dafny

uni-rest-api is a small REST service over the Uniswap v3 subgraph. It has four endpoints:

- the pools of an asset;
- the USD volume of an asset over a time range;
- the swaps of a block;
- the assets swapped in a block.

Each endpoint validates its parameters and then runs one query function. Three of the query functions page through the subgraph with an exclusive cursor. They fetch at most 100 records sorted descending by a key (`date` or transaction `id`) and fold the page into an accumulator. When the page was full, they bound the next query with `_lt` set to the key of the page's last record and fetch again. A short page, even an empty one, ends the loop.

This project models:

- the query functions of package `graphql` and their older copies in package `main`;
- the address and hash validators, in both packages;
- the decision logic of the four handlers.

It proves what these functions compute, which queries they send, and how they answer.

## How the model is organised

| module | file | models |
|---|---|---|
| `Wrappers` | wrappers.dfy | `Option` and `Result` |
| `Types` | types.dfy | the records of common/types.go, `uint64`, `MinUint`, `MaxUint` |
| `HexPattern` | hex_pattern.dfy | the shape of the two regular expressions |
| `CommonUtils`, `AddressTable` | common_utils.dfy | `ValidAddress` and `ValidHash` of common/utils.go, plus the address table of main_test.go |
| `MainUtils` | main_utils.dfy | `validAddress` and `validHash` of utils.go |
| `Decimal` | decimal.dfy | base-10 `uint64` text, as `strconv.ParseUint` accepts it and `strconv.FormatUint` writes it |
| `Paging` | paging.dfy | the page size and how a result window splits into pages |
| `Upstream` | upstream.dfy | the subgraph as a pure oracle, with its sort orders and filters |
| `Graphql` | graphql.dfy | the four query functions of graphql/graphql.go |
| `MainGraphql` | main_graphql.dfy | `queryAssetPools` and `queryAssetVolume` of graphql.go |
| `Handlers` | handlers.dfy | the four handlers of handlers/handlers.go |

The subgraph is a value `Subgraph` with four parts:

- its pool rows;
- its day rows, in the subgraph's sort order;
- its transaction rows, in the subgraph's sort order;
- the set of queries it fails to answer, which is how an upstream error is modelled.

A query is a structured value, `Query`. It carries `first`, the token or block, and the optional `date_gt`, `date_lt` and `id_lt` bounds that the Go code writes into the query text. A query the subgraph answers returns the first `first` records that pass every present bound.

Each loop is an imperative method with a `while` loop. The loop invariants tie its state to specification functions:

- `Pages(w, PageSize)` is the window `w` cut into full pages followed by one short page.
- `VolumeQueries` and `TxQueries` are the cursor sequences.
- `TotalVolume`, `SwapIds` and `SwapTokens` are the folds.

Each loop method also returns two ghost values, the queries it sent and the pages it received, so that its contract can speak of the whole run. The proofs rely on two upstream facts: a token's day records have strictly descending dates, and a block's transactions have strictly descending ids. Under these facts the exclusive cursor skips nothing and fetches nothing twice (`DaysAfterCursor`, `TransactionsAfterCursor`), so the k-th fetch returns exactly the k-th page of the window.

## Model

| member | source | states |
|---|---|---|
| HexPattern.Anchored | common/utils.go:6 | a string matches `^prefix[hex]{n}$` iff its length is the prefix's plus n, it starts with the prefix, and every later character is in `[a-fA-F0-9]` |
| CommonUtils.ValidAddress | common/utils.go:5-8 | true iff the length is 42, the first two characters are `0`, `x`, and characters 2..41 are hex digits of either case |
| CommonUtils.ValidHash | common/utils.go:10-13 | true iff the length is 66, the first two characters are `0`, `x`, and characters 2..65 are hex digits |
| CommonUtils.AddressIsNeverHash | common/utils.go:6-11 | no string is both a valid address and a valid hash |
| CommonUtils.NonHexRejected | common/utils.go:6-11 | one non-hex character after the prefix rejects both forms |
| CommonUtils.UpperCasePrefixRejected | common/utils.go:6-11 | an upper-case `0X` prefix is rejected by both validators |
| CommonUtils.NothingMayFollow | common/utils.go:6-11 | `$` anchors at end of text: if `s` is valid, `s` plus any one character (a newline included) is not |
| CommonUtils.DigitCaseIrrelevant | common/utils.go:6-11 | changing the case of letter digits after the prefix never changes either verdict |
| AddressTable.LowerHexAddress | common/utils.go:6 | `0x` followed by 40 characters from `[0-9a-f]` is a valid address |
| AddressTable.AcceptsFirstPoolAddress | main_test.go:17 | the first pool address of the table is accepted |
| AddressTable.AcceptsSecondPoolAddress | main_test.go:18 | the second pool address of the table is accepted |
| AddressTable.AcceptsZeroAddress | main_test.go:19 | the all-zero address is accepted |
| AddressTable.RejectsWrongLength | main_test.go:20-28 | the table rows of length 43, 41, 40 and 0 are rejected |
| AddressTable.RejectsWrongPrefix | main_test.go:22-26 | the 42-character rows starting `x0`, `1x` and `00` are rejected |
| MainUtils.ValidAddress | utils.go:5-8 | `validAddress` gives the same verdict as `common.ValidAddress` on every string |
| MainUtils.ValidHash | utils.go:10-13 | `validHash` gives the same verdict as `common.ValidHash` on every string |
| Decimal.FormatUint | graphql/graphql.go:40-44 | the rendering is a non-empty digit string, with no leading zero unless the number is 0 |
| Decimal.ParseFormat | handlers/handlers.go:58-68 | parsing the rendering of any `uint64` gives the number back, so every number given as its own decimal text is accepted |
| Decimal.ParseUintRejectsForms | handlers/handlers.go:61 | the empty string, `+1`, `-1` and `1_000` do not parse |
| Decimal.ParseUintRejectsOverflow | handlers/handlers.go:61 | a 20-digit string with leading digit 2 or more does not parse, because it exceeds 2^64-1 |
| Paging.Take | graphql/graphql.go:48 | `first: n` returns min(n, available) records, and they are a prefix of the matches |
| Paging.FlattenPages | graphql/graphql.go:64-72 | concatenating the pages of a window in arrival order gives the window back, for every page size |
| Paging.PagesShape | graphql/graphql.go:68-72 | every page but the last is full and the last is short (possibly empty); the page count c satisfies (c-1)*size <= \|w\| < c*size |
| Paging.FetchCount | graphql/graphql.go:68-72 | a window of \|w\| records takes \|w\| / 100 + 1 fetches |
| Paging.PageAt | graphql/graphql.go:68-72 | page k is the first 100 records from position 100k on, and it is full iff it is not the last page |
| Paging.TwoFullPagesThenShort | graphql/graphql.go:68-72 | 237 records come as pages of 100, 100 and 37, in three fetches |
| Upstream.RunPools | graphql/graphql.go:16-28 | the pools query fails iff the subgraph fails it, with that query as the error |
| Upstream.RunTokenDayDatas | graphql/graphql.go:47-62 | a tokenDayDatas query fails iff the subgraph fails it; otherwise it returns at most `first` records, a prefix of those in range |
| Upstream.RunTransactions | graphql/graphql.go:84-100 | a transactions query fails iff the subgraph fails it; otherwise it returns at most `first` transactions of the block, a prefix of those below `id_lt` |
| Upstream.LexIrreflexive | graphql/graphql.go:85 | no id sorts below itself |
| Upstream.LexAsymmetric | graphql/graphql.go:85 | two ids never sort below each other |
| Upstream.LexTransitive | graphql/graphql.go:85 | the id order is transitive |
| Upstream.LexTotal | graphql/graphql.go:85 | two distinct ids are always ordered |
| Upstream.IdsDescendingByNeighbours | graphql/graphql.go:85 | the descending id sort holds iff each id sorts below its predecessor; distinct ids with no ascending neighbour pair are already sorted |
| Upstream.DaysInRangeBelow | graphql/graphql.go:47-51 | if every record is dated below c, so is every record the date filter keeps |
| Upstream.DaysInRangeMatch | graphql/graphql.go:47-51 | every record the date filter keeps satisfies every present bound |
| Upstream.DaysInRangeDescending | graphql/graphql.go:47 | filtering keeps the descending date order |
| Upstream.DaysBelowBound | graphql/graphql.go:68-69 | a `date_lt` above every record and no higher than the old bound selects the same records |
| Upstream.DaysAfterCursor | graphql/graphql.go:68-69 | bounding by the date of record i of the window gives exactly the records after i |
| Upstream.NoIdBoundKeepsAll | graphql/graphql.go:80 | with no `id_lt` every transaction of the block is selected |
| Upstream.IdsBelowBound | graphql/graphql.go:110 | an `id_lt` above every id selects everything |
| Upstream.TransactionsAfterCursor | graphql/graphql.go:110 | bounding by the id of transaction i gives exactly the transactions after i |
| Graphql.CombinePools | graphql/graphql.go:29 | the result has both lengths added, the token0 pools first and the token1 pools after, in order |
| Graphql.QueryAssetPools | graphql/graphql.go:15-32 | sends exactly the pools query; fails iff it fails, with its error; otherwise returns the token0 pools followed by the token1 pools |
| Graphql.VolumeQuery | graphql/graphql.go:38-56 | `first` is 100 and the token is the asset; `date_gt` is present iff start is not `MinUint` and `date_lt` iff end is not `MaxUint`, with those values; no sentinel is ever sent |
| Graphql.TotalVolumeAppend | graphql/graphql.go:64-66 | the sum over a concatenation is the sum of the sums |
| Graphql.PageTotalsSnoc | graphql/graphql.go:64-66 | one more page adds that page's sum to the running total |
| Graphql.TotalIndependentOfPaging | graphql/graphql.go:64-66 | summing page by page gives the sum of the window, whatever the page size |
| Graphql.VolumeQueriesAt | graphql/graphql.go:37-45 | round j sends the query with the fixed start and the j-th cursor |
| Graphql.VolumeRound | graphql/graphql.go:58-72 | round k receives page k of the window; a full page is not the last and its last date is the next cursor; a short page is the last |
| Graphql.VolumeCursors | graphql/graphql.go:68-69 | the first query carries the caller's bounds; each next query keeps `date_gt` and sets `date_lt` to the 100th date of the full page before, strictly below the previous `date_lt` |
| Graphql.VolumeCursorStep | graphql/graphql.go:68-69 | a page followed by another is full, its last date is the next cursor, and the cursor moves strictly down |
| Graphql.AddVolumes | graphql/graphql.go:64-66 | the inner loop adds the page's `volumeUSD` sum to the total |
| Graphql.QueryAssetVolume | graphql/graphql.go:34-77 | sends the cursor sequence up to the first failure or short page; fails iff its last query fails, with that error, having received the full pages before it; on success it received every page of the window and returns the sum of the window |
| Graphql.TxQuery | graphql/graphql.go:84-94 | `first` is 100; the query carries the block, the `id_lt` bound and the swap field selection |
| Graphql.TxQueriesAt | graphql/graphql.go:80-87 | round j sends the block query with the j-th id cursor |
| Graphql.TxRound | graphql/graphql.go:95-113 | round k receives page k of the block's transactions; a full page is not the last and its last id is the next cursor; a short page is the last |
| Graphql.TxCursors | graphql/graphql.go:109-113 | the first query has no `id_lt`; each next query sets `id_lt` to the id of the 100th transaction of the page before, strictly below the previous cursor |
| Graphql.TxCursorStep | graphql/graphql.go:155-159 | a page followed by another is full, its last id is the next cursor, and the cursor moves strictly down |
| Graphql.SwapIdsAppend | graphql/graphql.go:102-107 | the swap ids of a concatenation are the ids of the first part followed by the ids of the second |
| Graphql.SwapIdsCount | graphql/graphql.go:102-107 | one id per swap: the list is as long as the number of swaps |
| Graphql.SwapIdsMembers | graphql/graphql.go:102-107 | an id is listed iff some swap of some transaction has it |
| Graphql.AppendSwapIds | graphql/graphql.go:102-107 | the nested loops append the page's swap ids, transaction by transaction and swap by swap |
| Graphql.QueryBlockSwaps | graphql/graphql.go:79-117 | sends the id-cursor sequence; fails iff its last query fails, having received the full pages before it; on success it received every page of the block and returns the swap ids of all the block's transactions in order |
| Graphql.SwapsTokensMembers | graphql/graphql.go:149-152 | a token id is collected from a run of swaps iff it is token0 or token1 of one of them |
| Graphql.SwapTokensMembers | graphql/graphql.go:147-153 | a token id is collected iff it is token0 or token1 of some swap of some transaction |
| Graphql.SwapTokensAppend | graphql/graphql.go:147-153 | the tokens of a concatenation are the union of the two parts' tokens |
| Graphql.SwapTokensBound | graphql/graphql.go:147-153 | there are at most twice as many token ids as swaps |
| Graphql.SwapsTokensBound | graphql/graphql.go:149-152 | a run of swaps names at most two tokens per swap |
| Graphql.PageTokens | graphql/graphql.go:147-153 | one more page adds exactly that page's tokens |
| Graphql.AddSwapTokens | graphql/graphql.go:147-153 | the keys afterwards are the old keys plus the page's tokens; every page token maps to true, whether or not it was already a key; every other key keeps its value |
| Graphql.MapKeys | graphql/graphql.go:162-167 | the key copy lists every key of the map once: same length, same members, no repeats, in any order |
| Graphql.QueryBlockSwapsAssets | graphql/graphql.go:119-170 | sends the id-cursor sequence; fails iff its last query fails; on success it received every page and returns each token id of the block's swaps exactly once |
| MainGraphql.QueryAssetPools | graphql.go:11-29 | sends exactly the pools query; fails iff it fails; otherwise returns the token0 pools followed by the token1 pools |
| MainGraphql.QueryAssetVolume | graphql.go:31-76 | every query asks for 100 records and the first carries the caller's bounds; every page but a final short one is full; after each full page the next query's `date_lt` is that page's 100th date; the whole query list is the cursor sequence of the window; on failure the pages received are the window's first pages, one fewer than the queries sent; fails iff the last query fails; otherwise the sum of the window |
| Handlers.ErrorStatus | handlers/handlers.go:22-30 | a failed query is 500; every rejected parameter is 400 |
| Handlers.Status | handlers/handlers.go:28-34 | 200 iff the answer was written, 400 iff a parameter was rejected, 500 iff a query failed |
| Handlers.VolumeRange | handlers/handlers.go:50-83 | empty `start`/`end` default to `MinUint`/`MaxUint`; otherwise they must parse; a bad start is reported first, then a bad end, then `end < start`; on success start <= end, and the pair is the one parsed or defaulted |
| Handlers.NoParametersMeansNoBounds | handlers/handlers.go:58-68 | with neither parameter the range is (`MinUint`, `MaxUint`), and the first query has neither `date_gt` nor `date_lt` |
| Handlers.FormattedRangeAccepted | handlers/handlers.go:80-83 | any start <= end given as decimal text is accepted as given; `end == start` passes |
| Handlers.AssetPoolsRequestHandler | handlers/handlers.go:13-35 | 400 iff the asset id is invalid, and then no query is sent; a valid id sends exactly the pools query; 500 iff that query fails, with its error; otherwise the pools are written |
| Handlers.AssetVolumeRequestHandler | handlers/handlers.go:37-94 | 400 iff the asset id is invalid or the range is rejected, and then no query is sent; a valid id and range always reach the volume query; the queries sent are the window's cursor sequence for exactly the checked range, every one before the last answered; 500 iff the last query sent fails, 200 only after one query per page of the window; otherwise the window's total is written |
| Handlers.BlockSwapsRequestHandler | handlers/handlers.go:96-120 | 400 iff the block number does not parse, and then no query is sent; a parsed number always reaches the query; the queries sent are the block's id-cursor sequence, every one before the last answered; 500 iff the last query sent fails, 200 only after one query per page of the block's transactions; otherwise the block's swap ids are written |
| Handlers.BlockSwappedAssetsRequestHandler | handlers/handlers.go:122-146 | 400 iff the block number does not parse, and then no query is sent; a parsed number always reaches the query; the queries sent are the block's id-cursor sequence, every one before the last answered; 500 iff the last query sent fails, 200 only after one query per page of the block's transactions; otherwise each token of the block's swaps is written once |

## Left out

- The network client, the query text and JSON are not modelled. `graphqlClient.Run` and `context.Background()` are replaced by the `Upstream` oracle over structured queries. Results are Dafny values, not marshalled bytes, and a JSON encoding error is not modelled.
- `volumeUSD` is a float64 in Go and an exact `int` here. Rounding in the running sum is not modelled.
- Go's map iteration order is not modelled. `MapKeys` picks keys in any order; the contract fixes the set of keys, not their order.
- Graphql.QueryAssetVolume: requires strictly descending dates for the token. With equal dates, the exclusive cursor would skip records; against an arbitrary upstream the Go loop need not terminate.
- Graphql.QueryBlockSwaps: requires strictly descending, hence unique, transaction ids in the block, for the same reason.
- Graphql.QueryBlockSwapsAssets: requires strictly descending transaction ids in the block, as QueryBlockSwaps does.
- MainGraphql.QueryAssetVolume: requires strictly descending dates, as Graphql.QueryAssetVolume does.
- Handlers.AssetVolumeRequestHandler: requires strictly descending dates for the token, which the volume loop needs.
- Handlers.BlockSwapsRequestHandler: requires strictly descending ids for the parsed block.
- Handlers.BlockSwappedAssetsRequestHandler: requires strictly descending ids for the parsed block.
- The config package is not part of this model. `config.GraphqlResultsPerPage` is taken to be 100, the value graphql.go fixes locally.
- The subgraph may cap a list that carries no `first` argument at its default page size: the pools lists of the pools query, and the nested `swaps` list of each transaction in the transactions queries (graphql/graphql.go:90, 130). The model returns every matching pool and every swap of a transaction.
- The swap field selection is recorded in each transactions query, but the oracle always returns whole records. Each caller reads only the fields it selected.
- `strconv.ParseUint` is specified, not modelled: it accepts a non-empty run of decimal digits whose value fits in 64 bits. Its error text is not modelled.
- `http.Error` message texts, the `Content-Type` header, logging and the routing of main.go are not modelled.
- main.go's own `validAddress` has the same pattern as utils.go and is covered by `MainUtils.ValidAddress`.
- types.go (package main) declares the same records with a `Swap` that has only an id. The model uses the records of common/types.go.
- The live-server tests in main_test.go are not modelled, apart from the address table. Their expected volumes depend on upstream data and float64 sums.
