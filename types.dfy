/**
 * The records exchanged with the upstream subgraph (common/types.go; types.go in
 * package main declares the same records, with a `Swap` that carries only its id).
 * JSON envelopes such as `TokenDayDataResult` and `TransactionsResult` are not
 * mirrored: the model hands the records over directly.
 */
module Types {

  /** Go's `uint64`. */
  type uint64 = x: int | 0 <= x <= 0xFFFF_FFFF_FFFF_FFFF

  /** `MinUint` and `MaxUint`: the sentinels for "no lower bound" and "no upper bound". */
  const MinUint: uint64 := 0
  const MaxUint: uint64 := 0xFFFF_FFFF_FFFF_FFFF

  datatype Pool = Pool(id: string)

  /** The pools that have the asset as token0 and those that have it as token1. */
  datatype AllPools = AllPools(poolsWithToken0: seq<Pool>, poolsWithToken1: seq<Pool>)

  /** One day of trading of a token. `volumeUSD` is a float64 in Go; here an exact amount. */
  datatype TokenDayData = TokenDayData(date: uint64, volumeUSD: int)

  datatype Token = Token(id: string)

  datatype Swap = Swap(id: string, token0: Token, token1: Token)

  datatype Transaction = Transaction(id: string, swaps: seq<Swap>)
}
