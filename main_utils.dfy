/** The package-main copies of the validators (utils.go). */
module MainUtils {
  import HexPattern
  import CommonUtils

  /** `validAddress`: the same pattern as `common.ValidAddress`, so the same verdict on every string. */
  function ValidAddress(addr: string): (b: bool)
    ensures b == CommonUtils.ValidAddress(addr)
  {
    HexPattern.Anchored(addr, "0x", 40)
  }

  /** `validHash`: the same pattern as `common.ValidHash`. */
  function ValidHash(hash: string): (b: bool)
    ensures b == CommonUtils.ValidHash(hash)
  {
    HexPattern.Anchored(hash, "0x", 64)
  }
}
