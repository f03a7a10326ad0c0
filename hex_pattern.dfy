/**
 * The shape of the two validation patterns, `^0x[a-fA-F0-9]{40}$` and
 * `^0x([A-Fa-f0-9]{64})$`: an anchored literal prefix followed by exactly `n`
 * characters of the hexadecimal class and then the end of the text. The matcher
 * consumes its input left to right, the way the regular expression does.
 */
module HexPattern {

  /** The character class `[a-fA-F0-9]` (equivalently `[A-Fa-f0-9]`). */
  predicate IsHexDigit(c: char) {
    '0' <= c <= '9' || 'a' <= c <= 'f' || 'A' <= c <= 'F'
  }

  /** `[hex]{n}$`: exactly `n` class characters, then the end of the text. */
  function HexRun(s: string, n: nat): (b: bool)
    ensures b <==> |s| == n && forall i :: 0 <= i < |s| ==> IsHexDigit(s[i])
  {
    if n == 0 then s == []
    else |s| > 0 && IsHexDigit(s[0]) && HexRun(s[1..], n - 1)
  }

  /** `^prefix[hex]{n}$`, matched against the whole of `s`. */
  function Anchored(s: string, prefix: string, n: nat): (b: bool)
    ensures b <==> |s| == |prefix| + n && s[..|prefix|] == prefix
                   && forall i :: |prefix| <= i < |s| ==> IsHexDigit(s[i])
  {
    |s| >= |prefix| && s[..|prefix|] == prefix && HexRun(s[|prefix|..], n)
  }
}
