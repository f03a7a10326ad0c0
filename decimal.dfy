/**
 * Base-10 `uint64` text, as `strconv.ParseUint(s, 10, 64)` accepts it and as
 * `strconv.FormatUint(n, 10)` writes it. The library itself is not modelled:
 * ParseUint accepts exactly the non-empty strings of decimal digits whose value
 * fits in 64 bits (no sign, no underscores, leading zeros allowed).
 */
module Decimal {
  import opened Wrappers
  import opened Types

  predicate IsDigit(c: char) {
    '0' <= c <= '9'
  }

  predicate AllDigits(s: string) {
    forall i :: 0 <= i < |s| ==> IsDigit(s[i])
  }

  /** The value of a digit string, read left to right. */
  function Value(s: string): nat
    requires AllDigits(s)
  {
    if s == [] then 0 else Value(s[..|s| - 1]) * 10 + (s[|s| - 1] as int - '0' as int)
  }

  /** `strconv.ParseUint(s, 10, 64)`: `None` stands for its non-nil error. */
  function ParseUint(s: string): Option<uint64> {
    if |s| > 0 && AllDigits(s) && Value(s) <= MaxUint then Some(Value(s)) else None
  }

  /** `strconv.FormatUint(n, 10)`: the shortest decimal rendering of `n`. */
  function FormatUint(n: uint64): (s: string)
    ensures |s| > 0 && AllDigits(s)
    ensures s[0] == '0' ==> n == 0 && |s| == 1
  {
    if n < 10 then [('0' as int + n) as char]
    else FormatUint(n / 10) + [('0' as int + n % 10) as char]
  }

  /** Rendering a number and parsing it back gives the number, so a handler accepts every `uint64` given as its own decimal text. */
  lemma {:induction false} ParseFormat(n: uint64)
    ensures ParseUint(FormatUint(n)) == Some(n)
  {
    var s := FormatUint(n);
    ValueOfFormat(n);
  }

  lemma {:induction false} ValueOfFormat(n: uint64)
    ensures Value(FormatUint(n)) == n
  {
    var s := FormatUint(n);
    if n >= 10 {
      ValueOfFormat(n / 10);
      assert s[..|s| - 1] == FormatUint(n / 10);
    }
  }

  /** The empty string, a sign and an underscore are refused. */
  lemma ParseUintRejectsForms()
    ensures ParseUint("") == None
    ensures ParseUint("+1") == None
    ensures ParseUint("-1") == None
    ensures ParseUint("1_000") == None
  {
    assert !IsDigit("+1"[0]) && !IsDigit("-1"[0]) && !IsDigit("1_000"[1]);
  }

  function Pow10(k: nat): nat {
    if k == 0 then 1 else 10 * Pow10(k - 1)
  }

  /** A digit string is worth at least its leading digit times the weight of its position. */
  lemma {:induction false} LeadingDigitBound(s: string)
    requires |s| > 0 && AllDigits(s)
    ensures Value(s) >= (s[0] as int - '0' as int) * Pow10(|s| - 1)
  {
    if |s| > 1 {
      var p := s[..|s| - 1];
      assert p[0] == s[0];
      LeadingDigitBound(p);
    }
  }

  /** Twenty digits starting with a digit of 2 or more exceed 2^64 - 1 and are refused. */
  lemma {:induction false} ParseUintRejectsOverflow(s: string)
    requires |s| == 20 && AllDigits(s) && s[0] >= '2'
    ensures ParseUint(s) == None
  {
    LeadingDigitBound(s);
    assert Pow10(4) == 10_000;
    assert Pow10(9) == 1_000_000_000;
    assert Pow10(14) == 100_000_000_000_000;
    assert Pow10(19) == 10_000_000_000_000_000_000;
  }
}
