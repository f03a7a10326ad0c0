/** The input validators of package common (common/utils.go). */
module CommonUtils {
  import opened HexPattern

  /** `^0x[a-fA-F0-9]{40}$`: a 20-byte address. */
  function ValidAddress(addr: string): (b: bool)
    ensures b <==> |addr| == 42 && addr[0] == '0' && addr[1] == 'x'
                   && forall i :: 2 <= i < 42 ==> IsHexDigit(addr[i])
  {
    Anchored(addr, "0x", 40)
  }

  /** `^0x([A-Fa-f0-9]{64})$`: a 32-byte hash. */
  function ValidHash(hash: string): (b: bool)
    ensures b <==> |hash| == 66 && hash[0] == '0' && hash[1] == 'x'
                   && forall i :: 2 <= i < 66 ==> IsHexDigit(hash[i])
  {
    Anchored(hash, "0x", 64)
  }

  /** The lengths differ, so no string is both an address and a hash. */
  lemma AddressIsNeverHash(s: string)
    ensures !(ValidAddress(s) && ValidHash(s))
  {
  }

  /** One character that is not a hex digit anywhere after the prefix rejects both forms. */
  lemma NonHexRejected(s: string, i: nat)
    requires 2 <= i < |s| && !IsHexDigit(s[i])
    ensures !ValidAddress(s) && !ValidHash(s)
  {
  }

  /** The prefix is case sensitive: `0X` is not accepted. */
  lemma UpperCasePrefixRejected(s: string)
    requires |s| >= 2 && s[1] == 'X'
    ensures !ValidAddress(s) && !ValidHash(s)
  {
  }

  /** `$` anchors at the end of the text: no character, a newline included, may follow. */
  lemma NothingMayFollow(s: string, c: char)
    ensures !(ValidAddress(s) && ValidAddress(s + [c]))
    ensures !(ValidHash(s) && ValidHash(s + [c]))
  {
  }

  /** Digits are accepted in either case: changing the case of any letter digit keeps an address valid. */
  lemma {:induction false} DigitCaseIrrelevant(s: string, t: string)
    requires |s| == |t| && |s| >= 2 && s[0] == t[0] && s[1] == t[1]
    requires forall i :: 2 <= i < |s| ==> SameHexDigit(s[i], t[i])
    ensures ValidAddress(s) == ValidAddress(t)
    ensures ValidHash(s) == ValidHash(t)
  {
    assert forall i :: 2 <= i < |s| ==> (IsHexDigit(s[i]) <==> IsHexDigit(t[i]));
  }

  /** `c` and `d` are the same character up to the case of a letter `a`-`f`. */
  predicate SameHexDigit(c: char, d: char) {
    c == d
    || ('a' <= c <= 'f' && d as int == c as int - 32)
    || ('A' <= c <= 'F' && d as int == c as int + 32)
  }
}

/** The address table of main_test.go, row by row. */
module AddressTable {
  import opened CommonUtils

  /** A `0x` followed by forty digits or lower-case letters `a`-`f` is an address. */
  lemma LowerHexAddress(a: string)
    requires |a| == 42 && a[0] == '0' && a[1] == 'x'
    requires forall i :: 2 <= i < 42 ==> '0' <= a[i] <= '9' || 'a' <= a[i] <= 'f'
    ensures ValidAddress(a)
  {
  }

  /** The rows of the table in main_test.go that must be accepted: two pool addresses and the zero address. */
  lemma AcceptsFirstPoolAddress()
    ensures ValidAddress("0x07b1c12be0d62fe548a2b4b025ab7a5ca8def21e")
  {
    LowerHexAddress("0x07b1c12be0d62fe548a2b4b025ab7a5ca8def21e");
  }

  lemma AcceptsSecondPoolAddress()
    ensures ValidAddress("0x8e26e2fc8140280fba3e34bfdca7fc1102c1ae04")
  {
    LowerHexAddress("0x8e26e2fc8140280fba3e34bfdca7fc1102c1ae04");
  }

  lemma AcceptsZeroAddress()
    ensures ValidAddress("0x0000000000000000000000000000000000000000")
  {
    LowerHexAddress("0x0000000000000000000000000000000000000000");
  }

  /** The rows of the table in main_test.go that must be rejected for their length. */
  lemma RejectsWrongLength()
    ensures !ValidAddress("0x00000000000000000000000000000000000000000")
    ensures !ValidAddress("00x0000000000000000000000000000000000000000")
    ensures !ValidAddress("0x620cd19eae24fb8a02df908bb71b81b6e3aa1cc")
    ensures !ValidAddress("0x645c3a387b8633df1d4d71ca4b50d27233bcb8")
    ensures !ValidAddress("07b1c12be0d62fe548a2b4b025ab7a5ca8def21e")
    ensures !ValidAddress("")
  {
  }

  /** The rows of the table in main_test.go that have the right length but not the `0x` prefix. */
  lemma RejectsWrongPrefix()
    ensures !ValidAddress("x00000000000000000000000000000000000000000")
    ensures !ValidAddress("1x919fa96e88d67499339577fa202345436bcdaf79")
    ensures !ValidAddress("009445bd19767f73dcae6f2de90e6cd31192f62589")
  {
  }
}
