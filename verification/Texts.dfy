/** Text checks the modules share; white space is that of Latin-1. */
module Texts {

  predicate IsBlank(c: char) {
    c == ' ' || '\t' <= c <= '\r' || 28 as char <= c <= 31 as char || c == 133 as char || c == 160 as char
  }

  /** Something is left after stripping. */
  predicate IsNonempty(s: string) {
    exists i :: 0 <= i < |s| && !IsBlank(s[i])
  }

  predicate IsLowerHexDigit(c: char) {
    '0' <= c <= '9' || 'a' <= c <= 'f'
  }

  predicate IsLowerHex(s: string, length: nat) {
    |s| == length && forall i :: 0 <= i < |s| ==> IsLowerHexDigit(s[i])
  }
}
