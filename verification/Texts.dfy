/** Text checks the TypeScript packages share. */
module Texts {
  /** White space and line ends, as trimming removes them. */
  predicate IsSpace(c: char) {
    '\t' <= c <= '\r' || c == ' ' || c == '\U{A0}' || c == '\U{1680}'
    || '\U{2000}' <= c <= '\U{200A}' || c == '\U{2028}' || c == '\U{2029}'
    || c == '\U{202F}' || c == '\U{205F}' || c == '\U{3000}' || c == '\U{FEFF}'
  }

  /** Whether trimming the text leaves nothing. */
  predicate Blank(text: string) { forall i :: 0 <= i < |text| ==> IsSpace(text[i]) }

  predicate IsLowerHex(c: char) { '0' <= c <= '9' || 'a' <= c <= 'f' }

  predicate IsSha256(text: string) {
    |text| == 71 && text[..7] == "sha256:" && forall i :: 7 <= i < 71 ==> IsLowerHex(text[i])
  }
}
