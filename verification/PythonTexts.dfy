/** Text checks the Python packages share. */
module PythonTexts {
  /** White space, as stripping removes it. */
  predicate IsSpace(c: char) {
    '\t' <= c <= '\r' || '\U{1C}' <= c <= ' ' || c == '\U{85}' || c == '\U{A0}' || c == '\U{1680}'
    || '\U{2000}' <= c <= '\U{200A}' || c == '\U{2028}' || c == '\U{2029}' || c == '\U{202F}' || c == '\U{205F}'
    || c == '\U{3000}'
  }

  /** Whether stripping the text leaves nothing. */
  predicate Blank(text: string) { forall i :: 0 <= i < |text| ==> IsSpace(text[i]) }
}
