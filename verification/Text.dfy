/** White space, as the server and the client understand it. */
module Text {

  /** White space as Unicode defines it. */
  predicate White(c: char) {
    c in "\t\n\U{0b}\U{0c}\r \U{85}\U{a0}\U{1680}\U{2028}\U{2029}\U{202f}\U{205f}\U{3000}" || '\U{2000}' <= c <= '\U{200a}'
  }

  /** Nothing is left of the text once the server trims it. */
  predicate Blank(text: string) {
    forall i :: 0 <= i < |text| ==> White(text[i])
  }

  /** Nothing is left of the text once the client strips it, which also takes four separators away. */
  predicate Stripped(text: string) {
    forall i :: 0 <= i < |text| ==> White(text[i]) || '\U{1c}' <= text[i] <= '\U{1f}'
  }

  /** What the client keeps the server keeps. */
  lemma StrippedCoversBlank(text: string)
    ensures Blank(text) ==> Stripped(text)
  {
  }
}
