// String helpers with the meaning of Go's strings package, exact wherever the
// control plane compares a result with an ASCII constant.
module Text {

  datatype Option<+T> = None | Some(value: T)

  /** unicode.ToLower on one rune. Besides A-Z, U+212A and U+0130 are the only
      runes whose lower-case form is an ASCII letter; every other rune maps
      outside ASCII, where no constant of this system can match it. */
  function LowerRune(c: char): char {
    if 'A' <= c <= 'Z' then (c as int + 32) as char
    else if c == '\U{212A}' then 'k'
    else if c == '\U{0130}' then 'i'
    else c
  }

  /** unicode.ToUpper on one rune; U+0131 and U+017F are the runes outside
      a-z whose upper-case form is an ASCII letter. */
  function UpperRune(c: char): char {
    if 'a' <= c <= 'z' then (c as int - 32) as char
    else if c == '\U{0131}' then 'I'
    else if c == '\U{017F}' then 'S'
    else c
  }

  function ToLower(s: string): string {
    seq(|s|, i requires 0 <= i < |s| => LowerRune(s[i]))
  }

  function ToUpper(s: string): string {
    seq(|s|, i requires 0 <= i < |s| => UpperRune(s[i]))
  }

  predicate HasPrefix(s: string, prefix: string) {
    prefix <= s
  }

  predicate MatchesAt(s: string, part: string, i: int) {
    0 <= i <= |s| - |part| && s[i..i + |part|] == part
  }

  predicate Contains(s: string, part: string) {
    exists i | 0 <= i <= |s| - |part| :: MatchesAt(s, part, i)
  }

  /** unicode.IsSpace */
  predicate IsSpace(c: char) {
    || c in {' ', '\t', '\n', '\r', '\U{000B}', '\U{000C}', '\U{0085}', '\U{00A0}', '\U{1680}'}
    || '\U{2000}' <= c <= '\U{200A}'
    || c in {'\U{2028}', '\U{2029}', '\U{202F}', '\U{205F}', '\U{3000}'}
  }

  /** strings.TrimSpace(s) == "" */
  predicate Blank(s: string) {
    forall c | c in s :: IsSpace(c)
  }

  /** Folding is the ASCII one on ASCII; the only other runes that fold into ASCII are the
      Kelvin sign, the dotted capital I, the dotless i and the long s. */
  lemma FoldingIntoAscii(c: char)
    ensures c < '\U{0080}' ==>
              LowerRune(c) == if 'A' <= c <= 'Z' then (c as int - 'A' as int + 'a' as int) as char else c
    ensures c < '\U{0080}' ==>
              UpperRune(c) == if 'a' <= c <= 'z' then (c as int - 'a' as int + 'A' as int) as char else c
    ensures c >= '\U{0080}' && LowerRune(c) < '\U{0080}' <==> c == '\U{212A}' || c == '\U{0130}'
    ensures c >= '\U{0080}' && UpperRune(c) < '\U{0080}' <==> c == '\U{0131}' || c == '\U{017F}'
    ensures LowerRune('\U{212A}') == 'k' && LowerRune('\U{0130}') == 'i'
    ensures UpperRune('\U{0131}') == 'I' && UpperRune('\U{017F}') == 'S'
  {
  }

  /** Among the ASCII runes the blank ones are the space and U+0009 to U+000D. */
  lemma AsciiSpaces(c: char)
    requires c < '\U{0080}'
    ensures IsSpace(c) <==> c == ' ' || '\U{0009}' <= c <= '\U{000D}'
  {
  }
}
