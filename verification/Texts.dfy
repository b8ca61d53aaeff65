/** Strings as the source has them: sequences of UTF-16 code units. */
module Texts {
  type CodeUnit = x: nat | x < 0x10000
  type Text = seq<CodeUnit>

  const BACKSLASH: CodeUnit := 0x5C
  const SLASH: CodeUnit := 0x2F
}
