/** Token kinds and token streams as the lexer hands them to both parsers. */
module Tokens {

  /** The kinds of token the lexer classifies; EndOfInput is what a peek past the last token reports. */
  datatype TokenKind =
    | Null | True | False | Number | String
    | Colon | Comma
    | LeftBrace | RightBrace | LeftBracket | RightBracket
    | EndOfInput

  /** A token with its text: the digits (and sign) of a number, the contents of a string. */
  datatype Token = Token(kind: TokenKind, text: string)

  /** The kind the lexer reports at cursor position `p`. */
  function KindAt(toks: seq<Token>, p: nat): TokenKind
  {
    if p < |toks| then toks[p].kind else EndOfInput
  }

  /** The text of the token at `p`, empty past the end. */
  function TextAt(toks: seq<Token>, p: nat): string
  {
    if p < |toks| then toks[p].text else ""
  }

  datatype Option<+T> = None | Some(value: T)
}
