/**
 * The lexer's token-stream interface. Character-level scanning is not part of this model: a
 * lexer holds the tokens of its current text and a cursor.
 */
module Lexing {
  import opened Tokens
  import opened Types

  class Lexer {
    var tokens: seq<Token>
    var pos: nat

    ghost predicate Valid()
      reads this
    {
      pos <= |tokens|
    }

    constructor (toks: seq<Token>)
      ensures Valid() && tokens == toks && pos == 0
    {
      tokens, pos := toks, 0;
    }

    /** `SetJsonText`: start over on the tokens of a new text. */
    method SetJsonText(toks: seq<Token>)
      modifies this
      ensures Valid() && tokens == toks && pos == 0
    {
      tokens, pos := toks, 0;
    }

    /** `LookNextTokenType`: the kind of the next token; the cursor stays. */
    function LookNextTokenType(): TokenKind
      reads this
    {
      KindAt(tokens, pos)
    }

    /** `GetNextToken`: consume the next token whatever its kind; at the end nothing moves. */
    method GetNextToken() returns (t: Token)
      requires Valid()
      modifies this`pos
      ensures Valid()
      ensures old(pos) < |tokens| ==> t == tokens[old(pos)] && pos == old(pos) + 1
      ensures old(pos) == |tokens| ==> t.kind == EndOfInput && pos == old(pos)
    {
      if pos < |tokens| {
        t := tokens[pos];
        pos := pos + 1;
      } else {
        t := Token(EndOfInput, "");
      }
    }

    /** The cursor after a registered custom decoder has read the tokens before `q`. */
    method SkipTo(q: nat)
      requires pos <= q <= |tokens|
      modifies this`pos
      ensures Valid() && pos == q
    {
      pos := q;
    }

    /** `GetNextTokenOfType`: consume the next token, failing when it is not of kind `k`. */
    method GetNextTokenOfType(k: TokenKind) returns (r: Result<Token>)
      requires Valid()
      modifies this`pos
      ensures Valid()
      ensures r.Ok? <==> old(pos) < |tokens| && tokens[old(pos)].kind == k
      ensures r.Ok? ==> r.value == tokens[old(pos)] && pos == old(pos) + 1
      ensures r.Err? ==> r.error == Unexpected(k, KindAt(tokens, old(pos))) && pos == old(pos)
    {
      if pos < |tokens| && tokens[pos].kind == k {
        r := Ok(tokens[pos]);
        pos := pos + 1;
      } else {
        r := Err(Unexpected(k, KindAt(tokens, pos)));
      }
    }
  }
}
