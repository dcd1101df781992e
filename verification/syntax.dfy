/** Tokens and errors of the C# pipelines (both directions). */
module Syntax {

  /** `TokenTypeEnum`: the C# token kinds. */
  datatype TokenKind = Paren | Name | Number

  /** A token: its kind and the source text it stands for. */
  datatype Token = Token(kind: TokenKind, value: string)

  /** What a stage throws. `UnexpectedEnd` stands for an index read past the
      last character or token, which the original does not check. */
  datatype Error =
    | UnknownCharacter(c: char)
    | UnexpectedEnd
    | UnexpectedToken(kind: TokenKind)

  /** The token values in order. */
  function Values(ts: seq<Token>): seq<string>
  {
    if |ts| == 0 then [] else [ts[0].value] + Values(ts[1..])
  }

  /** The token values concatenated. */
  function Text(ts: seq<Token>): string
  {
    if |ts| == 0 then "" else ts[0].value + Text(ts[1..])
  }

  lemma ValuesConcat(a: seq<Token>, b: seq<Token>)
    ensures Values(a + b) == Values(a) + Values(b)
  {
    if |a| > 0 {
      assert (a + b)[1..] == a[1..] + b;
      ValuesConcat(a[1..], b);
    } else {
      assert a + b == b;
    }
  }

  lemma TextConcat(a: seq<Token>, b: seq<Token>)
    ensures Text(a + b) == Text(a) + Text(b)
  {
    if |a| > 0 {
      assert (a + b)[1..] == a[1..] + b;
      TextConcat(a[1..], b);
    } else {
      assert a + b == b;
    }
  }

  const Open := Token(Paren, "(")
  const Close := Token(Paren, ")")
  const Comma := Token(Paren, ",")
  const Semicolon := Token(Paren, ";")
}
