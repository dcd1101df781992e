/** The C# `detokenizer`: C-style text to tokens. Whitespace is skipped,
    a maximal letter run is a name token, a maximal digit run a number token,
    and each of `(`, `)`, `,` and `;` a one-character paren-kind token; any
    other character throws. As in the forward tokenizer, a run that reaches
    the end of the input reads past it: `Err(UnexpectedEnd)`. */
module Detokenizer {
  import opened Wrappers
  import opened Chars
  import opened Syntax

  predicate Separator(c: char) {
    c == ',' || c == ';'
  }

  /** A character some rule of the detokenizer accepts. */
  predicate Known(c: char) {
    IsWhitespace(c) || IsLetter(c) || c == ')' || IsDigit(c) || c == ',' || c == '(' || c == ';'
  }

  predicate WellFormed(t: Token) {
    match t.kind
    case Paren => t.value == "(" || t.value == ")" || t.value == "," || t.value == ";"
    case Number => |t.value| > 0 && All(t.value, IsDigit)
    case Name => |t.value| > 0 && All(t.value, IsLetter)
  }

  function Detokenize(input: string): (r: Result<seq<Token>, Error>)
    ensures r.Ok? ==> forall i | 0 <= i < |r.value| :: WellFormed(r.value[i])
    ensures r.Err? ==> r.error == UnexpectedEnd
                       || (r.error.UnknownCharacter? && r.error.c in input && !Known(r.error.c))
    decreases |input|
  {
    if |input| == 0 then Ok([])
    else
      var c := input[0];
      if IsWhitespace(c) then Detokenize(input[1..])
      else if IsLetter(c) then
        var n := Span(input, IsLetter);
        if n == |input| then Err(UnexpectedEnd)
        else Prepend([Token(Name, input[..n])], Detokenize(input[n..]))
      else if c == ')' then Prepend([Close], Detokenize(input[1..]))
      else if IsDigit(c) then
        var n := Span(input, IsDigit);
        if n == |input| then Err(UnexpectedEnd)
        else Prepend([Token(Number, input[..n])], Detokenize(input[n..]))
      else if c == ',' then Prepend([Comma], Detokenize(input[1..]))
      else if c == '(' then Prepend([Open], Detokenize(input[1..]))
      else if c == ';' then Prepend([Semicolon], Detokenize(input[1..]))
      else Err(UnknownCharacter(c))
  }

  /** Only whitespace is lost: the token texts spell the input without it. */
  lemma {:induction false} DetokenizeKeepsText(input: string)
    requires Detokenize(input).Ok?
    ensures Text(Detokenize(input).value) == Visible(input)
    decreases |input|
  {
    if |input| > 0 {
      var n, head := DetokenizeStep(input);
      DetokenizeKeepsText(input[n..]);
      TextConcat(head, Detokenize(input[n..]).value);
    }
  }

  /** One step of the detokenizer: the tokens read from the front of the
      input, which spell its visible part, and where it continues. */
  lemma DetokenizeStep(input: string) returns (n: nat, head: seq<Token>)
    requires |input| > 0 && Detokenize(input).Ok?
    ensures 0 < n <= |input| && Detokenize(input[n..]).Ok?
    ensures Detokenize(input).value == head + Detokenize(input[n..]).value
    ensures Visible(input) == Text(head) + Visible(input[n..])
  {
    var c := input[0];
    if IsLetter(c) {
      n := StepName(input);
      head := [Token(Name, input[..n])];
      RunText(input, n, Name);
    } else if IsDigit(c) {
      n := StepNumber(input);
      head := [Token(Number, input[..n])];
      RunText(input, n, Number);
    } else {
      n := 1;
      head := StepChar(input);
    }
  }

  lemma StepName(input: string) returns (n: nat)
    requires |input| > 0 && IsLetter(input[0]) && Detokenize(input).Ok?
    ensures 0 < n < |input| && n == Span(input, IsLetter)
    ensures forall i | 0 <= i < n :: !IsWhitespace(input[i])
    ensures Detokenize(input) == Prepend([Token(Name, input[..n])], Detokenize(input[n..]))
  {
    n := Span(input, IsLetter);
  }

  lemma StepNumber(input: string) returns (n: nat)
    requires |input| > 0 && IsDigit(input[0]) && Detokenize(input).Ok?
    ensures 0 < n < |input| && n == Span(input, IsDigit)
    ensures forall i | 0 <= i < n :: !IsWhitespace(input[i])
    ensures Detokenize(input) == Prepend([Token(Number, input[..n])], Detokenize(input[n..]))
  {
    n := Span(input, IsDigit);
  }

  /** A whitespace or punctuation character. */
  lemma StepChar(input: string) returns (head: seq<Token>)
    requires |input| > 0 && !IsLetter(input[0]) && !IsDigit(input[0])
    requires Detokenize(input).Ok?
    ensures Detokenize(input) == Prepend(head, Detokenize(input[1..]))
    ensures Visible(input) == Text(head) + Visible(input[1..])
  {
    var c := input[0];
    head := if IsWhitespace(c) then [] else [Token(Paren, [c])];
    assert Text(head) == if IsWhitespace(c) then "" else [c] + "";
    if IsWhitespace(c) {
      PrependEmpty(Detokenize(input[1..]));
    }
  }

  lemma TextOne(t: Token)
    ensures Text([t]) == t.value
  {
    assert [t][1..] == [];
    assert t.value + "" == t.value;
  }

  /** A run of non-whitespace characters is its own visible text. */
  lemma RunText(input: string, n: nat, kind: TokenKind)
    requires 0 < n <= |input|
    requires forall i | 0 <= i < n :: !IsWhitespace(input[i])
    ensures Visible(input) == Text([Token(kind, input[..n])]) + Visible(input[n..])
  {
    var w, rest := input[..n], input[n..];
    assert w + rest == input;
    forall i | 0 <= i < |w|
      ensures !IsWhitespace(w[i])
    {
      assert w[i] == input[i];
    }
    VisibleOfRun(w, rest);
    TextOne(Token(kind, w));
  }

  lemma DetokenizePunct(c: char, rest: string)
    requires c in "(),;"
    ensures Detokenize([c] + rest) == Prepend([Token(Paren, [c])], Detokenize(rest))
  {
    assert ([c] + rest)[1..] == rest;
  }

  lemma DetokenizeWhitespace(c: char, rest: string)
    requires IsWhitespace(c)
    ensures Detokenize([c] + rest) == Detokenize(rest)
  {
    assert ([c] + rest)[1..] == rest;
  }

  lemma DetokenizeNumberRun(w: string, rest: string)
    requires |w| > 0 && All(w, IsDigit)
    requires |rest| > 0 && !IsDigit(rest[0])
    ensures Detokenize(w + rest) == Prepend([Token(Number, w)], Detokenize(rest))
  {
    SpanOfRun(w, rest, IsDigit);
    assert (w + rest)[0] == w[0];
    assert (w + rest)[..|w|] == w;
    assert (w + rest)[|w|..] == rest;
  }

  lemma DetokenizeNameRun(w: string, rest: string)
    requires |w| > 0 && All(w, IsLetter)
    requires |rest| > 0 && !IsLetter(rest[0])
    ensures Detokenize(w + rest) == Prepend([Token(Name, w)], Detokenize(rest))
  {
    SpanOfRun(w, rest, IsLetter);
    assert (w + rest)[0] == w[0];
    assert (w + rest)[..|w|] == w;
    assert (w + rest)[|w|..] == rest;
  }
}
