/** The C# `tokenizer`: S-expression text to tokens. Parens become one-character
    tokens, whitespace is skipped, a maximal digit run becomes a number token and
    a maximal letter run a name token; any other character throws. The inner run
    loops read `input[++current]` without a bounds check, so a run that reaches
    the end of the input faults; here that is `Err(UnexpectedEnd)`. */
module Tokenizer {
  import opened Wrappers
  import opened Chars
  import opened Syntax

  /** A character some rule of the tokenizer accepts. */
  predicate Known(c: char) {
    c == '(' || c == ')' || IsWhitespace(c) || IsDigit(c) || IsLetter(c)
  }

  /** What the tokenizer can emit: a one-character paren, or a non-empty
      digit or letter run. */
  predicate WellFormed(t: Token) {
    match t.kind
    case Paren => t.value == "(" || t.value == ")"
    case Number => |t.value| > 0 && All(t.value, IsDigit)
    case Name => |t.value| > 0 && All(t.value, IsLetter)
  }

  predicate AllWellFormed(ts: seq<Token>) {
    forall i | 0 <= i < |ts| :: WellFormed(ts[i])
  }

  /** Every character is known and the text does not end inside a run. */
  predicate Lexable(s: string) {
    && All(s, Known)
    && (|s| == 0 || (!IsDigit(s[|s| - 1]) && !IsLetter(s[|s| - 1])))
  }

  function Tokenize(input: string): (r: Result<seq<Token>, Error>)
    ensures r.Ok? ==> AllWellFormed(r.value)
    ensures r.Err? ==> r.error == UnexpectedEnd
                       || (r.error.UnknownCharacter? && r.error.c in input && !Known(r.error.c))
    decreases |input|
  {
    if |input| == 0 then Ok([])
    else
      var c := input[0];
      if c == '(' then Prepend([Open], Tokenize(input[1..]))
      else if c == ')' then Prepend([Close], Tokenize(input[1..]))
      else if IsWhitespace(c) then Tokenize(input[1..])
      else if IsDigit(c) then
        var n := Span(input, IsDigit);
        if n == |input| then Err(UnexpectedEnd)
        else Prepend([Token(Number, input[..n])], Tokenize(input[n..]))
      else if IsLetter(c) then
        var n := Span(input, IsLetter);
        if n == |input| then Err(UnexpectedEnd)
        else Prepend([Token(Name, input[..n])], Tokenize(input[n..]))
      else Err(UnknownCharacter(c))
  }

  /** Only whitespace is lost: the token texts spell the input without it. */
  lemma {:induction false} TokenizeKeepsText(input: string)
    requires Tokenize(input).Ok?
    ensures Text(Tokenize(input).value) == Visible(input)
    decreases |input|
  {
    if |input| > 0 {
      var c := input[0];
      if c == '(' || c == ')' {
        TokenizeKeepsText(input[1..]);
      } else if IsWhitespace(c) {
        TokenizeKeepsText(input[1..]);
      } else {
        var n := if IsDigit(c) then Span(input, IsDigit) else Span(input, IsLetter);
        assert input == input[..n] + input[n..];
        TokenizeKeepsText(input[n..]);
        VisibleOfRun(input[..n], input[n..]);
      }
    }
  }

  /** The tokenizer fails exactly on an unknown character or on a text that
      ends inside a digit or letter run. */
  lemma {:induction false} TokenizeSucceedsIff(input: string)
    ensures Tokenize(input).Ok? <==> Lexable(input)
    decreases |input|
  {
    if |input| > 0 {
      var c := input[0];
      if c == '(' || c == ')' || IsWhitespace(c) {
        TokenizeSucceedsIff(input[1..]);
        LexableTail(input, 1);
      } else if IsDigit(c) || IsLetter(c) {
        var n := if IsDigit(c) then Span(input, IsDigit) else Span(input, IsLetter);
        if n == |input| {
          assert IsDigit(input[|input| - 1]) || IsLetter(input[|input| - 1]);
        } else {
          TokenizeSucceedsIff(input[n..]);
          LexableTail(input, n);
        }
      } else {
        assert !Known(input[0]);
      }
    }
  }

  /** Cutting off a prefix of known characters that ends before the last
      character does not change lexability. */
  lemma LexableTail(s: string, n: nat)
    requires 0 < n < |s| || n == 1 == |s|
    requires forall i | 0 <= i < n :: Known(s[i])
    requires n == |s| ==> !IsDigit(s[n - 1]) && !IsLetter(s[n - 1])
    ensures Lexable(s) <==> Lexable(s[n..])
  {
    if All(s[n..], Known) {
      forall i | 0 <= i < |s|
        ensures Known(s[i])
      {
        if i >= n {
          assert s[i] == s[n..][i - n];
        }
      }
    }
  }

  /** The tokens written out, each followed by one space. */
  function Spaced(ts: seq<Token>): string
  {
    if |ts| == 0 then "" else ts[0].value + " " + Spaced(ts[1..])
  }

  /** Tokenizing the written-out tokens gives them back: every well-formed
      token sequence is the tokenization of some text. */
  lemma {:induction false} TokenizeSpaced(ts: seq<Token>)
    requires AllWellFormed(ts)
    ensures Tokenize(Spaced(ts)) == Ok(ts)
  {
    if |ts| > 0 {
      var t := ts[0];
      var rest := " " + Spaced(ts[1..]);
      assert Spaced(ts) == t.value + rest;
      TokenizeSpaced(ts[1..]);
      TokenizeWhitespace(' ', Spaced(ts[1..]));
      assert [t] + ts[1..] == ts;
      match t.kind {
        case Paren =>
          assert [t.value[0]] == t.value;
          TokenizeParen(t.value[0], rest);
        case Number =>
          TokenizeNumberRun(t.value, rest);
        case Name =>
          TokenizeNameRun(t.value, rest);
      }
    }
  }

  lemma TokenizeParen(c: char, rest: string)
    requires c == '(' || c == ')'
    ensures Tokenize([c] + rest) == Prepend([Token(Paren, [c])], Tokenize(rest))
  {
    assert ([c] + rest)[1..] == rest;
  }

  lemma TokenizeWhitespace(c: char, rest: string)
    requires IsWhitespace(c)
    ensures Tokenize([c] + rest) == Tokenize(rest)
  {
    assert ([c] + rest)[1..] == rest;
  }

  lemma TokenizeNumberRun(w: string, rest: string)
    requires |w| > 0 && All(w, IsDigit)
    requires |rest| > 0 && !IsDigit(rest[0])
    ensures Tokenize(w + rest) == Prepend([Token(Number, w)], Tokenize(rest))
  {
    SpanOfRun(w, rest, IsDigit);
    assert (w + rest)[0] == w[0];
    assert (w + rest)[..|w|] == w;
    assert (w + rest)[|w|..] == rest;
  }

  lemma TokenizeNameRun(w: string, rest: string)
    requires |w| > 0 && All(w, IsLetter)
    requires |rest| > 0 && !IsLetter(rest[0])
    ensures Tokenize(w + rest) == Prepend([Token(Name, w)], Tokenize(rest))
  {
    SpanOfRun(w, rest, IsLetter);
    assert (w + rest)[0] == w[0];
    assert (w + rest)[..|w|] == w;
    assert (w + rest)[|w|..] == rest;
  }

  /** The source's cursor loop itself: it computes exactly `Tokenize`,
      including the fault of a run reaching the end. */
  method TokenizerLoop(input: string) returns (r: Result<seq<Token>, Error>)
    ensures r == Tokenize(input)
  {
    var current := 0;
    var tokens: seq<Token> := [];
    assert input[current..] == input;
    PrependEmpty(Tokenize(input));
    while current < |input|
      invariant current <= |input|
      invariant Tokenize(input) == Prepend(tokens, Tokenize(input[current..]))
      decreases |input| - current
    {
      var c := input[current];
      TokenizeAt(input, current);
      if c == '(' || c == ')' {
        var t := if c == '(' then Open else Close;
        PrependPrepend(tokens, [t], Tokenize(input[current + 1..]));
        tokens := tokens + [t];
        current := current + 1;
      } else if IsWhitespace(c) {
        current := current + 1;
      } else if IsDigit(c) || IsLetter(c) {
        var kind := if IsDigit(c) then Number else Name;
        var value, end := ReadRun(input, current, if IsDigit(c) then IsDigit else IsLetter);
        TokenizeAtRun(input, current, end - current);
        if end == |input| {
          // `input[++current]` reads one past the last character.
          PrependErr(tokens, Tokenize(input[current..]));
          return Err(UnexpectedEnd);
        }
        PrependPrepend(tokens, [Token(kind, value)], Tokenize(input[end..]));
        tokens := tokens + [Token(kind, value)];
        current := end;
      } else {
        return Err(UnknownCharacter(c));
      }
    }
    assert input[current..] == [];
    r := Ok(tokens);
    assert tokens + [] == tokens;
  }

  /** The inner loop over a digit or letter run; it stops at the first
      character outside the class, or at the end of the input, where the
      source would read past it. */
  method ReadRun(input: string, start: nat, p: char -> bool) returns (value: string, current: nat)
    requires start < |input| && p(input[start])
    ensures current == start + Span(input[start..], p)
    ensures value == input[start..current]
  {
    current := start;
    value := "";
    var c := input[current];
    while p(c)
      invariant start <= current < |input|
      invariant value == input[start..current]
      invariant c == input[current]
      invariant All(value, p)
      decreases |input| - current
    {
      value := value + [c];
      current := current + 1;
      if current == |input| {
        assert input[start..] == value + "";
        SpanOfRun(value, "", p);
        return;
      }
      c := input[current];
    }
    assert input[start..] == value + input[current..];
    SpanOfRun(value, input[current..], p);
  }

  /** One step of the scan at a character that is not the start of a run. */
  lemma TokenizeAt(input: string, current: nat)
    requires current < |input|
    ensures input[current] == '(' ==> Tokenize(input[current..]) == Prepend([Open], Tokenize(input[current + 1..]))
    ensures input[current] == ')' ==> Tokenize(input[current..]) == Prepend([Close], Tokenize(input[current + 1..]))
    ensures IsWhitespace(input[current]) ==> Tokenize(input[current..]) == Tokenize(input[current + 1..])
    ensures !Known(input[current]) ==> Tokenize(input[current..]) == Err(UnknownCharacter(input[current]))
  {
    assert input[current..][0] == input[current];
    assert input[current..][1..] == input[current + 1..];
  }

  /** One digit or letter run at `start`, of length `n`. */
  lemma TokenizeAtRun(input: string, start: nat, n: nat)
    requires start < |input| && (IsDigit(input[start]) || IsLetter(input[start]))
    requires n == Span(input[start..], if IsDigit(input[start]) then IsDigit else IsLetter)
    ensures start + n == |input| ==> Tokenize(input[start..]) == Err(UnexpectedEnd)
    ensures start + n < |input| ==>
      Tokenize(input[start..])
      == Prepend([Token(if IsDigit(input[start]) then Number else Name, input[start..start + n])],
                 Tokenize(input[start + n..]))
  {
    var s := input[start..];
    assert s[0] == input[start];
    if start + n < |input| {
      assert s[..n] == input[start..start + n];
      assert s[n..] == input[start + n..];
    }
  }

  lemma PrependErr(xs: seq<Token>, r: Result<seq<Token>, Error>)
    requires r.Err?
    ensures Prepend(xs, r) == r
  {
  }
}
