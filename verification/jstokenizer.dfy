/** The JavaScript tokenizer: the forward tokenizer hardened with source
    positions and string literals. A cursor `Position` carries the index,
    the line and the column; `(`, `)`, digit runs, letter runs and
    double-quoted strings become tokens with a start and an end position,
    whitespace is skipped (a line feed moves to the next line), and any
    other character is an error. Unlike the C# tokenizer, a run that reaches
    the end of the input ends cleanly. */
module JsTokenizer {
  import opened Wrappers
  import opened Chars

  datatype Position = Position(index: nat, line: nat, column: nat)
  {
    /** One character to the right on the same line. */
    function NextCh(): Position {
      Position(index + 1, line, column + 1)
    }

    /** The start of the next line; the index is not moved. */
    function NextLine(): Position {
      Position(index, line + 1, 1)
    }

    /** `n` characters to the right on the same line. */
    function Advance(n: nat): (p: Position)
      ensures n == 0 ==> p == this
    {
      Position(index + n, line, column + n)
    }
  }

  const Origin := Position(0, 1, 1)

  datatype Kind = Paren | Number | Str | Name

  datatype Token = Token(kind: Kind, value: string, start: Position, end: Position)

  datatype Error =
    | UnterminatedString(start: Position, at: Position)
    | UnknownCharacter(c: char, at: Position)

  predicate NotQuote(c: char) {
    c != '"'
  }

  /** A character some rule of the tokenizer starts on. */
  predicate Known(c: char) {
    c == '(' || c == ')' || IsWhitespace(c) || IsDigit(c) || c == '"' || IsLetter(c)
  }

  /** A run token: a maximal non-empty run of class `p`, spelled by the
      input between its start and end. */
  predicate RunToken(input: string, t: Token, p: char -> bool) {
    && t.start.index < t.end.index <= |input|
    && t.value == input[t.start.index..t.end.index]
    && All(t.value, p)
    && (t.end.index == |input| || !p(input[t.end.index]))
  }

  /** What each token says about the input it was read from. Every token
      stays on its start line and its end column is as far right of its
      start column as its end index is of its start index. */
  predicate Spells(input: string, t: Token) {
    && t.end.line == t.start.line
    && t.end.column - t.start.column == t.end.index - t.start.index
    && match t.kind
       case Paren =>
         && t.start.index < |input|
         && t.value == [input[t.start.index]]
         && ((t.value == "(" && t.end == t.start) || (t.value == ")" && t.end == t.start.NextCh()))
       case Number => RunToken(input, t, IsDigit)
       case Name => RunToken(input, t, IsLetter)
       case Str =>
         && t.start.index + 2 <= t.end.index <= |input|
         && input[t.start.index] == '"' && input[t.end.index - 1] == '"'
         && t.value == input[t.start.index + 1..t.end.index - 1]
         && All(t.value, NotQuote)
  }

  /** Token starts strictly increase. */
  predicate Increasing(ts: seq<Token>) {
    forall i, j | 0 <= i < j < |ts| :: ts[i].start.index < ts[j].start.index
  }

  /** What an error says about the input: an unknown character at its
      position, or an opening quote with no closing quote after it, reported
      at the last character. */
  predicate Explains(input: string, from: nat, e: Error) {
    match e
    case UnknownCharacter(c, at) =>
      from <= at.index < |input| && input[at.index] == c && !Known(c)
    case UnterminatedString(start, at) =>
      && from <= start.index < |input|
      && input[start.index] == '"'
      && All(input[start.index + 1..], NotQuote)
      && at.index == |input| - 1 && at.line == start.line
  }

  /** One turn of the tokenizer's loop at a cursor inside the input: the
      token read there, if any, and the cursor after it. */
  function Step(input: string, cur: Position): (r: Result<(seq<Token>, Position), Error>)
    requires cur.index < |input|
    ensures r.Ok? ==> cur.index < r.value.1.index <= |input|
    ensures r.Ok? ==> |r.value.0| <= 1
    ensures r.Ok? ==> forall t | t in r.value.0 :: Spells(input, t) && t.start == cur
    ensures r.Err? ==> Explains(input, cur.index, r.error)
  {
    var c := input[cur.index];
    if c == '(' then Ok(([Token(Paren, "(", cur, cur)], cur.NextCh()))
    else if c == ')' then Ok(([Token(Paren, ")", cur, cur.NextCh())], cur.NextCh()))
    else if IsWhitespace(c) then
      Ok(([], if c == '\n' then cur.NextCh().NextLine() else cur.NextCh()))
    else if IsDigit(c) then Ok(ReadRun(input, cur, Number, IsDigit))
    else if c == '"' then ReadString(input, cur)
    else if IsLetter(c) then Ok(ReadRun(input, cur, Name, IsLetter))
    else Err(UnknownCharacter(c, cur))
  }

  /** A number or name: the maximal run of class `p` at the cursor. */
  function ReadRun(input: string, cur: Position, kind: Kind, p: char -> bool): (r: (seq<Token>, Position))
    requires cur.index < |input| && p(input[cur.index])
    requires kind == Number ==> p == IsDigit
    requires kind == Name ==> p == IsLetter
    requires kind == Number || kind == Name
    ensures cur.index < r.1.index <= |input|
    ensures |r.0| == 1 && r.0[0].kind == kind && r.0[0].start == cur && r.0[0].end == r.1
    ensures RunToken(input, r.0[0], p) && Spells(input, r.0[0])
  {
    var end := cur.Advance(Span(input[cur.index..], p));
    ([Token(kind, input[cur.index..end.index], cur, end)], end)
  }

  /** A string: the text up to the next quote, which must exist. */
  function ReadString(input: string, cur: Position): (r: Result<(seq<Token>, Position), Error>)
    requires cur.index < |input| && input[cur.index] == '"'
    ensures r.Ok? ==> r.value.1.index <= |input|
    ensures r.Ok? ==> |r.value.0| == 1 && Spells(input, r.value.0[0]) && r.value.0[0].start == cur
    ensures r.Err? ==> Explains(input, cur.index, r.error)
  {
    var n := Span(input[cur.index + 1..], NotQuote);
    if cur.index + 1 + n == |input| then
      Err(UnterminatedString(cur, cur.Advance(|input| - 1 - cur.index)))
    else
      var end := cur.Advance(n + 2);
      Ok(([Token(Str, input[cur.index + 1..cur.index + 1 + n], cur, end)], end))
  }

  /** The tokenizer's loop from cursor `cur` to the end of the input. */
  function Scan(input: string, cur: Position): (r: Result<seq<Token>, Error>)
    requires cur.index <= |input|
    ensures r.Ok? ==> forall t | t in r.value :: Spells(input, t) && cur.index <= t.start.index
    ensures r.Ok? ==> Increasing(r.value)
    ensures r.Err? ==> Explains(input, cur.index, r.error)
    decreases |input| - cur.index
  {
    if cur.index == |input| then Ok([])
    else
      var step :- Step(input, cur);
      var rest :- Scan(input, step.1);
      Ok(step.0 + rest)
  }

  function Tokenize(input: string): Result<seq<Token>, Error>
  {
    Scan(input, Origin)
  }

  // ---- positions against an independent account of lines and columns ----

  /** The line of the character after `s`: one more than its line feeds. */
  function LineOf(s: string): nat {
    1 + Count(s, '\n')
  }

  /** The column of the character after `s`: one more than the number of
      characters since its last line feed. */
  function ColumnOf(s: string): nat
    decreases |s|
  {
    if |s| == 0 || s[|s| - 1] == '\n' then 1 else ColumnOf(s[..|s| - 1]) + 1
  }

  /** Where index `i` of the input lies. */
  function Where(input: string, i: nat): Position
    requires i <= |input|
  {
    Position(i, LineOf(input[..i]), ColumnOf(input[..i]))
  }

  /** No string token holds a line feed: the only way the source's
      positions leave the true line and column. */
  predicate NoLineFeedInStrings(ts: seq<Token>) {
    forall t | t in ts && t.kind == Str :: '\n' !in t.value
  }

  predicate AtWhere(input: string, t: Token) {
    && t.start.index <= |input| && t.end.index <= |input|
    && t.start == Where(input, t.start.index)
    && t.end == Where(input, t.end.index)
  }

  /** Moving over one character is `nextCh`, followed by `nextLine` for a
      line feed. */
  lemma WhereStep(input: string, i: nat)
    requires i < |input|
    ensures Where(input, i + 1)
            == if input[i] == '\n' then Where(input, i).NextCh().NextLine() else Where(input, i).NextCh()
  {
    var s := input[..i];
    assert input[..i + 1] == s + [input[i]];
    assert (s + [input[i]])[..|s|] == s;
    CountConcat(s, [input[i]], '\n');
  }

  lemma {:induction false} WhereRun(input: string, i: nat, n: nat)
    requires i + n <= |input|
    requires forall k | i <= k < i + n :: input[k] != '\n'
    ensures Where(input, i + n) == Where(input, i).Advance(n)
  {
    if n > 0 {
      WhereRun(input, i, n - 1);
      WhereStep(input, i + n - 1);
    }
  }

  /** Started at its true position, every token's start and end are where
      they lie in the input, whenever no string token holds a line feed. */
  lemma {:induction false} ScanTracksPositions(input: string, cur: Position)
    requires cur.index <= |input| && cur == Where(input, cur.index)
    ensures Scan(input, cur).Ok? && NoLineFeedInStrings(Scan(input, cur).value) ==>
              forall t | t in Scan(input, cur).value :: AtWhere(input, t)
    decreases |input| - cur.index
  {
    if cur.index < |input| && Scan(input, cur).Ok? && NoLineFeedInStrings(Scan(input, cur).value) {
      var step := Step(input, cur).value;
      var rest := Scan(input, step.1).value;
      assert Scan(input, cur).value == step.0 + rest;
      StepTracksPositions(input, cur);
      ScanTracksPositions(input, step.1);
    }
  }

  /** One turn keeps the cursor at the true position, and its token, unless
      it is a string holding a line feed, lies where its positions say. */
  lemma StepTracksPositions(input: string, cur: Position)
    requires cur.index < |input| && cur == Where(input, cur.index)
    requires Step(input, cur).Ok?
    ensures var step := Step(input, cur).value;
            NoLineFeedInStrings(step.0) ==>
              step.1 == Where(input, step.1.index) && forall t | t in step.0 :: AtWhere(input, t)
  {
    var i := cur.index;
    var c := input[i];
    if c == '(' || c == ')' || IsWhitespace(c) {
      WhereStep(input, i);
    } else if IsDigit(c) {
      assert Step(input, cur) == Ok(ReadRun(input, cur, Number, IsDigit));
      RunTracksPositions(input, cur, Number, IsDigit);
    } else if c == '"' {
      assert Step(input, cur) == ReadString(input, cur);
      StringTracksPositions(input, cur);
    } else {
      assert Step(input, cur) == Ok(ReadRun(input, cur, Name, IsLetter));
      RunTracksPositions(input, cur, Name, IsLetter);
    }
  }

  /** A number or name run holds no line feed, so it stays on its line. */
  lemma RunTracksPositions(input: string, cur: Position, kind: Kind, p: char -> bool)
    requires cur.index < |input| && cur == Where(input, cur.index) && p(input[cur.index])
    requires kind == Number ==> p == IsDigit
    requires kind == Name ==> p == IsLetter
    requires kind == Number || kind == Name
    ensures var step := ReadRun(input, cur, kind, p);
            step.1 == Where(input, step.1.index) && forall t | t in step.0 :: AtWhere(input, t)
  {
    var step := ReadRun(input, cur, kind, p);
    var t := step.0[0];
    var n := step.1.index - cur.index;
    forall k | cur.index <= k < cur.index + n
      ensures input[k] != '\n'
    {
      assert input[k] == t.value[k - cur.index];
      assert p(t.value[k - cur.index]);
    }
    WhereRun(input, cur.index, n);
  }

  /** A string without a line feed spans its characters on one line. */
  lemma StringTracksPositions(input: string, cur: Position)
    requires cur.index < |input| && cur == Where(input, cur.index)
    requires input[cur.index] == '"' && ReadString(input, cur).Ok?
    ensures var step := ReadString(input, cur).value;
            NoLineFeedInStrings(step.0) ==>
              step.1 == Where(input, step.1.index) && forall t | t in step.0 :: AtWhere(input, t)
  {
    var i := cur.index;
    var step := ReadString(input, cur).value;
    var t := step.0[0];
    var n := t.end.index - i;
    if '\n' !in t.value {
      forall k | i <= k < i + n
        ensures input[k] != '\n'
      {
        if i < k < i + n - 1 {
          assert input[k] == t.value[k - i - 1];
        }
      }
      WhereRun(input, i, n);
    }
  }

  // ---- one turn of the loop, for stepping through concrete inputs ----

  /** One turn of the loop followed by the rest of the scan. */
  lemma ScanStep(input: string, cur: Position, step: (seq<Token>, Position))
    requires cur.index < |input|
    requires Step(input, cur) == Ok(step) && step.1.index <= |input|
    ensures Scan(input, cur) == Prepend(step.0, Scan(input, step.1))
  {
  }

  lemma ScanParen(input: string, cur: Position)
    requires cur.index < |input| && input[cur.index] == '('
    ensures Scan(input, cur) == Prepend([Token(Paren, "(", cur, cur)], Scan(input, cur.NextCh()))
  {
    ScanStep(input, cur, ([Token(Paren, "(", cur, cur)], cur.NextCh()));
  }

  lemma ScanSpace(input: string, cur: Position)
    requires cur.index < |input| && IsWhitespace(input[cur.index]) && input[cur.index] != '\n'
    ensures Scan(input, cur) == Scan(input, cur.NextCh())
  {
    ScanStep(input, cur, ([], cur.NextCh()));
    PrependEmpty(Scan(input, cur.NextCh()));
  }

  lemma ScanRun(input: string, cur: Position, w: string, kind: Kind, p: char -> bool)
    requires (kind == Number && p == IsDigit) || (kind == Name && p == IsLetter)
    requires |w| > 0 && All(w, p)
    requires cur.index + |w| <= |input| && input[cur.index..cur.index + |w|] == w
    requires cur.index + |w| == |input| || !p(input[cur.index + |w|])
    ensures Scan(input, cur)
            == Prepend([Token(kind, w, cur, cur.Advance(|w|))], Scan(input, cur.Advance(|w|)))
  {
    ReadRunOf(input, cur, w, kind, p);
    assert input[cur.index] == w[0];
    StepRun(input, cur, kind, p);
    ScanStep(input, cur, ReadRun(input, cur, kind, p));
  }

  /** A run read before an error: the error is the scan's. */
  lemma ScanRunErr(input: string, cur: Position, w: string, kind: Kind, p: char -> bool, e: Error)
    requires (kind == Number && p == IsDigit) || (kind == Name && p == IsLetter)
    requires |w| > 0 && All(w, p)
    requires cur.index + |w| <= |input| && input[cur.index..cur.index + |w|] == w
    requires cur.index + |w| == |input| || !p(input[cur.index + |w|])
    requires Scan(input, cur.Advance(|w|)) == Err(e)
    ensures Scan(input, cur) == Err(e)
  {
    ScanRun(input, cur, w, kind, p);
  }

  /** An opening paren read before an error: the error is the scan's. */
  lemma ScanParenErr(input: string, cur: Position, e: Error)
    requires cur.index < |input| && input[cur.index] == '('
    requires Scan(input, cur.NextCh()) == Err(e)
    ensures Scan(input, cur) == Err(e)
  {
    ScanParen(input, cur);
  }

  lemma ScanNameErr(input: string, cur: Position, w: string, e: Error)
    requires |w| > 0 && All(w, IsLetter)
    requires cur.index + |w| <= |input| && input[cur.index..cur.index + |w|] == w
    requires cur.index + |w| == |input| || !IsLetter(input[cur.index + |w|])
    requires Scan(input, cur.Advance(|w|)) == Err(e)
    ensures Scan(input, cur) == Err(e)
  {
    ScanRunErr(input, cur, w, Name, IsLetter, e);
  }

  lemma ScanNumberErr(input: string, cur: Position, w: string, e: Error)
    requires |w| > 0 && All(w, IsDigit)
    requires cur.index + |w| <= |input| && input[cur.index..cur.index + |w|] == w
    requires cur.index + |w| == |input| || !IsDigit(input[cur.index + |w|])
    requires Scan(input, cur.Advance(|w|)) == Err(e)
    ensures Scan(input, cur) == Err(e)
  {
    ScanRunErr(input, cur, w, Number, IsDigit, e);
  }

  /** The loop's turn on a digit or a letter reads a run. */
  lemma StepRun(input: string, cur: Position, kind: Kind, p: char -> bool)
    requires (kind == Number && p == IsDigit) || (kind == Name && p == IsLetter)
    requires cur.index < |input| && p(input[cur.index])
    ensures Step(input, cur) == Ok(ReadRun(input, cur, kind, p))
  {
  }

  lemma ReadRunOf(input: string, cur: Position, w: string, kind: Kind, p: char -> bool)
    requires (kind == Number && p == IsDigit) || (kind == Name && p == IsLetter)
    requires |w| > 0 && All(w, p)
    requires cur.index + |w| <= |input| && input[cur.index..cur.index + |w|] == w
    requires cur.index + |w| == |input| || !p(input[cur.index + |w|])
    ensures ReadRun(input, cur, kind, p) == ([Token(kind, w, cur, cur.Advance(|w|))], cur.Advance(|w|))
  {
    var rest := input[cur.index + |w|..];
    assert input[cur.index..] == w + rest;
    SpanOfRun(w, rest, p);
  }

  lemma ScanString(input: string, cur: Position, w: string)
    requires All(w, NotQuote)
    requires cur.index + |w| + 1 < |input| && input[cur.index] == '"'
    requires input[cur.index + 1..cur.index + 1 + |w|] == w && input[cur.index + 1 + |w|] == '"'
    ensures Scan(input, cur)
            == Prepend([Token(Str, w, cur, cur.Advance(|w| + 2))], Scan(input, cur.Advance(|w| + 2)))
  {
    ReadStringOf(input, cur, w);
    assert Step(input, cur) == ReadString(input, cur);
    ScanStep(input, cur, ([Token(Str, w, cur, cur.Advance(|w| + 2))], cur.Advance(|w| + 2)));
  }

  lemma ReadStringOf(input: string, cur: Position, w: string)
    requires All(w, NotQuote)
    requires cur.index + |w| + 1 < |input| && input[cur.index] == '"'
    requires input[cur.index + 1..cur.index + 1 + |w|] == w && input[cur.index + 1 + |w|] == '"'
    ensures ReadString(input, cur) == Ok(([Token(Str, w, cur, cur.Advance(|w| + 2))], cur.Advance(|w| + 2)))
  {
    var a := cur.index + 1;
    var b := a + |w|;
    var rest := input[b..];
    assert input[a..] == input[a..b] + rest;
    assert rest[0] == input[b];
    SpanOfRun(w, rest, NotQuote);
  }
}
