/** The Python `tokenize` over a `BacktrackingGenerator`. Whitespace is
    skipped, `(` and `)` become paren tokens, a digit or letter starts a run
    that `take_while` extends as far as the class goes (a digit run's value
    is its `int`), and any other character raises. The generator's pushback
    becomes a cursor that `take_while` leaves on the first character it
    rejects; a run that reaches the end of the input ends cleanly. */
module PyTokenizer {
  import opened Wrappers
  import opened Chars
  import opened Syntax
  import opened PyNumbers
  import Tokenizer

  /** A Python token value: the text of a paren or name, the `int` of a
      number. */
  datatype Value = Str(s: string) | Int(n: nat)

  datatype PyToken = PyToken(kind: TokenKind, value: Value)

  /** `take_while` on a generator positioned at index `i`: the longest run
      of characters from `i` on that satisfy `p`, after which the
      generator is positioned on the first character that does not. */
  function TakeWhile(s: string, i: nat, p: char -> bool): (r: (string, nat))
    requires i <= |s|
    ensures i <= r.1 <= |s| && r.0 == s[i..r.1]
    ensures All(r.0, p)
    ensures r.1 < |s| ==> !p(s[r.1])
  {
    var n := Span(s[i..], p);
    (s[i..i + n], i + n)
  }

  /** What `tokenize` can yield. */
  predicate WellFormed(t: PyToken) {
    match t.kind
    case Paren => t.value == Str("(") || t.value == Str(")")
    case Number => t.value.Int?
    case Name => t.value.Str? && |t.value.s| > 0 && All(t.value.s, IsLetter)
  }

  /** `tokenize` from index `i`: one step of the `for char in char_gen`
      loop, then the rest. */
  function Scan(input: string, i: nat): (r: Result<seq<PyToken>, Error>)
    requires i <= |input|
    ensures r.Ok? ==> forall t | t in r.value :: WellFormed(t)
    ensures r.Err? ==> r.error.UnknownCharacter? && r.error.c in input[i..] && !Tokenizer.Known(r.error.c)
    decreases |input| - i
  {
    if i == |input| then Ok([])
    else
      var c := input[i];
      if IsWhitespace(c) then Scan(input, i + 1)
      else if c == '(' || c == ')' then Prepend([PyToken(Paren, Str([c]))], Scan(input, i + 1))
      else if IsDigit(c) then
        var tail := TakeWhile(input, i + 1, IsDigit);
        Prepend([PyToken(Number, Int(DecimalValue([c] + tail.0)))], Scan(input, tail.1))
      else if IsLetter(c) then
        var tail := TakeWhile(input, i + 1, IsLetter);
        Prepend([PyToken(Name, Str([c] + tail.0))], Scan(input, tail.1))
      else Err(UnknownCharacter(c))
  }

  function Tokenize(input: string): Result<seq<PyToken>, Error>
  {
    Scan(input, 0)
  }

  /** The Python tokenizer fails exactly on text with a character no rule
      accepts; unlike the C# one it never runs off the end. */
  lemma {:induction false} ScanSucceedsIff(input: string, i: nat)
    requires i <= |input|
    ensures Scan(input, i).Ok? <==> All(input[i..], Tokenizer.Known)
    decreases |input| - i
  {
    if i < |input| {
      var c := input[i];
      var next := i + 1;
      if IsDigit(c) {
        next := TakeWhile(input, i + 1, IsDigit).1;
      } else if IsLetter(c) {
        next := TakeWhile(input, i + 1, IsLetter).1;
      }
      if Tokenizer.Known(c) {
        ScanSucceedsIff(input, next);
        KnownSplit(input, i, next);
      }
    }
  }

  /** Known characters from `i` on are known ones up to `j` and from `j` on;
      the ones from `i` to `j` are known when they are all one class. */
  lemma KnownSplit(input: string, i: nat, j: nat)
    requires i < j <= |input|
    requires forall k | i <= k < j :: Tokenizer.Known(input[k])
    ensures All(input[i..], Tokenizer.Known) <==> All(input[j..], Tokenizer.Known)
  {
    if All(input[j..], Tokenizer.Known) {
      forall k | 0 <= k < |input[i..]|
        ensures Tokenizer.Known(input[i..][k])
      {
        if i + k >= j {
          assert input[i..][k] == input[j..][i + k - j];
        }
      }
    }
  }

  lemma TokenizeSucceedsIff(input: string)
    ensures Tokenize(input).Ok? <==> All(input, Tokenizer.Known)
  {
    ScanSucceedsIff(input, 0);
    assert input[0..] == input;
  }

  /** `next` yields `'a'`, `take_while` up to `'e'` yields `"bcd"`, and the
      rejected `'e'` is what `next` yields after that. */
  lemma TakeWhileExample()
    ensures var s := "abcde";
            var r := TakeWhile(s, 1, c => c != 'e');
            s[0] == 'a' && r.0 == "bcd" && s[r.1] == 'e'
  {
    var s := "abcde";
    assert s[1..] == "bcd" + "e";
    SpanOfRun("bcd", "e", c => c != 'e');
  }

  /** The Python token for a C# token: numbers carry their `int`. */
  function Convert(t: Token): PyToken {
    if t.kind == Number then PyToken(Number, Int(DecimalValue(t.value)))
    else PyToken(t.kind, Str(t.value))
  }

  function ConvertAll(ts: seq<Token>): (r: seq<PyToken>)
    ensures |r| == |ts|
    ensures forall k | 0 <= k < |ts| :: r[k] == Convert(ts[k])
  {
    if |ts| == 0 then [] else [Convert(ts[0])] + ConvertAll(ts[1..])
  }

  /** Wherever the C# tokenizer succeeds, the Python tokenizer reads the
      same tokens, with each number's digits replaced by their value. */
  lemma {:induction false} ScanAgrees(input: string, i: nat)
    requires i <= |input|
    requires Tokenizer.Tokenize(input[i..]).Ok?
    ensures Scan(input, i) == Ok(ConvertAll(Tokenizer.Tokenize(input[i..]).value))
    decreases |input| - i
  {
    if i < |input| {
      var next, head := StepBoth(input, i);
      ScanAgrees(input, next);
      ConvertConcat(head, Tokenizer.Tokenize(input[next..]).value);
    }
  }

  /** One step of both tokenizers from index `i`: the C# tokens read and
      where both continue. */
  lemma StepBoth(input: string, i: nat) returns (next: nat, head: seq<Token>)
    requires i < |input|
    requires Tokenizer.Tokenize(input[i..]).Ok?
    ensures i < next <= |input|
    ensures Tokenizer.Tokenize(input[i..]) == Prepend(head, Tokenizer.Tokenize(input[next..]))
    ensures Scan(input, i) == Prepend(ConvertAll(head), Scan(input, next))
  {
    if IsDigit(input[i]) || IsLetter(input[i]) {
      next, head := StepBothRun(input, i);
    } else {
      next, head := StepBothChar(input, i);
    }
  }

  lemma StepBothRun(input: string, i: nat) returns (next: nat, head: seq<Token>)
    requires i < |input| && (IsDigit(input[i]) || IsLetter(input[i]))
    requires Tokenizer.Tokenize(input[i..]).Ok?
    ensures i < next <= |input|
    ensures Tokenizer.Tokenize(input[i..]) == Prepend(head, Tokenizer.Tokenize(input[next..]))
    ensures Scan(input, i) == Prepend(ConvertAll(head), Scan(input, next))
  {
    next, head := CsRun(input, i);
    PyRun(input, i, next, head);
  }

  lemma CsRun(input: string, i: nat) returns (next: nat, head: seq<Token>)
    requires i < |input| && (IsDigit(input[i]) || IsLetter(input[i]))
    requires Tokenizer.Tokenize(input[i..]).Ok?
    ensures i < next <= |input|
    ensures next == i + Span(input[i..], if IsDigit(input[i]) then IsDigit else IsLetter)
    ensures head == [Token(if IsDigit(input[i]) then Number else Name, input[i..next])]
    ensures Tokenizer.Tokenize(input[i..]) == Prepend(head, Tokenizer.Tokenize(input[next..]))
  {
    var n := Span(input[i..], if IsDigit(input[i]) then IsDigit else IsLetter);
    Tokenizer.TokenizeAtRun(input, i, n);
    next := i + n;
    head := [Token(if IsDigit(input[i]) then Number else Name, input[i..next])];
  }

  lemma PyRun(input: string, i: nat, next: nat, head: seq<Token>)
    requires i < |input| && (IsDigit(input[i]) || IsLetter(input[i]))
    requires next == i + Span(input[i..], if IsDigit(input[i]) then IsDigit else IsLetter)
    requires head == [Token(if IsDigit(input[i]) then Number else Name, input[i..next])]
    ensures Scan(input, i) == Prepend(ConvertAll(head), Scan(input, next))
  {
    if IsDigit(input[i]) {
      PyNumber(input, i, next, head);
    } else {
      PyName(input, i, next, head);
    }
  }

  lemma PyNumber(input: string, i: nat, next: nat, head: seq<Token>)
    requires i < |input| && IsDigit(input[i])
    requires next == i + Span(input[i..], IsDigit) && head == [Token(Number, input[i..next])]
    ensures Scan(input, i) == Prepend(ConvertAll(head), Scan(input, next))
  {
    var n := TakeWhileRest(input, i, IsDigit);
    ScanDigit(input, i);
    ConvertOne(head[0]);
  }

  lemma PyName(input: string, i: nat, next: nat, head: seq<Token>)
    requires i < |input| && IsLetter(input[i]) && !IsDigit(input[i])
    requires next == i + Span(input[i..], IsLetter) && head == [Token(Name, input[i..next])]
    ensures Scan(input, i) == Prepend(ConvertAll(head), Scan(input, next))
  {
    var n := TakeWhileRest(input, i, IsLetter);
    ScanLetter(input, i);
    ConvertOne(head[0]);
  }

  lemma ConvertOne(t: Token)
    ensures ConvertAll([t]) == [Convert(t)]
  {
  }

  lemma StepBothChar(input: string, i: nat) returns (next: nat, head: seq<Token>)
    requires i < |input| && !IsDigit(input[i]) && !IsLetter(input[i])
    requires Tokenizer.Tokenize(input[i..]).Ok?
    ensures i < next <= |input|
    ensures Tokenizer.Tokenize(input[i..]) == Prepend(head, Tokenizer.Tokenize(input[next..]))
    ensures Scan(input, i) == Prepend(ConvertAll(head), Scan(input, next))
  {
    var c := input[i];
    Tokenizer.TokenizeAt(input, i);
    next := i + 1;
    if IsWhitespace(c) {
      head := [];
      assert Scan(input, i) == Scan(input, next);
      PrependEmpty(Scan(input, next));
      PrependEmpty(Tokenizer.Tokenize(input[next..]));
    } else {
      assert c == '(' || c == ')';
      head := [Token(Paren, [c])];
      assert ConvertAll(head) == [PyToken(Paren, Str([c]))];
    }
  }

  lemma ConvertConcat(a: seq<Token>, b: seq<Token>)
    ensures ConvertAll(a + b) == ConvertAll(a) + ConvertAll(b)
  {
  }

  /** `take_while` after the first character of a run reads the rest of
      the maximal run. */
  lemma TakeWhileRest(input: string, i: nat, p: char -> bool) returns (n: nat)
    requires i < |input| && p(input[i])
    ensures n == Span(input[i..], p) && i + n <= |input|
    ensures TakeWhile(input, i + 1, p) == (input[i + 1..i + n], i + n)
    ensures [input[i]] + input[i + 1..i + n] == input[i..i + n]
  {
    var s := input[i..];
    assert s[1..] == input[i + 1..];
    n := Span(s, p);
    assert n == 1 + Span(s[1..], p);
  }

  /** The step of `Scan` on a digit. */
  lemma ScanDigit(input: string, i: nat)
    requires i < |input| && IsDigit(input[i])
    ensures var tail := TakeWhile(input, i + 1, IsDigit);
            Scan(input, i) == Prepend([PyToken(Number, Int(DecimalValue([input[i]] + tail.0)))], Scan(input, tail.1))
  {
  }

  /** The step of `Scan` on a letter. */
  lemma ScanLetter(input: string, i: nat)
    requires i < |input| && IsLetter(input[i]) && !IsDigit(input[i])
    ensures var tail := TakeWhile(input, i + 1, IsLetter);
            Scan(input, i) == Prepend([PyToken(Name, Str([input[i]] + tail.0))], Scan(input, tail.1))
  {
  }

  lemma TokenizeAgrees(input: string)
    requires Tokenizer.Tokenize(input).Ok?
    ensures Tokenize(input) == Ok(ConvertAll(Tokenizer.Tokenize(input).value))
  {
    assert input[0..] == input;
    ScanAgrees(input, 0);
  }
}
