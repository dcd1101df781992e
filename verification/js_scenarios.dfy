/** Worked examples of the JavaScript tokenizer's positions and errors,
    stepped one turn of the loop at a time. */
module JsScenarios {
  import opened Wrappers
  import opened Chars
  import opened JsTokenizer
  import Syntax
  import CsTokenizer = Tokenizer

  const Bad := "(add 2 @)"
  const BadError: Result<seq<Token>, Error> := Err(UnknownCharacter('@', Position(7, 1, 8)))

  /** An unknown character is reported at its line and column. */
  lemma UnknownAt()
    ensures Tokenize(Bad) == BadError
  {
    BadFrom1();
    ScanParenErr(Bad, Origin, UnknownCharacter('@', Position(7, 1, 8)));
  }

  lemma BadFrom1()
    ensures Scan(Bad, Position(1, 1, 2)) == BadError
  {
    assert Bad[1..4] == "add";
    assert All("add", IsLetter);
    BadFrom4();
    ScanNameErr(Bad, Position(1, 1, 2), "add", UnknownCharacter('@', Position(7, 1, 8)));
  }

  lemma BadFrom4()
    ensures Scan(Bad, Position(4, 1, 5)) == BadError
  {
    assert Bad[5..6] == "2";
    assert All("2", IsDigit);
    assert Step(Bad, Position(7, 1, 8)) == Err(UnknownCharacter('@', Position(7, 1, 8)));
    ScanSpace(Bad, Position(6, 1, 7));
    ScanNumberErr(Bad, Position(5, 1, 6), "2", UnknownCharacter('@', Position(7, 1, 8)));
    ScanSpace(Bad, Position(4, 1, 5));
  }

  const Unterminated := "(f \"abc)"

  /** An opening quote without a closing one is reported from the quote to
      the last character. */
  lemma UnterminatedAt()
    ensures Tokenize(Unterminated) == Err(UnterminatedString(Position(3, 1, 4), Position(7, 1, 8)))
  {
    UnterminatedFrom1();
    ScanParenErr(Unterminated, Origin, UnterminatedString(Position(3, 1, 4), Position(7, 1, 8)));
  }

  lemma UnterminatedFrom1()
    ensures Scan(Unterminated, Position(1, 1, 2)) == Err(UnterminatedString(Position(3, 1, 4), Position(7, 1, 8)))
  {
    assert Unterminated[1..2] == "f";
    assert All("f", IsLetter);
    UnterminatedStep();
    ScanSpace(Unterminated, Position(2, 1, 3));
    ScanNameErr(Unterminated, Position(1, 1, 2), "f", UnterminatedString(Position(3, 1, 4), Position(7, 1, 8)));
  }

  lemma UnterminatedStep()
    ensures Step(Unterminated, Position(3, 1, 4)) == Err(UnterminatedString(Position(3, 1, 4), Position(7, 1, 8)))
  {
    assert Unterminated[4..] == "abc)" + "";
    assert All("abc)", NotQuote);
    SpanOfRun("abc)", "", NotQuote);
  }

  const Multiline := "\"a\nb\" x"

  /** A line feed inside a string literal does not move the cursor to the
      next line, so the name after the string is reported at line 1,
      column 7, though it lies at line 2, column 4. */
  lemma LineFeedInString()
    ensures Tokenize(Multiline)
            == Ok([Token(Str, "a\nb", Origin, Position(5, 1, 6)),
                   Token(Name, "x", Position(6, 1, 7), Position(7, 1, 8))])
    ensures Where(Multiline, 6) == Position(6, 2, 4)
  {
    var str := Token(Str, "a\nb", Origin, Position(5, 1, 6));
    var x := Token(Name, "x", Position(6, 1, 7), Position(7, 1, 8));
    MultilineFrom5();
    MultilineString();
    assert [str] + [x] == [str, x];
    MultilineWhere();
  }

  lemma MultilineString()
    ensures Scan(Multiline, Origin)
            == Prepend([Token(Str, "a\nb", Origin, Position(5, 1, 6))], Scan(Multiline, Position(5, 1, 6)))
  {
    assert Multiline[1..4] == "a\nb";
    assert All("a\nb", NotQuote);
    ScanString(Multiline, Origin, "a\nb");
  }

  lemma MultilineFrom5()
    ensures Scan(Multiline, Position(5, 1, 6)) == Ok([Token(Name, "x", Position(6, 1, 7), Position(7, 1, 8))])
  {
    var x := Token(Name, "x", Position(6, 1, 7), Position(7, 1, 8));
    assert Multiline[6..7] == "x";
    assert All("x", IsLetter);
    ScanRun(Multiline, Position(6, 1, 7), "x", Name, IsLetter);
    assert [x] + [] == [x];
    ScanSpace(Multiline, Position(5, 1, 6));
  }

  /** The true position of the name: line 2, after `b`, the quote and the
      space. */
  lemma MultilineWhere()
    ensures Where(Multiline, 6) == Position(6, 2, 4)
  {
    MultilineLineTwo();
    WhereRun(Multiline, 3, 3);
  }

  lemma MultilineLineTwo()
    ensures Where(Multiline, 3) == Position(3, 2, 1)
  {
    MultilineLineOne();
    assert Multiline[2] == '\n';
    WhereStep(Multiline, 2);
  }

  lemma MultilineLineOne()
    ensures Where(Multiline, 2) == Position(2, 1, 3)
  {
    assert Multiline[..0] == "";
    assert Where(Multiline, 0) == Origin;
    WhereRun(Multiline, 0, 2);
  }

  /** A digit run that reaches the end of the input ends cleanly here; the
      C# tokenizer reads past the end on the same input. */
  lemma RunAtEnd()
    ensures Tokenize("42") == Ok([Token(Number, "42", Origin, Position(2, 1, 3))])
    ensures CsTokenizer.Tokenize("42") == Err(Syntax.UnexpectedEnd)
  {
    JsRunAtEnd();
    CsRunAtEnd();
  }

  lemma JsRunAtEnd()
    ensures Tokenize("42") == Ok([Token(Number, "42", Origin, Position(2, 1, 3))])
  {
    var t := Token(Number, "42", Origin, Position(2, 1, 3));
    assert "42"[0..2] == "42";
    assert [t] + [] == [t];
    assert All("42", IsDigit);
    ScanRun("42", Origin, "42", Number, IsDigit);
  }

  lemma CsRunAtEnd()
    ensures CsTokenizer.Tokenize("42") == Err(Syntax.UnexpectedEnd)
  {
    assert "42" == "42" + "";
    assert All("42", IsDigit);
    SpanOfRun("42", "", IsDigit);
  }
}
