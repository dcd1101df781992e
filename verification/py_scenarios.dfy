/** The worked example of the Python test suite, stage by stage, and the
    inputs on which the Python and C# compilers part ways. */
module PyScenarios {
  import opened Wrappers
  import opened Chars
  import opened Syntax
  import opened Ast
  import opened PyTokenizer
  import Tokenizer
  import Parser
  import Transformer
  import CodeGenerator
  import DecodeGenerator
  import Compiler
  import RoundTrip
  import PyParser
  import PyGenerator
  import PyCompiler

  const Source := "(add 2 (subtract 4 2))"
  const Output := "add(2, subtract(4, 2));"

  /** The example as the C# model's tree. */
  const Inner: Parser.Node := Call("subtract", [Literal("4"), Literal("2")])
  const Sample: Parser.Program := LispProgram([Call("add", [Literal("2"), Inner])])

  /** The tokens the Python tokenizer yields for the example. */
  const SampleTokens := [
    PyParser.OpenToken, PyToken(Name, Str("add")), PyToken(Number, Int(2)),
    PyParser.OpenToken, PyToken(Name, Str("subtract")), PyToken(Number, Int(4)),
    PyToken(Number, Int(2)), PyParser.CloseToken, PyParser.CloseToken]

  /** The tree the Python parser builds for the example. */
  const PyInner: PyParser.Node := Call(Str("subtract"), [Literal(Int(4)), Literal(Int(2))])
  const PySample: PyParser.Program := LispProgram([Call(Str("add"), [Literal(Int(2)), PyInner])])

  /** The C tree the Python transformer builds for the example. */
  const PyCInner: PyGenerator.Node :=
    CallExpression(Identifier(Str("subtract")), [NumberLiteral(Int(4)), NumberLiteral(Int(2))])
  const PyCSample: PyGenerator.Program := CProgram([ExpressionStatement(
    CallExpression(Identifier(Str("add")), [NumberLiteral(Int(2)), PyCInner]))])

  lemma SampleIsGood()
    ensures RoundTrip.GoodProgram(Sample)
    ensures forall i | 0 <= i < |Sample.body| :: PyCompiler.NoLeadingZeros(Sample.body[i])
    ensures DecodeGenerator.DecodeGenerate(Sample) == Source
  {
    GoodLeaves();
    assert RoundTrip.GoodNode(Inner);
    assert RoundTrip.GoodNode(Sample.body[0]);
    assert PyCompiler.NoLeadingZeros(Inner);
    assert PyCompiler.NoLeadingZeros(Sample.body[0]);
    DecodeSample();
  }

  lemma DecodeSample()
    ensures DecodeGenerator.DecodeNode(Sample.body[0]) == Source
  {
    assert "(" + "add" + " " + ("2" + " " + "(subtract 4 2)") + ")" == Source;
    var inner := DecodeInner();
    assert DecodeGenerator.DecodeAll(Sample.body[0].params) == ["2", inner];
    assert Join(["2", inner], " ") == "2" + " " + inner;
  }

  lemma GoodLeaves()
    ensures All("add", IsLetter) && All("subtract", IsLetter)
    ensures PyNumbers.Canonical("2") && PyNumbers.Canonical("4")
    ensures ',' !in "add" && ',' !in "subtract"
  {
    assert "add"[0] == 'a' && "add"[1] == 'd' && "add"[2] == 'd';
    var s := "subtract";
    assert s[0] == 's' && s[1] == 'u' && s[2] == 'b' && s[3] == 't';
    assert s[4] == 'r' && s[5] == 'a' && s[6] == 'c' && s[7] == 't';
    assert "2"[0] == '2' && "4"[0] == '4';
  }

  lemma DecodeInner() returns (s: string)
    ensures DecodeGenerator.DecodeNode(Inner) == s == "(subtract 4 2)"
  {
    s := "(" + "subtract" + " " + ("4" + " " + "2") + ")";
    assert s == "(subtract 4 2)";
    assert DecodeGenerator.DecodeAll(Inner.params) == ["4", "2"];
    assert Join(["4", "2"], " ") == "4" + " " + "2";
  }

  /** `test_tokenize`: the nine tokens of the example, numbers as `int`. */
  lemma TokenizeSample()
    ensures PyTokenizer.Tokenize(Source) == Ok(SampleTokens)
  {
    var cs := CsTokenizeSample();
    TokenizeAgrees(Source);
    ConvertSample(cs);
  }

  /** What the C# tokenizer reads from the example. */
  lemma CsTokenizeSample() returns (cs: seq<Token>)
    ensures Tokenizer.Tokenize(Source) == Ok(cs)
    ensures cs == [Open, Token(Name, "add"), Token(Number, "2"), Open, Token(Name, "subtract"),
      Token(Number, "4"), Token(Number, "2"), Close, Close]
  {
    SampleIsGood();
    RoundTrip.TokenizeDecoded(Sample);
    cs := SpellSample();
  }

  lemma ConvertSample(cs: seq<Token>)
    requires cs == [Open, Token(Name, "add"), Token(Number, "2"), Open, Token(Name, "subtract"),
      Token(Number, "4"), Token(Number, "2"), Close, Close]
    ensures ConvertAll(cs) == SampleTokens
  {
    DigitValues();
    var r := ConvertAll(cs);
    assert |r| == 9;
    forall i | 0 <= i < 9
      ensures r[i] == SampleTokens[i]
    {
    }
  }

  lemma DigitValues()
    ensures PyNumbers.DecimalValue("2") == 2 && PyNumbers.DecimalValue("4") == 4
  {
    assert "2"[..0] == "" && "4"[..0] == "";
  }

  /** The C# spelling of the example. */
  lemma SpellSample() returns (cs: seq<Token>)
    ensures Parser.SpellProgram(Sample) == cs
    ensures cs == [Open, Token(Name, "add"), Token(Number, "2"), Open, Token(Name, "subtract"),
      Token(Number, "4"), Token(Number, "2"), Close, Close]
  {
    CsSpellTwo(Literal("4"), Literal("2"));
    var inner := [Open, Token(Name, "subtract"), Token(Number, "4"), Token(Number, "2"), Close];
    assert Parser.Spell(Inner) == inner;
    CsSpellTwo(Literal("2"), Inner);
    CsSpellOne(Sample.body[0]);
    cs := [Open, Token(Name, "add"), Token(Number, "2")] + inner + [Close];
  }

  lemma CsSpellOne(a: Parser.Node)
    ensures Parser.SpellAll([a]) == Parser.Spell(a)
  {
    assert [a][1..] == [];
  }

  lemma CsSpellTwo(a: Parser.Node, b: Parser.Node)
    ensures Parser.SpellAll([a, b]) == Parser.Spell(a) + Parser.Spell(b)
  {
    assert [a, b][1..] == [b];
    CsSpellOne(b);
  }

  /** `test_parse`: the example's tokens give the example's tree. */
  lemma ParseSample()
    ensures PyParser.Parse(SampleTokens) == Ok(PySample)
  {
    var four := PyToken(Number, Int(4));
    var two := PyToken(Number, Int(2));
    SpellTwo(Literal(Int(4)), Literal(Int(2)));
    assert PyParser.Spell(PyInner) == [PyParser.OpenToken, PyToken(Name, Str("subtract")), four, two, PyParser.CloseToken];
    SpellTwo(Literal(Int(2)), PyInner);
    SpellOne(PySample.body[0]);
    assert PyParser.SpellProgram(PySample) == SampleTokens;
    PyParser.ParseSpelled(PySample);
  }

  lemma SpellOne(a: PyParser.Node)
    ensures PyParser.SpellAll([a]) == PyParser.Spell(a)
  {
    assert [a][1..] == [];
  }

  lemma SpellTwo(a: PyParser.Node, b: PyParser.Node)
    ensures PyParser.SpellAll([a, b]) == PyParser.Spell(a) + PyParser.Spell(b)
  {
    assert [a, b][1..] == [b];
    SpellOne(b);
  }

  /** `test_transform`: the call at the top becomes a statement, the nested
      call stays a bare call expression. */
  lemma TransformSample()
    ensures Transformer.Transform(PySample) == PyCSample
  {
    var lits := Transformer.TransformAll(PyInner.params, UnderCall);
    assert lits == PyCInner.arguments;
    assert Transformer.TransformNode(PyInner, UnderCall) == PyCInner;
    var args := Transformer.TransformAll(PySample.body[0].params, UnderCall);
    assert args == [NumberLiteral(Int(2)), PyCInner];
    assert Transformer.TransformAll(PySample.body, UnderProgram) == PyCSample.body;
  }

  /** `test_generate_code`: arguments are separated by a comma and a space. */
  lemma GenerateSample()
    ensures PyGenerator.Generate(PyCSample) == Output
  {
    assert "add(2, subtract(4, 2))" + ";" == Output;
    GenerateTop();
    var line := PyGenerator.GenerateNode(PyCSample.body[0]);
    assert line == "add(2, subtract(4, 2))" + ";";
    assert PyGenerator.GenerateAll(PyCSample.body) == [line];
  }

  lemma GenerateTop()
    ensures PyGenerator.GenerateNode(PyCSample.body[0].expression) == "add(2, subtract(4, 2))"
  {
    assert "add" + "(" + ("2" + ", " + "subtract(4, 2)") + ")" == "add(2, subtract(4, 2))";
    var inner := GenerateInner();
    var top := PyCSample.body[0].expression;
    RenderDigit(2);
    assert PyGenerator.GenerateAll(top.arguments) == ["2", inner];
    assert Join(["2", inner], ", ") == "2" + ", " + inner;
    assert PyGenerator.GenerateNode(top) == "add" + "(" + ("2" + ", " + inner) + ")";
  }

  lemma GenerateInner() returns (s: string)
    ensures PyGenerator.GenerateNode(PyCInner) == s == "subtract(4, 2)"
  {
    s := "subtract" + "(" + ("4" + ", " + "2") + ")";
    assert s == "subtract(4, 2)";
    RenderDigit(4);
    RenderDigit(2);
    assert PyGenerator.GenerateAll(PyCInner.arguments) == ["4", "2"];
    assert Join(["4", "2"], ", ") == "4" + ", " + "2";
  }

  /** `str` of a one-digit number. */
  lemma RenderDigit(d: nat)
    requires d < 10
    ensures PyGenerator.Render(Int(d)) == [PyNumbers.DigitChar(d)]
  {
  }

  /** `test_compile`: the four stages in sequence. */
  lemma CompileSample()
    ensures PyCompiler.Compile(Source) == Ok(Output)
  {
    TokenizeSample();
    ParseSample();
    TransformSample();
    GenerateSample();
  }

  /** The same output as the C# compiler's, with a space after each comma. */
  lemma CompileSampleAgrees()
    ensures Compiler.Compile(Source) == Ok("add(2,subtract(4,2));")
    ensures PyGenerator.Widen("add(2,subtract(4,2));") == Output
  {
    CsCompileSample();
    SampleIsGood();
    PyCompiler.CompilersAgree(Sample);
    CompileSample();
  }

  lemma CsCompileSample()
    ensures Compiler.Compile(Source) == Ok("add(2,subtract(4,2));")
  {
    SampleIsGood();
    RoundTrip.CompileDecoded(Sample);
    CsGenerateSample();
  }

  lemma CsGenerateSample()
    ensures CodeGenerator.Generate(Transformer.Transform(Sample)) == "add(2,subtract(4,2));"
  {
    assert "add(2,subtract(4,2))" + ";" == "add(2,subtract(4,2));";
    var top := CsTransformSample();
    CsGenerateTop(top);
    var line := CodeGenerator.GenerateNode(ExpressionStatement(top));
    assert line == "add(2,subtract(4,2))" + ";";
    assert CodeGenerator.GenerateAll([ExpressionStatement(top)]) == [line];
  }

  lemma CsGenerateTop(top: CodeGenerator.Node)
    requires top == CallExpression(Identifier("add"), [NumberLiteral("2"),
      CallExpression(Identifier("subtract"), [NumberLiteral("4"), NumberLiteral("2")])])
    ensures CodeGenerator.GenerateNode(top) == "add(2,subtract(4,2))"
  {
    var i := "subtract(4,2)";
    assert "add" + "(" + ("2" + "," + i) + ")" == "add(2,subtract(4,2))";
    CsGenerateInner(top.arguments[1]);
    CsGeneratePair(top.arguments, "2", i);
    CsCallText("add", top.arguments, ["2", i]);
  }

  /** The C# text of a call named by an identifier, from its arguments'. */
  lemma CsCallText(name: string, args: seq<CodeGenerator.Node>, parts: seq<string>)
    requires |parts| == 2 && CodeGenerator.GenerateAll(args) == parts
    ensures CodeGenerator.GenerateNode(CallExpression(Identifier(name), args))
            == name + "(" + (parts[0] + "," + parts[1]) + ")"
  {
    assert Join(parts, ",") == parts[0] + "," + parts[1];
  }

  lemma CsGeneratePair(args: seq<CodeGenerator.Node>, a: string, b: string)
    requires |args| == 2
    requires CodeGenerator.GenerateNode(args[0]) == a && CodeGenerator.GenerateNode(args[1]) == b
    ensures CodeGenerator.GenerateAll(args) == [a, b]
  {
  }

  /** The C# transformer on the sample. */
  lemma CsTransformSample() returns (top: CodeGenerator.Node)
    ensures top == CallExpression(Identifier("add"), [NumberLiteral("2"),
      CallExpression(Identifier("subtract"), [NumberLiteral("4"), NumberLiteral("2")])])
    ensures Transformer.Transform(Sample).body == [ExpressionStatement(top)]
  {
    var inner := CallExpression(Identifier("subtract"), [NumberLiteral("4"), NumberLiteral("2")]);
    assert Transformer.TransformAll(Inner.params, UnderCall) == inner.arguments;
    assert Transformer.TransformNode(Inner, UnderCall) == inner;
    var args := [NumberLiteral("2"), inner];
    assert Transformer.TransformAll(Sample.body[0].params, UnderCall) == args;
    top := CallExpression(Identifier("add"), args);
  }

  lemma CsGenerateInner(inner: CodeGenerator.Node)
    requires inner == CallExpression(Identifier("subtract"), [NumberLiteral("4"), NumberLiteral("2")])
    ensures CodeGenerator.GenerateNode(inner) == "subtract(4,2)"
  {
    assert "subtract" + "(" + ("4" + "," + "2") + ")" == "subtract(4,2)";
    CsGeneratePair(inner.arguments, "4", "2");
    CsCallText("subtract", inner.arguments, ["4", "2"]);
  }

  /** A missing closing paren at the end is no error for the Python parser,
      where the C# parser runs out of tokens. */
  lemma CompileUnclosed()
    ensures PyCompiler.Compile("(add 2 2 ") == Ok("add(2, 2);")
    ensures Compiler.Compile("(add 2 2 ") == Err(UnexpectedEnd)
  {
    var ts := CsTokenizeUnclosed();
    CsParseUnclosed(ts);
    TokenizeAgrees("(add 2 2 ");
    var p := ParseUnclosed(ts);
    GenerateAddTwoTwo(p);
  }

  /** The C# parser reaches the end of the tokens inside the call. */
  lemma CsParseUnclosed(ts: seq<Token>)
    requires ts == [Open, Token(Name, "add"), Token(Number, "2"), Token(Number, "2")]
    ensures Parser.Parse(ts) == Err(UnexpectedEnd)
  {
    assert Parser.Walk(ts, 2) == Ok((Literal("2"), 3));
    assert Parser.Walk(ts, 3) == Ok((Literal("2"), 4));
    assert Parser.WalkParams(ts, 3) == Err(UnexpectedEnd);
    assert Parser.WalkParams(ts, 2) == Err(UnexpectedEnd);
    assert Parser.Walk(ts, 0) == Err(UnexpectedEnd);
  }

  lemma CsTokenizeUnclosed() returns (ts: seq<Token>)
    ensures Tokenizer.Tokenize("(add 2 2 ") == Ok(ts)
    ensures ts == [Open, Token(Name, "add"), Token(Number, "2"), Token(Number, "2")]
  {
    var two := Token(Number, "2");
    assert ['('] + "add 2 2 " == "(add 2 2 ";
    AddTwoTwo();
    Tokenizer.TokenizeParen('(', "add 2 2 ");
    ts := [Open] + [Token(Name, "add"), two, two];
  }

  lemma AddTwoTwo()
    ensures Tokenizer.Tokenize("add 2 2 ") == Ok([Token(Name, "add"), Token(Number, "2"), Token(Number, "2")])
  {
    var two := Token(Number, "2");
    TwoTwo();
    GoodLeaves();
    Tokenizer.TokenizeNameRun("add", " 2 2 ");
    assert "add" + " 2 2 " == "add 2 2 ";
    assert [Token(Name, "add")] + [two, two] == [Token(Name, "add"), two, two];
  }

  lemma TwoTwo()
    ensures Tokenizer.Tokenize(" 2 2 ") == Ok([Token(Number, "2"), Token(Number, "2")])
  {
    var two := Token(Number, "2");
    TwoSpace();
    Tokenizer.TokenizeWhitespace(' ', "2 ");
    assert [' '] + "2 " == " 2 ";
    Tokenizer.TokenizeNumberRun("2", " 2 ");
    assert "2" + " 2 " == "2 2 ";
    Tokenizer.TokenizeWhitespace(' ', "2 2 ");
    assert [' '] + "2 2 " == " 2 2 ";
    assert [two] + [two] == [two, two];
  }

  lemma TwoSpace()
    ensures Tokenizer.Tokenize("2 ") == Ok([Token(Number, "2")])
  {
    var two := Token(Number, "2");
    assert All("2", IsDigit) by { assert "2"[0] == '2'; }
    Tokenizer.TokenizeWhitespace(' ', "");
    assert [' '] + "" == " ";
    Tokenizer.TokenizeNumberRun("2", " ");
    assert "2" + " " == "2 ";
    assert [two] + [] == [two];
  }

  /** The Python parser reads the unclosed call as `add` of two twos. */
  lemma ParseUnclosed(ts: seq<Token>) returns (p: PyParser.Program)
    requires ts == [Open, Token(Name, "add"), Token(Number, "2"), Token(Number, "2")]
    ensures PyParser.Parse(ConvertAll(ts)) == Ok(p)
    ensures p == LispProgram([Call(Str("add"), [Literal(Int(2)), Literal(Int(2))])])
  {
    DigitValues();
    var lit := Literal(Int(2));
    p := LispProgram([Call(Str("add"), [lit, lit])]);
    SpellTwo(lit, lit);
    SpellOne(p.body[0]);
    var pts := PyParser.SpellProgram(p);
    assert pts == [PyParser.OpenToken, PyToken(Name, Str("add")), PyToken(Number, Int(2)), PyToken(Number, Int(2)), PyParser.CloseToken];
    assert ConvertAll(ts) == pts[..|pts| - 1];
    PyParser.ParseUnclosed(p);
  }

  lemma GenerateAddTwoTwo(p: PyParser.Program)
    requires p == LispProgram([Call(Str("add"), [Literal(Int(2)), Literal(Int(2))])])
    ensures PyGenerator.Generate(Transformer.Transform(p)) == "add(2, 2);"
  {
    var call := CallExpression(Identifier(Str("add")), [NumberLiteral(Int(2)), NumberLiteral(Int(2))]);
    assert Transformer.TransformAll(p.body[0].params, UnderCall) == call.arguments;
    assert Transformer.Transform(p).body == [ExpressionStatement(call)];
    RenderDigit(2);
    assert PyGenerator.GenerateAll(call.arguments) == ["2", "2"];
    assert Join(["2", "2"], ", ") == "2" + ", " + "2";
    assert PyGenerator.GenerateNode(call) == "add" + "(" + ("2" + ", " + "2") + ")";
  }

  /** `int` then `str` drops the leading zeros of a literal, which the C#
      compiler copies through. */
  lemma CompileLeadingZeros()
    ensures PyCompiler.Compile("(f 007)") == Ok("f(7);")
    ensures Compiler.Compile("(f 007)") == Ok("f(007);")
  {
    var ts := CsTokenizeZeros();
    CsCompileZeros(ts);
    TokenizeAgrees("(f 007)");
    var p := ParseZeros(ts);
    GenerateZeros(p);
  }

  lemma CsTokenizeZeros() returns (ts: seq<Token>)
    ensures Tokenizer.Tokenize("(f 007)") == Ok(ts)
    ensures ts == [Open, Token(Name, "f"), Token(Number, "007"), Close]
  {
    ZerosSpace();
    assert All("f", IsLetter) by { assert "f"[0] == 'f'; }
    Tokenizer.TokenizeNameRun("f", " 007)");
    assert "f" + " 007)" == "f 007)";
    Tokenizer.TokenizeParen('(', "f 007)");
    assert ['('] + "f 007)" == "(f 007)";
    ts := [Open] + ([Token(Name, "f")] + [Token(Number, "007"), Close]);
  }

  lemma ZerosSpace()
    ensures Tokenizer.Tokenize(" 007)") == Ok([Token(Number, "007"), Close])
  {
    ZerosClose();
    Tokenizer.TokenizeWhitespace(' ', "007)");
    assert [' '] + "007)" == " 007)";
  }

  lemma ZerosClose()
    ensures Tokenizer.Tokenize("007)") == Ok([Token(Number, "007"), Close])
  {
    assert All("007", IsDigit) by {
      assert "007"[0] == '0' && "007"[1] == '0' && "007"[2] == '7';
    }
    Tokenizer.TokenizeParen(')', "");
    assert [')'] + "" == ")";
    assert [Close] + [] == [Close];
    Tokenizer.TokenizeNumberRun("007", ")");
    assert "007" + ")" == "007)";
    assert [Token(Number, "007")] + [Close] == [Token(Number, "007"), Close];
  }

  lemma CsCompileZeros(ts: seq<Token>)
    requires Tokenizer.Tokenize("(f 007)") == Ok(ts)
    requires ts == [Open, Token(Name, "f"), Token(Number, "007"), Close]
    ensures Compiler.Compile("(f 007)") == Ok("f(007);")
  {
    var q := CsParseZeros(ts);
    CsGenerateZeros(q);
  }

  lemma CsGenerateZeros(q: Parser.Program)
    requires q == LispProgram([Call("f", [Literal("007")])])
    ensures CodeGenerator.Generate(Transformer.Transform(q)) == "f(007);"
  {
    var c := CallExpression(Identifier("f"), [NumberLiteral("007")]);
    assert Transformer.TransformAll(q.body[0].params, UnderCall) == c.arguments;
    assert Transformer.Transform(q).body == [ExpressionStatement(c)];
    assert CodeGenerator.GenerateAll(c.arguments) == ["007"];
    assert CodeGenerator.GenerateNode(c) == "f" + "(" + "007" + ")";
  }

  lemma CsParseZeros(ts: seq<Token>) returns (q: Parser.Program)
    requires ts == [Open, Token(Name, "f"), Token(Number, "007"), Close]
    ensures Parser.Parse(ts) == Ok(q)
    ensures q == LispProgram([Call("f", [Literal("007")])])
  {
    q := LispProgram([Call("f", [Literal("007")])]);
    CsSpellOne(Literal("007"));
    CsSpellOne(q.body[0]);
    assert Parser.SpellProgram(q) == ts;
    Parser.ParseSpelled(q);
  }

  lemma ParseZeros(ts: seq<Token>) returns (p: PyParser.Program)
    requires ts == [Open, Token(Name, "f"), Token(Number, "007"), Close]
    ensures PyParser.Parse(ConvertAll(ts)) == Ok(p)
    ensures p == LispProgram([Call(Str("f"), [Literal(Int(7))])])
  {
    assert PyNumbers.DecimalValue("007") == 7 by {
      assert "007"[..2] == "00" && "00"[..1] == "0" && "0"[..0] == "";
    }
    var lit := Literal(Int(7));
    p := LispProgram([Call(Str("f"), [lit])]);
    SpellOne(lit);
    SpellOne(p.body[0]);
    assert ConvertAll(ts) == PyParser.SpellProgram(p);
    PyParser.ParseSpelled(p);
  }

  lemma GenerateZeros(p: PyParser.Program)
    requires p == LispProgram([Call(Str("f"), [Literal(Int(7))])])
    ensures PyGenerator.Generate(Transformer.Transform(p)) == "f(7);"
  {
    var call := CallExpression(Identifier(Str("f")), [NumberLiteral(Int(7))]);
    assert Transformer.TransformAll(p.body[0].params, UnderCall) == call.arguments;
    assert Transformer.Transform(p).body == [ExpressionStatement(call)];
    RenderDigit(7);
    assert PyGenerator.GenerateAll(call.arguments) == ["7"];
    assert PyGenerator.GenerateNode(call) == "f" + "(" + "7" + ")";
  }

  /** An opening paren with nothing after it: `next` finds no name token. */
  lemma CompileLoneParen()
    ensures PyCompiler.Compile("(") == Err(UnexpectedEnd)
  {
    var s := "(";
    assert s[0] == '(' && |s| == 1 && [s[0]] == s;
    assert PyTokenizer.Scan(s, 1) == Ok([]);
    assert [PyParser.OpenToken] + [] == [PyParser.OpenToken];
    assert PyTokenizer.Tokenize(s) == Ok([PyParser.OpenToken]);
  }

  /** A closing paren where an expression should start raises with the
      token's type. */
  lemma CompileStrayClose()
    ensures PyCompiler.Compile(")") == Err(UnexpectedToken(Paren))
  {
    var s := ")";
    assert s[0] == ')' && |s| == 1 && [s[0]] == s;
    assert PyTokenizer.Scan(s, 1) == Ok([]);
    assert [PyParser.CloseToken] + [] == [PyParser.CloseToken];
    assert PyTokenizer.Tokenize(s) == Ok([PyParser.CloseToken]);
  }
}
