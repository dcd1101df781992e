/** The worked examples of the C# pipelines, as instances of the general
    lemmas or by stepping the tokenizer. */
module Scenarios {
  import opened Wrappers
  import opened Chars
  import opened Syntax
  import opened Ast
  import Tokenizer
  import Parser
  import Transformer
  import CodeGenerator
  import DecodeGenerator
  import Compiler
  import Decompiler
  import RoundTrip

  const Two: LispNode<string, string> := Literal("2")
  const AddTwoTwo: LispProgram<string, string> := LispProgram([Call("add", [Two, Two])])

  lemma GoodAddTwoTwo()
    ensures RoundTrip.GoodProgram(AddTwoTwo)
    ensures DecodeGenerator.DecodeGenerate(AddTwoTwo) == "(add 2 2)"
    ensures CodeGenerator.Generate(Transformer.Transform(AddTwoTwo)) == "add(2,2);"
  {
    assert All("add", IsLetter) by {
      assert "add"[0] == 'a' && "add"[1] == 'd' && "add"[2] == 'd';
    }
    assert All("2", IsDigit) by { assert "2"[0] == '2'; }
    assert RoundTrip.GoodNode(Two);
    assert RoundTrip.GoodNode(AddTwoTwo.body[0]);
    var ps := [Two, Two];
    assert DecodeGenerator.DecodeAll(ps) == ["2", "2"];
    assert Join(["2", "2"], " ") == "2 2";
    var c := Transformer.TransformAll(ps, UnderCall);
    assert c == [NumberLiteral("2"), NumberLiteral("2")];
    assert CodeGenerator.GenerateAll(c) == ["2", "2"];
    assert Join(["2", "2"], ",") == "2,2";
    var call := CallExpression(Identifier("add"), c);
    assert Transformer.Transform(AddTwoTwo).body == [ExpressionStatement(call)];
    assert CodeGenerator.GenerateNode(call) == "add(2,2)";
    assert CodeGenerator.GenerateNode(ExpressionStatement(call)) == "add(2,2)" + ";" == "add(2,2);";
  }

  lemma CompileAddTwoTwo()
    ensures Compiler.Compile("(add 2 2)") == Ok("add(2,2);")
    ensures Decompiler.Decompile("add(2,2);") == Ok("(add 2 2)")
  {
    GoodAddTwoTwo();
    RoundTrip.CompileDecoded(AddTwoTwo);
    RoundTrip.DecompileGenerated(AddTwoTwo);
  }

  /** An unclosed call runs out of tokens. */
  lemma CompileUnclosed()
    ensures Compiler.Compile("(add 2 ") == Err(UnexpectedEnd)
  {
    var ts := [Open, Token(Name, "add"), Token(Number, "2")];
    assert All("add", IsLetter) by {
      assert "add"[0] == 'a' && "add"[1] == 'd' && "add"[2] == 'd';
    }
    Tokenizer.TokenizeWhitespace(' ', "");
    assert [' '] + "" == " ";
    Tokenizer.TokenizeNumberRun("2", " ");
    assert "2" + " " == "2 ";
    var two := Token(Number, "2");
    assert [two] + [] == [two];
    Tokenizer.TokenizeWhitespace(' ', "2 ");
    assert [' '] + "2 " == " 2 ";
    Tokenizer.TokenizeNameRun("add", " 2 ");
    assert "add" + " 2 " == "add 2 ";
    assert Tokenizer.Tokenize("add 2 ") == Ok([Token(Name, "add")] + [two]);
    Tokenizer.TokenizeParen('(', "add 2 ");
    assert ['('] + "add 2 " == "(add 2 ";
    assert [Open] + ([Token(Name, "add")] + [two]) == ts;
    assert Parser.Walk(ts, 2) == Ok((Literal("2"), 3));
  }

  /** A `)` cannot start an expression. */
  lemma CompileStrayClose()
    ensures Compiler.Compile(")") == Err(UnexpectedToken(Paren))
  {
    assert ")" == [')'] + "";
    Tokenizer.TokenizeParen(')', "");
    assert [Close] + [] == [Close];
  }

  /** A character outside the language stops the tokenizer. */
  lemma CompileUnknown()
    ensures Compiler.Compile("(add 2 @)") == Err(UnknownCharacter('@'))
  {
    UnknownAfterName();
    assert "(add 2 @)" == ['('] + "add 2 @)";
    Tokenizer.TokenizeParen('(', "add 2 @)");
  }

  lemma UnknownAfterName()
    ensures Tokenizer.Tokenize("add 2 @)") == Err(UnknownCharacter('@'))
  {
    UnknownAfterNumber();
    assert "add"[0] == 'a' && "add"[1] == 'd' && "add"[2] == 'd';
    assert "add 2 @)" == "add" + " 2 @)";
    Tokenizer.TokenizeNameRun("add", " 2 @)");
  }

  lemma UnknownAfterNumber()
    ensures Tokenizer.Tokenize(" 2 @)") == Err(UnknownCharacter('@'))
  {
    assert Tokenizer.Tokenize("@)") == Err(UnknownCharacter('@'));
    assert " @)" == [' '] + "@)";
    Tokenizer.TokenizeWhitespace(' ', "@)");
    assert "2 @)" == "2" + " @)";
    Tokenizer.TokenizeNumberRun("2", " @)");
    assert " 2 @)" == [' '] + "2 @)";
    Tokenizer.TokenizeWhitespace(' ', "2 @)");
  }
}
