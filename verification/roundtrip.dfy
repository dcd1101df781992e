/** The two pipelines against each other. For a Lisp program whose names are
    letter runs, whose literals are digit runs and whose last top-level item
    is a call, the compiler turns the decompiler's rendering of the program
    into the code generator's rendering of its transformation, and the
    decompiler turns that back into the decompiler's rendering: each
    pipeline undoes the other. The last-item condition is needed because
    both tokenizers fail with `UnexpectedEnd` on text that ends in a digit
    run. */
module RoundTrip {
  import opened Wrappers
  import opened Chars
  import opened Syntax
  import opened Ast
  import Tokenizer
  import Parser
  import Transformer
  import CodeGenerator
  import Compiler
  import Detokenizer
  import Deparser
  import Detransformer
  import DecodeGenerator
  import Decompiler

  type LNode = LispNode<string, string>
  type CNodeS = CNode<string, string>

  /** Names are non-empty letter runs and literals non-empty digit runs. */
  predicate GoodNode(n: LNode)
    decreases n
  {
    match n
    case Literal(v) => |v| > 0 && All(v, IsDigit)
    case Call(name, ps) => |name| > 0 && All(name, IsLetter) && GoodAll(ps)
  }

  predicate GoodAll(ns: seq<LNode>)
    decreases ns
  {
    forall i | 0 <= i < |ns| :: GoodNode(ns[i])
  }

  /** The first of several good nodes is good, and so are the rest. */
  lemma GoodSplit(ns: seq<LNode>)
    requires |ns| > 0 && GoodAll(ns)
    ensures GoodNode(ns[0]) && GoodAll(ns[1..])
    ensures |ns| > 1 ==> ns[1..][|ns[1..]| - 1] == ns[|ns| - 1]
  {
    assert forall i | 0 <= i < |ns| - 1 :: ns[1..][i] == ns[i + 1];
  }

  /** A program both pipelines can carry: good nodes, and a call last. */
  predicate GoodProgram(p: LispProgram<string, string>) {
    GoodAll(p.body) && (|p.body| == 0 || p.body[|p.body| - 1].Call?)
  }

  /** The rendering of `n` may be followed by `rest`: a digit run must not
      run on into another digit. */
  predicate Follows(n: LNode, rest: string) {
    n.Call? || (|rest| > 0 && !IsDigit(rest[0]))
  }

  // ---- the forward tokenizer reads decoded text ----

  lemma {:induction false} TokenizeDecodedNode(n: LNode, rest: string)
    requires GoodNode(n) && Follows(n, rest)
    ensures Tokenizer.Tokenize(DecodeGenerator.DecodeNode(n) + rest)
            == Prepend(Parser.Spell(n), Tokenizer.Tokenize(rest))
    decreases n, 1
  {
    match n {
      case Literal(v) =>
        Tokenizer.TokenizeNumberRun(v, rest);
      case Call(name, ps) =>
        var j := Join(DecodeGenerator.DecodeAll(ps), [' ']);
        assert DecodeGenerator.DecodeNode(n) + rest == "(" + (name + (" " + (j + (")" + rest))));
        TokenizeDecodedJoin(ps, ' ', ")" + rest);
        TokenizeCallFrame(name, j, Parser.SpellAll(ps), rest);
        assert [Open, Token(Name, name)] + Parser.SpellAll(ps) + [Close] == Parser.Spell(n);
    }
  }

  /** The tokenizer on `(name ` + arguments + `)`, given what it reads from
      the arguments. */
  lemma TokenizeCallFrame(name: string, j: string, inner: seq<Token>, rest: string)
    requires |name| > 0 && All(name, IsLetter)
    requires Tokenizer.Tokenize(j + (")" + rest)) == Prepend(inner, Tokenizer.Tokenize(")" + rest))
    ensures Tokenizer.Tokenize("(" + (name + (" " + (j + (")" + rest)))))
            == Prepend([Open, Token(Name, name)] + inner + [Close], Tokenizer.Tokenize(rest))
  {
    var r := Tokenizer.Tokenize(rest);
    TokenizeAfterName(name, j, inner, rest);
    assert "(" + (name + (" " + (j + (")" + rest)))) == ['('] + (name + (" " + (j + (")" + rest))));
    Tokenizer.TokenizeParen('(', name + (" " + (j + (")" + rest))));
    PrependPrepend([Open], [Token(Name, name)] + (inner + [Close]), r);
    assert [Open] + ([Token(Name, name)] + (inner + [Close])) == [Open, Token(Name, name)] + inner + [Close];
  }

  /** A decoded call from its name on: the name, a space, the params and
      the `)`. */
  lemma TokenizeAfterName(name: string, j: string, inner: seq<Token>, rest: string)
    requires |name| > 0 && All(name, IsLetter)
    requires Tokenizer.Tokenize(j + (")" + rest)) == Prepend(inner, Tokenizer.Tokenize(")" + rest))
    ensures Tokenizer.Tokenize(name + (" " + (j + (")" + rest))))
            == Prepend([Token(Name, name)] + (inner + [Close]), Tokenizer.Tokenize(rest))
  {
    var r := Tokenizer.Tokenize(rest);
    Tokenizer.TokenizeParen(')', rest);
    assert ")" + rest == [')'] + rest;
    PrependPrepend(inner, [Close], r);
    assert " " + (j + (")" + rest)) == [' '] + (j + (")" + rest));
    Tokenizer.TokenizeWhitespace(' ', j + (")" + rest));
    Tokenizer.TokenizeNameRun(name, " " + (j + (")" + rest)));
    PrependPrepend([Token(Name, name)], inner + [Close], r);
  }

  lemma {:induction false} TokenizeDecodedJoin(ns: seq<LNode>, sep: char, rest: string)
    requires IsWhitespace(sep) && GoodAll(ns)
    requires |ns| == 0 || Follows(ns[|ns| - 1], rest)
    ensures Tokenizer.Tokenize(Join(DecodeGenerator.DecodeAll(ns), [sep]) + rest)
            == Prepend(Parser.SpellAll(ns), Tokenizer.Tokenize(rest))
    decreases ns, 0
  {
    var parts := DecodeGenerator.DecodeAll(ns);
    if |ns| == 0 {
      assert Join(parts, [sep]) + rest == rest;
      PrependEmpty(Tokenizer.Tokenize(rest));
    } else if |ns| == 1 {
      TokenizeDecodedNode(ns[0], rest);
      assert Parser.SpellAll(ns) == Parser.Spell(ns[0]) + Parser.SpellAll(ns[1..]);
      assert Parser.SpellAll(ns[1..]) == [];
      assert Parser.Spell(ns[0]) + [] == Parser.Spell(ns[0]);
    } else {
      assert parts[1..] == DecodeGenerator.DecodeAll(ns[1..]);
      var j := Join(parts[1..], [sep]);
      JoinUnfold(parts, [sep], rest);
      GoodSplit(ns);
      TokenizeDecodedJoin(ns[1..], sep, rest);
      assert ([sep] + (j + rest))[0] == sep;
      TokenizeDecodedNode(ns[0], [sep] + (j + rest));
      TokenizeJoinCons(DecodeGenerator.DecodeNode(ns[0]), Parser.Spell(ns[0]), sep, j, Parser.SpellAll(ns[1..]), rest);
    }
  }

  /** The tokenizer on a first part, a separator and the remaining parts,
      given what it reads from each. */
  lemma TokenizeJoinCons(first: string, head: seq<Token>, sep: char, j: string, tail: seq<Token>, rest: string)
    requires IsWhitespace(sep)
    requires Tokenizer.Tokenize(first + ([sep] + (j + rest))) == Prepend(head, Tokenizer.Tokenize([sep] + (j + rest)))
    requires Tokenizer.Tokenize(j + rest) == Prepend(tail, Tokenizer.Tokenize(rest))
    ensures Tokenizer.Tokenize(first + ([sep] + (j + rest))) == Prepend(head + tail, Tokenizer.Tokenize(rest))
  {
    Tokenizer.TokenizeWhitespace(sep, j + rest);
    PrependPrepend(head, tail, Tokenizer.Tokenize(rest));
  }

  /** The forward tokenizer turns the decoded text of a good program into
      exactly the tokens the parser reads back as that program. */
  lemma TokenizeDecoded(p: LispProgram<string, string>)
    requires GoodProgram(p)
    ensures Tokenizer.Tokenize(DecodeGenerator.DecodeGenerate(p)) == Ok(Parser.SpellProgram(p))
  {
    var s := DecodeGenerator.DecodeGenerate(p);
    assert "\n" == ['\n'];
    TokenizeDecodedJoin(p.body, '\n', "");
    assert s + "" == s;
    assert Parser.SpellAll(p.body) + [] == Parser.SpellAll(p.body);
  }

  // ---- the detokenizer reads generated code ----

  lemma {:induction false} DetokenizeGeneratedArg(n: LNode, rest: string)
    requires GoodNode(n) && Follows(n, rest)
    ensures var c := Transformer.TransformNode(n, UnderCall);
            Detokenizer.Detokenize(CodeGenerator.GenerateNode(c) + rest)
            == Prepend(Deparser.Spell(c), Detokenizer.Detokenize(rest))
    decreases n, 1
  {
    match n {
      case Literal(v) =>
        Detokenizer.DetokenizeNumberRun(v, rest);
      case Call(name, ps) =>
        var args := Transformer.TransformAll(ps, UnderCall);
        DetokenizeGeneratedArgs(ps, ")" + rest);
        GeneratedCall(name, ps, args, rest);
    }
  }

  /** The text and the spelling of a generated call, given what the
      detokenizer reads from its arguments. */
  lemma GeneratedCall(name: string, ps: seq<LNode>, args: seq<CNodeS>, rest: string)
    requires |name| > 0 && All(name, IsLetter)
    requires args == Transformer.TransformAll(ps, UnderCall)
    requires Detokenizer.Detokenize(Join(CodeGenerator.GenerateAll(args), ",") + (")" + rest))
             == Prepend(Deparser.SpellArgs(args), Detokenizer.Detokenize(")" + rest))
    ensures var c := Transformer.TransformNode(Call(name, ps), UnderCall);
            Detokenizer.Detokenize(CodeGenerator.GenerateNode(c) + rest)
            == Prepend(Deparser.Spell(c), Detokenizer.Detokenize(rest))
  {
    var c := CallExpression(Identifier(name), args);
    assert Transformer.TransformNode(Call(name, ps), UnderCall) == c;
    var j := Join(CodeGenerator.GenerateAll(args), ",");
    var text := CallShape(name, args);
    CallText(name, j, text, rest);
    DetokenizeCallFrame(name, j, Deparser.SpellArgs(args), rest);
  }

  /** The generated text and the spelling of a call to a named function. */
  lemma CallShape(name: string, args: seq<CNodeS>) returns (text: string)
    ensures text == CodeGenerator.GenerateNode(CallExpression(Identifier(name), args))
    ensures text == name + "(" + Join(CodeGenerator.GenerateAll(args), ",") + ")"
    ensures Deparser.Spell(CallExpression(Identifier(name), args))
            == [Token(Name, name), Open] + Deparser.SpellArgs(args) + [Close]
  {
    text := CodeGenerator.GenerateNode(CallExpression(Identifier(name), args));
    assert CodeGenerator.GenerateNode(Identifier(name)) == name;
  }

  /** Regrouping the text of a call for the detokenizer. */
  lemma CallText(name: string, j: string, text: string, rest: string)
    requires text == name + "(" + j + ")"
    ensures text + rest == name + ("(" + (j + (")" + rest)))
  {
  }

  /** The detokenizer on `name(` + arguments + `)`, given what it reads
      from the arguments. */
  lemma DetokenizeCallFrame(name: string, j: string, inner: seq<Token>, rest: string)
    requires |name| > 0 && All(name, IsLetter)
    requires Detokenizer.Detokenize(j + (")" + rest)) == Prepend(inner, Detokenizer.Detokenize(")" + rest))
    ensures Detokenizer.Detokenize(name + ("(" + (j + (")" + rest))))
            == Prepend([Token(Name, name), Open] + inner + [Close], Detokenizer.Detokenize(rest))
  {
    var r := Detokenizer.Detokenize(rest);
    var afterName := "(" + (j + (")" + rest));
    FrameOpen(j, inner, rest);
    assert afterName[0] == '(';
    Detokenizer.DetokenizeNameRun(name, afterName);
    PrependPrepend([Token(Name, name)], [Open] + (inner + [Close]), r);
    assert [Token(Name, name)] + ([Open] + (inner + [Close])) == [Token(Name, name), Open] + inner + [Close];
  }

  /** A call frame from its `(` on. */
  lemma FrameOpen(j: string, inner: seq<Token>, rest: string)
    requires Detokenizer.Detokenize(j + (")" + rest)) == Prepend(inner, Detokenizer.Detokenize(")" + rest))
    ensures Detokenizer.Detokenize("(" + (j + (")" + rest)))
            == Prepend([Open] + (inner + [Close]), Detokenizer.Detokenize(rest))
  {
    FrameClose(j, inner, rest);
    assert "(" + (j + (")" + rest)) == ['('] + (j + (")" + rest));
    Detokenizer.DetokenizePunct('(', j + (")" + rest));
    PrependPrepend([Open], inner + [Close], Detokenizer.Detokenize(rest));
  }

  /** The arguments of a call frame followed by its `)`. */
  lemma FrameClose(j: string, inner: seq<Token>, rest: string)
    requires Detokenizer.Detokenize(j + (")" + rest)) == Prepend(inner, Detokenizer.Detokenize(")" + rest))
    ensures Detokenizer.Detokenize(j + (")" + rest)) == Prepend(inner + [Close], Detokenizer.Detokenize(rest))
  {
    Detokenizer.DetokenizePunct(')', rest);
    PrependPrepend(inner, [Close], Detokenizer.Detokenize(rest));
  }

  lemma {:induction false} DetokenizeGeneratedArgs(ns: seq<LNode>, rest: string)
    requires GoodAll(ns)
    requires |rest| > 0 && !IsDigit(rest[0])
    ensures var cs := Transformer.TransformAll(ns, UnderCall);
            Detokenizer.Detokenize(Join(CodeGenerator.GenerateAll(cs), ",") + rest)
            == Prepend(Deparser.SpellArgs(cs), Detokenizer.Detokenize(rest))
    decreases ns, 0
  {
    var cs := Transformer.TransformAll(ns, UnderCall);
    var parts := CodeGenerator.GenerateAll(cs);
    if |ns| == 0 {
      assert Join(parts, ",") + rest == rest;
      PrependEmpty(Detokenizer.Detokenize(rest));
    } else if |ns| == 1 {
      DetokenizeGeneratedArg(ns[0], rest);
    } else {
      GeneratedTail(ns, UnderCall);
      var j := Join(parts[1..], ",");
      DetokenizeGeneratedArgs(ns[1..], rest);
      DetokenizeGeneratedArg(ns[0], "," + (j + rest));
      DetokenizeArgsCons(cs, parts, rest);
    }
  }

  /** The first argument, a comma, and the arguments after it. */
  lemma DetokenizeArgsCons(cs: seq<CNodeS>, parts: seq<string>, rest: string)
    requires |cs| > 1 && parts == CodeGenerator.GenerateAll(cs)
    requires parts[1..] == CodeGenerator.GenerateAll(cs[1..])
    requires Detokenizer.Detokenize(Join(parts[1..], ",") + rest)
             == Prepend(Deparser.SpellArgs(cs[1..]), Detokenizer.Detokenize(rest))
    requires Detokenizer.Detokenize(parts[0] + ("," + (Join(parts[1..], ",") + rest)))
             == Prepend(Deparser.Spell(cs[0]), Detokenizer.Detokenize("," + (Join(parts[1..], ",") + rest)))
    ensures Detokenizer.Detokenize(Join(parts, ",") + rest)
            == Prepend(Deparser.SpellArgs(cs), Detokenizer.Detokenize(rest))
  {
    var j := Join(parts[1..], ",");
    JoinUnfold(parts, ",", rest);
    Detokenizer.DetokenizePunct(',', j + rest);
    var r := Detokenizer.Detokenize(rest);
    PrependPrepend([Comma], Deparser.SpellArgs(cs[1..]), r);
    PrependPrepend(Deparser.Spell(cs[0]), [Comma] + Deparser.SpellArgs(cs[1..]), r);
    assert Deparser.Spell(cs[0]) + ([Comma] + Deparser.SpellArgs(cs[1..])) == Deparser.SpellArgs(cs);
  }

  lemma GeneratedTail(ns: seq<LNode>, parent: LispParent)
    requires |ns| > 0
    ensures var cs := Transformer.TransformAll(ns, parent);
            && cs[1..] == Transformer.TransformAll(ns[1..], parent)
            && CodeGenerator.GenerateAll(cs)[1..] == CodeGenerator.GenerateAll(cs[1..])
  {
  }

  lemma DetokenizeGeneratedItem(n: LNode, rest: string)
    requires GoodNode(n) && Follows(n, rest)
    ensures var c := Transformer.TransformNode(n, UnderProgram);
            Detokenizer.Detokenize(CodeGenerator.GenerateNode(c) + rest)
            == Prepend(Deparser.Spell(c), Detokenizer.Detokenize(rest))
  {
    var c := Transformer.TransformNode(n, UnderProgram);
    var e := Transformer.TransformNode(n, UnderCall);
    if n.Call? {
      assert c == ExpressionStatement(e);
      assert CodeGenerator.GenerateNode(c) + rest == CodeGenerator.GenerateNode(e) + (";" + rest);
      DetokenizeGeneratedArg(n, ";" + rest);
      Detokenizer.DetokenizePunct(';', rest);
      PrependPrepend(Deparser.Spell(e), [Semicolon], Detokenizer.Detokenize(rest));
    } else {
      DetokenizeGeneratedArg(n, rest);
    }
  }

  /** The generated code of the items built from `ns`, followed by `rest`,
      detokenizes to the items' tokens in front of the tokens of `rest`. */
  predicate ItemsDetokenize(ns: seq<LNode>, rest: string) {
    var cs := Transformer.TransformAll(ns, UnderProgram);
    Detokenizer.Detokenize(Join(CodeGenerator.GenerateAll(cs), "\n") + rest)
    == Prepend(Deparser.SpellItems(cs), Detokenizer.Detokenize(rest))
  }

  lemma {:induction false} DetokenizeGeneratedItems(ns: seq<LNode>, rest: string)
    requires GoodAll(ns)
    requires |ns| == 0 || Follows(ns[|ns| - 1], rest)
    ensures ItemsDetokenize(ns, rest)
    decreases ns
  {
    if |ns| == 0 {
      assert Join([], "\n") + rest == rest;
      PrependEmpty(Detokenizer.Detokenize(rest));
    } else if |ns| == 1 {
      DetokenizeOneItem(ns, rest);
    } else {
      DetokenizeGeneratedItems(ns[1..], rest);
      DetokenizeNextItem(ns, rest);
    }
  }

  lemma DetokenizeOneItem(ns: seq<LNode>, rest: string)
    requires |ns| == 1 && GoodNode(ns[0]) && Follows(ns[0], rest)
    ensures ItemsDetokenize(ns, rest)
  {
    var cs := Transformer.TransformAll(ns, UnderProgram);
    DetokenizeGeneratedItem(ns[0], rest);
    assert Join(CodeGenerator.GenerateAll(cs), "\n") == CodeGenerator.GenerateNode(cs[0]);
    assert Deparser.SpellItems(cs) == Deparser.Spell(cs[0]) + Deparser.SpellItems(cs[1..]);
    assert Deparser.Spell(cs[0]) + [] == Deparser.Spell(cs[0]);
  }

  lemma DetokenizeNextItem(ns: seq<LNode>, rest: string)
    requires |ns| > 1 && GoodNode(ns[0])
    requires ItemsDetokenize(ns[1..], rest)
    ensures ItemsDetokenize(ns, rest)
  {
    var cs := Transformer.TransformAll(ns, UnderProgram);
    var parts := CodeGenerator.GenerateAll(cs);
    GeneratedTail(ns, UnderProgram);
    var j := Join(parts[1..], "\n");
    var d := Detokenizer.Detokenize(rest);
    assert Detokenizer.Detokenize(j + rest) == Prepend(Deparser.SpellItems(cs[1..]), d);
    Detokenizer.DetokenizeWhitespace('\n', j + rest);
    DetokenizeGeneratedItem(ns[0], ['\n'] + (j + rest));
    JoinUnfold(parts, "\n", rest);
    PrependPrepend(Deparser.Spell(cs[0]), Deparser.SpellItems(cs[1..]), d);
  }

  /** The detokenizer turns the generated code of a good program into
      exactly the tokens the deparser reads back as its transformation. */
  lemma DetokenizeGenerated(p: LispProgram<string, string>)
    requires GoodProgram(p)
    ensures var c := Transformer.Transform(p);
            Detokenizer.Detokenize(CodeGenerator.Generate(c)) == Ok(Deparser.SpellItems(c.body))
  {
    var c := Transformer.Transform(p);
    DetokenizeGeneratedItems(p.body, "");
    assert CodeGenerator.Generate(c) + "" == CodeGenerator.Generate(c);
    assert Deparser.SpellItems(c.body) + [] == Deparser.SpellItems(c.body);
  }

  // ---- the reverse parser and detransformer undo the forward ones ----

  lemma {:induction false} TransformedArgument(n: LNode)
    ensures Deparser.IsArgument(Transformer.TransformNode(n, UnderCall))
    decreases n, 1
  {
    match n {
      case Literal(_) =>
      case Call(_, ps) => TransformedArguments(ps);
    }
  }

  lemma {:induction false} TransformedArguments(ns: seq<LNode>)
    ensures Deparser.AllArguments(Transformer.TransformAll(ns, UnderCall))
    decreases ns, 0
  {
    var cs := Transformer.TransformAll(ns, UnderCall);
    forall i | 0 <= i < |ns|
      ensures Deparser.IsArgument(cs[i])
    {
      TransformedArgument(ns[i]);
    }
  }

  /** Every top-level item of a transformation is one the deparser reads,
      and unwrapping the statements leaves the un-wrapped transformation. */
  lemma TransformedItems(ns: seq<LNode>)
    ensures var cs := Transformer.TransformAll(ns, UnderProgram);
            && (forall i | 0 <= i < |cs| :: Deparser.IsItem(cs[i]))
            && Deparser.UnwrapAll(cs) == Transformer.TransformAll(ns, UnderCall)
  {
    var cs := Transformer.TransformAll(ns, UnderProgram);
    forall i | 0 <= i < |cs|
      ensures Deparser.IsItem(cs[i])
      ensures Deparser.Unwrap(cs[i]) == Transformer.TransformNode(ns[i], UnderCall)
    {
      TransformedArgument(ns[i]);
    }
  }

  /** The compiler maps the decoded text of a good program to the generated
      code of its transformation. */
  lemma CompileDecoded(p: LispProgram<string, string>)
    requires GoodProgram(p)
    ensures Compiler.Compile(DecodeGenerator.DecodeGenerate(p))
            == Ok(CodeGenerator.Generate(Transformer.Transform(p)))
  {
    TokenizeDecoded(p);
    Parser.ParseSpelled(p);
  }

  /** The decompiler maps the generated code of a good program's
      transformation back to the decoded text of the program. */
  lemma DecompileGenerated(p: LispProgram<string, string>)
    requires GoodProgram(p)
    ensures Decompiler.Decompile(CodeGenerator.Generate(Transformer.Transform(p)))
            == Ok(DecodeGenerator.DecodeGenerate(p))
  {
    var c := Transformer.Transform(p);
    DetokenizeGenerated(p);
    TransformedItems(p.body);
    Deparser.DeparseSpelled(c);
    Detransformer.DetransformTransformAll(p.body);
  }

  /** At the level of trees: detokenizing and deparsing the generated code of
      a good program's transformation, then detransforming, gives the
      program back. */
  lemma AstRoundTrip(p: LispProgram<string, string>)
    requires GoodProgram(p)
    ensures var ts := Detokenizer.Detokenize(CodeGenerator.Generate(Transformer.Transform(p)));
            && ts.Ok?
            && Deparser.Deparse(ts.value).Ok?
            && Detransformer.Detransform(Deparser.Deparse(ts.value).value) == p
  {
    var c := Transformer.Transform(p);
    DetokenizeGenerated(p);
    TransformedItems(p.body);
    Deparser.DeparseSpelled(c);
    Detransformer.DetransformTransformAll(p.body);
  }

  /** Decompiling compiled decoded text gives the text back. */
  lemma DecompileCompile(p: LispProgram<string, string>)
    requires GoodProgram(p)
    ensures var s := DecodeGenerator.DecodeGenerate(p);
            Compiler.Compile(s).Ok? && Decompiler.Decompile(Compiler.Compile(s).value) == Ok(s)
  {
    CompileDecoded(p);
    DecompileGenerated(p);
  }

  /** Compiling decompiled generated code gives the code back. */
  lemma CompileDecompile(p: LispProgram<string, string>)
    requires GoodProgram(p)
    ensures var s := CodeGenerator.Generate(Transformer.Transform(p));
            Decompiler.Decompile(s).Ok? && Compiler.Compile(Decompiler.Decompile(s).value) == Ok(s)
  {
    CompileDecoded(p);
    DecompileGenerated(p);
  }
}
