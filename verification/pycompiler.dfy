/** The Python `compile_`: `tokenize`, `parse`, `Transformer.transform` and
    `CodeGenerator.generate_code` in sequence, the first exception being the
    result. The transformer is the one the C# model uses, on trees whose
    names and literals are token values. Against the C# compiler: on every
    program both can carry, the Python output is the C# output with a space
    after each argument comma, provided no literal has a leading zero (`int`
    then `str` drops those). */
module PyCompiler {
  import opened Wrappers
  import opened Chars
  import opened Syntax
  import opened Ast
  import opened PyNumbers
  import opened PyTokenizer
  import PyParser
  import PyGenerator
  import Transformer
  import Parser
  import CodeGenerator
  import Compiler
  import DecodeGenerator
  import RoundTrip

  function Compile(input: string): Result<string, Error>
  {
    var tokens :- PyTokenizer.Tokenize(input);
    var ast :- PyParser.Parse(tokens);
    Ok(PyGenerator.Generate(Transformer.Transform(ast)))
  }

  /** The Python tree the C# tree is read as: names are token text, literals
      the `int` of their digits. */
  function ConvertNode(n: Parser.Node): (r: PyParser.Node)
    decreases n
  {
    match n
    case Literal(v) => Literal(Int(DecimalValue(v)))
    case Call(name, ps) => Call(Str(name), ConvertNodes(ps))
  }

  function ConvertNodes(ns: seq<Parser.Node>): (r: seq<PyParser.Node>)
    ensures |r| == |ns|
    ensures forall i | 0 <= i < |ns| :: r[i] == ConvertNode(ns[i])
    decreases ns
  {
    if |ns| == 0 then [] else [ConvertNode(ns[0])] + ConvertNodes(ns[1..])
  }

  /** Names without commas, literals as `str` would write them. */
  predicate Plain(n: Parser.Node)
    decreases n
  {
    match n
    case Literal(v) => Canonical(v)
    case Call(name, ps) => ',' !in name && forall i | 0 <= i < |ps| :: Plain(ps[i])
  }

  /** No literal of the tree has a leading zero, unless it is "0". */
  predicate NoLeadingZeros(n: Parser.Node)
    decreases n
  {
    match n
    case Literal(v) => |v| <= 1 || v[0] != '0'
    case Call(name, ps) => forall i | 0 <= i < |ps| :: NoLeadingZeros(ps[i])
  }

  /** A tree the round trip carries is plain once its literals have no
      leading zeros: letter names hold no comma. */
  lemma {:induction false} PlainOfGood(n: Parser.Node)
    requires RoundTrip.GoodNode(n) && NoLeadingZeros(n)
    ensures Plain(n)
    decreases n
  {
    match n {
      case Literal(v) =>
      case Call(name, ps) =>
        assert ',' !in name by {
          assert forall i | 0 <= i < |name| :: IsLetter(name[i]);
        }
        forall i | 0 <= i < |ps|
          ensures Plain(ps[i])
        {
          PlainOfGood(ps[i]);
        }
    }
  }

  /** The Python reading of the C# spelling of some nodes is the Python
      spelling of their conversion. */
  lemma {:induction false} SpellConverted(ns: seq<Parser.Node>)
    ensures ConvertAll(Parser.SpellAll(ns)) == PyParser.SpellAll(ConvertNodes(ns))
    decreases ns
  {
    if |ns| > 0 {
      SpellConvertedNode(ns[0]);
      SpellConverted(ns[1..]);
      ConvertConcat(Parser.Spell(ns[0]), Parser.SpellAll(ns[1..]));
      assert ConvertNodes(ns)[1..] == ConvertNodes(ns[1..]);
    }
  }

  lemma {:induction false} SpellConvertedNode(n: Parser.Node)
    ensures ConvertAll(Parser.Spell(n)) == PyParser.Spell(ConvertNode(n))
    decreases n
  {
    match n {
      case Literal(v) =>
      case Call(name, ps) =>
        var open := [Open, Token(Name, name)];
        SpellConverted(ps);
        ConvertConcat(open + Parser.SpellAll(ps), [Close]);
        ConvertConcat(open, Parser.SpellAll(ps));
        assert ConvertAll(open) == [PyParser.OpenToken, PyToken(Name, Str(name))];
    }
  }

  /** Transforming the converted tree and printing its names and literals
      with `str` gives back the C# transformation of the original, and no
      name or literal in it prints with a comma. */
  lemma {:induction false} TransformConverted(n: Parser.Node, parent: LispParent)
    requires Plain(n)
    ensures var c := Transformer.TransformNode(ConvertNode(n), parent);
      PyGenerator.CommaFree(c) && PyGenerator.RenderTree(c) == Transformer.TransformNode(n, parent)
    decreases n
  {
    match n {
      case Literal(v) =>
        StringOfDecimal(v);
        assert ',' !in v by {
          assert forall i | 0 <= i < |v| :: IsDigit(v[i]);
        }
      case Call(name, ps) =>
        var args := Transformer.TransformAll(ConvertNodes(ps), UnderCall);
        forall i | 0 <= i < |ps|
          ensures PyGenerator.CommaFree(args[i])
          ensures PyGenerator.RenderTrees(args)[i] == Transformer.TransformAll(ps, UnderCall)[i]
        {
          TransformConverted(ps[i], UnderCall);
        }
        assert PyGenerator.RenderTrees(args) == Transformer.TransformAll(ps, UnderCall);
        var call := CallExpression(Identifier(Str(name)), args);
        assert Transformer.TransformNode(ConvertNode(n), UnderCall) == call;
        assert PyGenerator.RenderTree(call) == Transformer.TransformNode(n, UnderCall);
    }
  }

  /** On a program both compilers can carry, written as the decompiler
      writes it and with no leading zeros, the Python compiler succeeds and
      its output is the C# output with a space after every argument comma. */
  lemma CompilersAgree(p: Parser.Program)
    requires RoundTrip.GoodProgram(p)
    requires forall i | 0 <= i < |p.body| :: NoLeadingZeros(p.body[i])
    ensures var src := DecodeGenerator.DecodeGenerate(p);
      Compiler.Compile(src).Ok? && Compile(src) == Ok(PyGenerator.Widen(Compiler.Compile(src).value))
  {
    var src := DecodeGenerator.DecodeGenerate(p);
    RoundTrip.CompileDecoded(p);
    var q := PythonReadsDecoded(p);
    ConvertedRenders(p, q);
    PyGenerator.GenerateProgramWidens(Transformer.Transform(q));
  }

  /** The Python front end reads the decoded text as the converted tree. */
  lemma PythonReadsDecoded(p: Parser.Program) returns (q: PyParser.Program)
    requires RoundTrip.GoodProgram(p)
    ensures q == LispProgram(ConvertNodes(p.body))
    ensures var src := DecodeGenerator.DecodeGenerate(p);
      PyTokenizer.Tokenize(src).Ok? && PyParser.Parse(PyTokenizer.Tokenize(src).value) == Ok(q)
  {
    var src := DecodeGenerator.DecodeGenerate(p);
    RoundTrip.TokenizeDecoded(p);
    TokenizeAgrees(src);
    SpellConverted(p.body);
    q := LispProgram(ConvertNodes(p.body));
    PyParser.ParseSpelled(q);
    assert PyParser.Parse(ConvertAll(Parser.SpellProgram(p))) == Ok(q);
  }

  /** The shared transformer on the converted program is comma-free and
      renders back to the C# transformation. */
  lemma ConvertedRenders(p: Parser.Program, q: PyParser.Program)
    requires RoundTrip.GoodProgram(p)
    requires forall i | 0 <= i < |p.body| :: NoLeadingZeros(p.body[i])
    requires q == LispProgram(ConvertNodes(p.body))
    ensures forall i | 0 <= i < |Transformer.Transform(q).body| ::
      PyGenerator.CommaFree(Transformer.Transform(q).body[i])
    ensures CProgram(PyGenerator.RenderTrees(Transformer.Transform(q).body)) == Transformer.Transform(p)
  {
    var cs := Transformer.Transform(q).body;
    forall i | 0 <= i < |p.body|
      ensures PyGenerator.CommaFree(cs[i])
      ensures PyGenerator.RenderTrees(cs)[i] == Transformer.Transform(p).body[i]
    {
      PlainOfGood(p.body[i]);
      TransformConverted(p.body[i], UnderProgram);
    }
  }
}
