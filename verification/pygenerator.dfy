/** The Python `CodeGenerator`: the C tree to text. It is the C# code
    generator except that call arguments are joined by `, ` rather than `,`,
    and that names and literals go through `str`, so a number literal
    prints without leading zeros. */
module PyGenerator {
  import opened Chars
  import opened Ast
  import opened PyNumbers
  import opened PyTokenizer
  import CodeGenerator

  type Node = CNode<Value, Value>
  type Program = CProgram<Value, Value>

  /** `str` of a token value. */
  function Render(v: Value): (s: string)
    ensures v.Int? ==> Canonical(s) && DecimalValue(s) == v.n
    ensures v.Str? ==> s == v.s
  {
    match v
    case Str(s) => s
    case Int(n) =>
      DecimalOfString(n);
      NatToString(n)
  }

  function GenerateNode(c: Node): string
    decreases c
  {
    match c
    case ExpressionStatement(e) => GenerateNode(e) + ";"
    case CallExpression(callee, args) => GenerateNode(callee) + "(" + Join(GenerateAll(args), ", ") + ")"
    case Identifier(name) => Render(name)
    case NumberLiteral(v) => Render(v)
  }

  /** `map(cls.generate_code, ...)`: one rendering per node, in order. */
  function GenerateAll(cs: seq<Node>): (r: seq<string>)
    ensures |r| == |cs|
    ensures forall i | 0 <= i < |cs| :: r[i] == GenerateNode(cs[i])
    decreases cs
  {
    if |cs| == 0 then [] else [GenerateNode(cs[0])] + GenerateAll(cs[1..])
  }

  function Generate(p: Program): string
  {
    Join(GenerateAll(p.body), "\n")
  }

  /** The same tree with every name and literal replaced by its `str`. */
  function RenderTree(c: Node): (r: CodeGenerator.Node)
    decreases c
  {
    match c
    case ExpressionStatement(e) => ExpressionStatement(RenderTree(e))
    case CallExpression(callee, args) => CallExpression(RenderTree(callee), RenderTrees(args))
    case Identifier(name) => Identifier(Render(name))
    case NumberLiteral(v) => NumberLiteral(Render(v))
  }

  function RenderTrees(cs: seq<Node>): (r: seq<CodeGenerator.Node>)
    ensures |r| == |cs|
    ensures forall i | 0 <= i < |cs| :: r[i] == RenderTree(cs[i])
    decreases cs
  {
    if |cs| == 0 then [] else [RenderTree(cs[0])] + RenderTrees(cs[1..])
  }

  /** No name or literal of the tree prints with a comma. */
  predicate CommaFree(c: Node)
    decreases c
  {
    match c
    case ExpressionStatement(e) => CommaFree(e)
    case CallExpression(callee, args) =>
      CommaFree(callee) && forall i | 0 <= i < |args| :: CommaFree(args[i])
    case Identifier(name) => ',' !in Render(name)
    case NumberLiteral(v) => ',' !in Render(v)
  }

  /** `s` with a space inserted after every comma. */
  function Widen(s: string): (r: string)
    ensures |r| == |s| + Count(s, ',')
    ensures ',' !in s ==> r == s
  {
    if |s| == 0 then "" else (if s[0] == ',' then ", " else [s[0]]) + Widen(s[1..])
  }

  function WidenAll(parts: seq<string>): (r: seq<string>)
    ensures |r| == |parts|
    ensures forall i | 0 <= i < |parts| :: r[i] == Widen(parts[i])
  {
    if |parts| == 0 then [] else [Widen(parts[0])] + WidenAll(parts[1..])
  }

  lemma {:induction false} WidenConcat(a: string, b: string)
    ensures Widen(a + b) == Widen(a) + Widen(b)
    decreases |a|
  {
    if |a| > 0 {
      assert (a + b)[0] == a[0];
      assert (a + b)[1..] == a[1..] + b;
      WidenConcat(a[1..], b);
    } else {
      assert a + b == b;
    }
  }

  /** Widening joined text joins the widened parts by the widened
      separator: `","` becomes `", "`, a line feed stays a line feed. */
  lemma {:induction false} WidenJoin(parts: seq<string>, sep: string)
    ensures Widen(Join(parts, sep)) == Join(WidenAll(parts), Widen(sep))
    decreases |parts|
  {
    if |parts| > 1 {
      WidenConcat(parts[0] + sep, Join(parts[1..], sep));
      WidenConcat(parts[0], sep);
      WidenJoin(parts[1..], sep);
      assert WidenAll(parts)[1..] == WidenAll(parts[1..]);
    }
  }

  /** The Python output is the C# output of the same tree, with a space
      after every comma that separates two arguments. */
  lemma {:induction false} GenerateWidens(c: Node)
    requires CommaFree(c)
    ensures GenerateNode(c) == Widen(CodeGenerator.GenerateNode(RenderTree(c)))
    decreases c
  {
    match c {
      case ExpressionStatement(e) =>
        GenerateWidens(e);
        WidenConcat(CodeGenerator.GenerateNode(RenderTree(e)), ";");
      case CallExpression(callee, args) =>
        GenerateWidens(callee);
        var cs := CodeGenerator.GenerateAll(RenderTrees(args));
        forall i | 0 <= i < |args|
          ensures GenerateAll(args)[i] == WidenAll(cs)[i]
        {
          GenerateWidens(args[i]);
        }
        assert GenerateAll(args) == WidenAll(cs);
        assert Widen(",") == ", ";
        WidenJoin(cs, ",");
        var head := CodeGenerator.GenerateNode(RenderTree(callee));
        WidenConcat(head + "(" + Join(cs, ","), ")");
        WidenConcat(head + "(", Join(cs, ","));
        WidenConcat(head, "(");
      case Identifier(name) =>
      case NumberLiteral(v) =>
    }
  }

  /** The same relation for whole programs. */
  lemma GenerateProgramWidens(p: Program)
    requires forall i | 0 <= i < |p.body| :: CommaFree(p.body[i])
    ensures Generate(p) == Widen(CodeGenerator.Generate(CProgram(RenderTrees(p.body))))
  {
    var cs := CodeGenerator.GenerateAll(RenderTrees(p.body));
    forall i | 0 <= i < |p.body|
      ensures GenerateAll(p.body)[i] == WidenAll(cs)[i]
    {
      GenerateWidens(p.body[i]);
    }
    assert GenerateAll(p.body) == WidenAll(cs);
    assert Widen("\n") == "\n";
    WidenJoin(cs, "\n");
  }
}
