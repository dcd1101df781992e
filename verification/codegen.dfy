/** The C# `codeGenerator`: the C tree to text. A program is its items joined
    by newlines, a statement is its expression followed by `;`, a call is the
    callee, then the arguments joined by `,` in parentheses; identifiers and
    literals are their text. */
module CodeGenerator {
  import opened Chars
  import opened Ast

  type Node = CNode<string, string>
  type Program = CProgram<string, string>

  function GenerateNode(c: Node): string
    decreases c
  {
    match c
    case ExpressionStatement(e) => GenerateNode(e) + ";"
    case CallExpression(callee, args) => GenerateNode(callee) + "(" + Join(GenerateAll(args), ",") + ")"
    case Identifier(name) => name
    case NumberLiteral(v) => v
  }

  /** The `Map(codeGenerator)` helper: one rendering per node, in order. */
  function GenerateAll(cs: seq<Node>): (r: seq<string>)
    ensures |r| == |cs|
    ensures forall i | 0 <= i < |cs| :: r[i] == GenerateNode(cs[i])
    decreases cs
  {
    if |cs| == 0 then [] else [GenerateNode(cs[0])] + GenerateAll(cs[1..])
  }

  function Generate(p: Program): string
  {
    Join(GenerateAll(p.body), "\n")
  }

  /** No name or value of the tree holds a line feed. */
  predicate LineFree(c: Node)
    decreases c
  {
    match c
    case ExpressionStatement(e) => LineFree(e)
    case CallExpression(callee, args) => LineFree(callee) && forall i | 0 <= i < |args| :: LineFree(args[i])
    case Identifier(name) => Count(name, '\n') == 0
    case NumberLiteral(v) => Count(v, '\n') == 0
  }

  /** Rendering a node adds no line feed of its own. */
  lemma {:induction false} GenerateNodeLineFree(c: Node)
    requires LineFree(c)
    ensures Count(GenerateNode(c), '\n') == 0
    decreases c
  {
    match c {
      case ExpressionStatement(e) =>
        GenerateNodeLineFree(e);
        CountConcat(GenerateNode(e), ";", '\n');
        assert Count(";", '\n') == 0;
      case CallExpression(callee, args) =>
        GenerateNodeLineFree(callee);
        var parts := GenerateAll(args);
        forall i | 0 <= i < |parts|
          ensures Count(parts[i], '\n') == 0
        {
          GenerateNodeLineFree(args[i]);
        }
        assert Count(",", '\n') == 0;
        JoinFree(parts, ",", '\n');
        var head := GenerateNode(callee) + "(";
        var j := Join(parts, ",");
        CountConcat(GenerateNode(callee), "(", '\n');
        CountConcat(head, j, '\n');
        CountConcat(head + j, ")", '\n');
        assert Count("(", '\n') == 0 && Count(")", '\n') == 0;
      case Identifier(_) =>
      case NumberLiteral(_) =>
    }
  }

  /** The output has one line per top-level item: items are separated by
      line feeds and hold none of their own. */
  lemma GenerateLines(p: Program)
    requires |p.body| > 0
    requires forall i | 0 <= i < |p.body| :: LineFree(p.body[i])
    ensures Count(Generate(p), '\n') == |p.body| - 1
  {
    var parts := GenerateAll(p.body);
    forall i | 0 <= i < |parts|
      ensures Count(parts[i], '\n') == 0
    {
      GenerateNodeLineFree(p.body[i]);
    }
    assert "\n" == ['\n'];
    JoinCount(parts, '\n');
  }

}
