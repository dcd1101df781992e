/** The C# `decodeGenerator`: the Lisp tree to S-expression text. A program
    is its items joined by newlines, a call is `(`, the name, a space, the
    params joined by spaces and `)` (so a call without params prints as
    `(f )`), and a literal is its text. */
module DecodeGenerator {
  import opened Chars
  import opened Ast

  type Node = LispNode<string, string>

  function DecodeNode(n: Node): string
    decreases n
  {
    match n
    case Literal(v) => v
    case Call(name, ps) => "(" + name + " " + Join(DecodeAll(ps), " ") + ")"
  }

  function DecodeAll(ns: seq<Node>): (r: seq<string>)
    ensures |r| == |ns|
    ensures forall i | 0 <= i < |ns| :: r[i] == DecodeNode(ns[i])
    decreases ns
  {
    if |ns| == 0 then [] else [DecodeNode(ns[0])] + DecodeAll(ns[1..])
  }

  function DecodeGenerate(p: LispProgram<string, string>): string
  {
    Join(DecodeAll(p.body), "\n")
  }
}
