/** The two syntax trees. Names have type N and literal values type V: the C#
    code keeps both as strings, the Python code may carry an integer name and
    converts literals to `int`. The root `Program` node is its own datatype,
    since only the root can be a program. */
module Ast {

  /** `LispAstNode` below the root: `CallExpression` or `NumberLiteral`. */
  datatype LispNode<N, V> =
    | Call(name: N, params: seq<LispNode<N, V>>)
    | Literal(value: V)

  datatype LispProgram<N, V> = LispProgram(body: seq<LispNode<N, V>>)

  /** `CAstNode` below the root. */
  datatype CNode<N, V> =
    | ExpressionStatement(expression: CNode<N, V>)
    | CallExpression(callee: CNode<N, V>, arguments: seq<CNode<N, V>>)
    | Identifier(name: N)
    | NumberLiteral(value: V)

  datatype CProgram<N, V> = CProgram(body: seq<CNode<N, V>>)

  /** The kind of the node a Lisp node hangs under (its `parent.Type`). */
  datatype LispParent = UnderProgram | UnderCall

  /** The kind of the node a C node hangs under. */
  datatype CParent = UnderCProgram | UnderStatement | UnderCallExpression

  /** No `ExpressionStatement` anywhere in the nodes. */
  predicate NoStatements<N, V>(cs: seq<CNode<N, V>>)
    decreases cs
  {
    forall i | 0 <= i < |cs| :: NoStatementsIn(cs[i])
  }

  predicate NoStatementsIn<N, V>(c: CNode<N, V>)
    decreases c
  {
    match c
    case ExpressionStatement(_) => false
    case CallExpression(callee, args) => NoStatementsIn(callee) && NoStatements(args)
    case Identifier(_) => true
    case NumberLiteral(_) => true
  }
}
