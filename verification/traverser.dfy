/** The generic preorder traversers (`traverser`/`traverseNode` and
    `detraverser`/`detraverseNode` in C#, `Traverser` in Python). A traversal
    is the sequence of visits it makes: a node is visited before its children,
    and children in order. The visitor callbacks of each transformer are then
    functions of one visit. The visit of the root program is not listed: no
    visitor registers a callback for the program kind. */
module Traverser {
  import opened Ast

  /** One visit: the node, and the kind of its parent. */
  datatype LispVisit<N, V> = LispVisit(node: LispNode<N, V>, parent: LispParent)

  function LispVisits<N, V>(n: LispNode<N, V>, parent: LispParent): seq<LispVisit<N, V>>
    decreases n
  {
    [LispVisit(n, parent)]
    + match n
      case Call(_, ps) => LispVisitsAll(ps, UnderCall)
      case Literal(_) => []
  }

  function LispVisitsAll<N, V>(ns: seq<LispNode<N, V>>, parent: LispParent): seq<LispVisit<N, V>>
    decreases ns
  {
    if |ns| == 0 then [] else LispVisits(ns[0], parent) + LispVisitsAll(ns[1..], parent)
  }

  function TraverseLisp<N, V>(p: LispProgram<N, V>): seq<LispVisit<N, V>>
  {
    LispVisitsAll(p.body, UnderProgram)
  }

  datatype CVisit<N, V> = CVisit(node: CNode<N, V>, parent: CParent)

  /** A statement's expression is visited, then a call's callee and then its
      arguments. */
  function CVisits<N, V>(c: CNode<N, V>, parent: CParent): seq<CVisit<N, V>>
    decreases c
  {
    [CVisit(c, parent)]
    + match c
      case ExpressionStatement(e) => CVisits(e, UnderStatement)
      case CallExpression(callee, args) =>
        CVisits(callee, UnderCallExpression) + CVisitsAll(args, UnderCallExpression)
      case Identifier(_) => []
      case NumberLiteral(_) => []
  }

  function CVisitsAll<N, V>(cs: seq<CNode<N, V>>, parent: CParent): seq<CVisit<N, V>>
    decreases cs
  {
    if |cs| == 0 then [] else CVisits(cs[0], parent) + CVisitsAll(cs[1..], parent)
  }

  function TraverseC<N, V>(p: CProgram<N, V>): seq<CVisit<N, V>>
  {
    CVisitsAll(p.body, UnderCProgram)
  }

  lemma LispVisitsAllConcat<N, V>(a: seq<LispNode<N, V>>, b: seq<LispNode<N, V>>, parent: LispParent)
    ensures LispVisitsAll(a + b, parent) == LispVisitsAll(a, parent) + LispVisitsAll(b, parent)
  {
    if |a| > 0 {
      assert (a + b)[1..] == a[1..] + b;
      LispVisitsAllConcat(a[1..], b, parent);
    } else {
      assert a + b == b;
    }
  }
}
