/** The C# `detransformer`: the C tree back to the Lisp tree in one traversal.
    Its two callbacks turn a `NumberLiteral` into a literal and a
    `CallExpression` into a call named after `Callee.Name`, appended to the
    parent's `Context`. No callback exists for `ExpressionStatement`, so a
    statement's expression lands in the statement's own `Context`, a list
    nobody reads: a statement and everything below it contribute nothing. The
    callee is visited as the first child of its call, so a callee that is not
    an identifier becomes the call's first param. */
module Detransformer {
  import opened Ast
  import opened Traverser
  import Transformer

  type Node = CNode<string, string>
  type LNode = LispNode<string, string>

  /** `Callee.Name`; a callee that is not an identifier has no name (null in
      the source, which renders like the empty string). */
  function CalleeName(callee: Node): string
  {
    if callee.Identifier? then callee.name else ""
  }

  /** The Lisp nodes a C node adds to its parent's list: at most one. */
  function DetransformNode(c: Node): (r: seq<LNode>)
    ensures |r| <= 1
    ensures |r| == 1 <==> c.NumberLiteral? || c.CallExpression?
    decreases c
  {
    match c
    case NumberLiteral(v) => [Literal(v)]
    case CallExpression(callee, args) =>
      [Call(CalleeName(callee), DetransformNode(callee) + DetransformAll(args))]
    case Identifier(_) => []
    case ExpressionStatement(_) => []
  }

  function DetransformAll(cs: seq<Node>): seq<LNode>
    decreases cs
  {
    if |cs| == 0 then [] else DetransformNode(cs[0]) + DetransformAll(cs[1..])
  }

  function Detransform(p: CProgram<string, string>): LispProgram<string, string>
  {
    LispProgram(DetransformAll(p.body))
  }

  lemma DetransformAllConcat(a: seq<Node>, b: seq<Node>)
    ensures DetransformAll(a + b) == DetransformAll(a) + DetransformAll(b)
  {
    if |a| > 0 {
      assert (a + b)[1..] == a[1..] + b;
      DetransformAllConcat(a[1..], b);
    } else {
      assert a + b == b;
    }
  }

  /** Detransforming an un-wrapped transformed node gives the node back. */
  lemma {:induction false} DetransformTransformNode(n: LNode)
    ensures DetransformNode(Transformer.TransformNode(n, UnderCall)) == [n]
    decreases n, 1
  {
    match n {
      case Literal(_) =>
      case Call(name, ps) =>
        DetransformTransformAll(ps);
        assert [] + ps == ps;
    }
  }

  lemma {:induction false} DetransformTransformAll(ns: seq<LNode>)
    ensures DetransformAll(Transformer.TransformAll(ns, UnderCall)) == ns
    decreases ns, 0
  {
    if |ns| > 0 {
      var cs := Transformer.TransformAll(ns, UnderCall);
      assert cs[1..] == Transformer.TransformAll(ns[1..], UnderCall);
      DetransformTransformNode(ns[0]);
      DetransformTransformAll(ns[1..]);
      assert [ns[0]] + ns[1..] == ns;
    }
  }

  /** Applied directly to the transformer's output, the detransformer keeps
      only the top-level literals: every call there is wrapped in a statement. */
  lemma {:induction false} DetransformDropsStatements(ns: seq<LNode>)
    ensures DetransformAll(Transformer.TransformAll(ns, UnderProgram)) == Literals(ns)
    decreases ns
  {
    if |ns| > 0 {
      var cs := Transformer.TransformAll(ns, UnderProgram);
      assert cs[1..] == Transformer.TransformAll(ns[1..], UnderProgram);
      DetransformDropsStatements(ns[1..]);
    }
  }

  function Literals(ns: seq<LNode>): seq<LNode>
  {
    if |ns| == 0 then [] else (if ns[0].Literal? then [ns[0]] else []) + Literals(ns[1..])
  }

  /** The nodes the callback builds for one visit, before any child is
      appended: one for a literal or a call, none otherwise. */
  function Callback(v: CVisit<string, string>): seq<LNode>
  {
    match v.node
    case NumberLiteral(x) => [Literal(x)]
    case CallExpression(callee, _) => [Call(CalleeName(callee), [])]
    case _ => []
  }

  function Callbacks(vs: seq<CVisit<string, string>>): seq<LNode>
  {
    if |vs| == 0 then [] else Callback(vs[0]) + Callbacks(vs[1..])
  }

  /** The nodes of a Lisp tree in preorder, each with an empty param list. */
  function Shells(n: LNode): seq<LNode>
    decreases n
  {
    match n
    case Literal(_) => [n]
    case Call(name, ps) => [Call(name, [])] + ShellsAll(ps)
  }

  function ShellsAll(ns: seq<LNode>): seq<LNode>
    decreases ns
  {
    if |ns| == 0 then [] else Shells(ns[0]) + ShellsAll(ns[1..])
  }

  lemma CallbacksConcat(a: seq<CVisit<string, string>>, b: seq<CVisit<string, string>>)
    ensures Callbacks(a + b) == Callbacks(a) + Callbacks(b)
  {
    if |a| > 0 {
      assert (a + b)[1..] == a[1..] + b;
      CallbacksConcat(a[1..], b);
    } else {
      assert a + b == b;
    }
  }

  lemma ShellsAllConcat(a: seq<LNode>, b: seq<LNode>)
    ensures ShellsAll(a + b) == ShellsAll(a) + ShellsAll(b)
  {
    if |a| > 0 {
      assert (a + b)[1..] == a[1..] + b;
      ShellsAllConcat(a[1..], b);
    } else {
      assert a + b == b;
    }
  }

  /** For a tree without statements, running the callbacks over the
      traversal creates the nodes of `Detransform(p)`, one per literal or
      call visited, in preorder. */
  lemma TraversalBuildsDetransform(p: CProgram<string, string>)
    requires NoStatements(p.body)
    ensures ShellsAll(Detransform(p).body) == Callbacks(TraverseC(p))
  {
    ShellsOfAll(p.body, UnderCProgram);
  }

  lemma {:induction false} ShellsOfNode(c: Node, parent: CParent)
    requires NoStatementsIn(c)
    ensures ShellsAll(DetransformNode(c)) == Callbacks(CVisits(c, parent))
    decreases c, 1
  {
    match c {
      case NumberLiteral(_) =>
        assert CVisits(c, parent) == [CVisit(c, parent)];
      case Identifier(_) =>
        assert CVisits(c, parent) == [CVisit(c, parent)];
      case CallExpression(callee, args) =>
        ShellsOfNode(callee, UnderCallExpression);
        ShellsOfAll(args, UnderCallExpression);
        var kids := DetransformNode(callee) + DetransformAll(args);
        ShellsAllConcat(DetransformNode(callee), DetransformAll(args));
        assert ShellsAll([Call(CalleeName(callee), kids)]) == Shells(Call(CalleeName(callee), kids));
        CallbacksConcat([CVisit(c, parent)], CVisits(callee, UnderCallExpression) + CVisitsAll(args, UnderCallExpression));
        CallbacksConcat(CVisits(callee, UnderCallExpression), CVisitsAll(args, UnderCallExpression));
    }
  }

  lemma {:induction false} ShellsOfAll(cs: seq<Node>, parent: CParent)
    requires NoStatements(cs)
    ensures ShellsAll(DetransformAll(cs)) == Callbacks(CVisitsAll(cs, parent))
    decreases cs, 0
  {
    if |cs| > 0 {
      ShellsOfNode(cs[0], parent);
      ShellsOfAll(cs[1..], parent);
      ShellsAllConcat(DetransformNode(cs[0]), DetransformAll(cs[1..]));
      CallbacksConcat(CVisits(cs[0], parent), CVisitsAll(cs[1..], parent));
    }
  }
}
