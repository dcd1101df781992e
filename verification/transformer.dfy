/** The `transformer` (C# and Python): the Lisp tree to the C tree in one
    traversal. The source threads a mutable `Context` list from each node to its
    children; here each node returns the node it builds and its parent collects
    the results, which builds the same tree. A call is wrapped in an
    `ExpressionStatement` exactly when its parent is not a call. */
module Transformer {
  import opened Ast
  import opened Traverser

  function TransformNode<N, V>(n: LispNode<N, V>, parent: LispParent): (c: CNode<N, V>)
    ensures c.ExpressionStatement? <==> (n.Call? && parent != UnderCall)
    ensures parent == UnderCall ==> NoStatementsIn(c)
    ensures c.NumberLiteral? <==> n.Literal?
    decreases n
  {
    match n
    case Literal(v) => NumberLiteral(v)
    case Call(name, ps) =>
      var call := CallExpression(Identifier(name), TransformAll(ps, UnderCall));
      if parent == UnderCall then call else ExpressionStatement(call)
  }

  function TransformAll<N, V>(ns: seq<LispNode<N, V>>, parent: LispParent): (cs: seq<CNode<N, V>>)
    ensures |cs| == |ns|
    ensures forall i | 0 <= i < |ns| :: cs[i] == TransformNode(ns[i], parent)
    decreases ns
  {
    if |ns| == 0 then [] else [TransformNode(ns[0], parent)] + TransformAll(ns[1..], parent)
  }

  /** One C item per top-level expression, in order; exactly the calls are
      statements, and no statement occurs below the top level. */
  function Transform<N, V>(p: LispProgram<N, V>): (r: CProgram<N, V>)
    ensures |r.body| == |p.body|
    ensures forall i | 0 <= i < |p.body| ::
      && (r.body[i].ExpressionStatement? <==> p.body[i].Call?)
      && (r.body[i].ExpressionStatement? ==> NoStatementsIn(r.body[i].expression))
      && (r.body[i].NumberLiteral? <==> p.body[i].Literal?)
  {
    CProgram(TransformAll(p.body, UnderProgram))
  }

  /** The node the source's visitor callback builds for one visit, before
      any child is appended to it. */
  function Callback<N, V>(v: LispVisit<N, V>): CNode<N, V>
  {
    match v.node
    case Literal(x) => NumberLiteral(x)
    case Call(name, _) =>
      var e := CallExpression(Identifier(name), []);
      if v.parent == UnderCall then e else ExpressionStatement(e)
  }

  function Callbacks<N, V>(vs: seq<LispVisit<N, V>>): seq<CNode<N, V>>
  {
    if |vs| == 0 then [] else [Callback(vs[0])] + Callbacks(vs[1..])
  }

  /** The nodes of a C tree in the order they are created in one preorder
      pass, each with an empty argument list (a statement is created
      together with its call, a callee together with its call). */
  function Shells<N, V>(c: CNode<N, V>): seq<CNode<N, V>>
    decreases c
  {
    match c
    case ExpressionStatement(e) =>
      if e.CallExpression? then [ExpressionStatement(CallExpression(e.callee, []))] + ShellsAll(e.arguments)
      else [c]
    case CallExpression(callee, args) => [CallExpression(callee, [])] + ShellsAll(args)
    case Identifier(_) => [c]
    case NumberLiteral(_) => [c]
  }

  function ShellsAll<N, V>(cs: seq<CNode<N, V>>): seq<CNode<N, V>>
    decreases cs
  {
    if |cs| == 0 then [] else Shells(cs[0]) + ShellsAll(cs[1..])
  }

  lemma CallbacksConcat<N, V>(a: seq<LispVisit<N, V>>, b: seq<LispVisit<N, V>>)
    ensures Callbacks(a + b) == Callbacks(a) + Callbacks(b)
  {
    if |a| > 0 {
      assert (a + b)[1..] == a[1..] + b;
      CallbacksConcat(a[1..], b);
    } else {
      assert a + b == b;
    }
  }

  /** Running the callbacks over the traversal creates the nodes of
      `Transform(p)` one per visit, in preorder: the single pass of the
      source and the structural recursion create the same nodes in the same
      order. Which list each node joins is `Replay`'s concern. */
  lemma TraversalBuildsTransform<N, V>(p: LispProgram<N, V>)
    ensures ShellsAll(Transform(p).body) == Callbacks(TraverseLisp(p))
  {
    ShellsOfAll(p.body, UnderProgram);
  }

  lemma {:induction false} ShellsOfNode<N, V>(n: LispNode<N, V>, parent: LispParent)
    ensures Shells(TransformNode(n, parent)) == Callbacks(LispVisits(n, parent))
    decreases n, 1
  {
    match n {
      case Literal(_) =>
        assert LispVisits(n, parent) == [LispVisit(n, parent)];
      case Call(name, ps) =>
        ShellsOfAll(ps, UnderCall);
        CallbacksConcat([LispVisit(n, parent)], LispVisitsAll(ps, UnderCall));
    }
  }

  lemma {:induction false} ShellsOfAll<N, V>(ns: seq<LispNode<N, V>>, parent: LispParent)
    ensures ShellsAll(TransformAll(ns, parent)) == Callbacks(LispVisitsAll(ns, parent))
    decreases ns, 0
  {
    if |ns| > 0 {
      var cs := TransformAll(ns, parent);
      assert cs[1..] == TransformAll(ns[1..], parent);
      ShellsOfNode(ns[0], parent);
      ShellsOfAll(ns[1..], parent);
      CallbacksConcat(LispVisits(ns[0], parent), LispVisitsAll(ns[1..], parent));
    }
  }

  /** The source's `Context` lists, replayed over a visit sequence. The
      visit at the head creates its node by `Callback`. If it visits a call,
      the visits of the call's params follow, one subtree each, and each of
      those pushes its node onto the call's `Context`, which is the argument
      list of the new call expression. Returns the node and the visits left
      over. */
  function Replay<N, V>(vs: seq<LispVisit<N, V>>): (r: (CNode<N, V>, seq<LispVisit<N, V>>))
    requires |vs| > 0
    ensures |r.1| < |vs|
    decreases |vs|, 0
  {
    var v := vs[0];
    match v.node
    case Literal(_) => (Callback(v), vs[1..])
    case Call(_, ps) =>
      var kids := ReplayChildren(vs[1..], |ps|);
      (Adopt(Callback(v), kids.0), kids.1)
  }

  /** The `k` nodes pushed, in order, by the next `k` subtrees of visits. */
  function ReplayChildren<N, V>(vs: seq<LispVisit<N, V>>, k: nat): (r: (seq<CNode<N, V>>, seq<LispVisit<N, V>>))
    ensures |r.1| <= |vs|
    decreases |vs|, 1
  {
    if k == 0 || |vs| == 0 then ([], vs)
    else
      var first := Replay(vs);
      var rest := ReplayChildren(first.1, k - 1);
      ([first.0] + rest.0, rest.1)
  }

  /** A call shell, wrapped in a statement or not, with `args` as the
      contents of its `Context`. */
  function Adopt<N, V>(shell: CNode<N, V>, args: seq<CNode<N, V>>): CNode<N, V>
  {
    match shell
    case ExpressionStatement(CallExpression(callee, _)) => ExpressionStatement(CallExpression(callee, args))
    case CallExpression(callee, _) => CallExpression(callee, args)
    case _ => shell
  }

  /** The `Context` side channel builds the transformed tree: pushing each
      created node onto the list of the node its visit names as parent,
      starting from the program's `Body`, yields exactly `Transform(p)`,
      with every visit used. */
  lemma TraversalBuildsTree<N, V>(p: LispProgram<N, V>)
    ensures ReplayChildren(TraverseLisp(p), |p.body|) == (Transform(p).body, [])
  {
    ReplayAll(p.body, UnderProgram, []);
    assert TraverseLisp(p) + [] == TraverseLisp(p);
  }

  lemma {:induction false} ReplayNode<N, V>(n: LispNode<N, V>, parent: LispParent, rest: seq<LispVisit<N, V>>)
    ensures Replay(LispVisits(n, parent) + rest) == (TransformNode(n, parent), rest)
    decreases n, 1
  {
    var vs := LispVisits(n, parent) + rest;
    assert vs[0] == LispVisit(n, parent);
    match n {
      case Literal(_) =>
        assert vs[1..] == rest;
      case Call(name, ps) =>
        assert vs[1..] == LispVisitsAll(ps, UnderCall) + rest;
        ReplayAll(ps, UnderCall, rest);
    }
  }

  lemma {:induction false} ReplayAll<N, V>(ns: seq<LispNode<N, V>>, parent: LispParent, rest: seq<LispVisit<N, V>>)
    ensures ReplayChildren(LispVisitsAll(ns, parent) + rest, |ns|) == (TransformAll(ns, parent), rest)
    decreases ns, 0
  {
    if |ns| > 0 {
      var later := LispVisitsAll(ns[1..], parent) + rest;
      assert LispVisitsAll(ns, parent) + rest == LispVisits(ns[0], parent) + later;
      ReplayNode(ns[0], parent, later);
      ReplayAll(ns[1..], parent, rest);
      assert TransformAll(ns, parent) == [TransformNode(ns[0], parent)] + TransformAll(ns[1..], parent);
    } else {
      assert LispVisitsAll(ns, parent) + rest == rest;
    }
  }

}
