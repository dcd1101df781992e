/** The Python `parse` and its nested `walk`, which share one token iterator.
    A number token is a literal carrying the token's value; the token
    `('paren', '(')` opens a call named by the value of whatever token comes
    next, and its params run up to the token `('paren', ')')` or to the end
    of the tokens, whichever comes first; any other token raises. The
    iterator becomes a cursor into the token sequence; the `next` that finds
    no name token is `Err(UnexpectedEnd)`. */
module PyParser {
  import opened Wrappers
  import opened Syntax
  import opened Ast
  import opened PyTokenizer

  type Node = LispNode<Value, Value>
  type Program = LispProgram<Value, Value>

  const OpenToken := PyToken(Paren, Str("("))
  const CloseToken := PyToken(Paren, Str(")"))

  /** `walk` on the token at `current`: the node read and the cursor after
      it. */
  function Walk(tokens: seq<PyToken>, current: nat): (r: Result<(Node, nat), Error>)
    requires current < |tokens|
    ensures r.Ok? ==> current < r.value.1 <= |tokens|
    ensures r.Err? ==> r.error == UnexpectedEnd || r.error.UnexpectedToken?
    ensures r.Ok? ==> (r.value.0.Literal? <==> tokens[current].kind == Number)
    ensures tokens[current] == OpenToken && current + 1 == |tokens| ==> r == Err(UnexpectedEnd)
    ensures tokens[current].kind != Number && tokens[current] != OpenToken ==>
              r == Err(UnexpectedToken(tokens[current].kind))
    decreases |tokens| - current, 0
  {
    var token := tokens[current];
    if token.kind == Number then
      Ok((Literal(token.value), current + 1))
    else if token == OpenToken then
      if current + 1 == |tokens| then Err(UnexpectedEnd)
      else
        var ps :- WalkParams(tokens, current + 2);
        Ok((Call(tokens[current + 1].value, ps.0), ps.1))
    else
      Err(UnexpectedToken(token.kind))
  }

  /** The `for token in tokens` loop of a call: params up to the closing
      paren, which it consumes, or up to the end of the tokens. */
  function WalkParams(tokens: seq<PyToken>, current: nat): (r: Result<(seq<Node>, nat), Error>)
    requires current <= |tokens|
    ensures r.Ok? ==> current <= r.value.1 <= |tokens|
    ensures r.Err? ==> r.error == UnexpectedEnd || r.error.UnexpectedToken?
    decreases |tokens| - current, 1
  {
    if current == |tokens| then Ok(([], current))
    else if tokens[current] == CloseToken then Ok(([], current + 1))
    else
      var p :- Walk(tokens, current);
      var rest :- WalkParams(tokens, p.1);
      Ok(([p.0] + rest.0, rest.1))
  }

  /** The `for token in tokens` loop of `parse`. */
  function ParseFrom(tokens: seq<PyToken>, current: nat): (r: Result<seq<Node>, Error>)
    requires current <= |tokens|
    ensures r.Ok? ==> |r.value| <= |tokens| - current
    decreases |tokens| - current
  {
    if current == |tokens| then Ok([])
    else
      var n :- Walk(tokens, current);
      var rest :- ParseFrom(tokens, n.1);
      Ok([n.0] + rest)
  }

  function Parse(tokens: seq<PyToken>): Result<Program, Error>
  {
    var body :- ParseFrom(tokens, 0);
    Ok(LispProgram(body))
  }

  /** The tokens that spell a node: `(`, the name, the params, `)`. */
  function Spell(n: Node): (r: seq<PyToken>)
    ensures |r| > 0 && r[0] != CloseToken
    decreases n
  {
    match n
    case Literal(v) => [PyToken(Number, v)]
    case Call(name, ps) => [OpenToken, PyToken(Name, name)] + SpellAll(ps) + [CloseToken]
  }

  function SpellAll(ns: seq<Node>): seq<PyToken>
    decreases ns
  {
    if |ns| == 0 then [] else Spell(ns[0]) + SpellAll(ns[1..])
  }

  function SpellProgram(p: Program): seq<PyToken>
  {
    SpellAll(p.body)
  }

  /** Parsing the spelling of any program gives that program back. */
  lemma ParseSpelled(p: Program)
    ensures Parse(SpellProgram(p)) == Ok(p)
  {
    assert SpellAll(p.body)[0..] == SpellAll(p.body);
    ParseFromSpelled(SpellAll(p.body), 0, p.body);
  }

  /** The closing paren of the last call may be left out: the end of the
      tokens closes it. */
  lemma ParseUnclosed(p: Program)
    requires |p.body| > 0 && p.body[|p.body| - 1].Call?
    ensures var ts := SpellProgram(p); Parse(ts[..|ts| - 1]) == Ok(p)
  {
    var ts := SpellProgram(p);
    SpellAllEndsClosed(p.body);
    assert ts[..|ts| - 1][0..] + [CloseToken] == ts;
    UnclosedFrom(ts[..|ts| - 1], 0, p.body);
  }

  lemma {:induction false} ParseFromSpelled(ts: seq<PyToken>, current: nat, ns: seq<Node>)
    requires current <= |ts|
    requires ts[current..] == SpellAll(ns)
    ensures ParseFrom(ts, current) == Ok(ns)
    decreases ns
  {
    if |ns| > 0 {
      var k := FirstLayout(ts, current, ns);
      WalkSpelled(ts, current, ns[0]);
      ParseFromSpelled(ts, current + k, ns[1..]);
      ParseFromCons(ts, current, ns[0], current + k, ns[1..]);
      assert [ns[0]] + ns[1..] == ns;
    } else {
      assert |ts[current..]| == 0;
    }
  }

  /** Where the spelling of the first of several nodes ends. */
  lemma FirstLayout(ts: seq<PyToken>, current: nat, ns: seq<Node>) returns (k: nat)
    requires |ns| > 0 && current <= |ts|
    requires ts[current..] == SpellAll(ns)
    ensures k == |Spell(ns[0])| && current + k <= |ts|
    ensures ts[current..current + k] == Spell(ns[0])
    ensures ts[current + k..] == SpellAll(ns[1..])
  {
    k := |Spell(ns[0])|;
    assert ts[current..current + k] == ts[current..][..k];
    assert ts[current + k..] == ts[current..][k..];
  }

  /** One turn of the `parse` loop followed by the rest. */
  lemma ParseFromCons(ts: seq<PyToken>, current: nat, n: Node, next: nat, rest: seq<Node>)
    requires current < next <= |ts|
    requires Walk(ts, current) == Ok((n, next))
    requires ParseFrom(ts, next) == Ok(rest)
    ensures ParseFrom(ts, current) == Ok([n] + rest)
  {
  }

  /** `ts` from `current` on is the spelling of `ns` with the final closing
      paren dropped. */
  lemma {:induction false} UnclosedFrom(ts: seq<PyToken>, current: nat, ns: seq<Node>)
    requires |ns| > 0 && ns[|ns| - 1].Call?
    requires current <= |ts|
    requires ts[current..] + [CloseToken] == SpellAll(ns)
    ensures ParseFrom(ts, current) == Ok(ns)
    decreases ns
  {
    if |ns| == 1 {
      assert SpellAll(ns) == Spell(ns[0]) + SpellAll(ns[1..]);
      assert SpellAll(ns) == Spell(ns[0]);
      UnclosedWalk(ts, current, ns[0]);
      ParseFromCons(ts, current, ns[0], |ts|, []);
      assert [ns[0]] + [] == ns;
    } else {
      var k := UnclosedLayout(ts, current, ns);
      WalkSpelled(ts, current, ns[0]);
      UnclosedFrom(ts, current + k, ns[1..]);
      ParseFromCons(ts, current, ns[0], current + k, ns[1..]);
      assert [ns[0]] + ns[1..] == ns;
    }
  }

  /** Where the first of several nodes ends when the last closing paren
      is missing. */
  lemma UnclosedLayout(ts: seq<PyToken>, current: nat, ns: seq<Node>) returns (k: nat)
    requires |ns| > 1 && ns[|ns| - 1].Call?
    requires current <= |ts|
    requires ts[current..] + [CloseToken] == SpellAll(ns)
    ensures k == |Spell(ns[0])| && current + k <= |ts|
    ensures ts[current..current + k] == Spell(ns[0])
    ensures ts[current + k..] + [CloseToken] == SpellAll(ns[1..])
    ensures ns[1..][|ns[1..]| - 1].Call?
  {
    k := |Spell(ns[0])|;
    assert SpellAll(ns) == Spell(ns[0]) + SpellAll(ns[1..]);
    assert |SpellAll(ns[1..])| > 0 by {
      assert SpellAll(ns[1..]) == Spell(ns[1]) + SpellAll(ns[2..]);
    }
    DropLast(ts[current..], CloseToken, Spell(ns[0]), SpellAll(ns[1..]));
    assert ts[current..current + k] == ts[current..][..k];
    assert ts[current + k..] == ts[current..][k..];
  }

  /** Cancelling a final element: if `a` with `x` appended is `b` followed
      by a non-empty `c`, then `a` starts with `b`. */
  lemma DropLast<T>(a: seq<T>, x: T, b: seq<T>, c: seq<T>)
    requires a + [x] == b + c && |c| > 0
    ensures |b| <= |a| && a[..|b|] == b && a[|b|..] + [x] == c
  {
    assert a[..|b|] == (a + [x])[..|b|];
    assert a[|b|..] + [x] == (a + [x])[|b|..];
  }

  /** A call spelled without its closing paren, up to the end of `ts`. */
  lemma UnclosedWalk(ts: seq<PyToken>, current: nat, n: Node)
    requires n.Call?
    requires current <= |ts|
    requires ts[current..] + [CloseToken] == Spell(n)
    ensures Walk(ts, current) == Ok((n, |ts|))
  {
    var inner := SpellAll(n.params);
    var head := [OpenToken, PyToken(Name, n.name)] + inner;
    assert Spell(n) == head + [CloseToken];
    assert ts[current..] == head by {
      assert ts[current..] == (ts[current..] + [CloseToken])[..|ts[current..]|];
    }
    assert ts[current] == head[0];
    assert ts[current + 1] == head[1];
    assert ts[current + 2..current + 2 + |inner|] == head[2..];
    var end := WalkParamsSpelled(ts, current + 2, n.params);
  }

  lemma {:induction false} WalkSpelled(ts: seq<PyToken>, current: nat, n: Node)
    requires current + |Spell(n)| <= |ts|
    requires ts[current..current + |Spell(n)|] == Spell(n)
    ensures Walk(ts, current) == Ok((n, current + |Spell(n)|))
    decreases n, 1
  {
    assert ts[current] == Spell(n)[0];
    match n {
      case Literal(v) =>
      case Call(name, ps) =>
        var inner := SpellAll(ps);
        var sp := ts[current..current + |Spell(n)|];
        assert Spell(n) == [OpenToken, PyToken(Name, name)] + inner + [CloseToken];
        assert ts[current + 1] == sp[1];
        assert ts[current + 2..current + 2 + |inner|] == sp[2..2 + |inner|];
        assert ts[current + 2 + |inner|] == sp[2 + |inner|];
        var end := WalkParamsSpelled(ts, current + 2, ps);
    }
  }

  /** The params of a call, followed either by its closing paren or by the
      end of the tokens. */
  lemma {:induction false} WalkParamsSpelled(ts: seq<PyToken>, current: nat, ps: seq<Node>) returns (end: nat)
    requires current + |SpellAll(ps)| <= |ts|
    requires ts[current..current + |SpellAll(ps)|] == SpellAll(ps)
    requires current + |SpellAll(ps)| < |ts| ==> ts[current + |SpellAll(ps)|] == CloseToken
    ensures var k := current + |SpellAll(ps)|; end == if k == |ts| then k else k + 1
    ensures WalkParams(ts, current) == Ok((ps, end))
    decreases ps, 1
  {
    var e := current + |SpellAll(ps)|;
    end := if e == |ts| then e else e + 1;
    if |ps| > 0 {
      var k := WalkFirstParam(ts, current, ps);
      var end' := WalkParamsSpelled(ts, current + k, ps[1..]);
      assert end' == end;
      WalkParamsCons(ts, current, ps, current + k, end);
    } else {
      assert SpellAll(ps) == [];
      WalkParamsNil(ts, current, ps);
    }
  }

  /** No params: the closing paren or the end of the tokens comes first. */
  lemma WalkParamsNil(ts: seq<PyToken>, current: nat, ps: seq<Node>)
    requires |ps| == 0 && current <= |ts|
    requires current < |ts| ==> ts[current] == CloseToken
    ensures WalkParams(ts, current) == Ok((ps, if current == |ts| then current else current + 1))
  {
  }

  /** One param of a call followed by the rest of its params. */
  lemma WalkParamsCons(ts: seq<PyToken>, current: nat, ps: seq<Node>, next: nat, end: nat)
    requires |ps| > 0
    requires current < next <= |ts| && ts[current] != CloseToken
    requires Walk(ts, current) == Ok((ps[0], next))
    requires WalkParams(ts, next) == Ok((ps[1..], end))
    ensures WalkParams(ts, current) == Ok((ps, end))
  {
    assert [ps[0]] + ps[1..] == ps;
  }

  /** The first of several spelled params, and where the rest begin. */
  lemma WalkFirstParam(ts: seq<PyToken>, current: nat, ps: seq<Node>) returns (k: nat)
    requires |ps| > 0
    requires current + |SpellAll(ps)| <= |ts|
    requires ts[current..current + |SpellAll(ps)|] == SpellAll(ps)
    ensures k == |Spell(ps[0])| && current + k <= |ts|
    ensures current + |SpellAll(ps)| == current + k + |SpellAll(ps[1..])|
    ensures ts[current] != CloseToken
    ensures Walk(ts, current) == Ok((ps[0], current + k))
    ensures ts[current + k..current + k + |SpellAll(ps[1..])|] == SpellAll(ps[1..])
    decreases ps, 0
  {
    k := |Spell(ps[0])|;
    var all := SpellAll(ps);
    assert all == Spell(ps[0]) + SpellAll(ps[1..]);
    assert ts[current..current + k] == all[..k];
    assert ts[current + k..current + |all|] == all[k..];
    assert ts[current] == all[0];
    WalkSpelled(ts, current, ps[0]);
  }

  /** The spelling of nodes whose last one is a call ends in a closing
      paren. */
  lemma {:induction false} SpellAllEndsClosed(ns: seq<Node>)
    requires |ns| > 0 && ns[|ns| - 1].Call?
    ensures |SpellAll(ns)| > 0 && SpellAll(ns)[|SpellAll(ns)| - 1] == CloseToken
    decreases ns
  {
    if |ns| > 1 {
      SpellAllEndsClosed(ns[1..]);
    }
  }
}
