/** The C# `parser` and its recursive `walk`: tokens to the Lisp tree, by
    recursive descent over a shared cursor. A number token is a literal; an
    opening paren is a call whose name is the value of the next token (its kind
    is not checked) and whose params follow until a closing paren; any other
    token throws. Every `tokens[...]` read past the end is `Err(UnexpectedEnd)`. */
module Parser {
  import opened Wrappers
  import opened Syntax
  import opened Ast
  import Chars

  type Node = LispNode<string, string>
  type Program = LispProgram<string, string>

  /** `walk` at cursor `current`: the node read and the cursor after it. */
  function Walk(tokens: seq<Token>, current: nat): (r: Result<(Node, nat), Error>)
    requires current < |tokens|
    ensures r.Ok? ==> current < r.value.1 <= |tokens|
    ensures r.Ok? ==> (r.value.0.Literal? <==> tokens[current].kind == Number)
    ensures tokens[current].kind != Number && tokens[current] != Open ==>
              r == Err(UnexpectedToken(tokens[current].kind))
    decreases |tokens| - current, 0
  {
    var token := tokens[current];
    if token.kind == Number then
      Ok((Literal(token.value), current + 1))
    else if token == Open then
      if current + 1 == |tokens| then Err(UnexpectedEnd)
      else
        var name := tokens[current + 1].value;
        if current + 2 == |tokens| then Err(UnexpectedEnd)
        else
          var ps :- WalkParams(tokens, current + 2);
          Ok((Call(name, ps.0), ps.1))
    else
      Err(UnexpectedToken(token.kind))
  }

  /** The params loop of `walk`, entered with the cursor on the token just
      read; it ends by consuming the closing paren. */
  function WalkParams(tokens: seq<Token>, current: nat): (r: Result<(seq<Node>, nat), Error>)
    requires current < |tokens|
    ensures r.Ok? ==> current < r.value.1 <= |tokens|
    decreases |tokens| - current, 1
  {
    if tokens[current] == Close then
      Ok(([], current + 1))
    else
      var p :- Walk(tokens, current);
      if p.1 == |tokens| then Err(UnexpectedEnd)
      else
        var rest :- WalkParams(tokens, p.1);
        Ok(([p.0] + rest.0, rest.1))
  }

  /** The `while (current < tokens.Count)` loop of `parser`. */
  function ParseFrom(tokens: seq<Token>, current: nat): (r: Result<seq<Node>, Error>)
    requires current <= |tokens|
    decreases |tokens| - current
  {
    if current == |tokens| then Ok([])
    else
      var n :- Walk(tokens, current);
      var rest :- ParseFrom(tokens, n.1);
      Ok([n.0] + rest)
  }

  function Parse(tokens: seq<Token>): Result<Program, Error>
  {
    var body :- ParseFrom(tokens, 0);
    Ok(LispProgram(body))
  }

  /** The tokens that spell a node: `(`, the name, the params, `)`. */
  function Spell(n: Node): seq<Token>
    decreases n
  {
    match n
    case Literal(v) => [Token(Number, v)]
    case Call(name, ps) => [Open, Token(Name, name)] + SpellAll(ps) + [Close]
  }

  function SpellAll(ns: seq<Node>): seq<Token>
    decreases ns
  {
    if |ns| == 0 then [] else Spell(ns[0]) + SpellAll(ns[1..])
  }

  function SpellProgram(p: Program): seq<Token>
  {
    SpellAll(p.body)
  }

  /** Parsing the spelling of any program gives that program back: the
      parser reads every tree it can be handed. */
  lemma ParseSpelled(p: Program)
    ensures Parse(SpellProgram(p)) == Ok(p)
  {
    ParseFromSpelled(SpellAll(p.body), 0, p.body);
  }

  lemma {:induction false} ParseFromSpelled(ts: seq<Token>, current: nat, ns: seq<Node>)
    requires current <= |ts|
    requires ts[current..] == SpellAll(ns)
    ensures ParseFrom(ts, current) == Ok(ns)
    decreases ns
  {
    if |ns| > 0 {
      var k := FirstLayout(ts, current, ns);
      WalkSpelled(ts, current, ns[0]);
      ParseFromSpelled(ts, current + k, ns[1..]);
      ParseFromCons(ts, current, ns, current + k);
    } else {
      assert |ts[current..]| == 0;
    }
  }

  lemma {:induction false} WalkSpelled(ts: seq<Token>, current: nat, n: Node)
    requires current + |Spell(n)| <= |ts|
    requires ts[current..current + |Spell(n)|] == Spell(n)
    ensures Walk(ts, current) == Ok((n, current + |Spell(n)|))
    decreases n, 1
  {
    assert ts[current] == Spell(n)[0];
    match n {
      case Literal(v) =>
      case Call(name, ps) =>
        var inner := SpellAll(ps) + [Close];
        assert Spell(n) == [Open, Token(Name, name)] + inner;
        assert ts[current + 1] == Spell(n)[1];
        assert ts[current + 2..current + |Spell(n)|] == inner;
        var end := WalkParamsSpelled(ts, current + 2, ps);
    }
  }

  lemma {:induction false} WalkParamsSpelled(ts: seq<Token>, current: nat, ps: seq<Node>) returns (end: nat)
    requires current + |SpellAll(ps)| < |ts|
    requires ts[current..current + |SpellAll(ps)| + 1] == SpellAll(ps) + [Close]
    ensures end == current + |SpellAll(ps)| + 1
    ensures WalkParams(ts, current) == Ok((ps, end))
    decreases ps, 1
  {
    if |ps| == 0 {
      end := current + 1;
      assert SpellAll(ps) + [Close] == [Close];
      assert ts[current] == ts[current..end][0];
      WalkParamsNil(ts, current, ps);
    } else {
      end := WalkParamsStep(ts, current, ps);
    }
  }

  /** The first of several params, then the rest by recursion. */
  lemma {:induction false} WalkParamsStep(ts: seq<Token>, current: nat, ps: seq<Node>) returns (end: nat)
    requires |ps| > 0
    requires current + |SpellAll(ps)| < |ts|
    requires ts[current..current + |SpellAll(ps)| + 1] == SpellAll(ps) + [Close]
    ensures end == current + |SpellAll(ps)| + 1
    ensures WalkParams(ts, current) == Ok((ps, end))
    decreases ps, 0
  {
    var k := ParamLayout(ts, current, ps);
    WalkSpelled(ts, current, ps[0]);
    end := WalkParamsSpelled(ts, current + k, ps[1..]);
    WalkParamsCons(ts, current, ps, current + k, end);
  }

  /** No params: the closing paren comes first. */
  lemma WalkParamsNil(ts: seq<Token>, current: nat, ps: seq<Node>)
    requires |ps| == 0 && current < |ts| && ts[current] == Close
    ensures WalkParams(ts, current) == Ok((ps, current + 1))
  {
  }

  /** Where the spelling of the first of several nodes ends. */
  lemma FirstLayout(ts: seq<Token>, current: nat, ns: seq<Node>) returns (k: nat)
    requires |ns| > 0 && current <= |ts|
    requires ts[current..] == SpellAll(ns)
    ensures k == |Spell(ns[0])| && current + k <= |ts|
    ensures ts[current..current + k] == Spell(ns[0])
    ensures ts[current + k..] == SpellAll(ns[1..])
  {
    k := |Spell(ns[0])|;
    assert ts[current..current + k] == ts[current..][..k];
    assert ts[current + k..] == ts[current..][k..];
  }

  /** One turn of the `parser` loop followed by the rest. */
  lemma ParseFromCons(ts: seq<Token>, current: nat, ns: seq<Node>, next: nat)
    requires |ns| > 0 && current < next <= |ts|
    requires Walk(ts, current) == Ok((ns[0], next))
    requires ParseFrom(ts, next) == Ok(ns[1..])
    ensures ParseFrom(ts, current) == Ok(ns)
  {
    assert [ns[0]] + ns[1..] == ns;
  }

  /** Where the first of several spelled params ends. */
  lemma ParamLayout(ts: seq<Token>, current: nat, ps: seq<Node>) returns (k: nat)
    requires |ps| > 0
    requires current + |SpellAll(ps)| < |ts|
    requires ts[current..current + |SpellAll(ps)| + 1] == SpellAll(ps) + [Close]
    ensures k == |Spell(ps[0])| && |SpellAll(ps)| == k + |SpellAll(ps[1..])|
    ensures ts[current..current + k] == Spell(ps[0]) && ts[current] != Close
    ensures ts[current + k..current + k + |SpellAll(ps[1..])| + 1] == SpellAll(ps[1..]) + [Close]
  {
    k := |Spell(ps[0])|;
    var end := current + |SpellAll(ps)| + 1;
    assert SpellAll(ps) + [Close] == Spell(ps[0]) + (SpellAll(ps[1..]) + [Close]);
    Chars.SliceSplit(ts, current, end, Spell(ps[0]), SpellAll(ps[1..]) + [Close]);
    FirstOfSpell(ps[0]);
    assert ts[current] == ts[current..current + k][0];
  }

  /** One param of a call followed by the rest of its params. */
  lemma WalkParamsCons(ts: seq<Token>, current: nat, ps: seq<Node>, next: nat, end: nat)
    requires |ps| > 0 && current < next < |ts| && ts[current] != Close
    requires Walk(ts, current) == Ok((ps[0], next))
    requires WalkParams(ts, next) == Ok((ps[1..], end))
    ensures WalkParams(ts, current) == Ok((ps, end))
  {
    assert [ps[0]] + ps[1..] == ps;
  }

  lemma FirstOfSpell(n: Node)
    ensures Spell(n)[0] != Close
  {
  }

  /** Conversely, a successful parse accounts for every token: the spelling
      of the tree has the values of the input tokens, in order. Only the kind
      of the token after an opening paren may differ, since `walk` does not
      check it. */
  lemma ParseConsumesAll(tokens: seq<Token>)
    requires Parse(tokens).Ok?
    ensures Values(SpellProgram(Parse(tokens).value)) == Values(tokens)
  {
    ParseFromConsumes(tokens, 0);
    assert tokens[0..] == tokens;
  }

  lemma {:induction false} ParseFromConsumes(ts: seq<Token>, current: nat)
    requires current <= |ts|
    requires ParseFrom(ts, current).Ok?
    ensures Values(SpellAll(ParseFrom(ts, current).value)) == Values(ts[current..])
    decreases |ts| - current
  {
    if current < |ts| {
      var w := Walk(ts, current).value;
      WalkConsumes(ts, current);
      ParseFromConsumes(ts, w.1);
      var ns := ParseFrom(ts, current).value;
      assert ns == [w.0] + ParseFrom(ts, w.1).value;
      assert SpellAll(ns) == Spell(w.0) + SpellAll(ParseFrom(ts, w.1).value);
      ValuesConcat(Spell(w.0), SpellAll(ParseFrom(ts, w.1).value));
      assert ts[current..] == ts[current..w.1] + ts[w.1..];
      ValuesConcat(ts[current..w.1], ts[w.1..]);
    }
  }

  lemma {:induction false} WalkConsumes(ts: seq<Token>, current: nat)
    requires current < |ts|
    requires Walk(ts, current).Ok?
    ensures Values(Spell(Walk(ts, current).value.0)) == Values(ts[current..Walk(ts, current).value.1])
    decreases |ts| - current, 0
  {
    var token := ts[current];
    if token.kind == Number {
      assert ts[current..current + 1] == [token];
    } else {
      var name := ts[current + 1].value;
      var ps := WalkParams(ts, current + 2).value;
      WalkParamsConsumes(ts, current + 2);
      var n := Walk(ts, current).value.0;
      assert n == Call(name, ps.0);
      var mid := SpellAll(ps.0) + [Close];
      assert Spell(n) == [Open, Token(Name, name)] + mid;
      ValuesConcat([Open, Token(Name, name)], mid);
      assert ts[current..ps.1] == [ts[current], ts[current + 1]] + ts[current + 2..ps.1];
      ValuesConcat([ts[current], ts[current + 1]], ts[current + 2..ps.1]);
    }
  }

  lemma {:induction false} WalkParamsConsumes(ts: seq<Token>, current: nat)
    requires current < |ts|
    requires WalkParams(ts, current).Ok?
    ensures Values(SpellAll(WalkParams(ts, current).value.0) + [Close])
            == Values(ts[current..WalkParams(ts, current).value.1])
    decreases |ts| - current, 1
  {
    if ts[current] == Close {
      assert ts[current..current + 1] == [Close];
      assert SpellAll([]) + [Close] == [Close];
    } else {
      var p := Walk(ts, current).value;
      WalkConsumes(ts, current);
      var rest := WalkParams(ts, p.1).value;
      WalkParamsConsumes(ts, p.1);
      var ps := WalkParams(ts, current).value.0;
      assert ps == [p.0] + rest.0;
      assert ps[0] == p.0 && ps[1..] == rest.0;
      assert SpellAll(ps) + [Close] == Spell(p.0) + (SpellAll(rest.0) + [Close]);
      ValuesConcat(Spell(p.0), SpellAll(rest.0) + [Close]);
      assert ts[current..rest.1] == ts[current..p.1] + ts[p.1..rest.1];
      ValuesConcat(ts[current..p.1], ts[p.1..rest.1]);
    }
  }
}
