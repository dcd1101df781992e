/** The C# `deparser` and its recursive `dewalk`: C-style tokens to the C
    tree. A number token is a literal. A name token starts a call: the token
    after the name is skipped without checking that it is `(`, then `,` and `;`
    tokens are skipped and every other token up to `)` is parsed as an
    argument; after the `)` the next token is read and consumed if it is `;`.
    Any other token throws. Every `tokens[...]` read past the end, including
    the read after the `)` of a final call, is `Err(UnexpectedEnd)`. */
module Deparser {
  import opened Wrappers
  import opened Syntax
  import opened Ast
  import Chars

  type Node = CNode<string, string>
  type Program = CProgram<string, string>

  function Dewalk(tokens: seq<Token>, current: nat): (r: Result<(Node, nat), Error>)
    requires current < |tokens|
    ensures r.Ok? ==> current < r.value.1 <= |tokens|
    ensures r.Ok? ==> (r.value.0.NumberLiteral? <==> tokens[current].kind == Number)
    ensures tokens[current].kind == Paren ==> r == Err(UnexpectedToken(Paren))
    decreases |tokens| - current, 0
  {
    var token := tokens[current];
    if token.kind == Number then
      Ok((NumberLiteral(token.value), current + 1))
    else if token.kind == Name then
      if current + 2 >= |tokens| then Err(UnexpectedEnd)
      else
        var args :- DewalkArgs(tokens, current + 2);
        if args.1 == |tokens| then Err(UnexpectedEnd)
        else
          var call := CallExpression(Identifier(token.value), args.0);
          Ok((call, if tokens[args.1] == Semicolon then args.1 + 1 else args.1))
    else
      Err(UnexpectedToken(token.kind))
  }

  /** The argument loop of `dewalk`, entered with the cursor on the token
      just read; it ends by consuming the closing paren. */
  function DewalkArgs(tokens: seq<Token>, current: nat): (r: Result<(seq<Node>, nat), Error>)
    requires current < |tokens|
    ensures r.Ok? ==> current < r.value.1 <= |tokens|
    decreases |tokens| - current, 1
  {
    var token := tokens[current];
    if token == Close then
      Ok(([], current + 1))
    else if token == Comma || token == Semicolon then
      if current + 1 == |tokens| then Err(UnexpectedEnd)
      else DewalkArgs(tokens, current + 1)
    else
      var a :- Dewalk(tokens, current);
      if a.1 == |tokens| then Err(UnexpectedEnd)
      else
        var rest :- DewalkArgs(tokens, a.1);
        Ok(([a.0] + rest.0, rest.1))
  }

  function DeparseFrom(tokens: seq<Token>, current: nat): Result<seq<Node>, Error>
    requires current <= |tokens|
    decreases |tokens| - current
  {
    if current == |tokens| then Ok([])
    else
      var n :- Dewalk(tokens, current);
      var rest :- DeparseFrom(tokens, n.1);
      Ok([n.0] + rest)
  }

  function Deparse(tokens: seq<Token>): Result<Program, Error>
  {
    var body :- DeparseFrom(tokens, 0);
    Ok(CProgram(body))
  }

  /** The tokens of a node's generated code. */
  function Spell(c: Node): seq<Token>
    decreases c
  {
    match c
    case ExpressionStatement(e) => Spell(e) + [Semicolon]
    case CallExpression(callee, args) => Spell(callee) + [Open] + SpellArgs(args) + [Close]
    case Identifier(name) => [Token(Name, name)]
    case NumberLiteral(v) => [Token(Number, v)]
  }

  /** Argument spellings separated by commas. */
  function SpellArgs(cs: seq<Node>): seq<Token>
    decreases cs
  {
    if |cs| == 0 then []
    else if |cs| == 1 then Spell(cs[0])
    else Spell(cs[0]) + [Comma] + SpellArgs(cs[1..])
  }

  function SpellItems(cs: seq<Node>): seq<Token>
  {
    if |cs| == 0 then [] else Spell(cs[0]) + SpellItems(cs[1..])
  }

  /** A node the deparser can produce: a literal, or a call of an identifier
      on such nodes. */
  predicate IsArgument(c: Node)
    decreases c
  {
    match c
    case NumberLiteral(_) => true
    case CallExpression(callee, args) => callee.Identifier? && AllArguments(args)
    case _ => false
  }

  predicate AllArguments(cs: seq<Node>)
    decreases cs
  {
    forall i | 0 <= i < |cs| :: IsArgument(cs[i])
  }

  /** A top-level item of the transformer's output: a literal, or a
      statement holding a call. */
  predicate IsItem(c: Node) {
    c.NumberLiteral? || (c.ExpressionStatement? && c.expression.CallExpression? && IsArgument(c.expression))
  }

  function Unwrap(c: Node): Node {
    if c.ExpressionStatement? then c.expression else c
  }

  function UnwrapAll(cs: seq<Node>): (r: seq<Node>)
    ensures |r| == |cs|
    ensures forall i | 0 <= i < |cs| :: r[i] == Unwrap(cs[i])
  {
    if |cs| == 0 then [] else [Unwrap(cs[0])] + UnwrapAll(cs[1..])
  }

  /** Deparsing the tokens of generated code gives back the program, with
      each top-level statement replaced by its call: `dewalk` never builds
      an `ExpressionStatement`. */
  lemma DeparseSpelled(p: Program)
    requires forall i | 0 <= i < |p.body| :: IsItem(p.body[i])
    ensures Deparse(SpellItems(p.body)) == Ok(CProgram(UnwrapAll(p.body)))
  {
    var ts := SpellItems(p.body);
    assert ts[0..] == ts;
    AllItemsFrom(p.body, 0);
    DeparseFromSpelled(ts, 0, p.body);
  }

  /** Every item from the first on is a top-level item, stated one item at
      a time. */
  predicate ItemsFrom(items: seq<Node>, from: nat)
    decreases |items| - from
  {
    from >= |items| || (IsItem(items[from]) && ItemsFrom(items, from + 1))
  }

  lemma {:induction false} AllItemsFrom(items: seq<Node>, from: nat)
    requires forall i | 0 <= i < |items| :: IsItem(items[i])
    ensures ItemsFrom(items, from)
    decreases |items| - from
  {
    if from < |items| {
      AllItemsFrom(items, from + 1);
    }
  }

  lemma {:induction false} DeparseFromSpelled(ts: seq<Token>, current: nat, items: seq<Node>)
    requires current <= |ts|
    requires ts[current..] == SpellItems(items)
    requires ItemsFrom(items, 0)
    ensures DeparseFrom(ts, current) == Ok(UnwrapAll(items))
    decreases items
  {
    if |items| == 0 {
      assert |ts[current..]| == 0;
    } else {
      var k := ItemLayout(ts, current, items);
      ItemsTail(items, 0);
      DeparseFromSpelled(ts, current + k, items[1..]);
      DeparseFirstItem(ts, current, items, k);
    }
  }

  lemma UnwrapCons(items: seq<Node>)
    requires |items| > 0
    ensures UnwrapAll(items) == [Unwrap(items[0])] + UnwrapAll(items[1..])
  {
  }

  /** The items after the first keep the property. */
  lemma {:induction false} ItemsTail(items: seq<Node>, from: nat)
    requires |items| > 0 && ItemsFrom(items, from)
    ensures ItemsFrom(items[1..], from)
    decreases |items| - from
  {
    if from < |items| - 1 {
      assert items[1..][from] == items[from + 1];
      ItemsTail(items, from + 1);
    }
  }

  /** Where the first of several spelled items ends. */
  lemma ItemLayout(ts: seq<Token>, current: nat, items: seq<Node>) returns (k: nat)
    requires |items| > 0
    requires current <= |ts|
    requires ts[current..] == SpellItems(items)
    ensures k == |Spell(items[0])| && current < current + k <= |ts|
    ensures ts[current..current + k] == Spell(items[0])
    ensures ts[current + k..] == SpellItems(items[1..])
  {
    k := |Spell(items[0])|;
    assert SpellItems(items) == Spell(items[0]) + SpellItems(items[1..]);
    Chars.SliceSplit(ts, current, |ts|, Spell(items[0]), SpellItems(items[1..]));
  }

  /** The top-level loop reads the first item, then the rest. */
  lemma DeparseFirstItem(ts: seq<Token>, current: nat, items: seq<Node>, k: nat)
    requires |items| > 0 && IsItem(items[0])
    requires k == |Spell(items[0])| && current < current + k <= |ts|
    requires ts[current..current + k] == Spell(items[0])
    requires DeparseFrom(ts, current + k) == Ok(UnwrapAll(items[1..]))
    ensures DeparseFrom(ts, current) == Ok(UnwrapAll(items))
  {
    DewalkItem(ts, current, items[0]);
    DeparseFromStep(ts, current, (Unwrap(items[0]), current + k), UnwrapAll(items[1..]));
    UnwrapCons(items);
  }

  /** One unfolding of the top-level loop. */
  lemma DeparseFromStep(ts: seq<Token>, current: nat, n: (Node, nat), rest: seq<Node>)
    requires current < |ts|
    requires Dewalk(ts, current) == Ok(n)
    requires DeparseFrom(ts, n.1) == Ok(rest)
    ensures DeparseFrom(ts, current) == Ok([n.0] + rest)
  {
  }

  /** A top-level item is read up to and including its `;`. */
  lemma DewalkItem(ts: seq<Token>, current: nat, item: Node)
    requires IsItem(item)
    requires current + |Spell(item)| <= |ts|
    requires ts[current..current + |Spell(item)|] == Spell(item)
    ensures Dewalk(ts, current) == Ok((Unwrap(item), current + |Spell(item)|))
  {
    var k := |Spell(item)|;
    if item.NumberLiteral? {
      assert ts[current] == ts[current..current + k][0];
    } else {
      var call := item.expression;
      var j := |Spell(call)|;
      Chars.SliceSplit(ts, current, current + k, Spell(call), [Semicolon]);
      assert ts[current + j] == Semicolon;
      DewalkSpelled(ts, current, call);
    }
  }

  lemma {:induction false} DewalkSpelled(ts: seq<Token>, current: nat, c: Node)
    requires IsArgument(c)
    requires current + |Spell(c)| <= |ts|
    requires ts[current..current + |Spell(c)|] == Spell(c)
    requires c.CallExpression? ==> current + |Spell(c)| < |ts|
    ensures var k := current + |Spell(c)|;
      Dewalk(ts, current) == Ok((c, if c.CallExpression? && ts[k] == Semicolon then k + 1 else k))
    decreases c, 3
  {
    assert ts[current] == ts[current..current + |Spell(c)|][0];
    match c {
      case NumberLiteral(v) =>
      case CallExpression(callee, args) =>
        CallLayout(ts, current, c);
        DewalkArgsSpelled(ts, current + 2, args);
    }
  }

  /** Where the name, the `(` and the arguments of a spelled call lie. */
  lemma CallLayout(ts: seq<Token>, current: nat, c: Node)
    requires c.CallExpression? && c.callee.Identifier?
    requires current + |Spell(c)| <= |ts|
    requires ts[current..current + |Spell(c)|] == Spell(c)
    ensures |Spell(c)| == 2 + |SpellArgs(c.arguments)| + 1
    ensures ts[current] == Token(Name, c.callee.name)
    ensures ts[current + 2..current + |Spell(c)|] == SpellArgs(c.arguments) + [Close]
  {
    var inner := SpellArgs(c.arguments) + [Close];
    assert Spell(c) == [Token(Name, c.callee.name), Open] + inner;
    Chars.SliceSplit(ts, current, current + |Spell(c)|, [Token(Name, c.callee.name), Open], inner);
    assert ts[current] == ts[current..current + |Spell(c)|][0];
  }

  lemma {:induction false} DewalkArgsSpelled(ts: seq<Token>, current: nat, cs: seq<Node>)
    requires AllArguments(cs)
    requires current + |SpellArgs(cs)| < |ts|
    requires ts[current..current + |SpellArgs(cs)| + 1] == SpellArgs(cs) + [Close]
    ensures DewalkArgs(ts, current) == Ok((cs, current + |SpellArgs(cs)| + 1))
    decreases cs, 2
  {
    var end := current + |SpellArgs(cs)| + 1;
    if |cs| == 0 {
      assert ts[current] == ts[current..end][0];
    } else if |cs| == 1 {
      DewalkLastArg(ts, current, cs);
    } else {
      DewalkNextArg(ts, current, cs);
    }
  }

  lemma {:induction false} DewalkLastArg(ts: seq<Token>, current: nat, cs: seq<Node>)
    requires AllArguments(cs) && |cs| == 1
    requires current + |SpellArgs(cs)| < |ts|
    requires ts[current..current + |SpellArgs(cs)| + 1] == SpellArgs(cs) + [Close]
    ensures DewalkArgs(ts, current) == Ok((cs, current + |SpellArgs(cs)| + 1))
    decreases cs, 1
  {
    var end := current + |SpellArgs(cs)| + 1;
    var c := cs[0];
    var k := |Spell(c)|;
    FirstOfSpell(c);
    Chars.SliceSplit(ts, current, end, Spell(c), [Close]);
    assert ts[current] == ts[current..current + k][0];
    DewalkSpelled(ts, current, c);
    assert ts[current + k] == Close;
    DewalkArgsClose(ts, current + k);
    DewalkArgsArg(ts, current, (c, current + k), ([], current + k + 1));
    assert [c] + [] == cs;
  }

  lemma {:induction false} DewalkNextArg(ts: seq<Token>, current: nat, cs: seq<Node>)
    requires AllArguments(cs) && |cs| > 1
    requires current + |SpellArgs(cs)| < |ts|
    requires ts[current..current + |SpellArgs(cs)| + 1] == SpellArgs(cs) + [Close]
    ensures DewalkArgs(ts, current) == Ok((cs, current + |SpellArgs(cs)| + 1))
    decreases cs, 1
  {
    var k := NextArgLayout(ts, current, cs);
    var end := current + |SpellArgs(cs)| + 1;
    forall i | 0 <= i < |cs| - 1
      ensures IsArgument(cs[1..][i])
    {
      assert cs[1..][i] == cs[i + 1];
    }
    DewalkArgsSpelled(ts, current + k + 1, cs[1..]);
    NextArgStep(ts, current, cs, k);
  }

  /** The argument loop reads the first argument, skips the comma, then
      reads the rest. */
  lemma NextArgStep(ts: seq<Token>, current: nat, cs: seq<Node>, k: nat)
    requires AllArguments(cs) && |cs| > 1
    requires current + |SpellArgs(cs)| < |ts|
    requires k == |Spell(cs[0])| && k > 0
    requires current + k + 1 + |SpellArgs(cs[1..])| == current + |SpellArgs(cs)|
    requires ts[current..current + k] == Spell(cs[0])
    requires ts[current].kind != Paren
    requires ts[current + k] == Comma
    requires DewalkArgs(ts, current + k + 1) == Ok((cs[1..], current + |SpellArgs(cs)| + 1))
    ensures DewalkArgs(ts, current) == Ok((cs, current + |SpellArgs(cs)| + 1))
    decreases cs, 0
  {
    var end := current + |SpellArgs(cs)| + 1;
    DewalkSpelled(ts, current, cs[0]);
    DewalkArgsSkip(ts, current + k);
    DewalkArgsArg(ts, current, (cs[0], current + k), (cs[1..], end));
    assert [cs[0]] + cs[1..] == cs;
  }

  /** Where the first of several arguments, its comma and the rest lie. */
  lemma NextArgLayout(ts: seq<Token>, current: nat, cs: seq<Node>) returns (k: nat)
    requires AllArguments(cs) && |cs| > 1
    requires current + |SpellArgs(cs)| < |ts|
    requires ts[current..current + |SpellArgs(cs)| + 1] == SpellArgs(cs) + [Close]
    ensures k == |Spell(cs[0])| && k > 0
    ensures current + k + 1 + |SpellArgs(cs[1..])| == current + |SpellArgs(cs)|
    ensures ts[current..current + k] == Spell(cs[0])
    ensures ts[current].kind != Paren
    ensures ts[current + k] == Comma
    ensures ts[current + k + 1..current + |SpellArgs(cs)| + 1] == SpellArgs(cs[1..]) + [Close]
  {
    var end := current + |SpellArgs(cs)| + 1;
    var c := cs[0];
    k := |Spell(c)|;
    FirstOfSpell(c);
    var tail := SpellArgs(cs[1..]) + [Close];
    assert SpellArgs(cs) + [Close] == Spell(c) + ([Comma] + tail);
    Chars.SliceSplit(ts, current, end, Spell(c), [Comma] + tail);
    Chars.SliceSplit(ts, current + k, end, [Comma], tail);
    assert ts[current] == ts[current..current + k][0];
    assert ts[current + k] == ts[current + k..current + k + 1][0];
  }

  /** One unfolding of the argument loop at `)`. */
  lemma DewalkArgsClose(ts: seq<Token>, current: nat)
    requires current < |ts| && ts[current] == Close
    ensures DewalkArgs(ts, current) == Ok(([], current + 1))
  {
  }

  /** One unfolding of the argument loop at a separator, `,` or `;`. */
  lemma DewalkArgsSkip(ts: seq<Token>, current: nat)
    requires current + 1 < |ts| && (ts[current] == Comma || ts[current] == Semicolon)
    ensures DewalkArgs(ts, current) == DewalkArgs(ts, current + 1)
  {
  }

  /** One unfolding of the argument loop at an argument. */
  lemma DewalkArgsArg(ts: seq<Token>, current: nat, a: (Node, nat), rest: (seq<Node>, nat))
    requires current < |ts| && ts[current].kind != Paren
    requires Dewalk(ts, current) == Ok(a) && a.1 < |ts|
    requires DewalkArgs(ts, a.1) == Ok(rest)
    ensures DewalkArgs(ts, current) == Ok(([a.0] + rest.0, rest.1))
  {
  }

  lemma FirstOfSpell(c: Node)
    requires IsArgument(c)
    ensures Spell(c)[0].kind == Name || Spell(c)[0].kind == Number
  {
  }


  /** The token after a name is never looked at: whatever stands in place
      of the `(`, `dewalk` reads the same call. */
  lemma DewalkSkipsOpen(ts: seq<Token>, current: nat, t: Token)
    requires current + 1 < |ts| && ts[current].kind == Name
    ensures Dewalk(ts[current + 1 := t], current) == Dewalk(ts, current)
  {
    var us := ts[current + 1 := t];
    if current + 2 < |ts| {
      assert ts[current + 2..] == us[current + 2..];
      DewalkArgsFrame(ts, us, current + 2);
    }
  }

  /** `dewalk` reads only the tokens from its cursor on. */
  lemma {:induction false} DewalkFrame(ts: seq<Token>, us: seq<Token>, current: nat)
    requires current < |ts| == |us| && ts[current..] == us[current..]
    ensures Dewalk(ts, current) == Dewalk(us, current)
    decreases |ts| - current, 0
  {
    assert ts[current] == ts[current..][0];
    if ts[current].kind == Name && current + 2 < |ts| {
      assert ts[current + 2..] == ts[current..][2..];
      assert us[current + 2..] == us[current..][2..];
      DewalkArgsFrame(ts, us, current + 2);
      var args := DewalkArgs(ts, current + 2);
      if args.Ok? && args.value.1 < |ts| {
        assert ts[args.value.1] == ts[current..][args.value.1 - current];
        assert us[args.value.1] == us[current..][args.value.1 - current];
      }
    }
  }

  lemma {:induction false} DewalkArgsFrame(ts: seq<Token>, us: seq<Token>, current: nat)
    requires current < |ts| == |us| && ts[current..] == us[current..]
    ensures DewalkArgs(ts, current) == DewalkArgs(us, current)
    decreases |ts| - current, 1
  {
    assert ts[current] == ts[current..][0];
    if ts[current] == Close {
    } else if ts[current] == Comma || ts[current] == Semicolon {
      if current + 1 < |ts| {
        assert ts[current + 1..] == ts[current..][1..];
        assert us[current + 1..] == us[current..][1..];
        DewalkArgsFrame(ts, us, current + 1);
      }
    } else {
      DewalkFrame(ts, us, current);
      var a := Dewalk(ts, current);
      if a.Ok? && a.value.1 < |ts| {
        var k := a.value.1 - current;
        assert ts[a.value.1..] == ts[current..][k..];
        assert us[a.value.1..] == us[current..][k..];
        DewalkArgsFrame(ts, us, a.value.1);
      }
    }
  }

  /** A call whose `)` is the last token faults: after the `)` `dewalk`
      reads the next token to look for a `;`, and there is none. */
  lemma DewalkFinalCall(ts: seq<Token>, current: nat, c: Node)
    requires IsArgument(c) && c.CallExpression?
    requires current + |Spell(c)| == |ts| && ts[current..] == Spell(c)
    ensures Dewalk(ts, current) == Err(UnexpectedEnd)
  {
    assert ts[current..current + |Spell(c)|] == ts[current..];
    CallLayout(ts, current, c);
    DewalkArgsSpelled(ts, current + 2, c.arguments);
  }

  /** So a program that is one call without its `;` does not deparse. */
  lemma DeparseLoneCall(c: Node)
    requires IsArgument(c) && c.CallExpression?
    ensures Deparse(Spell(c)) == Err(UnexpectedEnd)
  {
    assert Spell(c)[0..] == Spell(c);
    DewalkFinalCall(Spell(c), 0, c);
  }

}
