/** The JavaScript tokenizer against the C# one: wherever the C# tokenizer
    succeeds, the JavaScript tokenizer succeeds too and reads the same
    tokens, kind for kind and text for text. */
module TokenizersAgree {
  import opened Wrappers
  import opened Chars
  import Syntax
  import Tokenizer
  import Js = JsTokenizer

  predicate SameToken(j: Js.Token, t: Syntax.Token) {
    && j.value == t.value
    && match j.kind
       case Paren => t.kind == Syntax.Paren
       case Number => t.kind == Syntax.Number
       case Name => t.kind == Syntax.Name
       case Str => false
  }

  predicate SameTokens(js: seq<Js.Token>, ts: seq<Syntax.Token>) {
    |js| == |ts| && forall i | 0 <= i < |js| :: SameToken(js[i], ts[i])
  }

  lemma {:induction false} ScanAgrees(input: string, cur: Js.Position)
    requires cur.index <= |input|
    requires Tokenizer.Tokenize(input[cur.index..]).Ok?
    ensures Js.Scan(input, cur).Ok?
    ensures SameTokens(Js.Scan(input, cur).value, Tokenizer.Tokenize(input[cur.index..]).value)
    decreases |input| - cur.index
  {
    if cur.index < |input| {
      StepAgrees(input, cur);
      var step := Js.Step(input, cur).value;
      ScanAgrees(input, step.1);
      var rest := Js.Scan(input, step.1).value;
      ScanCons(input, cur, step, rest);
      var head := if |step.0| == 1 then [Syntax.Token(Tk(step.0[0].kind), step.0[0].value)] else [];
      SameTokensCons(step.0, head, rest, Tokenizer.Tokenize(input[step.1.index..]).value);
    } else {
      assert input[cur.index..] == [];
    }
  }

  /** One turn of the JavaScript loop followed by the rest of the scan. */
  lemma ScanCons(input: string, cur: Js.Position, step: (seq<Js.Token>, Js.Position), rest: seq<Js.Token>)
    requires cur.index < |input|
    requires Js.Step(input, cur) == Ok(step) && step.1.index <= |input|
    requires Js.Scan(input, step.1) == Ok(rest)
    ensures Js.Scan(input, cur) == Ok(step.0 + rest)
  {
  }

  /** Matching prefixes of at most one token extend matching sequences. */
  lemma SameTokensCons(a: seq<Js.Token>, t: seq<Syntax.Token>, b: seq<Js.Token>, u: seq<Syntax.Token>)
    requires |a| <= 1 && |t| == |a|
    requires |a| == 1 ==> a[0].kind != Js.Str && t == [Syntax.Token(Tk(a[0].kind), a[0].value)]
    requires SameTokens(b, u)
    ensures SameTokens(a + b, t + u)
  {
    if |a| == 1 {
      forall i | 0 <= i < |a + b|
        ensures SameToken((a + b)[i], (t + u)[i])
      {
        if i > 0 {
          assert (a + b)[i] == b[i - 1] && (t + u)[i] == u[i - 1];
        }
      }
    } else {
      assert a + b == b && t + u == u;
    }
  }

  /** One turn of the JavaScript loop reads what one step of the C#
      recursion reads, and both continue at the same place. */
  lemma StepAgrees(input: string, cur: Js.Position)
    requires cur.index < |input|
    requires Tokenizer.Tokenize(input[cur.index..]).Ok?
    ensures Js.Step(input, cur).Ok?
    ensures var step := Js.Step(input, cur).value;
            && step.1.index <= |input|
            && Tokenizer.Tokenize(input[step.1.index..]).Ok?
            && |step.0| <= 1
            && Tokenizer.Tokenize(input[cur.index..]).value
               == (if |step.0| == 1 then [Syntax.Token(Tk(step.0[0].kind), step.0[0].value)] else [])
                  + Tokenizer.Tokenize(input[step.1.index..]).value
            && (|step.0| == 1 ==> step.0[0].kind != Js.Str)
  {
    var i := cur.index;
    var c := input[i];
    if IsDigit(c) {
      RunAgrees(input, cur, Js.Number, IsDigit);
    } else if IsLetter(c) {
      RunAgrees(input, cur, Js.Name, IsLetter);
    } else {
      assert input[i..][1..] == input[i + 1..];
    }
  }

  lemma RunAgrees(input: string, cur: Js.Position, kind: Js.Kind, p: char -> bool)
    requires cur.index < |input|
    requires (kind == Js.Number && p == IsDigit) || (kind == Js.Name && p == IsLetter)
    requires p(input[cur.index])
    requires Tokenizer.Tokenize(input[cur.index..]).Ok?
    ensures var run := Js.ReadRun(input, cur, kind, p);
            && run.1.index < |input|
            && Tokenizer.Tokenize(input[run.1.index..]).Ok?
            && Tokenizer.Tokenize(input[cur.index..]).value
               == [Syntax.Token(Tk(kind), run.0[0].value)] + Tokenizer.Tokenize(input[run.1.index..]).value
  {
    var i := cur.index;
    var s := input[i..];
    var n := Span(s, p);
    assert s[n..] == input[i + n..];
    assert s[..n] == input[i..i + n];
  }

  function Tk(k: Js.Kind): Syntax.TokenKind {
    match k
    case Paren => Syntax.Paren
    case Number => Syntax.Number
    case Name => Syntax.Name
    case Str => Syntax.Name
  }

  /** On any input the C# tokenizer accepts, the JavaScript tokenizer reads
      the same tokens. */
  lemma TokenizersAgree(input: string)
    requires Tokenizer.Tokenize(input).Ok?
    ensures Js.Tokenize(input).Ok?
    ensures SameTokens(Js.Tokenize(input).value, Tokenizer.Tokenize(input).value)
  {
    assert input[0..] == input;
    ScanAgrees(input, Js.Origin);
  }
}
