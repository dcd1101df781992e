/** Character classes and string helpers shared by the three implementations.
    The regular expressions of the original (`\s`, `[0-9]`, `[a-z]` ignoring
    case) are ASCII character predicates here. */
module Chars {

  /** Space, tab, line feed, carriage return, vertical tab and form feed. */
  predicate IsWhitespace(c: char) {
    c == ' ' || c == '\t' || c == '\n' || c == '\r' || c == '\U{000B}' || c == '\U{000C}'
  }

  predicate IsDigit(c: char) {
    '0' <= c <= '9'
  }

  predicate IsLetter(c: char) {
    'a' <= c <= 'z' || 'A' <= c <= 'Z'
  }

  predicate All(s: string, p: char -> bool) {
    forall i | 0 <= i < |s| :: p(s[i])
  }

  /** Length of the longest prefix of `s` whose characters all satisfy `p`:
      the run a tokenizer's inner `while` loop consumes. */
  function Span(s: string, p: char -> bool): (n: nat)
    ensures n <= |s|
    ensures forall i | 0 <= i < n :: p(s[i])
    ensures n < |s| ==> !p(s[n])
  {
    if |s| == 0 || !p(s[0]) then 0 else 1 + Span(s[1..], p)
  }

  /** A run followed by a character outside the class is consumed exactly. */
  lemma SpanOfRun(w: string, rest: string, p: char -> bool)
    requires All(w, p)
    requires |rest| > 0 ==> !p(rest[0])
    ensures Span(w + rest, p) == |w|
  {
    if |w| == 0 {
      assert w + rest == rest;
    } else {
      assert (w + rest)[0] == w[0];
      assert (w + rest)[1..] == w[1..] + rest;
      SpanOfRun(w[1..], rest, p);
    }
  }

  /** `s` with every whitespace character removed. */
  function Visible(s: string): string
  {
    if |s| == 0 then ""
    else if IsWhitespace(s[0]) then Visible(s[1..])
    else [s[0]] + Visible(s[1..])
  }

  /** Text without whitespace survives `Visible` unchanged. */
  lemma {:induction false} VisibleOfRun(w: string, rest: string)
    requires forall i | 0 <= i < |w| :: !IsWhitespace(w[i])
    ensures Visible(w + rest) == w + Visible(rest)
    decreases |w|
  {
    if |w| == 0 {
      assert w + rest == rest;
    } else {
      var s := w + rest;
      assert s[0] == w[0] && !IsWhitespace(s[0]);
      assert s[1..] == w[1..] + rest;
      VisibleOfRun(w[1..], rest);
      assert Visible(s) == [w[0]] + (w[1..] + Visible(rest));
      assert [w[0]] + (w[1..] + Visible(rest)) == w + Visible(rest);
    }
  }

  /** The strings joined with `sep` between neighbours, as `string.Join`
      and Python's `str.join` do; no parts give the empty string. */
  function Join(parts: seq<string>, sep: string): string
  {
    if |parts| == 0 then ""
    else if |parts| == 1 then parts[0]
    else parts[0] + sep + Join(parts[1..], sep)
  }

  /** Unfolds a join of two or more parts in front of some following text. */
  lemma JoinUnfold(parts: seq<string>, sep: string, rest: string)
    requires |parts| > 1
    ensures Join(parts, sep) + rest == parts[0] + (sep + (Join(parts[1..], sep) + rest))
  {
  }

  /** Number of occurrences of `c` in `s`. */
  function Count(s: string, c: char): nat
  {
    if |s| == 0 then 0 else (if s[0] == c then 1 else 0) + Count(s[1..], c)
  }

  lemma CountConcat(a: string, b: string, c: char)
    ensures Count(a + b, c) == Count(a, c) + Count(b, c)
  {
    if |a| > 0 {
      assert (a + b)[1..] == a[1..] + b;
      CountConcat(a[1..], b, c);
    } else {
      assert a + b == b;
    }
  }

  /** Joining n parts none of which contains the separator character
      yields exactly n - 1 separators: one line per part. */
  lemma {:induction false} JoinCount(parts: seq<string>, c: char)
    requires |parts| > 0
    requires forall i | 0 <= i < |parts| :: Count(parts[i], c) == 0
    ensures Count(Join(parts, [c]), c) == |parts| - 1
  {
    if |parts| > 1 {
      JoinCount(parts[1..], c);
      CountConcat(parts[0] + [c], Join(parts[1..], [c]), c);
      CountConcat(parts[0], [c], c);
      assert Count([c], c) == 1;
    }
  }

  /** Joining parts that lack `c` with a separator that lacks it gives a
      text without `c`. */
  lemma {:induction false} JoinFree(parts: seq<string>, sep: string, c: char)
    requires forall i | 0 <= i < |parts| :: Count(parts[i], c) == 0
    requires Count(sep, c) == 0
    ensures Count(Join(parts, sep), c) == 0
  {
    if |parts| > 1 {
      JoinFree(parts[1..], sep, c);
      CountConcat(parts[0] + sep, Join(parts[1..], sep), c);
      CountConcat(parts[0], sep, c);
    }
  }

  /** A slice that is a concatenation splits where its first part ends. */
  lemma SliceSplit<T>(ts: seq<T>, a: nat, b: nat, x: seq<T>, y: seq<T>)
    requires a <= b <= |ts|
    requires ts[a..b] == x + y
    ensures ts[a..a + |x|] == x
    ensures ts[a + |x|..b] == y
  {
    assert ts[a..a + |x|] == ts[a..b][..|x|];
    assert ts[a + |x|..b] == ts[a..b][|x|..];
  }
}
