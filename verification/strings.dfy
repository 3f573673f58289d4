/**
 * The few pieces of Python's `str` behaviour the core relies on: `strip`,
 * `startswith`/`endswith`, `in`, slicing `s[:n]`, `sep.join(parts)`,
 * `str(int)` and `repr(str)`.
 */
module Strings {

  /** Python's `str.isspace` for a single character (the full Unicode list). */
  predicate IsSpace(c: char) {
    c == ' ' || c == '\t' || c == '\n' || c == '\r'
    || c == '\U{000B}' || c == '\U{000C}'
    || ('\U{001C}' <= c <= '\U{001F}')
    || c == '\U{0085}' || c == '\U{00A0}' || c == '\U{1680}'
    || ('\U{2000}' <= c <= '\U{200A}')
    || c == '\U{2028}' || c == '\U{2029}' || c == '\U{202F}'
    || c == '\U{205F}' || c == '\U{3000}'
  }

  predicate AllSpace(s: string) {
    forall i :: 0 <= i < |s| ==> IsSpace(s[i])
  }

  /** Python `s.lstrip()`. */
  function LStrip(s: string): (r: string)
    ensures |r| <= |s| && r == s[|s| - |r|..]
    ensures AllSpace(s[..|s| - |r|])
    ensures r == [] || !IsSpace(r[0])
  {
    if s == [] || !IsSpace(s[0]) then s else LStrip(s[1..])
  }

  /** Python `s.rstrip()`. */
  function RStrip(s: string): (r: string)
    ensures |r| <= |s| && r == s[..|r|]
    ensures AllSpace(s[|r|..])
    ensures r == [] || !IsSpace(r[|r| - 1])
  {
    if s == [] || !IsSpace(s[|s| - 1]) then s else RStrip(s[..|s| - 1])
  }

  /** Python `s.strip()`: empty exactly when `s` is all whitespace. */
  function Strip(s: string): (r: string)
    ensures |r| <= |s|
    ensures r == [] <==> AllSpace(s)
    ensures r != [] ==> !IsSpace(r[0]) && !IsSpace(r[|r| - 1])
  {
    StripBothEnds(s);
    RStrip(LStrip(s))
  }

  lemma {:induction false} StripBothEnds(s: string)
    ensures RStrip(LStrip(s)) == [] <==> AllSpace(s)
    ensures RStrip(LStrip(s)) != [] ==> !IsSpace(RStrip(LStrip(s))[0])
  {
    if AllSpace(s) {
      LStripAllSpace(s);
    }
    if RStrip(LStrip(s)) == [] {
      EmptyStripAllSpace(s);
    } else {
      assert LStrip(s)[0] == RStrip(LStrip(s))[0];
    }
  }

  lemma {:induction false} LStripAllSpace(s: string)
    requires AllSpace(s)
    ensures LStrip(s) == []
  {
    AllSpaceSuffix(s, |s| - |LStrip(s)|);
  }

  lemma {:induction false} EmptyStripAllSpace(s: string)
    requires RStrip(LStrip(s)) == []
    ensures AllSpace(s)
  {
    var l := LStrip(s);
    assert l[0..] == l;
    AllSpaceSplit(s, |s| - |l|);
  }

  lemma {:induction false} AllSpaceSplit(s: string, k: nat)
    requires k <= |s| && AllSpace(s[..k]) && AllSpace(s[k..])
    ensures AllSpace(s)
  {
    forall i | 0 <= i < |s| ensures IsSpace(s[i]) {
      if i < k {
        assert s[i] == s[..k][i];
      } else {
        assert s[i] == s[k..][i - k];
      }
    }
  }

  lemma {:induction false} AllSpaceSuffix(s: string, k: nat)
    requires AllSpace(s) && k <= |s|
    ensures AllSpace(s[k..])
  {
  }

  lemma {:induction false} AllSpaceConcat(a: string, b: string)
    requires AllSpace(a) && AllSpace(b)
    ensures AllSpace(a + b)
  {
    forall i | 0 <= i < |a + b| ensures IsSpace((a + b)[i]) {
      if i < |a| {
        assert (a + b)[i] == a[i];
      } else {
        assert (a + b)[i] == b[i - |a|];
      }
    }
  }

  /** Stripping text that already starts and ends with a non-space changes nothing. */
  lemma {:induction false} StripUnchanged(s: string)
    requires s != [] && !IsSpace(s[0]) && !IsSpace(s[|s| - 1])
    ensures Strip(s) == s
  {
  }

  /** Leading whitespace can only come from `a` when `b` starts with a non-space. */
  lemma {:induction false} LStripAppend(a: string, b: string)
    requires b != [] && !IsSpace(b[0])
    ensures LStrip(a + b) == LStrip(a) + b
  {
    if a == [] {
      assert a + b == b;
    } else if IsSpace(a[0]) {
      assert (a + b)[1..] == a[1..] + b;
      LStripAppend(a[1..], b);
    }
  }

  /** Trailing whitespace can only come from `b` when `b` holds a non-space. */
  lemma {:induction false} RStripAppend(a: string, b: string)
    requires !AllSpace(b)
    ensures RStrip(a + b) == a + RStrip(b)
  {
    assert b != [];
    if !IsSpace(b[|b| - 1]) {
      assert (a + b)[|a + b| - 1] == b[|b| - 1];
    } else {
      var b' := b[..|b| - 1];
      assert !AllSpace(b') by {
        var k :| 0 <= k < |b| && !IsSpace(b[k]);
        assert k < |b| - 1;
        assert b'[k] == b[k];
      }
      assert (a + b)[..|a + b| - 1] == a + b';
      RStripAppend(a, b');
    }
  }

  /** Right-stripping never cuts into a prefix that ends with a non-space. */
  lemma {:induction false} RStripKeepsPrefix(t: string, b: string) returns (rest: string)
    requires t != [] && !IsSpace(t[|t| - 1])
    ensures RStrip(t + b) == t + rest
  {
    if b == [] {
      assert t + b == t;
      rest := [];
    } else if !IsSpace(b[|b| - 1]) {
      assert (t + b)[|t + b| - 1] == b[|b| - 1];
      rest := b;
    } else {
      assert (t + b)[|t + b| - 1] == b[|b| - 1];
      assert (t + b)[..|t + b| - 1] == t + b[..|b| - 1];
      rest := RStripKeepsPrefix(t, b[..|b| - 1]);
    }
  }

  /** A piece that starts and ends with a non-space survives `strip` of any text around it. */
  lemma {:induction false} StripKeepsInfix(a: string, t: string, b: string)
    requires t != [] && !IsSpace(t[0]) && !IsSpace(t[|t| - 1])
    ensures Contains(Strip(a + t + b), t)
  {
    var u := t + b;
    assert a + t + b == a + u;
    var x := StripAround(a, u);
    var rest := RStripKeepsPrefix(t, b);
    ContainsInfix(x, t, rest);
  }

  /** When `u` starts with a non-space, `strip(a + u)` is the left-stripped `a` followed by the right-stripped `u`. */
  lemma {:induction false} StripAround(a: string, u: string) returns (x: string)
    requires u != [] && !IsSpace(u[0])
    ensures x == LStrip(a)
    ensures Strip(a + u) == x + RStrip(u)
  {
    x := LStrip(a);
    LStripAppend(a, u);
    assert !AllSpace(u) by {
      assert IsSpace(u[0]) ==> false;
    }
    RStripAppend(x, u);
  }

  /** A piece that starts and ends with a non-space stays the tail of `strip` of any text before it. */
  lemma {:induction false} StripEndsWith(a: string, t: string)
    requires t != [] && !IsSpace(t[0]) && !IsSpace(t[|t| - 1])
    ensures Strip(a + t) != [] && EndsWith(Strip(a + t), t)
  {
    var x := StripAround(a, t);
    assert RStrip(t) == t;
    assert (x + t)[|x + t| - |t|..] == t;
  }

  /** Python `s.startswith(p)`. */
  predicate StartsWith(s: string, p: string) {
    |p| <= |s| && s[..|p|] == p
  }

  lemma {:induction false} StartsWithConcat(p: string, s: string)
    ensures StartsWith(p + s, p)
  {
    assert (p + s)[..|p|] == p;
  }

  lemma {:induction false} StartsWithTrans(s: string, t: string, p: string)
    requires StartsWith(s, t) && StartsWith(t, p)
    ensures StartsWith(s, p)
  {
    assert s[..|p|] == t[..|t|][..|p|];
  }

  lemma {:induction false} ConcatAssoc<T>(a: seq<T>, b: seq<T>, c: seq<T>)
    ensures (a + b) + c == a + (b + c)
  {
  }

  /** Python `s.endswith(p)`. */
  predicate EndsWith(s: string, p: string) {
    |p| <= |s| && s[|s| - |p|..] == p
  }

  /** Python `t in s` for strings: `t` occurs as a contiguous piece of `s`. */
  predicate Contains(s: string, t: string) {
    exists i :: 0 <= i <= |s| - |t| && OccursAt(s, t, i)
  }

  predicate OccursAt(s: string, t: string, i: int) {
    0 <= i <= |s| - |t| && s[i..i + |t|] == t
  }

  lemma {:induction false} ContainsInfix(a: string, t: string, b: string)
    ensures Contains(a + t + b, t)
    ensures Contains(a + (t + b), t)
  {
    var s := a + t + b;
    assert s == a + (t + b);
    assert s[|a|..|a| + |t|] == t;
    assert OccursAt(s, t, |a|);
  }

  /**
   * What a text-mode read (`open(p, "r").read()`, `Path.read_text()`) returns
   * for stored text: universal newlines turn "\r\n" and a lone "\r" into "\n".
   */
  function Newlines(s: string): (r: string)
    ensures '\r' !in r
    ensures |r| <= |s|
  {
    if s == [] then []
    else if s[0] == '\r' then
      if |s| > 1 && s[1] == '\n' then "\n" + Newlines(s[2..]) else "\n" + Newlines(s[1..])
    else [s[0]] + Newlines(s[1..])
  }

  /** Text without a carriage return reads back unchanged. */
  lemma {:induction false} NewlinesNoReturn(s: string)
    requires '\r' !in s
    ensures Newlines(s) == s
  {
    if s != [] {
      assert '\r' !in s[1..] by {
        forall i | 0 <= i < |s[1..]| ensures s[1..][i] != '\r' {
          assert s[1..][i] == s[i + 1];
        }
      }
      NewlinesNoReturn(s[1..]);
      assert s == [s[0]] + s[1..];
    }
  }

  /** Reading text back a second time changes nothing. */
  lemma {:induction false} NewlinesIdempotent(s: string)
    ensures Newlines(Newlines(s)) == Newlines(s)
  {
    NewlinesNoReturn(Newlines(s));
  }

  /** Python `s[:n]` for a non-negative `n`. */
  function Take<T>(s: seq<T>, n: nat): (r: seq<T>)
    ensures |r| == if n < |s| then n else |s|
    ensures r == s[..|r|]
  {
    if n < |s| then s[..n] else s
  }

  /** Python `xs[-n:]` for a positive `n`: the last `n` items, or all of them. */
  function TakeLast<T>(xs: seq<T>, n: nat): (r: seq<T>)
    ensures |r| == if n < |xs| then n else |xs|
    ensures r == xs[|xs| - |r|..]
  {
    if n < |xs| then xs[|xs| - n..] else xs
  }

  /** Python `sep.join(parts)`. */
  function Join(sep: string, parts: seq<string>): (r: string)
    ensures parts == [] ==> r == []
    ensures |parts| == 1 ==> r == parts[0]
    ensures |parts| >= 1 ==> StartsWith(r, parts[0])
  {
    if parts == [] then []
    else if |parts| == 1 then parts[0]
    else parts[0] + sep + Join(sep, parts[1..])
  }

  /** Joining a list that ends with `x` ends with `x`. */
  lemma {:induction false} JoinAppend(sep: string, parts: seq<string>, x: string)
    ensures Join(sep, parts + [x]) == if parts == [] then x else Join(sep, parts) + sep + x
  {
    if parts == [] {
      assert parts + [x] == [x];
    } else if |parts| == 1 {
      assert (parts + [x])[1..] == [x];
    } else {
      assert (parts + [x])[1..] == parts[1..] + [x];
      JoinAppend(sep, parts[1..], x);
    }
  }

  function DigitChar(d: nat): (c: char)
    requires d < 10
    ensures '0' <= c <= '9'
  {
    ['0', '1', '2', '3', '4', '5', '6', '7', '8', '9'][d]
  }

  predicate AllDigits(s: string) {
    forall i :: 0 <= i < |s| ==> '0' <= s[i] <= '9'
  }

  /** Python `str(n)` for `n >= 0`: decimal digits, no leading zero. */
  function NatToString(n: nat): (r: string)
    ensures r != [] && AllDigits(r)
    ensures r[0] == '0' ==> n == 0
  {
    if n < 10 then [DigitChar(n)] else NatToString(n / 10) + [DigitChar(n % 10)]
  }

  /** Python `str(i)` for any integer. */
  function IntToString(i: int): (r: string)
    ensures r != []
    ensures r[0] == '-' <==> i < 0
    ensures !IsSpace(r[0]) && !IsSpace(r[|r| - 1])
  {
    if i < 0 then "-" + NatToString(-i) else NatToString(i)
  }

  /** The escape Python's `repr` writes for one character inside quotes `q`. */
  function EscapeChar(c: char, q: char): string {
    if c == '\\' then "\\\\"
    else if c == '\n' then "\\n"
    else if c == '\r' then "\\r"
    else if c == '\t' then "\\t"
    else if c == q then ['\\', q]
    else [c]
  }

  function Escape(s: string, q: char): string {
    if s == [] then [] else EscapeChar(s[0], q) + Escape(s[1..], q)
  }

  /**
   * Python `repr(s)` for a string: single quotes, unless the text holds a
   * single quote and no double quote, in which case double quotes.
   */
  function Repr(s: string): (r: string)
    ensures |r| >= 2 && (r[0] == '\'' || r[0] == '"') && r[|r| - 1] == r[0]
  {
    var q := if '\'' in s && '"' !in s then '"' else '\'';
    [q] + Escape(s, q) + [q]
  }
}
