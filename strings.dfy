/** Text helpers shared by the Python handlers and the TypeScript routes:
    joining lines, searching for a character, ASCII case folding and
    decimal formatting and parsing. */
module Strings {
  import opened Wrappers

  /** `sep.join(parts)` in Python, `parts.join(sep)` in JavaScript. */
  function Join(sep: string, parts: seq<string>): string
  {
    if |parts| == 0 then ""
    else if |parts| == 1 then parts[0]
    else parts[0] + sep + Join(sep, parts[1..])
  }

  /** The text of a triple-quoted literal: every line followed by a newline. */
  function Unlines(lines: seq<string>): string
  {
    if lines == [] then "" else lines[0] + "\n" + Unlines(lines[1..])
  }

  /** `a` occurs somewhere inside `b`. */
  predicate IsInfix(a: string, b: string)
  {
    exists k | 0 <= k <= |b| :: a <= b[k..]
  }

  lemma InfixOfSelf(a: string)
    ensures IsInfix(a, a)
  {
    assert a <= a[0..];
  }

  lemma InfixExtendLeft(a: string, x: string, y: string)
    requires IsInfix(a, y)
    ensures IsInfix(a, x + y)
  {
    var k :| 0 <= k <= |y| && a <= y[k..];
    assert (x + y)[|x| + k..] == y[k..];
  }

  lemma InfixExtendRight(a: string, x: string, y: string)
    requires IsInfix(a, x)
    ensures IsInfix(a, x + y)
  {
    var k :| 0 <= k <= |x| && a <= x[k..];
    assert (x + y)[k..] == x[k..] + y;
  }

  /** Whatever is spliced into a template appears in the text it produces. */
  lemma {:induction false} InfixOfSplice(x: string, a: string, y: string)
    ensures IsInfix(a, x + a + y)
  {
    InfixOfSelf(a);
    InfixExtendLeft(a, x, a);
    InfixExtendRight(a, x + a, y);
  }

  /** Every part of a join occurs in the joined text. */
  lemma {:induction false} InfixOfJoin(sep: string, parts: seq<string>, i: nat)
    requires i < |parts|
    ensures IsInfix(parts[i], Join(sep, parts))
  {
    if |parts| == 1 {
      InfixOfSelf(parts[0]);
    } else if i == 0 {
      InfixOfSelf(parts[0]);
      InfixExtendRight(parts[0], parts[0], sep + Join(sep, parts[1..]));
      assert parts[0] + (sep + Join(sep, parts[1..])) == Join(sep, parts);
    } else {
      InfixOfJoin(sep, parts[1..], i - 1);
      InfixExtendLeft(parts[i], parts[0] + sep, Join(sep, parts[1..]));
    }
  }

  /** Every line of a multi-line literal occurs in its text. */
  lemma {:induction false} InfixOfUnlines(lines: seq<string>, i: nat)
    requires i < |lines|
    ensures IsInfix(lines[i], Unlines(lines))
  {
    if i == 0 {
      InfixOfSelf(lines[0]);
      InfixExtendRight(lines[0], lines[0], "\n" + Unlines(lines[1..]));
      assert lines[0] + ("\n" + Unlines(lines[1..])) == Unlines(lines);
    } else {
      InfixOfUnlines(lines[1..], i - 1);
      InfixExtendLeft(lines[i], lines[0] + "\n", Unlines(lines[1..]));
    }
  }

  lemma InfixTrans(a: string, b: string, c: string)
    requires IsInfix(a, b) && IsInfix(b, c)
    ensures IsInfix(a, c)
  {
    var k :| 0 <= k <= |b| && a <= b[k..];
    var m :| 0 <= m <= |c| && b <= c[m..];
    assert k + |a| <= |b| && m + |b| <= |c|;
    assert forall j | 0 <= j < |a| :: a[j] == b[k + j] == c[m + k + j];
    assert a <= c[m + k..];
  }

  /** The position of the last occurrence of `c` in `s`. */
  function LastIndexOf(s: string, c: char): (r: Option<nat>)
    ensures r.None? <==> c !in s
    ensures r.Some? ==> r.value < |s| && s[r.value] == c
    ensures r.Some? ==> forall j | r.value < j < |s| :: s[j] != c
  {
    if s == [] then None
    else if s[|s| - 1] == c then Some(|s| - 1)
    else
      assert s == s[..|s| - 1] + [s[|s| - 1]];
      LastIndexOf(s[..|s| - 1], c)
  }

  /** ASCII case folding; letters outside A-Z are left alone. */
  function LowerChar(c: char): char
  {
    if 'A' <= c <= 'Z' then (c as int + 32) as char else c
  }

  function Lower(s: string): (r: string)
    ensures |r| == |s|
    ensures forall i | 0 <= i < |s| :: r[i] == LowerChar(s[i])
  {
    seq(|s|, i requires 0 <= i < |s| => LowerChar(s[i]))
  }

  function DigitChar(d: nat): char
    requires d < 10
  {
    ('0' as int + d) as char
  }

  predicate IsDigit(c: char)
  {
    '0' <= c <= '9'
  }

  /** Decimal rendering of a natural number, as Python's `str` and JavaScript's template literals print it. */
  function NatToString(n: nat): (r: string)
    ensures |r| > 0
    ensures forall i | 0 <= i < |r| :: IsDigit(r[i])
  {
    if n < 10 then [DigitChar(n)] else NatToString(n / 10) + [DigitChar(n % 10)]
  }

  function IntToString(n: int): string
  {
    if n < 0 then "-" + NatToString(-n) else NatToString(n)
  }

  function DigitsValue(s: string): nat
    requires forall i | 0 <= i < |s| :: IsDigit(s[i])
  {
    if s == [] then 0
    else
      assert IsDigit(s[|s| - 1]);
      DigitsValue(s[..|s| - 1]) * 10 + (s[|s| - 1] as int - '0' as int)
  }

  predicate IsSpace(c: char)
  {
    c == ' ' || c == '\t' || c == '\n' || c == '\r' || c == '\U{B}' || c == '\U{C}'
  }

  function TrimLeft(s: string): string
  {
    if s != [] && IsSpace(s[0]) then TrimLeft(s[1..]) else s
  }

  function TrimRight(s: string): string
  {
    if s != [] && IsSpace(s[|s| - 1]) then TrimRight(s[..|s| - 1]) else s
  }

  /** A run of decimal digits in which single underscores may separate
      digits, as Python's integer literals and `int(text)` allow. */
  predicate DigitRun(s: string)
  {
    s != [] && IsDigit(s[0]) && IsDigit(s[|s| - 1]) &&
    forall i | 0 <= i < |s| :: IsDigit(s[i]) || (s[i] == '_' && i + 1 < |s| && IsDigit(s[i + 1]))
  }

  function DropUnderscores(s: string): (r: string)
    ensures (forall i | 0 <= i < |s| :: IsDigit(s[i]) || s[i] == '_') ==> forall j | 0 <= j < |r| :: IsDigit(r[j])
    ensures (forall i | 0 <= i < |s| :: s[i] != '_') ==> r == s
  {
    if s == [] then []
    else
      var rest := DropUnderscores(s[1..]);
      assert forall i | 0 <= i < |s[1..]| :: s[1..][i] == s[i + 1];
      (if s[0] == '_' then [] else [s[0]]) + rest
  }

  /** Python's `int(text)`: optional surrounding whitespace, an optional
      sign, then decimal digits, single underscores allowed between them. */
  function ParseInt(text: string): Option<int>
  {
    var t := TrimRight(TrimLeft(text));
    var sign := if t != [] && (t[0] == '-' || t[0] == '+') then t[..1] else "";
    var digits := t[|sign|..];
    if DigitRun(digits) then
      var d := DropUnderscores(digits);
      Some(if sign == "-" then -(DigitsValue(d) as int) else DigitsValue(d))
    else None
  }

  /** An underscore between two digits is skipped. */
  lemma {:induction false} UnderscoreBetweenDigits()
    ensures ParseInt("1_2") == Some(12)
  {
    assert TrimLeft("1_2") == "1_2" && TrimRight("1_2") == "1_2";
    assert DigitRun("1_2");
    assert DropUnderscores("1_2") == "12" by {
      assert "1_2"[1..] == "_2" && "_2"[1..] == "2";
      assert DropUnderscores("2") == "2";
    }
    assert DigitsValue("12") == 12 by {
      assert "12"[..1] == "1";
    }
  }

  /** Underscores elsewhere make the text unreadable as an integer. */
  lemma {:induction false} MisplacedUnderscores()
    ensures ParseInt("1__2") == None && ParseInt("_12") == None && ParseInt("12_") == None
  {
    assert TrimLeft("1__2") == "1__2" && TrimRight("1__2") == "1__2";
    assert TrimLeft("_12") == "_12" && TrimRight("_12") == "_12";
    assert TrimLeft("12_") == "12_" && TrimRight("12_") == "12_";
    assert !DigitRun("1__2") by {
      assert "1__2"[1] == '_' && "1__2"[2] == '_';
    }
  }
}
