/** The handful of Python string operations the tools use, each with a partner
    that says what it means: decimal text and its parse, `join`, `split("\n")`
    and its inverse, `replace("\n", " ")`. */
module Strings {
  import opened Fields

  predicate IsDigit(c: char) {
    '0' <= c <= '9'
  }

  predicate AllDigits(s: string) {
    forall i :: 0 <= i < |s| ==> IsDigit(s[i])
  }

  function DigitChar(d: nat): char
    requires d < 10
  {
    ('0' as int + d) as char
  }

  function DigitValue(c: char): nat
    requires IsDigit(c)
  {
    c as int - '0' as int
  }

  /** `str(n)` for a natural number: non-empty decimal digits, with no leading zero. */
  function NatToString(n: nat): (s: string)
    ensures |s| >= 1 && AllDigits(s)
    ensures s[0] == '0' ==> n == 0
    ensures n == 0 ==> s == "0"
    decreases n
  {
    if n < 10 then [DigitChar(n)] else NatToString(n / 10) + [DigitChar(n % 10)]
  }

  /** `str(i)` for an integer: a minus sign before the digits of a negative number. */
  function IntToString(i: int): (s: string)
    ensures |s| >= 1 && '\n' !in s
    ensures (s[0] == '-') == (i < 0)
  {
    if i < 0 then "-" + NatToString(-i) else NatToString(i)
  }

  /** The value of a non-empty string of decimal digits. */
  function ParseNat(s: string): nat
    requires |s| >= 1 && AllDigits(s)
    decreases |s|
  {
    if |s| == 1 then DigitValue(s[0])
    else 10 * ParseNat(s[..|s| - 1]) + DigitValue(s[|s| - 1])
  }

  /** `int(s)` for an optionally signed decimal literal; None when `s` is not one. */
  function ParseInt(s: string): Option<int> {
    if |s| >= 2 && s[0] == '-' && AllDigits(s[1..]) then Some(-(ParseNat(s[1..]) as int))
    else if |s| >= 1 && AllDigits(s) then Some(ParseNat(s))
    else None
  }

  lemma {:induction false} ParseNatToString(n: nat)
    ensures ParseNat(NatToString(n)) == n
    decreases n
  {
    if n >= 10 {
      var s := NatToString(n);
      assert s[..|s| - 1] == NatToString(n / 10);
      ParseNatToString(n / 10);
    }
  }

  /** Reading back the decimal text of an integer gives the integer. */
  lemma ParseIntToString(i: int)
    ensures ParseInt(IntToString(i)) == Some(i)
  {
    var s := IntToString(i);
    if i < 0 {
      assert s[1..] == NatToString(-i);
      ParseNatToString(-i);
    } else {
      ParseNatToString(i);
    }
  }

  /** `sep.join(parts)` */
  function Join(sep: string, parts: seq<string>): (r: string)
    ensures |parts| >= 1 ==> parts[0] <= r
    ensures |parts| >= 2 ==> parts[0] + sep <= r
    decreases |parts|
  {
    if parts == [] then ""
    else if |parts| == 1 then parts[0]
    else parts[0] + sep + Join(sep, parts[1..])
  }

  /** With a non-empty separator, a join is empty only for no parts or one empty part. */
  lemma JoinEmpty(sep: string, parts: seq<string>)
    requires sep != ""
    ensures Join(sep, parts) == "" <==> parts == [] || parts == [""]
  {
    if |parts| >= 2 {
      assert |Join(sep, parts)| >= |sep|;
    }
  }

  /** Joining the first `k` parts gives the start of the join of all of them. */
  lemma {:induction false} JoinPrefix(sep: string, parts: seq<string>, k: nat)
    requires 1 <= k <= |parts|
    ensures Join(sep, parts[..k]) <= Join(sep, parts)
    decreases k
  {
    if k == |parts| {
      assert parts[..k] == parts;
    } else if k > 1 {
      var rest := parts[1..];
      assert parts[..k][1..] == rest[..k - 1];
      JoinPrefix(sep, rest, k - 1);
      var a := Join(sep, rest[..k - 1]);
      var b := Join(sep, rest);
      assert Join(sep, parts[..k]) == parts[0] + sep + a;
      assert Join(sep, parts) == parts[0] + sep + b;
      assert b[..|a|] == a;
      assert (parts[0] + sep + b)[..|parts[0] + sep + a|] == parts[0] + sep + a;
    }
  }

  /** A join of line-feed-free parts with a line-feed-free separator has no line feed. */
  lemma {:induction false} JoinNoNewline(sep: string, parts: seq<string>)
    requires '\n' !in sep
    requires forall i :: 0 <= i < |parts| ==> '\n' !in parts[i]
    ensures '\n' !in Join(sep, parts)
    decreases |parts|
  {
    if |parts| >= 2 {
      var rest := parts[1..];
      assert forall i :: 0 <= i < |rest| ==> rest[i] == parts[i + 1];
      JoinNoNewline(sep, rest);
    }
  }

  /** `s.split("\n")`: the pieces between line feeds, one more than there are line feeds. */
  function Lines(s: string): (r: seq<string>)
    ensures |r| >= 1
    decreases |s|
  {
    if s == [] then [""]
    else if s[0] == '\n' then [""] + Lines(s[1..])
    else
      var rest := Lines(s[1..]);
      [[s[0]] + rest[0]] + rest[1..]
  }

  /** Each line followed by a line feed, as text is built by `content += line + "\n"`. */
  function Unlines(lines: seq<string>): (r: string)
    ensures r == "" <==> lines == []
    ensures |lines| >= 1 ==> lines[0] + "\n" <= r
    decreases |lines|
  {
    if lines == [] then "" else lines[0] + "\n" + Unlines(lines[1..])
  }

  lemma {:induction false} LinesOfLine(a: string)
    requires '\n' !in a
    ensures Lines(a) == [a]
    decreases |a|
  {
    if a != [] {
      assert a[0] in a;
      assert forall c :: c in a[1..] ==> c in a;
      LinesOfLine(a[1..]);
      assert [a[0]] + a[1..] == a;
    }
  }

  /** Splitting at a line feed splits the two sides independently. */
  lemma {:induction false} LinesAppend(x: string, y: string)
    ensures Lines(x + "\n" + y) == Lines(x) + Lines(y)
    decreases |x|
  {
    var s := x + "\n" + y;
    if x == [] {
      assert s[0] == '\n' && s[1..] == y;
    } else {
      assert s[0] == x[0] && s[1..] == x[1..] + "\n" + y;
      LinesAppend(x[1..], y);
      if x[0] != '\n' {
        var a := Lines(x[1..]);
        var r := Lines(s[1..]);
        assert r == a + Lines(y);
        assert r[0] == a[0] && r[1..] == a[1..] + Lines(y);
      }
    }
  }

  /** Splitting text made of line-feed-free lines gives the lines back, and the empty
      piece after the final line feed. */
  lemma {:induction false} LinesUnlines(lines: seq<string>)
    requires forall i :: 0 <= i < |lines| ==> '\n' !in lines[i]
    ensures Lines(Unlines(lines)) == lines + [""]
    decreases |lines|
  {
    if lines != [] {
      LinesAppend(lines[0], Unlines(lines[1..]));
      LinesOfLine(lines[0]);
      var rest := lines[1..];
      assert forall i :: 0 <= i < |rest| ==> rest[i] == lines[i + 1];
      LinesUnlines(rest);
      assert lines == [lines[0]] + rest;
    }
  }

  lemma UnlinesOfThree(a: string, b: string, c: string)
    ensures Unlines([a, b, c]) == a + "\n" + (b + "\n" + (c + "\n"))
  {
    assert [a, b, c][1..] == [b, c];
    assert [b, c][1..] == [c];
    assert [c][1..] == [];
    assert Unlines([c]) == c + "\n" + "";
    assert c + "\n" + "" == c + "\n";
  }

  /** The text of the first `k` lines begins the text of all of them. */
  lemma {:induction false} UnlinesPrefix(lines: seq<string>, k: nat)
    requires k <= |lines|
    ensures Unlines(lines[..k]) <= Unlines(lines)
    decreases k
  {
    if k > 0 {
      var rest := lines[1..];
      assert lines[..k][1..] == rest[..k - 1];
      UnlinesPrefix(rest, k - 1);
      var a := Unlines(rest[..k - 1]);
      var b := Unlines(rest);
      assert b[..|a|] == a;
      assert (lines[0] + "\n" + b)[..|lines[0] + "\n" + a|] == lines[0] + "\n" + a;
    }
  }

  /** Whatever the earlier lines hold, a line-feed-free last line is the last piece
      before the final empty one. */
  lemma {:induction false} LinesUnlinesLast(lines: seq<string>)
    requires |lines| >= 1 && '\n' !in lines[|lines| - 1]
    ensures var r := Lines(Unlines(lines));
      |r| >= 2 && r[|r| - 2] == lines[|lines| - 1] && r[|r| - 1] == ""
    decreases |lines|
  {
    LinesAppend(lines[0], Unlines(lines[1..]));
    if |lines| == 1 {
      LinesOfLine(lines[0]);
    } else {
      LinesUnlinesLast(lines[1..]);
    }
  }

  /** `s.replace("\n", " ")`: every line feed becomes a space, nothing else changes. */
  function ReplaceNewlines(s: string): (r: string)
    ensures |r| == |s|
    ensures forall i :: 0 <= i < |s| ==> r[i] == (if s[i] == '\n' then ' ' else s[i])
    decreases |s|
  {
    if s == [] then [] else [if s[0] == '\n' then ' ' else s[0]] + ReplaceNewlines(s[1..])
  }

  /** `c * n` for a one-character string `c`. */
  function Repeat(c: char, n: nat): string {
    seq(n, _ => c)
  }
}
