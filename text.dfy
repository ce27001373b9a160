/** The string operations the tool relies on, stated over `seq<char>`:
    Python's `str(n)` and `"%02d" % n`, `int(s)`, `str.split`, `str.strip`,
    `str.replace`, the substring test `in`, `file.readlines` and `list.remove`. */
module Text {
  import opened Wrappers

  predicate IsDigit(c: char) { '0' <= c <= '9' }

  predicate AllDigits(s: string) { forall k :: 0 <= k < |s| ==> IsDigit(s[k]) }

  function DigitChar(d: nat): (c: char)
    requires d < 10
    ensures IsDigit(c) && c as int - '0' as int == d
  {
    (d + '0' as int) as char
  }

  function DigitValue(c: char): nat
    requires IsDigit(c)
  {
    (c as int - '0' as int) as nat
  }

  /** `str(n)` for a non-negative integer: decimal digits, no leading zero. */
  function Decimal(n: nat): (s: string)
    ensures |s| >= 1 && AllDigits(s)
    ensures s[0] == '0' <==> n == 0
    ensures |s| == 1 <==> n < 10
    decreases n
  {
    if n < 10 then [DigitChar(n)] else Decimal(n / 10) + [DigitChar(n % 10)]
  }

  /** The value of a string of decimal digits (leading zeros allowed). */
  function ParseDigits(s: string): nat
    requires AllDigits(s)
  {
    if s == [] then 0 else ParseDigits(s[..|s| - 1]) * 10 + DigitValue(s[|s| - 1])
  }

  lemma {:induction false} DecimalRoundTrip(n: nat)
    ensures ParseDigits(Decimal(n)) == n
  {
    var s := Decimal(n);
    if n < 10 {
      assert s[..|s| - 1] == [];
    } else {
      assert s[..|s| - 1] == Decimal(n / 10);
      DecimalRoundTrip(n / 10);
    }
  }

  lemma DecimalInjective(a: nat, b: nat)
    ensures Decimal(a) == Decimal(b) <==> a == b
  {
    DecimalRoundTrip(a);
    DecimalRoundTrip(b);
  }

  /** `"%02d" % n` for a non-negative integer: zero-padded to at least two digits. */
  function Pad2(n: nat): (s: string)
    ensures |s| >= 2 && AllDigits(s)
  {
    if n < 10 then "0" + Decimal(n) else Decimal(n)
  }

  lemma Pad2RoundTrip(n: nat)
    ensures ParseDigits(Pad2(n)) == n
  {
    var s := Pad2(n);
    if n < 10 {
      assert s[..|s| - 1] == "0";
      assert "0"[..0] == [];
    } else {
      DecimalRoundTrip(n);
    }
  }

  lemma Pad2Injective(a: nat, b: nat)
    ensures Pad2(a) == Pad2(b) <==> a == b
  {
    Pad2RoundTrip(a);
    Pad2RoundTrip(b);
  }

  /** The padding keeps exactly two characters only below 100. */
  lemma Pad2Width(n: nat)
    ensures |Pad2(n)| == 2 <==> n < 100
  {
    if n >= 10 {
      assert Decimal(n) == Decimal(n / 10) + [DigitChar(n % 10)];
    }
  }

  /** `str(n)` for any integer. */
  function PyStr(n: int): (s: string)
    ensures |s| >= 1
  {
    if n < 0 then "-" + Decimal(-n) else Decimal(n)
  }

  /** Python's `int(s)` on a string without surrounding blanks: an optional sign
      and at least one decimal digit; None where `int` raises ValueError. */
  function ParseInt(s: string): Option<int>
  {
    if |s| >= 2 && (s[0] == '-' || s[0] == '+') && AllDigits(s[1..]) then
      Some(if s[0] == '-' then -(ParseDigits(s[1..]) as int) else ParseDigits(s[1..]))
    else if |s| >= 1 && AllDigits(s) then
      Some(ParseDigits(s))
    else
      None
  }

  /** `int(str(n)) == n`. */
  lemma ParseIntOfPyStr(n: int)
    ensures ParseInt(PyStr(n)) == Some(n)
  {
    if n < 0 {
      var d := Decimal(-n);
      var s := PyStr(n);
      assert s == "-" + d && s[0] == '-' && s[1..] == d;
      DecimalRoundTrip(-n);
      assert ParseInt(s) == Some(-(ParseDigits(d) as int));
    } else {
      var d := Decimal(n);
      assert IsDigit(d[0]);
      DecimalRoundTrip(n);
      assert ParseInt(d) == Some(ParseDigits(d) as int);
    }
  }

  lemma PyStrInjective(a: int, b: int)
    ensures PyStr(a) == PyStr(b) <==> a == b
  {
    ParseIntOfPyStr(a);
    ParseIntOfPyStr(b);
  }

  /** `s.split(d)`: the pieces between separators, at least one, none holding `d`. */
  function Split(s: string, d: char): (parts: seq<string>)
    ensures |parts| >= 1
    ensures forall k :: 0 <= k < |parts| ==> d !in parts[k]
    decreases |s|
  {
    if s == [] then [[]]
    else
      var rest := Split(s[1..], d);
      if s[0] == d then [[]] + rest
      else
        assert d !in [s[0]] + rest[0];
        [[s[0]] + rest[0]] + rest[1..]
  }

  /** `d.join(parts)`. */
  function Join(parts: seq<string>, d: char): string
    requires |parts| >= 1
    decreases |parts|
  {
    if |parts| == 1 then parts[0] else parts[0] + [d] + Join(parts[1..], d)
  }

  /** Joining the pieces of a split gives the string back. */
  lemma {:induction false} JoinSplit(s: string, d: char)
    ensures Join(Split(s, d), d) == s
    decreases |s|
  {
    if s != [] {
      var rest := Split(s[1..], d);
      JoinSplit(s[1..], d);
      if s[0] == d {
        assert Split(s, d) == [[]] + rest;
        assert ([[]] + rest)[1..] == rest;
      } else {
        var parts := [[s[0]] + rest[0]] + rest[1..];
        assert Split(s, d) == parts;
        if |rest| > 1 {
          assert parts[1..] == rest[1..];
        }
      }
    }
  }

  /** A string with no separator splits into itself. */
  lemma {:induction false} SplitNoSeparator(x: string, d: char)
    requires d !in x
    ensures Split(x, d) == [x]
    decreases |x|
  {
    if x != [] {
      SplitNoSeparator(x[1..], d);
      assert [x[0]] + x[1..] == x;
    }
  }

  /** Splitting at the first separator: the piece before it, then the rest split. */
  lemma {:induction false} SplitAtFirst(x: string, y: string, d: char)
    requires d !in x
    ensures Split(x + [d] + y, d) == [x] + Split(y, d)
    decreases |x|
  {
    var s := x + [d] + y;
    if x == [] {
      assert s[1..] == y;
    } else {
      assert s[1..] == x[1..] + [d] + y;
      SplitAtFirst(x[1..], y, d);
      assert [x[0]] + x[1..] == x;
    }
  }

  /** Splitting at the last separator: the split of what comes before it, then the piece after it. */
  lemma {:induction false} SplitAtLast(x: string, y: string, d: char)
    requires d !in y
    ensures Split(x + [d] + y, d) == Split(x, d) + [y]
    decreases |x|
  {
    var s := x + [d] + y;
    if x == [] {
      assert s[1..] == y;
      SplitNoSeparator(y, d);
    } else {
      assert s[1..] == x[1..] + [d] + y;
      SplitAtLast(x[1..], y, d);
      var r := Split(x[1..], d);
      assert Split(s[1..], d) == r + [y];
      assert (r + [y])[0] == r[0] && (r + [y])[1..] == r[1..] + [y];
    }
  }

  /** Splitting a join gives the pieces back when no piece holds the separator. */
  lemma {:induction false} SplitJoin(parts: seq<string>, d: char)
    requires |parts| >= 1
    requires forall k :: 0 <= k < |parts| ==> d !in parts[k]
    ensures Split(Join(parts, d), d) == parts
    decreases |parts|
  {
    if |parts| == 1 {
      SplitNoSeparator(parts[0], d);
    } else {
      SplitJoin(parts[1..], d);
      SplitAtFirst(parts[0], Join(parts[1..], d), d);
      assert [parts[0]] + parts[1..] == parts;
    }
  }

  /** The text a program prints when it prints each string on its own line. */
  function Lines(ls: seq<string>): string
  {
    if ls == [] then [] else ls[0] + "\n" + Lines(ls[1..])
  }

  /** Splitting printed lines at '\n' leaves one empty piece after the last newline. */
  lemma {:induction false} SplitLines(ls: seq<string>)
    requires forall k :: 0 <= k < |ls| ==> '\n' !in ls[k]
    ensures Split(Lines(ls), '\n') == ls + [""]
  {
    if ls != [] {
      SplitLines(ls[1..]);
      SplitAtFirst(ls[0], Lines(ls[1..]), '\n');
      assert ls[0] + "\n" + Lines(ls[1..]) == ls[0] + ['\n'] + Lines(ls[1..]);
      assert [ls[0]] + ls[1..] == ls;
    }
  }

  /** `f.readlines()` on a file holding `s`: its lines, each with its newline
      (only the last may lack one). */
  function ReadLines(s: string): (lines: seq<string>)
    decreases |s|
  {
    if s == [] then []
    else if s[0] == '\n' then ["\n"] + ReadLines(s[1..])
    else
      var rest := ReadLines(s[1..]);
      if rest == [] then [[s[0]]] else [[s[0]] + rest[0]] + rest[1..]
  }

  /** Each string followed by its newline. */
  function Terminated(ls: seq<string>): (r: seq<string>)
    ensures |r| == |ls|
  {
    seq(|ls|, k requires 0 <= k < |ls| => ls[k] + "\n")
  }

  lemma {:induction false} ReadLinesAtFirst(x: string, y: string)
    requires '\n' !in x
    ensures ReadLines(x + "\n" + y) == [x + "\n"] + ReadLines(y)
    decreases |x|
  {
    var s := x + "\n" + y;
    if x == [] {
      assert s[0] == '\n' && s[1..] == y;
      assert x + "\n" == "\n";
    } else {
      assert s[1..] == x[1..] + "\n" + y;
      ReadLinesAtFirst(x[1..], y);
      var rest := ReadLines(s[1..]);
      assert rest[0] == x[1..] + "\n" && rest[1..] == ReadLines(y);
      assert [x[0]] + rest[0] == x + "\n";
    }
  }

  /** Reading back printed lines gives each line with its newline. */
  lemma {:induction false} ReadLinesOfLines(ls: seq<string>)
    requires forall k :: 0 <= k < |ls| ==> '\n' !in ls[k]
    ensures ReadLines(Lines(ls)) == Terminated(ls)
  {
    if ls != [] {
      ReadLinesOfLines(ls[1..]);
      ReadLinesAtFirst(ls[0], Lines(ls[1..]));
      assert Terminated(ls) == [ls[0] + "\n"] + Terminated(ls[1..]);
    }
  }

  /** `s.lstrip(c)`. */
  function StripLeft(s: string, c: char): (r: string)
    ensures |r| <= |s| && r == s[|s| - |r|..]
    ensures r == [] || r[0] != c
    ensures forall k :: 0 <= k < |s| - |r| ==> s[k] == c
    decreases |s|
  {
    if s != [] && s[0] == c then StripLeft(s[1..], c) else s
  }

  /** `s.rstrip(c)`. */
  function StripRight(s: string, c: char): (r: string)
    ensures |r| <= |s| && r == s[..|r|]
    ensures r == [] || r[|r| - 1] != c
    ensures forall k :: |r| <= k < |s| ==> s[k] == c
    decreases |s|
  {
    if s != [] && s[|s| - 1] == c then StripRight(s[..|s| - 1], c) else s
  }

  /** `s.strip(c)`: `c` removed from both ends. */
  function Strip(s: string, c: char): (r: string)
    ensures r == [] || (r[0] != c && r[|r| - 1] != c)
    ensures c !in s ==> r == s
  {
    var l := StripLeft(s, c);
    var r := StripRight(l, c);
    assert r != [] ==> r[0] == l[0];
    r
  }

  /** What strip leaves is a middle slice of `s`: only copies of `c` are cut off,
      at either end. */
  lemma StripSlice(s: string, c: char)
    ensures exists a, b :: 0 <= a <= b <= |s| && Strip(s, c) == s[a..b] &&
              (forall k :: 0 <= k < a ==> s[k] == c) && (forall k :: b <= k < |s| ==> s[k] == c)
  {
    var l := StripLeft(s, c);
    var r := StripRight(l, c);
    var a := |s| - |l|;
    var b := a + |r|;
    assert l == s[a..];
    assert r == l[..|r|];
    assert r == s[a..b];
    forall k | b <= k < |s| ensures s[k] == c {
      assert s[k] == l[k - a];
    }
  }

  /** A line read back from a file, stripped of newlines, is the string that was printed. */
  lemma StripTerminated(x: string)
    requires '\n' !in x
    ensures Strip(x + "\n", '\n') == x
  {
    var s := x + "\n";
    var l := StripLeft(s, '\n');
    if x == [] {
      assert l == [];
    } else {
      assert s[0] != '\n';
      assert l == s;
      assert StripRight(s, '\n') == StripRight(x, '\n');
    }
  }

  /** `s.replace(a, b)` for single characters. */
  function Replace(s: string, a: char, b: char): (r: string)
    ensures |r| == |s|
    ensures a != b ==> a !in r
    ensures forall k :: 0 <= k < |s| && s[k] != a ==> r[k] == s[k]
  {
    seq(|s|, k requires 0 <= k < |s| => if s[k] == a then b else s[k])
  }

  predicate StartsWith(s: string, prefix: string)
  {
    |prefix| <= |s| && s[..|prefix|] == prefix
  }

  /** `sub in s` for strings. */
  predicate Contains(s: string, sub: string)
    decreases |s|
  {
    StartsWith(s, sub) || (s != [] && Contains(s[1..], sub))
  }

  /** The position of the first occurrence of `x`. */
  function FirstIndex<T(==)>(s: seq<T>, x: T): (i: nat)
    requires x in s
    ensures i < |s| && s[i] == x && x !in s[..i]
  {
    if s[0] == x then 0 else 1 + FirstIndex(s[1..], x)
  }

  /** `list.remove(x)`: the list without its first `x`; None where Python raises ValueError. */
  function RemoveFirst<T(==)>(s: seq<T>, x: T): (r: Option<seq<T>>)
    ensures r.None? <==> x !in s
    ensures r.Some? ==> |r.value| == |s| - 1 && multiset(r.value) == multiset(s) - multiset{x}
  {
    if x in s then
      var i := FirstIndex(s, x);
      assert s == s[..i] + [x] + s[i + 1..];
      Some(s[..i] + s[i + 1..])
    else
      None
  }

  /** `list.remove` takes out the first occurrence and keeps everything around it. */
  lemma RemoveFirstOccurrence<T>(s: seq<T>, x: T)
    requires x in s
    ensures exists i :: 0 <= i < |s| && s[i] == x && x !in s[..i] &&
                        RemoveFirst(s, x) == Some(s[..i] + s[i + 1..])
  {
    var i := FirstIndex(s, x);
    assert RemoveFirst(s, x) == Some(s[..i] + s[i + 1..]);
  }

  /** Strict lexicographic order of strings by character code, as `sort` orders names. */
  predicate LexLess(a: string, b: string)
    decreases |a|
  {
    b != [] && (a == [] || a[0] < b[0] || (a[0] == b[0] && LexLess(a[1..], b[1..])))
  }

  /** The order is strict: no string precedes itself, and of two strings at most
      one precedes the other. */
  lemma {:induction false} LexLessAsymmetric(a: string, b: string)
    ensures !(LexLess(a, b) && LexLess(b, a))
    ensures !LexLess(a, a)
    decreases |a|
  {
    if a != [] && b != [] {
      LexLessAsymmetric(a[1..], b[1..]);
    }
    if a != [] {
      LexLessAsymmetric(a[1..], a[1..]);
    }
  }
}
