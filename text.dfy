/**
 * String helpers with the semantics of the JavaScript built-ins the dashboard
 * relies on: `String.prototype.trim`, `substring`-based truncation,
 * `Array.prototype.join` / `String.prototype.split` on a one-character
 * separator, `Array.prototype.slice(0, n)` and the decimal rendering of an
 * integer inside a template string.
 */
module Text {

  /** The code points ECMAScript counts as WhiteSpace or LineTerminator,
      which are exactly the ones `trim` strips. */
  predicate IsWhitespace(c: char) {
    || c == '\t' || c == '\n' || c == '\U{000B}' || c == '\U{000C}' || c == '\r'
    || c == ' ' || c == '\U{00A0}' || c == '\U{1680}'
    || ('\U{2000}' <= c <= '\U{200A}')
    || c == '\U{2028}' || c == '\U{2029}' || c == '\U{202F}' || c == '\U{205F}'
    || c == '\U{3000}' || c == '\U{FEFF}'
  }

  predicate AllWhitespace(s: string) {
    forall k :: 0 <= k < |s| ==> IsWhitespace(s[k])
  }

  /** `s.trim()`: drops whitespace at either end until neither end is
      whitespace. */
  function Trim(s: string): (r: string)
    ensures |r| <= |s|
  {
    if |s| > 0 && IsWhitespace(s[0]) then Trim(s[1..])
    else if |s| > 0 && IsWhitespace(s[|s| - 1]) then Trim(s[..|s| - 1])
    else s
  }

  /** Neither end of a trimmed string is whitespace. */
  lemma {:induction false} TrimEdges(s: string)
    ensures var r := Trim(s); r != [] ==> !IsWhitespace(r[0]) && !IsWhitespace(r[|r| - 1])
  {
    if |s| > 0 && IsWhitespace(s[0]) {
      TrimEdges(s[1..]);
    } else if |s| > 0 && IsWhitespace(s[|s| - 1]) {
      TrimEdges(s[..|s| - 1]);
    }
  }

  /** The whitespace `Trim` drops at the front and at the back. */
  ghost function TrimmedEnds(s: string): (string, string)
  {
    if |s| > 0 && IsWhitespace(s[0]) then
      var e := TrimmedEnds(s[1..]);
      ([s[0]] + e.0, e.1)
    else if |s| > 0 && IsWhitespace(s[|s| - 1]) then
      var e := TrimmedEnds(s[..|s| - 1]);
      (e.0, e.1 + [s[|s| - 1]])
    else ("", "")
  }

  lemma ConsWhitespace(c: char, p: string)
    requires IsWhitespace(c) && AllWhitespace(p)
    ensures AllWhitespace([c] + p)
  {
    assert forall k :: 1 <= k < |p| + 1 ==> ([c] + p)[k] == p[k - 1];
  }

  lemma SnocWhitespace(q: string, c: char)
    requires IsWhitespace(c) && AllWhitespace(q)
    ensures AllWhitespace(q + [c])
  {
    assert forall k :: 0 <= k < |q| ==> (q + [c])[k] == q[k];
  }

  lemma ConsRegroup(c: char, rest: string, p: string, m: string, q: string)
    requires rest == p + m + q
    ensures [c] + rest == ([c] + p) + m + q
  {
  }

  lemma SnocRegroup(init: string, c: char, p: string, m: string, q: string)
    requires init == p + m + q
    ensures init + [c] == p + m + (q + [c])
  {
  }

  /** Where the trimmed text sits: `s` is whitespace, then `Trim(s)`, then
      whitespace. */
  lemma {:induction false} TrimInfix(s: string)
    ensures var e := TrimmedEnds(s);
            s == e.0 + Trim(s) + e.1 && AllWhitespace(e.0) && AllWhitespace(e.1)
  {
    if |s| > 0 && IsWhitespace(s[0]) {
      TrimInfix(s[1..]);
      var e := TrimmedEnds(s[1..]);
      assert s == [s[0]] + s[1..];
      ConsRegroup(s[0], s[1..], e.0, Trim(s[1..]), e.1);
      ConsWhitespace(s[0], e.0);
    } else if |s| > 0 && IsWhitespace(s[|s| - 1]) {
      TrimInfix(s[..|s| - 1]);
      var e := TrimmedEnds(s[..|s| - 1]);
      assert s == s[..|s| - 1] + [s[|s| - 1]];
      SnocRegroup(s[..|s| - 1], s[|s| - 1], e.0, Trim(s[..|s| - 1]), e.1);
      SnocWhitespace(e.1, s[|s| - 1]);
    }
  }

  /** A string trims to "" exactly when it consists of whitespace only. */
  lemma {:induction false} TrimEmptyIff(s: string)
    ensures Trim(s) == "" <==> AllWhitespace(s)
  {
    if |s| > 0 && IsWhitespace(s[0]) {
      TrimEmptyIff(s[1..]);
      assert forall k :: 1 <= k < |s| ==> s[k] == s[1..][k - 1];
    } else if |s| > 0 && IsWhitespace(s[|s| - 1]) {
      TrimEmptyIff(s[..|s| - 1]);
      assert s[..|s| - 1][0] == s[0];
    }
  }

  /** Trimming twice is trimming once. */
  lemma TrimIdempotent(s: string)
    ensures Trim(Trim(s)) == Trim(s)
  {
    TrimEdges(s);
  }

  /** The label rule shared by the charts: text longer than `n` characters
      becomes its first `n` characters followed by "...". */
  function Truncate(s: string, n: nat): (r: string)
    ensures |s| <= n ==> r == s
    ensures |s| > n ==> |r| == n + 3 && r[..n] == s[..n] && r[n..] == "..."
  {
    if |s| > n then s[..n] + "..." else s
  }

  /** JavaScript's `length`: the number of UTF-16 code units, two for a
      character beyond U+FFFF (a surrogate pair) and one for any other. */
  function Utf16Length(s: string): (r: nat)
    ensures |s| <= r <= 2 * |s|
    ensures r == |s| <==> forall i :: 0 <= i < |s| ==> s[i] as int <= 0xFFFF
  {
    if s == [] then 0
    else (if s[0] as int > 0xFFFF then 2 else 1) + Utf16Length(s[1..])
  }

  /** A truncated label always agrees with the original on its first
      `min(n, |s|)` characters and is at most three characters longer than `n`. */
  lemma TruncateKeepsPrefix(s: string, n: nat)
    ensures |Truncate(s, n)| <= if |s| <= n then n else n + 3
    ensures var m := if |s| < n then |s| else n;
            m <= |Truncate(s, n)| && Truncate(s, n)[..m] == s[..m]
  {
  }

  /** `ss.join(sep)` for a one-character separator. */
  function Join(ss: seq<string>, sep: char): string
  {
    if |ss| == 0 then ""
    else if |ss| == 1 then ss[0]
    else ss[0] + [sep] + Join(ss[1..], sep)
  }

  /** Joining adds no character but the separator. */
  lemma {:induction false} JoinFree(ss: seq<string>, sep: char, c: char)
    requires c != sep && forall k :: 0 <= k < |ss| ==> c !in ss[k]
    ensures c !in Join(ss, sep)
  {
    if |ss| > 1 {
      JoinFree(ss[1..], sep, c);
    }
  }

  /** `s.split(sep)` for a one-character separator: always at least one part,
      and no part contains the separator. */
  function Split(s: string, sep: char): (r: seq<string>)
    ensures |r| > 0
    ensures forall i :: 0 <= i < |r| ==> sep !in r[i]
  {
    if |s| == 0 then [""]
    else
      var rest := Split(s[1..], sep);
      if s[0] == sep then [""] + rest else [[s[0]] + rest[0]] + rest[1..]
  }

  lemma {:induction false} SplitWithoutSeparator(a: string, sep: char)
    requires sep !in a
    ensures Split(a, sep) == [a]
  {
    if |a| > 0 {
      SplitWithoutSeparator(a[1..], sep);
      assert [a[0]] + a[1..] == a;
    }
  }

  lemma {:induction false} SplitAfterFirstSeparator(a: string, b: string, sep: char)
    requires sep !in a
    ensures Split(a + [sep] + b, sep) == [a] + Split(b, sep)
  {
    var s := a + [sep] + b;
    if |a| == 0 {
      assert s[0] == sep && s[1..] == b;
    } else {
      assert s[1..] == a[1..] + [sep] + b;
      SplitAfterFirstSeparator(a[1..], b, sep);
      assert [a[0]] + a[1..] == a;
    }
  }

  /** Splitting a joined list on the same separator gives the list back,
      provided it is non-empty and no element contains the separator. */
  lemma {:induction false} SplitJoin(ss: seq<string>, sep: char)
    requires |ss| > 0
    requires forall k :: 0 <= k < |ss| ==> sep !in ss[k]
    ensures Split(Join(ss, sep), sep) == ss
  {
    if |ss| == 1 {
      SplitWithoutSeparator(ss[0], sep);
    } else {
      SplitAfterFirstSeparator(ss[0], Join(ss[1..], sep), sep);
      SplitJoin(ss[1..], sep);
      assert [ss[0]] + ss[1..] == ss;
    }
  }

  /** The round trip gives the list back exactly when the list is non-empty
      and no element contains the separator. */
  lemma SplitJoinIff(ss: seq<string>, sep: char)
    ensures Split(Join(ss, sep), sep) == ss <==>
            |ss| > 0 && forall k :: 0 <= k < |ss| ==> sep !in ss[k]
  {
    if |ss| > 0 && forall k :: 0 <= k < |ss| ==> sep !in ss[k] {
      SplitJoin(ss, sep);
    }
  }

  /** The empty list is not recovered: it joins to "", which splits to [""]. */
  lemma SplitJoinEmpty(sep: char)
    ensures Split(Join([], sep), sep) == [""]
  {
  }

  /** An element that contains the separator is cut in two by the round trip. */
  lemma SplitJoinSeparatorInside()
    ensures Split(Join(["C,C++"], ','), ',') == ["C", "C++"]
  {
    assert "C,C++" == "C" + [','] + "C++";
    SplitAfterFirstSeparator("C", "C++", ',');
    SplitWithoutSeparator("C++", ',');
  }

  /** The part of `s` before the first `c` and the part after it; `s` and ""
      when `c` does not occur. */
  function SplitAtFirst(s: string, c: char): (parts: (string, string))
    ensures c !in s ==> parts == (s, "")
    ensures c in s ==> c !in parts.0 && s == parts.0 + [c] + parts.1
  {
    if |s| == 0 then ("", "")
    else if s[0] == c then ("", s[1..])
    else
      var p := SplitAtFirst(s[1..], c);
      assert s == [s[0]] + s[1..];
      ([s[0]] + p.0, p.1)
  }

  lemma {:induction false} SplitAtFirstOf(a: string, b: string, c: char)
    requires c !in a
    ensures SplitAtFirst(a + [c] + b, c) == (a, b)
  {
    var s := a + [c] + b;
    if |a| == 0 {
      assert s[0] == c && s[1..] == b;
    } else {
      assert s[1..] == a[1..] + [c] + b;
      SplitAtFirstOf(a[1..], b, c);
      assert [a[0]] + a[1..] == a;
    }
  }

  /** Splitting after a prefix free of `c` splits the rest. */
  lemma {:induction false} SplitAtFirstAfter(a: string, b: string, c: char)
    requires c !in a
    ensures SplitAtFirst(a + b, c) == (a + SplitAtFirst(b, c).0, SplitAtFirst(b, c).1)
  {
    var s := a + b;
    if |a| == 0 {
      assert s == b && a + SplitAtFirst(b, c).0 == SplitAtFirst(b, c).0;
    } else {
      assert s[0] == a[0] && s[0] != c;
      assert s[1..] == a[1..] + b;
      SplitAtFirstAfter(a[1..], b, c);
      var p := SplitAtFirst(b, c);
      var q := SplitAtFirst(s[1..], c);
      assert q == (a[1..] + p.0, p.1);
      assert SplitAtFirst(s, c).0 == [s[0]] + q.0 && SplitAtFirst(s, c).1 == q.1;
      HeadAppend(a, p.0);
    }
  }

  lemma HeadAppend<T>(a: seq<T>, x: seq<T>)
    requires |a| > 0
    ensures [a[0]] + (a[1..] + x) == a + x
  {
    assert [a[0]] + a[1..] == a;
  }

  predicate IsDigit(c: char) { '0' <= c <= '9' }

  function DigitChar(d: nat): (c: char)
    requires d < 10
    ensures IsDigit(c)
  {
    ['0', '1', '2', '3', '4', '5', '6', '7', '8', '9'][d]
  }

  function DigitValue(c: char): (d: nat)
    requires IsDigit(c)
    ensures d < 10 && DigitChar(d) == c
  {
    if c == '0' then 0 else if c == '1' then 1 else if c == '2' then 2
    else if c == '3' then 3 else if c == '4' then 4 else if c == '5' then 5
    else if c == '6' then 6 else if c == '7' then 7 else if c == '8' then 8 else 9
  }

  /** Decimal digits of `n`, most significant first, no leading zero. */
  function NatToString(n: nat): (r: string)
    ensures |r| > 0 && (forall k :: 0 <= k < |r| ==> IsDigit(r[k]))
    ensures |r| > 1 ==> r[0] != '0'
  {
    if n < 10 then [DigitChar(n)] else NatToString(n / 10) + [DigitChar(n % 10)]
  }

  /** Reads a string of decimal digits. */
  function ParseNat(s: string): nat
    requires forall k :: 0 <= k < |s| ==> IsDigit(s[k])
  {
    if |s| == 0 then 0 else ParseNat(s[..|s| - 1]) * 10 + DigitValue(s[|s| - 1])
  }

  lemma {:induction false} ParseNatToString(n: nat)
    ensures ParseNat(NatToString(n)) == n
  {
    var r := NatToString(n);
    if n < 10 {
      assert r[..0] == [];
      assert DigitValue(DigitChar(n)) == n;
    } else {
      ParseNatToString(n / 10);
      assert r[..|r| - 1] == NatToString(n / 10);
      assert DigitValue(DigitChar(n % 10)) == n % 10;
    }
  }

  /** An integer as a template string renders it: an optional minus sign
      followed by its decimal digits. */
  function IntToString(n: int): (r: string)
    ensures n >= 0 ==> r == NatToString(n)
    ensures n < 0 ==> r == "-" + NatToString(-n)
  {
    if n < 0 then "-" + NatToString(-n) else NatToString(n)
  }

  /** The decimal form of a number never contains a query, fragment or list
      delimiter. */
  lemma IntToStringPlain(n: int)
    ensures '&' !in IntToString(n) && ',' !in IntToString(n) && '=' !in IntToString(n)
    ensures '?' !in IntToString(n) && '#' !in IntToString(n)
  {
    var r := IntToString(n);
    forall k | 0 <= k < |r| ensures r[k] != '&' && r[k] != ',' && r[k] != '=' && r[k] != '?' && r[k] != '#' {
      if n < 0 && k > 0 { assert r[k] == NatToString(-n)[k - 1]; }
    }
  }

  /** No element occurs twice. */
  predicate Distinct<T(==)>(s: seq<T>) {
    forall i, j :: 0 <= i < j < |s| ==> s[i] != s[j]
  }

  function Min(a: int, b: int): (m: int)
    ensures m <= a && m <= b && (m == a || m == b)
  {
    if a < b then a else b
  }

  /** `s.slice(0, n)`: a negative end counts back from the end of `s`,
      an end past the end stops at the end. */
  function Take<T>(s: seq<T>, n: int): (r: seq<T>)
    ensures |r| == (if n >= |s| then |s| else if n >= 0 then n else if |s| + n > 0 then |s| + n else 0)
    ensures r == s[..|r|]
  {
    if n >= |s| then s
    else if n >= 0 then s[..n]
    else if |s| + n > 0 then s[..|s| + n]
    else []
  }
}
