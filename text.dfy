/** The string operations of JavaScript that the bot relies on, over Dafny strings.

    A `char` here is a Unicode scalar value; JavaScript measures `length` in UTF-16 code units,
    which differs only for characters outside the Basic Multilingual Plane (emoji). */
module Text {
  import opened Wrappers

  /** White space as JavaScript's `trim()` and the class `\s` of its regular expressions define
      it: tab, line feed, vertical tab, form feed, carriage return, space, no-break space, the
      byte order mark, the other space separators (Unicode category Zs) and the line and
      paragraph separators. */
  predicate IsSpace(c: char) {
    IsSpaceCode(c as int)
  }

  /** The code points of those characters. */
  predicate IsSpaceCode(n: int) {
    n == 0x20 || 0x09 <= n <= 0x0D || n == 0xA0 || n == 0x1680 || 0x2000 <= n <= 0x200A ||
    n == 0x2028 || n == 0x2029 || n == 0x202F || n == 0x205F || n == 0x3000 || n == 0xFEFF
  }

  predicate AllSpace(s: string) {
    forall k | 0 <= k < |s| :: IsSpace(s[k])
  }

  /** `s.trimStart()`: what is left after the leading white space. */
  function TrimStart(s: string): (r: string)
    ensures |r| <= |s| && r == s[|s| - |r|..]
    ensures |r| > 0 ==> !IsSpace(r[0])
  {
    if |s| > 0 && IsSpace(s[0]) then TrimStart(s[1..]) else s
  }

  /** What trimming the start removes is white space. */
  lemma {:induction false} TrimStartRemovesSpaces(s: string)
    ensures AllSpace(s[..|s| - |TrimStart(s)|])
  {
    if |s| > 0 && IsSpace(s[0]) {
      TrimStartRemovesSpaces(s[1..]);
      var n := |s| - |TrimStart(s)|;
      assert forall k | 1 <= k < n :: s[..n][k] == s[1..][..n - 1][k - 1];
    }
  }

  /** `s.trimEnd()`: what is left before the trailing white space. */
  function TrimEnd(s: string): (r: string)
    ensures |r| <= |s| && r == s[..|r|]
    ensures |r| > 0 ==> !IsSpace(r[|r| - 1])
  {
    if |s| > 0 && IsSpace(s[|s| - 1]) then TrimEnd(s[..|s| - 1]) else s
  }

  /** What trimming the end removes is white space. */
  lemma {:induction false} TrimEndRemovesSpaces(s: string)
    ensures AllSpace(s[|TrimEnd(s)|..])
  {
    if |s| > 0 && IsSpace(s[|s| - 1]) {
      TrimEndRemovesSpaces(s[..|s| - 1]);
      var n := |TrimEnd(s)|;
      assert s[n..] == s[..|s| - 1][n..] + [s[|s| - 1]];
    }
  }

  /** Where `Trim(s)` begins in `s`: after its leading white space. */
  function TrimOffset(s: string): (i: nat)
    ensures i <= |s|
  {
    |s| - |TrimStart(s)|
  }

  /** `s.trim()`: the piece of `s` between its leading and its trailing white space. */
  function Trim(s: string): (r: string)
    ensures TrimOffset(s) + |r| <= |s|
    ensures r == s[TrimOffset(s)..TrimOffset(s) + |r|]
    ensures |r| > 0 ==> !IsSpace(r[0]) && !IsSpace(r[|r| - 1])
  {
    TrimEnd(TrimStart(s))
  }

  /** What trimming removes on either side is white space. */
  lemma TrimRemovesSpaces(s: string)
    ensures AllSpace(s[..TrimOffset(s)]) && AllSpace(s[TrimOffset(s) + |Trim(s)|..])
  {
    var t := TrimStart(s);
    TrimStartRemovesSpaces(s);
    TrimEndRemovesSpaces(t);
    assert t[|Trim(s)|..] == s[TrimOffset(s) + |Trim(s)|..];
  }

  /** Trimming a string that has no white space at either end changes nothing. */
  lemma TrimOfTrimmed(s: string)
    requires |s| > 0 ==> !IsSpace(s[0]) && !IsSpace(s[|s| - 1])
    ensures Trim(s) == s
  {
  }

  /** Trimming twice is trimming once. */
  lemma TrimIdempotent(s: string)
    ensures Trim(Trim(s)) == Trim(s)
  {
    TrimOfTrimmed(Trim(s));
  }

  /** A string trims to "" exactly when it is all white space. */
  lemma TrimEmptyIffAllSpace(s: string)
    ensures Trim(s) == "" <==> AllSpace(s)
  {
    var r := Trim(s);
    var i := TrimOffset(s);
    TrimRemovesSpaces(s);
    if r == "" {
      assert s == s[..i] + s[i..];
    } else {
      assert !IsSpace(s[i]);
    }
  }

  /** Trimming the end never removes a character that is not white space. */
  lemma {:induction false} TrimEndKeeps(s: string, k: nat)
    requires k < |s| && !IsSpace(s[k])
    ensures k < |TrimEnd(s)|
  {
    if |s| > 0 && IsSpace(s[|s| - 1]) {
      TrimEndKeeps(s[..|s| - 1], k);
    }
  }

  /** Trailing white space is exactly what trimming the end removes. */
  lemma {:induction false} TrimEndDropsSpaces(a: string, b: string)
    requires AllSpace(b)
    ensures TrimEnd(a + b) == TrimEnd(a)
  {
    if b != [] {
      var s := a + b;
      assert IsSpace(b[|b| - 1]);
      assert s[..|s| - 1] == a + b[..|b| - 1];
      TrimEndDropsSpaces(a, b[..|b| - 1]);
    } else {
      assert a + b == a;
    }
  }

  /** Trimming a string that begins with a piece `p` without white space at either end keeps
      `p` at the front, and trimming `p` followed by white space only gives `p`. */
  lemma TrimKeepsPrefix(p: string, rest: string)
    requires |p| > 0 && !IsSpace(p[0]) && !IsSpace(p[|p| - 1])
    ensures StartsWith(Trim(p + rest), p)
    ensures AllSpace(rest) ==> Trim(p + rest) == p
  {
    var s := p + rest;
    assert s[0] == p[0];
    assert TrimStart(s) == s;
    assert Trim(s) == TrimEnd(s);
    TrimEndKeeps(s, |p| - 1);
    var r := TrimEnd(s);
    assert r[..|p|] == s[..|p|];
    assert s[..|p|] == p;
    if AllSpace(rest) {
      TrimEndDropsSpaces(p, rest);
      assert TrimEnd(p) == p;
    }
  }

  /** Leading white space is exactly what trimming the start removes. */
  lemma {:induction false} TrimStartDropsSpaces(a: string, b: string)
    requires AllSpace(a)
    ensures TrimStart(a + b) == TrimStart(b)
  {
    if a != [] {
      var s := a + b;
      assert IsSpace(s[0]);
      assert s[1..] == a[1..] + b;
      TrimStartDropsSpaces(a[1..], b);
    } else {
      assert a + b == b;
    }
  }

  /** Trimming removes exactly the white space around a piece that has none at either end. */
  lemma TrimAround(a: string, p: string, b: string)
    requires AllSpace(a) && AllSpace(b)
    requires |p| > 0 && !IsSpace(p[0]) && !IsSpace(p[|p| - 1])
    ensures Trim(a + p + b) == p
  {
    assert a + p + b == a + (p + b);
    TrimStartDropsSpaces(a, p + b);
    assert (p + b)[0] == p[0];
    assert TrimStart(p + b) == p + b;
    TrimEndDropsSpaces(p, b);
    assert TrimEnd(p) == p;
  }

  /** Every character of `Trim(s)` is a character of `s`. */
  lemma TrimKeepsChars(s: string)
    ensures forall c | c in Trim(s) :: c in s
  {
    var t := TrimStart(s);
    var r := TrimEnd(t);
    assert Trim(s) == r;
    forall c | c in r ensures c in s {
      var k :| 0 <= k < |r| && r[k] == c;
      assert r[k] == t[k] == s[|s| - |t| + k];
    }
  }

  /** The lower-case form of one character: the ASCII letters A to Z, and the KELVIN SIGN,
      whose lower case is the ASCII letter k. */
  function LowerChar(c: char): char {
    if 'A' <= c <= 'Z' then (c as int - 'A' as int + 'a' as int) as char
    else if c == '\U{212A}' then 'k'
    else c
  }

  /** `s.toLowerCase()`, position by position. */
  function ToLower(s: string): (r: string)
    ensures |r| == |s|
  {
    if s == [] then [] else [LowerChar(s[0])] + ToLower(s[1..])
  }

  /** Lower-casing works character by character. */
  lemma {:induction false} ToLowerAt(s: string)
    ensures forall k | 0 <= k < |s| :: ToLower(s)[k] == LowerChar(s[k])
  {
    if s != [] {
      ToLowerAt(s[1..]);
    }
  }

  /** Lower-casing twice is lower-casing once. */
  lemma ToLowerIdempotent(s: string)
    ensures ToLower(ToLower(s)) == ToLower(s)
  {
    ToLowerAt(s);
    ToLowerAt(ToLower(s));
  }

  /** `s.startsWith(p)`. */
  predicate StartsWith(s: string, p: string) {
    |p| <= |s| && s[..|p|] == p
  }

  /** `s.includes(t)`: `t` occurs in `s` as a contiguous piece. */
  predicate Contains(s: string, t: string) {
    exists i | 0 <= i <= |s| - |t| :: OccursAt(s, t, i)
  }

  /** `t` occurs in `s` starting at position `i`. */
  predicate OccursAt(s: string, t: string, i: int) {
    0 <= i <= |s| - |t| && s[i..i + |t|] == t
  }

  /** A piece occurs in every string built around it. */
  lemma ContainsMiddle(a: string, t: string, b: string)
    ensures Contains(a + t + b, t)
  {
    var s := a + t + b;
    assert s[|a|..|a| + |t|] == t;
    assert OccursAt(s, t, |a|);
  }

  /** What occurs in a piece occurs in every string built around that piece. */
  lemma ContainsWithin(s: string, t: string, a: string, b: string)
    requires Contains(s, t)
    ensures Contains(a + s + b, t)
  {
    var i :| 0 <= i <= |s| - |t| && OccursAt(s, t, i);
    var w := a + s + b;
    assert w[|a| + i..|a| + i + |t|] == s[i..i + |t|];
    assert OccursAt(w, t, |a| + i);
  }

  /** What occurs in a piece of `s` occurs in `s`. */
  lemma ContainsTransitive(s: string, t: string, x: string)
    requires Contains(s, t) && Contains(t, x)
    ensures Contains(s, x)
  {
    var i :| 0 <= i <= |s| - |t| && OccursAt(s, t, i);
    var j :| 0 <= j <= |t| - |x| && OccursAt(t, x, j);
    forall k | 0 <= k < |x|
      ensures s[i + j..i + j + |x|][k] == x[k]
    {
      assert s[i..i + |t|][j + k] == t[j + k];
      assert t[j..j + |x|][k] == x[k];
    }
    assert s[i + j..i + j + |x|] == x;
    assert OccursAt(s, x, i + j);
  }

  /** Each of four strings occurs in their concatenation. */
  lemma ContainsEachOfFour(a: string, b: string, c: string, d: string)
    ensures Contains(a + b + c + d, a) && Contains(a + b + c + d, b)
    ensures Contains(a + b + c + d, c) && Contains(a + b + c + d, d)
  {
    ContainsMiddle("", a, b + c + d);
    assert "" + a + (b + c + d) == a + b + c + d;
    ContainsMiddle(a, b, c + d);
    assert a + b + (c + d) == a + b + c + d;
    ContainsMiddle(a + b, c, d);
    ContainsMiddle(a + b + c, d, "");
    assert a + b + c + d + "" == a + b + c + d;
  }

  /** `s.split(sep)` for a one-character separator: the pieces between the separators, empty
      pieces included, so that "" splits into [""]. */
  function Split(s: string, sep: char): (parts: seq<string>)
    ensures |parts| >= 1
    ensures forall k | 0 <= k < |parts| :: sep !in parts[k]
  {
    if s == [] then [""]
    else
      var rest := Split(s[1..], sep);
      if s[0] == sep then [""] + rest else [[s[0]] + rest[0]] + rest[1..]
  }

  /** `parts.join(sep)`. */
  function Join(parts: seq<string>, sep: char): string {
    if parts == [] then ""
    else if |parts| == 1 then parts[0]
    else parts[0] + [sep] + Join(parts[1..], sep)
  }

  /** Joining the pieces of a split gives the string back. */
  lemma {:induction false} JoinSplit(s: string, sep: char)
    ensures Join(Split(s, sep), sep) == s
  {
    if s != [] {
      JoinSplit(s[1..], sep);
      var rest := Split(s[1..], sep);
      if s[0] == sep {
        assert Join([""] + rest, sep) == "" + [sep] + Join(rest, sep);
      } else {
        var parts := [[s[0]] + rest[0]] + rest[1..];
        if |rest| == 1 {
          assert Join(parts, sep) == [s[0]] + rest[0];
        } else {
          assert Join(rest, sep) == rest[0] + [sep] + Join(rest[1..], sep);
          assert parts[1..] == rest[1..];
          assert Join(parts, sep) == [s[0]] + rest[0] + [sep] + Join(rest[1..], sep);
        }
      }
    }
  }

  /** Splitting a string that starts with a separator-free piece `a`. */
  lemma {:induction false} SplitAfterPiece(a: string, t: string, sep: char)
    requires sep !in a
    ensures Split(a + t, sep) == [a + Split(t, sep)[0]] + Split(t, sep)[1..]
  {
    if a != [] {
      assert (a + t)[1..] == a[1..] + t;
      SplitAfterPiece(a[1..], t, sep);
      assert [a[0]] + (a[1..] + Split(t, sep)[0]) == a + Split(t, sep)[0];
    } else {
      assert a + t == t;
      var p := Split(t, sep);
      assert a + p[0] == p[0];
      assert p == [p[0]] + p[1..];
    }
  }

  /** Splitting separator-free pieces joined by the separator gives the pieces back. */
  lemma {:induction false} SplitJoin(parts: seq<string>, sep: char)
    requires |parts| >= 1
    requires forall k | 0 <= k < |parts| :: sep !in parts[k]
    ensures Split(Join(parts, sep), sep) == parts
  {
    if |parts| == 1 {
      SplitAfterPiece(parts[0], "", sep);
      assert parts[0] + "" == parts[0];
    } else {
      var tail := Join(parts[1..], sep);
      SplitJoin(parts[1..], sep);
      assert Join(parts, sep) == parts[0] + ([sep] + tail);
      SplitAfterPiece(parts[0], [sep] + tail, sep);
      assert ([sep] + tail)[1..] == tail;
      assert Split([sep] + tail, sep) == [""] + parts[1..];
      assert parts[0] + "" == parts[0];
      assert [parts[0]] + parts[1..] == parts;
    }
  }

  /** A split has two or more pieces exactly when the separator occurs. */
  lemma {:induction false} SplitHasTwoPiecesIff(s: string, sep: char)
    ensures |Split(s, sep)| >= 2 <==> sep in s
  {
    if s != [] {
      SplitHasTwoPiecesIff(s[1..], sep);
      assert sep in s <==> s[0] == sep || sep in s[1..];
    }
  }

  /** The first piece of a split is the text before the first separator. */
  lemma {:induction false} SplitFirstPiece(s: string, sep: char)
    ensures StartsWith(s, Split(s, sep)[0])
    ensures |Split(s, sep)[0]| < |s| ==> s[|Split(s, sep)[0]|] == sep
  {
    if s != [] {
      SplitFirstPiece(s[1..], sep);
    }
  }

  /** `xs.slice(0, n)`: the first `n` elements, or all of them when there are fewer. */
  function Take<T>(xs: seq<T>, n: nat): (r: seq<T>)
    ensures |r| == if n <= |xs| then n else |xs|
    ensures r == xs[..|r|]
  {
    if n <= |xs| then xs[..n] else xs
  }

  /** `xs.filter(p)`: the elements that satisfy `p`. */
  function Filter<T>(xs: seq<T>, p: T -> bool): (r: seq<T>)
    ensures |r| <= |xs|
    ensures forall x | x in r :: x in xs && p(x)
    ensures forall x | x in xs && p(x) :: x in r
  {
    if xs == [] then []
    else if p(xs[0]) then [xs[0]] + Filter(xs[1..], p)
    else Filter(xs[1..], p)
  }

  /** `filter` keeps every element that satisfies `p` as often as it occurs, and no other. */
  lemma {:induction false} FilterCounts<T>(xs: seq<T>, p: T -> bool)
    ensures forall x | x in xs :: multiset(Filter(xs, p))[x] == if p(x) then multiset(xs)[x] else 0
  {
    if xs != [] {
      FilterCounts(xs[1..], p);
      assert xs == [xs[0]] + xs[1..];
      assert multiset(xs) == multiset{xs[0]} + multiset(xs[1..]);
      forall x | x in xs
        ensures multiset(Filter(xs, p))[x] == if p(x) then multiset(xs)[x] else 0
      {
        if x !in xs[1..] {
          assert multiset(xs[1..])[x] == 0;
          assert multiset(Filter(xs[1..], p))[x] == 0;
        }
      }
    }
  }

  /** `xs.map(f)`. */
  function Map<T, U>(xs: seq<T>, f: T -> U): (r: seq<U>)
    ensures |r| == |xs|
    ensures forall k | 0 <= k < |xs| :: r[k] == f(xs[k])
  {
    if xs == [] then [] else [f(xs[0])] + Map(xs[1..], f)
  }

  predicate IsDigit(c: char) {
    '0' <= c <= '9'
  }

  predicate AllDigits(s: string) {
    forall k | 0 <= k < |s| :: IsDigit(s[k])
  }

  function DigitChar(d: nat): (c: char)
    requires d < 10
    ensures IsDigit(c) && c as int - '0' as int == d
  {
    ('0' as int + d) as char
  }

  /** Decimal notation of a natural number, as `${n}` prints it. */
  function NatToString(n: nat): (r: string)
    ensures |r| >= 1 && AllDigits(r)
  {
    if n < 10 then [DigitChar(n)] else NatToString(n / 10) + [DigitChar(n % 10)]
  }

  /** The number a string of decimal digits denotes. */
  function DigitsValue(s: string): nat
    requires AllDigits(s)
  {
    if s == [] then 0 else DigitsValue(s[..|s| - 1]) * 10 + (s[|s| - 1] as int - '0' as int)
  }

  /** Reading a printed number back gives the number. */
  lemma {:induction false} NatToStringRoundTrip(n: nat)
    ensures DigitsValue(NatToString(n)) == n
  {
    if n >= 10 {
      NatToStringRoundTrip(n / 10);
      var s := NatToString(n);
      assert s[..|s| - 1] == NatToString(n / 10);
    }
  }

  /** `Number.parseInt` restricted to what a cron field holds: a non-empty run of digits. */
  function ParseNat(s: string): (r: Option<nat>)
    ensures r.Some? <==> |s| > 0 && AllDigits(s)
  {
    if |s| > 0 && AllDigits(s) then Some(DigitsValue(s)) else None
  }

  lemma ParseNatOfNatToString(n: nat)
    ensures ParseNat(NatToString(n)) == Some(n)
  {
    NatToStringRoundTrip(n);
  }

  /** Decimal notation of an integer, with a minus sign when it is negative. */
  function IntToString(i: int): (r: string)
    ensures |r| >= 1
    ensures r[0] == '-' <==> i < 0
    ensures forall k | 0 <= k < |r| :: IsDigit(r[k]) || (k == 0 && r[k] == '-')
  {
    if i < 0 then "-" + NatToString(-i) else NatToString(i)
  }

  /** Different integers print differently. */
  lemma IntToStringInjective(a: int, b: int)
    requires IntToString(a) == IntToString(b)
    ensures a == b
  {
    if a < 0 {
      assert IntToString(a)[1..] == NatToString(-a);
      assert IntToString(b)[1..] == NatToString(-b);
      NatToStringRoundTrip(-a);
      NatToStringRoundTrip(-b);
    } else {
      NatToStringRoundTrip(a);
      NatToStringRoundTrip(b);
    }
  }
}
