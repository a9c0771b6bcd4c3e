/**
 * The string operations of Python that the scripts use, on ASCII text:
 * slicing, `startswith`, `in`, `lower`/`upper`, `strip`, `split`, `join`, `replace`,
 * and decimal formatting of integers.
 */
module Text {

  predicate StartsWith(s: string, prefix: string) {
    |prefix| <= |s| && s[..|prefix|] == prefix
  }

  predicate EndsWith(s: string, suffix: string) {
    |suffix| <= |s| && s[|s| - |suffix|..] == suffix
  }

  /** Python's `sub in s`. */
  predicate IsSubstring(sub: string, s: string)
    decreases |s|
  {
    StartsWith(s, sub) || (s != [] && IsSubstring(sub, s[1..]))
  }

  /** Python's `s[:n]` for n >= 0. */
  function Take(s: string, n: nat): (r: string)
    ensures |r| == if n < |s| then n else |s|
    ensures StartsWith(s, r)
  {
    if n < |s| then s[..n] else s
  }

  function LowerChar(c: char): (r: char)
    ensures !('A' <= r <= 'Z')
    ensures if 'A' <= c <= 'Z' then 'a' <= r <= 'z' else r == c
  {
    if 'A' <= c <= 'Z' then (c as int + 32) as char else c
  }

  function UpperChar(c: char): char {
    if 'a' <= c <= 'z' then (c as int - 32) as char else c
  }

  /** `s.lower()` on ASCII letters. */
  function Lower(s: string): (r: string)
    ensures |r| == |s|
    ensures forall i :: 0 <= i < |s| ==> r[i] == LowerChar(s[i])
  {
    seq(|s|, i requires 0 <= i < |s| => LowerChar(s[i]))
  }

  /** `s.upper()` on ASCII letters. */
  function Upper(s: string): (r: string)
    ensures |r| == |s|
    ensures forall i :: 0 <= i < |s| ==> r[i] == UpperChar(s[i])
  {
    seq(|s|, i requires 0 <= i < |s| => UpperChar(s[i]))
  }

  predicate IsSpace(c: char) {
    c == ' ' || c == '\t' || c == '\n' || c == '\r' || c == '\U{B}' || c == '\U{C}'
  }

  predicate IsDigit(c: char) {
    '0' <= c <= '9'
  }

  predicate IsAlnum(c: char) {
    IsDigit(c) || 'a' <= c <= 'z' || 'A' <= c <= 'Z'
  }

  function StripLeft(s: string): (r: string)
    ensures |r| <= |s| && r == s[|s| - |r|..]
    ensures r == "" || !IsSpace(r[0])
  {
    if s != [] && IsSpace(s[0]) then StripLeft(s[1..]) else s
  }

  function StripRight(s: string): (r: string)
    ensures |r| <= |s| && r == s[..|r|]
    ensures r == "" || !IsSpace(r[|r| - 1])
  {
    if s != [] && IsSpace(s[|s| - 1]) then StripRight(s[..|s| - 1]) else s
  }

  /** What `StripLeft` removes is whitespace. */
  lemma {:induction false} StripLeftRemovesSpace(s: string)
    ensures forall k :: 0 <= k < |s| - |StripLeft(s)| ==> IsSpace(s[k])
    decreases |s|
  {
    if s != [] && IsSpace(s[0]) {
      StripLeftRemovesSpace(s[1..]);
      forall k | 1 <= k < |s| - |StripLeft(s)|
        ensures IsSpace(s[k])
      {
        assert s[k] == s[1..][k - 1];
      }
    }
  }

  /** What `StripRight` removes is whitespace. */
  lemma {:induction false} StripRightRemovesSpace(s: string)
    ensures forall k :: |StripRight(s)| <= k < |s| ==> IsSpace(s[k])
    decreases |s|
  {
    if s != [] && IsSpace(s[|s| - 1]) {
      StripRightRemovesSpace(s[..|s| - 1]);
    }
  }

  /** `r` is `s[i..j]` and everything of `s` outside that slice is whitespace. */
  predicate SpaceAround(s: string, r: string, i: int, j: int) {
    0 <= i <= j <= |s| && r == s[i..j]
    && (forall k :: 0 <= k < i ==> IsSpace(s[k]))
    && (forall k :: j <= k < |s| ==> IsSpace(s[k]))
  }

  /** A prefix of a suffix, with whitespace cut from both sides, is a slice with whitespace around it. */
  lemma {:induction false} TrimmedSlice(s: string, left: string, r: string, i: int)
    requires 0 <= i <= |s| && left == s[i..] && |r| <= |left| && r == left[..|r|]
    requires forall k :: 0 <= k < i ==> IsSpace(s[k])
    requires forall k :: |r| <= k < |left| ==> IsSpace(left[k])
    ensures SpaceAround(s, r, i, i + |r|)
  {
    assert r == s[i..i + |r|];
    forall k | i + |r| <= k < |s|
      ensures IsSpace(s[k])
    {
      assert s[k] == left[k - i];
    }
  }

  /** `s.strip()`: no surrounding whitespace is left; `StripIsSlice` shows the result is a slice of `s`. */
  function Strip(s: string): (r: string)
    ensures |r| <= |s|
    ensures r == "" || (!IsSpace(r[0]) && !IsSpace(r[|r| - 1]))
  {
    StripRight(StripLeft(s))
  }

  /** `s.strip()` keeps a slice of `s` and removes only whitespace on either side of it. */
  lemma {:induction false} StripIsSlice(s: string)
    ensures exists i, j :: SpaceAround(s, Strip(s), i, j)
  {
    var left := StripLeft(s);
    StripLeftRemovesSpace(s);
    StripRightRemovesSpace(left);
    TrimmedSlice(s, left, StripRight(left), |s| - |left|);
    assert Strip(s) == StripRight(left);
    assert SpaceAround(s, Strip(s), |s| - |left|, |s| - |left| + |Strip(s)|);
  }

  /** `s.split(sep)` for a one-character separator. */
  function Split(s: string, sep: char): (parts: seq<string>)
    ensures |parts| >= 1
    ensures forall k :: 0 <= k < |parts| ==> sep !in parts[k]
    decreases |s|
  {
    if s == [] then [""]
    else
      var rest := Split(s[1..], sep);
      if s[0] == sep then [""] + rest
      else [[s[0]] + rest[0]] + rest[1..]
  }

  /** Text without the separator splits into itself. */
  lemma {:induction false} SplitWithoutSeparator(s: string, sep: char)
    requires sep !in s
    ensures Split(s, sep) == [s]
    decreases |s|
  {
    if s != [] {
      SplitWithoutSeparator(s[1..], sep);
      assert s == [s[0]] + s[1..];
    }
  }

  /** A part without the separator, the separator, and more text: the part comes off first. */
  lemma {:induction false} SplitAfterPart(part: string, sep: char, rest: string)
    requires sep !in part
    ensures Split(part + [sep] + rest, sep) == [part] + Split(rest, sep)
    decreases |part|
  {
    if part == [] {
      assert part + [sep] + rest == [sep] + rest;
      assert ([sep] + rest)[1..] == rest;
    } else {
      assert (part + [sep] + rest)[1..] == part[1..] + [sep] + rest;
      SplitAfterPart(part[1..], sep, rest);
      assert part == [part[0]] + part[1..];
    }
  }

  /** Splitting what was joined on a separator no part contains gives the parts back. */
  lemma {:induction false} SplitJoin(parts: seq<string>, sep: char)
    requires |parts| >= 1
    requires forall k :: 0 <= k < |parts| ==> sep !in parts[k]
    ensures Split(Join([sep], parts), sep) == parts
    decreases |parts|
  {
    if |parts| == 1 {
      SplitWithoutSeparator(parts[0], sep);
    } else {
      SplitJoin(parts[1..], sep);
      SplitAfterPart(parts[0], sep, Join([sep], parts[1..]));
      assert parts == [parts[0]] + parts[1..];
    }
  }

  /** `sep.join(parts)` */
  function Join(sep: string, parts: seq<string>): string
    decreases |parts|
  {
    if parts == [] then ""
    else if |parts| == 1 then parts[0]
    else parts[0] + sep + Join(sep, parts[1..])
  }

  /** Text without surrounding whitespace is its own strip. */
  lemma StripClean(s: string)
    requires s == "" || (!IsSpace(s[0]) && !IsSpace(s[|s| - 1]))
    ensures Strip(s) == s
  {
  }

  /** Every character of a join comes from a part or is part of the separator. */
  lemma {:induction false} JoinChars(sep: string, parts: seq<string>, c: char)
    requires c in Join(sep, parts)
    ensures c in sep || exists k :: 0 <= k < |parts| && c in parts[k]
    decreases |parts|
  {
    if |parts| > 1 {
      var rest := Join(sep, parts[1..]);
      if c !in parts[0] && c !in sep {
        assert c in rest;
        JoinChars(sep, parts[1..], c);
        var k :| 0 <= k < |parts[1..]| && c in parts[1..][k];
        assert c in parts[k + 1];
      }
    }
  }

  /** A join of non-empty parts begins with the first part's first character and ends with the last part's last. */
  lemma {:induction false} JoinEnds(sep: string, parts: seq<string>)
    requires |parts| >= 1
    requires forall k :: 0 <= k < |parts| ==> parts[k] != ""
    ensures |Join(sep, parts)| >= |parts[0]|
    ensures Join(sep, parts)[0] == parts[0][0]
    ensures Join(sep, parts)[|Join(sep, parts)| - 1] == parts[|parts| - 1][|parts[|parts| - 1]| - 1]
    decreases |parts|
  {
    if |parts| > 1 {
      JoinEnds(sep, parts[1..]);
    }
  }

  /** `s.replace(old, new)` for a one-character `old`. */
  function ReplaceChar(s: string, target: char, repl: string): (r: string)
    ensures target !in repl ==> target !in r
    ensures target !in s ==> r == s
    ensures |repl| >= 1 ==> |r| >= |s|
    decreases |s|
  {
    if s == [] then ""
    else (if s[0] == target then repl else [s[0]]) + ReplaceChar(s[1..], target, repl)
  }

  function DigitChar(d: nat): (c: char)
    requires d < 10
    ensures IsDigit(c) && c as int - '0' as int == d
  {
    ('0' as int + d) as char
  }

  function NatToString(n: nat): (r: string)
    ensures |r| >= 1 && forall i :: 0 <= i < |r| ==> IsDigit(r[i])
    decreases n
  {
    if n < 10 then [DigitChar(n)] else NatToString(n / 10) + [DigitChar(n % 10)]
  }

  /** Reading back the decimal digits of n gives n. */
  lemma {:induction false} NatToStringRoundTrip(n: nat)
    ensures DigitsValue(NatToString(n)) == n
    decreases n
  {
    var s := NatToString(n);
    if n >= 10 {
      NatToStringRoundTrip(n / 10);
      assert s[..|s| - 1] == NatToString(n / 10);
    }
  }

  /** `str(i)` for a Python int. */
  function IntToString(i: int): string {
    if i < 0 then "-" + NatToString(-i) else NatToString(i)
  }

  /** The value of a string of decimal digits, as `int(s)` reads it. */
  function DigitsValue(s: string): nat
    requires forall i :: 0 <= i < |s| ==> IsDigit(s[i])
    decreases |s|
  {
    if s == [] then 0
    else
      assert IsDigit(s[|s| - 1]);
      DigitsValue(s[..|s| - 1]) * 10 + (s[|s| - 1] as int - '0' as int)
  }

  /** Python's `a < b` on strings: lexicographic order on code points. */
  predicate StrLess(a: string, b: string)
    decreases |a|
  {
    if a == [] then b != []
    else if b == [] then false
    else a[0] < b[0] || (a[0] == b[0] && StrLess(a[1..], b[1..]))
  }

  lemma {:induction false} StrLessIrreflexive(a: string)
    ensures !StrLess(a, a)
    decreases |a|
  {
    if a != [] { StrLessIrreflexive(a[1..]); }
  }

  lemma {:induction false} StrLessTransitive(a: string, b: string, c: string)
    requires StrLess(a, b) && StrLess(b, c)
    ensures StrLess(a, c)
    decreases |a|
  {
    if a != [] && b != [] && c != [] && a[0] == b[0] == c[0] {
      StrLessTransitive(a[1..], b[1..], c[1..]);
    }
  }

  lemma {:induction false} StrLessTotal(a: string, b: string)
    ensures a == b || StrLess(a, b) || StrLess(b, a)
    decreases |a|
  {
    if a != [] && b != [] && a[0] == b[0] {
      StrLessTotal(a[1..], b[1..]);
      if a[1..] == b[1..] {
        assert a == [a[0]] + a[1..] && b == [b[0]] + b[1..];
      }
    }
  }

  /** Strictly increasing: sorted, with no repeats. */
  predicate StrictlySorted(xs: seq<string>) {
    forall i, j :: 0 <= i < j < |xs| ==> StrLess(xs[i], xs[j])
  }

  /** A string added to a strictly sorted list, where it is not already. */
  function InsertSorted(key: string, keys: seq<string>): (r: seq<string>)
    requires StrictlySorted(keys)
    ensures StrictlySorted(r)
    ensures forall x :: x in r <==> x == key || x in keys
    decreases |keys|
  {
    if keys == [] then [key]
    else if key == keys[0] then keys
    else if StrLess(key, keys[0]) then
      assert forall j :: 0 <= j < |keys| ==> StrLess(key, keys[j]) by {
        forall j | 0 <= j < |keys|
          ensures StrLess(key, keys[j])
        {
          if j > 0 {
            StrLessTransitive(key, keys[0], keys[j]);
          }
        }
      }
      [key] + keys
    else
      StrLessTotal(key, keys[0]);
      var rest := InsertSorted(key, keys[1..]);
      assert forall j :: 0 <= j < |rest| ==> StrLess(keys[0], rest[j]) by {
        forall j | 0 <= j < |rest|
          ensures StrLess(keys[0], rest[j])
        {
          assert rest[j] in rest;
          if rest[j] != key {
            var i :| 0 <= i < |keys[1..]| && keys[1..][i] == rest[j];
            assert keys[i + 1] == rest[j];
          }
        }
      }
      [keys[0]] + rest
  }

  /** The distinct strings of a list, in ascending order. */
  function SortedDistinct(xs: seq<string>): (r: seq<string>)
    ensures StrictlySorted(r)
    decreases |xs|
  {
    if xs == [] then [] else InsertSorted(xs[|xs| - 1], SortedDistinct(xs[..|xs| - 1]))
  }

  /** Nothing is lost and nothing is added. */
  lemma {:induction false} SortedDistinctMembers(xs: seq<string>, x: string)
    ensures x in SortedDistinct(xs) <==> x in xs
    decreases |xs|
  {
    if xs != [] {
      SortedDistinctMembers(xs[..|xs| - 1], x);
      assert xs == xs[..|xs| - 1] + [xs[|xs| - 1]];
    }
  }

  /** `s.rfind(c)`: the last position holding c, or -1. */
  function LastIndexOf(s: string, c: char): (r: int)
    ensures -1 <= r < |s|
    ensures r >= 0 ==> s[r] == c
    ensures forall i :: r < i < |s| ==> s[i] != c
    decreases |s|
  {
    if s == [] then -1
    else if s[|s| - 1] == c then |s| - 1
    else LastIndexOf(s[..|s| - 1], c)
  }
}
