/** The handful of Python `str` operations the core relies on, with their
    Python semantics written out: `find`, slicing with negative and
    out-of-range bounds, `strip`, `split` on one character, `join`,
    `upper`, `replace(c, "")`, the `in` substring test and `str(int)`. */
module Strings {

  type String = seq<char>

  // ---------------------------------------------------------------------
  // Substring search

  /** `sub` occurs in `s` starting at index `i`. */
  predicate OccursAt(s: String, sub: String, i: nat) {
    i + |sub| <= |s| && s[i..i + |sub|] == sub
  }

  /** Python `s.find(sub, start)`: the lowest index `i >= start` where `sub`
      occurs, or -1 when there is none. */
  function Find(s: String, sub: String, start: nat): (r: int)
    ensures r == -1 || (start <= r && OccursAt(s, sub, r))
    ensures r != -1 ==> forall i :: start <= i < r ==> !OccursAt(s, sub, i)
    ensures r == -1 ==> forall i :: start <= i ==> !OccursAt(s, sub, i)
    decreases |s| - start
  {
    if start + |sub| > |s| then -1
    else if s[start..start + |sub|] == sub then start
    else Find(s, sub, start + 1)
  }

  /** Python `sub in s`. */
  predicate Contains(s: String, sub: String)
  {
    Find(s, sub, 0) != -1
  }

  lemma ContainsIff(s: String, sub: String)
    ensures Contains(s, sub) <==> exists i: nat :: OccursAt(s, sub, i)
  {
    var r := Find(s, sub, 0);
    if r != -1 {
      assert OccursAt(s, sub, r as nat);
    }
  }

  /** `find` returns the first occurrence at or after `start`. */
  lemma FindFirst(s: String, sub: String, start: nat, i: nat)
    requires start <= i && OccursAt(s, sub, i)
    requires forall j :: start <= j < i ==> !OccursAt(s, sub, j)
    ensures Find(s, sub, start) == i
  {
  }

  // ---------------------------------------------------------------------
  // Slicing

  /** How Python normalises one slice bound for a sequence of length `n`. */
  function SliceBound(i: int, n: nat): (b: nat)
    ensures b <= n
    ensures 0 <= i <= n ==> b == i
    ensures -(n as int) <= i < 0 ==> b == i + n
  {
    if i < 0 then (if i + n < 0 then 0 else i + n)
    else if i > n then n
    else i
  }

  /** Python `s[start:end]`. */
  function PySlice<T>(s: seq<T>, start: int, end: int): (r: seq<T>)
    ensures |r| <= |s|
    ensures SliceBound(start, |s|) <= SliceBound(end, |s|) ==>
              r == s[SliceBound(start, |s|)..SliceBound(end, |s|)]
    ensures SliceBound(end, |s|) < SliceBound(start, |s|) ==> r == []
  {
    var lo, hi := SliceBound(start, |s|), SliceBound(end, |s|);
    if lo <= hi then s[lo..hi] else []
  }

  /** An end bound of -1 (what `find` returns when it fails) cuts the
      last element off. */
  lemma SliceToMinusOne<T>(s: seq<T>, start: nat)
    requires start < |s|
    ensures PySlice(s, start, -1) == s[start..|s| - 1]
  {
  }

  /** Python `s[:n]`. */
  function Take<T>(s: seq<T>, n: int): (r: seq<T>)
    ensures |r| <= |s|
    ensures 0 <= n ==> |r| == if n < |s| then n else |s|
    ensures forall i :: 0 <= i < |r| ==> r[i] == s[i]
  {
    PySlice(s, 0, n)
  }

  // ---------------------------------------------------------------------
  // Whitespace and strip

  /** Whitespace as Python's `str.isspace` (and so its argument-less
      `strip`) sees it: the ASCII controls tab to carriage return and the
      four separators U+001C to U+001F, the space, and the Unicode spaces
      and line or paragraph separators. */
  predicate IsSpace(c: char) {
    ('\t' <= c <= '\r') || ('\U{1C}' <= c <= ' ')
    || c == '\U{85}' || c == '\U{A0}' || c == '\U{1680}'
    || ('\U{2000}' <= c <= '\U{200A}')
    || c == '\U{2028}' || c == '\U{2029}' || c == '\U{202F}' || c == '\U{205F}'
    || c == '\U{3000}'
  }

  /** Python `s.lstrip()`. */
  function StripLeft(s: String): (r: String)
    ensures |r| <= |s| && r == s[|s| - |r|..]
    ensures r == [] || !IsSpace(r[0])
    ensures forall i :: 0 <= i < |s| - |r| ==> IsSpace(s[i])
  {
    if s != [] && IsSpace(s[0]) then StripLeft(s[1..]) else s
  }

  /** Python `s.rstrip()`. */
  function StripRight(s: String): (r: String)
    ensures |r| <= |s| && r == s[..|r|]
    ensures r == [] || !IsSpace(r[|r| - 1])
    ensures forall i :: |r| <= i < |s| ==> IsSpace(s[i])
  {
    if s != [] && IsSpace(s[|s| - 1]) then StripRight(s[..|s| - 1]) else s
  }

  /** Python `s.strip()`: the result neither starts nor ends with whitespace. */
  function Strip(s: String): (r: String)
    ensures |r| <= |s|
    ensures r == [] || (!IsSpace(r[0]) && !IsSpace(r[|r| - 1]))
  {
    var l := StripLeft(s);
    var r := StripRight(l);
    assert r != [] ==> r[0] == l[0];
    r
  }

  /** A prefix of a suffix is a slice. */
  lemma PrefixOfSuffix(s: String, lo: nat, r: String)
    requires lo <= |s| && |r| <= |s| - lo && r == s[lo..][..|r|]
    ensures r == s[lo..lo + |r|]
  {
    forall i | 0 <= i < |r| ensures r[i] == s[lo + i] {
      assert r[i] == s[lo..][i];
    }
  }

  /** What `rstrip` cuts off the suffix `s[lo..]` of `s` is whitespace of `s`. */
  lemma TrailingSpace(s: String, lo: nat)
    requires lo <= |s|
    ensures forall i :: lo + |StripRight(s[lo..])| <= i < |s| ==> IsSpace(s[i])
  {
    var l := s[lo..];
    forall i | lo + |StripRight(l)| <= i < |s| ensures IsSpace(s[i]) {
      assert s[i] == l[i - lo];
    }
  }

  /** `strip` keeps a slice `s[lo..hi]` and cuts off only whitespace. */
  lemma {:induction false} StripSlice(s: String)
    ensures var lo := |s| - |StripLeft(s)|;
      var hi := lo + |Strip(s)|;
      && hi <= |s|
      && Strip(s) == s[lo..hi]
      && (forall i :: 0 <= i < lo ==> IsSpace(s[i]))
      && (forall i :: hi <= i < |s| ==> IsSpace(s[i]))
  {
    var l := StripLeft(s);
    var r := StripRight(l);
    var lo := |s| - |l|;
    assert Strip(s) == r;
    assert l == s[lo..];
    assert r == s[lo..lo + |r|] by {
      PrefixOfSuffix(s, lo, r);
    }
    assert forall i :: lo + |r| <= i < |s| ==> IsSpace(s[i]) by {
      TrailingSpace(s, lo);
    }
  }

  /** A string without surrounding whitespace is its own strip. */
  lemma StripNoSpace(s: String)
    requires s == [] || (!IsSpace(s[0]) && !IsSpace(s[|s| - 1]))
    ensures Strip(s) == s
  {
  }

  // ---------------------------------------------------------------------
  // split and join

  /** Number of occurrences of `c` in `s`. */
  function CountChar(s: String, c: char): nat {
    if s == [] then 0 else (if s[0] == c then 1 else 0) + CountChar(s[1..], c)
  }

  /** Python `s.split(sep)` for a one-character separator: the pieces
      between separators, empty ones included; splitting "" gives [""]. */
  function Split(s: String, sep: char): (r: seq<String>)
    ensures |r| == CountChar(s, sep) + 1
    ensures forall k :: 0 <= k < |r| ==> sep !in r[k]
  {
    if s == [] then [[]]
    else
      var rest := Split(s[1..], sep);
      if s[0] == sep then [[]] + rest
      else [[s[0]] + rest[0]] + rest[1..]
  }

  /** Python `sep.join(xs)`. */
  function Join(xs: seq<String>, sep: String): String {
    if |xs| == 0 then []
    else if |xs| == 1 then xs[0]
    else xs[0] + sep + Join(xs[1..], sep)
  }

  /** Splitting a separator-free piece followed by the separator and a tail. */
  lemma {:induction false} SplitPiece(a: String, sep: char, b: String)
    requires sep !in a
    ensures Split(a + [sep] + b, sep) == [a] + Split(b, sep)
  {
    if a == [] {
      assert a + [sep] + b == [sep] + b;
      assert ([sep] + b)[1..] == b;
    } else {
      assert (a + [sep] + b)[1..] == a[1..] + [sep] + b;
      SplitPiece(a[1..], sep, b);
      assert [a[0]] + a[1..] == a;
    }
  }

  /** Splitting a separator-free string gives that string alone. */
  lemma {:induction false} SplitNoSep(a: String, sep: char)
    requires sep !in a
    ensures Split(a, sep) == [a]
  {
    if a != [] {
      SplitNoSep(a[1..], sep);
      assert [a[0]] + a[1..] == a;
    }
  }

  /** `split` undoes `join` when no piece contains the separator. */
  lemma {:induction false} SplitJoin(xs: seq<String>, sep: char)
    requires |xs| >= 1
    requires forall k :: 0 <= k < |xs| ==> sep !in xs[k]
    ensures Split(Join(xs, [sep]), sep) == xs
  {
    if |xs| == 1 {
      SplitNoSep(xs[0], sep);
    } else {
      SplitJoin(xs[1..], sep);
      SplitPiece(xs[0], sep, Join(xs[1..], [sep]));
      assert [xs[0]] + xs[1..] == xs;
    }
  }

  /** `join` undoes `split`. */
  lemma {:induction false} JoinSplit(s: String, sep: char)
    ensures Join(Split(s, sep), [sep]) == s
  {
    if s != [] {
      JoinSplit(s[1..], sep);
      var rest := Split(s[1..], sep);
      if s[0] == sep {
        assert ([[]] + rest)[1..] == rest;
        assert [sep] + s[1..] == s;
      } else {
        var r := [[s[0]] + rest[0]] + rest[1..];
        assert r[1..] == rest[1..];
        if |rest| == 1 {
          assert [s[0]] + s[1..] == s;
        } else {
          assert rest == [rest[0]] + rest[1..];
          assert Join(rest, [sep]) == rest[0] + [sep] + Join(rest[1..], [sep]);
          assert [s[0]] + s[1..] == s;
        }
      }
    }
  }

  // ---------------------------------------------------------------------
  // Character mapping

  /** A string without lower-case letters is its own upper-casing. */
  lemma UpperFixed(s: String)
    requires forall i :: 0 <= i < |s| ==> !('a' <= s[i] <= 'z')
    ensures Upper(s) == s
  {
  }

  /** Python `c.upper()` on ASCII letters; every other character is kept. */
  function UpperChar(c: char): char {
    if 'a' <= c <= 'z' then (c as int - 'a' as int + 'A' as int) as char else c
  }

  /** Python `s.upper()`, restricted to ASCII case mapping. */
  function Upper(s: String): (r: String)
    ensures |r| == |s|
    ensures forall i :: 0 <= i < |s| ==> r[i] == UpperChar(s[i])
  {
    seq(|s|, i requires 0 <= i < |s| => UpperChar(s[i]))
  }

  /** `upper` is idempotent. */
  lemma UpperIdempotent(s: String)
    ensures Upper(Upper(s)) == Upper(s)
  {
  }

  /** Python `s.replace(c, "")`: every `c` removed, everything else kept in order. */
  function RemoveChar(s: String, c: char): (r: String)
    ensures c !in r
    ensures |r| == |s| - CountChar(s, c)
    ensures forall x :: x in r ==> x in s
    ensures c !in s ==> r == s
  {
    if s == [] then []
    else (if s[0] == c then [] else [s[0]]) + RemoveChar(s[1..], c)
  }

  /** A single character is dropped exactly when it is `c`. */
  lemma RemoveCharOne(x: char, c: char)
    ensures RemoveChar([x], c) == if x == c then [] else [x]
  {
  }

  /** Removal keeps the order: the result for a concatenation is the
      concatenation of the results. */
  lemma {:induction false} RemoveCharAppend(a: String, b: String, c: char)
    ensures RemoveChar(a + b, c) == RemoveChar(a, c) + RemoveChar(b, c)
    decreases |a|
  {
    if a == [] {
      assert a + b == b;
    } else {
      var h := if a[0] == c then [] else [a[0]];
      calc {
        RemoveChar(a + b, c);
        == { assert (a + b)[0] == a[0]; assert (a + b)[1..] == a[1..] + b; }
        h + RemoveChar(a[1..] + b, c);
        == { RemoveCharAppend(a[1..], b, c); }
        h + (RemoveChar(a[1..], c) + RemoveChar(b, c));
        (h + RemoveChar(a[1..], c)) + RemoveChar(b, c);
      }
    }
  }

  // ---------------------------------------------------------------------
  // Integer printing

  function DigitChar(d: nat): (c: char)
    requires d < 10
    ensures '0' <= c <= '9' && c as int - '0' as int == d
  {
    ('0' as int + d) as char
  }

  /** Python `str(n)` for a natural number: decimal digits, no leading zeros. */
  function NatToString(n: nat): (r: String)
    ensures |r| >= 1
    ensures forall i :: 0 <= i < |r| ==> '0' <= r[i] <= '9'
    ensures |r| > 1 ==> r[0] != '0'
  {
    if n < 10 then [DigitChar(n)] else NatToString(n / 10) + [DigitChar(n % 10)]
  }

  /** Python `str(i)` for any integer. */
  function IntToString(i: int): String {
    if i < 0 then "-" + NatToString(-i) else NatToString(i)
  }

  /** Reads a string of decimal digits back as a number. */
  function DigitsValue(s: String): nat
    requires forall i :: 0 <= i < |s| ==> '0' <= s[i] <= '9'
  {
    if s == [] then 0
    else DigitsValue(s[..|s| - 1]) * 10 + (s[|s| - 1] as int - '0' as int)
  }

  /** Printing a natural number loses nothing: its digits read back as the number. */
  lemma {:induction false} NatToStringRoundTrip(n: nat)
    ensures DigitsValue(NatToString(n)) == n
  {
    if n >= 10 {
      NatToStringRoundTrip(n / 10);
      var s := NatToString(n);
      assert s[..|s| - 1] == NatToString(n / 10);
      assert s[|s| - 1] as int - '0' as int == n % 10;
      assert DigitsValue(s) == (n / 10) * 10 + n % 10;
    }
  }
}
