/**
 * The handful of Python `str` operations the remote-attach code relies on, with the
 * semantics CPython gives them: `isspace`, `lower`, `in`, `startswith`, `strip`,
 * `lstrip(c)`/`rstrip(c)`, `split()` with and without a maximum, `split(c)`, `join`,
 * `str(int)`, slicing `s[:n]`, and the acceptance test of `int()` and `float()`.
 */
module Strings {
  import opened Wrappers

  // ---------------------------------------------------------------------------
  // Characters
  // ---------------------------------------------------------------------------

  /** `c.isspace()`: the characters Python's argument-less `split()` and `strip()` cut at. */
  predicate IsSpace(c: char) {
    || c == ' '
    || ('\t' <= c <= '\r')
    || ('\U{1C}' <= c <= '\U{1F}')
    || c == '\U{85}' || c == '\U{A0}' || c == '\U{1680}'
    || ('\U{2000}' <= c <= '\U{200A}')
    || c == '\U{2028}' || c == '\U{2029}' || c == '\U{202F}' || c == '\U{205F}' || c == '\U{3000}'
  }

  predicate IsDigit(c: char) {
    '0' <= c <= '9'
  }

  /**
   * Lower-cases an ASCII letter, and the Kelvin sign, the one other character whose lower
   * case is an ASCII letter; every other character is left alone.
   */
  function LowerChar(c: char): char {
    if 'A' <= c <= 'Z' then (c as int + 32) as char
    else if c == '\U{212A}' then 'k'
    else c
  }

  /**
   * `s.lower()` as far as any comparison with an ASCII word can tell: characters whose lower
   * case is not ASCII are kept as they are.
   */
  function Lower(s: string): (r: string)
    ensures |r| == |s|
    ensures forall i :: 0 <= i < |s| ==> r[i] == LowerChar(s[i])
  {
    seq(|s|, i requires 0 <= i < |s| => LowerChar(s[i]))
  }

  lemma LowerIdempotent(s: string)
    ensures Lower(Lower(s)) == Lower(s)
  {
    assert forall i :: 0 <= i < |s| ==> LowerChar(LowerChar(s[i])) == LowerChar(s[i]);
  }

  // ---------------------------------------------------------------------------
  // Searching
  // ---------------------------------------------------------------------------

  /** `sub in s`. */
  predicate Contains(s: string, sub: string)
    decreases |s|
  {
    sub <= s || (|s| > 0 && Contains(s[1..], sub))
  }

  /** A string contains whatever occurs in it between some prefix and some suffix. */
  lemma {:induction false} ContainsMiddle(a: string, sub: string, b: string)
    ensures Contains(a + sub + b, sub)
  {
    if a == [] {
      assert a + sub + b == sub + b;
      assert sub <= sub + b;
    } else {
      assert (a + sub + b)[1..] == a[1..] + sub + b;
      ContainsMiddle(a[1..], sub, b);
    }
  }

  /** Whatever `s` contains, a longer string built around `s` contains too. */
  lemma {:induction false} ContainsExtend(a: string, s: string, b: string, sub: string)
    requires Contains(s, sub)
    ensures Contains(a + s + b, sub)
    decreases |a| + |s|
  {
    if a != [] {
      assert (a + s + b)[1..] == a[1..] + s + b;
      ContainsExtend(a[1..], s, b, sub);
    } else if sub <= s {
      assert a + s + b == sub + (s[|sub|..] + b);
      ContainsMiddle([], sub, s[|sub|..] + b);
    } else {
      assert |s| > 0 && Contains(s[1..], sub);
      assert (s + b)[1..] == s[1..] + b;
      ContainsExtend([], s[1..], b, sub);
      assert a + s + b == s + b;
      assert [] + s[1..] + b == (s + b)[1..];
    }
  }

  /** Nothing contains a string longer than itself. */
  lemma {:induction false} ContainsLength(s: string, sub: string)
    requires Contains(s, sub)
    ensures |sub| <= |s|
    decreases |s|
  {
    if !(sub <= s) {
      ContainsLength(s[1..], sub);
    }
  }

  /** Index of the first `c` in `s`, or `|s|` when there is none. */
  function IndexOf(s: string, c: char): (i: nat)
    ensures i <= |s|
    ensures i < |s| ==> s[i] == c
    ensures forall k :: 0 <= k < i ==> s[k] != c
    decreases |s|
  {
    if |s| == 0 then 0 else if s[0] == c then 0 else 1 + IndexOf(s[1..], c)
  }

  // ---------------------------------------------------------------------------
  // Slicing and stripping
  // ---------------------------------------------------------------------------

  /** `s[:n]` for a non-negative `n`. */
  function Take(s: string, n: nat): (r: string)
    ensures |r| <= n && r <= s
    ensures |s| <= n ==> r == s
  {
    if |s| <= n then s else s[..n]
  }

  /** `s.lstrip(c)` for a one-character argument. */
  function LStrip(s: string, c: char): (r: string)
    ensures |r| <= |s| && r == s[|s| - |r|..]
    ensures r == [] || r[0] != c
    ensures forall i :: 0 <= i < |s| - |r| ==> s[i] == c
    decreases |s|
  {
    if |s| > 0 && s[0] == c then LStrip(s[1..], c) else s
  }

  /** One leading `c` is stripped like the rest. */
  lemma LStripOne(s: string, c: char)
    ensures LStrip([c] + s, c) == LStrip(s, c)
  {
    assert ([c] + s)[1..] == s;
  }

  /** `s.rstrip(c)` for a one-character argument. */
  function RStrip(s: string, c: char): (r: string)
    ensures r <= s
    ensures r == [] || r[|r| - 1] != c
    ensures forall i :: |r| <= i < |s| ==> s[i] == c
    decreases |s|
  {
    if |s| > 0 && s[|s| - 1] == c then RStrip(s[..|s| - 1], c) else s
  }

  /** `s.lstrip()`. */
  function TrimStart(s: string): (r: string)
    ensures |r| <= |s|
    ensures r == [] || !IsSpace(r[0])
    decreases |s|
  {
    if |s| > 0 && IsSpace(s[0]) then TrimStart(s[1..]) else s
  }

  /** `lstrip()` removes a run of whitespace from the front and nothing else. */
  lemma {:induction false} TrimStartIsSuffix(s: string)
    ensures TrimStart(s) == s[|s| - |TrimStart(s)|..]
    ensures forall i :: 0 <= i < |s| - |TrimStart(s)| ==> IsSpace(s[i])
    decreases |s|
  {
    if |s| > 0 && IsSpace(s[0]) {
      TrimStartIsSuffix(s[1..]);
    }
  }

  function TrimEnd(s: string): (r: string)
    ensures r <= s
    ensures r == [] || !IsSpace(r[|r| - 1])
    ensures forall i :: |r| <= i < |s| ==> IsSpace(s[i])
    decreases |s|
  {
    if |s| > 0 && IsSpace(s[|s| - 1]) then TrimEnd(s[..|s| - 1]) else s
  }

  /** `s.strip()`. */
  function Strip(s: string): string {
    TrimEnd(TrimStart(s))
  }

  /** A string without whitespace at either end is its own `strip()`. */
  lemma StripUnchanged(s: string)
    requires s == [] || (!IsSpace(s[0]) && !IsSpace(s[|s| - 1]))
    ensures Strip(s) == s
  {
  }

  // ---------------------------------------------------------------------------
  // Whitespace splitting
  // ---------------------------------------------------------------------------

  predicate NoSpace(s: string) {
    forall k :: 0 <= k < |s| ==> !IsSpace(s[k])
  }

  predicate AllSpace(s: string) {
    forall k :: 0 <= k < |s| ==> IsSpace(s[k])
  }

  /** Length of the run of non-whitespace characters at the start of `s`. */
  function WordLen(s: string): (n: nat)
    ensures n <= |s|
    decreases |s|
  {
    if |s| > 0 && !IsSpace(s[0]) then 1 + WordLen(s[1..]) else 0
  }

  /** The first `WordLen(s)` characters are not whitespace, and the next one is. */
  lemma {:induction false} WordLenFacts(s: string)
    ensures forall k :: 0 <= k < WordLen(s) ==> !IsSpace(s[k])
    ensures WordLen(s) < |s| ==> IsSpace(s[WordLen(s)])
    ensures s != [] && !IsSpace(s[0]) ==> WordLen(s) > 0
    decreases |s|
  {
    if |s| > 0 && !IsSpace(s[0]) {
      WordLenFacts(s[1..]);
    }
  }

  /**
   * `s.split(None, maxsplit)`: at most `maxsplit` cuts at runs of whitespace; leading
   * whitespace is dropped, and once the cuts are used up the rest of the string (after the
   * whitespace that follows the last cut) is the final field, trailing whitespace included.
   */
  function SplitMax(s: string, maxsplit: nat): (parts: seq<string>)
    ensures |parts| <= maxsplit + 1
    decreases |s|
  {
    var t := TrimStart(s);
    if t == [] then []
    else if maxsplit == 0 then [t]
    else
      var j := WordLen(t);
      [t[..j]] + SplitMax(t[j..], maxsplit - 1)
  }

  /**
   * Every field of `split(None, m)` is non-empty and starts with a non-space character; all
   * fields but the last are whitespace-free, and so is the last one when fewer than `m` cuts
   * were made.
   */
  lemma {:induction false} SplitMaxFields(s: string, maxsplit: nat)
    ensures forall k :: 0 <= k < |SplitMax(s, maxsplit)| ==>
      SplitMax(s, maxsplit)[k] != [] && !IsSpace(SplitMax(s, maxsplit)[k][0])
    ensures forall k :: 0 <= k < |SplitMax(s, maxsplit)| - 1 ==> NoSpace(SplitMax(s, maxsplit)[k])
    ensures |SplitMax(s, maxsplit)| <= maxsplit ==>
      forall k :: 0 <= k < |SplitMax(s, maxsplit)| ==> NoSpace(SplitMax(s, maxsplit)[k])
    decreases |s|
  {
    var t := TrimStart(s);
    if t != [] && maxsplit > 0 {
      var j := WordLen(t);
      WordLenFacts(t);
      var w := t[..j];
      assert w != [] && !IsSpace(w[0]);
      assert NoSpace(w);
      SplitMaxFields(t[j..], maxsplit - 1);
      var rest := SplitMax(t[j..], maxsplit - 1);
      var parts := SplitMax(s, maxsplit);
      assert parts == [w] + rest;
      forall k | 0 <= k < |parts|
        ensures parts[k] != [] && !IsSpace(parts[k][0])
        ensures k < |parts| - 1 ==> NoSpace(parts[k])
        ensures |parts| <= maxsplit ==> NoSpace(parts[k])
      {
        if k > 0 {
          assert parts[k] == rest[k - 1];
        }
      }
    }
  }

  /**
   * When all `m` cuts are made, the last field of `split(None, m)` is a suffix of the string:
   * its inner and trailing whitespace is kept.
   */
  lemma {:induction false} SplitMaxLastIsSuffix(s: string, maxsplit: nat)
    requires |SplitMax(s, maxsplit)| == maxsplit + 1
    ensures var last := SplitMax(s, maxsplit)[|SplitMax(s, maxsplit)| - 1];
      |last| <= |s| && last == s[|s| - |last|..]
    decreases |s|
  {
    var t := TrimStart(s);
    TrimStartIsSuffix(s);
    if maxsplit > 0 {
      var u := SplitMaxStep(s, maxsplit);
      SplitMaxLastIsSuffix(u, maxsplit - 1);
      var rest := SplitMax(u, maxsplit - 1);
      SuffixOfSuffix(rest[|rest| - 1], u, s);
    }
  }

  /** One cut of `split(None, m)`: the first field, then the split of a shorter suffix. */
  lemma SplitMaxStep(s: string, maxsplit: nat) returns (u: string)
    requires maxsplit > 0 && TrimStart(s) != []
    ensures |u| < |s| && u == s[|s| - |u|..]
    ensures |SplitMax(s, maxsplit)| == 1 + |SplitMax(u, maxsplit - 1)|
    ensures SplitMax(s, maxsplit)[1..] == SplitMax(u, maxsplit - 1)
  {
    var t := TrimStart(s);
    TrimStartIsSuffix(s);
    var j := WordLen(t);
    u := t[j..];
    assert SplitMax(s, maxsplit) == [t[..j]] + SplitMax(u, maxsplit - 1);
    SuffixOfSuffix(u, t, s);
  }

  lemma SuffixOfSuffix(x: string, y: string, z: string)
    requires |x| <= |y| && x == y[|y| - |x|..]
    requires |y| <= |z| && y == z[|z| - |y|..]
    ensures x == z[|z| - |x|..]
  {
    assert y[|y| - |x|..] == z[|z| - |x|..];
  }

  /** Wrapping a string that ends in `y` between `pre` and `post`: it starts with `pre` and ends in `y + post`. */
  lemma WrappedEnds(pre: string, x: string, y: string, post: string)
    requires |y| <= |x| && x[|x| - |y|..] == y
    ensures var w := pre + x + post;
      && pre <= w
      && |w| >= |pre| + |y + post|
      && w[|w| - |y + post|..] == y + post
  {
    var w := pre + x + post;
    assert w[..|pre|] == pre;
    assert w[|w| - |y + post|..] == x[|x| - |y|..] + post;
  }

  /** Leading whitespace makes no difference to `TrimStart`. */
  lemma {:induction false} TrimStartSpaces(sp: string, rest: string)
    requires AllSpace(sp)
    ensures TrimStart(sp + rest) == TrimStart(rest)
    decreases |sp|
  {
    if sp != [] {
      var s := sp + rest;
      assert s[0] == sp[0] && IsSpace(s[0]);
      assert s[1..] == sp[1..] + rest;
      assert TrimStart(s) == TrimStart(s[1..]);
      TrimStartSpaces(sp[1..], rest);
    } else {
      assert sp + rest == rest;
    }
  }

  /** The first word of `w + x` is `w` when `w` has no whitespace and `x` starts with some. */
  lemma {:induction false} WordLenConcat(w: string, x: string)
    requires NoSpace(w)
    requires x == [] || IsSpace(x[0])
    ensures WordLen(w + x) == |w|
    decreases |w|
  {
    if w != [] {
      assert (w + x)[1..] == w[1..] + x;
      WordLenConcat(w[1..], x);
    }
  }

  /**
   * Splitting `w + sp + rest`, where `w` is a word and `sp` a non-empty run of whitespace,
   * cuts off `w` and goes on with `rest`.
   */
  lemma SplitMaxCons(w: string, sp: string, rest: string, maxsplit: nat)
    requires w != [] && NoSpace(w)
    requires sp != [] && AllSpace(sp)
    ensures SplitMax(w + sp + rest, maxsplit + 1) == [w] + SplitMax(rest, maxsplit)
  {
    var s := w + sp + rest;
    assert s == w + (sp + rest);
    assert TrimStart(s) == s;
    WordLenConcat(w, sp + rest);
    assert s[..|w|] == w;
    assert s[|w|..] == sp + rest;
    TrimStartSpaces(sp, rest);
    assert SplitMax(sp + rest, maxsplit) == SplitMax(rest, maxsplit);
  }

  /** With no cuts left, the one field is the string without its leading whitespace. */
  lemma SplitMaxLast(s: string)
    requires s != [] && !IsSpace(s[0])
    ensures SplitMax(s, 0) == [s]
  {
  }

  /** `s.split()`: the maximal runs of non-whitespace, in order. */
  function Words(s: string): (words: seq<string>)
    ensures forall k :: 0 <= k < |words| ==> words[k] != [] && NoSpace(words[k])
    decreases |s|
  {
    var t := TrimStart(s);
    if t == [] then []
    else
      var j := WordLen(t);
      WordLenFacts(t);
      [t[..j]] + Words(t[j..])
  }

  /** A string that starts with a non-space character has a first word, and it is a prefix. */
  lemma FirstWordIsPrefix(s: string)
    requires s != [] && !IsSpace(s[0])
    ensures Words(s) != [] && Words(s)[0] <= s && Words(s)[0] != []
  {
  }

  /** The first word of `w + x` is `w` when `w` is a word and `x` is empty or starts with whitespace. */
  lemma FirstWordOf(w: string, x: string)
    requires w != [] && NoSpace(w)
    requires x == [] || IsSpace(x[0])
    ensures Words(w + x) != [] && Words(w + x)[0] == w
  {
    var s := w + x;
    assert TrimStart(s) == s;
    WordLenConcat(w, x);
    assert s[..|w|] == w;
  }

  // ---------------------------------------------------------------------------
  // Splitting at one character, joining
  // ---------------------------------------------------------------------------

  /** `s.split(c)` for a one-character separator: always at least one field. */
  function SplitOn(s: string, c: char): (parts: seq<string>)
    ensures |parts| >= 1
    ensures forall k :: 0 <= k < |parts| ==> c !in parts[k]
    decreases |s|
  {
    var i := IndexOf(s, c);
    if i == |s| then [s] else [s[..i]] + SplitOn(s[i + 1..], c)
  }

  /**
   * When the separator does not occur in the first part, the first occurrence of it splits
   * `a + [c] + b` back into `a` and `b`.
   */
  lemma SeparatorSplitsUniquely(a1: string, b1: string, a2: string, b2: string, c: char)
    requires c !in a1 && c !in a2
    requires a1 + [c] + b1 == a2 + [c] + b2
    ensures a1 == a2 && b1 == b2
  {
    var s := a1 + [c] + b1;
    assert forall i :: 0 <= i < |a1| ==> s[i] == a1[i];
    assert forall i :: 0 <= i < |a2| ==> s[i] == a2[i];
    assert s[|a1|] == c && s[|a2|] == c;
    assert a1 == s[..|a1|] == a2;
    assert b1 == s[|a1| + 1..] == b2;
  }

  /**
   * When the separator does not occur in the last part, the last occurrence of it splits
   * `a + [c] + b` back into `a` and `b`.
   */
  lemma SeparatorSplitsUniquelyLast(a1: string, b1: string, a2: string, b2: string, c: char)
    requires c !in b1 && c !in b2
    requires a1 + [c] + b1 == a2 + [c] + b2
    ensures a1 == a2 && b1 == b2
  {
    var s := a1 + [c] + b1;
    assert forall i :: 0 <= i < |b1| ==> s[|a1| + 1 + i] == b1[i];
    assert forall i :: 0 <= i < |b2| ==> s[|a2| + 1 + i] == b2[i];
    assert s[|a1|] == c && s[|a2|] == c;
    assert |b1| == |b2|;
    assert a1 == s[..|a1|] == a2;
    assert b1 == s[|a1| + 1..] == b2;
  }

  /**
   * A key `a + sep + b + ":" + str(n)` gives back `a`, `b` and `n` when `sep` does not occur
   * in `a`.
   */
  lemma KeyPartsInjective(a1: string, b1: string, n1: int, a2: string, b2: string, n2: int, sep: char)
    requires sep !in a1 && sep !in a2
    requires a1 + [sep] + b1 + ":" + IntToString(n1) == a2 + [sep] + b2 + ":" + IntToString(n2)
    ensures a1 == a2 && b1 == b2 && n1 == n2
  {
    var rest1 := b1 + [':'] + IntToString(n1);
    var rest2 := b2 + [':'] + IntToString(n2);
    KeyRegroup(a1, sep, b1, IntToString(n1));
    KeyRegroup(a2, sep, b2, IntToString(n2));
    SeparatorSplitsUniquely(a1, rest1, a2, rest2, sep);
    NoColonInInt(n1);
    NoColonInInt(n2);
    SeparatorSplitsUniquelyLast(b1, IntToString(n1), b2, IntToString(n2), ':');
    IntToStringInjective(n1, n2);
  }

  lemma KeyRegroup(a: string, sep: char, b: string, d: string)
    ensures a + [sep] + b + ":" + d == a + [sep] + (b + [':'] + d)
  {
  }

  lemma NoColonInInt(n: int)
    ensures ':' !in IntToString(n)
  {
    var r := IntToString(n);
    forall i | 0 <= i < |r|
      ensures r[i] != ':'
    {
      assert IsDigit(r[i]) || r[i] == '-';
    }
  }

  /** `sep.join(parts)`. */
  function Join(sep: string, parts: seq<string>): string
    decreases |parts|
  {
    if |parts| == 0 then ""
    else if |parts| == 1 then parts[0]
    else parts[0] + sep + Join(sep, parts[1..])
  }

  /** Splitting at `c` and joining with `c` gives the string back. */
  lemma {:induction false} JoinSplitOn(s: string, c: char)
    ensures Join([c], SplitOn(s, c)) == s
    decreases |s|
  {
    var i := IndexOf(s, c);
    if i < |s| {
      var rest := SplitOn(s[i + 1..], c);
      JoinSplitOn(s[i + 1..], c);
      assert SplitOn(s, c) == [s[..i]] + rest;
      assert Join([c], [s[..i]] + rest) == s[..i] + [c] + Join([c], rest) by {
        assert ([s[..i]] + rest)[1..] == rest;
      }
      assert s == s[..i] + [c] + s[i + 1..];
    }
  }

  /** A string without the separator is one field. */
  lemma SplitOnFree(s: string, c: char)
    requires c !in s
    ensures SplitOn(s, c) == [s]
  {
  }

  /** A separator-free field followed by the separator is cut off first. */
  lemma SplitOnCons(a: string, c: char, b: string)
    requires c !in a
    ensures SplitOn(a + [c] + b, c) == [a] + SplitOn(b, c)
  {
    var s := a + [c] + b;
    assert s[|a|] == c;
    assert forall k :: 0 <= k < |a| ==> s[k] == a[k];
    assert IndexOf(s, c) == |a|;
    assert s[..|a|] == a;
    assert s[|a| + 1..] == b;
  }

  /** `s.split("/")[-1]`: the text after the last `/`. */
  function LastSegment(s: string): string {
    var parts := SplitOn(s, '/');
    parts[|parts| - 1]
  }

  /** The last `/`-segment is a `/`-free suffix that starts right after a `/` or at the start. */
  lemma {:induction false} LastSegmentIsSuffix(s: string)
    ensures '/' !in LastSegment(s)
    ensures |LastSegment(s)| <= |s| && LastSegment(s) == s[|s| - |LastSegment(s)|..]
    ensures |LastSegment(s)| < |s| ==> s[|s| - |LastSegment(s)| - 1] == '/'
    decreases |s|
  {
    var i := IndexOf(s, '/');
    if i < |s| {
      LastSegmentIsSuffix(s[i + 1..]);
      var parts := SplitOn(s[i + 1..], '/');
      assert SplitOn(s, '/') == [s[..i]] + parts;
      assert LastSegment(s) == LastSegment(s[i + 1..]);
    }
  }

  // ---------------------------------------------------------------------------
  // Integers: str(n) and the text int() accepts
  // ---------------------------------------------------------------------------

  function DigitChar(d: nat): (c: char)
    requires d < 10
    ensures IsDigit(c)
  {
    ('0' as int + d) as char
  }

  function DigitValue(c: char): nat
    requires IsDigit(c)
  {
    c as int - '0' as int
  }

  /** Decimal digits of a natural number, most significant first, no leading zeros. */
  function NatToString(n: nat): (r: string)
    ensures |r| >= 1 && (forall i :: 0 <= i < |r| ==> IsDigit(r[i]))
    decreases n
  {
    if n < 10 then [DigitChar(n)] else NatToString(n / 10) + [DigitChar(n % 10)]
  }

  /** `str(n)`. */
  function IntToString(n: int): (r: string)
    ensures r != [] && !IsSpace(r[0]) && !IsSpace(r[|r| - 1])
    ensures forall i :: 0 <= i < |r| ==> IsDigit(r[i]) || (i == 0 && r[i] == '-')
  {
    if n < 0 then "-" + NatToString(-n) else NatToString(n)
  }

  /** Value of a string of decimal digits. */
  function DigitsValue(s: string): nat
    requires forall i :: 0 <= i < |s| ==> IsDigit(s[i])
    decreases |s|
  {
    if s == [] then 0 else DigitsValue(s[..|s| - 1]) * 10 + DigitValue(s[|s| - 1])
  }

  /** `digit (["_"] digit)*`: the digit groups PEP 515 allows in `int()` and `float()`. */
  predicate IsDigitPart(s: string) {
    && |s| > 0
    && IsDigit(s[|s| - 1])
    && forall i :: 0 <= i < |s| ==> DigitOrSeparatorAt(s, i)
  }

  /** Position `i` holds a digit, or an underscore that follows a digit. */
  predicate DigitOrSeparatorAt(s: string, i: nat)
    requires i < |s|
  {
    IsDigit(s[i]) || (s[i] == '_' && i > 0 && IsDigit(s[i - 1]))
  }

  function RemoveUnderscores(s: string): string
    decreases |s|
  {
    if s == [] then [] else (if s[0] == '_' then [] else [s[0]]) + RemoveUnderscores(s[1..])
  }

  lemma {:induction false} RemoveUnderscoresDigits(s: string)
    requires forall i :: 0 <= i < |s| ==> IsDigit(s[i]) || s[i] == '_'
    ensures forall i :: 0 <= i < |RemoveUnderscores(s)| ==> IsDigit(RemoveUnderscores(s)[i])
    decreases |s|
  {
    if s != [] {
      RemoveUnderscoresDigits(s[1..]);
    }
  }

  lemma {:induction false} RemoveUnderscoresNone(s: string)
    requires forall i :: 0 <= i < |s| ==> IsDigit(s[i])
    ensures RemoveUnderscores(s) == s
    decreases |s|
  {
    if s != [] {
      RemoveUnderscoresNone(s[1..]);
      assert s == [s[0]] + s[1..];
    }
  }

  lemma DigitPartChars(s: string)
    requires IsDigitPart(s)
    ensures forall i :: 0 <= i < |s| ==> IsDigit(s[i]) || s[i] == '_'
  {
    forall i | 0 <= i < |s| ensures IsDigit(s[i]) || s[i] == '_' {
      assert DigitOrSeparatorAt(s, i);
    }
  }

  /** Splits off one leading `+` or `-`: whether it was `-`, and the rest. */
  function SplitSign(t: string): (bool, string) {
    if |t| > 0 && (t[0] == '-' || t[0] == '+') then (t[0] == '-', t[1..]) else (false, t)
  }

  /**
   * `int(s)` with base 10: surrounding whitespace, one optional sign, then ASCII digit groups
   * separated by single underscores. `None` stands for the `ValueError` it raises otherwise.
   */
  function ParseInt(s: string): (r: Option<int>)
    ensures r.Some? <==> IsDigitPart(SplitSign(Strip(s)).1)
  {
    var (negative, body) := SplitSign(Strip(s));
    if IsDigitPart(body) then
      DigitPartChars(body);
      RemoveUnderscoresDigits(body);
      var v: int := DigitsValue(RemoveUnderscores(body));
      Some(if negative then -v else v)
    else None
  }

  lemma {:induction false} DigitsValueOfNat(n: nat)
    ensures DigitsValue(NatToString(n)) == n
    decreases n
  {
    if n >= 10 {
      DigitsValueOfNat(n / 10);
      var s := NatToString(n);
      assert s[..|s| - 1] == NatToString(n / 10);
    }
  }

  /** `int(str(n)) == n`. */
  lemma IntToStringRoundTrip(n: int)
    ensures ParseInt(IntToString(n)) == Some(n)
  {
    var s := IntToString(n);
    StripUnchanged(s);
    var body := SplitSign(s).1;
    if n < 0 {
      assert body == NatToString(-n);
    } else {
      assert body == NatToString(n);
    }
    RemoveUnderscoresNone(body);
    DigitsValueOfNat(if n < 0 then -n else n);
  }

  /** Different numbers print differently. */
  lemma IntToStringInjective(m: int, n: int)
    requires IntToString(m) == IntToString(n)
    ensures m == n
  {
    IntToStringRoundTrip(m);
    IntToStringRoundTrip(n);
  }

  // ---------------------------------------------------------------------------
  // The text float() accepts
  // ---------------------------------------------------------------------------

  /** `[sign] digitpart` after an `e` or `E`. */
  predicate IsExponent(x: string) {
    IsDigitPart(SplitSign(x).1)
  }

  /** `digitpart`, `digitpart "."`, `digitpart "." digitpart` or `"." digitpart`. */
  predicate IsMantissa(m: string) {
    var d := IndexOf(m, '.');
    if d == |m| then IsDigitPart(m)
    else
      var whole := m[..d];
      var fraction := m[d + 1..];
      (IsDigitPart(whole) && (fraction == [] || IsDigitPart(fraction))) || (whole == [] && IsDigitPart(fraction))
  }

  function IndexOfExponent(u: string): (e: nat)
    ensures e <= |u|
    ensures e < |u| ==> u[e] == 'e' || u[e] == 'E'
    decreases |u|
  {
    if |u| == 0 then 0 else if u[0] == 'e' || u[0] == 'E' then 0 else 1 + IndexOfExponent(u[1..])
  }

  predicate IsDecimalFloat(u: string) {
    var e := IndexOfExponent(u);
    IsMantissa(u[..e]) && (e == |u| || IsExponent(u[e + 1..]))
  }

  /**
   * Whether `float(s)` accepts `s`: surrounding whitespace, an optional sign, then a decimal
   * number with optional exponent, or `inf`, `infinity` or `nan` in any letter case.
   */
  predicate IsFloatLiteral(s: string) {
    var body := SplitSign(Strip(s)).1;
    var folded := Lower(body);
    folded == "inf" || folded == "infinity" || folded == "nan" || IsDecimalFloat(body)
  }
}
