/**
 * String helpers shared by the modules of this model. Go strings and Python
 * strings are both modelled as `seq<char>`; where the source counts bytes
 * (Go's `len`), the model counts characters, which coincide for ASCII text.
 */
module Text {
  import opened Wrappers

  /** `sub` occurs in `s` at index `j`. */
  predicate IsAt(s: string, sub: string, j: int) {
    0 <= j && j + |sub| <= |s| && s[j..j + |sub|] == sub
  }

  predicate StartsWith(s: string, prefix: string) {
    |prefix| <= |s| && s[..|prefix|] == prefix
  }

  predicate EndsWith(s: string, suffix: string) {
    |suffix| <= |s| && s[|s| - |suffix|..] == suffix
  }

  predicate Contains(s: string, sub: string) {
    exists j | 0 <= j <= |s| :: IsAt(s, sub, j)
  }

  /** First occurrence of `sub` in `s` at or after index `i`. */
  function FindFrom(s: string, sub: string, i: nat): (r: Option<nat>)
    requires i <= |s|
    ensures r.Some? ==> i <= r.value && IsAt(s, sub, r.value)
    ensures r.Some? ==> forall j :: i <= j < r.value ==> !IsAt(s, sub, j)
    ensures r.None? ==> forall j :: i <= j ==> !IsAt(s, sub, j)
    decreases |s| - i
  {
    if IsAt(s, sub, i) then Some(i)
    else if i == |s| then None
    else FindFrom(s, sub, i + 1)
  }

  /** Index of the first occurrence of `sub` in `s` (Go's strings.Index, -1 as None). */
  function Find(s: string, sub: string): (r: Option<nat>)
    ensures r.Some? <==> Contains(s, sub)
    ensures r.Some? ==> IsAt(s, sub, r.value) && forall j :: 0 <= j < r.value ==> !IsAt(s, sub, j)
  {
    FindFrom(s, sub, 0)
  }

  /** Index of the first `c` in `s`, or |s| when there is none. */
  function IndexOf(s: string, c: char): (i: nat)
    ensures i <= |s|
    ensures i < |s| ==> s[i] == c
    ensures forall j :: 0 <= j < i ==> s[j] != c
    ensures i == |s| <==> c !in s
  {
    if s == [] then 0
    else if s[0] == c then 0
    else 1 + IndexOf(s[1..], c)
  }

  /** Index of the last `c` in `s`, or -1 when there is none (Go's bytes.LastIndexByte). */
  function LastIndexOf(s: string, c: char): (i: int)
    ensures -1 <= i < |s|
    ensures 0 <= i ==> s[i] == c
    ensures forall j :: i < j < |s| ==> s[j] != c
  {
    if s == [] then -1
    else if s[|s| - 1] == c then |s| - 1
    else LastIndexOf(s[..|s| - 1], c)
  }

  /** No string occurs twice. */
  predicate Distinct(xs: seq<string>) {
    forall i, j :: 0 <= i < j < |xs| ==> xs[i] != xs[j]
  }

  /** Go's slices.Index: the first position of `x` in `xs`, or -1. */
  function IndexOfItem(xs: seq<string>, x: string): (i: int)
    ensures -1 <= i < |xs|
    ensures i == -1 <==> x !in xs
    ensures 0 <= i ==> xs[i] == x && forall j :: 0 <= j < i ==> xs[j] != x
  {
    if xs == [] then -1
    else if xs[0] == x then 0
    else
      var k := IndexOfItem(xs[1..], x);
      if k == -1 then -1 else k + 1
  }

  function Join(parts: seq<string>, sep: string): string {
    if |parts| == 0 then ""
    else if |parts| == 1 then parts[0]
    else parts[0] + sep + Join(parts[1..], sep)
  }

  lemma {:induction false} JoinSnoc(parts: seq<string>, last: string, sep: string)
    ensures Join(parts + [last], sep) == if parts == [] then last else Join(parts, sep) + sep + last
    decreases |parts|
  {
    if |parts| > 1 {
      assert (parts + [last])[1..] == parts[1..] + [last];
      JoinSnoc(parts[1..], last, sep);
    } else if |parts| == 1 {
      assert (parts + [last])[1..] == [last];
    }
  }

  lemma JoinOfNonEmptyParts(parts: seq<string>, sep: string)
    requires parts != [] && parts[0] != []
    ensures Join(parts, sep) != []
  {
  }

  /** The strings that are not empty, in order. */
  function NonEmpty(lines: seq<string>): (r: seq<string>)
    ensures forall k :: 0 <= k < |r| ==> r[k] != []
  {
    if lines == [] then []
    else if lines[|lines| - 1] == [] then NonEmpty(lines[..|lines| - 1])
    else NonEmpty(lines[..|lines| - 1]) + [lines[|lines| - 1]]
  }

  lemma NonEmptySnoc(lines: seq<string>, x: string)
    ensures NonEmpty(lines + [x]) == if x == [] then NonEmpty(lines) else NonEmpty(lines) + [x]
  {
    assert (lines + [x])[..|lines|] == lines;
  }

  /** Split on every `c` (Go's strings.Split and Python's str.split with one separator character). */
  function Split(s: string, c: char): (r: seq<string>)
    ensures |r| >= 1
    ensures forall k :: 0 <= k < |r| ==> c !in r[k]
    decreases |s|
  {
    var i := IndexOf(s, c);
    if i == |s| then [s] else [s[..i]] + Split(s[i + 1..], c)
  }

  lemma {:induction false} JoinSplit(s: string, c: char)
    ensures Join(Split(s, c), [c]) == s
    decreases |s|
  {
    var i := IndexOf(s, c);
    if i < |s| {
      var rest := Split(s[i + 1..], c);
      JoinSplit(s[i + 1..], c);
      assert Split(s, c) == [s[..i]] + rest;
      assert s == s[..i] + [c] + s[i + 1..];
    }
  }

  /** The first `c` after a prefix without one is right after that prefix. */
  lemma {:induction false} IndexOfFirst(a: string, b: string, c: char)
    requires c !in a
    ensures IndexOf(a + [c] + b, c) == |a|
  {
    if a == [] {
      assert (a + [c] + b)[0] == c;
    } else {
      assert (a + [c] + b)[0] == a[0] && (a + [c] + b)[1..] == a[1..] + [c] + b;
      IndexOfFirst(a[1..], b, c);
    }
  }
  /** A piece without separators followed by a separator is the first piece. */
  lemma SplitAfter(a: string, b: string, c: char)
    requires c !in a
    ensures Split(a + [c] + b, c) == [a] + Split(b, c)
  {
    var s := a + [c] + b;
    IndexOfFirst(a, b, c);
    assert s[..|a|] == a && s[|a| + 1..] == b;
  }

  /** A string with a separator is its first piece, the separator and the rest. */
  lemma CutAtFirst(s: string, c: char)
    requires c in s
    ensures var i := IndexOf(s, c);
      s == s[..i] + [c] + s[i + 1..] && c !in s[..i]
  {
    var i := IndexOf(s, c);
    assert forall j :: 0 <= j < i ==> s[..i][j] != c;
  }
  /** One step of SplitConcat: peel the first piece off both sides. */
  lemma SplitConcatStep(head: string, tail: string, b: string, c: char)
    requires c !in head
    requires Split(tail + [c] + b, c) == Split(tail, c) + Split(b, c)
    ensures Split(head + [c] + tail + [c] + b, c) == Split(head + [c] + tail, c) + Split(b, c)
  {
    var p := head + [c];
    Assoc(p + tail, [c], b);
    Assoc(p, tail, [c] + b);
    Assoc(tail, [c], b);
    SplitAfter(head, tail, c);
    SplitAfter(head, tail + [c] + b, c);
    Assoc([head], Split(tail, c), Split(b, c));
  }

  /** Concatenation is associative (stated for use as an explicit step). */
  lemma Assoc<T>(x: seq<T>, y: seq<T>, z: seq<T>)
    ensures x + y + z == x + (y + z)
  {
  }

  /** Splitting two strings joined by a separator splits each of them. */
  lemma {:induction false} SplitConcat(a: string, b: string, c: char)
    ensures Split(a + [c] + b, c) == Split(a, c) + Split(b, c)
    decreases |a|
  {
    if c !in a {
      SplitAfter(a, b, c);
      assert Split(a, c) == [a];
    } else {
      CutAtFirst(a, c);
      var i := IndexOf(a, c);
      SplitConcat(a[i + 1..], b, c);
      SplitConcatStep(a[..i], a[i + 1..], b, c);
    }
  }

  /** There is one piece more than there are separators. */
  lemma {:induction false} SplitCount(s: string, c: char)
    ensures |Split(s, c)| == multiset(s)[c] + 1
    decreases |s|
  {
    if c !in s {
      assert Split(s, c) == [s];
      assert multiset(s)[c] == 0;
    } else {
      CutAtFirst(s, c);
      var i := IndexOf(s, c);
      var head, tail := s[..i], s[i + 1..];
      SplitAfter(head, tail, c);
      SplitCount(tail, c);
      assert multiset(s) == multiset(head) + multiset{c} + multiset(tail);
      assert multiset(head)[c] == 0;
    }
  }

  function Repeat(c: char, n: nat): (r: string)
    ensures |r| == n && forall k :: 0 <= k < n ==> r[k] == c
  {
    if n == 0 then "" else [c] + Repeat(c, n - 1)
  }

  /** Go's unicode.IsSpace (used by strings.Fields and strings.TrimSpace). */
  predicate GoSpace(c: char) {
    var n := c as int;
    (0x09 <= n <= 0x0D) || n == 0x20 || n == 0x85 || n == 0xA0 || n == 0x1680
    || (0x2000 <= n <= 0x200A) || n == 0x2028 || n == 0x2029 || n == 0x202F
    || n == 0x205F || n == 0x3000
  }

  /** Python's str.isspace (used by str.split() and str.strip() without arguments). */
  predicate PySpace(c: char) {
    GoSpace(c) || (0x1C <= c as int <= 0x1F)
  }

  predicate IsAsciiDigit(c: char) {
    '0' <= c <= '9'
  }

  /** Length of the longest prefix of `s` without a separator. */
  function WordLength(s: string, sep: char -> bool): (n: nat)
    ensures n <= |s|
    ensures forall k :: 0 <= k < n ==> !sep(s[k])
    ensures n < |s| ==> sep(s[n])
  {
    if s == [] || sep(s[0]) then 0 else 1 + WordLength(s[1..], sep)
  }

  /** The maximal runs of non-separator characters of `s`, in order. */
  function FieldsBy(s: string, sep: char -> bool): (r: seq<string>)
    ensures forall k :: 0 <= k < |r| ==> r[k] != []
    ensures forall k :: 0 <= k < |r| ==> forall m :: 0 <= m < |r[k]| ==> !sep(r[k][m])
    decreases |s|
  {
    if s == [] then []
    else if sep(s[0]) then FieldsBy(s[1..], sep)
    else
      var n := WordLength(s, sep);
      [s[..n]] + FieldsBy(s[n..], sep)
  }

  /** Go's strings.Fields. */
  function GoFields(s: string): seq<string> {
    FieldsBy(s, GoSpace)
  }

  /** Python's str.split() without arguments. */
  function PyFields(s: string): seq<string> {
    FieldsBy(s, PySpace)
  }

  function TrimLeftBy(s: string, strip: char -> bool): (r: string)
    ensures |r| <= |s| && r == s[|s| - |r|..]
    ensures r != [] ==> !strip(r[0])
    ensures forall k :: 0 <= k < |s| - |r| ==> strip(s[k])
  {
    if s != [] && strip(s[0]) then TrimLeftBy(s[1..], strip) else s
  }

  function TrimRightBy(s: string, strip: char -> bool): (r: string)
    ensures |r| <= |s| && r == s[..|r|]
    ensures r != [] ==> !strip(r[|r| - 1])
    ensures forall k :: |r| <= k < |s| ==> strip(s[k])
  {
    if s != [] && strip(s[|s| - 1]) then TrimRightBy(s[..|s| - 1], strip) else s
  }

  function TrimBy(s: string, strip: char -> bool): string {
    TrimRightBy(TrimLeftBy(s, strip), strip)
  }

  /** Go's strings.TrimSpace. */
  function GoTrimSpace(s: string): string {
    TrimBy(s, GoSpace)
  }

  /** Python's str.strip() without arguments. */
  function PyStrip(s: string): string {
    TrimBy(s, PySpace)
  }

  /** ASCII case folding; characters outside A-Z are kept. */
  function AsciiLower(s: string): (r: string)
    ensures |r| == |s|
  {
    if s == [] then ""
    else [if 'A' <= s[0] <= 'Z' then (s[0] as int + 32) as char else s[0]] + AsciiLower(s[1..])
  }
}
