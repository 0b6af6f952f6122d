/**
  The ECMAScript string operations the route handlers rely on (`trim`, `includes`,
  `startsWith`/`endsWith`, `split`, `join`, `substring`, `slice`, `indexOf`,
  `replace` with a global pattern, `toLowerCase`), stated on `seq<char>`.
 */
module Strings {
  import opened Wrappers

  /** ECMAScript WhiteSpace and LineTerminator code points: what `\s` matches and `trim()` strips. */
  predicate IsWhitespace(c: char) {
    var n := c as int;
    (0x09 <= n <= 0x0D) || n == 0x20 || n == 0xA0 || n == 0x1680 || (0x2000 <= n <= 0x200A)
    || n == 0x2028 || n == 0x2029 || n == 0x202F || n == 0x205F || n == 0x3000 || n == 0xFEFF
  }

  /** LineTerminator code points: the characters that `.` in a regular expression does not match. */
  predicate IsLineTerminator(c: char) {
    c == '\n' || c == '\r' || c as int == 0x2028 || c as int == 0x2029
  }

  /** `\w`: ASCII letters, digits and the underscore. */
  predicate IsWordChar(c: char) {
    ('a' <= c <= 'z') || ('A' <= c <= 'Z') || ('0' <= c <= '9') || c == '_'
  }

  predicate AllWhitespace(s: string) {
    forall i | 0 <= i < |s| :: IsWhitespace(s[i])
  }

  predicate StartsWith(s: string, prefix: string) {
    |prefix| <= |s| && s[..|prefix|] == prefix
  }

  /** A text starts with any of its prefixes. */
  lemma PrefixOfConcat(a: string, b: string)
    ensures StartsWith(a + b, a)
  {
    assert (a + b)[..|a|] == a;
  }

  predicate EndsWith(s: string, suffix: string) {
    |suffix| <= |s| && s[|s| - |suffix|..] == suffix
  }

  /** `pat` occurs in `s` starting at index `i`. */
  predicate OccursAt(s: string, pat: string, i: int) {
    0 <= i && i + |pat| <= |s| && s[i..i + |pat|] == pat
  }

  /** An occurrence inside a slice is an occurrence in the whole string. */
  lemma OccursInSlice(s: string, pat: string, q: nat, e: nat, i: int)
    requires q <= e <= |s|
    ensures OccursAt(s[q..e], pat, i) ==> OccursAt(s, pat, q + i)
  {
    if OccursAt(s[q..e], pat, i) {
      var inner := s[q..e][i..i + |pat|];
      var outer := s[q + i..q + i + |pat|];
      assert forall k :: 0 <= k < |pat| ==> inner[k] == outer[k];
      assert inner == outer;
    }
  }

  /** An occurrence at `i` has the pattern's `j`-th character at `i + j`. */
  lemma OccursAtChar(s: string, pat: string, i: int, j: nat)
    requires j < |pat|
    ensures OccursAt(s, pat, i) ==> s[i + j] == pat[j]
  {
    if OccursAt(s, pat, i) {
      assert s[i..i + |pat|][j] == s[i + j];
    }
  }

  /** An occurrence starts with the first character of the pattern. */
  lemma OccursAtHead(s: string, pat: string, i: int)
    requires |pat| > 0
    ensures OccursAt(s, pat, i) ==> s[i] == pat[0]
  {
    OccursAtChar(s, pat, i, 0);
  }

  /** Occurrences in the tail sit one position further in the whole string. */
  lemma OccursAtTail(s: string, pat: string, i: nat)
    requires |s| > 0
    ensures OccursAt(s[1..], pat, i) <==> OccursAt(s, pat, i + 1)
  {
    if i + |pat| <= |s[1..]| {
      assert s[1..][i..i + |pat|] == s[i + 1..i + 1 + |pat|];
    }
  }

  /** `s.includes(pat)`. */
  predicate Contains(s: string, pat: string) {
    exists i | 0 <= i <= |s| :: OccursAt(s, pat, i)
  }

  /** A witness for `Contains`. */
  lemma ContainsAt(s: string, pat: string, i: int)
    requires OccursAt(s, pat, i)
    ensures Contains(s, pat)
  {
  }

  /** `s.indexOf(pat, from)`: the first occurrence of `pat` at or after `from`. */
  function IndexOf(s: string, pat: string, from: nat): (r: Option<nat>)
    ensures r.Some? ==> from <= r.value && OccursAt(s, pat, r.value)
    ensures r.Some? ==> forall k :: from <= k < r.value ==> !OccursAt(s, pat, k)
    ensures r.None? ==> forall k :: from <= k ==> !OccursAt(s, pat, k)
    decreases |s| - from
  {
    if from + |pat| > |s| then None
    else if s[from..from + |pat|] == pat then Some(from)
    else IndexOf(s, pat, from + 1)
  }

  /** The search finds an occurrence when none comes before it. */
  lemma IndexOfFinds(s: string, pat: string, from: nat, at: nat)
    requires from <= at && OccursAt(s, pat, at)
    requires forall k :: from <= k < at ==> !OccursAt(s, pat, k)
    ensures IndexOf(s, pat, from) == Some(at)
  {
  }

  /** The number of whitespace characters `s` starts with. */
  function LeadingWhitespace(s: string): (n: nat)
    ensures n <= |s|
    ensures n < |s| ==> !IsWhitespace(s[n])
    decreases |s|
  {
    if |s| > 0 && IsWhitespace(s[0]) then 1 + LeadingWhitespace(s[1..]) else 0
  }

  /** The number of whitespace characters `s` ends with. */
  function TrailingWhitespace(s: string): (n: nat)
    ensures n <= |s|
    ensures n < |s| ==> !IsWhitespace(s[|s| - 1 - n])
    decreases |s|
  {
    if |s| > 0 && IsWhitespace(s[|s| - 1]) then 1 + TrailingWhitespace(s[..|s| - 1]) else 0
  }

  /** `s.trimStart()`: the longest suffix of `s` that does not start with whitespace. */
  function TrimStart(s: string): (r: string)
    ensures |r| <= |s| && r == s[|s| - |r|..]
    ensures r == [] || !IsWhitespace(r[0])
  {
    s[LeadingWhitespace(s)..]
  }

  /** What `trimStart` removes is whitespace only. */
  lemma {:induction false} TrimStartRemovesWhitespace(s: string)
    ensures AllWhitespace(s[..|s| - |TrimStart(s)|])
    decreases |s|
  {
    if |s| > 0 && IsWhitespace(s[0]) {
      TrimStartRemovesWhitespace(s[1..]);
      var k := LeadingWhitespace(s);
      assert TrimStart(s) == TrimStart(s[1..]);
      assert forall i :: 1 <= i < k ==> s[..k][i] == s[1..][..k - 1][i - 1];
    }
  }

  /** `s.trimEnd()`: the longest prefix of `s` that does not end with whitespace. */
  function TrimEnd(s: string): (r: string)
    ensures |r| <= |s| && r == s[..|r|]
    ensures r == [] || !IsWhitespace(r[|r| - 1])
  {
    s[..|s| - TrailingWhitespace(s)]
  }

  /** What `trimEnd` removes is whitespace only. */
  lemma {:induction false} TrimEndRemovesWhitespace(s: string)
    ensures AllWhitespace(s[|TrimEnd(s)|..])
    decreases |s|
  {
    if |s| > 0 && IsWhitespace(s[|s| - 1]) {
      TrimEndRemovesWhitespace(s[..|s| - 1]);
      var k := |TrimEnd(s)|;
      assert TrimEnd(s) == TrimEnd(s[..|s| - 1]);
      assert forall i :: k <= i < |s| - 1 ==> s[i] == s[..|s| - 1][i];
    }
  }

  /** `trim()` keeps a middle stretch of `s`; everything cut on either side is whitespace. */
  lemma TrimRemovesWhitespace(s: string)
    ensures exists a, b :: 0 <= a <= b <= |s| && Trim(s) == s[a..b] && AllWhitespace(s[..a]) && AllWhitespace(s[b..])
  {
    var t := TrimStart(s);
    var a := |s| - |t|;
    TrimStartRemovesWhitespace(s);
    TrimEndRemovesWhitespace(t);
    var b := a + |TrimEnd(t)|;
    assert Trim(s) == TrimEnd(t) == s[a..b];
    assert s[b..] == t[|TrimEnd(t)|..];
  }

  /** `s.trim()`: what is left of `s` once all leading and trailing whitespace is removed. */
  function Trim(s: string): (r: string)
    ensures |r| <= |s|
    ensures r == [] || (!IsWhitespace(r[0]) && !IsWhitespace(r[|r| - 1]))
  {
    var t := TrimStart(s);
    var r := TrimEnd(t);
    assert r != [] ==> r[0] == t[0];
    r
  }

  /** A string without leading or trailing whitespace is its own trim. */
  lemma TrimOfTrimmed(s: string)
    requires s == [] || (!IsWhitespace(s[0]) && !IsWhitespace(s[|s| - 1]))
    ensures Trim(s) == s
  {
  }

  /** Trimming twice is trimming once. */
  lemma TrimIdempotent(s: string)
    ensures Trim(Trim(s)) == Trim(s)
  {
    TrimOfTrimmed(Trim(s));
  }

  /** A trimmed string never ends with a whitespace-terminated suffix. */
  lemma TrimmedNotEndingInSpace(s: string, suffix: string)
    requires |suffix| > 0 && IsWhitespace(suffix[|suffix| - 1])
    ensures !EndsWith(Trim(s), suffix)
  {
  }

  /** `parts.join(sep)`. */
  function Join(parts: seq<string>, sep: string): string {
    if |parts| == 0 then ""
    else if |parts| == 1 then parts[0]
    else parts[0] + sep + Join(parts[1..], sep)
  }

  /**
    `s.split(c)` for a one-character separator: the pieces of `s` between the
    occurrences of `c`. There is always at least one piece and no piece holds `c`.
   */
  function Split(s: string, c: char): (r: seq<string>)
    ensures |r| >= 1
    ensures forall i :: 0 <= i < |r| ==> c !in r[i]
    decreases |s|
  {
    if |s| == 0 then [""]
    else
      var rest := Split(s[1..], c);
      if s[0] == c then [""] + rest
      else [[s[0]] + rest[0]] + rest[1..]
  }

  /** Joining the pieces with the separator gives back the string. */
  lemma {:induction false} SplitJoin(s: string, c: char)
    ensures Join(Split(s, c), [c]) == s
    decreases |s|
  {
    if |s| > 0 {
      SplitJoin(s[1..], c);
      var rest := Split(s[1..], c);
      if s[0] == c {
        assert ([""] + rest)[1..] == rest;
      } else {
        var r := [[s[0]] + rest[0]] + rest[1..];
        if |rest| > 1 {
          assert r[1..] == rest[1..];
        }
      }
    }
  }

  /** A string that does not hold the separator splits into itself. */
  lemma {:induction false} SplitWithoutSeparator(s: string, c: char)
    requires c !in s
    ensures Split(s, c) == [s]
    decreases |s|
  {
    if |s| > 0 {
      assert c !in s[1..];
      SplitWithoutSeparator(s[1..], c);
      assert [s[0]] + s[1..] == s;
    }
  }

  /** Splitting at one occurrence of the separator splits the two sides independently. */
  lemma {:induction false} SplitAppend(a: string, b: string, c: char)
    ensures Split(a + [c] + b, c) == Split(a, c) + Split(b, c)
    decreases |a|
  {
    if |a| == 0 {
      assert a + [c] + b == [c] + b;
      assert ([c] + b)[1..] == b;
    } else {
      var s := a + [c] + b;
      assert s[0] == a[0];
      assert s[1..] == a[1..] + [c] + b;
      SplitAppend(a[1..], b, c);
    }
  }

  /** A character absent from `s` is absent from all of its pieces. */
  lemma {:induction false} SplitKeepsAbsent(s: string, c: char, d: char)
    requires d !in s
    ensures forall i :: 0 <= i < |Split(s, c)| ==> d !in Split(s, c)[i]
    decreases |s|
  {
    if |s| > 0 {
      SplitKeepsAbsent(s[1..], c, d);
    }
  }

  /** A character absent from every piece and from the separator is absent from the joined string. */
  lemma {:induction false} JoinKeepsAbsent(parts: seq<string>, sep: string, d: char)
    requires forall i :: 0 <= i < |parts| ==> d !in parts[i]
    requires d !in sep
    ensures d !in Join(parts, sep)
    decreases |parts|
  {
    if |parts| > 1 {
      JoinKeepsAbsent(parts[1..], sep, d);
    }
  }

  /** `s.substring(0, n)` for `n >= 0`: the first `n` characters, or all of `s` when it is shorter. */
  function TakeClamped(s: string, n: nat): string {
    if n <= |s| then s[..n] else s
  }

  /** `s.substring(n)` for `n >= 0`: everything from index `n`, or "" when `s` is shorter. */
  function DropClamped(s: string, n: nat): string {
    if n <= |s| then s[n..] else ""
  }

  /** Cutting a string at any index and putting the halves back together is the identity. */
  lemma TakeDropClamped(s: string, n: nat)
    ensures TakeClamped(s, n) + DropClamped(s, n) == s
    ensures |TakeClamped(s, n)| == if n <= |s| then n else |s|
  {
  }

  /** `xs.slice(start, end)` for non-negative bounds: both bounds are clamped to the length. */
  function Slice<T>(xs: seq<T>, start: nat, end: nat): (r: seq<T>)
    ensures |r| == if start < end && start < |xs| then (if end < |xs| then end else |xs|) - start else 0
    ensures forall k :: 0 <= k < |r| ==> r[k] == xs[start + k]
  {
    var e := if end < |xs| then end else |xs|;
    if start < e then xs[start..e] else []
  }

  /**
    `s.replace(pat, "")` with a global pattern: one left-to-right pass that removes
    every non-overlapping occurrence, the leftmost first.
   */
  function RemoveAll(s: string, pat: string): (r: string)
    requires |pat| > 0
    ensures |r| <= |s|
    decreases |s|
  {
    if |s| < |pat| then s
    else if s[..|pat|] == pat then RemoveAll(s[|pat|..], pat)
    else [s[0]] + RemoveAll(s[1..], pat)
  }

  /** A prefix in which no occurrence of `pat` starts is kept as it is. */
  lemma {:induction false} RemoveAllKeepsPrefix(a: string, b: string, pat: string)
    requires |pat| > 0
    requires forall i :: 0 <= i < |a| ==> !OccursAt(a + b, pat, i)
    ensures RemoveAll(a + b, pat) == a + RemoveAll(b, pat)
    decreases |a|
  {
    if |a| > 0 {
      var s := a + b;
      assert s[1..] == a[1..] + b;
      forall i | 0 <= i < |a| - 1
        ensures !OccursAt(a[1..] + b, pat, i)
      {
        OccursAtTail(s, pat, i);
      }
      RemoveAllKeepsPrefix(a[1..], b, pat);
      assert !OccursAt(s, pat, 0);
      RemoveAllStep(s, pat);
      calc {
        RemoveAll(s, pat);
        [s[0]] + RemoveAll(s[1..], pat);
        [a[0]] + (a[1..] + RemoveAll(b, pat));
        { assert a == [a[0]] + a[1..]; }
        a + RemoveAll(b, pat);
      }
    } else {
      assert a + b == b;
    }
  }

  /** A string shorter than the pattern is kept as it is. */
  lemma RemoveAllShort(s: string, pat: string)
    requires |s| < |pat|
    ensures RemoveAll(s, pat) == s
  {
  }

  /** An occurrence at the head is dropped and the pass goes on after it. */
  lemma RemoveAllLeading(pat: string, b: string)
    requires |pat| > 0
    ensures RemoveAll(pat + b, pat) == RemoveAll(b, pat)
  {
    assert (pat + b)[..|pat|] == pat && (pat + b)[|pat|..] == b;
  }

  /** Where no occurrence starts at the head, the pass keeps the first character. */
  lemma RemoveAllStep(s: string, pat: string)
    requires |pat| > 0 && |s| > 0 && !OccursAt(s, pat, 0)
    ensures RemoveAll(s, pat) == [s[0]] + RemoveAll(s[1..], pat)
  {
    if |s| < |pat| {
      assert RemoveAll(s[1..], pat) == s[1..];
      assert s == [s[0]] + s[1..];
    }
  }

  /** The pass is the identity on a string in which `pat` does not occur. */
  lemma RemoveAllWithoutOccurrence(s: string, pat: string)
    requires |pat| > 0 && !Contains(s, pat)
    ensures RemoveAll(s, pat) == s
  {
    assert s + "" == s;
    RemoveAllKeepsPrefix(s, "", pat);
  }

  /** ASCII `toLowerCase` of one character. */
  function LowerChar(c: char): (d: char)
    ensures 'A' <= c <= 'Z' ==> d as int == c as int + 32
    ensures !('A' <= c <= 'Z') ==> d == c
  {
    if 'A' <= c <= 'Z' then (c as int + 32) as char else c
  }

  /** ASCII `toLowerCase`. */
  function ToLower(s: string): (r: string)
    ensures |r| == |s|
    ensures forall i :: 0 <= i < |s| ==> r[i] == LowerChar(s[i])
  {
    seq(|s|, i requires 0 <= i < |s| => LowerChar(s[i]))
  }

  /** Lower-casing twice is lower-casing once. */
  lemma ToLowerIdempotent(s: string)
    ensures ToLower(ToLower(s)) == ToLower(s)
  {
  }

  /** Lower-cases every piece. */
  function LowerAll(parts: seq<string>): (r: seq<string>)
    ensures |r| == |parts|
    ensures forall i :: 0 <= i < |parts| ==> r[i] == ToLower(parts[i])
  {
    seq(|parts|, i requires 0 <= i < |parts| => ToLower(parts[i]))
  }

  /** Lower-casing maps a non-letter only to itself, so splitting at one commutes with it. */
  lemma {:induction false} SplitToLower(s: string, c: char)
    requires !('A' <= c <= 'Z') && !('a' <= c <= 'z')
    ensures Split(ToLower(s), c) == LowerAll(Split(s, c))
    decreases |s|
  {
    var ls := ToLower(s);
    if |s| == 0 {
      assert ls == "";
    } else {
      assert ls[1..] == ToLower(s[1..]);
      SplitToLower(s[1..], c);
      if s[0] == c {
        SplitLowerSeparator(s, c);
      } else {
        SplitLowerOther(s, c);
      }
    }
  }

  lemma SplitLowerSeparator(s: string, c: char)
    requires |s| > 0 && s[0] == c
    requires !('A' <= c <= 'Z') && !('a' <= c <= 'z')
    requires Split(ToLower(s[1..]), c) == LowerAll(Split(s[1..], c))
    ensures Split(ToLower(s), c) == LowerAll(Split(s, c))
  {
    var ls := ToLower(s);
    assert ls[1..] == ToLower(s[1..]);
    assert ls[0] == c;
    var rest := Split(s[1..], c);
    assert LowerAll([""] + rest) == [""] + LowerAll(rest);
  }

  lemma SplitLowerOther(s: string, c: char)
    requires |s| > 0 && s[0] != c
    requires !('A' <= c <= 'Z') && !('a' <= c <= 'z')
    requires Split(ToLower(s[1..]), c) == LowerAll(Split(s[1..], c))
    ensures Split(ToLower(s), c) == LowerAll(Split(s, c))
  {
    var ls := ToLower(s);
    ToLowerTail(s);
    var rest := Split(s[1..], c);
    assert Split(ls, c) == [[ls[0]] + Split(ls[1..], c)[0]] + Split(ls[1..], c)[1..];
    LowerAllTail(rest);
    ToLowerCons(s[0], rest[0]);
    LowerAllCons([s[0]] + rest[0], rest[1..]);
  }

  /** Lower-casing works character by character from the front. */
  lemma ToLowerTail(s: string)
    requires |s| > 0
    ensures ToLower(s)[0] == LowerChar(s[0]) && ToLower(s)[1..] == ToLower(s[1..])
  {
  }

  lemma ToLowerCons(x: char, t: string)
    ensures ToLower([x] + t) == [LowerChar(x)] + ToLower(t)
  {
    assert forall i :: 0 <= i < |t| ==> ([x] + t)[i + 1] == t[i];
  }

  lemma LowerAllTail(parts: seq<string>)
    requires |parts| > 0
    ensures LowerAll(parts)[1..] == LowerAll(parts[1..])
  {
  }

  lemma LowerAllCons(x: string, parts: seq<string>)
    ensures LowerAll([x] + parts) == [ToLower(x)] + LowerAll(parts)
  {
    var l := LowerAll([x] + parts);
    var r := [ToLower(x)] + LowerAll(parts);
    forall i | 0 <= i < |l| ensures l[i] == r[i] {
      if i > 0 {
        assert ([x] + parts)[i] == parts[i - 1];
      }
    }
    assert l == r;
  }

  /** The number a string of decimal digits denotes, most significant digit first. */
  function DigitsValue(s: string): int {
    if s == [] then 0 else DigitsValue(s[..|s| - 1]) * 10 + (s[|s| - 1] as int - '0' as int)
  }

  /** `n.toString()` for a natural number: its decimal digits, without leading zeros. */
  function NatToString(n: nat): (r: string)
    ensures |r| >= 1
    ensures forall i :: 0 <= i < |r| ==> '0' <= r[i] <= '9'
    ensures DigitsValue(r) == n
    ensures n > 0 ==> r[0] != '0'
  {
    var d := ['0' + (n % 10) as char];
    if n < 10 then d
    else
      var rest := NatToString(n / 10);
      assert (rest + d)[..|rest + d| - 1] == rest;
      rest + d
  }
}
