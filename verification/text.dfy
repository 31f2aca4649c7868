/**
 * The handful of Python `str` operations the triage code relies on:
 * `strip()`, `startswith`, `split("\n")`, `sep.join(...)`, `find` and
 * `rfind` of a single character, and the decimal rendering of a question
 * number in an f-string.
 */
module Text {

  /**
   * Python's `str.isspace()` for one character: the ASCII tab to carriage
   * return, the four information separators, space, next line, no-break
   * space and the Unicode space separators, line and paragraph separators.
   */
  predicate IsSpace(c: char) {
    || c == ' '
    || '\U{9}' <= c <= '\U{D}'
    || '\U{1C}' <= c <= '\U{1F}'
    || c == '\U{85}' || c == '\U{A0}' || c == '\U{1680}'
    || '\U{2000}' <= c <= '\U{200A}'
    || c == '\U{2028}' || c == '\U{2029}' || c == '\U{202F}' || c == '\U{205F}' || c == '\U{3000}'
  }

  /** `s.lstrip()`: drops the leading whitespace and nothing else. */
  function TrimStart(s: string): (r: string)
    ensures |r| <= |s|
    ensures r == [] || !IsSpace(r[0])
  {
    if |s| > 0 && IsSpace(s[0]) then TrimStart(s[1..]) else s
  }

  /** What `lstrip()` keeps is a suffix of `s`. */
  lemma {:induction false} TrimStartSuffix(s: string)
    ensures TrimStart(s) == s[|s| - |TrimStart(s)|..]
    decreases |s|
  {
    if |s| > 0 && IsSpace(s[0]) {
      TrimStartSuffix(s[1..]);
      assert s[1..][|s| - 1 - |TrimStart(s)|..] == s[|s| - |TrimStart(s)|..];
    }
  }

  /** `s.rstrip()`: drops the trailing whitespace and nothing else. */
  function TrimEnd(s: string): (r: string)
    ensures |r| <= |s|
    ensures r == [] || !IsSpace(r[|r| - 1])
  {
    if |s| > 0 && IsSpace(s[|s| - 1]) then TrimEnd(s[..|s| - 1]) else s
  }

  /** What `rstrip()` keeps is a prefix of `s`. */
  lemma {:induction false} TrimEndPrefix(s: string)
    ensures TrimEnd(s) == s[..|TrimEnd(s)|]
    decreases |s|
  {
    if |s| > 0 && IsSpace(s[|s| - 1]) {
      TrimEndPrefix(s[..|s| - 1]);
      assert s[..|s| - 1][..|TrimEnd(s)|] == s[..|TrimEnd(s)|];
    }
  }

  /**
   * `s.strip()`: the slice of `s` left once leading and trailing
   * whitespace is dropped; it neither starts nor ends with whitespace.
   */
  function Strip(s: string): (r: string)
    ensures r == [] || (!IsSpace(r[0]) && !IsSpace(r[|r| - 1]))
  {
    var t := TrimStart(s);
    TrimEndPrefix(t);
    TrimEnd(t)
  }

  /**
   * What `strip()` keeps is a slice of `s` with only whitespace before it
   * and only whitespace after it.
   */
  lemma StripAround(s: string)
    ensures exists i :: OccursAt(Strip(s), s, i) && AllSpace(s[..i]) && AllSpace(s[i + |Strip(s)|..])
  {
    var t := TrimStart(s);
    var r := TrimEnd(t);
    var i := |s| - |t|;
    TrimStartSuffix(s);
    TrimEndPrefix(t);
    LeadingSpace(s);
    TrailingSpace(t);
    SliceOfSuffix(s, i, |r|);
    assert OccursAt(r, s, i) && AllSpace(s[..i]) && AllSpace(s[i + |r|..]);
  }

  /** What `lstrip()` drops is whitespace. */
  lemma {:induction false} LeadingSpace(s: string)
    ensures AllSpace(s[..|s| - |TrimStart(s)|])
    decreases |s|
  {
    if |s| > 0 && IsSpace(s[0]) {
      LeadingSpace(s[1..]);
      var i := |s| - |TrimStart(s)|;
      forall k | 0 <= k < i
        ensures IsSpace(s[..i][k])
      {
        if k > 0 {
          assert s[..i][k] == s[1..][..i - 1][k - 1];
        }
      }
    }
  }

  /** What `rstrip()` drops is whitespace. */
  lemma {:induction false} TrailingSpace(t: string)
    ensures AllSpace(t[|TrimEnd(t)|..])
    decreases |t|
  {
    if |t| > 0 && IsSpace(t[|t| - 1]) {
      var u := t[..|t| - 1];
      TrailingSpace(u);
      var n := |TrimEnd(t)|;
      forall k | 0 <= k < |t| - n
        ensures IsSpace(t[n..][k])
      {
        if n + k < |t| - 1 {
          assert t[n..][k] == u[n..][k];
        }
      }
    }
  }

  /** Slices of the suffix `s[i..]` are slices of `s`. */
  lemma SliceOfSuffix(s: string, i: nat, n: nat)
    requires i + n <= |s|
    ensures s[i..][..n] == s[i..i + n]
    ensures s[i..][n..] == s[i + n..]
  {
  }

  /** Every character of `t` is whitespace. */
  predicate AllSpace(t: string) {
    forall k :: 0 <= k < |t| ==> IsSpace(t[k])
  }

  /** Stripping twice strips nothing more. */
  lemma StripIdempotent(s: string)
    ensures Strip(Strip(s)) == Strip(s)
  {
    var r := Strip(s);
    assert r == [] || !IsSpace(r[0]);
    assert TrimStart(r) == r;
    assert r == [] || !IsSpace(r[|r| - 1]);
  }

  /** A text that neither starts nor ends with whitespace is left as it is. */
  lemma StripKeeps(s: string)
    requires s == [] || (!IsSpace(s[0]) && !IsSpace(s[|s| - 1]))
    ensures Strip(s) == s
  {
    assert TrimStart(s) == s;
  }

  /** `s.startswith(p)`. */
  predicate StartsWith(s: string, p: string) {
    |p| <= |s| && s[..|p|] == p
  }

  /** `a` occurs as a contiguous slice of `s` (Python's `a in s`). */
  ghost predicate IsSubstring(a: string, s: string) {
    exists i :: OccursAt(a, s, i)
  }

  /** `a` occurs in `s` starting at index `i`. */
  ghost predicate OccursAt(a: string, s: string, i: int) {
    0 <= i <= |s| - |a| && s[i..i + |a|] == a
  }

  /** An occurrence inside an occurrence is an occurrence. */
  lemma OccursWithin(a: string, s: string, t: string, k: int, j: int)
    requires OccursAt(a, s, k) && OccursAt(s, t, j)
    ensures OccursAt(a, t, j + k)
  {
    forall m | 0 <= m < |a|
      ensures t[j + k + m] == a[m]
    {
      assert t[j..j + |s|][k + m] == s[k..k + |a|][m];
    }
    assert t[j + k..j + k + |a|] == a;
  }

  /** A substring of a substring is a substring. */
  lemma SubstringTransitive(a: string, s: string, t: string)
    requires IsSubstring(a, s) && IsSubstring(s, t)
    ensures IsSubstring(a, t)
  {
    var k :| OccursAt(a, s, k);
    var j :| OccursAt(s, t, j);
    OccursWithin(a, s, t, k, j);
  }

  /** The tail of a concatenation occurs in it. */
  lemma SuffixOccurs(h: string, a: string)
    ensures OccursAt(a, h + a, |h|)
  {
    assert (h + a)[|h|..|h| + |a|] == a;
  }

  /** `s.find(c)`: the first index of `c`, or -1. */
  function Find(s: string, c: char): (r: int)
    ensures -1 <= r < |s|
    ensures r != -1 ==> s[r] == c
  {
    if |s| == 0 then -1
    else if s[0] == c then 0
    else
      var k := Find(s[1..], c);
      if k < 0 then -1 else k + 1
  }

  /** `find` gives -1 exactly when `c` is absent, and otherwise an index with no `c` before it. */
  lemma {:induction false} FindSpec(s: string, c: char)
    ensures Find(s, c) == -1 <==> c !in s
    ensures Find(s, c) != -1 ==> c !in s[..Find(s, c)]
    decreases |s|
  {
    if |s| > 0 && s[0] != c {
      FindSpec(s[1..], c);
      var k := Find(s[1..], c);
      assert s == [s[0]] + s[1..];
      if k >= 0 {
        assert s[..k + 1] == [s[0]] + s[1..][..k];
      }
    }
  }

  /** An index holding `c` with no `c` before it is what `find` returns. */
  lemma FindIs(s: string, c: char, k: nat)
    requires k < |s| && s[k] == c && c !in s[..k]
    ensures Find(s, c) == k
  {
    FindSpec(s, c);
    var r := Find(s, c);
    assert forall j :: 0 <= j < k ==> s[..k][j] == s[j];
    assert forall j :: 0 <= j < r ==> s[..r][j] == s[j];
  }

  /** `s.rfind(c)`: the last index of `c`, or -1. */
  function RFind(s: string, c: char): (r: int)
    ensures -1 <= r < |s|
    ensures r != -1 ==> s[r] == c
  {
    if |s| == 0 then -1
    else if s[|s| - 1] == c then |s| - 1
    else RFind(s[..|s| - 1], c)
  }

  /** `rfind` gives -1 exactly when `c` is absent, and otherwise an index with no `c` after it. */
  lemma {:induction false} RFindSpec(s: string, c: char)
    ensures RFind(s, c) == -1 <==> c !in s
    ensures RFind(s, c) != -1 ==> c !in s[RFind(s, c) + 1..]
    decreases |s|
  {
    if |s| > 0 && s[|s| - 1] != c {
      var u := s[..|s| - 1];
      RFindSpec(u, c);
      var k := RFind(u, c);
      assert s == u + [s[|s| - 1]];
      if k != -1 {
        assert s[k + 1..] == u[k + 1..] + [s[|s| - 1]];
      }
    }
  }

  /** An index holding `c` with no `c` after it is what `rfind` returns. */
  lemma RFindIs(s: string, c: char, k: nat)
    requires k < |s| && s[k] == c && c !in s[k + 1..]
    ensures RFind(s, c) == k
  {
    RFindSpec(s, c);
    var r := RFind(s, c);
    assert forall j :: k < j < |s| ==> s[k + 1..][j - k - 1] == s[j];
    assert forall j :: r < j < |s| ==> s[r + 1..][j - r - 1] == s[j];
  }

  /** `sep.join(parts)`. */
  function Join(parts: seq<string>, sep: string): string {
    if |parts| == 0 then ""
    else if |parts| == 1 then parts[0]
    else parts[0] + sep + Join(parts[1..], sep)
  }

  /** `s.split(sep)` for a one-character separator. */
  function Split(s: string, sep: char): (parts: seq<string>)
    ensures |parts| >= 1
    decreases |s|
  {
    var i := Find(s, sep);
    if i < 0 then [s] else [s[..i]] + Split(s[i + 1..], sep)
  }

  /** No part of a split contains the separator. */
  lemma {:induction false} SplitPartsFree(s: string, sep: char)
    ensures forall i :: 0 <= i < |Split(s, sep)| ==> sep !in Split(s, sep)[i]
    decreases |s|
  {
    var i := Find(s, sep);
    FindSpec(s, sep);
    if i >= 0 {
      SplitPartsFree(s[i + 1..], sep);
    }
  }

  /** Splitting and joining again with the same separator gives the text back. */
  lemma {:induction false} JoinSplit(s: string, sep: char)
    ensures Join(Split(s, sep), [sep]) == s
    decreases |s|
  {
    var i := Find(s, sep);
    if i >= 0 {
      var rest := s[i + 1..];
      JoinSplit(rest, sep);
      JoinCons(s[..i], Split(rest, sep), [sep]);
      SliceAround(s, i);
    }
  }

  /** A text is what comes before index `i`, the character there and what follows. */
  lemma SliceAround(s: string, i: nat)
    requires i < |s|
    ensures s == s[..i] + [s[i]] + s[i + 1..]
  {
  }

  /** Joining a part in front of a non-empty list of parts. */
  lemma JoinCons(a: string, parts: seq<string>, sep: string)
    requires |parts| >= 1
    ensures Join([a] + parts, sep) == a + sep + Join(parts, sep)
  {
    assert ([a] + parts)[1..] == parts;
  }

  /** Where `sep` first occurs in `a + [sep] + b` when `a` does not contain it. */
  lemma FindAfterPrefix(a: string, b: string, sep: char)
    requires sep !in a
    ensures Find(a + [sep] + b, sep) == |a|
  {
    var s := a + [sep] + b;
    var k := Find(s, sep);
    FindSpec(s, sep);
    assert s[|a|] == sep;
    assert s[..|a|] == a;
  }

  /** An occurrence of `c` in `s` is still the first one once `t` is appended. */
  lemma {:induction false} FindExtend(s: string, t: string, c: char)
    requires c in s
    ensures Find(s + t, c) == Find(s, c)
  {
    if s[0] != c {
      assert (s + t)[1..] == s[1..] + t;
      assert c in s[1..];
      FindExtend(s[1..], t, c);
    }
  }

  /** A leading part free of `sep` splits off as the first part. */
  lemma SplitPrepend(a: string, b: string, sep: char)
    requires sep !in a
    ensures Split(a + [sep] + b, sep) == [a] + Split(b, sep)
  {
    var s := a + [sep] + b;
    FindAfterPrefix(a, b, sep);
    assert s[..|a|] == a;
    assert s[|a| + 1..] == b;
  }

  /** The first part of a text that contains `sep`, and the split of the rest. */
  lemma SplitUnfold(s: string, sep: char)
    requires Find(s, sep) >= 0
    ensures Split(s, sep) == [s[..Find(s, sep)]] + Split(s[Find(s, sep) + 1..], sep)
  {
  }

  /** Slicing `b + [sep] + c` before index `i` of `b` and after it. */
  lemma AppendSlices(b: string, c: string, sep: char, i: nat)
    requires i < |b|
    ensures (b + [sep] + c)[..i] == b[..i]
    ensures (b + [sep] + c)[i + 1..] == b[i + 1..] + [sep] + c
    ensures b + [sep] + c == b + ([sep] + c)
  {
  }

  /** Two parts free of `sep`, joined by it, split back into the two. */
  lemma SplitTwo(b: string, c: string, sep: char)
    requires sep !in b && sep !in c
    ensures Split(b + [sep] + c, sep) == Split(b, sep) + [c]
  {
    SplitPrepend(b, c, sep);
    assert Split(c, sep) == [c];
    assert Split(b, sep) == [b];
  }

  /** A trailing part free of `sep` splits off as the last part. */
  lemma {:induction false} SplitAppend(b: string, c: string, sep: char)
    requires sep !in c
    ensures Split(b + [sep] + c, sep) == Split(b, sep) + [c]
    decreases |b|
  {
    var i := Find(b, sep);
    FindSpec(b, sep);
    if i == -1 {
      SplitTwo(b, c, sep);
    } else {
      SplitAppend(b[i + 1..], c, sep);
      SplitAppendStep(b, c, sep);
    }
  }

  /** The step of `SplitAppend`: the first part of `b` splits off in front. */
  lemma SplitAppendStep(b: string, c: string, sep: char)
    requires Find(b, sep) >= 0
    requires var i := Find(b, sep);
      Split(b[i + 1..] + [sep] + c, sep) == Split(b[i + 1..], sep) + [c]
    ensures Split(b + [sep] + c, sep) == Split(b, sep) + [c]
  {
    var i := Find(b, sep);
    var s := b + [sep] + c;
    AppendSlices(b, c, sep, i);
    FindExtend(b, [sep] + c, sep);
    SplitUnfold(s, sep);
    SplitUnfold(b, sep);
    SeqAssoc([b[..i]], Split(b[i + 1..], sep), [c]);
  }

  /** Concatenation of sequences is associative. */
  lemma SeqAssoc<T>(x: seq<T>, y: seq<T>, z: seq<T>)
    ensures x + (y + z) == (x + y) + z
  {
  }

  /** The first, the remaining and the last elements of a sequence with an element put in front. */
  lemma ConsParts<T>(x: T, s: seq<T>)
    requires |s| >= 1
    ensures ([x] + s)[0] == x && ([x] + s)[1..] == s
    ensures ([x] + s)[|[x] + s| - 1] == s[|s| - 1]
  {
  }

  /** The first, the middle and the last elements of a sequence framed by two elements. */
  lemma FramedParts<T>(x: T, s: seq<T>, y: T)
    ensures |[x] + s + [y]| >= 2
    ensures ([x] + s + [y])[0] == x && ([x] + s + [y])[|[x] + s + [y]| - 1] == y
    ensures ([x] + s + [y])[1..|[x] + s + [y]| - 1] == s
  {
    var l := [x] + s + [y];
    assert l[1..|l| - 1] == s;
  }

  /** Joining parts free of `sep` and splitting again recovers the parts. */
  lemma {:induction false} SplitJoin(parts: seq<string>, sep: char)
    requires |parts| >= 1
    requires forall i :: 0 <= i < |parts| ==> sep !in parts[i]
    ensures Split(Join(parts, [sep]), sep) == parts
  {
    if |parts| == 1 {
      assert Find(parts[0], sep) == -1;
    } else {
      var rest := Join(parts[1..], [sep]);
      var s := parts[0] + [sep] + rest;
      JoinCons(parts[0], parts[1..], [sep]);
      assert [parts[0]] + parts[1..] == parts;
      SplitPrepend(parts[0], rest, sep);
      SplitJoin(parts[1..], sep);
    }
  }

  /** Appending one part at the end of a join. */
  lemma {:induction false} JoinSnoc(parts: seq<string>, last: string, sep: string)
    requires |parts| >= 1
    ensures Join(parts + [last], sep) == Join(parts, sep) + sep + last
  {
    if |parts| > 1 {
      assert (parts + [last])[1..] == parts[1..] + [last];
      JoinSnoc(parts[1..], last, sep);
    } else {
      assert (parts + [last])[1..] == [last];
    }
  }

  /** Every part of a join occurs in the joined text. */
  lemma {:induction false} JoinContainsPart(parts: seq<string>, sep: string, k: nat)
    requires k < |parts|
    ensures IsSubstring(parts[k], Join(parts, sep))
  {
    var j := Join(parts, sep);
    if |parts| == 1 || k == 0 {
      assert j[0..|parts[0]|] == parts[0];
      assert OccursAt(parts[k], j, 0);
    } else {
      JoinContainsPart(parts[1..], sep, k - 1);
      var rest := Join(parts[1..], sep);
      var i :| OccursAt(parts[k], rest, i);
      var off := |parts[0]| + |sep|;
      assert j == parts[0] + sep + rest;
      assert j[off + i..off + i + |parts[k]|] == rest[i..i + |parts[k]|];
      assert OccursAt(parts[k], j, off + i);
    }
  }

  /** One decimal digit. */
  function DigitChar(d: nat): (c: char)
    requires d < 10
    ensures '0' <= c <= '9'
    ensures c as int - '0' as int == d
  {
    ('0' as int + d) as char
  }

  /** `str(n)` for a natural number. */
  function NatToString(n: nat): (r: string)
    ensures |r| >= 1
    ensures forall i :: 0 <= i < |r| ==> '0' <= r[i] <= '9'
  {
    if n < 10 then [DigitChar(n)] else NatToString(n / 10) + [DigitChar(n % 10)]
  }

  /** The number a string of decimal digits denotes (`int(s)`). */
  function DecimalValue(s: string): nat
    requires forall i :: 0 <= i < |s| ==> '0' <= s[i] <= '9'
  {
    if s == [] then 0 else DecimalValue(s[..|s| - 1]) * 10 + (s[|s| - 1] as int - '0' as int)
  }

  /** `int(str(n)) == n`: the digits of `n` denote `n`. */
  lemma {:induction false} NatToStringValue(n: nat)
    ensures DecimalValue(NatToString(n)) == n
  {
    if n >= 10 {
      NatToStringValue(n / 10);
      var r := NatToString(n);
      assert r[..|r| - 1] == NatToString(n / 10);
    }
  }
}
