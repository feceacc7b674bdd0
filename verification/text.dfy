/** The Python string operations the recipe parser and the file step rely on:
    `str.isspace`, `str.lower`, `str.strip`, the substring test `sub in s`,
    `sep.join(lines)` and the slice `lines[:n]`. */
module Text {

  /** Python's `str.isspace()` for a single character: the ASCII controls
      TAB..CR, the separators 0x1C..0x1F, SPACE, NEL, NO-BREAK SPACE and the
      Unicode space separators. */
  predicate IsSpace(c: char)
    ensures c == ' ' || c == '\t' || c == '\n' || c == '\r' ==> IsSpace(c)
    ensures IsSpace(c) ==> !('0' <= c <= '9') && !('a' <= c <= 'z') && !('A' <= c <= 'Z')
  {
    var n := c as int;
    (0x09 <= n <= 0x0D) || (0x1C <= n <= 0x20) || n == 0x85 || n == 0xA0 || n == 0x1680
    || (0x2000 <= n <= 0x200A) || n == 0x2028 || n == 0x2029 || n == 0x202F
    || n == 0x205F || n == 0x3000
  }

  /** Lower-cases one ASCII letter; every other character is kept. */
  function LowerChar(c: char): char {
    if 'A' <= c <= 'Z' then (c as int + 32) as char else c
  }

  /** `s.lower()`, restricted to the ASCII letters. */
  function Lower(s: string): (r: string)
    ensures |r| == |s|
    ensures forall i | 0 <= i < |r| :: !('A' <= r[i] <= 'Z')
    ensures forall i | 0 <= i < |s| :: !('A' <= s[i] <= 'Z') ==> r[i] == s[i]
  {
    seq(|s|, i requires 0 <= i < |s| => LowerChar(s[i]))
  }

  /** Lower-casing twice is lower-casing once. */
  lemma LowerIdempotent(s: string)
    ensures Lower(Lower(s)) == Lower(s)
  {
  }

  /** `sub` occurs in `s` starting at index `i`. */
  predicate OccursAt(s: string, sub: string, i: nat) {
    i + |sub| <= |s| && s[i..i + |sub|] == sub
  }

  /** Python's `sub in s` for strings; the empty string occurs everywhere. */
  predicate Contains(s: string, sub: string)
    ensures Contains(s, sub) ==> |sub| <= |s|
    ensures sub == [] ==> Contains(s, sub)
  {
    assert sub == [] ==> OccursAt(s, sub, 0);
    exists i | 0 <= i <= |s| :: OccursAt(s, sub, i)
  }

  /** Occurrence is transitive: a string that contains `mid` contains
      everything `mid` contains. */
  lemma ContainsTransitive(s: string, mid: string, sub: string)
    requires Contains(s, mid) && Contains(mid, sub)
    ensures Contains(s, sub)
  {
    var i :| 0 <= i <= |s| && OccursAt(s, mid, i);
    var j :| 0 <= j <= |mid| && OccursAt(mid, sub, j);
    var found, inMid, window := s[i + j..i + j + |sub|], mid[j..j + |sub|], s[i..i + |mid|];
    forall k | 0 <= k < |sub| ensures found[k] == inMid[k] {
      assert window[j + k] == found[k];
    }
    assert found == inMid;
    assert OccursAt(s, sub, i + j);
  }

  /** A string contains each of its suffixes. */
  lemma ContainsSuffix(prefix: string, s: string)
    ensures Contains(prefix + s, s)
  {
    assert (prefix + s)[|prefix|..|prefix| + |s|] == s;
    assert OccursAt(prefix + s, s, |prefix|);
  }

  /** A string contains each of its prefixes. */
  lemma ContainsPrefix(s: string, suffix: string)
    ensures Contains(s + suffix, s)
  {
    assert (s + suffix)[0..|s|] == s;
    assert OccursAt(s + suffix, s, 0);
  }

  /** Case folding commutes with occurrence: whatever occurs in `s` occurs,
      lower-cased, in `Lower(s)`. */
  lemma ContainsLower(s: string, sub: string)
    requires Contains(s, sub)
    ensures Contains(Lower(s), Lower(sub))
  {
    var i :| 0 <= i <= |s| && OccursAt(s, sub, i);
    assert Lower(s)[i..i + |sub|] == Lower(sub);
    assert OccursAt(Lower(s), Lower(sub), i);
  }

  /** The index of the first non-space character at or after `from`, or
      `|s|` when there is none (see `SkipSpaceStopsAtText`). */
  function SkipSpace(s: string, from: nat): (i: nat)
    requires from <= |s|
    ensures from <= i <= |s|
    decreases |s| - from
  {
    if from < |s| && IsSpace(s[from]) then SkipSpace(s, from + 1) else from
  }

  /** `SkipSpace` passes over whitespace only and stops at the first
      character that is not whitespace. */
  lemma {:induction false} SkipSpaceStopsAtText(s: string, from: nat)
    requires from <= |s|
    ensures var i := SkipSpace(s, from);
      && (forall k | from <= k < i :: IsSpace(s[k]))
      && (i < |s| ==> !IsSpace(s[i]))
    decreases |s| - from
  {
    if from < |s| && IsSpace(s[from]) {
      SkipSpaceStopsAtText(s, from + 1);
    }
  }

  /** The index just after the last non-space character in `s[lo..upto]`,
      or `lo` when there is none (see `SkipSpaceBackStopsAtText`). */
  function SkipSpaceBack(s: string, lo: nat, upto: nat): (j: nat)
    requires lo <= upto <= |s|
    ensures lo <= j <= upto
    decreases upto
  {
    if upto > lo && IsSpace(s[upto - 1]) then SkipSpaceBack(s, lo, upto - 1) else upto
  }

  /** `SkipSpaceBack` passes backwards over whitespace only and stops just
      after a character that is not whitespace, or at `lo`. */
  lemma {:induction false} SkipSpaceBackStopsAtText(s: string, lo: nat, upto: nat)
    requires lo <= upto <= |s|
    ensures var j := SkipSpaceBack(s, lo, upto);
      && (forall k | j <= k < upto :: IsSpace(s[k]))
      && (j > lo ==> !IsSpace(s[j - 1]))
    decreases upto
  {
    if upto > lo && IsSpace(s[upto - 1]) {
      SkipSpaceBackStopsAtText(s, lo, upto - 1);
    }
  }

  /** `s.strip()`: leading and trailing whitespace removed. */
  function Strip(s: string): (r: string)
    ensures |r| <= |s|
  {
    var lo := SkipSpace(s, 0);
    s[lo..SkipSpaceBack(s, lo, |s|)]
  }

  /** What `strip` returns neither starts nor ends with whitespace. */
  lemma StripTrimsBothEnds(s: string)
    ensures var r := Strip(s);
      r != [] ==> !IsSpace(r[0]) && !IsSpace(r[|r| - 1])
  {
    var lo := SkipSpace(s, 0);
    var hi := SkipSpaceBack(s, lo, |s|);
    SkipSpaceStopsAtText(s, 0);
    SkipSpaceBackStopsAtText(s, lo, |s|);
    var r := s[lo..hi];
    if r != [] {
      assert r[0] == s[lo];
      assert r[|r| - 1] == s[hi - 1];
    }
  }

  /** `strip` removes whitespace at the two ends only: what it returns is
      the text between a whitespace prefix and a whitespace suffix. */
  lemma StripRemovesOnlyOuterSpace(s: string)
    ensures exists lo, hi | 0 <= lo <= hi <= |s| ::
      && Strip(s) == s[lo..hi]
      && (forall k | 0 <= k < lo :: IsSpace(s[k]))
      && (forall k | hi <= k < |s| :: IsSpace(s[k]))
  {
    var lo := SkipSpace(s, 0);
    var hi := SkipSpaceBack(s, lo, |s|);
    SkipSpaceStopsAtText(s, 0);
    SkipSpaceBackStopsAtText(s, lo, |s|);
    assert Strip(s) == s[lo..hi];
  }

  /** `strip` yields the empty string exactly for all-whitespace text. */
  lemma StripEmpty(s: string)
    ensures Strip(s) == "" <==> forall i | 0 <= i < |s| :: IsSpace(s[i])
  {
    var lo := SkipSpace(s, 0);
    var hi := SkipSpaceBack(s, lo, |s|);
    SkipSpaceStopsAtText(s, 0);
    SkipSpaceBackStopsAtText(s, lo, |s|);
    if hi == lo {
      assert lo == |s|;
    } else {
      assert !IsSpace(s[lo]);
    }
  }

  /** What `strip` keeps is a piece of the original text: it only removes
      characters at the two ends. */
  lemma StripKeepsMiddle(s: string)
    ensures Contains(s, Strip(s))
  {
    var lo := SkipSpace(s, 0);
    assert OccursAt(s, Strip(s), lo);
  }

  /** `sep.join(lines)`: the first line opens the text and the last line
      closes it; between two lines stands the separator. */
  function Join(lines: seq<string>, sep: string): (r: string)
    ensures lines != [] ==> |lines[0]| <= |r| && r[..|lines[0]|] == lines[0]
    ensures |lines| > 1 ==> |lines[0]| + |sep| <= |r| && r[|lines[0]|..|lines[0]| + |sep|] == sep
    ensures lines != [] ==> |lines[|lines| - 1]| <= |r| && r[|r| - |lines[|lines| - 1]|..] == lines[|lines| - 1]
  {
    if lines == [] then ""
    else if |lines| == 1 then lines[0]
    else
      var rest := Join(lines[1..], sep);
      assert lines[1..][|lines[1..]| - 1] == lines[|lines| - 1];
      lines[0] + sep + rest
  }

  /** The slice `s[:n]`, which keeps a shorter sequence whole. */
  function Take<T>(s: seq<T>, n: nat): (r: seq<T>)
    ensures |r| == if |s| <= n then |s| else n
    ensures r == s[..|r|]
  {
    if |s| <= n then s else s[..n]
  }
}
