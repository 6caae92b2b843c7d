/**
 * Shared value types and the few Python string operations the backend
 * relies on (strip, split, join, lower, slicing with clamping, str(int)).
 * Each operation is stated over `string` = `seq<char>`.
 */
module Lib {

  datatype Option<T> = None | Some(value: T)

  datatype Result<T, E> = Ok(value: T) | Err(error: E)

  /** Python's `str.isspace` for a single character. */
  predicate IsSpace(c: char) {
    c == ' ' || ('\t' <= c <= '\r') || ('\U{1c}' <= c <= '\U{1f}')
    || c == '\U{85}' || c == '\U{a0}' || c == '\U{1680}'
    || ('\U{2000}' <= c <= '\U{200a}') || c == '\U{2028}' || c == '\U{2029}'
    || c == '\U{202f}' || c == '\U{205f}' || c == '\U{3000}'
  }

  predicate AllSpace(s: string) {
    forall i :: 0 <= i < |s| ==> IsSpace(s[i])
  }

  /** First index at or after `i` (and before `hi`) that is not whitespace, else `hi`. */
  function SkipSpace(s: string, i: nat, hi: nat): (j: nat)
    requires i <= hi <= |s|
    ensures i <= j <= hi && (j == hi || !IsSpace(s[j]))
    decreases hi - i
  {
    if i < hi && IsSpace(s[i]) then SkipSpace(s, i + 1, hi) else i
  }

  /** Everything SkipSpace passes over is whitespace. */
  lemma {:induction false} SkipSpaceSkipsSpace(s: string, i: nat, hi: nat)
    requires i <= hi <= |s|
    ensures forall k :: i <= k < SkipSpace(s, i, hi) ==> IsSpace(s[k])
    decreases hi - i
  {
    if i < hi && IsSpace(s[i]) {
      SkipSpaceSkipsSpace(s, i + 1, hi);
    }
  }

  /** Going back from `j`, the start of the whitespace run ending there (not below `lo`). */
  function SkipSpaceBack(s: string, lo: nat, j: nat): (i: nat)
    requires lo <= j <= |s|
    ensures lo <= i <= j && (i == lo || !IsSpace(s[i - 1]))
    decreases j
  {
    if j > lo && IsSpace(s[j - 1]) then SkipSpaceBack(s, lo, j - 1) else j
  }

  /** Everything SkipSpaceBack passes over is whitespace. */
  lemma {:induction false} SkipSpaceBackSkipsSpace(s: string, lo: nat, j: nat)
    requires lo <= j <= |s|
    ensures forall k :: SkipSpaceBack(s, lo, j) <= k < j ==> IsSpace(s[k])
    decreases j
  {
    if j > lo && IsSpace(s[j - 1]) {
      SkipSpaceBackSkipsSpace(s, lo, j - 1);
    }
  }

  /** Index where `s.strip()` starts inside `s`. */
  function StripStart(s: string): nat
    ensures StripStart(s) <= |s|
  {
    SkipSpace(s, 0, |s|)
  }

  /** Index where `s.strip()` ends inside `s`. */
  function StripEnd(s: string): nat
    ensures StripStart(s) <= StripEnd(s) <= |s|
  {
    SkipSpaceBack(s, StripStart(s), |s|)
  }

  /** `s.lstrip()` */
  function TrimLeft(s: string): string {
    s[StripStart(s)..]
  }

  /** `s.strip()`: `s.lstrip()` with trailing whitespace removed as well. */
  function Strip(s: string): string {
    s[StripStart(s)..StripEnd(s)]
  }

  /**
   * What strip() promises: the result is a contiguous slice of the input,
   * it neither starts nor ends with whitespace, and everything cut away
   * is whitespace.
   */
  lemma StripIsTrimmedSlice(s: string)
    ensures AllSpace(s[..StripStart(s)]) && AllSpace(s[StripEnd(s)..])
    ensures Strip(s) == [] || (!IsSpace(Strip(s)[0]) && !IsSpace(Strip(s)[|Strip(s)| - 1]))
  {
    var i, j := StripStart(s), StripEnd(s);
    SkipSpaceSkipsSpace(s, 0, |s|);
    SkipSpaceBackSkipsSpace(s, i, |s|);
    forall k | 0 <= k < |s[j..]| ensures IsSpace(s[j..][k]) {
      assert s[j..][k] == s[j + k];
    }
    if Strip(s) != [] {
      assert Strip(s)[0] == s[i];
      assert Strip(s)[|Strip(s)| - 1] == s[j - 1];
    }
  }

  /** A string strips to "" exactly when it is all whitespace. */
  lemma StripEmptyIffAllSpace(s: string)
    ensures Strip(s) == [] <==> AllSpace(s)
  {
    var i, j := StripStart(s), StripEnd(s);
    SkipSpaceSkipsSpace(s, 0, |s|);
    SkipSpaceBackSkipsSpace(s, i, |s|);
    if Strip(s) != [] {
      assert s[i] == Strip(s)[0];
      assert !IsSpace(s[i]);
    } else {
      assert i == j;
    }
  }

  /** `s[lo:hi].strip()` read off `s` itself: the range without its leading and trailing whitespace. */
  function StripRange(s: string, lo: nat, hi: nat): string
    requires lo <= hi <= |s|
  {
    s[SkipSpace(s, lo, hi)..SkipSpaceBack(s, SkipSpace(s, lo, hi), hi)]
  }

  lemma {:induction false} SkipSpaceOfSlice(s: string, lo: nat, hi: nat, i: nat)
    requires lo <= i <= hi <= |s|
    ensures SkipSpace(s[lo..hi], i - lo, hi - lo) + lo == SkipSpace(s, i, hi)
    decreases hi - i
  {
    if i < hi {
      assert s[lo..hi][i - lo] == s[i];
      if IsSpace(s[i]) {
        SkipSpaceOfSlice(s, lo, hi, i + 1);
      }
    }
  }

  lemma {:induction false} SkipSpaceBackOfSlice(s: string, lo: nat, hi: nat, a: nat, j: nat)
    requires lo <= a <= j <= hi <= |s|
    ensures SkipSpaceBack(s[lo..hi], a - lo, j - lo) + lo == SkipSpaceBack(s, a, j)
    decreases j
  {
    if j > a {
      assert s[lo..hi][j - lo - 1] == s[j - 1];
      if IsSpace(s[j - 1]) {
        SkipSpaceBackOfSlice(s, lo, hi, a, j - 1);
      }
    }
  }

  /** StripRange is strip() of the slice. */
  lemma StripRangeIsStrip(s: string, lo: nat, hi: nat)
    requires lo <= hi <= |s|
    ensures StripRange(s, lo, hi) == Strip(s[lo..hi])
  {
    StripBoundsOfSlice(s, lo, hi);
    var a := SkipSpace(s, lo, hi);
    SliceOfSlice(s, lo, hi, a - lo, SkipSpaceBack(s, a, hi) - lo);
  }

  /** Where strip() of a slice starts and ends, in the positions of the whole string. */
  lemma StripBoundsOfSlice(s: string, lo: nat, hi: nat)
    requires lo <= hi <= |s|
    ensures StripStart(s[lo..hi]) + lo == SkipSpace(s, lo, hi)
    ensures StripEnd(s[lo..hi]) + lo == SkipSpaceBack(s, SkipSpace(s, lo, hi), hi)
  {
    StripStartOfSlice(s, lo, hi);
    var t := s[lo..hi];
    var x := StripStart(t);
    assert StripEnd(t) == SkipSpaceBack(t, x, hi - lo);
    StripEndOfSlice(s, lo, hi, x);
  }

  lemma StripStartOfSlice(s: string, lo: nat, hi: nat)
    requires lo <= hi <= |s|
    ensures StripStart(s[lo..hi]) + lo == SkipSpace(s, lo, hi)
  {
    var t := s[lo..hi];
    assert |t| == hi - lo && lo - lo == 0;
    SkipSpaceOfSlice(s, lo, hi, lo);
  }

  lemma StripEndOfSlice(s: string, lo: nat, hi: nat, x: nat)
    requires lo <= hi <= |s| && x <= hi - lo
    ensures SkipSpaceBack(s[lo..hi], x, hi - lo) + lo == SkipSpaceBack(s, x + lo, hi)
  {
    assert x + lo - lo == x;
    SkipSpaceBackOfSlice(s, lo, hi, x + lo, hi);
  }

  lemma SliceOfSlice<T>(s: seq<T>, lo: nat, hi: nat, x: nat, y: nat)
    requires lo <= hi <= |s| && x <= y <= hi - lo
    ensures s[lo..hi][x..y] == s[lo + x..lo + y]
  {
    forall i | 0 <= i < y - x ensures s[lo..hi][x..y][i] == s[lo + x..lo + y][i] {
      assert s[lo..hi][x..y][i] == s[lo..hi][x + i] == s[lo + x + i];
    }
  }

  /** Position of the first `c` in `s`. */
  function IndexOf(s: string, c: char): (k: nat)
    requires c in s
    ensures k < |s| && s[k] == c && c !in s[..k]
  {
    if s[0] == c then 0 else 1 + IndexOf(s[1..], c)
  }

  /** Position of the last `c` in `s`. */
  function LastIndexOf(s: string, c: char): (k: nat)
    requires c in s
    ensures k < |s| && s[k] == c && c !in s[k + 1..]
  {
    if s[|s| - 1] == c then |s| - 1
    else
      assert c in s[..|s| - 1] by {
        var i :| 0 <= i < |s| && s[i] == c;
        assert s[..|s| - 1][i] == c;
      }
      LastIndexOf(s[..|s| - 1], c)
  }

  /** `sep.join(parts)` */
  function Join(sep: string, parts: seq<string>): string {
    if |parts| == 0 then ""
    else if |parts| == 1 then parts[0]
    else parts[0] + sep + Join(sep, parts[1..])
  }

  /** `s.split(c)` for a one-character separator (never empty: "" splits to [""]). */
  function SplitOn(s: string, c: char): (r: seq<string>)
    ensures |r| >= 1
    ensures forall i :: 0 <= i < |r| ==> c !in r[i]
    decreases |s|
  {
    if c in s then
      var k := IndexOf(s, c);
      [s[..k]] + SplitOn(s[k + 1..], c)
    else [s]
  }

  /** Splitting on a character and joining on it again gives back the input. */
  lemma {:induction false} JoinSplitOn(s: string, c: char)
    ensures Join([c], SplitOn(s, c)) == s
    decreases |s|
  {
    if c in s {
      var k := IndexOf(s, c);
      var rest := s[k + 1..];
      JoinSplitOn(rest, c);
      assert SplitOn(s, c)[1..] == SplitOn(rest, c);
      assert s == s[..k] + [c] + rest;
    }
  }

  /** Longest prefix of `s` without whitespace. */
  function TakeWord(s: string): (w: string)
    ensures w <= s
    ensures forall i :: 0 <= i < |w| ==> !IsSpace(w[i])
    ensures |w| == |s| || IsSpace(s[|w|])
  {
    if |s| == 0 || IsSpace(s[0]) then [] else [s[0]] + TakeWord(s[1..])
  }

  /** `s.split()` with no argument: the maximal runs of non-whitespace. */
  function Words(s: string): (r: seq<string>)
    ensures forall i :: 0 <= i < |r| ==> |r[i]| > 0 && forall j :: 0 <= j < |r[i]| ==> !IsSpace(r[i][j])
    decreases |s|
  {
    var t := TrimLeft(s);
    if |t| == 0 then []
    else
      var w := TakeWord(t);
      [w] + Words(t[|w|..])
  }

  /** `gaps[0] + words[0] + gaps[1] + ... + words[n-1] + gaps[n]` */
  function Interleave(gaps: seq<string>, words: seq<string>): string
    requires |gaps| == |words| + 1
    decreases |words|
  {
    if words == [] then gaps[0] else gaps[0] + words[0] + Interleave(gaps[1..], words[1..])
  }

  /** The whitespace runs before, between and after the words of `s`. */
  function Gaps(s: string): (g: seq<string>)
    ensures |g| == |Words(s)| + 1
    decreases |s|
  {
    var t := TrimLeft(s);
    if |t| == 0 then [s]
    else
      var w := TakeWord(t);
      [s[..StripStart(s)]] + Gaps(t[|w|..])
  }

  lemma SplitThree<T>(s: seq<T>, k: nat, a: seq<T>, b: seq<T>)
    requires k <= |s| && s[k..] == a + b
    ensures s == s[..k] + a + b
  {
    assert s == s[..k] + s[k..];
  }

  lemma InterleaveCons(gap: string, word: string, gaps: seq<string>, words: seq<string>)
    requires |gaps| == |words| + 1
    ensures Interleave([gap] + gaps, [word] + words) == gap + word + Interleave(gaps, words)
  {
    assert ([gap] + gaps)[1..] == gaps;
    assert ([word] + words)[1..] == words;
  }

  /** `s` is its words with the gaps between them. */
  lemma {:induction false} WordsJoin(s: string)
    ensures s == Interleave(Gaps(s), Words(s))
    decreases |s|
  {
    var k := StripStart(s);
    var t := TrimLeft(s);
    if |t| == 0 {
      assert Words(s) == [] && Gaps(s) == [s];
    } else {
      var w := TakeWord(t);
      var rest := t[|w|..];
      assert Words(s) == [w] + Words(rest);
      assert Gaps(s) == [s[..k]] + Gaps(rest);
      WordsJoin(rest);
      assert t == w + rest;
      SplitThree(s, k, w, rest);
      InterleaveCons(s[..k], w, Gaps(rest), Words(rest));
    }
  }

  lemma ConsAllSpace(gap: string, gaps: seq<string>)
    requires AllSpace(gap)
    requires forall i :: 0 <= i < |gaps| ==> AllSpace(gaps[i])
    ensures forall i :: 0 <= i < |[gap] + gaps| ==> AllSpace(([gap] + gaps)[i])
  {
  }

  /** Every gap is whitespace. */
  lemma {:induction false} GapsAreSpace(s: string)
    ensures forall i :: 0 <= i < |Gaps(s)| ==> AllSpace(Gaps(s)[i])
    decreases |s|
  {
    var k := StripStart(s);
    var t := TrimLeft(s);
    SkipSpaceSkipsSpace(s, 0, |s|);
    if |t| == 0 {
      assert Gaps(s) == [s];
    } else {
      var w := TakeWord(t);
      var rest := t[|w|..];
      GapsAreSpace(rest);
      assert AllSpace(s[..k]);
      ConsAllSpace(s[..k], Gaps(rest));
    }
  }

  /** A gap between two words is never empty. */
  lemma {:induction false} InnerGapsNonEmpty(s: string)
    ensures forall i :: 0 < i < |Gaps(s)| - 1 ==> Gaps(s)[i] != []
    decreases |s|
  {
    var t := TrimLeft(s);
    if |t| > 0 {
      var w := TakeWord(t);
      var rest := t[|w|..];
      InnerGapsNonEmpty(rest);
      var g := Gaps(s);
      assert g[1..] == Gaps(rest);
      if |Words(rest)| > 0 {
        assert |TrimLeft(rest)| > 0;
        assert IsSpace(rest[0]);
        assert StripStart(rest) > 0;
        assert Gaps(rest)[0] != [];
      }
    }
  }

  /**
   * `s.split()` drops only whitespace: `s` is its words with whitespace
   * runs around them, and the run between two words is never empty. So the
   * words are exactly the maximal runs without whitespace, in order.
   */
  lemma WordsCover(s: string)
    ensures var g := Gaps(s);
      s == Interleave(g, Words(s)) &&
      (forall i :: 0 <= i < |g| ==> AllSpace(g[i])) &&
      (forall i :: 0 < i < |g| - 1 ==> g[i] != [])
  {
    WordsJoin(s);
    GapsAreSpace(s);
    InnerGapsNonEmpty(s);
  }

  /** The Vietnamese and other letter pairs of Latin Extended Additional
   *  (U+1E00 to U+1E95 and U+1EA0 to U+1EFF): capital even, small odd. */
  predicate ExtendedPair(c: char) {
    ('\U{1e00}' <= c <= '\U{1e95}') || ('\U{1ea0}' <= c <= '\U{1eff}')
  }

  /** Python's `str.lower()` on the characters this system meets:
   *  ASCII, Latin-1 and the Vietnamese letters. */
  function Lower(c: char): (r: char)
    ensures 'A' <= c <= 'Z' ==> r as int == c as int + 32
    ensures 'a' <= c <= 'z' ==> r == c
    ensures '\U{c0}' <= c <= '\U{de}' && c != '\U{d7}' ==> r as int == c as int + 32
    ensures c == '\U{102}' || c == '\U{110}' || c == '\U{128}' || c == '\U{168}' || c == '\U{1a0}' || c == '\U{1af}' ==>
      r as int == c as int + 1
    ensures ExtendedPair(c) && (c as int) % 2 == 0 ==> r as int == c as int + 1
    ensures ExtendedPair(c) && (c as int) % 2 == 1 ==> r == c
  {
    if 'A' <= c <= 'Z' then (c as int + 32) as char
    else if c < '\U{c0}' then c
    else LowerBeyondAscii(c)
  }

  /** Lower on the letters past ASCII. */
  function LowerBeyondAscii(c: char): char {
    if '\U{c0}' <= c <= '\U{de}' && c != '\U{d7}' then (c as int + 32) as char
    else if c == '\U{102}' || c == '\U{110}' || c == '\U{128}' || c == '\U{168}'
            || c == '\U{1a0}' || c == '\U{1af}'
    then (c as int + 1) as char
    else if ExtendedPair(c) && (c as int) % 2 == 0 then (c as int + 1) as char
    else c
  }

  /** `s.lower()`, character by character. */
  function LowerStr(s: string): (r: string)
    ensures |r| == |s|
  {
    if s == [] then [] else [Lower(s[0])] + LowerStr(s[1..])
  }

  /** Each character of `s.lower()` is its character of `s` lowered. */
  lemma {:induction false} LowerStrAt(s: string, i: nat)
    requires i < |s|
    ensures LowerStr(s)[i] == Lower(s[i])
  {
    if i > 0 {
      LowerStrAt(s[1..], i - 1);
    }
  }

  /** Python's `str.upper()` on the same characters as Lower, and the
   *  dotless i, whose upper case is the ASCII capital I. */
  function Upper(c: char): (r: char)
    ensures 'a' <= c <= 'z' ==> r as int == c as int - 32
    ensures 'A' <= c <= 'Z' ==> r == c
    ensures c == '\U{131}' ==> r == 'I'
    ensures '\U{e0}' <= c <= '\U{fe}' && c != '\U{f7}' ==> r as int == c as int - 32
    ensures c == '\U{103}' || c == '\U{111}' || c == '\U{129}' || c == '\U{169}' || c == '\U{1a1}' || c == '\U{1b0}' ==>
      r as int == c as int - 1
    ensures ExtendedPair(c) && (c as int) % 2 == 1 ==> r as int == c as int - 1
    ensures ExtendedPair(c) && (c as int) % 2 == 0 ==> r == c
  {
    if 'a' <= c <= 'z' then (c as int - 32) as char
    else if c < '\U{e0}' then c
    else UpperBeyondAscii(c)
  }

  /** Upper on the letters past ASCII. */
  function UpperBeyondAscii(c: char): char {
    if '\U{e0}' <= c <= '\U{fe}' && c != '\U{f7}' then (c as int - 32) as char
    else if c == '\U{103}' || c == '\U{111}' || c == '\U{129}' || c == '\U{169}'
            || c == '\U{1a1}' || c == '\U{1b0}'
    then (c as int - 1) as char
    else if c == '\U{131}' then 'I'
    else if ExtendedPair(c) && (c as int) % 2 == 1 then (c as int - 1) as char
    else c
  }

  /** Upper and Lower undo each other on every letter they change, the
   *  dotless i (whose capital lowers to a dotted i) aside. */
  lemma CaseInverse(c: char)
    ensures Upper(c) != c && c != '\U{131}' ==> Lower(Upper(c)) == c
    ensures Lower(c) != c ==> Upper(Lower(c)) == c
  {
    if 'a' <= c <= 'z' || 'A' <= c <= 'Z' {
    } else if c < '\U{c0}' {
    } else {
      assert Upper(c) == UpperBeyondAscii(c) && Lower(c) == LowerBeyondAscii(c);
    }
  }

  /** `s.upper()`, character by character. */
  function UpperStr(s: string): (r: string)
    ensures |r| == |s|
  {
    if s == [] then [] else [Upper(s[0])] + UpperStr(s[1..])
  }

  /** A string whose every character is its own upper case is its own upper case. */
  lemma {:induction false} UpperStrKeeps(s: string)
    requires forall i :: 0 <= i < |s| ==> Upper(s[i]) == s[i]
    ensures UpperStr(s) == s
  {
    if s != [] {
      UpperStrKeeps(s[1..]);
    }
  }

  /** Upper-casing a lowered string gives it back when every character survives the round trip. */
  lemma {:induction false} UpperLowerStr(s: string)
    requires forall i :: 0 <= i < |s| ==> Upper(Lower(s[i])) == s[i]
    ensures UpperStr(LowerStr(s)) == s
  {
    if s != [] {
      assert Upper(Lower(s[0])) == s[0];
      UpperLowerStr(s[1..]);
    }
  }

  /** Capital letters and underscores survive lowering and upper-casing. */
  lemma UpperLowerCaps(s: string)
    requires forall i :: 0 <= i < |s| ==> 'A' <= s[i] <= 'Z' || s[i] == '_'
    ensures UpperStr(LowerStr(s)) == s
  {
    forall i | 0 <= i < |s|
      ensures Upper(Lower(s[i])) == s[i]
    {
    }
    UpperLowerStr(s);
  }

  /** Python's `a <= b` on strings: lexicographic by code point, a prefix first. */
  predicate StrLe(a: string, b: string)
    decreases |a|
  {
    if a == [] then true
    else if b == [] then false
    else if a[0] != b[0] then a[0] < b[0]
    else StrLe(a[1..], b[1..])
  }

  lemma {:induction false} StrLeTotal(a: string, b: string)
    ensures StrLe(a, b) || StrLe(b, a)
    decreases |a|
  {
    if a != [] && b != [] && a[0] == b[0] {
      StrLeTotal(a[1..], b[1..]);
    }
  }

  lemma {:induction false} StrLeTrans(a: string, b: string, c: string)
    requires StrLe(a, b) && StrLe(b, c)
    ensures StrLe(a, c)
    decreases |a|
  {
    if a != [] && b != [] && c != [] && a[0] == b[0] && b[0] == c[0] {
      StrLeTrans(a[1..], b[1..], c[1..]);
    }
  }

  /** `sub in s` for strings. */
  predicate Contains(s: string, sub: string)
    decreases |s|
  {
    sub <= s || (|s| > 0 && Contains(s[1..], sub))
  }

  predicate EndsWith(s: string, suffix: string) {
    |suffix| <= |s| && s[|s| - |suffix|..] == suffix
  }

  /** `s[:n]` for a non-negative bound. */
  function Take<T>(s: seq<T>, n: nat): (r: seq<T>)
    ensures |r| == if n < |s| then n else |s|
    ensures r <= s
  {
    if n < |s| then s[..n] else s
  }

  /** `s[i:j]` with Python's clamping, for non-negative bounds. */
  function Slice<T>(s: seq<T>, i: nat, j: nat): (r: seq<T>)
    ensures |r| == if i < j && i < |s| then (if j < |s| then j else |s|) - i else 0
  {
    var hi := if j < |s| then j else |s|;
    if i < hi then s[i..hi] else []
  }

  /** `[xs[i:i + size] for i in range(0, len(xs), size)]`: consecutive non-empty slices of `size`, the last one shorter. */
  function Batches<T>(xs: seq<T>, size: nat): (bs: seq<seq<T>>)
    requires size > 0
    ensures forall i :: 0 <= i < |bs| ==> 0 < |bs[i]| <= size
    ensures forall i :: 0 <= i < |bs| - 1 ==> |bs[i]| == size
    ensures |xs| > 0 <==> |bs| > 0
    decreases |xs|
  {
    if |xs| == 0 then []
    else if |xs| <= size then [xs]
    else [xs[..size]] + Batches(xs[size..], size)
  }

  /** The concatenation of a list of lists (`extend` in a loop). */
  function Flatten<T>(xss: seq<seq<T>>): seq<T> {
    if xss == [] then [] else xss[0] + Flatten(xss[1..])
  }

  lemma {:induction false} FlattenAppend<T>(xss: seq<seq<T>>, yss: seq<seq<T>>)
    ensures Flatten(xss + yss) == Flatten(xss) + Flatten(yss)
  {
    if xss == [] {
      assert xss + yss == yss;
    } else {
      assert (xss + yss)[1..] == xss[1..] + yss;
      FlattenAppend(xss[1..], yss);
    }
  }

  /** `[f(x) for x in xs]`. */
  function MapSeq<T, U>(f: T -> U, xs: seq<T>): (ys: seq<U>)
    ensures |ys| == |xs|
    ensures forall i :: 0 <= i < |xs| ==> ys[i] == f(xs[i])
  {
    if xs == [] then [] else [f(xs[0])] + MapSeq(f, xs[1..])
  }

  lemma MapSeqAppend<T, U>(f: T -> U, xs: seq<T>, x: T)
    ensures MapSeq(f, xs + [x]) == MapSeq(f, xs) + [f(x)]
  {
  }

  lemma MapSeqConcat<T, U>(f: T -> U, xs: seq<T>, ys: seq<T>)
    ensures MapSeq(f, xs + ys) == MapSeq(f, xs) + MapSeq(f, ys)
  {
  }

  /** `for x in xs: out.extend(f(x))`. */
  function ConcatMap<T, U>(f: T -> seq<U>, xs: seq<T>): seq<U> {
    if xs == [] then [] else f(xs[0]) + ConcatMap(f, xs[1..])
  }

  lemma {:induction false} ConcatMapAppend<T, U>(f: T -> seq<U>, xs: seq<T>, x: T)
    ensures ConcatMap(f, xs + [x]) == ConcatMap(f, xs) + f(x)
  {
    if xs == [] {
      assert [x][1..] == [];
      assert f(x) + [] == f(x);
    } else {
      assert (xs + [x])[0] == xs[0];
      assert (xs + [x])[1..] == xs[1..] + [x];
      ConcatMapAppend(f, xs[1..], x);
    }
  }

  /** When `f` keeps the length of every list, extending by `f` keeps the total length. */
  lemma {:induction false} ConcatMapLength<T, U>(f: seq<T> -> seq<U>, xss: seq<seq<T>>)
    requires forall i :: 0 <= i < |xss| ==> |f(xss[i])| == |xss[i]|
    ensures |ConcatMap(f, xss)| == |Flatten(xss)|
  {
    if xss != [] {
      assert |f(xss[0])| == |xss[0]|;
      ConcatMapLength(f, xss[1..]);
    }
  }

  /** Batching loses, duplicates and reorders nothing. */
  lemma {:induction false} FlattenBatches<T>(xs: seq<T>, size: nat)
    requires size > 0
    ensures Flatten(Batches(xs, size)) == xs
    decreases |xs|
  {
    if |xs| > size {
      FlattenBatches(xs[size..], size);
      assert [xs[..size]] + Batches(xs[size..], size) == Batches(xs, size);
      assert xs[..size] + xs[size..] == xs;
    } else if |xs| > 0 {
      assert Flatten(Batches(xs, size)) == xs + Flatten([]);
    }
  }

  /** The batches from offset `i` on: the slice `xs[i:i + size]`, then the batches after it. */
  lemma BatchesFrom<T>(xs: seq<T>, size: nat, i: nat)
    requires size > 0 && i < |xs|
    ensures Batches(xs[i..], size) == [xs[i..Min(i + size, |xs|)]] + Batches(xs[Min(i + size, |xs|)..], size)
  {
    if |xs| - i > size {
      assert xs[i..][..size] == xs[i..i + size];
      assert xs[i..][size..] == xs[i + size..];
    } else {
      assert Min(i + size, |xs|) == |xs|;
      assert xs[i..|xs|] == xs[i..];
      assert xs[|xs|..] == [];
    }
  }

  /** One more batch cut off the front of what remains. */
  lemma BatchesStep<T>(xs: seq<T>, size: nat, i: nat, done: seq<seq<T>>)
    requires size > 0 && i < |xs|
    requires Batches(xs, size) == done + Batches(xs[i..], size)
    ensures Batches(xs, size) == (done + [xs[i..Min(i + size, |xs|)]]) + Batches(xs[Min(i + size, |xs|)..], size)
  {
    BatchesFrom(xs, size, i);
  }

  function Min(a: int, b: int): (m: int)
    ensures m <= a && m <= b && (m == a || m == b)
  {
    if a <= b then a else b
  }

  function Max(a: int, b: int): (m: int)
    ensures m >= a && m >= b && (m == a || m == b)
  {
    if a >= b then a else b
  }

  function Sum(xs: seq<int>): int {
    if xs == [] then 0 else xs[0] + Sum(xs[1..])
  }

  lemma {:induction false} SumAppend(xs: seq<int>, ys: seq<int>)
    ensures Sum(xs + ys) == Sum(xs) + Sum(ys)
  {
    if xs != [] {
      assert (xs + ys)[0] == xs[0];
      assert (xs + ys)[1..] == xs[1..] + ys;
      SumAppend(xs[1..], ys);
    } else {
      assert xs + ys == ys;
    }
  }

  function DigitChar(d: nat): (c: char)
    requires d < 10
    ensures '0' <= c <= '9'
  {
    ('0' as int + d) as char
  }

  function DigitValue(c: char): nat
    requires '0' <= c <= '9'
  {
    (c as int - '0' as int)
  }

  /** Python `str(n)` for a natural number. */
  function NatToString(n: nat): (r: string)
    ensures |r| >= 1 && forall i :: 0 <= i < |r| ==> '0' <= r[i] <= '9'
  {
    if n < 10 then [DigitChar(n)] else NatToString(n / 10) + [DigitChar(n % 10)]
  }

  /** Reading decimal digits back; the partner of NatToString. */
  function ParseDigits(s: string): nat
    requires forall i :: 0 <= i < |s| ==> '0' <= s[i] <= '9'
  {
    if s == [] then 0 else 10 * ParseDigits(s[..|s| - 1]) + DigitValue(s[|s| - 1])
  }

  lemma {:induction false} ParseNatToString(n: nat)
    ensures ParseDigits(NatToString(n)) == n
  {
    var r := NatToString(n);
    if n < 10 {
      assert r[..|r| - 1] == [];
      assert ParseDigits(r) == 10 * ParseDigits([]) + DigitValue(r[0]);
    } else {
      assert r[..|r| - 1] == NatToString(n / 10);
      ParseNatToString(n / 10);
    }
  }

  /** Python `str(i)` for any integer. */
  function IntToString(i: int): (r: string)
    ensures |r| >= 1
  {
    if i < 0 then "-" + NatToString(-i) else NatToString(i)
  }

  /** `str(n)` for naturals is injective: ParseDigits reads the number back. */
  lemma NatToStringInjective(a: nat, b: nat)
    ensures NatToString(a) == NatToString(b) ==> a == b
  {
    ParseNatToString(a);
    ParseNatToString(b);
  }

  /** `str(i)` is injective, so distinct numbers render distinctly. */
  lemma IntToStringInjective(a: int, b: int)
    ensures a != b ==> IntToString(a) != IntToString(b)
  {
    if a < 0 && b < 0 {
      NatToStringInjective(-a, -b);
      if IntToString(a) == IntToString(b) {
        assert NatToString(-a) == IntToString(a)[1..];
        assert NatToString(-b) == IntToString(b)[1..];
      }
    } else if a >= 0 && b >= 0 {
      NatToStringInjective(a, b);
    } else if a < 0 {
      assert IntToString(a)[0] == '-';
      assert '0' <= IntToString(b)[0] <= '9';
    } else {
      assert IntToString(b)[0] == '-';
      assert '0' <= IntToString(a)[0] <= '9';
    }
  }

  predicate AllDigits(s: string) {
    forall i :: 0 <= i < |s| ==> '0' <= s[i] <= '9'
  }

  /**
   * Python `int(s)` on a decimal literal: an optional sign and at least one
   * digit; anything else is a ValueError (None).
   */
  function ParseInt(s: string): Option<int> {
    if |s| > 1 && (s[0] == '-' || s[0] == '+') && AllDigits(s[1..]) then
      var magnitude: int := ParseDigits(s[1..]);
      Some(if s[0] == '-' then -magnitude else magnitude)
    else if |s| > 0 && AllDigits(s) then Some(ParseDigits(s))
    else None
  }

  /** `int(str(i)) == i` */
  lemma ParseIntToString(i: int)
    ensures ParseInt(IntToString(i)) == Some(i)
  {
    if i < 0 {
      ParseIntNegative(-i);
    } else {
      ParseIntNatural(i);
    }
  }

  lemma ParseIntNatural(n: nat)
    ensures ParseInt(NatToString(n)) == Some(n)
  {
    var r := NatToString(n);
    assert r[0] != '-' && r[0] != '+';
    ParseNatToString(n);
  }

  lemma ParseIntNegative(n: nat)
    requires n > 0
    ensures ParseInt("-" + NatToString(n)) == Some(-(n as int))
  {
    var r := "-" + NatToString(n);
    assert r[1..] == NatToString(n);
    ParseNatToString(n);
  }

  /** A decoded JSON value (`json.loads` result). */
  /** An HTTPException of the web framework: status code, detail text and extra headers. */
  datatype HttpError = HttpError(status: int, detail: string, headers: map<string, string>)

  datatype Json =
    | JNull
    | JBool(b: bool)
    | JNum(n: int)
    | JStr(s: string)
    | JArr(items: seq<Json>)
    | JObj(fields: map<string, Json>)

  /** Python truthiness of a decoded JSON value. */
  predicate Truthy(j: Json) {
    match j
    case JNull => false
    case JBool(b) => b
    case JNum(n) => n != 0
    case JStr(s) => s != ""
    case JArr(items) => |items| > 0
    case JObj(fields) => |fields| > 0
  }
}
