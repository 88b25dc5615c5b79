/**
 * The handful of Python `str` operations the services rely on: `strip`,
 * `upper`/`lower`, `in`, `startswith`/`endswith`, `split(sep)[0]` and
 * `split(sep)[1]`, `sep.join(lines)` and `str(int)`.
 */
module Text {
  import opened Base

  /** Python's `str.isspace` for one character: the set `str.strip()` removes. */
  predicate IsSpace(c: char) {
    var n := c as int;
    (9 <= n <= 13) || (28 <= n <= 32) || n == 0x85 || n == 0xA0 || n == 0x1680
    || (0x2000 <= n <= 0x200A) || n == 0x2028 || n == 0x2029 || n == 0x202F
    || n == 0x205F || n == 0x3000
  }

  predicate NoSpace(w: string) {
    forall k :: 0 <= k < |w| ==> !IsSpace(w[k])
  }

  /** Number of whitespace characters at the start of `s`. */
  function LeadingSpace(s: string): (n: nat)
    ensures n <= |s|
    ensures forall k :: 0 <= k < n ==> IsSpace(s[k])
    ensures n < |s| ==> !IsSpace(s[n])
  {
    if |s| > 0 && IsSpace(s[0]) then 1 + LeadingSpace(s[1..]) else 0
  }

  /** Number of whitespace characters at the end of `s`. */
  function TrailingSpace(s: string): (n: nat)
    ensures n <= |s|
    ensures forall k :: |s| - n <= k < |s| ==> IsSpace(s[k])
    ensures n < |s| ==> !IsSpace(s[|s| - 1 - n])
  {
    if |s| > 0 && IsSpace(s[|s| - 1]) then 1 + TrailingSpace(s[..|s| - 1]) else 0
  }

  /** Index of the first character `strip()` keeps. */
  function StripStart(s: string): nat {
    LeadingSpace(s)
  }

  /** Index just past the last character `strip()` keeps. */
  function StripEnd(s: string): (hi: nat)
    ensures StripStart(s) <= hi <= |s|
  {
    |s| - TrailingSpace(s[LeadingSpace(s)..])
  }

  /** Python's `s.strip()`. */
  function Strip(s: string): string {
    s[StripStart(s)..StripEnd(s)]
  }

  /** Everything outside `StripStart(s)..StripEnd(s)` is whitespace, and the slice has none at its edges. */
  lemma StripIsSlice(s: string)
    ensures forall k :: 0 <= k < StripStart(s) ==> IsSpace(s[k])
    ensures forall k :: StripEnd(s) <= k < |s| ==> IsSpace(s[k])
    ensures StripStart(s) < StripEnd(s) ==> !IsSpace(s[StripStart(s)]) && !IsSpace(s[StripEnd(s) - 1])
  {
    var lo := LeadingSpace(s);
    var t := s[lo..];
    var n := TrailingSpace(t);
    forall k | StripEnd(s) <= k < |s| ensures IsSpace(s[k]) {
      assert s[k] == t[k - lo];
    }
    if lo < StripEnd(s) {
      assert t[|t| - 1 - n] == s[StripEnd(s) - 1];
    }
  }

  /** The result of `strip()` neither starts nor ends with whitespace. */
  lemma StripHasNoEdgeSpace(s: string)
    ensures var r := Strip(s); |r| == 0 || (!IsSpace(r[0]) && !IsSpace(r[|r| - 1]))
  {
    StripIsSlice(s);
  }

  /** `strip()` is the identity on a string with no whitespace at either end. */
  lemma StripNoOp(s: string)
    requires |s| == 0 || (!IsSpace(s[0]) && !IsSpace(s[|s| - 1]))
    ensures Strip(s) == s
  {
    assert LeadingSpace(s) == 0;
    assert s[0..] == s;
    assert TrailingSpace(s) == 0;
  }

  lemma StripIdempotent(s: string)
    ensures Strip(Strip(s)) == Strip(s)
  {
    StripHasNoEdgeSpace(s);
    StripNoOp(Strip(s));
  }

  // ----- ASCII case mapping -----

  function UpperChar(c: char): char {
    if 'a' <= c <= 'z' then (c as int - 32) as char else c
  }

  function LowerChar(c: char): char {
    if 'A' <= c <= 'Z' then (c as int + 32) as char else c
  }

  /** `s.upper()` on the ASCII letters. */
  function Upper(s: string): (r: string)
    ensures |r| == |s| && forall i :: 0 <= i < |s| ==> r[i] == UpperChar(s[i])
  {
    seq(|s|, i requires 0 <= i < |s| => UpperChar(s[i]))
  }

  /** `s.lower()` on the ASCII letters. */
  function Lower(s: string): (r: string)
    ensures |r| == |s| && forall i :: 0 <= i < |s| ==> r[i] == LowerChar(s[i])
  {
    seq(|s|, i requires 0 <= i < |s| => LowerChar(s[i]))
  }

  // ----- prefixes, suffixes and substrings -----

  predicate StartsWith(s: string, p: string) {
    |p| <= |s| && s[..|p|] == p
  }

  predicate EndsWith(s: string, p: string) {
    |p| <= |s| && s[|s| - |p|..] == p
  }

  /** `w` occurs in `s` starting at index `i`. */
  predicate OccursAt(s: string, w: string, i: nat) {
    i + |w| <= |s| && s[i..i + |w|] == w
  }

  /** Leftmost occurrence of `w` in `s` at or after `i` (`s.find(w, i)`). */
  function FindFrom(s: string, w: string, i: nat): (r: Option<nat>)
    ensures r.Some? ==> i <= r.value && OccursAt(s, w, r.value)
    ensures r.Some? ==> forall j :: i <= j < r.value ==> !OccursAt(s, w, j)
    ensures r.None? ==> forall j :: i <= j ==> !OccursAt(s, w, j)
    decreases |s| - i
  {
    if i + |w| > |s| then None
    else if s[i..i + |w|] == w then Some(i)
    else FindFrom(s, w, i + 1)
  }

  function Find(s: string, w: string): Option<nat> {
    FindFrom(s, w, 0)
  }

  /** Python's `w in s`. */
  predicate Contains(s: string, w: string) {
    Find(s, w).Some?
  }

  lemma OccursAtContains(s: string, w: string, i: nat)
    requires OccursAt(s, w, i)
    ensures Contains(s, w)
  {
  }

  /** An occurrence in `a` is still one after text is appended. */
  lemma ContainsExtendRight(a: string, b: string, w: string)
    requires Contains(a, w)
    ensures Contains(a + b, w)
  {
    var i := Find(a, w).value;
    assert (a + b)[i..i + |w|] == a[i..i + |w|];
    OccursAtContains(a + b, w, i);
  }

  /** An occurrence in `b` is still one after text is prepended. */
  lemma ContainsExtendLeft(a: string, b: string, w: string)
    requires Contains(b, w)
    ensures Contains(a + b, w)
  {
    var i := Find(b, w).value;
    assert (a + b)[|a| + i..|a| + i + |w|] == b[i..i + |w|];
    OccursAtContains(a + b, w, |a| + i);
  }

  /** `s.split(w)[0]`: the text before the first `w`, or all of `s`. */
  function Before(s: string, w: string): string {
    match Find(s, w)
    case None => s
    case Some(i) => s[..i]
  }

  /** `s.split(w)[1]`: the text between the first and the second `w`. */
  function After(s: string, w: string): string
    requires Contains(s, w)
  {
    var i := Find(s, w).value;
    Before(s[i + |w|..], w)
  }

  /** The text before the first `w` holds no `w`. */
  lemma BeforeHasNoOccurrence(s: string, w: string)
    requires |w| > 0
    ensures !Contains(Before(s, w), w)
  {
    match Find(s, w)
    case None =>
    case Some(i) =>
      var b := s[..i];
      forall j: nat | OccursAt(b, w, j) ensures false {
        assert b[j..j + |w|] == s[j..j + |w|];
        assert OccursAt(s, w, j);
      }
  }

  lemma BeforeIdempotent(s: string, w: string)
    requires |w| > 0
    ensures Before(Before(s, w), w) == Before(s, w)
  {
    BeforeHasNoOccurrence(s, w);
  }

  /** A concatenation starts with its left part and ends with its right part. */
  lemma ConcatEdges(a: string, b: string)
    ensures StartsWith(a + b, a) && EndsWith(a + b, b)
  {
    assert (a + b)[..|a|] == a;
    assert (a + b)[|a|..] == b;
  }

  lemma SliceOfSlice(s: string, lo: nat, hi: nat, i: nat, j: nat)
    requires lo <= hi <= |s| && i <= j <= hi - lo
    ensures s[lo..hi][i..j] == s[lo + i..lo + j]
  {
    var a, b := s[lo..hi][i..j], s[lo + i..lo + j];
    assert |a| == |b|;
    forall k | 0 <= k < |a| ensures a[k] == b[k] {
      assert a[k] == s[lo..hi][i + k];
    }
  }

  /** A substring with no whitespace is found in `strip(s)` iff it is found in `s`. */
  lemma ContainsStrip(s: string, w: string)
    requires |w| > 0 && NoSpace(w)
    ensures Contains(Strip(s), w) <==> Contains(s, w)
  {
    if Contains(s, w) {
      ContainsStripFromOriginal(s, w);
    }
    if Contains(Strip(s), w) {
      ContainsOriginalFromStrip(s, w);
    }
  }

  lemma ContainsOriginalFromStrip(s: string, w: string)
    requires Contains(Strip(s), w)
    ensures Contains(s, w)
  {
    var lo, hi := StripStart(s), StripEnd(s);
    var r := s[lo..hi];
    assert r == Strip(s);
    var i := Find(r, w).value;
    assert OccursAt(r, w, i);
    SliceOfSlice(s, lo, hi, i, i + |w|);
    assert OccursAt(s, w, lo + i);
  }

  lemma ContainsStripFromOriginal(s: string, w: string)
    requires |w| > 0 && NoSpace(w) && Contains(s, w)
    ensures Contains(Strip(s), w)
  {
    StripIsSlice(s);
    var lo, hi := StripStart(s), StripEnd(s);
    var i := Find(s, w).value;
    assert s[i..i + |w|] == w;
    assert !IsSpace(s[i]) by { assert s[i] == w[0]; }
    assert !IsSpace(s[i + |w| - 1]) by { assert s[i + |w| - 1] == w[|w| - 1]; }
    assert lo <= i;
    assert i + |w| <= hi;
    SliceOfSlice(s, lo, hi, i - lo, i - lo + |w|);
    assert OccursAt(Strip(s), w, i - lo);
  }

  /** A character that is not a letter is unchanged by `upper()`. */
  lemma ContainsUpper(s: string, w: string)
    requires forall k :: 0 <= k < |w| ==> UpperChar(w[k]) == w[k] && LowerChar(w[k]) == w[k]
    ensures Contains(Upper(s), w) ==> Contains(s, w)
  {
    if Contains(Upper(s), w) {
      var i := Find(Upper(s), w).value;
      forall k | 0 <= k < |w| ensures s[i + k] == w[k] {
        assert Upper(s)[i + k] == w[k];
      }
      assert s[i..i + |w|] == w;
      assert OccursAt(s, w, i);
    }
  }

  // ----- rendering -----

  function DigitChar(d: nat): char
    requires d < 10
  {
    "0123456789"[d]
  }

  /** Python's `str(n)` for a natural number. */
  function NatToString(n: nat): (s: string)
    ensures |s| > 0
    decreases n
  {
    if n < 10 then [DigitChar(n)] else NatToString(n / 10) + [DigitChar(n % 10)]
  }

  /** Python's `str(n)` for an integer. */
  function IntToString(n: int): string {
    if n < 0 then "-" + NatToString(-n) else NatToString(n)
  }

  /** Python's `sep.join(lines)`. */
  function Join(lines: seq<string>, sep: string): string
    decreases |lines|
  {
    if |lines| == 0 then ""
    else if |lines| == 1 then lines[0]
    else lines[0] + sep + Join(lines[1..], sep)
  }

  /** A join with a non-empty separator is empty only for no lines or one empty line. */
  lemma {:induction false} JoinEmpty(lines: seq<string>, sep: string)
    requires |sep| > 0
    ensures Join(lines, sep) == "" <==> lines == [] || lines == [""]
  {
    if |lines| >= 2 {
      assert |Join(lines, sep)| >= |sep|;
    }
  }
}
