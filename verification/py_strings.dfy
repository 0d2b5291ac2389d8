/**
 * The Python `str` operations the message pipeline is built from:
 * `strip()`, `lower()`, `pat in s`, `s.split(sep)` (and `sep.join`, its
 * inverse), each with the properties the pipeline relies on.
 */
module PyStrings {
  import opened Wrappers

  /** `c.isspace()`: the characters Python 3 treats as whitespace. */
  predicate IsSpace(c: char) {
    || c == ' ' || c == '\t' || c == '\n' || c == '\r'
    || c == '\U{0B}' || c == '\U{0C}'
    || ('\U{1C}' <= c <= '\U{1F}')
    || c == '\U{85}' || c == '\U{A0}' || c == '\U{1680}'
    || ('\U{2000}' <= c <= '\U{200A}')
    || c == '\U{2028}' || c == '\U{2029}' || c == '\U{202F}'
    || c == '\U{205F}' || c == '\U{3000}'
  }

  predicate AllSpace(s: string) {
    forall i :: 0 <= i < |s| ==> IsSpace(s[i])
  }

  /** Neither end of `s` is whitespace: what `strip()` leaves. */
  predicate Trimmed(s: string) {
    s == [] || (!IsSpace(s[0]) && !IsSpace(s[|s| - 1]))
  }

  /** `s.lstrip()`: drops the leading whitespace, keeps a suffix. */
  function TrimLeft(s: string): (r: string)
    ensures |r| <= |s| && r == s[|s| - |r|..]
    ensures AllSpace(s[..|s| - |r|])
    ensures r == [] || !IsSpace(r[0])
  {
    if |s| > 0 && IsSpace(s[0]) then
      var r := TrimLeft(s[1..]);
      SpaceThenTail(s, |s| - 1 - |r|);
      r
    else s
  }

  /** Peeling a leading space off `s`: slices of the tail are slices of `s` shifted by one. */
  lemma SpaceThenTail(s: string, k: nat)
    requires |s| > 0 && IsSpace(s[0]) && k <= |s| - 1
    ensures s[1..][k..] == s[k + 1..]
    ensures AllSpace(s[1..][..k]) ==> AllSpace(s[..k + 1])
  {
    var pre, tail := s[..k + 1], s[1..][..k];
    if AllSpace(tail) {
      forall i | 0 <= i < |pre| ensures IsSpace(pre[i]) {
        if i > 0 {
          assert pre[i] == tail[i - 1];
        }
      }
    }
  }

  /** `s.rstrip()`: drops the trailing whitespace, keeps a prefix. */
  function TrimRight(s: string): (r: string)
    ensures |r| <= |s| && r == s[..|r|]
    ensures AllSpace(s[|r|..])
    ensures r == [] || !IsSpace(r[|r| - 1])
  {
    if |s| > 0 && IsSpace(s[|s| - 1]) then
      var r := TrimRight(s[..|s| - 1]);
      SpaceBeforeEnd(s, |r|);
      r
    else s
  }

  /** Peeling a trailing space off `s`: slices of the head are slices of `s`. */
  lemma SpaceBeforeEnd(s: string, k: nat)
    requires |s| > 0 && IsSpace(s[|s| - 1]) && k <= |s| - 1
    ensures s[..|s| - 1][..k] == s[..k]
    ensures AllSpace(s[..|s| - 1][k..]) ==> AllSpace(s[k..])
  {
    var post, head := s[k..], s[..|s| - 1][k..];
    if AllSpace(head) {
      forall i | 0 <= i < |post| ensures IsSpace(post[i]) {
        if i < |head| {
          assert post[i] == head[i];
        }
      }
    }
  }

  /** Index where `strip()` starts keeping characters. */
  function StripStart(s: string): (a: nat)
    ensures a <= |s|
  {
    |s| - |TrimLeft(s)|
  }

  /**
   * `s.strip()`: the infix of `s` left after removing the whitespace at
   * both ends; everything removed is whitespace and what remains is trimmed.
   */
  function Strip(s: string): (r: string)
    ensures StripStart(s) + |r| <= |s|
    ensures r == s[StripStart(s)..StripStart(s) + |r|]
    ensures AllSpace(s[..StripStart(s)]) && AllSpace(s[StripStart(s) + |r|..])
    ensures Trimmed(r)
  {
    var t := TrimLeft(s);
    var r := TrimRight(t);
    SuffixSlices(s, |s| - |t|, |r|);
    r
  }

  /** Slices of the suffix `s[a..]` are slices of `s` shifted by `a`. */
  lemma SuffixSlices(s: string, a: nat, n: nat)
    requires a + n <= |s|
    ensures s[a..][..n] == s[a..a + n]
    ensures s[a..][n..] == s[a + n..]
  {
  }

  lemma {:induction false} TrimLeftSpacePrefix(p: string, t: string)
    requires AllSpace(p)
    ensures TrimLeft(p + t) == TrimLeft(t)
  {
    if p != [] {
      assert (p + t)[0] == p[0] && IsSpace(p[0]);
      assert TrimLeft(p + t) == TrimLeft((p + t)[1..]);
      assert (p + t)[1..] == p[1..] + t;
      TrimLeftSpacePrefix(p[1..], t);
    } else {
      assert p + t == t;
    }
  }

  lemma {:induction false} TrimRightSpaceSuffix(t: string, q: string)
    requires AllSpace(q)
    ensures TrimRight(t + q) == TrimRight(t)
  {
    if q != [] {
      assert (t + q)[|t + q| - 1] == q[|q| - 1] && IsSpace(q[|q| - 1]);
      assert TrimRight(t + q) == TrimRight((t + q)[..|t + q| - 1]);
      assert (t + q)[..|t + q| - 1] == t + q[..|q| - 1];
      TrimRightSpaceSuffix(t, q[..|q| - 1]);
    } else {
      assert t + q == t;
    }
  }

  /**
   * The converse of Strip's contract: whatever whitespace surrounds a
   * trimmed text, `strip()` gives back exactly that text.
   */
  lemma StripPadded(p: string, c: string, q: string)
    requires AllSpace(p) && AllSpace(q) && Trimmed(c)
    ensures Strip(p + c + q) == c
  {
    assert p + c + q == p + (c + q);
    TrimLeftSpacePrefix(p, c + q);
    if c == [] {
      assert c + q == q + [];
      TrimLeftSpacePrefix(q, []);
      assert TrimLeft(c + q) == [];
    } else {
      assert TrimLeft(c + q) == c + q;
      TrimRightSpaceSuffix(c, q);
    }
  }

  lemma AllSpaceAppend(a: string, b: string)
    requires AllSpace(a) && AllSpace(b)
    ensures AllSpace(a + b)
  {
  }

  /** A text is its leading whitespace, its stripped core and its trailing whitespace. */
  lemma StripSplits(s: string)
    ensures s == s[..StripStart(s)] + Strip(s) + s[StripStart(s) + |Strip(s)|..]
  {
  }

  lemma Regroup(p: string, a: string, b: string, c: string, q: string)
    ensures p + (a + b + c) + q == (p + a) + b + (c + q)
  {
  }

  /** Extra whitespace at either end does not change what `strip()` returns. */
  lemma StripIgnoresPadding(p: string, s: string, q: string)
    requires AllSpace(p) && AllSpace(q)
    ensures Strip(p + s + q) == Strip(s)
  {
    var a, c := StripStart(s), Strip(s);
    var pre, post := s[..a], s[a + |c|..];
    StripSplits(s);
    AllSpaceAppend(p, pre);
    AllSpaceAppend(post, q);
    Regroup(p, pre, c, post, q);
    StripPadded(p + pre, c, post + q);
  }

  /** Stripping twice is stripping once. */
  lemma StripIdempotent(s: string)
    ensures Strip(Strip(s)) == Strip(s)
  {
    var r := Strip(s);
    assert [] + r + [] == r;
    StripPadded([], r, []);
  }

  /** ASCII case folding of one character. */
  function LowerChar(c: char): char {
    if 'A' <= c <= 'Z' then (c as int + 32) as char else c
  }

  /** `s.lower()`, folding the ASCII letters. */
  function Lower(s: string): (r: string)
    ensures |r| == |s|
    ensures forall i :: 0 <= i < |s| ==> r[i] == LowerChar(s[i])
  {
    seq(|s|, i requires 0 <= i < |s| => LowerChar(s[i]))
  }

  lemma LowerKeepsSpaces(s: string)
    ensures AllSpace(Lower(s)) == AllSpace(s)
    ensures Trimmed(Lower(s)) == Trimmed(s)
  {
  }

  lemma LowerAppend(a: string, b: string)
    ensures Lower(a + b) == Lower(a) + Lower(b)
  {
  }

  /** `s.lower().strip()` and `s.strip().lower()` agree. */
  lemma LowerStripCommute(s: string)
    ensures Strip(Lower(s)) == Lower(Strip(s))
  {
    var a, r := StripStart(s), Strip(s);
    var p, q := s[..a], s[a + |r|..];
    StripSplits(s);
    LowerAppend(p + r, q);
    LowerAppend(p, r);
    LowerKeepsSpaces(p);
    LowerKeepsSpaces(r);
    LowerKeepsSpaces(q);
    StripPadded(Lower(p), Lower(r), Lower(q));
  }

  /** `pat` occurs in `s` starting at index `j`. */
  predicate OccursAt(s: string, pat: string, j: int) {
    0 <= j && j + |pat| <= |s| && s[j..j + |pat|] == pat
  }

  /** The first occurrence of `pat` in `s` at or after `from`. */
  function FindFrom(s: string, pat: string, from: nat): (r: Option<nat>)
    ensures r.Some? ==> from <= r.value && OccursAt(s, pat, r.value)
    ensures r.Some? ==> forall j :: from <= j < r.value ==> !OccursAt(s, pat, j)
    ensures r.None? ==> forall j :: from <= j ==> !OccursAt(s, pat, j)
    decreases |s| - from
  {
    if from + |pat| > |s| then None
    else if s[from..from + |pat|] == pat then Some(from)
    else FindFrom(s, pat, from + 1)
  }

  /** `s.find(pat)`, with None for -1: the leftmost occurrence. */
  function Find(s: string, pat: string): (r: Option<nat>)
    ensures r.Some? ==> OccursAt(s, pat, r.value) && forall j :: 0 <= j < r.value ==> !OccursAt(s, pat, j)
    ensures r.None? ==> forall j :: !OccursAt(s, pat, j)
  {
    FindFrom(s, pat, 0)
  }

  /** `pat in s`. */
  predicate Contains(s: string, pat: string)
    ensures Contains(s, pat) <==> exists j :: OccursAt(s, pat, j)
  {
    Find(s, pat).Some?
  }

  /** Index of the first occurrence of `pat`, or `|s|` when there is none. */
  function FirstOrEnd(s: string, pat: string): (i: nat)
    ensures i <= |s|
  {
    match Find(s, pat)
    case Some(i) => i
    case None => |s|
  }

  lemma SliceOfSlice(s: string, a: nat, b: nat, i: nat, k: nat)
    requires a <= b <= |s| && i <= k <= b - a
    ensures s[a..b][i..k] == s[a + i..a + k]
  {
    var x, y := s[a..b][i..k], s[a + i..a + k];
    assert |x| == |y|;
    forall m | 0 <= m < |x| ensures x[m] == y[m] {
      assert x[m] == s[a..b][i + m] == s[a + i + m];
    }
  }

  /** A text with no occurrence of `pat` has none in any of its infixes. */
  lemma InfixAvoids(s: string, pat: string, a: nat, b: nat)
    requires a <= b <= |s| && !Contains(s, pat)
    ensures !Contains(s[a..b], pat)
  {
    forall j: int ensures !OccursAt(s[a..b], pat, j) {
      if 0 <= j && j + |pat| <= b - a {
        assert !OccursAt(s, pat, a + j);
        SliceOfSlice(s, a, b, j, j + |pat|);
      }
    }
  }

  /** The text before the first occurrence of a non-empty `pat` does not contain it. */
  lemma PrefixBeforeFirstAvoids(s: string, pat: string)
    requires |pat| > 0
    ensures !Contains(s[..FirstOrEnd(s, pat)], pat)
  {
    var i := FirstOrEnd(s, pat);
    forall j: int ensures !OccursAt(s[..i], pat, j) {
      if 0 <= j && j + |pat| <= i {
        assert !OccursAt(s, pat, j);
        SliceOfSlice(s, 0, i, j, j + |pat|);
        assert s[..i] == s[0..i];
      }
    }
  }

  /** An occurrence of `a + b` is an occurrence of `a`. */
  lemma ContainsPrefixOfPattern(s: string, a: string, b: string)
    requires Contains(s, a + b)
    ensures Contains(s, a)
  {
    var j :| OccursAt(s, a + b, j);
    assert s[j..j + |a|] == (a + b)[..|a|];
    assert OccursAt(s, a, j);
  }

  /**
   * `s.split(sep)` for a non-empty separator: the pieces between the
   * non-overlapping occurrences of `sep`, found from the left.  There are
   * at least two pieces exactly when `sep in s`, the first piece is the text
   * before the first occurrence, and no piece contains `sep`.
   */
  function Split(s: string, sep: string): (r: seq<string>)
    requires |sep| > 0
    ensures |r| >= 1
    ensures |r| >= 2 <==> Contains(s, sep)
    ensures r[0] == s[..FirstOrEnd(s, sep)]
    ensures forall k :: 0 <= k < |r| ==> !Contains(r[k], sep)
    decreases |s|
  {
    PrefixBeforeFirstAvoids(s, sep);
    match Find(s, sep)
    case None => [s]
    case Some(i) => [s[..i]] + Split(s[i + |sep|..], sep)
  }

  /** `sep.join(parts)`. */
  function Join(parts: seq<string>, sep: string): string {
    if |parts| == 0 then ""
    else if |parts| == 1 then parts[0]
    else parts[0] + sep + Join(parts[1..], sep)
  }

  /** Joining the pieces of a split with the same separator gives back the text. */
  lemma {:induction false} JoinSplit(s: string, sep: string)
    requires |sep| > 0
    ensures Join(Split(s, sep), sep) == s
    decreases |s|
  {
    match Find(s, sep)
    case None =>
    case Some(i) =>
      var rest := s[i + |sep|..];
      var tail := Split(rest, sep);
      var parts := [s[..i]] + tail;
      assert Split(s, sep) == parts;
      assert parts[1..] == tail;
      assert Join(parts, sep) == s[..i] + sep + Join(tail, sep);
      JoinSplit(rest, sep);
      assert s == s[..i] + s[i..i + |sep|] + rest;
  }

  /** The second piece of a split: from the first separator up to the next one, or to the end. */
  lemma SplitSecond(s: string, sep: string)
    requires |sep| > 0 && Contains(s, sep)
    ensures var rest := s[Find(s, sep).value + |sep|..];
            Split(s, sep)[1] == rest[..FirstOrEnd(rest, sep)]
  {
  }
}
