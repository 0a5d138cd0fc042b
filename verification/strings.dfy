/** The two string operations the notification text relies on: Python's
    `sep.join(parts)`, and, as its inverse, `s.split(sep)` with an explicit
    separator, built on a leftmost-occurrence search like `str.find`. */
module Strings {
  import opened Options

  /** `pat` occurs in `s` starting at index `i`. */
  predicate OccursAt(pat: string, s: string, i: int) {
    0 <= i && i + |pat| <= |s| && s[i..i + |pat|] == pat
  }

  predicate Contains(s: string, pat: string) {
    exists i :: 0 <= i <= |s| && OccursAt(pat, s, i)
  }

  /** No proper, non-empty suffix of `sep` is also a prefix of it, so two
      occurrences of `sep` can never overlap. */
  predicate Unbordered(sep: string) {
    forall k :: 0 < k < |sep| ==> !IsBorder(sep, k)
  }

  /** The suffix of `sep` that starts at `k` equals its prefix of the same length. */
  predicate IsBorder(sep: string, k: nat)
    requires k <= |sep|
  {
    sep[k..] == sep[..|sep| - k]
  }

  /** `s.find(pat, from)`: the leftmost occurrence of `pat` at or after
      `from`, or `None` when there is none. */
  function Find(pat: string, s: string, from: nat): (r: Option<nat>)
    ensures r.Some? ==> from <= r.value && OccursAt(pat, s, r.value)
    ensures forall j :: from <= j && (r.None? || j < r.value) ==> !OccursAt(pat, s, j)
    decreases |s| - from
  {
    if from + |pat| > |s| then None
    else if s[from..from + |pat|] == pat then Some(from)
    else Find(pat, s, from + 1)
  }

  /** `sep.join(parts)`. */
  function Join(sep: string, parts: seq<string>): string
  {
    if |parts| == 0 then ""
    else if |parts| == 1 then parts[0]
    else parts[0] + sep + Join(sep, parts[1..])
  }

  /** `s.split(sep)` for a non-empty `sep`: cut at every leftmost
      occurrence of `sep`. Joining the parts back gives `s`, and no part
      contains the separator. */
  function Split(sep: string, s: string): (parts: seq<string>)
    requires |sep| > 0
    ensures |parts| > 0
    ensures Join(sep, parts) == s
    ensures forall k :: 0 <= k < |parts| ==> !Contains(parts[k], sep)
    decreases |s|
  {
    match Find(sep, s, 0)
    case None =>
      assert !Contains(s, sep);
      [s]
    case Some(i) =>
      var head := s[..i];
      var tail := Split(sep, s[i + |sep|..]);
      assert s == head + sep + s[i + |sep|..];
      assert !Contains(head, sep) by {
        forall j | OccursAt(sep, head, j) ensures false {
          assert s[j..j + |sep|] == head[j..j + |sep|];
          assert OccursAt(sep, s, j);
        }
      }
      assert ([head] + tail)[1..] == tail;
      [head] + tail
  }

  /** Two distinct occurrences of an unbordered separator are at least
      one separator length apart. */
  lemma NoOverlap(sep: string, s: string, a: nat, b: nat)
    requires Unbordered(sep)
    requires OccursAt(sep, s, a) && OccursAt(sep, s, b)
    requires a < b
    ensures a + |sep| <= b
  {
    if b < a + |sep| {
      OverlapIsBorder(sep, s, a, b);
      assert false;
    }
  }

  /** Two occurrences of `sep` less than its length apart make the
      distance between them a border of `sep`. */
  lemma OverlapIsBorder(sep: string, s: string, a: nat, b: nat)
    requires OccursAt(sep, s, a) && OccursAt(sep, s, b)
    requires a < b < a + |sep|
    ensures IsBorder(sep, b - a)
  {
    var k := b - a;
    assert sep[k..] == s[b..a + |sep|];
    assert s[b..a + |sep|] == sep[..|sep| - k];
  }

  /** With an unbordered separator, the first occurrence in
      `x + sep + rest` is the one right after `x` whenever `x` itself does
      not contain the separator. */
  lemma FindAfterPlain(sep: string, x: string, rest: string)
    requires Unbordered(sep)
    requires !Contains(x, sep)
    ensures Find(sep, x + sep + rest, 0) == Some(|x|)
  {
    var s := x + sep + rest;
    assert OccursAt(sep, s, |x|) by {
      assert s[|x|..|x| + |sep|] == sep;
    }
    var r := Find(sep, s, 0);
    assert r.Some? && r.value <= |x|;
    var i := r.value;
    if i < |x| {
      NoOverlap(sep, s, i, |x|);
      assert x[i..i + |sep|] == s[i..i + |sep|];
      assert OccursAt(sep, x, i);
      assert false;
    }
  }

  /** `sep.join(parts).split(sep) == parts` when there is at least one
      part, no part contains the separator, and the separator cannot
      overlap itself. */
  lemma {:induction false} SplitJoin(sep: string, parts: seq<string>)
    requires |sep| > 0 && Unbordered(sep)
    requires |parts| > 0
    requires forall k :: 0 <= k < |parts| ==> !Contains(parts[k], sep)
    ensures Split(sep, Join(sep, parts)) == parts
    decreases |parts|
  {
    if |parts| == 1 {
      assert Find(sep, parts[0], 0).None?;
    } else {
      var x, tl := parts[0], parts[1..];
      var j := Join(sep, tl);
      FindAfterPlain(sep, x, j);
      assert (x + sep + j)[|x| + |sep|..] == j;
      SplitJoin(sep, tl);
    }
  }

  /** When `pat` has two characters, an occurrence in `a + b` lies in `a`,
      in `b`, or straddles the seam with `pat[0]` ending `a` and `pat[1]`
      starting `b`. */
  lemma ContainsPairInConcat(a: string, b: string, pat: string)
    requires |pat| == 2
    requires Contains(a + b, pat)
    ensures || Contains(a, pat)
            || Contains(b, pat)
            || (|a| > 0 && |b| > 0 && a[|a| - 1] == pat[0] && b[0] == pat[1])
  {
    var s := a + b;
    var i :| 0 <= i <= |s| && OccursAt(pat, s, i);
    assert i + 2 <= |s| && s[i..i + 2] == pat;
    if i + 2 <= |a| {
      assert a[i..i + 2] == s[i..i + 2];
      assert OccursAt(pat, a, i);
    } else if i >= |a| {
      assert b[i - |a|..i - |a| + 2] == s[i..i + 2];
      assert OccursAt(pat, b, i - |a|);
    } else {
      assert s[i] == pat[0] && s[i + 1] == pat[1];
    }
  }

}
