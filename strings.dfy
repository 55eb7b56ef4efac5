/** The handful of Python string operations the handlers rely on. */
module Strings {

  /** Python's `s.startswith(p)`. */
  predicate StartsWith(s: string, p: string) {
    |p| <= |s| && s[..|p|] == p
  }

  /** Python's `p in s`: `p` occurs at some position of `s`. */
  predicate Contains(s: string, p: string)
    decreases |s|
  {
    StartsWith(s, p) || (|s| > 0 && Contains(s[1..], p))
  }

  /** A string that ends with `p` contains it. */
  lemma {:induction false} ContainsSuffix(front: string, p: string)
    ensures Contains(front + p, p)
    decreases |front|
  {
    if front == [] {
      assert front + p == p;
    } else {
      assert (front + p)[1..] == front[1..] + p;
      ContainsSuffix(front[1..], p);
    }
  }

  /** A string without the character `c` contains no pattern that has `c` in it. */
  lemma {:induction false} NoCharNoOccurrence(s: string, p: string, c: char)
    requires c in p && c !in s
    ensures !Contains(s, p)
    decreases |s|
  {
    if |s| > 0 {
      NoCharNoOccurrence(s[1..], p, c);
    }
  }

  /**
   * Python's `s.replace(p, '')` for a non-empty `p`: scanning left to right, every
   * non-overlapping occurrence of `p` is removed.
   */
  function RemoveAll(s: string, p: string): (r: string)
    requires p != []
    ensures |r| <= |s|
    ensures !Contains(s, p) ==> r == s
    decreases |s|
  {
    if s == [] then []
    else if StartsWith(s, p) then RemoveAll(s[|p|..], p)
    else [s[0]] + RemoveAll(s[1..], p)
  }

  /** Removing every occurrence of a prefix that occurs nowhere in the rest leaves exactly the rest. */
  lemma RemovePrefix(p: string, rest: string)
    requires p != [] && !Contains(rest, p)
    ensures RemoveAll(p + rest, p) == rest
  {
    assert StartsWith(p + rest, p);
    assert (p + rest)[|p|..] == rest;
  }

  /** A leading occurrence of `p` is removed whatever follows it, so repeated prefixes all go. */
  lemma RemoveLeading(p: string, s: string)
    requires p != []
    ensures RemoveAll(p + s, p) == RemoveAll(s, p)
  {
    assert StartsWith(p + s, p);
    assert (p + s)[|p|..] == s;
  }

  /**
   * Python's `s.split(c)[-1]`: the text after the last `c`, or all of `s` when it has no `c`.
   * The result is the longest suffix of `s` free of `c`.
   */
  function AfterLast(s: string, c: char): (r: string)
    ensures c !in r
    ensures |r| <= |s| && r == s[|s| - |r|..]
    ensures |r| < |s| ==> s[|s| - |r| - 1] == c
    decreases |s|
  {
    if s == [] then []
    else if s[|s| - 1] == c then []
    else
      var init, last := s[..|s| - 1], s[|s| - 1];
      var r := AfterLast(init, c);
      assert s == init + [last];
      assert s[|s| - |r| - 1..] == init[|init| - |r|..] + [last];
      r + [last]
  }

  /** Joining with `c` and splitting on `c` gives back a last part free of `c`. */
  lemma {:induction false} AfterLastOfJoin(front: string, c: char, last: string)
    requires c !in last
    ensures AfterLast(front + [c] + last, c) == last
    decreases |last|
  {
    var s := front + [c] + last;
    if last == [] {
      assert s[|s| - 1] == c;
    } else {
      var init := last[..|last| - 1];
      assert s[..|s| - 1] == front + [c] + init;
      assert s[|s| - 1] == last[|last| - 1];
      AfterLastOfJoin(front, c, init);
      assert init + [last[|last| - 1]] == last;
    }
  }
}
