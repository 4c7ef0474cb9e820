/**
 * The handful of Go string and path primitives the build core relies on
 * (`strings.HasPrefix`, `strings.Index`, `strings.Split`, `strings.SplitN(_, _, 2)`,
 * `strings.TrimLeft`, `strings.Replace(_, _, _, -1)` and `filepath.Join`),
 * restricted to the single-character separators the core passes them.
 */
module Text {

  predicate HasPrefix(s: string, p: string) {
    |p| <= |s| && s[..|p|] == p
  }

  /** Position of the first `c` in `s`, or `|s|` when there is none. */
  function IndexOf(s: string, c: char): (i: nat)
    ensures i <= |s|
    ensures c !in s[..i]
    ensures i < |s| <==> c in s
    ensures i < |s| ==> s[i] == c
  {
    if s == [] then 0 else if s[0] == c then 0 else 1 + IndexOf(s[1..], c)
  }

  lemma {:induction false} IndexOfAfter(a: string, c: char, b: string)
    requires c !in a
    ensures IndexOf(a + [c] + b, c) == |a|
  {
    if a != [] {
      assert (a + [c] + b)[1..] == a[1..] + [c] + b;
      IndexOfAfter(a[1..], c, b);
    }
  }

  /** The first `c` of `a + b` is where `b` starts, when `a` has none and `b` is empty or starts with one. */
  lemma {:induction false} IndexOfBefore(a: string, c: char, b: string)
    requires c !in a
    requires b == [] || b[0] == c
    ensures IndexOf(a + b, c) == |a|
  {
    if a == [] {
      assert a + b == b;
    } else {
      assert (a + b)[1..] == a[1..] + b;
      IndexOfBefore(a[1..], c, b);
    }
  }

  /** `strings.Split(s, string(c))`: the pieces between the occurrences of `c`. */
  function Split(s: string, c: char): (parts: seq<string>)
    ensures |parts| >= 1
    ensures parts[0] == s[..IndexOf(s, c)]
    ensures |parts| == 1 <==> c !in s
    ensures forall k :: 0 <= k < |parts| ==> c !in parts[k]
    decreases |s|
  {
    var i := IndexOf(s, c);
    if i == |s| then [s] else [s[..i]] + Split(s[i + 1..], c)
  }

  /** Splitting at a first separator peels off the text before it. */
  lemma SplitAfter(a: string, c: char, b: string)
    requires c !in a
    ensures Split(a + [c] + b, c) == [a] + Split(b, c)
  {
    var s := a + [c] + b;
    IndexOfAfter(a, c, b);
    assert s[..|a|] == a;
    assert s[|a| + 1..] == b;
  }

  /** `strings.SplitN(s, string(c), 2)`: the text before the first `c` and the rest. */
  function SplitFirst(s: string, c: char): (parts: seq<string>)
    ensures |parts| == 1 <==> c !in s
    ensures |parts| == 1 ==> parts[0] == s
    ensures |parts| != 1 ==> |parts| == 2 && c !in parts[0] && s == parts[0] + [c] + parts[1]
  {
    var i := IndexOf(s, c);
    if i == |s| then [s]
    else
      assert s == s[..i] + [c] + s[i + 1..];
      [s[..i], s[i + 1..]]
  }

  /** Splitting at the first separator gives back the text on either side of it. */
  lemma SplitFirstOf(a: string, c: char, b: string)
    requires c !in a
    ensures SplitFirst(a + [c] + b, c) == [a, b]
  {
    var s := a + [c] + b;
    IndexOfAfter(a, c, b);
    assert s[..|a|] == a;
    assert s[|a| + 1..] == b;
  }

  /** `strings.TrimPrefix`: `s` without one leading `p`, or `s` itself when it does not start with `p`. */
  function TrimPrefix(s: string, p: string): (r: string)
    ensures HasPrefix(s, p) ==> s == p + r
    ensures !HasPrefix(s, p) ==> r == s
  {
    if HasPrefix(s, p) then s[|p|..] else s
  }

  /** `strings.TrimLeft(s, string(c))`: every leading `c` removed. */
  function TrimLeft(s: string, c: char): (r: string)
    ensures r == [] || r[0] != c
    ensures |r| <= |s| && r == s[|s| - |r|..]
    ensures forall k :: 0 <= k < |s| - |r| ==> s[k] == c
  {
    if s != [] && s[0] == c then TrimLeft(s[1..], c) else s
  }

  /** `strings.Replace(s, pat, by, -1)`: every non-overlapping `pat`, left to right. */
  function ReplaceAll(s: string, pat: string, repl: string): (r: string)
    requires pat != []
    decreases |s|
  {
    if s == [] then []
    else if HasPrefix(s, pat) then repl + ReplaceAll(s[|pat|..], pat, repl)
    else [s[0]] + ReplaceAll(s[1..], pat, repl)
  }

  predicate OccursAt(pat: string, s: string, i: nat) {
    i + |pat| <= |s| && s[i..i + |pat|] == pat
  }

  ghost predicate Occurs(pat: string, s: string) {
    exists i: nat :: OccursAt(pat, s, i)
  }

  /** A text without the pattern is left as it is. */
  lemma {:induction false} ReplaceAllAbsent(s: string, pat: string, repl: string)
    requires pat != []
    requires !Occurs(pat, s)
    ensures ReplaceAll(s, pat, repl) == s
    decreases |s|
  {
    if s != [] {
      assert !HasPrefix(s, pat) by {
        assert !OccursAt(pat, s, 0);
      }
      forall i: nat | i + |pat| <= |s[1..]|
        ensures !OccursAt(pat, s[1..], i)
      {
        assert s[1..][i..i + |pat|] == s[i + 1..i + 1 + |pat|];
        assert !OccursAt(pat, s, i + 1);
      }
      ReplaceAllAbsent(s[1..], pat, repl);
    }
  }

  /** The first character of `pat` occurs nowhere else in it (true of `{PKGDIR}`). */
  predicate HeadUnique(pat: string) {
    pat != [] && forall k :: 0 < k < |pat| ==> pat[k] != pat[0]
  }

  /** Slicing a concatenation inside its left operand. */
  lemma SliceLeft(x: string, y: string, k: nat)
    requires k <= |x|
    ensures (x + y)[..k] == x[..k]
    ensures (x + y)[k..] == x[k..] + y
  {
  }

  /** An occurrence right after a non-empty `a` cannot start inside `a`. */
  lemma NoPrefixAcross(a: string, pat: string, u: string)
    requires HeadUnique(pat) && a != [] && !HasPrefix(a, pat) && HasPrefix(u, pat)
    ensures !HasPrefix(a + u, pat)
  {
    var s := a + u;
    if |pat| <= |s| {
      if |a| >= |pat| {
        SliceLeft(a, u, |pat|);
      } else {
        assert s[|a|] == u[0] == pat[0] != pat[|a|];
        assert s[..|pat|][|a|] != pat[|a|];
      }
    }
  }

  /**
   * Replacing in front of an occurrence never reaches into it: for a pattern
   * whose first character is unique and a text `u` that starts with it,
   * replacing in `a + u` is replacing in `a` and then in `u`.
   */
  lemma {:induction false} ReplaceAllBefore(a: string, u: string, pat: string, repl: string)
    requires HeadUnique(pat) && HasPrefix(u, pat)
    ensures ReplaceAll(a + u, pat, repl) == ReplaceAll(a, pat, repl) + ReplaceAll(u, pat, repl)
    decreases |a|
  {
    if a == [] {
      assert a + u == u;
    } else if HasPrefix(a, pat) {
      SliceLeft(a, u, |pat|);
      ReplaceAllBefore(a[|pat|..], u, pat, repl);
      var x, y := ReplaceAll(a[|pat|..], pat, repl), ReplaceAll(u, pat, repl);
      assert repl + (x + y) == (repl + x) + y;
    } else {
      SliceLeft(a, u, 1);
      NoPrefixAcross(a, pat, u);
      ReplaceAllBefore(a[1..], u, pat, repl);
      var x, y := ReplaceAll(a[1..], pat, repl), ReplaceAll(u, pat, repl);
      assert [a[0]] + (x + y) == ([a[0]] + x) + y;
    }
  }

  /**
   * Every occurrence is replaced: for a pattern whose first character is unique,
   * replacing in `a + pat + b` replaces in `a`, substitutes this occurrence, and
   * replaces in `b`; nothing in `a` can swallow the occurrence.
   */
  lemma ReplaceAllAround(a: string, pat: string, b: string, repl: string)
    requires HeadUnique(pat)
    ensures ReplaceAll(a + pat + b, pat, repl) == ReplaceAll(a, pat, repl) + repl + ReplaceAll(b, pat, repl)
  {
    var u := pat + b;
    assert a + pat + b == a + u;
    assert HasPrefix(u, pat) && u[|pat|..] == b;
    ReplaceAllBefore(a, u, pat, repl);
  }

  /**
   * `filepath.Join(a, b)` on clean components: empty components are dropped,
   * the others are separated by one `/`.
   */
  function PathJoin(a: string, b: string): string {
    if a == "" then b else if b == "" then a else a + "/" + b
  }

  /** Under one directory, distinct non-empty names give distinct paths. */
  lemma PathJoinInjective(dir: string, x: string, y: string)
    requires x != "" && y != ""
    requires PathJoin(dir, x) == PathJoin(dir, y)
    ensures x == y
  {
    if dir != "" {
      var p := dir + "/";
      assert PathJoin(dir, x) == p + x && PathJoin(dir, y) == p + y;
      assert x == (p + x)[|p|..] && y == (p + y)[|p|..];
    }
  }

  /** Prefixing with a fixed text and suffixing with a fixed text is injective. */
  lemma BracketInjective(pre: string, x: string, y: string, post: string)
    requires pre + x + post == pre + y + post
    ensures x == y
  {
    var s1, s2 := pre + x + post, pre + y + post;
    assert |x| == |y|;
    assert x == s1[|pre|..|pre| + |x|] && y == s2[|pre|..|pre| + |y|];
  }
}
