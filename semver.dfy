/**
 * Semantic-version parsing and precedence as Go's `golang.org/x/mod/semver`
 * computes them: `vMAJOR[.MINOR[.PATCH[-PRERELEASE][+BUILD]]]`, where the
 * shorthands `vMAJOR` and `vMAJOR.MINOR` stand for `.0` components and admit
 * no prerelease or build suffix. Precedence follows section 11 of Semantic
 * Versioning 2.0.0; build metadata takes no part in it (section 10). A string
 * that does not parse compares below every valid version and equal to every
 * other invalid one.
 */
module Semver {
  import opened Wrappers
  import opened Text

  datatype Version = Version(major: nat, minor: nat, patch: nat, prerelease: seq<string>, build: seq<string>)

  predicate IsDigit(ch: char) { '0' <= ch <= '9' }

  predicate IsIdentChar(ch: char) {
    'a' <= ch <= 'z' || 'A' <= ch <= 'Z' || IsDigit(ch) || ch == '-'
  }

  predicate IsNumeric(s: string) {
    forall k :: 0 <= k < |s| ==> IsDigit(s[k])
  }

  /** A numeric identifier with a leading zero, which semver forbids. */
  predicate IsBadNum(s: string) {
    |s| > 1 && IsNumeric(s) && s[0] == '0'
  }

  /** Length of the run of digits that starts `s`. */
  function DigitRun(s: string): (n: nat)
    ensures n <= |s|
    ensures IsNumeric(s[..n])
    ensures n < |s| ==> !IsDigit(s[n])
  {
    if s != [] && IsDigit(s[0]) then
      var n := 1 + DigitRun(s[1..]);
      assert s[..n] == [s[0]] + s[1..][..n - 1];
      n
    else 0
  }

  function DecimalValue(s: string): nat
    requires IsNumeric(s)
  {
    if s == [] then 0
    else 10 * DecimalValue(s[..|s| - 1]) + (s[|s| - 1] as int - '0' as int)
  }

  /** Go's `parseInt`: a maximal run of digits without a leading zero, and what follows it. */
  function ParseNumber(s: string): (r: Option<(nat, string)>)
    ensures r.Some? ==> s != [] && IsDigit(s[0]) && (r.value.1 == [] || !IsDigit(r.value.1[0]))
  {
    var n := DigitRun(s);
    if n == 0 || (s[0] == '0' && n > 1) then None
    else Some((DecimalValue(s[..n]), s[n..]))
  }

  predicate ValidPrereleaseIdent(id: string) {
    id != [] && (forall k :: 0 <= k < |id| ==> IsIdentChar(id[k])) && !IsBadNum(id)
  }

  predicate ValidBuildIdent(id: string) {
    id != [] && forall k :: 0 <= k < |id| ==> IsIdentChar(id[k])
  }

  /**
   * What may follow `MAJOR.MINOR.PATCH`: an optional `-` prerelease running up
   * to the first `+`, then an optional `+` build part running to the end.
   */
  function ParseSuffix(major: nat, minor: nat, patch: nat, s: string): (r: Option<Version>)
    ensures r.Some? ==> r.value.major == major && r.value.minor == minor && r.value.patch == patch
    ensures s == [] ==> r == Some(Version(major, minor, patch, [], []))
  {
    var plus := IndexOf(s, '+');
    var preIds, buildIds := PrereleaseIds(s[..plus]), BuildIds(s[plus..]);
    if preIds.Some? && buildIds.Some? then Some(Version(major, minor, patch, preIds.value, buildIds.value))
    else None
  }

  /** The text before the first `+`: empty, or `-` and `.`-separated prerelease identifiers. */
  function PrereleaseIds(pre: string): Option<seq<string>> {
    if pre == [] then Some([])
    else if pre[0] != '-' then None
    else
      var ids := Split(pre[1..], '.');
      if forall k :: 0 <= k < |ids| ==> ValidPrereleaseIdent(ids[k]) then Some(ids) else None
  }

  /** The text from the first `+` on: empty, or `+` and `.`-separated build identifiers. */
  function BuildIds(meta: string): Option<seq<string>> {
    if meta == [] then Some([])
    else
      var ids := Split(meta[1..], '.');
      if forall k :: 0 <= k < |ids| ==> ValidBuildIdent(ids[k]) then Some(ids) else None
  }

  /** Go's `semver` parse of the text after the leading `v`: the major number first. */
  function ParseCore(s: string): Option<Version>
  {
    match ParseNumber(s)
    case None => None
    case Some((major, r1)) =>
      if r1 == [] then Some(Version(major, 0, 0, [], []))
      else if r1[0] != '.' then None
      else ParseMinor(major, r1[1..])
  }

  /** The text after `MAJOR.`: the minor number, then optionally `.PATCH`. */
  function ParseMinor(major: nat, s: string): Option<Version>
  {
    match ParseNumber(s)
    case None => None
    case Some((minor, r2)) =>
      if r2 == [] then Some(Version(major, minor, 0, [], []))
      else if r2[0] != '.' then None
      else ParsePatch(major, minor, r2[1..])
  }

  /** The text after `MAJOR.MINOR.`: the patch number and the suffix. */
  function ParsePatch(major: nat, minor: nat, s: string): Option<Version>
  {
    match ParseNumber(s)
    case None => None
    case Some((patch, r3)) => ParseSuffix(major, minor, patch, r3)
  }

  function Parse(s: string): (r: Option<Version>)
    ensures r.Some? ==> |s| >= 2 && s[0] == 'v' && IsDigit(s[1])
  {
    if s == [] || s[0] != 'v' then None else ParseCore(s[1..])
  }

  /** The text of `vMAJOR.MINOR.PATCH` followed by `suffix`, from the digit strings. */
  function Dotted(major: string, minor: string, patch: string, suffix: string): string {
    "v" + (major + ("." + (minor + ("." + (patch + suffix)))))
  }

  /** A well-formed numeric component: digits, and no leading zero unless it is "0". */
  predicate IsNumber(ds: string) {
    ds != [] && IsNumeric(ds) && !IsBadNum(ds)
  }

  /** A concatenation seen from its left operand. */
  lemma Halves(x: string, y: string)
    ensures (x + y)[..|x|] == x && (x + y)[|x|..] == y
  {
  }

  lemma {:induction false} DigitRunOf(ds: string, rest: string)
    requires IsNumeric(ds) && (rest == [] || !IsDigit(rest[0]))
    ensures DigitRun(ds + rest) == |ds|
  {
    if ds != [] {
      assert (ds + rest)[1..] == ds[1..] + rest;
      DigitRunOf(ds[1..], rest);
    } else {
      assert ds + rest == rest;
    }
  }

  /** A number followed by a non-digit parses to its value and leaves the rest. */
  lemma ParseNumberOf(ds: string, rest: string)
    requires IsNumber(ds) && (rest == [] || !IsDigit(rest[0]))
    ensures ParseNumber(ds + rest) == Some((DecimalValue(ds), rest))
  {
    DigitRunOf(ds, rest);
    Halves(ds, rest);
  }

  lemma ParsePatchOf(major: nat, minor: nat, patch: string, suffix: string)
    requires IsNumber(patch) && (suffix == [] || !IsDigit(suffix[0]))
    ensures ParsePatch(major, minor, patch + suffix) == ParseSuffix(major, minor, DecimalValue(patch), suffix)
  {
    ParseNumberOf(patch, suffix);
  }

  lemma ParseMinorOf(major: nat, minor: string, patch: string, suffix: string)
    requires IsNumber(minor) && IsNumber(patch) && (suffix == [] || !IsDigit(suffix[0]))
    ensures ParseMinor(major, minor + ("." + (patch + suffix)))
      == ParseSuffix(major, DecimalValue(minor), DecimalValue(patch), suffix)
  {
    var r3 := patch + suffix;
    ParseNumberOf(minor, "." + r3);
    Halves(".", r3);
    ParsePatchOf(major, DecimalValue(minor), patch, suffix);
  }

  /** `vMAJOR.MINOR.PATCH` parses its three numbers and leaves the suffix to `ParseSuffix`. */
  lemma ParseDotted(major: string, minor: string, patch: string, suffix: string)
    requires IsNumber(major) && IsNumber(minor) && IsNumber(patch)
    requires suffix == [] || !IsDigit(suffix[0])
    ensures Parse(Dotted(major, minor, patch, suffix))
      == ParseSuffix(DecimalValue(major), DecimalValue(minor), DecimalValue(patch), suffix)
  {
    var r2 := minor + ("." + (patch + suffix));
    ParseNumberOf(major, "." + r2);
    Halves(".", r2);
    ParseMinorOf(DecimalValue(major), minor, patch, suffix);
    assert Dotted(major, minor, patch, suffix)[1..] == major + ("." + r2);
  }

  predicate IsValid(s: string) { Parse(s).Some? }

  /** Go's string `<`: byte-wise lexical order. */
  predicate LexLess(a: string, b: string)
  {
    if a == [] then b != []
    else if b == [] then false
    else if a[0] != b[0] then a[0] < b[0]
    else LexLess(a[1..], b[1..])
  }

  /** Of two distinct strings exactly one is lexically smaller. */
  lemma {:induction false} LexLessTotal(a: string, b: string)
    requires a != b
    ensures LexLess(a, b) != LexLess(b, a)
  {
    if a != [] && b != [] && a[0] == b[0] {
      assert a == [a[0]] + a[1..] && b == [b[0]] + b[1..];
      LexLessTotal(a[1..], b[1..]);
    }
  }

  function CompareNat(a: nat, b: nat): int {
    if a < b then -1 else if a > b then 1 else 0
  }

  /** One prerelease identifier against another: numeric ones first, by value. */
  function CompareIdent(x: string, y: string): (r: int)
    ensures -1 <= r <= 1
  {
    if x == y then 0
    else if IsNumeric(x) != IsNumeric(y) then (if IsNumeric(x) then -1 else 1)
    else if IsNumeric(x) && |x| != |y| then (if |x| < |y| then -1 else 1)
    else if LexLess(x, y) then -1
    else 1
  }

  /** Identifier lists, field by field; a proper prefix comes first. */
  function CompareIdents(x: seq<string>, y: seq<string>): (r: int)
    ensures -1 <= r <= 1
    decreases |x|
  {
    if x == [] && y == [] then 0
    else if x == [] then -1
    else if y == [] then 1
    else if x[0] != y[0] then CompareIdent(x[0], y[0])
    else CompareIdents(x[1..], y[1..])
  }

  /** A version without prerelease precedes none of its prereleases. */
  function ComparePrerelease(x: seq<string>, y: seq<string>): (r: int)
    ensures -1 <= r <= 1
  {
    if x == [] && y == [] then 0
    else if x == [] then 1
    else if y == [] then -1
    else CompareIdents(x, y)
  }

  function Precedence(a: Version, b: Version): (r: int)
    ensures -1 <= r <= 1
  {
    if a.major != b.major then CompareNat(a.major, b.major)
    else if a.minor != b.minor then CompareNat(a.minor, b.minor)
    else if a.patch != b.patch then CompareNat(a.patch, b.patch)
    else ComparePrerelease(a.prerelease, b.prerelease)
  }

  /** `semver.Compare(v, w)`: -1, 0 or +1. */
  function Compare(v: string, w: string): (r: int)
    ensures -1 <= r <= 1
    ensures !IsValid(v) && IsValid(w) ==> r == -1
    ensures IsValid(v) && !IsValid(w) ==> r == 1
    ensures !IsValid(v) && !IsValid(w) ==> r == 0
  {
    if !IsValid(v) then (if IsValid(w) then -1 else 0)
    else if !IsValid(w) then 1
    else Precedence(Parse(v).value, Parse(w).value)
  }

  lemma CompareIdentAntisymmetric(x: string, y: string)
    ensures CompareIdent(x, y) == -CompareIdent(y, x)
  {
    if x != y { LexLessTotal(x, y); }
  }

  lemma {:induction false} CompareIdentsAntisymmetric(x: seq<string>, y: seq<string>)
    ensures CompareIdents(x, y) == -CompareIdents(y, x)
    decreases |x|
  {
    if x != [] && y != [] {
      if x[0] != y[0] {
        CompareIdentAntisymmetric(x[0], y[0]);
      } else {
        CompareIdentsAntisymmetric(x[1..], y[1..]);
      }
    }
  }

  /** Swapping the operands of `Compare` negates the result. */
  lemma CompareAntisymmetric(v: string, w: string)
    ensures Compare(v, w) == -Compare(w, v)
  {
    if IsValid(v) && IsValid(w) {
      var a, b := Parse(v).value, Parse(w).value;
      if a.major == b.major && a.minor == b.minor && a.patch == b.patch
        && a.prerelease != [] && b.prerelease != [] {
        CompareIdentsAntisymmetric(a.prerelease, b.prerelease);
      }
    }
  }

  lemma {:induction false} CompareIdentsReflexive(x: seq<string>)
    ensures CompareIdents(x, x) == 0
    decreases |x|
  {
    if x != [] { CompareIdentsReflexive(x[1..]); }
  }

  /** Every string compares equal to itself, valid or not. */
  lemma CompareReflexive(v: string)
    ensures Compare(v, v) == 0
  {
    if IsValid(v) { CompareIdentsReflexive(Parse(v).value.prerelease); }
  }

  /** Build metadata takes no part in precedence. */
  lemma PrecedenceIgnoresBuild(a: Version, b: Version, meta: seq<string>)
    ensures Precedence(a.(build := meta), b) == Precedence(a, b)
    ensures Precedence(b, a.(build := meta)) == Precedence(b, a)
  {
  }

  /** A `+` build part: `.`-separated non-empty identifiers. */
  predicate ValidBuild(build: string) {
    var ids := Split(build, '.');
    forall k :: 0 <= k < |ids| ==> ValidBuildIdent(ids[k])
  }

  /** A well-formed `+BUILD` after the prerelease only sets the build field. */
  lemma ParseSuffixBuild(major: nat, minor: nat, patch: nat, pre: string, build: string)
    requires '+' !in pre && ValidBuild(build)
    ensures var r := ParseSuffix(major, minor, patch, pre);
      ParseSuffix(major, minor, patch, pre + ("+" + build))
        == if r.Some? then Some(r.value.(build := Split(build, '.'))) else None
  {
    var s, meta := pre + ("+" + build), "+" + build;
    IndexOfBefore(pre, '+', meta);
    Halves(pre, meta);
    assert meta[1..] == build;
    assert BuildIds(meta) == Some(Split(build, '.'));
    IndexOfBefore(pre, '+', []);
    assert pre + [] == pre;
    assert pre[..|pre|] == pre && pre[|pre|..] == [];
  }

  /**
   * Appending build metadata to `vMAJOR.MINOR.PATCH[-PRERELEASE]` keeps it
   * valid exactly when it was, and `Compare` gives the same result against
   * any other string.
   */
  lemma CompareIgnoresBuild(major: string, minor: string, patch: string, pre: string, build: string, w: string)
    requires IsNumber(major) && IsNumber(minor) && IsNumber(patch)
    requires (pre == [] || pre[0] == '-') && '+' !in pre && ValidBuild(build)
    ensures IsValid(Dotted(major, minor, patch, pre + ("+" + build))) == IsValid(Dotted(major, minor, patch, pre))
    ensures Compare(Dotted(major, minor, patch, pre + ("+" + build)), w) == Compare(Dotted(major, minor, patch, pre), w)
  {
    var M, m, p := DecimalValue(major), DecimalValue(minor), DecimalValue(patch);
    var tagged := pre + ("+" + build);
    assert tagged[0] == (if pre == [] then '+' else '-');
    ParseDotted(major, minor, patch, tagged);
    ParseDotted(major, minor, patch, pre);
    ParseSuffixBuild(M, m, p, pre, build);
    var r := ParseSuffix(M, m, p, pre);
    if r.Some? && IsValid(w) {
      PrecedenceIgnoresBuild(r.value, Parse(w).value, Split(build, '.'));
    }
  }
}
