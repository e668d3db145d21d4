/**
 * Package versions and the string form of a dependency constraint.
 *
 * A string constraint such as "10", "10.0" or "10.0.0" means "at least this
 * version": it names a release by one, two or three dot-separated numerals,
 * and the omitted components are zero.
 */
module Versions {
  import opened Wrappers

  /** An installed package version `major.minor.patch[-prerelease]`, as its package.json states it. */
  datatype Version = Version(major: nat, minor: nat, patch: nat, prerelease: string)

  /** The release part of a version, without any prerelease tag. */
  datatype Triple = Triple(major: nat, minor: nat, patch: nat)

  function Release(v: Version): Triple
  {
    Triple(v.major, v.minor, v.patch)
  }

  /** Releases ordered by major, then minor, then patch. */
  predicate TripleLe(a: Triple, b: Triple)
  {
    || a.major < b.major
    || (a.major == b.major && a.minor < b.minor)
    || (a.major == b.major && a.minor == b.minor && a.patch <= b.patch)
  }

  /** TripleLe is a total order on releases. */
  lemma TripleLeTotalOrder(a: Triple, b: Triple, c: Triple)
    ensures TripleLe(a, a)
    ensures TripleLe(a, b) && TripleLe(b, a) ==> a == b
    ensures TripleLe(a, b) && TripleLe(b, c) ==> TripleLe(a, c)
    ensures TripleLe(a, b) || TripleLe(b, a)
  {
  }

  // ----- numerals -----

  predicate IsDigit(c: char)
  {
    '0' <= c <= '9'
  }

  predicate AllDigits(s: string)
  {
    forall i :: 0 <= i < |s| ==> IsDigit(s[i])
  }

  /** A non-empty run of decimal digits. */
  predicate IsNumeral(s: string)
  {
    |s| > 0 && AllDigits(s)
  }

  /** The number a run of decimal digits denotes. */
  function NumeralValue(s: string): nat
    requires AllDigits(s)
    decreases |s|
  {
    if |s| == 0 then 0
    else 10 * NumeralValue(s[..|s| - 1]) + (s[|s| - 1] as int - '0' as int)
  }

  function DigitChar(d: nat): (c: char)
    requires d < 10
    ensures IsDigit(c) && c as int - '0' as int == d
  {
    ('0' as int + d) as char
  }

  /** The decimal numeral of `n`, without leading zeros. */
  function Decimal(n: nat): (s: string)
    ensures IsNumeral(s)
    ensures '.' !in s
  {
    if n < 10 then [DigitChar(n)] else Decimal(n / 10) + [DigitChar(n % 10)]
  }

  /** Reading back the numeral of `n` gives `n`. */
  lemma {:induction false} DecimalValue(n: nat)
    ensures NumeralValue(Decimal(n)) == n
  {
    if n >= 10 {
      var s := Decimal(n);
      assert s[..|s| - 1] == Decimal(n / 10);
      DecimalValue(n / 10);
    }
  }

  // ----- dot-separated pieces -----

  /** The pieces of `s` between '.' characters, as JavaScript's `s.split('.')` gives them. */
  function SplitDots(s: string): (parts: seq<string>)
    ensures |parts| >= 1
    ensures forall i :: 0 <= i < |parts| ==> '.' !in parts[i]
    decreases |s|
  {
    if |s| == 0 then [""]
    else
      var rest := SplitDots(s[1..]);
      if s[0] == '.' then [""] + rest else [[s[0]] + rest[0]] + rest[1..]
  }

  /** The pieces written back with '.' between them. */
  function JoinDots(parts: seq<string>): string
    requires |parts| >= 1
    decreases |parts|
  {
    if |parts| == 1 then parts[0] else parts[0] + "." + JoinDots(parts[1..])
  }

  /** Splitting only looks for dots: a dot-free prefix sticks to the first piece. */
  lemma {:induction false} SplitDotFreePrefix(p: string, t: string)
    requires '.' !in p
    ensures SplitDots(p + t) == [p + SplitDots(t)[0]] + SplitDots(t)[1..]
    decreases |p|
  {
    if |p| > 0 {
      assert (p + t)[1..] == p[1..] + t;
      assert (p + t)[0] == p[0];
      SplitDotFreePrefix(p[1..], t);
      assert [p[0]] + (p[1..] + SplitDots(t)[0]) == p + SplitDots(t)[0];
    } else {
      var parts := SplitDots(t);
      assert p + t == t && p + parts[0] == parts[0];
      assert [parts[0]] + parts[1..] == parts;
    }
  }

  /** Joining dot-free pieces and splitting again gives the pieces back. */
  lemma {:induction false} SplitJoin(parts: seq<string>)
    requires |parts| >= 1
    requires forall i :: 0 <= i < |parts| ==> '.' !in parts[i]
    ensures SplitDots(JoinDots(parts)) == parts
    decreases |parts|
  {
    if |parts| == 1 {
      SplitDotFreePrefix(parts[0], "");
      assert parts[0] + "" == parts[0];
    } else {
      var rest := JoinDots(parts[1..]);
      SplitJoin(parts[1..]);
      assert SplitDots("." + rest) == [""] + parts[1..] by {
        assert ("." + rest)[1..] == rest;
      }
      assert parts[0] + "." + rest == parts[0] + ("." + rest);
      SplitDotFreePrefix(parts[0], "." + rest);
      assert parts[0] + "" == parts[0];
      assert [parts[0]] + parts[1..] == parts;
    }
  }

  // ----- the string constraint -----

  /** The release named by an "at least" string: one to three numerals; None for any other shape. */
  function ParseMinimum(s: string): Option<Triple>
  {
    var parts := SplitDots(s);
    if |parts| > 3 || exists i :: 0 <= i < |parts| && !IsNumeral(parts[i]) then None
    else
      Some(Triple(
        NumeralValue(parts[0]),
        if |parts| > 1 then NumeralValue(parts[1]) else 0,
        if |parts| > 2 then NumeralValue(parts[2]) else 0))
  }

  /** One to three version components, the missing ones read as zero. */
  function Pad(comps: seq<nat>): Triple
    requires 1 <= |comps| <= 3
  {
    Triple(comps[0], if |comps| > 1 then comps[1] else 0, if |comps| > 2 then comps[2] else 0)
  }

  function Numerals(comps: seq<nat>): (parts: seq<string>)
    ensures |parts| == |comps|
    ensures forall i :: 0 <= i < |comps| ==> parts[i] == Decimal(comps[i])
  {
    seq(|comps|, i requires 0 <= i < |comps| => Decimal(comps[i]))
  }

  /** The string constraint that names the components `comps`: "10", "10.0", "10.0.0". */
  function Format(comps: seq<nat>): string
    requires 1 <= |comps| <= 3
  {
    JoinDots(Numerals(comps))
  }

  /** Every numeric string constraint is read as the release it names. */
  lemma ParseFormat(comps: seq<nat>)
    requires 1 <= |comps| <= 3
    ensures ParseMinimum(Format(comps)) == Some(Pad(comps))
  {
    var parts := Numerals(comps);
    SplitJoin(parts);
    forall i | 0 <= i < |comps| ensures NumeralValue(parts[i]) == comps[i] {
      DecimalValue(comps[i]);
    }
  }

  /**
   * Whether the installed version `v` satisfies the string constraint `s`, which is
   * read as ">= s". An installed prerelease satisfies no such constraint, and a
   * string that names no release is never satisfied.
   */
  predicate AtLeast(v: Version, s: string)
  {
    && v.prerelease == ""
    && match ParseMinimum(s)
       case None => false
       case Some(t) => TripleLe(t, Release(v))
  }

  /** What the string constraint `Format(comps)` demands of an installed version. */
  lemma AtLeastMeaning(v: Version, comps: seq<nat>)
    requires 1 <= |comps| <= 3
    ensures AtLeast(v, Format(comps)) <==> v.prerelease == "" && TripleLe(Pad(comps), Release(v))
  {
    ParseFormat(comps);
  }

  /** A newer stable release satisfies every string constraint an older one does. */
  lemma AtLeastMonotone(v: Version, w: Version, s: string)
    requires AtLeast(v, s)
    requires w.prerelease == "" && TripleLe(Release(v), Release(w))
    ensures AtLeast(w, s)
  {
    var t := ParseMinimum(s).value;
    TripleLeTotalOrder(t, Release(v), Release(w));
  }
}
