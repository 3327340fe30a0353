/**
 * The precedence `(*semver.Version).Compare` of github.com/Masterminds/semver
 * puts on parsed versions, which the control-plane status uses to pick the
 * lowest component version.
 */
module SemverOrder {
  import opened Foreign
  import opened Strings

  /** The pre-release `p` ranks below `q`: a version without one ranks above any with one. */
  predicate PreBelow(p: string, q: string)
  {
    p != q && (q == "" || (p != "" && LessEq(p, q)))
  }

  /**
   * -1, 0 or 1 as `a` ranks below, with or above `b`: major, minor and patch
   * numerically, then the pre-release. Pre-releases are compared as whole
   * strings, byte by byte.
   */
  function Compare(a: SemVer, b: SemVer): (r: int)
    ensures -1 <= r <= 1
  {
    if a.major != b.major then (if a.major < b.major then -1 else 1)
    else if a.minor != b.minor then (if a.minor < b.minor then -1 else 1)
    else if a.patch != b.patch then (if a.patch < b.patch then -1 else 1)
    else if a.prerelease == b.prerelease then 0
    else if PreBelow(a.prerelease, b.prerelease) then -1
    else 1
  }

  /** Exactly one of two different pre-releases ranks below the other. */
  lemma PreBelowTotal(p: string, q: string)
    requires p != q
    ensures PreBelow(p, q) != PreBelow(q, p)
  {
    if p != "" && q != "" {
      LessEqTotal(p, q);
      if LessEq(p, q) && LessEq(q, p) {
        LessEqAntisym(p, q);
      }
    }
  }

  lemma PreBelowTrans(p: string, q: string, r: string)
    requires PreBelow(p, q) && PreBelow(q, r)
    ensures PreBelow(p, r)
  {
    if r != "" {
      LessEqTrans(p, q, r);
      if p == r {
        LessEqAntisym(p, q);
      }
    }
  }

  /** Swapping the operands negates the answer; 0 means the same numbers and pre-release. */
  lemma CompareAntisym(a: SemVer, b: SemVer)
    ensures Compare(a, b) == -Compare(b, a)
    ensures Compare(a, b) == 0 <==>
      a.major == b.major && a.minor == b.minor && a.patch == b.patch && a.prerelease == b.prerelease
  {
    if a.prerelease != b.prerelease {
      PreBelowTotal(a.prerelease, b.prerelease);
    }
  }

  /** Ranking below something that ranks at most as high as `c` is ranking below `c`. */
  lemma CompareTrans(a: SemVer, b: SemVer, c: SemVer)
    requires Compare(a, b) < 0 && Compare(b, c) <= 0
    ensures Compare(a, c) < 0
  {
    CompareAntisym(b, c);
    if a.major == b.major && a.minor == b.minor && a.patch == b.patch &&
       b.major == c.major && b.minor == c.minor && b.patch == c.patch &&
       a.prerelease != b.prerelease && b.prerelease != c.prerelease {
      PreBelowTrans(a.prerelease, b.prerelease, c.prerelease);
    }
  }
}
