/**
 * The host's release as the start-up and object layers see it.
 *
 * `UnityVersion` and its `<` operator are not part of this model; they are
 * taken to be an ordered (major, minor, patch) triple compared
 * lexicographically. The start-up code also reads the executable's file
 * version, of which it only uses the major and minor parts.
 */
module Versions {

  datatype UnityVersion = UnityVersion(major: nat, minor: nat, patch: nat)

  /** `FileVersionInfo.FileMajorPart` and `FileMinorPart` of the host executable. */
  datatype FileVersion = FileVersion(major: int, minor: int)

  const Unity5_0: UnityVersion := UnityVersion(5, 0, 0)

  predicate Less(a: UnityVersion, b: UnityVersion) {
    a.major < b.major
    || (a.major == b.major && a.minor < b.minor)
    || (a.major == b.major && a.minor == b.minor && a.patch < b.patch)
  }

  predicate LessEq(a: UnityVersion, b: UnityVersion) {
    a == b || Less(a, b)
  }

  /** The assumed order is a strict total order, so any comparison against a fixed release splits versions in two intervals. */
  lemma LessIsStrictTotalOrder(a: UnityVersion, b: UnityVersion, c: UnityVersion)
    ensures !Less(a, a)
    ensures Less(a, b) && Less(b, c) ==> Less(a, c)
    ensures a == b || Less(a, b) || Less(b, a)
  {
  }
}
