/** The (major, minor, patch) triple that stands in for the semantic-version class the
    facade uses, with its ordering. */
module Versions {

  datatype Version = Version(major: nat, minor: nat, patch: nat)

  /** Three-way comparison, major first, then minor, then patch. */
  function CompareTo(a: Version, b: Version): (r: int)
    ensures -1 <= r <= 1
    ensures r == 0 <==> a == b
  {
    if a.major != b.major then (if a.major < b.major then -1 else 1)
    else if a.minor != b.minor then (if a.minor < b.minor then -1 else 1)
    else if a.patch != b.patch then (if a.patch < b.patch then -1 else 1)
    else 0
  }

  /** `a.greaterThanOrEqualTo(b)`, defined as `a.compareTo(b) >= 0`. */
  predicate GreaterThanOrEqualTo(a: Version, b: Version)
    ensures a == b ==> GreaterThanOrEqualTo(a, b)
    ensures GreaterThanOrEqualTo(a, b) ==> a.major >= b.major
  {
    CompareTo(a, b) >= 0
  }

  /** The comparison is the lexicographic order on the triple. */
  lemma GreaterThanOrEqualToIsLexicographic(a: Version, b: Version)
    ensures GreaterThanOrEqualTo(a, b) <==>
      a.major > b.major
      || (a.major == b.major && a.minor > b.minor)
      || (a.major == b.major && a.minor == b.minor && a.patch >= b.patch)
  {
  }

  lemma CompareToAntisymmetric(a: Version, b: Version)
    ensures CompareTo(a, b) == -CompareTo(b, a)
  {
  }

  /** "At least" is a total order: reflexive, antisymmetric, transitive and total. */
  lemma GreaterThanOrEqualToIsTotalOrder(a: Version, b: Version, c: Version)
    ensures GreaterThanOrEqualTo(a, a)
    ensures GreaterThanOrEqualTo(a, b) && GreaterThanOrEqualTo(b, a) ==> a == b
    ensures GreaterThanOrEqualTo(a, b) && GreaterThanOrEqualTo(b, c) ==> GreaterThanOrEqualTo(a, c)
    ensures GreaterThanOrEqualTo(a, b) || GreaterThanOrEqualTo(b, a)
  {
  }
}
