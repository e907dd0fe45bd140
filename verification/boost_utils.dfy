/** Splitting BOOST_VERSION into the major, minor and patch numbers it is
    made of (BOOST_VERSION = major·100000 + minor·100 + patch). */
module BoostUtils {

  /** C++ integer division, which truncates toward zero (Dafny's `/` is
      Euclidean and differs on negative dividends). */
  function CDiv(a: int, b: int): (q: int)
    requires b > 0
    ensures a >= 0 ==> q == a / b
    ensures a < 0 ==> q * b - b < a <= q * b
  {
    if a >= 0 then a / b else -((-a) / b)
  }

  /** C++ `%`, whose result takes the sign of the dividend. */
  function CMod(a: int, b: int): (r: int)
    requires b > 0
    ensures a == CDiv(a, b) * b + r
    ensures a >= 0 ==> 0 <= r < b
    ensures a < 0 ==> -b < r <= 0
  {
    a - CDiv(a, b) * b
  }

  datatype BoostVersion = BoostVersion(major: int, minor: int, patch: int)

  /** The numbers LogBoostVersion prints for `version`. */
  function DecomposeBoostVersion(version: int): (v: BoostVersion)
    ensures version >= 0 ==> v.major >= 0 && 0 <= v.minor < 1000 && 0 <= v.patch < 100
  {
    BoostVersion(CDiv(version, 100000), CMod(CDiv(version, 100), 1000), CMod(version, 100))
  }

  /** Truncating division by 100 and then by 1000 is truncating division by
      100000. */
  lemma DivideInTwoSteps(a: int)
    ensures CDiv(CDiv(a, 100), 1000) == CDiv(a, 100000)
  {
    if a >= 0 {
      NestedDivision(a);
    } else {
      NestedDivision(-a);
    }
  }

  lemma NestedDivision(a: nat)
    ensures (a / 100) / 1000 == a / 100000
  {
    var q := a / 100;
    var r := a % 100;
    var q2 := q / 1000;
    var r2 := q % 1000;
    assert a == q2 * 100000 + (r2 * 100 + r);
    assert 0 <= r2 * 100 + r < 100000;
    UniqueQuotient(a, 100000, q2, r2 * 100 + r);
  }

  lemma UniqueQuotient(a: int, b: int, q: int, r: int)
    requires b > 0 && a == q * b + r && 0 <= r < b
    ensures a / b == q
  {
    var q' := a / b;
    var r' := a % b;
    assert a == q' * b + r';
    assert (q' - q) * b == r - r';
    if q' > q {
      MultipleAtLeast(q' - q, b);
    } else if q' < q {
      MultipleAtLeast(q - q', b);
    }
  }

  lemma MultipleAtLeast(k: int, b: int)
    requires k >= 1 && b > 0
    ensures k * b >= b
  {
  }

  /** The three numbers give back the version they were taken from, for any
      version, so no information is lost by printing them. */
  lemma DecompositionRoundTrip(version: int)
    ensures var v := DecomposeBoostVersion(version);
      v.major * 100000 + v.minor * 100 + v.patch == version
  {
    var v := DecomposeBoostVersion(version);
    var q := CDiv(version, 100);
    DivideInTwoSteps(version);
    assert q == CDiv(q, 1000) * 1000 + v.minor;
    assert version == q * 100 + v.patch;
    assert v.major * 100000 == CDiv(q, 1000) * 1000 * 100;
  }

  /** A version is determined by its parts, and parts in range come from the
      version they spell. */
  lemma ComposeDecompose(major: nat, minor: nat, patch: nat)
    requires minor < 1000 && patch < 100
    ensures DecomposeBoostVersion(major * 100000 + minor * 100 + patch) == BoostVersion(major, minor, patch)
  {
    var version := major * 100000 + minor * 100 + patch;
    UniqueQuotient(version, 100, major * 1000 + minor, patch);
    UniqueQuotient(major * 1000 + minor, 1000, major, minor);
    UniqueQuotient(version, 100000, major, minor * 100 + patch);
  }
}
