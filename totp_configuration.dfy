/** The TOTP settings object: a secret, a hash algorithm taken from a closed
    set of four names, a period and a digit count, fixed at construction. */
module Totp {

  import opened Wrappers
  import PhpArrays

  /** PHP's `int` on a 64-bit platform. The configuration stores such values
      and never computes with them, so no wrap-around arises. */
  newtype Int64 = x: int | -0x8000_0000_0000_0000 <= x < 0x8000_0000_0000_0000

  /** An algorithm name that the configuration accepts. Giving the field this
      type means that no configuration object can hold any other name. */
  type Algorithm = a: string | TotpConfiguration.IsValidAlgorithm(a)
    witness TotpConfiguration.ALGORITHM_SHA1

  /** The error outcome of construction; it carries the rejected name, which
      the source interpolates into its exception message. */
  datatype ConfigurationError = UnsupportedAlgorithm(algorithm: string)

  class TotpConfiguration {

    static const ALGORITHM_MD5: string := "md5"
    static const ALGORITHM_SHA1: string := "sha1"
    static const ALGORITHM_SHA256: string := "sha256"
    static const ALGORITHM_SHA512: string := "sha512"

    /** The list the membership test scans, in the source's order. */
    static const SUPPORTED_ALGORITHMS: seq<string> :=
      [ALGORITHM_MD5, ALGORITHM_SHA1, ALGORITHM_SHA256, ALGORITHM_SHA512]

    // The fields are constants: assigned once by the constructor and never
    // changed afterwards, so every accessor call on an object sees the same value.
    const secret: string
    const algorithm: Algorithm
    const period: Int64
    const digits: Int64

    /** The algorithm test: strict membership in the four-name list, which
        amounts to being exactly one of the four names. */
    static function IsValidAlgorithm(algorithm: string): (valid: bool)
      ensures valid <==>
        || algorithm == ALGORITHM_MD5
        || algorithm == ALGORITHM_SHA1
        || algorithm == ALGORITHM_SHA256
        || algorithm == ALGORITHM_SHA512
    {
      PhpArrays.InArrayStrict(algorithm, SUPPORTED_ALGORITHMS)
    }

    /** The field assignments of the source's constructor, reached only once
        the algorithm has been accepted (see Create). */
    constructor (secret: string, algorithm: Algorithm, period: Int64, digits: Int64)
      ensures this.secret == secret && this.algorithm == algorithm
      ensures this.period == period && this.digits == digits
    {
      this.secret := secret;
      this.algorithm := algorithm;
      this.period := period;
      this.digits := digits;
    }

    /** Construction as the caller sees it: it fails exactly when the
        algorithm is not one of the four names; the secret, period and digits
        are not inspected, and on success every accessor gives back the
        argument it was built from. */
    static method Create(secret: string, algorithm: string, period: Int64, digits: Int64)
      returns (r: Result<TotpConfiguration, ConfigurationError>)
      ensures r.Success? <==> IsValidAlgorithm(algorithm)
      ensures r.Failure? ==> r.error == UnsupportedAlgorithm(algorithm)
      ensures r.Success? ==> fresh(r.value)
      ensures r.Success? ==>
        && r.value.GetSecret() == secret
        && r.value.GetAlgorithm() == algorithm
        && r.value.GetPeriod() == period
        && r.value.GetDigits() == digits
    {
      if !IsValidAlgorithm(algorithm) {
        return Failure(UnsupportedAlgorithm(algorithm));
      }
      var configuration := new TotpConfiguration(secret, algorithm, period, digits);
      return Success(configuration);
    }

    /** The secret as given, Base32 text by convention, neither decoded nor checked. */
    function GetSecret(): string
    {
      secret
    }

    /** The stored algorithm name, which is always one of the four. */
    function GetAlgorithm(): (a: string)
      ensures IsValidAlgorithm(a)
    {
      algorithm
    }

    function GetPeriod(): Int64
    {
      period
    }

    function GetDigits(): Int64
    {
      digits
    }
  }
}
