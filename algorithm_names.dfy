/** What strict membership in the four-name list implies about the names the
    configuration accepts and rejects: the test is exact and case-sensitive. */
module AlgorithmNames {

  import opened Totp

  predicate IsLowerOrDigit(c: char)
  {
    'a' <= c <= 'z' || '0' <= c <= '9'
  }

  /** ASCII lower-casing of one character; everything but 'A'..'Z' is kept. */
  function LowerChar(c: char): char
  {
    if 'A' <= c <= 'Z' then (c as int + 32) as char else c
  }

  /** ASCII lower-casing of a whole name, used to speak about case variants. */
  function AsciiLower(s: string): (t: string)
    ensures |t| == |s|
    ensures forall i :: 0 <= i < |s| ==> t[i] == LowerChar(s[i])
  {
    if s == [] then [] else [LowerChar(s[0])] + AsciiLower(s[1..])
  }

  /** Every accepted name is three to six characters long and made only of
      lower-case ASCII letters and digits. */
  lemma AcceptedNameShape(s: string)
    requires TotpConfiguration.IsValidAlgorithm(s)
    ensures 3 <= |s| <= 6
    ensures forall i :: 0 <= i < |s| ==> IsLowerOrDigit(s[i])
  {
  }

  /** A name holding any other character (an upper-case letter, a hyphen,
      a space) is rejected: `SHA1`, `sha-1` and ` sha1` all fail. */
  lemma ForeignCharacterRejected(s: string, i: int)
    requires 0 <= i < |s| && !IsLowerOrDigit(s[i])
    ensures !TotpConfiguration.IsValidAlgorithm(s)
  {
  }

  /** The comparison does not fold case: a spelling that lower-cases to an
      accepted name but differs from it (`MD5`, `Sha256`) is rejected. */
  lemma CaseVariantRejected(s: string, t: string)
    requires TotpConfiguration.IsValidAlgorithm(s)
    requires AsciiLower(t) == s && t != s
    ensures !TotpConfiguration.IsValidAlgorithm(t)
  {
  }

  /** The comparison is on the whole string: an accepted name with anything
      added before or after it (`sha1 `, `hmac-sha256`, `sha512x`) is rejected. */
  lemma SurroundedNameRejected(s: string, prefix: string, suffix: string)
    requires TotpConfiguration.IsValidAlgorithm(s)
    requires prefix + suffix != []
    ensures !TotpConfiguration.IsValidAlgorithm(prefix + s + suffix)
  {
    var padded := prefix + s + suffix;
    assert |padded| > |s|;
    assert padded[|prefix|] == s[0] && padded[|prefix| + |s| - 1] == s[|s| - 1];
  }

  /** The spellings a caller is most likely to try instead of the four
      accepted names are all rejected, and the four names themselves pass. */
  lemma RejectedSpellings()
    ensures !TotpConfiguration.IsValidAlgorithm("SHA1")
    ensures !TotpConfiguration.IsValidAlgorithm("sha-1")
    ensures !TotpConfiguration.IsValidAlgorithm("sha1 ")
    ensures !TotpConfiguration.IsValidAlgorithm("foo")
    ensures !TotpConfiguration.IsValidAlgorithm("")
    ensures TotpConfiguration.IsValidAlgorithm("md5") && TotpConfiguration.IsValidAlgorithm("sha512")
  {
  }
}
