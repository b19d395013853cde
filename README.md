# TOTP configuration object

This project models `TotpConfiguration`, the settings object of the
scheb/2fa-totp component. It stores four values: a shared secret (Base32 text
by convention), a hash algorithm name, a period in seconds and a digit count.
The constructor accepts exactly four algorithm names (`md5`, `sha1`, `sha256`,
`sha512`). It compares them strictly and case-sensitively, and throws for any
other name. Nothing else is checked. Four accessors return the stored values.

Files:

- `wrappers.dfy`: the `Result` type. It stands for "returns a value or throws".
- `php_arrays.dfy`: PHP's `in_array` in strict mode (`===`), as a recursive
  membership function.
- `totp_configuration.dfy`: the class. The source offers no setter, and the
  model's fields are `const`: the constructor assigns them once and nothing
  changes them afterwards. So the accessors are functions with no side
  effects, and repeated calls return identical values. This holds for objects
  obtained from `new`; the ways PHP can bypass or re-run the constructor are
  listed under "Left out".
  The algorithm field has the subset type `Algorithm`. No object can therefore
  exist with any other algorithm name. A Dafny constructor cannot fail, so the
  PHP constructor is modelled as the static method `Create`. It returns
  `Failure(UnsupportedAlgorithm(name))` where the PHP code throws, and
  otherwise runs the field-assigning `constructor`.
- `algorithm_names.dfy`: lemmas showing that the algorithm test is exact.
  They cover case variants, foreign characters, and extra text before or
  after a name.

PHP strings are byte strings. They are modelled as `string` (`seq<char>`),
with each byte as one `char` whose code is 0 to 255. Strict string identity
(`===`) is equality of whole sequences, so comparison against the four ASCII
names is the same as PHP's byte-wise comparison. PHP `int` is modelled as the 64-bit newtype
`Int64`. The configuration stores period and digits without computing with
them. Any value is accepted, including zero and negative numbers.

## Model

| member | source | states |
|---|---|---|
| `PhpArrays.InArrayStrict` | Model/Totp/TotpConfiguration.php:41-50 | the strict scan reports true exactly when some list element is identical to the needle, i.e. the needle is a member of the list |
| `Totp.TotpConfiguration.IsValidAlgorithm` | Model/Totp/TotpConfiguration.php:39-51 | a name is valid exactly when it equals one of `md5`, `sha1`, `sha256`, `sha512` |
| `Totp.TotpConfiguration.constructor` | Model/Totp/TotpConfiguration.php:27-36 | once the algorithm is accepted, the four fields hold exactly the four arguments |
| `Totp.TotpConfiguration.Create` | Model/Totp/TotpConfiguration.php:26-37 | construction succeeds exactly when the algorithm is valid, whatever the secret, period and digits; on failure the error names the rejected algorithm and no object results; on success the object is new and each accessor returns its argument unchanged |
| `Totp.TotpConfiguration.GetSecret` | Model/Totp/TotpConfiguration.php:53-56 | returns the stored secret; `Create`'s last clause states it equals the constructor argument verbatim, with no Base32 decoding or alphabet check |
| `Totp.TotpConfiguration.GetPeriod` | Model/Totp/TotpConfiguration.php:63-66 | returns the stored period; `Create`'s last clause states it equals the constructor argument, with no range check |
| `Totp.TotpConfiguration.GetDigits` | Model/Totp/TotpConfiguration.php:68-71 | returns the stored digit count; `Create`'s last clause states it equals the constructor argument, with no range check |
| `Totp.TotpConfiguration.GetAlgorithm` | Model/Totp/TotpConfiguration.php:58-61 | the stored algorithm of any existing object is one of the four names |
| `AlgorithmNames.AcceptedNameShape` | Model/Totp/TotpConfiguration.php:13-16 | every accepted name is 3 to 6 characters of lower-case ASCII letters and digits |
| `AlgorithmNames.ForeignCharacterRejected` | Model/Totp/TotpConfiguration.php:41-50 | a name containing any character other than a lower-case letter or a digit, such as an upper-case letter, a hyphen or a space, is rejected |
| `AlgorithmNames.CaseVariantRejected` | Model/Totp/TotpConfiguration.php:41-50 | a spelling that ASCII-lower-cases to an accepted name but is not that name is rejected: there is no case folding |
| `AlgorithmNames.SurroundedNameRejected` | Model/Totp/TotpConfiguration.php:41-50 | an accepted name with any non-empty text added before or after it is rejected: the comparison is on the whole string |
| `AlgorithmNames.RejectedSpellings` | Model/Totp/TotpConfiguration.php:32-34 | `SHA1`, `sha-1`, `sha1 `, `foo` and the empty name are rejected; `md5` and `sha512` are accepted |


## Left out

- The exception class (`InvalidArgumentException`) and its `sprintf` message text: modelled as the error value `UnsupportedAlgorithm(name)`.
- `TotpConfigurationInterface` is not part of this model; the class's four accessors give its signatures.
- One-time password generation and verification (HMAC, dynamic truncation, time steps, drift windows) and Base32 decoding of the secret: the configuration class does none of this. It stores the secret verbatim.
- Type checking and scalar coercion at the PHP call boundary (a TypeError or a coercion such as `'30'` to `30`, depending on the calling file's mode) are not modelled; the model takes already-typed values.
- Objects that do not come from `new`: the model covers only configurations built by the constructor. PHP's `__construct` is a public method, so calling it again on a live object reassigns `secret`, `period` and `digits` before the algorithm check. When that check then throws, the object keeps its old algorithm with the new other fields; a valid name replaces all four fields. `unserialize` and `ReflectionClass::newInstanceWithoutConstructor` skip the constructor and can yield an object with an invalid or uninitialised algorithm. The model's `const` fields and `Algorithm` type rule all of this out.
