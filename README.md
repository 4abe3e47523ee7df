# bcrypt hash strings, modelled in Dafny

A model of the hash-string layer of the Swift `BCrypt` struct (chaqmoq/bcrypt). This
layer sits on top of a native bcrypt routine. It checks the cost (4 to 31) and formats
salts as `$2a$`/`$2b$`/`$2y$` + two-digit cost + `$` + 22 encoded characters. It accepts
either a bare 22-character salt or a tagged 29-character one. It detects the revision,
rewrites a `$2y$` salt to `$2b$` before the native call, and puts the caller's tag back on
the result. `verify` recomputes the hash from the stored 29-character prefix and compares
the last 31 characters.

Files:

- `swift_strings.dfy`, module `SwiftStrings`: Swift's `prefix`, `suffix` and `dropFirst`
  on ASCII strings (`seq<char>`), and the decimal rendering of `"\(cost)"` with its
  reading partner `DecimalValue`.
- `bcrypt.dfy`, module `BCrypt`: the `Algorithm` revisions and their fixed-width
  constants, the `BCryptError` cases as an `Error` datatype, and one function per
  operation (`AssertCost`, `AssertSalt`, `GenerateSalt`, `DetectAlgorithm`, `NativeSalt`,
  `Hash`, `HashWithCost`, `Verify`). Throwing calls return `Result` or `Check`.
- `bcrypt_properties.dfy`, module `BCryptProperties`: lemmas that relate the operations
  to each other.

The code has no loops and no mutable state: `BCrypt` is a struct with no fields, so every
operation is a function.

The native routine `bcrypt_hashpass` is a parameter `native: (string, string) -> NativeResult`.
`NativeResult` holds the status code and the string left in the output buffer. Because it is
a Dafny function, the routine is deterministic. Nothing else is assumed about it, except in
the lemmas that say so. The round-trip lemmas require `EchoesSalt`: on success the routine
returns 60 characters that begin with the 29-character salt it was given.

`generateSalt` takes its random input as a parameter `RandomDraw`. `Encoded(chars)` holds the
encoded characters. `ReadFailed` stands for an error from the random source, which
`generateSalt` passes on unchanged (`RandomSourceError`).

Behaviour worth knowing:

- The returned hash keeps the caller's `$2y$` tag; only the salt handed to the native routine
  carries `$2b$` (`Sources/BCrypt/BCrypt.swift:44-54`).
- `assertSalt` checks only the revision tag and the length. It does not check that the cost is
  two digits in range or that the seventh character is `$`; the native routine sees such salts.
- `verify` refuses a hash only for a missing revision tag or fewer than 31 characters. A longer
  or shorter hash than 60 characters is otherwise passed on.

## Model

| member | source | states |
|---|---|---|
| `BCrypt.Algorithm.RawValue` | Sources/BCrypt/BCrypt.swift:107-110 | every revision tag is four characters of the form `$2?$` |
| `BCrypt.AllCases` | Sources/BCrypt/BCrypt.swift:107-110 | `allCases` holds three revisions, every revision appears, and their tags are pairwise distinct |
| `BCrypt.AlgorithmFromRawValue` | Sources/BCrypt/BCrypt.swift:107-110 | `Algorithm(rawValue:)` returns a revision exactly when the string is that revision's tag |
| `BCrypt.AssertCost` | Sources/BCrypt/BCrypt.swift:74-76 | passes exactly when 4 <= cost <= 31, otherwise fails with `invalidCost(cost)` |
| `BCrypt.AssertSalt` | Sources/BCrypt/BCrypt.swift:78-86 | passes exactly for a 22-character salt not led by a tag or a 29-character salt led by one; anything else is `invalidSalt(salt)` |
| `SwiftStrings.Decimal` | Sources/BCrypt/BCrypt.swift:21 | the interpolated cost is all digits with no leading zero: one digit below 10, two digits from 10 to 99 |
| `SwiftStrings.DecimalRoundTrip` | Sources/BCrypt/BCrypt.swift:21 | reading the rendered digits back gives the number |
| `SwiftStrings.LeadingZero` | Sources/BCrypt/BCrypt.swift:21 | the `"0"` padding does not change the value of the digits |
| `BCrypt.CostField` | Sources/BCrypt/BCrypt.swift:21 | the cost field is all digits and two characters long for every valid cost |
| `BCryptProperties.CostFieldRoundTrip` | Sources/BCrypt/BCrypt.swift:21 | for every valid cost the two-character field reads back as the cost, and it starts with `0` exactly when the cost is below 10 |
| `BCrypt.GenerateSalt` | Sources/BCrypt/BCrypt.swift:17-22 | an invalid cost fails with `invalidCost(cost)` for every revision, whatever the random source would have given; a valid cost fails only if the random source fails; otherwise the result is the tag, then `$` at index 6, then the encoded characters |
| `BCryptProperties.GenerateSaltFormat` | Sources/BCrypt/BCrypt.swift:17-22 | with 22 encoded characters the salt is 4 + 2 + 1 + 22 = 29 characters; its cost digits read back as the cost; `assertSalt` accepts it; it is detected as the requested revision |
| `BCrypt.DetectAlgorithm` | Sources/BCrypt/BCrypt.swift:30-42 | a detected revision is either `$2b$` for a 22-character salt or the revision named by the salt's first four characters; failure is `invalidSalt(salt)` |
| `BCryptProperties.DetectAfterAssertSalt` | Sources/BCrypt/BCrypt.swift:29-42 | after `assertSalt` passes, detection never fails, so the throw at line 40 is unreachable; a bare salt is `$2b$` and a tagged salt is its tag's revision |
| `BCrypt.NativeSalt` | Sources/BCrypt/BCrypt.swift:44-46 | a `$2y$` salt is handed on as `$2b$` with the rest unchanged; every other salt is handed on unchanged |
| `BCryptProperties.NativeSaltShape` | Sources/BCrypt/BCrypt.swift:44-46 | for an accepted salt the native salt has the same length and differs at most in its first four characters; it is rewritten exactly when the salt starts with `$2y$`; the native routine never sees a `$2y$` tag |
| `BCrypt.Hash` | Sources/BCrypt/BCrypt.swift:28-55 | a rejected salt fails with `invalidSalt(salt)`; the only errors are `invalidSalt` and `invalidPlaintext`; a result always starts with a revision tag |
| `BCryptProperties.HashKeepsRevision` | Sources/BCrypt/BCrypt.swift:44-54 | for an accepted salt, a nonzero native status gives `invalidPlaintext(plaintext)`; otherwise the result is the caller's tag (`$2b$` for a bare salt) followed by the native output minus its first four characters |
| `BCryptProperties.Hash2yAs2b` | Sources/BCrypt/BCrypt.swift:44-54 | a `$2y$` salt and the same salt tagged `$2b$` succeed or fail together, and their hashes differ only in the tag |
| `BCrypt.HashWithCost` | Sources/BCrypt/BCrypt.swift:24-26 | an invalid cost fails with `invalidCost(cost)`, and a random-source failure is passed on, before any hashing; otherwise the result is exactly `hash(_:salt:)` on the generated salt |
| `BCrypt.Verify` | Sources/BCrypt/BCrypt.swift:57-72 | fails with `invalidHash` exactly when the first four characters are not a tag or the hash is shorter than 31 characters; otherwise it returns a value exactly when recomputing the hash from the first 29 characters succeeds, and the only error is `invalidPlaintext`; a result is true exactly when the last 31 characters of the hash recomputed from the first 29 equal the stored last 31 |
| `BCryptProperties.VerifyAcceptsOwnHash` | Tests/BCryptTests/BCryptTests.swift:109 | for every tagged 29-character salt, if the native routine echoes its salt then `verify(p, against: hash(p, salt:))` is true, the hash begins with that salt, and `hash` can only fail with `invalidPlaintext` |
| `BCryptProperties.VerifyRejectsOtherPlaintext` | Sources/BCrypt/BCrypt.swift:68-71 | a stored hash is refused (false, not an error) for another plaintext whose native checksum differs |
| `BCryptProperties.VerifyAcceptsHashWithCost` | Tests/BCryptTests/BCryptTests.swift:105 | for every valid cost and every revision, `verify(p, against: hash(p, cost:algorithm:))` is true, the hash begins with the generated 29-character salt, and it keeps the requested tag, `$2y$` included |
| `BCryptProperties.RejectsMalformedInputs` | Tests/BCryptTests/BCryptTests.swift:77-112 | costs 3 and 32 are `invalidCost`, `"invalidHash"` is `invalidHash` and `"invalidSalt"` is `invalidSalt` |

## Left out

- The native target `BCryptC` (`bcrypt_hashpass`, `encode_base64`): the Blowfish key schedule and the bcrypt Base64 alphabet are not part of this model. The hashing routine is a parameter, and the encoded salt is an input.
- `generateRandomBase64EncodedString` (`Sources/BCrypt/BCrypt.swift:7-15`): it sizes its buffer with floating point (`ceil(count * 1.37)`) and reads raw C memory. Its result is the input `RandomDraw`.
- `Sources/BCrypt/URandom.swift`: file I/O on the OS random device. Its errors are the single tag `RandomSourceError`, with no path or `errno`.
- The 128-byte output buffer and its deallocation in `hash`: memory handling only. The native output is the string the buffer holds.
- `errorDescription` message texts: presentation only.
- Timing: `verify` compares with plain equality, and the model does not speak about constant time.
- Swift counts `String` length in grapheme clusters. The model treats strings as sequences of ASCII characters.
- Cost is a Swift `UInt` (64 bits) and is modelled as `nat`. No arithmetic is done on it, so the width does not matter.
- Default arguments (`cost = 12`, `algorithm = ._2b`) are not modelled. `HashWithCost` always takes both explicitly.
