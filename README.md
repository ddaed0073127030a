# Credential forms and password policy of rocket_auth

A Dafny model of the `forms` module of rocket_auth: the `Login` and `Signup`
credential records, the three `From` conversions between them, their redacted
`Debug` rendering, and the password strength rule `is_password_secure` with
its four sub-rules `is_long`, `has_uppercase`, `has_lowercase` and
`has_number`.

Files:

- `std_text.dfy` (module `StdText`): the standard-library behaviour the forms
  rely on. It holds the character classes, the UTF-8 byte length that
  `str::len` returns, and the `{:?}` quoting of a string together with its
  inverse.
- `password.dfy` (module `Password`): `ValidationError`, the
  `Result<(), ValidationError>` type as `CheckResult`, the four rules, and
  `is_password_secure`. The three `has_*` rules are methods that scan the
  password with a loop and return at the first matching character. Each is
  proved equal to an existential predicate. `IsPasswordSecure` chains the
  rules with `:-`, as the source chains them with `?`. It is proved equal to
  `Policy`, which is the first failure among the four rule outcomes.
- `forms.dfy` (module `Forms`): the two records, the conversions, the
  `Debug` renderings, and a parser that reads the email back out of a
  rendering.

Notes on the source:

- `is_long` compares `password.len()` against 8. In Rust that length is in
  UTF-8 bytes, while the message speaks of characters. The model follows the
  code. `FiveCharacterPasswordAccepted` shows the difference on a concrete
  input: a five-character password with two three-byte characters is
  accepted. For ASCII passwords the two measures agree (`AsciiLengthRule`).
- `has_lowercase` fails with the uppercase rule's text. The model keeps that
  text. `UppercaseMessageAmbiguous` states the consequence: the uppercase
  message alone does not tell a caller which of the two case rules failed.
- Both `Debug` implementations print the label `Signup`, `Login`'s included.
- Some passwords occur in every rendering: the empty one, and `"Signup"`.
  So a rendering cannot be promised never to contain the password. What the
  model proves instead is that the rendering is determined by the email
  alone, in both directions, and ends in the fixed masked text.

## Model

| member | source | states |
|---|---|---|
| `StdText.Utf8Width` | src/forms/mod.rs:74 | one character takes 1 to 4 UTF-8 bytes, and 1 exactly when it is ASCII |
| `StdText.ByteLen` | src/forms/mod.rs:74 | the byte length `len()` reports lies between the character count and four times it |
| `StdText.ByteLenIsCharCountIffAscii` | src/forms/mod.rs:74 | byte length equals character count if and only if every character is ASCII |
| `StdText.ByteLenConcat` | src/forms/mod.rs:74 | byte length adds up over concatenation |
| `StdText.EscapeChar` | src/forms/mod.rs:24 | a character escapes to one or two characters, two exactly when it begins with a backslash, never to a bare quote |
| `StdText.DebugQuote` | src/forms/mod.rs:24 | `{:?}` of a string is wrapped in double quotes |
| `StdText.UnquoteDebugQuote` | src/forms/mod.rs:24 | stripping the quotes and undoing the escapes gives back the original string |
| `StdText.DebugQuoteInjective` | src/forms/mod.rs:24 | two strings have the same `{:?}` text if and only if they are equal |
| `Password.ErrorCodes` | src/forms/mod.rs:73-116 | of the four error codes (`TooShort` at line 76, `NoUppercase` at 90, `NoLowercase` at 102, `NoDigit` at 113), the lowercase one equals the uppercase one and the other three are pairwise distinct |
| `Password.Policy` | src/forms/mod.rs:65-71 | the result of `is_password_secure`; any error it returns is one of the four rule codes |
| `Password.IsLong` | src/forms/mod.rs:73-81 | passes if and only if the UTF-8 length is at least 8, and otherwise fails with the length message |
| `Password.HasUppercase` | src/forms/mod.rs:83-92 | the loop returns `Ok` if and only if some character is uppercase, and otherwise the uppercase message |
| `Password.HasLowercase` | src/forms/mod.rs:94-104 | the loop returns `Ok` if and only if some character is lowercase, and otherwise the lowercase rule's message |
| `Password.HasNumber` | src/forms/mod.rs:106-116 | the loop returns `Ok` if and only if some character is numeric, and otherwise the digit message |
| `Password.FirstFailure` | src/forms/mod.rs:65-71 | a `?` chain succeeds if and only if every step does; a failure is the error of the first failing step, with every earlier step passing |
| `Password.PolicyUnfolded` | src/forms/mod.rs:65-71 | the policy is the chain length, then uppercase, then lowercase, then digit |
| `Password.IsPasswordSecure` | src/forms/mod.rs:65-71 | the method that runs the four rules with early return gives exactly the policy's outcome |
| `Password.PolicyAcceptsIff` | src/forms/mod.rs:65-71 | a password is accepted if and only if it is at least 8 bytes long and has an uppercase, a lowercase and a numeric character |
| `Password.ShortPasswordRejected` | src/forms/mod.rs:66-81 | any password under 8 bytes gets the length message, whatever its characters |
| `Password.NoUppercaseRejected` | src/forms/mod.rs:66-92 | a long enough password without uppercase gets the uppercase message |
| `Password.NoLowercaseRejected` | src/forms/mod.rs:66-104 | a long enough password with uppercase but no lowercase gets the lowercase rule's message |
| `Password.NoDigitRejected` | src/forms/mod.rs:66-116 | a password passing the first three rules but without a numeric character gets the digit message |
| `Password.PolicyReportsFirstFailure` | src/forms/mod.rs:65-71 | every error returned is the outcome of one rule that all earlier rules passed |
| `Password.UppercaseMessageAmbiguous` | src/forms/mod.rs:89-103 | the uppercase message is returned if and only if the password is long enough and lacks uppercase or lacks lowercase |
| `Password.EightCharactersAreLong` | src/forms/mod.rs:73-81 | any password of eight or more characters passes the length rule |
| `Password.AsciiLengthRule` | src/forms/mod.rs:73-81 | for an ASCII password the length rule passes if and only if it has at least 8 characters |
| `Password.FiveCharacterPasswordAccepted` | src/forms/mod.rs:65-81 | the five-character password `Aa1€€` passes the whole policy, as it takes 9 bytes |
| `Password.LowercaseDigitsOnlyRejected` | src/forms/mod.rs:65-92 | `abc12345` fails with the uppercase message |
| `Password.UppercaseOnlyRejected` | src/forms/mod.rs:65-104 | `ABCDEFGH` fails with the lowercase rule's message |
| `Password.MixedPasswordAccepted` | src/forms/mod.rs:65-116 | `Abcdefg1` is accepted |
| `Password.ThreeCharacterPasswordRejected` | src/forms/mod.rs:65-81 | `Ab1` fails with the length message |
| `Forms.StructuralEquality` | src/forms/mod.rs:5-19 | the `Login` and `Signup` records compare equal exactly when both their email and their password are equal, as the derived `PartialEq` does |
| `Forms.LoginFromSignup` | src/forms/mod.rs:39-46 | the `Login` has the signup's email and password |
| `Forms.SignupFromLogin` | src/forms/mod.rs:48-55 | the `Signup` has the login's email and password |
| `Forms.LoginFromDeref` | src/forms/mod.rs:57-64 | the `Login` has the fields of the form behind the pointer, equals the by-value conversion of it, and nothing is modified |
| `Forms.SignupLoginRoundTrip` | src/forms/mod.rs:39-55 | converting a `Signup` to a `Login` and back gives the same `Signup` |
| `Forms.LoginSignupRoundTrip` | src/forms/mod.rs:39-55 | converting a `Login` to a `Signup` and back gives the same `Login` |
| `Forms.UpgradeSkipsPolicy` | src/forms/mod.rs:48-55 | a `Signup` made from a `Login` can hold a password the policy rejects |
| `Forms.ParseRendering` | src/forms/mod.rs:20-37 | the email can be read back exactly from the rendered text |
| `Forms.SignupDebug` | src/forms/mod.rs:20-28 | the `Signup` rendering gives back exactly its email and ends in `, password: "*****" }` |
| `Forms.LoginDebug` | src/forms/mod.rs:29-37 | the `Login` rendering gives back exactly its email and ends in `, password: "*****" }` |
| `Forms.SignupDebugDependsOnlyOnEmail` | src/forms/mod.rs:20-28 | two `Signup`s render the same if and only if their emails are equal, whatever their passwords |
| `Forms.LoginDebugDependsOnlyOnEmail` | src/forms/mod.rs:29-37 | two `Login`s render the same if and only if their emails are equal, whatever their passwords |
| `Forms.LoginDebugUsesSignupLabel` | src/forms/mod.rs:29-37 | a `Login` renders exactly as the `Signup` with the same fields, starting with the label `Signup` |

## Left out

- The `#[validate(email)]` rules and the derived `Validate` implementations. The email syntax check belongs to the `validator` crate, whose rule is not part of this model. Only the password rule those derives call is modelled.
- `StdText.IsUpper`, `StdText.IsLower` and `StdText.IsNumeric` cover only ASCII letters and digits. Rust's `char::is_uppercase`, `is_lowercase` and `is_numeric` use the Unicode tables, which are not encoded. Rust's classes overlap (U+2160 is both uppercase and numeric); the ASCII ones do not, but no lemma relies on that. The fixed-input lemmas (`LowercaseDigitsOnlyRejected`, `UppercaseOnlyRejected`, `MixedPasswordAccepted`, `FiveCharacterPasswordAccepted`) use the ASCII definitions; the lemmas about all passwords do not depend on them.
- `StdText.DebugQuote` escapes only `\0`, `\t`, `\r`, `\n`, `\\` and `"`. Rust's `{:?}` also writes `\u{…}` for non-printable and grapheme-extending characters, which depends on Unicode tables. The model does not capture those escapes.
- The `Formatter` I/O of `Debug::fmt`: the rendering is a pure string function.
- The `FromForm`, `Deserialize` and `Hash` derives: request decoding, serde and hashing. Structural equality is Dafny datatype equality.
- The `pub(crate)` visibility of the password field: Dafny has no field visibility short of export sets.
- Ownership: the by-value `From<Signup>` consumes its argument. Values are immutable in Dafny, so the model does not capture the move.
- The commented-out `throw!` lines, which are dead code.
