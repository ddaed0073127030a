/**
 The password strength policy of the forms module: a length rule counted in
 UTF-8 bytes, then one rule each for an uppercase, a lowercase and a numeric
 character, run in that order and stopping at the first rule that fails.
 */
module Password {
  import opened StdText

  /** `validator::ValidationError::new(code)`: an error that carries only its code. */
  datatype ValidationError = ValidationError(code: string)

  /** `Result<(), ValidationError>`, usable with `:-` as the source uses `?`. */
  datatype CheckResult = Ok | Err(error: ValidationError) {
    predicate IsFailure() { Err? }

    function PropagateFailure(): CheckResult
      requires Err?
    {
      this
    }
  }

  const TooShort := ValidationError("The password must be at least 8 characters long.\n")
  const NoUppercase := ValidationError("The password must include least one uppercase character.\n")
  /** The lowercase rule reports the very text of the uppercase rule. */
  const NoLowercase := ValidationError("The password must include least one uppercase character.\n")
  const NoDigit := ValidationError("The password has to contain at least one digit.\n")

  /** The lowercase rule shares the uppercase code; the other three codes differ. */
  lemma ErrorCodes()
    ensures NoLowercase == NoUppercase
    ensures TooShort != NoUppercase && TooShort != NoDigit && NoUppercase != NoDigit
  {
    assert NoDigit.code[13] != NoUppercase.code[13];
    assert TooShort.code[18] != NoUppercase.code[18];
    assert TooShort.code[13] != NoDigit.code[13];
  }

  /** Smallest accepted length, in bytes. */
  const MinByteLen := 8

  function Require(condition: bool, error: ValidationError): CheckResult {
    if condition then Ok else Err(error)
  }

  // ---------------------------------------------------------------------------
  // The four rules.
  // ---------------------------------------------------------------------------

  /** `is_long`: rejects a password whose UTF-8 encoding is shorter than 8 bytes. */
  function IsLong(password: string): (r: CheckResult)
    ensures r.Ok? <==> ByteLen(password) >= MinByteLen
    ensures r.Err? ==> r.error == TooShort
  {
    if ByteLen(password) < MinByteLen then Err(TooShort) else Ok
  }

  ghost predicate ContainsUppercase(s: string) {
    exists i :: 0 <= i < |s| && IsUpper(s[i])
  }

  ghost predicate ContainsLowercase(s: string) {
    exists i :: 0 <= i < |s| && IsLower(s[i])
  }

  ghost predicate ContainsNumber(s: string) {
    exists i :: 0 <= i < |s| && IsNumeric(s[i])
  }

  /** `has_uppercase`: scans the characters and succeeds at the first uppercase one. */
  method HasUppercase(password: string) returns (r: CheckResult)
    ensures r == Require(ContainsUppercase(password), NoUppercase)
  {
    var i := 0;
    while i < |password|
      invariant 0 <= i <= |password|
      invariant forall j :: 0 <= j < i ==> !IsUpper(password[j])
    {
      if IsUpper(password[i]) {
        return Ok;
      }
      i := i + 1;
    }
    return Err(NoUppercase);
  }

  /** `has_lowercase`: scans the characters and succeeds at the first lowercase one. */
  method HasLowercase(password: string) returns (r: CheckResult)
    ensures r == Require(ContainsLowercase(password), NoLowercase)
  {
    var i := 0;
    while i < |password|
      invariant 0 <= i <= |password|
      invariant forall j :: 0 <= j < i ==> !IsLower(password[j])
    {
      if IsLower(password[i]) {
        return Ok;
      }
      i := i + 1;
    }
    return Err(NoLowercase);
  }

  /** `has_number`: scans the characters and succeeds at the first numeric one. */
  method HasNumber(password: string) returns (r: CheckResult)
    ensures r == Require(ContainsNumber(password), NoDigit)
  {
    var i := 0;
    while i < |password|
      invariant 0 <= i <= |password|
      invariant forall j :: 0 <= j < i ==> !IsNumeric(password[j])
    {
      if IsNumeric(password[i]) {
        return Ok;
      }
      i := i + 1;
    }
    return Err(NoDigit);
  }

  // ---------------------------------------------------------------------------
  // The chain of rules.
  // ---------------------------------------------------------------------------

  /** Outcome of running `checks` in order through `?`: the first error, or success. */
  function FirstFailure(checks: seq<CheckResult>): (r: CheckResult)
    ensures r.Ok? <==> forall i :: 0 <= i < |checks| ==> checks[i].Ok?
    ensures r.Err? ==> exists k :: 0 <= k < |checks| && checks[k] == r && forall j :: 0 <= j < k ==> checks[j].Ok?
  {
    if checks == [] then Ok
    else if checks[0].Err? then checks[0]
    else
      var r := FirstFailure(checks[1..]);
      assert forall i :: 1 <= i < |checks| ==> checks[i] == checks[1..][i - 1];
      r
  }

  /** The four rule outcomes for `password`, in the order the source runs them. */
  ghost function Rules(password: string): seq<CheckResult> {
    [ IsLong(password),
      Require(ContainsUppercase(password), NoUppercase),
      Require(ContainsLowercase(password), NoLowercase),
      Require(ContainsNumber(password), NoDigit) ]
  }

  /** What `is_password_secure` returns for `password`. */
  ghost function Policy(password: string): (r: CheckResult)
    ensures r.Err? ==> r.error in {TooShort, NoUppercase, NoLowercase, NoDigit}
  {
    FirstFailure(Rules(password))
  }

  /** `Policy` unfolded into the `?` chain of the four rules. */
  lemma PolicyUnfolded(password: string)
    ensures Policy(password) ==
      if IsLong(password).Err? then IsLong(password)
      else if !ContainsUppercase(password) then Err(NoUppercase)
      else if !ContainsLowercase(password) then Err(NoLowercase)
      else if !ContainsNumber(password) then Err(NoDigit)
      else Ok
  {
    var rs := Rules(password);
    var r1, r2, r3 := rs[1..], rs[2..], rs[3..];
    assert r1[1..] == r2 && r2[1..] == r3 && r3[1..] == [];
    assert FirstFailure(r3) == rs[3];
    assert FirstFailure(r2) == if rs[2].Err? then rs[2] else rs[3];
    assert FirstFailure(r1) == if rs[1].Err? then rs[1] else FirstFailure(r2);
  }

  /** `is_password_secure`: the rules in order, each propagating its error with `?`. */
  method IsPasswordSecure(password: string) returns (r: CheckResult)
    ensures r == Policy(password)
  {
    PolicyUnfolded(password);
    :- IsLong(password);
    :- HasUppercase(password);
    :- HasLowercase(password);
    :- HasNumber(password);
    return Ok;
  }

  // ---------------------------------------------------------------------------
  // Properties of the policy.
  // ---------------------------------------------------------------------------

  /** A password is accepted exactly when it satisfies all four rules. */
  lemma PolicyAcceptsIff(password: string)
    ensures Policy(password) == Ok <==>
      ByteLen(password) >= MinByteLen && ContainsUppercase(password)
      && ContainsLowercase(password) && ContainsNumber(password)
  {
    PolicyUnfolded(password);
  }

  /** A password shorter than 8 bytes gets the length error, whatever its characters. */
  lemma ShortPasswordRejected(password: string)
    requires ByteLen(password) < MinByteLen
    ensures Policy(password) == Err(TooShort)
  {
    PolicyUnfolded(password);
  }

  /** Long enough but without uppercase: the uppercase error, whatever else is missing. */
  lemma NoUppercaseRejected(password: string)
    requires ByteLen(password) >= MinByteLen
    requires !ContainsUppercase(password)
    ensures Policy(password) == Err(NoUppercase)
  {
    PolicyUnfolded(password);
  }

  /** Long enough, with uppercase, but without lowercase: the lowercase rule's error. */
  lemma NoLowercaseRejected(password: string)
    requires ByteLen(password) >= MinByteLen
    requires ContainsUppercase(password) && !ContainsLowercase(password)
    ensures Policy(password) == Err(NoLowercase)
  {
    PolicyUnfolded(password);
  }

  /** Passing the first three rules but without a numeric character: the digit error. */
  lemma NoDigitRejected(password: string)
    requires ByteLen(password) >= MinByteLen
    requires ContainsUppercase(password) && ContainsLowercase(password)
    requires !ContainsNumber(password)
    ensures Policy(password) == Err(NoDigit)
  {
    PolicyUnfolded(password);
  }

  /**
   Every error names the first failing rule: the rule reporting it fails and
   every rule before it passes.
   */
  lemma PolicyReportsFirstFailure(password: string)
    requires Policy(password).Err?
    ensures exists k :: 0 <= k < 4 && Rules(password)[k] == Policy(password) &&
                        forall j :: 0 <= j < k ==> Rules(password)[j].Ok?
  {
    PolicyUnfolded(password);
  }

  /**
   Because the lowercase rule reuses the uppercase text, the uppercase message
   comes back exactly when the password is long enough and lacks either case.
   */
  lemma UppercaseMessageAmbiguous(password: string)
    ensures Policy(password) == Err(NoUppercase) <==>
      ByteLen(password) >= MinByteLen
      && (!ContainsUppercase(password) || !ContainsLowercase(password))
  {
    ErrorCodes();
    var rs := Rules(password);
    if ByteLen(password) >= MinByteLen && !ContainsUppercase(password) {
      NoUppercaseRejected(password);
    } else if ByteLen(password) >= MinByteLen && !ContainsLowercase(password) {
      NoLowercaseRejected(password);
    } else {
      assert rs[0] == Err(TooShort) || (rs[1].Ok? && rs[2].Ok?);
    }
  }

  /** Eight characters always pass the length rule, as every character takes at least one byte. */
  lemma EightCharactersAreLong(password: string)
    requires |password| >= 8
    ensures IsLong(password) == Ok
  {
  }

  /** For an ASCII password the byte rule is the character rule the message describes. */
  lemma AsciiLengthRule(password: string)
    requires IsAscii(password)
    ensures IsLong(password) == Ok <==> |password| >= 8
  {
    ByteLenIsCharCountIffAscii(password);
  }

  /** A five-character password is accepted: two of its characters take three bytes each. */
  lemma FiveCharacterPasswordAccepted()
    ensures |"Aa1€€"| == 5 && Policy("Aa1€€") == Ok
  {
    var p := "Aa1€€";
    assert ByteLen(p) == 9;
    assert IsUpper(p[0]) && IsLower(p[1]) && IsNumeric(p[2]);
    PolicyAcceptsIff(p);
  }

  // Fixed inputs and the outcome each one gets.

  lemma LowercaseDigitsOnlyRejected()
    ensures Policy("abc12345") == Err(NoUppercase)
  {
    var p := "abc12345";
    assert ByteLen(p) == 8;
    assert !ContainsUppercase(p) by {
      forall i | 0 <= i < |p| ensures !IsUpper(p[i]) {}
    }
    NoUppercaseRejected(p);
  }

  lemma UppercaseOnlyRejected()
    ensures Policy("ABCDEFGH") == Err(NoLowercase)
  {
    var p := "ABCDEFGH";
    assert ByteLen(p) == 8;
    assert IsUpper(p[0]);
    assert !ContainsLowercase(p) by {
      forall i | 0 <= i < |p| ensures !IsLower(p[i]) {}
    }
    NoLowercaseRejected(p);
  }

  lemma MixedPasswordAccepted()
    ensures Policy("Abcdefg1") == Ok
  {
    var p := "Abcdefg1";
    assert ByteLen(p) == 8;
    assert IsUpper(p[0]) && IsLower(p[1]) && IsNumeric(p[7]);
    PolicyAcceptsIff(p);
  }

  lemma ThreeCharacterPasswordRejected()
    ensures Policy("Ab1") == Err(TooShort)
  {
    assert ByteLen("Ab1") == 3;
    ShortPasswordRejected("Ab1");
  }
}
