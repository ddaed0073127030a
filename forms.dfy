/**
 The two credential forms, the conversions between them, and their redacted
 debug rendering.
 */
module Forms {
  import opened StdText
  import Password

  /** Credentials submitted to log in; equality is structural over both fields. */
  datatype Login = Login(email: string, password: string)

  /** Credentials submitted to create an account; equality is structural over both fields. */
  datatype Signup = Signup(email: string, password: string)

  /** The derived `PartialEq`: two forms of one kind are equal exactly when both fields are. */
  lemma StructuralEquality(a: Login, b: Login, c: Signup, d: Signup)
    ensures a == b <==> a.email == b.email && a.password == b.password
    ensures c == d <==> c.email == d.email && c.password == d.password
  {
  }

  // ---------------------------------------------------------------------------
  // Conversions. Each copies both fields and runs no validation.
  // ---------------------------------------------------------------------------

  /** `impl From<Signup> for Login`. */
  function LoginFromSignup(form: Signup): (l: Login)
    ensures l.email == form.email && l.password == form.password
  {
    Login(form.email, form.password)
  }

  /** `impl From<Login> for Signup`. */
  function SignupFromLogin(form: Login): (s: Signup)
    ensures s.email == form.email && s.password == form.password
  {
    Signup(form.email, form.password)
  }

  /** A value behind a pointer (`&Signup`, `Box<Signup>`, `Rc<Signup>`) that dereferences to a `Signup`. */
  class SignupRef {
    var target: Signup

    constructor (target: Signup)
      ensures this.target == target
    {
      this.target := target;
    }
  }

  /**
   `impl<T: Deref<Target = Signup>> From<T> for Login`: clones the fields of the
   form behind the pointer. It modifies nothing, so the form is left as it was.
   */
  method LoginFromDeref(form: SignupRef) returns (l: Login)
    ensures l.email == form.target.email && l.password == form.target.password
    ensures l == LoginFromSignup(form.target)
  {
    var email := form.target.email;
    var password := form.target.password;
    l := Login(email, password);
  }

  lemma SignupLoginRoundTrip(s: Signup)
    ensures SignupFromLogin(LoginFromSignup(s)) == s
  {
  }

  lemma LoginSignupRoundTrip(l: Login)
    ensures LoginFromSignup(SignupFromLogin(l)) == l
  {
  }

  /**
   Upgrading a `Login` does not apply the strength policy: the resulting
   `Signup` keeps a password that the policy rejects.
   */
  lemma UpgradeSkipsPolicy()
    ensures var s := SignupFromLogin(Login("user@example.com", "Ab1"));
            s.password == "Ab1" && Password.Policy(s.password) == Password.Err(Password.TooShort)
  {
    assert ByteLen("Ab1") == 3;
    Password.ShortPasswordRejected("Ab1");
  }

  // ---------------------------------------------------------------------------
  // `impl Debug`: both forms print under the label `Signup`, password masked.
  // ---------------------------------------------------------------------------

  const DebugPrefix := "Signup { email: "
  const DebugSuffix := ", password: \"*****\" }"

  /**
   `format!("{:?}", form)` for a `Signup`: the email can be read back from it, and
   it ends in the masked password.
   */
  function SignupDebug(form: Signup): (out: string)
    ensures ParseDebug(out) == Some(form.email)
    ensures |out| >= |DebugSuffix| && out[|out| - |DebugSuffix|..] == DebugSuffix
  {
    ParseRendering(form.email);
    DebugPrefix + DebugQuote(form.email) + DebugSuffix
  }

  /**
   `format!("{:?}", form)` for a `Login`, printed under the label `Signup` too:
   the email can be read back from it, and it ends in the masked password.
   */
  function LoginDebug(form: Login): (out: string)
    ensures ParseDebug(out) == Some(form.email)
    ensures |out| >= |DebugSuffix| && out[|out| - |DebugSuffix|..] == DebugSuffix
  {
    ParseRendering(form.email);
    DebugPrefix + DebugQuote(form.email) + DebugSuffix
  }

  /** Reads the email back out of a rendering, if the text has the rendering's shape. */
  function ParseDebug(out: string): Option<string> {
    var n, m := |DebugPrefix|, |DebugSuffix|;
    if |out| >= n + m && out[..n] == DebugPrefix && out[|out| - m..] == DebugSuffix
    then Unquote(out[n..|out| - m])
    else None
  }

  lemma {:induction false} ParseRendering(email: string)
    ensures ParseDebug(DebugPrefix + DebugQuote(email) + DebugSuffix) == Some(email)
  {
    var q := DebugQuote(email);
    var out := DebugPrefix + q + DebugSuffix;
    var n, m := |DebugPrefix|, |DebugSuffix|;
    assert out[..n] == DebugPrefix;
    assert out[|out| - m..] == DebugSuffix;
    assert out[n..|out| - m] == q;
    UnquoteDebugQuote(email);
  }

  /** Two `Signup`s render alike exactly when their emails agree; the password never matters. */
  lemma SignupDebugDependsOnlyOnEmail(a: Signup, b: Signup)
    ensures SignupDebug(a) == SignupDebug(b) <==> a.email == b.email
  {
  }

  /** Two `Login`s render alike exactly when their emails agree; the password never matters. */
  lemma LoginDebugDependsOnlyOnEmail(a: Login, b: Login)
    ensures LoginDebug(a) == LoginDebug(b) <==> a.email == b.email
  {
  }

  /** A `Login` prints exactly as the `Signup` with the same fields, label included. */
  lemma LoginDebugUsesSignupLabel(form: Login)
    ensures LoginDebug(form) == SignupDebug(SignupFromLogin(form))
    ensures LoginDebug(form)[..7] == "Signup "
  {
  }
}
