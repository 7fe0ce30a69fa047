/**
 * The sign-in, sign-up and reset form of src/components/Auth.js: the
 * strength shown as the password is typed, `validateForm`, and the order of
 * the checks in `handleSubmit`. The three field validators come from
 * src/utils/validation.js, which is not part of this model: their messages
 * are parameters. The clock is a parameter; the calls to the authentication
 * service are the outcome the submit reaches.
 */
module AuthForm {
  import opened Wrappers
  import opened PasswordStrength
  import opened RateLimiter

  /** `isReset`, else `isLogin`: which of the three forms is shown. */
  datatype Mode = Login | SignUp | Reset

  /** The form's fields and the strength state set on every keystroke in the password field. */
  datatype Form = Form(mode: Mode, email: string, password: string, confirm: string, strength: Strength)

  /** The form as first shown: empty fields and strength `'weak'`. */
  function InitialForm(mode: Mode): Form {
    Form(mode, "", "", "", Weak)
  }

  /** The password field's `onChange`: the password and its strength together. */
  function TypePassword(f: Form, p: string): (r: Form)
    ensures r.password == p && r.strength == Classify(p)
    ensures r.mode == f.mode && r.email == f.email && r.confirm == f.confirm
  {
    f.(password := p, strength := Classify(p))
  }

  /** The strength state describes the current password. */
  predicate Consistent(f: Form) {
    f.strength == Classify(f.password)
  }

  /** The initial form is consistent (the empty password is weak), and typing keeps it so. */
  lemma ConsistentForms(mode: Mode, f: Form, p: string)
    ensures Consistent(InitialForm(mode))
    ensures Consistent(TypePassword(f, p))
  {
    assert FirstLine("") == "";
  }

  /** The messages `validateEmail`, `validatePassword` and `validatePasswordMatch` return; `None` when valid. */
  datatype FieldChecks = FieldChecks(email: Option<string>, password: Option<string>, confirm: Option<string>)

  /**
   * `validateForm()`: the e-mail always; the password except when resetting;
   * the confirmation only on sign-up. The form is valid when no error is set.
   */
  function ValidateForm(mode: Mode, c: FieldChecks): (errors: map<string, string>)
    ensures "email" in errors <==> c.email.Some?
    ensures "password" in errors <==> !mode.Reset? && c.password.Some?
    ensures "confirmPassword" in errors <==> mode.SignUp? && c.confirm.Some?
    ensures errors.Keys <= {"email", "password", "confirmPassword"}
    ensures "email" in errors ==> errors["email"] == c.email.value
    ensures "password" in errors ==> errors["password"] == c.password.value
    ensures "confirmPassword" in errors ==> errors["confirmPassword"] == c.confirm.value
  {
    var e := if c.email.Some? then map["email" := c.email.value] else map[];
    if mode.Reset? then e
    else
      var p := if c.password.Some? then e["password" := c.password.value] else e;
      if mode.SignUp? && c.confirm.Some? then p["confirmPassword" := c.confirm.value] else p
  }

  /** The validators that apply in a mode and fail: the e-mail always, the password except when resetting, the confirmation on sign-up. */
  predicate SomeApplicableFails(mode: Mode, c: FieldChecks) {
    c.email.Some? || (!mode.Reset? && c.password.Some?) || (mode.SignUp? && c.confirm.Some?)
  }

  /**
   * The form is invalid exactly when some validator that applies in its mode
   * fails, and a mode that applies more validators reports every error a
   * mode with fewer does: reset within login within sign-up.
   */
  lemma ValidateFormErrorsIff(c: FieldChecks)
    ensures forall mode :: ValidateForm(mode, c) != map[] <==> SomeApplicableFails(mode, c)
    ensures forall k :: k in ValidateForm(Reset, c) ==> k in ValidateForm(Login, c) && ValidateForm(Login, c)[k] == ValidateForm(Reset, c)[k]
    ensures forall k :: k in ValidateForm(Login, c) ==> k in ValidateForm(SignUp, c) && ValidateForm(SignUp, c)[k] == ValidateForm(Login, c)[k]
  {
    forall mode
      ensures ValidateForm(mode, c) != map[] <==> SomeApplicableFails(mode, c)
    {
      var e := ValidateForm(mode, c);
      if c.email.Some? {
        assert "email" in e;
      } else if !mode.Reset? && c.password.Some? {
        assert "password" in e;
      } else if mode.SignUp? && c.confirm.Some? {
        assert "confirmPassword" in e;
      }
    }
  }

  /** The two limiters the form uses. */
  datatype Limiters = Limiters(auth: Limiter, reset: Limiter)

  /** How a submit ends: limited (with the seconds shown), invalid, refused, or the service call it makes. */
  datatype Outcome =
    | TooManyAttempts(seconds: int)
    | FormErrors(errors: map<string, string>)
    | Rejected(message: string)
    | ResetEmailRequested
    | SignInRequested
    | SignUpRequested

  const MismatchMessage := "Passwords do not match"
  const WeakMessage := "Password is too weak. Include uppercase, lowercase, numbers, and special characters."

  /** `Math.ceil(ms / 1000)` for a non-negative wait. */
  function Seconds(ms: nat): (s: nat)
    ensures 1000 * s >= ms && (s > 0 ==> 1000 * (s - 1) < ms)
  {
    (ms + 999) / 1000
  }

  /** `isReset ? resetLimiter : authLimiter`. */
  function Selected(ls: Limiters, mode: Mode): Limiter {
    if mode.Reset? then ls.reset else ls.auth
  }

  /**
   * `handleSubmit`: the selected limiter is consulted first, keyed by the
   * e-mail, and a limited submit only reports the wait. Otherwise the
   * attempt is already recorded when the form is validated; then a reset
   * sends its e-mail, and a sign-up is refused for a mismatch and then for a
   * weak password before the account is created.
   */
  function HandleSubmit(f: Form, ls: Limiters, now: int, c: FieldChecks): (r: (Outcome, Limiters))
    ensures var check := IsRateLimited(Selected(ls, f.mode), f.email, now);
      && (r.0.TooManyAttempts? <==> check.0)
      && (check.0 ==> r == (TooManyAttempts(Seconds(RemainingTime(Selected(ls, f.mode), f.email, now))), ls))
      && Selected(r.1, f.mode) == check.1
    ensures f.mode.Reset? ==> r.1.auth == ls.auth
    ensures !f.mode.Reset? ==> r.1.reset == ls.reset
    ensures r.0.FormErrors? <==> !IsRateLimited(Selected(ls, f.mode), f.email, now).0 && |ValidateForm(f.mode, c)| > 0
    ensures r.0.ResetEmailRequested? <==> f.mode.Reset? && !r.0.TooManyAttempts? && !r.0.FormErrors?
    ensures r.0 == SignUpRequested ==> f.mode.SignUp? && f.password == f.confirm && f.strength != Weak
    ensures r.0 == SignInRequested ==> f.mode.Login? && |ValidateForm(f.mode, c)| == 0
    ensures r.0 == Rejected(MismatchMessage) <==>
      f.mode.SignUp? && !r.0.TooManyAttempts? && !r.0.FormErrors? && f.password != f.confirm
  {
    var check := IsRateLimited(Selected(ls, f.mode), f.email, now);
    var ls' := if f.mode.Reset? then ls.(reset := check.1) else ls.(auth := check.1);
    if check.0 then (TooManyAttempts(Seconds(RemainingTime(check.1, f.email, now))), ls')
    else if |ValidateForm(f.mode, c)| > 0 then (FormErrors(ValidateForm(f.mode, c)), ls')
    else if f.mode.Reset? then (ResetEmailRequested, ls')
    else if f.mode.SignUp? && f.password != f.confirm then (Rejected(MismatchMessage), ls')
    else if f.mode.SignUp? && f.strength == Weak then (Rejected(WeakMessage), ls')
    else if f.mode.Login? then (SignInRequested, ls')
    else (SignUpRequested, ls')
  }

  /** On a consistent form a sign-up only reaches the service with a medium or strong password. */
  lemma SignUpNeedsMediumPassword(f: Form, ls: Limiters, now: int, c: FieldChecks)
    requires Consistent(f) && HandleSubmit(f, ls, now, c).0 == SignUpRequested
    ensures MediumTest(f.password)
  {
    StrongPassesMedium(f.password);
  }

  /** Submits of one form at the given times, in order: the outcomes and the final limiters. */
  function SubmitMany(f: Form, ls: Limiters, times: seq<int>, c: FieldChecks): (r: (seq<Outcome>, Limiters))
    ensures |r.0| == |times|
  {
    if |times| == 0 then ([], ls)
    else
      var prev := SubmitMany(f, ls, times[..|times| - 1], c);
      var step := HandleSubmit(f, prev.1, times[|times| - 1], c);
      (prev.0 + [step.0], step.1)
  }

  /**
   * Repeated sign-in submits drive the login limiter exactly as its own
   * checks would, whatever the form's fields and their validity: each
   * submit is limited exactly when the limiter's check is.
   */
  lemma {:induction false} SubmitManyFollowsLimiter(f: Form, ls: Limiters, times: seq<int>, c: FieldChecks)
    requires !f.mode.Reset?
    ensures SubmitMany(f, ls, times, c).1.auth == RunChecks(ls.auth, f.email, times).1
    ensures forall i :: 0 <= i < |times| ==>
      (SubmitMany(f, ls, times, c).0[i].TooManyAttempts? <==> RunChecks(ls.auth, f.email, times).0[i])
  {
    if |times| > 0 {
      var init := times[..|times| - 1];
      SubmitManyFollowsLimiter(f, ls, init, c);
      var prev := SubmitMany(f, ls, init, c);
      var run := RunChecks(ls.auth, f.email, init);
      assert prev.1.auth == run.1;
      var step := HandleSubmit(f, prev.1, times[|times| - 1], c);
      assert Selected(prev.1, f.mode) == run.1;
      forall i | 0 <= i < |times|
        ensures SubmitMany(f, ls, times, c).0[i].TooManyAttempts? <==> RunChecks(ls.auth, f.email, times).0[i]
      {
        if i < |times| - 1 {
          assert SubmitMany(f, ls, times, c).0[i] == prev.0[i];
          assert RunChecks(ls.auth, f.email, times).0[i] == run.0[i];
        }
      }
    }
  }

  /**
   * Five sign-in submits within five minutes, valid or not, use up the
   * allowance: the sixth is refused with a wait, however the form is filled.
   */
  lemma SixthSignInRefused(f: Form, reset: Limiter, times: seq<int>, c: FieldChecks)
    requires f.mode.Login? && |times| == 6 && NonDecreasing(times) && times[5] - times[0] < 300000
    ensures SubmitMany(f, Limiters(AuthLimiter, reset), times, c).0[5].TooManyAttempts?
    ensures forall i :: 0 <= i < 5 ==> !SubmitMany(f, Limiters(AuthLimiter, reset), times, c).0[i].TooManyAttempts?
  {
    SubmitManyFollowsLimiter(f, Limiters(AuthLimiter, reset), times, c);
    AuthLimiterSixthAttempt(f.email, times);
  }
}
