/**
 * The password-reset page, src/components/ResetPassword.js: the check of
 * the link's `oobCode` when the page loads, and the order of the checks on
 * submit. The code's verification and the reset itself are calls to the
 * authentication service, whose answers are parameters.
 */
module ResetPassword {
  import opened Wrappers
  import opened PasswordStrength

  const InvalidLinkMessage := "Invalid password reset link"
  const ExpiredLinkMessage := "Password reset link has expired"
  const MismatchMessage := "Passwords do not match"
  const WeakMessage := "Password is too weak. Include uppercase, lowercase, numbers, and special characters."
  const ResetDoneMessage := "Password has been reset successfully!"

  /** `searchParams.get('oobCode')` read as a condition: present and non-empty. */
  predicate HasCode(oobCode: Option<string>) {
    oobCode.Some? && oobCode.value != ""
  }

  /** What the page shows after loading: the e-mail the code belongs to, and a message. */
  datatype Loaded = Loaded(email: string, message: string)

  /**
   * The load effect: without a code, the invalid-link message and no call;
   * otherwise the code is verified, giving the e-mail or the expired-link
   * message.
   */
  function OnLoad(oobCode: Option<string>, verified: Option<string>): (r: Loaded)
    ensures !HasCode(oobCode) ==> r == Loaded("", InvalidLinkMessage)
    ensures HasCode(oobCode) && verified.Some? ==> r == Loaded(verified.value, "")
    ensures HasCode(oobCode) && verified.None? ==> r == Loaded("", ExpiredLinkMessage)
  {
    if !HasCode(oobCode) then Loaded("", InvalidLinkMessage)
    else match verified
      case Some(email) => Loaded(email, "")
      case None => Loaded("", ExpiredLinkMessage)
  }

  /**
   * The load and the submit agree on the link: the load reports an invalid
   * link exactly when no submit, however well filled in, requests the reset;
   * an expired code is reported on load but the submit still tries it.
   */
  lemma OnLoadAgreesWithSubmit(oobCode: Option<string>, verified: Option<string>, p: string, answer: Option<string>)
    requires Classify(p) != Weak
    ensures OnLoad(oobCode, verified).message == InvalidLinkMessage <==>
      !HandleSubmit(Form(p, p, Classify(p)), oobCode, answer).resetCalled
    ensures OnLoad(oobCode, verified).message == ExpiredLinkMessage ==>
      HandleSubmit(Form(p, p, Classify(p)), oobCode, answer).resetCalled
  {
  }

  /** The form: the two password fields and the strength state set as the first is typed. */
  datatype Form = Form(password: string, confirm: string, strength: Strength)

  /** `handlePasswordChange`: the password and its strength together. */
  function TypePassword(f: Form, p: string): (r: Form)
    ensures r.strength == Classify(r.password) && r.password == p && r.confirm == f.confirm
  {
    f.(password := p, strength := Classify(p))
  }

  /** How a submit ends: the message shown, whether it is a success, and whether the reset was requested. */
  datatype Submitted = Submitted(message: string, success: bool, resetCalled: bool)

  /**
   * `handleSubmit`: a mismatch, then a weak password, then a missing code
   * each stop the submit with their message; only then is the reset
   * requested, and its answer (`None` for success, else the error's message)
   * decides the final message.
   */
  function HandleSubmit(f: Form, oobCode: Option<string>, answer: Option<string>): (r: Submitted)
    ensures r.resetCalled <==> f.password == f.confirm && f.strength != Weak && HasCode(oobCode)
    ensures f.password != f.confirm ==> r == Submitted(MismatchMessage, false, false)
    ensures f.password == f.confirm && f.strength == Weak ==> r == Submitted(WeakMessage, false, false)
    ensures f.password == f.confirm && f.strength != Weak && !HasCode(oobCode) ==> r == Submitted(InvalidLinkMessage, false, false)
    ensures r.success <==> r.resetCalled && answer.None?
    ensures r.resetCalled ==> r.message == (if answer.None? then ResetDoneMessage else answer.value)
  {
    if f.password != f.confirm then Submitted(MismatchMessage, false, false)
    else if f.strength == Weak then Submitted(WeakMessage, false, false)
    else if !HasCode(oobCode) then Submitted(InvalidLinkMessage, false, false)
    else match answer
      case None => Submitted(ResetDoneMessage, true, true)
      case Some(e) => Submitted(e, false, true)
  }

  /**
   * A medium password is accepted: on a form whose strength describes its
   * password, the reset is requested for a matching medium password with a
   * code, and for no weak one.
   */
  lemma MediumAccepted(p: string, oobCode: Option<string>, answer: Option<string>)
    requires HasCode(oobCode)
    ensures var f := TypePassword(Form("", p, Weak), p);
      HandleSubmit(f, oobCode, answer).resetCalled <==> MediumTest(p)
  {
    StrongPassesMedium(p);
  }

  /** With every check failing at once, only the first (the mismatch) is reported. */
  lemma MismatchReportedFirst(p: string, q: string, answer: Option<string>)
    requires p != q
    ensures HandleSubmit(Form(p, q, Classify(p)), None, answer).message == MismatchMessage
  {
  }
}
