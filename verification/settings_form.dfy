/**
 * The account settings page, src/components/Settings.js: the e-mail and
 * password forms (their checks, in order, and the messages of their
 * errors), the four password requirements, and account termination with
 * its two paths. Re-authentication, the service calls and the store's
 * answers are parameters; a store is the users map plus the sequence of
 * content documents.
 */
module SettingsForm {
  import opened Wrappers
  import opened Docs
  import opened Text
  import opened PasswordStrength
  import opened PdfUpload
  import opened Http
  import BillingWorker

  /** One message area of the page: its error and its success text. */
  datatype Section = Section(error: string, success: string)

  /** A failure reported by the authentication service. */
  datatype AuthError = AuthError(code: string, message: string)

  const WrongPassword := "Current password is incorrect"

  // ---------------------------------------------------------------------
  // Changing the e-mail address (lines 288-341)
  // ---------------------------------------------------------------------

  const EmailMissing := "Please enter a new email address"
  const CurrentPasswordMissing := "Please enter your current password"

  function EmailSent(email: string): string {
    "A verification email has been sent to " + email + ". Please check your email and verify it before the change takes effect."
  }

  /** The `switch (error.code)` of the e-mail form. */
  function EmailErrorMessage(e: AuthError): (m: string)
    ensures e.code == "auth/wrong-password" ==> m == WrongPassword
    ensures e.code !in {"auth/requires-recent-login", "auth/email-already-in-use", "auth/invalid-email", "auth/wrong-password"} ==>
      m == e.message
  {
    match e.code
    case "auth/requires-recent-login" => "Please sign in again before updating your email"
    case "auth/email-already-in-use" => "This email is already in use by another account"
    case "auth/invalid-email" => "Please enter a valid email address"
    case "auth/wrong-password" => WrongPassword
    case _ => e.message
  }

  datatype EmailForm = EmailForm(newEmail: string, password: string)

  /** The form after a submit, the section's messages, and whether the verification e-mail was requested. */
  datatype EmailStep = EmailStep(form: EmailForm, section: Section, verifyCalled: bool)

  /**
   * `handleEmailChange`: both messages are cleared; a missing address, then a
   * missing password stop the submit; a failed re-authentication reports the
   * wrong password; only then is the verification e-mail requested. Its
   * success clears both fields; its failure keeps them.
   */
  function SubmitEmail(f: EmailForm, reauth: bool, verify: Option<AuthError>): (r: EmailStep)
    ensures r.verifyCalled <==> f.newEmail != "" && f.password != "" && reauth
    ensures f.newEmail == "" ==> r == EmailStep(f, Section(EmailMissing, ""), false)
    ensures f.newEmail != "" && f.password == "" ==> r == EmailStep(f, Section(CurrentPasswordMissing, ""), false)
    ensures f.newEmail != "" && f.password != "" && !reauth ==> r == EmailStep(f, Section(WrongPassword, ""), false)
    ensures r.verifyCalled && verify.None? ==> r == EmailStep(EmailForm("", ""), Section("", EmailSent(f.newEmail)), true)
    ensures r.verifyCalled && verify.Some? ==> r == EmailStep(f, Section(EmailErrorMessage(verify.value), ""), true)
    ensures r.section.success != "" <==> r.verifyCalled && verify.None?
  {
    if f.newEmail == "" then EmailStep(f, Section(EmailMissing, ""), false)
    else if f.password == "" then EmailStep(f, Section(CurrentPasswordMissing, ""), false)
    else if !reauth then EmailStep(f, Section(WrongPassword, ""), false)
    else match verify
      case None => EmailStep(EmailForm("", ""), Section("", EmailSent(f.newEmail)), true)
      case Some(e) => EmailStep(f, Section(EmailErrorMessage(e), ""), true)
  }

  /**
   * Two submits in a row: a successful one clears the form, so the next
   * submit stops at the missing address without any call; a failed one
   * keeps both fields, so a retry that re-authenticates and is accepted
   * sends the verification e-mail to the same address.
   */
  lemma EmailResubmit(f: EmailForm, reauth: bool, verify: Option<AuthError>, reauth2: bool, verify2: Option<AuthError>)
    ensures var r := SubmitEmail(f, reauth, verify);
      && (r.section.success != "" ==>
            SubmitEmail(r.form, reauth2, verify2) == EmailStep(EmailForm("", ""), Section(EmailMissing, ""), false))
      && (r.section.success == "" && f.newEmail != "" && f.password != "" ==>
            SubmitEmail(r.form, true, None) == EmailStep(EmailForm("", ""), Section("", EmailSent(f.newEmail)), true))
  {
  }

  // ---------------------------------------------------------------------
  // Changing the password (lines 343-398)
  // ---------------------------------------------------------------------

  /** The four requirement flags shown under the new-password field. */
  datatype Validation = Validation(length: bool, number: bool, lowercase: bool, uppercase: bool)

  /** The flags as first shown, and after a successful change. */
  const NoFlags := Validation(false, false, false, false)

  /** `Object.values(passwordValidation).every(v => v)`. */
  predicate AllFlags(v: Validation) {
    v.length && v.number && v.lowercase && v.uppercase
  }

  /** `validatePassword`: at least six characters, and a match anywhere for `/\d/`, `/[a-z]/` and `/[A-Z]/`. */
  function ValidatePassword(p: string): (v: Validation)
    ensures v.length <==> |p| >= 6
    ensures v.number <==> exists i :: 0 <= i < |p| && IsDigit(p[i])
    ensures v.lowercase <==> exists i :: 0 <= i < |p| && IsLowerAscii(p[i])
    ensures v.uppercase <==> exists i :: 0 <= i < |p| && IsUpperAscii(p[i])
  {
    Validation(|p| >= 6, Has(p, IsDigit), Has(p, IsLowerAscii), Has(p, IsUpperAscii))
  }

  /** The password form: the current password, the new one, and the flags set as the new one is typed. */
  datatype PasswordForm = PasswordForm(current: string, newPassword: string, flags: Validation)

  /** The new-password field's `onChange`: the password and its flags together. */
  function TypeNewPassword(f: PasswordForm, p: string): (r: PasswordForm)
    ensures r.newPassword == p && r.current == f.current && r.flags == ValidatePassword(p)
  {
    f.(newPassword := p, flags := ValidatePassword(p))
  }

  /** The flags describe the new password. */
  predicate ConsistentPassword(f: PasswordForm) {
    f.flags == ValidatePassword(f.newPassword)
  }

  const NewPasswordMissing := "Please enter a new password"
  const RequirementsMessage := "Please ensure your password meets all requirements"
  const PasswordUpdated := "Password updated successfully"

  /** The `switch (error.code)` of the password form. */
  function PasswordErrorMessage(e: AuthError): (m: string)
    ensures e.code == "auth/wrong-password" ==> m == WrongPassword
    ensures e.code !in {"auth/requires-recent-login", "auth/wrong-password", "auth/weak-password"} ==> m == e.message
  {
    match e.code
    case "auth/requires-recent-login" => "Please sign in again before updating your password"
    case "auth/wrong-password" => WrongPassword
    case "auth/weak-password" => "New password is too weak. Please choose a stronger password"
    case _ => e.message
  }

  /** The form after a submit, the section's messages, and whether the password update was requested. */
  datatype PasswordStep = PasswordStep(form: PasswordForm, section: Section, updateCalled: bool)

  /**
   * `handlePasswordChange`: both messages are cleared; a missing current
   * password, then a missing new one, then an unmet requirement stop the
   * submit; a failed re-authentication reports the wrong password; only then
   * is the update requested. Its success clears both fields and all four
   * flags.
   */
  function SubmitPassword(f: PasswordForm, reauth: bool, update: Option<AuthError>): (r: PasswordStep)
    ensures r.updateCalled <==> f.current != "" && f.newPassword != "" && AllFlags(f.flags) && reauth
    ensures f.current == "" ==> r == PasswordStep(f, Section(CurrentPasswordMissing, ""), false)
    ensures f.current != "" && f.newPassword == "" ==> r == PasswordStep(f, Section(NewPasswordMissing, ""), false)
    ensures f.current != "" && f.newPassword != "" && !AllFlags(f.flags) ==> r == PasswordStep(f, Section(RequirementsMessage, ""), false)
    ensures r.updateCalled && update.None? ==> r == PasswordStep(PasswordForm("", "", NoFlags), Section("", PasswordUpdated), true)
    ensures r.updateCalled && update.Some? ==> r == PasswordStep(f, Section(PasswordErrorMessage(update.value), ""), true)
    ensures !r.updateCalled || update.Some? ==> r.form == f
  {
    if f.current == "" then PasswordStep(f, Section(CurrentPasswordMissing, ""), false)
    else if f.newPassword == "" then PasswordStep(f, Section(NewPasswordMissing, ""), false)
    else if !AllFlags(f.flags) then PasswordStep(f, Section(RequirementsMessage, ""), false)
    else if !reauth then PasswordStep(f, Section(WrongPassword, ""), false)
    else match update
      case None => PasswordStep(PasswordForm("", "", NoFlags), Section("", PasswordUpdated), true)
      case Some(e) => PasswordStep(f, Section(PasswordErrorMessage(e), ""), true)
  }

  /**
   * The flags stay a description of the new password: typing sets both, and
   * the reset after a successful change is exactly the flags of the empty
   * password. So on a consistent form an update is only requested for a
   * password that meets all four requirements.
   */
  lemma PasswordFormStaysConsistent(f: PasswordForm, p: string, reauth: bool, update: Option<AuthError>)
    ensures ConsistentPassword(TypeNewPassword(f, p))
    ensures ConsistentPassword(f) ==> ConsistentPassword(SubmitPassword(f, reauth, update).form)
    ensures ConsistentPassword(f) && SubmitPassword(f, reauth, update).updateCalled ==>
      AllFlags(ValidatePassword(f.newPassword))
  {
    assert ValidatePassword("") == NoFlags;
  }

  /**
   * A new password the settings page accepts, if it has no line break, is
   * at least medium on the sign-up page's scale.
   */
  lemma AcceptedPasswordIsMedium(p: string)
    requires forall i :: 0 <= i < |p| ==> !IsLineTerminator(p[i])
    requires AllFlags(ValidatePassword(p))
    ensures Classify(p) != Weak
  {
    FirstLineWhole(p);
    var i :| 0 <= i < |p| && IsLowerAscii(p[i]);
    assert IsLetter(p[i]);
    StrongPassesMedium(p);
  }

  /** The converse fails: `abc123` is medium at sign-up but lacks an upper-case letter here. */
  lemma MediumPasswordRefusedHere()
    ensures Classify("abc123") == Medium
    ensures !AllFlags(ValidatePassword("abc123"))
  {
    MediumExample();
    var s := "abc123";
    assert forall i :: 0 <= i < |s| ==> !IsUpperAscii(s[i]);
  }

  // ---------------------------------------------------------------------
  // Terminating the account (lines 458-565, 696-722)
  // ---------------------------------------------------------------------

  /** The answers the termination paths receive. */
  datatype TerminateCalls = TerminateCalls(
    reauth: bool,                  // the password re-authenticates
    cancel: Result<bool, string>,  // the cancel request's `response.ok`, or the message `fetch` threw
    query: bool,                   // the query for the user's content documents succeeds
    failing: set<ContentDoc>,      // the content documents whose deletion fails
    userDoc: bool,                 // deleting the user's document succeeds
    account: Option<string>,       // deleting the account fails with this message
    storeMessage: string)          // the message of a failing store call

  /** The step of the deletion that failed. */
  datatype Step = ContentsStep | UserDocStep | AccountStep(message: string)

  /** The store after the deletion steps, whether the account is gone, and the step that failed. */
  datatype Deletion = Deletion(contents: seq<ContentDoc>, users: Store, accountDeleted: bool, failedAt: Option<Step>)

  /** The content documents a deletion of `uid`'s documents leaves: everyone else's, and those whose deletion fails. */
  function Survivors(contents: seq<ContentDoc>, uid: string, failing: set<ContentDoc>): (r: seq<ContentDoc>)
    ensures forall d :: d in r <==> d in contents && (d.userId != uid || d in failing)
    ensures |r| <= |contents|
  {
    if |contents| == 0 then []
    else
      var rest := Survivors(contents[1..], uid, failing);
      if contents[0].userId != uid || contents[0] in failing then [contents[0]] + rest else rest
  }

  /** Some deletion among the user's documents fails, so `Promise.all` rejects. */
  predicate SomeDeleteFails(contents: seq<ContentDoc>, uid: string, failing: set<ContentDoc>) {
    exists d :: d in contents && d.userId == uid && d in failing
  }

  /**
   * The three deletion steps, in order: the user's content documents (all
   * deletions are issued; one failure fails the step), then the user's
   * document, then the account. A failed step stops the ones after it.
   */
  function DeleteAccountData(contents: seq<ContentDoc>, users: Store, uid: string, c: TerminateCalls): (r: Deletion)
    ensures !c.query ==> r == Deletion(contents, users, false, Some(ContentsStep))
    ensures c.query ==> r.contents == Survivors(contents, uid, c.failing)
    ensures r.failedAt == Some(ContentsStep) <==> !c.query || SomeDeleteFails(contents, uid, c.failing)
    ensures r.failedAt == Some(UserDocStep) <==> c.query && !SomeDeleteFails(contents, uid, c.failing) && !c.userDoc
    ensures r.accountDeleted <==> r.failedAt.None?
    ensures r.failedAt.None? <==> c.query && !SomeDeleteFails(contents, uid, c.failing) && c.userDoc && c.account.None?
    ensures r.failedAt == Some(ContentsStep) || r.failedAt == Some(UserDocStep) ==> r.users == users
    ensures r.failedAt != Some(ContentsStep) ==> forall d :: d in r.contents ==> d.userId != uid
    ensures r.failedAt.None? || r.failedAt.value.AccountStep? ==> r.users == users - {uid}
  {
    if !c.query then Deletion(contents, users, false, Some(ContentsStep))
    else
      var left := Survivors(contents, uid, c.failing);
      if SomeDeleteFails(contents, uid, c.failing) then Deletion(left, users, false, Some(ContentsStep))
      else if !c.userDoc then Deletion(left, users, false, Some(UserDocStep))
      else match c.account
        case Some(m) => Deletion(left, users - {uid}, false, Some(AccountStep(m)))
        case None => Deletion(left, users - {uid}, true, None)
  }

  /**
   * The order of the deletion: the account is only deleted once the user's
   * document is gone, and the user's document only once none of the user's
   * content documents is left.
   */
  lemma DeletionOrder(contents: seq<ContentDoc>, users: Store, uid: string, c: TerminateCalls)
    ensures var r := DeleteAccountData(contents, users, uid, c);
      && (r.accountDeleted ==> uid !in r.users)
      && (uid in users && uid !in r.users ==> forall d :: d in r.contents ==> d.userId != uid)
  {
  }

  /** What a termination submit leaves: the store, whether the account is gone, whether cancellation was requested, and the message set (`None`: unchanged). */
  datatype Terminated = Terminated(contents: seq<ContentDoc>, users: Store, accountDeleted: bool, cancelRequested: bool, message: Option<string>)

  const CancelFailed := "Failed to cancel subscription"
  const ConfirmCancelMessage := "Please confirm subscription cancellation"
  const ContentFailed := "Failed to delete user content. Please try again."
  const UserDataFailed := "Failed to delete user data. Please try again."

  function TerminateFailed(m: string): string {
    "Failed to terminate account: " + m
  }

  function CancelFailedWith(m: string): string {
    "Failed to cancel subscription: " + m
  }

  /**
   * `handleCancelSubscriptionAndTerminate`: re-authentication, then the
   * cancel request; only an OK answer leads to the deletion steps, whose
   * failure is reported with the store's own message.
   */
  function CancelAndTerminate(contents: seq<ContentDoc>, users: Store, uid: string, c: TerminateCalls): (r: Terminated)
    ensures r.cancelRequested <==> c.reauth
    ensures !c.reauth ==> r == Terminated(contents, users, false, false, Some(WrongPassword))
    ensures c.cancel != Success(true) ==> r.contents == contents && r.users == users && !r.accountDeleted
    ensures c.reauth && c.cancel == Success(false) ==> r.message == Some(CancelFailedWith(CancelFailed))
    ensures c.reauth && c.cancel.Failure? ==> r.message == Some(CancelFailedWith(c.cancel.error))
    ensures c.reauth && c.cancel == Success(true) ==>
      var d := DeleteAccountData(contents, users, uid, c);
      r.contents == d.contents && r.users == d.users && r.accountDeleted == d.accountDeleted
  {
    if !c.reauth then Terminated(contents, users, false, false, Some(WrongPassword))
    else match c.cancel
      case Failure(e) => Terminated(contents, users, false, true, Some(CancelFailedWith(e)))
      case Success(false) => Terminated(contents, users, false, true, Some(CancelFailedWith(CancelFailed)))
      case Success(true) =>
        var d := DeleteAccountData(contents, users, uid, c);
        var message := match d.failedAt
          case None => None
          case Some(AccountStep(m)) => Some(CancelFailedWith(TerminateFailed(m)))
          case Some(_) => Some(CancelFailedWith(TerminateFailed(c.storeMessage)));
        Terminated(d.contents, d.users, d.accountDeleted, true, message)
  }

  /**
   * `handleTerminateAccount`: the message is cleared; after re-authentication
   * a pro subscriber (by the page's test `isPro`) who has not ticked the
   * confirmation is refused; then the deletion steps, each failure reported
   * with its own message.
   */
  function TerminateAccount(contents: seq<ContentDoc>, users: Store, uid: string, isPro: bool, confirmed: bool,
                            c: TerminateCalls): (r: Terminated)
    ensures !r.cancelRequested
    ensures !c.reauth ==> r == Terminated(contents, users, false, false, Some(WrongPassword))
    ensures c.reauth && isPro && !confirmed ==> r == Terminated(contents, users, false, false, Some(ConfirmCancelMessage))
    ensures c.reauth && !(isPro && !confirmed) ==>
      var d := DeleteAccountData(contents, users, uid, c);
      && r.contents == d.contents && r.users == d.users && r.accountDeleted == d.accountDeleted
      && (d.failedAt == Some(ContentsStep) ==> r.message == Some(TerminateFailed(ContentFailed)))
      && (d.failedAt == Some(UserDocStep) ==> r.message == Some(TerminateFailed(UserDataFailed)))
      && (d.failedAt.None? ==> r.message == Some(""))
  {
    if !c.reauth then Terminated(contents, users, false, false, Some(WrongPassword))
    else if isPro && !confirmed then Terminated(contents, users, false, false, Some(ConfirmCancelMessage))
    else
      var d := DeleteAccountData(contents, users, uid, c);
      var message := match d.failedAt
        case None => ""
        case Some(ContentsStep) => TerminateFailed(ContentFailed)
        case Some(UserDocStep) => TerminateFailed(UserDataFailed)
        case Some(AccountStep(m)) => TerminateFailed(m);
      Terminated(d.contents, d.users, d.accountDeleted, false, Some(message))
  }

  /**
   * The termination form: an empty password field (`required`) and, for a
   * pro subscriber without the confirmation, the disabled button block the
   * submit; otherwise it goes to the cancelling path for a pro subscriber and
   * to the plain one for everyone else.
   */
  function SubmitTerminationWith(contents: seq<ContentDoc>, users: Store, uid: string, isPro: bool, confirmed: bool,
                                 password: string, c: TerminateCalls): (r: Terminated)
    ensures password == "" || (isPro && !confirmed) ==> r == Terminated(contents, users, false, false, None)
    ensures password != "" && isPro && confirmed ==> r == CancelAndTerminate(contents, users, uid, c)
    ensures password != "" && !isPro ==> r == TerminateAccount(contents, users, uid, isPro, confirmed, c)
  {
    if password == "" || (isPro && !confirmed) then Terminated(contents, users, false, false, None)
    else if isPro then CancelAndTerminate(contents, users, uid, c)
    else TerminateAccount(contents, users, uid, isPro, confirmed, c)
  }

  /**
   * The page's `subscription` is the subscription context's: `'free'` until
   * the first snapshot, then the account's stored `subscription` field
   * (`None` when it is absent). The page's test is `subscription === 'pro'`.
   */
  predicate IsPro(sub: Option<Value>) {
    sub == Some(Str("pro"))
  }

  /**
   * The termination form: a pro subscriber's data is only touched once the
   * confirmation was ticked, the password re-authenticated and the
   * subscription cancelled; everyone else takes the plain path.
   */
  function SubmitTermination(contents: seq<ContentDoc>, users: Store, uid: string, sub: Option<Value>,
                             confirmed: bool, password: string, c: TerminateCalls): (r: Terminated)
    ensures IsPro(sub) && r.accountDeleted ==> r.cancelRequested && c.cancel == Success(true)
    ensures IsPro(sub) && (r.contents != contents || r.users != users) ==> c.cancel == Success(true)
    ensures !IsPro(sub) ==> !r.cancelRequested
    ensures !IsPro(sub) && password != "" ==> r == TerminateAccount(contents, users, uid, false, confirmed, c)
  {
    SubmitTerminationWith(contents, users, uid, IsPro(sub), confirmed, password, c)
  }

  /**
   * A pro subscriber's data is only touched after the confirmation was
   * ticked and the subscription was cancelled, and then the deletion
   * proceeds in its usual order.
   */
  lemma ProCancelsBeforeDeleting(contents: seq<ContentDoc>, users: Store, uid: string, confirmed: bool,
                                 password: string, c: TerminateCalls)
    ensures var r := SubmitTermination(contents, users, uid, Some(Str("pro")), confirmed, password, c);
      (r.contents != contents || r.users != users || r.accountDeleted) ==>
        confirmed && password != "" && c.reauth && c.cancel == Success(true)
  {
  }

  /**
   * The cancel request goes to `/cancel-subscription`, a path the payment
   * worker does not route: it answers 404, so `response.ok` is false, the
   * cancellation path stops with its message, and a pro subscriber's data
   * and account are never deleted through this form.
   */
  lemma PaidAccountNeverTerminated(contents: seq<ContentDoc>, users: Store, uid: string, base: string,
                                   confirmed: bool, password: string, c: TerminateCalls)
    requires forall i :: 0 <= i < |BillingWorker.Fragments| ==>
      !Contains(base + "/cancel-subscription", BillingWorker.Fragments[i].0)
    ensures var answer := BillingWorker.FixedAnswer(BillingWorker.RouteOf("POST", base + "/cancel-subscription", true));
      && answer == Some(Response(404, Str("Not found")))
      && var r := SubmitTermination(contents, users, uid, Some(Str("pro")), confirmed, password,
                                    c.(cancel := Success(200 <= answer.value.status < 300)));
         && r.contents == contents && r.users == users && !r.accountDeleted
         && (confirmed && password != "" && c.reauth ==> r.message == Some(CancelFailedWith(CancelFailed)))
  {
    BillingWorker.CancelSubscriptionNotFound(base);
  }
}
