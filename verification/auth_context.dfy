/**
 * The account writes of the browser's authentication provider,
 * src/contexts/AuthContext.js. The signed-in user is a parameter; `now`
 * stands for the client clock and `writeOk` for the success of a write, whose
 * failure is rethrown.
 */
module AuthContext {
  import opened Wrappers
  import opened Docs
  import opened Accounts

  /** The user the authentication service reports: its uid and its e-mail (possibly null). */
  datatype User = User(uid: string, email: Value)

  /** `createInitialUserData(email)`: a free account with the default `limits` map. */
  function InitialUserData(email: Value, now: int): (d: Doc)
    ensures d.Keys == {"email", "subscription", "createdAt", "limits", "generationsPerUpload", "stripeCustomerId", "stripeSubscriptionId"}
    ensures Field(d, "email") == Some(email) && Field(d, "subscription") == Some(Str("free"))
    ensures ReadLimits(d) == Some(DefaultLimits(Free))
    ensures Field(d, "generationsPerUpload") == Some(Int(GenerationsPerUpload(Free)))
    ensures Field(d, "stripeCustomerId") == Some(Null) && Field(d, "stripeSubscriptionId") == Some(Null)
  {
    var d := map[
      "email" := email,
      "subscription" := Str("free"),
      "createdAt" := Time(now),
      "limits" := LimitsValue(DefaultLimits(Free)),
      "generationsPerUpload" := Int(1),
      "stripeCustomerId" := Null,
      "stripeSubscriptionId" := Null];
    ReadLimitsValue(d, DefaultLimits(Free));
    d
  }

  /** `ensureUserDocument(user)`: creates the initial document only when none exists. */
  function EnsureUserDocument(user: Option<User>, s: Store, now: int): (r: Store)
    ensures user.None? ==> r == s
    ensures user.Some? && user.value.uid in s ==> r == s
    ensures user.Some? && user.value.uid !in s ==> r == s[user.value.uid := InitialUserData(user.value.email, now)]
  {
    match user
    case None => s
    case Some(u) => if u.uid in s then s else SetDoc(s, u.uid, InitialUserData(u.email, now))
  }

  /** A second run (another auth-state change) writes nothing, even at a later time. */
  lemma EnsureUserDocumentIdempotent(user: Option<User>, s: Store, now: int, later: int)
    ensures EnsureUserDocument(user, EnsureUserDocument(user, s, now), later) == EnsureUserDocument(user, s, now)
  {
  }

  /** An existing document is never changed, whatever it holds. */
  lemma EnsureUserDocumentKeepsExisting(user: Option<User>, s: Store, now: int, uid: string)
    requires uid in s
    ensures var r := EnsureUserDocument(user, s, now); uid in r && r[uid] == s[uid]
  {
  }

  /**
   * The write after a Google sign-in: the initial data deep-merged into the
   * account, on every sign-in.
   */
  function GoogleSignIn(s: Store, u: User, now: int, writeOk: bool): (r: Result<Store, StoreError>)
    ensures r.Failure? <==> !writeOk
    ensures r.Success? ==> forall k :: k in s && k != u.uid ==> k in r.value && r.value[k] == s[k]
    ensures r.Success? ==>
      && u.uid in r.value
      && Field(r.value[u.uid], "subscription") == Some(Str("free"))
      && ReadLimits(r.value[u.uid]) == Some(DefaultLimits(Free))
  {
    if !writeOk then Failure(WriteFailed)
    else
      var r := MergeDoc(s, u.uid, InitialUserData(u.email, now));
      ReadLimitsMerged(if u.uid in s then s[u.uid] else map[], InitialUserData(u.email, now), DefaultLimits(Free));
      Success(r)
  }

  /**
   * Signing in with Google resets a paid account's counters and tier to the
   * free ones, yet keeps every field the initial data does not list, such as
   * `plan` and `subscriptionStatus`.
   */
  lemma GoogleSignInKeepsUnlisted(s: Store, u: User, now: int, k: string)
    requires u.uid in s && k !in InitialUserData(u.email, now)
    ensures var r := GoogleSignIn(s, u, now, true);
      u.uid in r.value && Field(r.value[u.uid], k) == Field(s[u.uid], k)
  {
  }

  /** `signup`: after the account is created, a full `set` of the initial data. */
  function Signup(s: Store, u: User, now: int, writeOk: bool): (r: Result<Store, StoreError>)
    ensures r.Failure? <==> !writeOk
    ensures r.Success? ==> r.value == s[u.uid := InitialUserData(u.email, now)]
  {
    if !writeOk then Failure(WriteFailed) else Success(SetDoc(s, u.uid, InitialUserData(u.email, now)))
  }

  /**
   * After sign-up the auth-state handler finds the document and writes
   * nothing; with no prior document it writes the very same one.
   */
  lemma SignupThenEnsure(s: Store, u: User, now: int)
    ensures var r := Signup(s, u, now, true).value;
      EnsureUserDocument(Some(u), r, now) == r
    ensures u.uid !in s ==> EnsureUserDocument(Some(u), s, now) == Signup(s, u, now, true).value
  {
  }
}
