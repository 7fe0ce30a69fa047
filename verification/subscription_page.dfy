/**
 * The logic of the subscription page, src/components/Subscription.js: the
 * paid-tier test, the provisioning done when the page loads, the limits it
 * shows, and when it asks the server to confirm a checkout. The subscription
 * object the page receives is a parameter (`None` when it is undefined), as
 * are the signed-in user, the query string and the success of each store
 * call; `now` stands for the client clock.
 */
module SubscriptionPage {
  import opened Wrappers
  import opened Docs
  import opened Accounts
  import AuthContext
  import BillingWorker

  /** `subscription?.<k>`: a field of the subscription object, `None` when either is missing. */
  function SubField(sub: Option<Value>, k: string): Option<Value> {
    LookupIn(sub, [k])
  }

  /** `(status === 'pro' || subscriptionStatus === 'active') && isActive`, read as a condition. */
  predicate IsProActive(sub: Option<Value>) {
    (SubField(sub, "status") == Some(Str("pro")) || SubField(sub, "subscriptionStatus") == Some(Str("active")))
    && Truthy(SubField(sub, "isActive"))
  }

  /** Without a truthy `isActive` the page never shows the paid tier, whatever the other fields say. */
  lemma ProActiveNeedsIsActive(sub: Option<Value>)
    ensures IsProActive(sub) ==> Truthy(SubField(sub, "isActive"))
    ensures !Truthy(SubField(sub, "isActive")) ==> !IsProActive(sub)
    ensures IsProActive(Some(Obj(map["status" := Str("pro"), "isActive" := Bool(true)])))
  {
  }

  /** `a ?? b`. */
  function NullishOr(a: Option<Value>, b: Value): (r: Value)
    ensures Nullish(a) ==> r == b
    ensures !Nullish(a) ==> Some(r) == a
  {
    if Nullish(a) then b else a.value
  }

  /** The `used / limit` pair the page shows for one kind of upload. */
  datatype Shown = Shown(used: Value, limit: Value)

  /** Document uploads: `used ?? 0` and `limit ?? (isProActive ? 80 : 2)`. */
  function ShownPdf(sub: Option<Value>): (r: Shown)
    ensures Nullish(LookupIn(sub, ["pdfUploads", "used"])) ==> r.used == Int(0)
    ensures Nullish(LookupIn(sub, ["pdfUploads", "limit"])) ==>
      r.limit == Int(if IsProActive(sub) then PdfLimit(Pro) else PdfLimit(Free))
    ensures !Nullish(LookupIn(sub, ["pdfUploads", "limit"])) ==> Some(r.limit) == LookupIn(sub, ["pdfUploads", "limit"])
  {
    Shown(NullishOr(LookupIn(sub, ["pdfUploads", "used"]), Int(0)),
          NullishOr(LookupIn(sub, ["pdfUploads", "limit"]), Int(if IsProActive(sub) then 80 else 2)))
  }

  /** Site uploads: `used ?? 0` and `limit ?? 1`, the free allowance whatever the plan. */
  function ShownWebsite(sub: Option<Value>): (r: Shown)
    ensures Nullish(LookupIn(sub, ["websiteUploads", "used"])) ==> r.used == Int(0)
    ensures Nullish(LookupIn(sub, ["websiteUploads", "limit"])) ==> r.limit == Int(WebsiteLimit(Free))
    ensures !Nullish(LookupIn(sub, ["websiteUploads", "limit"])) ==> Some(r.limit) == LookupIn(sub, ["websiteUploads", "limit"])
  {
    Shown(NullishOr(LookupIn(sub, ["websiteUploads", "used"]), Int(0)),
          NullishOr(LookupIn(sub, ["websiteUploads", "limit"]), Int(1)))
  }

  /**
   * Unlike `||`, `??` keeps a stored 0: a quota map with both counters shows
   * exactly those counters, and only a missing limit falls back.
   */
  lemma ShownKeepsStoredQuota(fields: map<string, Value>, q: Quota)
    requires "pdfUploads" in fields && fields["pdfUploads"] == QuotaValue(q)
    ensures ShownPdf(Some(Obj(fields))) == Shown(Int(q.used), Int(q.limit))
  {
  }

  /** A paid account with no `isActive` flag and no stored site limit is shown the free allowances. */
  lemma PaidWithoutFlagShownFree(sub: Option<Value>)
    requires !Truthy(SubField(sub, "isActive"))
    requires LookupIn(sub, ["pdfUploads", "limit"]).None? && LookupIn(sub, ["websiteUploads", "limit"]).None?
    ensures ShownPdf(sub).limit == Int(2) && ShownWebsite(sub).limit == Int(1)
  {
  }

  /**
   * The page receives the subscription context's `subscription`: the
   * account's stored plan string (or `undefined`). A string has none of the
   * fields the page reads, so the page never shows the paid tier and always
   * shows 0 of 2 documents and 0 of 1 site, whatever the account holds.
   */
  lemma PlanStringShownFree(plan: Option<string>)
    ensures var sub := if plan.Some? then Some(Str(plan.value)) else None;
      && !IsProActive(sub)
      && ShownPdf(sub) == Shown(Int(0), Int(PdfLimit(Free)))
      && ShownWebsite(sub) == Shown(Int(0), Int(WebsiteLimit(Free)))
  {
  }

  /** The fields merged into an account that lacks `limits`. */
  function ProvisionFields(d: Doc): Doc {
    map[
      "limits" := LimitsValue(DefaultLimits(Free)),
      "generationsPerUpload" := Int(if Field(d, "subscription") == Some(Str("pro")) then 3 else 1)]
  }

  /**
   * `fetchUsage`: with a signed-in user and a successful read, an account
   * without a truthy `limits` gets the free limits merged in (with the paid
   * allowance of generations when its plan is `'pro'`), a missing account is
   * created as the full free document, and an account that has `limits` is
   * not written. Nobody signed in, a failed read or a failed write leave the
   * store as it was.
   */
  function FetchUsage(user: Option<AuthContext.User>, s: Store, now: int, readOk: bool, writeOk: bool): (r: Store)
    ensures user.None? || !readOk || !writeOk ==> r == s
    ensures user.Some? && user.value.uid in s && Truthy(Field(s[user.value.uid], "limits")) ==> r == s
    ensures user.Some? && readOk && writeOk && user.value.uid !in s ==>
      r == s[user.value.uid := AuthContext.InitialUserData(user.value.email, now)]
    ensures forall k :: k in s && (user.None? || k != user.value.uid) ==> k in r && r[k] == s[k]
    ensures user.Some? && readOk && writeOk && user.value.uid in s && !Truthy(Field(s[user.value.uid], "limits")) ==>
      var uid := user.value.uid;
      && uid in r
      && ReadLimits(r[uid]) == Some(DefaultLimits(Free))
      && Field(r[uid], "generationsPerUpload") ==
           Some(Int(if Field(s[uid], "subscription") == Some(Str("pro")) then GenerationsPerUpload(Pro) else GenerationsPerUpload(Free)))
  {
    match user
    case None => s
    case Some(u) =>
      if !readOk || !writeOk then s
      else if u.uid in s then
        if Truthy(Field(s[u.uid], "limits")) then s
        else
          ReadLimitsMerged(s[u.uid], ProvisionFields(s[u.uid]), DefaultLimits(Free));
          MergeDoc(s, u.uid, ProvisionFields(s[u.uid]))
      else SetDoc(s, u.uid, AuthContext.InitialUserData(u.email, now))
  }

  /** Loading the page twice provisions at most once: the second load writes nothing. */
  lemma FetchUsageIdempotent(user: Option<AuthContext.User>, s: Store, now: int, later: int)
    ensures var once := FetchUsage(user, s, now, true, true);
      FetchUsage(user, once, later, true, true) == once
  {
    var once := FetchUsage(user, s, now, true, true);
    if user.Some? {
      var uid := user.value.uid;
      assert uid in once;
      if uid in s && !Truthy(Field(s[uid], "limits")) {
        assert Field(once[uid], "limits").value.Obj?;
      }
    }
  }

  /**
   * A paid account that has lost its `limits` map is provisioned with the
   * free quotas, though with the paid allowance of generations.
   */
  lemma ProWithoutLimitsGetsFreeQuotas(u: AuthContext.User, s: Store, now: int)
    requires u.uid in s && !Truthy(Field(s[u.uid], "limits")) && Field(s[u.uid], "subscription") == Some(Str("pro"))
    ensures var r := FetchUsage(Some(u), s, now, true, true);
      && ReadLimits(r[u.uid]) == Some(Limits(Quota(0, PdfLimit(Free)), Quota(0, WebsiteLimit(Free))))
      && Field(r[u.uid], "generationsPerUpload") == Some(Int(GenerationsPerUpload(Pro)))
  {
  }

  /** `success && sessionId`: both query parameters present and non-empty. */
  predicate ShouldVerify(query: map<string, string>) {
    "success" in query && query["success"] != "" && "session_id" in query && query["session_id"] != ""
  }

  /** The confirmation request the page sends after a checkout, if any: the session and the signed-in uid. */
  function VerifyRequest(query: map<string, string>, uid: string): (r: Option<BillingWorker.VerifyBody>)
    ensures r.Some? <==> ShouldVerify(query)
    ensures r.Some? ==> r.value.sessionId == query["session_id"] && r.value.userId == uid
  {
    if ShouldVerify(query) then Some(BillingWorker.VerifyBody(query["session_id"], uid)) else None
  }

  /**
   * The confirmation the page sends upgrades the signed-in account, and the
   * same as the checkout webhook does when the session was opened for it.
   */
  lemma PageConfirmationMatchesWebhook(s: Store, query: map<string, string>, session: BillingWorker.CheckoutSession,
                                       prices: map<string, string>)
    requires ShouldVerify(query)
    requires session.paymentStatus == "paid" && BillingWorker.FirstPrice(prices, session.subscription).Some?
    ensures var v := BillingWorker.VerifySession(s, VerifyRequest(query, session.clientReferenceId),
                                                 map[query["session_id"] := session], prices, true);
      var w := BillingWorker.HandleWebhook(s, true, BillingWorker.CheckoutCompleted(session), prices, [], true);
      v.0.status == 200 && v.1 == w.1
  {
    BillingWorker.VerifyAgreesWithWebhook(s, query["session_id"], session, prices);
  }
}
