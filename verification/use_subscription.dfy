/**
 * The client hook of src/hooks/useSubscription.js: it fetches the `/user/`
 * route and projects the JSON into a subscription record and a usage record,
 * with `||` defaults. Whether someone is signed in and the route's answer
 * (`None` when the request throws) are parameters.
 */
module UseSubscription {
  import opened Wrappers
  import opened Docs
  import opened Accounts
  import opened Http
  import BillingWorker
  import SubscriptionPage

  /** `{ status, plan, priceId }`; `priceId` is `undefined` when the answer lacks it. */
  datatype SubscriptionView = SubscriptionView(status: Value, plan: Value, priceId: Option<Value>)

  /** The four counters after `parseInt`; `None` is NaN. */
  datatype UsageView = UsageView(pdfUsed: Option<int>, pdfLimit: Option<int>, websiteUsed: Option<int>, websiteLimit: Option<int>)

  /** The hook's state: `subscription` and `usage` start as null (`None`). */
  datatype HookState = HookState(loading: bool, subscription: Option<SubscriptionView>, usage: Option<UsageView>)

  function InitialHookState(): HookState {
    HookState(true, None, None)
  }

  /** `a || b`: `a` when truthy, else `b`. */
  function OrElse(a: Option<Value>, b: Value): (r: Value)
    ensures Truthy(a) ==> Some(r) == a
    ensures !Truthy(a) ==> r == b
  {
    if Truthy(a) then a.value else b
  }

  /** `parseInt` of a value that is an integer or a decimal-free non-number: the integer, or NaN. */
  function ParseInt(v: Value): (r: Option<int>)
    ensures r.Some? <==> v.Int?
    ensures v.Int? ==> r.value == v.i
  {
    if v.Int? then Some(v.i) else None
  }

  /** `parseInt(x || fallback)` for a field of the answer. */
  function CounterOr(body: Value, k: string, fallback: int): (r: Option<int>)
    ensures Truthy(LookupIn(Some(body), [k])) ==> r == ParseInt(LookupIn(Some(body), [k]).value)
    ensures !Truthy(LookupIn(Some(body), [k])) ==> r == Some(fallback)
  {
    ParseInt(OrElse(LookupIn(Some(body), [k]), Int(fallback)))
  }

  /** The two records built from a successful answer (lines 37-52). */
  function Project(body: Value): (r: (SubscriptionView, UsageView))
    ensures !Truthy(LookupIn(Some(body), ["subscriptionStatus"])) ==> r.0.status == Str("inactive")
    ensures !Truthy(LookupIn(Some(body), ["plan"])) ==> r.0.plan == Str("free")
    ensures !Truthy(LookupIn(Some(body), ["pdfUploadsUsed"])) ==> r.1.pdfUsed == Some(0)
    ensures !Truthy(LookupIn(Some(body), ["pdfUploadsLimit"])) ==> r.1.pdfLimit == Some(PdfLimit(Free))
    ensures !Truthy(LookupIn(Some(body), ["websiteUploadsUsed"])) ==> r.1.websiteUsed == Some(0)
    ensures !Truthy(LookupIn(Some(body), ["websiteUploadsLimit"])) ==> r.1.websiteLimit == Some(WebsiteLimit(Free))
  {
    (SubscriptionView(
       OrElse(LookupIn(Some(body), ["subscriptionStatus"]), Str("inactive")),
       OrElse(LookupIn(Some(body), ["plan"]), Str("free")),
       LookupIn(Some(body), ["priceId"])),
     UsageView(
       CounterOr(body, "pdfUploadsUsed", 0),
       CounterOr(body, "pdfUploadsLimit", 2),
       CounterOr(body, "websiteUploadsUsed", 0),
       CounterOr(body, "websiteUploadsLimit", 1)))
  }

  /**
   * One fetch: nothing at all without a signed-in user; a failed or non-OK
   * answer (and a `null` body, whose fields cannot be read) only clears
   * `loading`; otherwise both records are replaced and `loading` is cleared.
   */
  function Fetch(st: HookState, signedIn: bool, answer: Option<Response>): (r: HookState)
    ensures !signedIn ==> r == st
    ensures signedIn && (answer.None? || !(200 <= answer.value.status < 300) || answer.value.body == Null) ==>
      r == st.(loading := false)
    ensures signedIn && answer.Some? && 200 <= answer.value.status < 300 && answer.value.body != Null ==>
      && !r.loading
      && r.subscription == Some(Project(answer.value.body).0)
      && r.usage == Some(Project(answer.value.body).1)
  {
    if !signedIn then st
    else match answer
      case None => st.(loading := false)
      case Some(resp) =>
        if !(200 <= resp.status < 300) || resp.body == Null then st.(loading := false)
        else
          var p := Project(resp.body);
          HookState(false, Some(p.0), Some(p.1))
  }

  /** The subscription record as the JavaScript object components receive. */
  function SubscriptionValue(v: SubscriptionView): Value {
    var base := map["status" := v.status, "plan" := v.plan];
    Obj(if v.priceId.Some? then base["priceId" := v.priceId.value] else base)
  }

  /**
   * The hook's record carries no `isActive` and no `subscriptionStatus`, so
   * the subscription page's paid-tier test is false of it whatever the account.
   */
  lemma HookRecordNeverProActive(v: SubscriptionView)
    ensures !SubscriptionPage.IsProActive(Some(SubscriptionValue(v)))
  {
    assert SubscriptionPage.SubField(Some(SubscriptionValue(v)), "isActive") == None;
  }

  /**
   * Through the `/user/` route and this hook, a stored limit of 0 is shown as
   * the free allowance: the route keeps the 0 (its integers arrive as
   * strings), the hook's `||` replaces it.
   */
  lemma StoredZeroLimitBecomesDefault(s: Store, uid: string, header: Option<string>)
    requires HasBearer(header) && uid in s
    requires Field(s[uid], "pdfUploadsLimit") == Some(Int(0)) && Field(s[uid], "websiteUploadsLimit") == Some(Int(0))
    ensures var answer := BillingWorker.UserRoute(s, uid, header, true);
      && BillingWorker.ProjectUser(s[uid]).pdfUploadsLimit == 0
      && Fetch(InitialHookState(), true, Some(answer)).usage.value.pdfLimit == Some(PdfLimit(Free))
      && Fetch(InitialHookState(), true, Some(answer)).usage.value.websiteLimit == Some(WebsiteLimit(Free))
  {
  }

  /** Through the route and the hook, a positive stored counter arrives unchanged. */
  lemma PositiveCountersSurvive(s: Store, uid: string, header: Option<string>, used: int, limit: int)
    requires HasBearer(header) && uid in s && used > 0 && limit > 0
    requires Field(s[uid], "pdfUploadsUsed") == Some(Int(used)) && Field(s[uid], "pdfUploadsLimit") == Some(Int(limit))
    ensures var u := Fetch(InitialHookState(), true, Some(BillingWorker.UserRoute(s, uid, header, true))).usage;
      u.Some? && u.value.pdfUsed == Some(used) && u.value.pdfLimit == Some(limit)
  {
    var body := BillingWorker.UserRoute(s, uid, header, true).body;
    var v := BillingWorker.ProjectUser(s[uid]);
    assert v.pdfUploadsUsed == used && v.pdfUploadsLimit == limit;
    assert body == BillingWorker.UserViewValue(v);
    assert LookupIn(Some(body), ["pdfUploadsUsed"]) == Some(Int(used));
    assert LookupIn(Some(body), ["pdfUploadsLimit"]) == Some(Int(limit));
  }
}
