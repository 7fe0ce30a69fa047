/**
 * The payment worker of api/server.js. It routes a request by method and
 * URL, answers the account read (`/user/`), starts checkouts, confirms paid
 * sessions (`/verify-session`) and handles payment-provider events
 * (`/webhook`). Account writes go through `updateFirestore`, a REST PATCH
 * that stores the flat account fields.
 *
 * External calls are parameters:
 *  - `sessions` maps a checkout-session id to the session it retrieves;
 *  - `prices` maps a subscription id to the id of its first price;
 *  - the success of each store call is a flag;
 *  - the list query's document names are passed in;
 *  - signature verification is reduced to its verdict.
 */
module BillingWorker {
  import opened Wrappers
  import opened Docs
  import opened Accounts
  import opened Text
  import opened Http

  /** The `data` argument of `updateFirestore`. */
  datatype BillingUpdate = BillingUpdate(
    subscriptionStatus: string,
    subscriptionId: Option<string>,
    priceId: Option<string>,
    customerId: Option<string>,
    plan: string,
    subscription: string)

  /** `x ? { stringValue: x } : { nullValue: null }`: an absent or empty id is stored as null. */
  function StoredRef(r: Option<string>): (o: Option<string>)
    ensures o.Some? <==> r.Some? && r.value != ""
    ensures o.Some? ==> o == r
  {
    if r.Some? && r.value != "" then r else None
  }

  /** The flat account `updateFirestore` writes: counters reset, allowances from `plan`. */
  function Target(u: BillingUpdate): (f: FlatAccount)
    ensures f.subscriptionStatus == u.subscriptionStatus && f.plan == u.plan && f.subscription == u.subscription
    ensures f.subscriptionId == StoredRef(u.subscriptionId)
    ensures f.priceId == StoredRef(u.priceId)
    ensures f.customerId == StoredRef(u.customerId)
    ensures f.pdfUploadsUsed == 0 && f.websiteUploadsUsed == 0
    ensures u.plan == "pro" ==> f.pdfUploadsLimit == 80 && f.websiteUploadsLimit == 50 && f.generationsPerUpload == 3
    ensures u.plan != "pro" ==> f.pdfUploadsLimit == 2 && f.websiteUploadsLimit == 1 && f.generationsPerUpload == 1
  {
    var p := PlanOf(u.plan);
    FlatAccount(
      u.subscriptionStatus, StoredRef(u.subscriptionId), StoredRef(u.priceId), StoredRef(u.customerId),
      u.plan, u.subscription,
      0, PdfLimit(p), 0, WebsiteLimit(p), GenerationsPerUpload(p))
  }

  /**
   * `updateFirestore(env, userId, data)`: on success the account document
   * holds exactly the target's flat fields; a failed PATCH throws and
   * changes nothing.
   */
  function UpdateFirestore(s: Store, userId: string, u: BillingUpdate, ok: bool): (r: Result<Store, string>)
    ensures r.Failure? <==> !ok
    ensures r.Success? ==> userId in r.value && ReadFlat(r.value[userId]) == Some(Target(u))
    ensures r.Success? ==> r.value.Keys == s.Keys + {userId} && forall k :: k in s && k != userId ==> r.value[k] == s[k]
  {
    if !ok then Failure("Failed to update Firestore")
    else
      ReadFlatDoc(Target(u));
      Success(SetDoc(s, userId, FlatDoc(Target(u))))
  }

  /**
   * Whatever else the data says, an account written with plan `'pro'` gets
   * strictly more of every allowance than one written with any other plan,
   * and both start with no uploads used.
   */
  lemma ProTargetExceedsOthers(pro: BillingUpdate, other: BillingUpdate)
    requires pro.plan == "pro" && other.plan != "pro"
    ensures var p := Target(pro);
      var o := Target(other);
      && p.pdfUploadsLimit > o.pdfUploadsLimit > p.pdfUploadsUsed == o.pdfUploadsUsed == 0
      && p.websiteUploadsLimit > o.websiteUploadsLimit > p.websiteUploadsUsed == o.websiteUploadsUsed == 0
      && p.generationsPerUpload > o.generationsPerUpload > 0
  {
  }

  /** Writing the same data twice gives the same store as writing it once. */
  lemma UpdateFirestoreIdempotent(s: Store, userId: string, u: BillingUpdate)
    ensures var once := UpdateFirestore(s, userId, u, true).value;
      UpdateFirestore(once, userId, u, true).value == once
  {
  }

  /** The written account depends only on the data, never on what was stored before. */
  lemma UpdateFirestoreForgetsPrior(s1: Store, s2: Store, userId: string, u: BillingUpdate)
    ensures UpdateFirestore(s1, userId, u, true).value[userId] == UpdateFirestore(s2, userId, u, true).value[userId]
  {
  }

  datatype CheckoutSession = CheckoutSession(
    clientReferenceId: string,
    subscription: Option<string>,
    customer: Option<string>,
    paymentStatus: string)

  /** `stripe.subscriptions.retrieve(id).items.data[0].price.id`; `None` where that throws. */
  function FirstPrice(prices: map<string, string>, subscription: Option<string>): (r: Option<string>)
    ensures r.Some? <==> subscription.Some? && subscription.value in prices
  {
    if subscription.Some? && subscription.value in prices then Some(prices[subscription.value]) else None
  }

  /** The data both the webhook and verify-session write for a paid session. */
  function PaidUpdate(session: CheckoutSession, price: string): (u: BillingUpdate)
    ensures u.subscriptionStatus == "active" && u.plan == "pro" && u.subscription == "pro"
    ensures u.subscriptionId == session.subscription && u.customerId == session.customer && u.priceId == Some(price)
  {
    BillingUpdate("active", session.subscription, Some(price), session.customer, "pro", "pro")
  }

  /** The data written when a subscription is deleted: `customerId` is absent, so it is stored as null too. */
  function CancelUpdate(): (u: BillingUpdate)
    ensures u.subscriptionStatus == "cancelled" && u.plan == "free" && u.subscription == "free"
    ensures u.subscriptionId.None? && u.priceId.None? && u.customerId.None?
  {
    BillingUpdate("cancelled", None, None, None, "free", "free")
  }

  datatype Event =
    | CheckoutCompleted(session: CheckoutSession)
    | SubscriptionDeleted(subscriptionId: string)
    | OtherEvent(kind: string)

  const Received := Json(200, map["received" := Bool(true)])

  /** `documents[0].name.split('/').pop()`. */
  function LastSegment(name: string): string {
    var parts := Split(name, '/');
    parts[|parts| - 1]
  }

  /** The REST name of the document `id` in a collection. */
  function DocName(collection: string, id: string): string {
    collection + "/" + id
  }

  /** The id is recovered from a document name. */
  lemma LastSegmentOfName(collection: string, id: string)
    requires '/' !in id
    ensures LastSegment(DocName(collection, id)) == id
  {
    SplitLastAfter(collection, id, '/');
    assert DocName(collection, id) == collection + ['/'] + id;
  }

  /**
   * `handleWebhook`: a bad signature is answered with 400 and nothing else
   * happens; a completed checkout upgrades the session's referenced account;
   * a deleted subscription downgrades the first listed account, or writes
   * nothing when none is listed; other events are acknowledged untouched. Any
   * thrown error is a 500 with no write.
   */
  function HandleWebhook(s: Store, signatureValid: bool, e: Event, prices: map<string, string>,
                         listed: seq<string>, writeOk: bool): (r: (Response, Store))
    ensures !signatureValid ==> r.0.status == 400 && r.1 == s
    ensures signatureValid && e.OtherEvent? ==> r == (Received, s)
    ensures signatureValid && e.SubscriptionDeleted? && listed == [] ==> r == (Received, s)
    ensures r.0.status != 200 ==> r.1 == s
    ensures signatureValid && e.CheckoutCompleted? && r.0.status == 200 ==>
      var price := FirstPrice(prices, e.session.subscription);
      price.Some? && r.1 == UpdateFirestore(s, e.session.clientReferenceId, PaidUpdate(e.session, price.value), true).value
    ensures signatureValid && e.SubscriptionDeleted? && listed != [] && r.0.status == 200 ==>
      r.1 == UpdateFirestore(s, LastSegment(listed[0]), CancelUpdate(), true).value
  {
    if !signatureValid then (Response(400, Str("Webhook Error")), s)
    else match e
      case CheckoutCompleted(session) =>
        (match FirstPrice(prices, session.subscription)
         case None => (ErrorResponse(500, "Subscription lookup failed"), s)
         case Some(price) =>
           match UpdateFirestore(s, session.clientReferenceId, PaidUpdate(session, price), writeOk)
           case Failure(msg) => (ErrorResponse(500, msg), s)
           case Success(s') => (Received, s'))
      case SubscriptionDeleted(_) =>
        if |listed| == 0 then (Received, s)
        else
          (match UpdateFirestore(s, LastSegment(listed[0]), CancelUpdate(), writeOk)
           case Failure(msg) => (ErrorResponse(500, msg), s)
           case Success(s') => (Received, s'))
      case OtherEvent(_) => (Received, s)
  }

  /**
   * A deleted subscription whose list query names account `id` leaves that
   * account free and cancelled with every billing reference null.
   */
  lemma DeletedDowngradesListed(s: Store, subscriptionId: string, collection: string, id: string)
    requires '/' !in id
    ensures var r := HandleWebhook(s, true, SubscriptionDeleted(subscriptionId), map[], [DocName(collection, id)], true);
      && r.0 == Received
      && id in r.1
      && ReadFlat(r.1[id]) == Some(FlatAccount("cancelled", None, None, None, "free", "free", 0, 2, 0, 1, 1))
  {
    LastSegmentOfName(collection, id);
  }

  /** `{ sessionId, userId }` of a verify-session request. */
  datatype VerifyBody = VerifyBody(sessionId: string, userId: string)

  /**
   * The `/verify-session` branch: a paid session upgrades the account named
   * in the body; an unpaid one is refused with 400; an unreadable body, an
   * unknown session, a failed price lookup or a failed write is a 500. Only
   * the 200 answer writes.
   */
  function VerifySession(s: Store, body: Option<VerifyBody>, sessions: map<string, CheckoutSession>,
                         prices: map<string, string>, writeOk: bool): (r: (Response, Store))
    ensures r.0.status != 200 ==> r.1 == s
    ensures r.0.status == 200 ==> body.Some? && body.value.sessionId in sessions && sessions[body.value.sessionId].paymentStatus == "paid"
    ensures body.Some? && body.value.sessionId in sessions && sessions[body.value.sessionId].paymentStatus != "paid" ==>
      r == (ErrorResponse(400, "Payment not completed"), s)
    ensures r.0.status == 200 ==>
      var session := sessions[body.value.sessionId];
      var price := FirstPrice(prices, session.subscription);
      price.Some? && r.1 == UpdateFirestore(s, body.value.userId, PaidUpdate(session, price.value), true).value
  {
    match body
    case None => (ErrorResponse(500, "Invalid request body"), s)
    case Some(b) =>
      if b.sessionId !in sessions then (ErrorResponse(500, "No such checkout session"), s)
      else
        var session := sessions[b.sessionId];
        if session.paymentStatus != "paid" then (ErrorResponse(400, "Payment not completed"), s)
        else match FirstPrice(prices, session.subscription)
          case None => (ErrorResponse(500, "Subscription lookup failed"), s)
          case Some(price) =>
            match UpdateFirestore(s, b.userId, PaidUpdate(session, price), writeOk)
            case Failure(msg) => (ErrorResponse(500, msg), s)
            case Success(s') => (Json(200, map["status" := Str("success")]), s')
  }

  /**
   * For a paid session confirmed for its own referenced account, the
   * verify-session branch and the checkout webhook write the same store.
   */
  lemma VerifyAgreesWithWebhook(s: Store, sid: string, session: CheckoutSession, prices: map<string, string>)
    requires session.paymentStatus == "paid" && FirstPrice(prices, session.subscription).Some?
    ensures var v := VerifySession(s, Some(VerifyBody(sid, session.clientReferenceId)), map[sid := session], prices, true);
      var w := HandleWebhook(s, true, CheckoutCompleted(session), prices, [], true);
      v.0.status == 200 && w.0.status == 200 && v.1 == w.1
  {
  }

  /** Either confirmation may arrive first: the second one changes nothing. */
  lemma ConfirmationOrderIrrelevant(s: Store, sid: string, session: CheckoutSession, prices: map<string, string>)
    requires session.paymentStatus == "paid" && FirstPrice(prices, session.subscription).Some?
    ensures var body := Some(VerifyBody(sid, session.clientReferenceId));
      var sessions := map[sid := session];
      var e := CheckoutCompleted(session);
      && VerifySession(HandleWebhook(s, true, e, prices, [], true).1, body, sessions, prices, true).1
         == HandleWebhook(s, true, e, prices, [], true).1
      && HandleWebhook(VerifySession(s, body, sessions, prices, true).1, true, e, prices, [], true).1
         == VerifySession(s, body, sessions, prices, true).1
  {
    var price := FirstPrice(prices, session.subscription).value;
    UpdateFirestoreIdempotent(s, session.clientReferenceId, PaidUpdate(session, price));
  }

  /** The JSON the `/user/` route answers with. */
  datatype UserView = UserView(
    subscriptionStatus: string,
    plan: string,
    priceId: Option<string>,
    pdfUploadsUsed: int,
    pdfUploadsLimit: int,
    websiteUploadsUsed: int,
    websiteUploadsLimit: int)

  /** `fields?.k?.stringValue || fallback`: an absent, non-string or empty value falls back. */
  function StringOr(d: Doc, k: string, fallback: string): (r: string)
    ensures k in d && d[k].Str? && d[k].s != "" ==> r == d[k].s
    ensures !(k in d && d[k].Str? && d[k].s != "") ==> r == fallback
  {
    if k in d && d[k].Str? && d[k].s != "" then d[k].s else fallback
  }

  /**
   * `parseInt(fields?.k?.integerValue || fallback)`: the REST interface sends
   * integers as decimal strings, which are never empty, so a stored 0 is kept.
   */
  function IntegerOr(d: Doc, k: string, fallback: int): (r: int)
    ensures k in d && d[k].Int? ==> r == d[k].i
    ensures !(k in d && d[k].Int?) ==> r == fallback
  {
    if k in d && d[k].Int? then d[k].i else fallback
  }

  /** The projection of lines 120-128, with its defaults. */
  function ProjectUser(d: Doc): (v: UserView)
    ensures v.priceId.Some? <==> "priceId" in d && d["priceId"].Str?
  {
    UserView(
      StringOr(d, "subscriptionStatus", "inactive"),
      StringOr(d, "plan", "free"),
      if "priceId" in d && d["priceId"].Str? then Some(d["priceId"].s) else None,
      IntegerOr(d, "pdfUploadsUsed", 0),
      IntegerOr(d, "pdfUploadsLimit", 2),
      IntegerOr(d, "websiteUploadsUsed", 0),
      IntegerOr(d, "websiteUploadsLimit", 1))
  }

  /** An account with none of the fields reads as an inactive free account with the free limits. */
  lemma ProjectEmptyAccount()
    ensures ProjectUser(map[]) == UserView("inactive", "free", None, 0, 2, 0, 1)
  {
  }

  /** Reading back what `updateFirestore` wrote reproduces its status, plan, price and counters. */
  lemma ProjectWrittenAccount(u: BillingUpdate)
    requires u.subscriptionStatus != "" && u.plan != ""
    ensures var f := Target(u);
      ProjectUser(FlatDoc(f)) == UserView(f.subscriptionStatus, f.plan, f.priceId,
                                          f.pdfUploadsUsed, f.pdfUploadsLimit, f.websiteUploadsUsed, f.websiteUploadsLimit)
  {
  }

  /** A view as JSON; an absent `priceId` is dropped by serialisation. */
  function UserViewValue(v: UserView): Value {
    var base := map[
      "subscriptionStatus" := Str(v.subscriptionStatus),
      "plan" := Str(v.plan),
      "pdfUploadsUsed" := Int(v.pdfUploadsUsed),
      "pdfUploadsLimit" := Int(v.pdfUploadsLimit),
      "websiteUploadsUsed" := Int(v.websiteUploadsUsed),
      "websiteUploadsLimit" := Int(v.websiteUploadsLimit)];
    Obj(if v.priceId.Some? then base["priceId" := Str(v.priceId.value)] else base)
  }

  /**
   * The `/user/` route: 401 without a `Bearer` header (the token itself is
   * not checked), 500 when the document cannot be fetched, else the
   * projection. It never writes.
   */
  function UserRoute(s: Store, userId: string, header: Option<string>, fetchOk: bool): (r: Response)
    ensures !HasBearer(header) ==> r == ErrorResponse(401, "Unauthorized")
    ensures r.status == 200 <==> HasBearer(header) && fetchOk && userId in s
    ensures r.status == 200 ==> r.body == UserViewValue(ProjectUser(s[userId]))
  {
    if !HasBearer(header) then ErrorResponse(401, "Unauthorized")
    else if !fetchOk || userId !in s then ErrorResponse(500, "Failed to fetch user data")
    else Response(200, UserViewValue(ProjectUser(s[userId])))
  }

  /** `{ priceId, userId, email }` of a checkout request. */
  datatype CheckoutBody = CheckoutBody(priceId: Option<string>, userId: Option<string>, email: Option<string>)

  /** The checkout session the worker asks the payment provider to create. */
  datatype SessionRequest = SessionRequest(
    price: string,
    clientReferenceId: Option<string>,
    customerEmail: Option<string>,
    metadataUserId: Option<string>,
    successUrl: string,
    cancelUrl: string)

  const SuccessUrl := "https://ideaflow.uk/dashboard/subscription?success=true&session_id={CHECKOUT_SESSION_ID}"
  const CancelUrl := "https://ideaflow.uk/dashboard?canceled=true"

  /**
   * The `/create-checkout-session` branch: an unreadable body or a missing
   * (or empty) `priceId` is a 400 before any session is requested; otherwise
   * the session is requested for the body's `userId`, and its URL returned
   * (`created` is the URL, `None` when creation throws, giving a 500). This
   * route never writes the store.
   */
  function CheckoutRoute(body: Option<CheckoutBody>, created: Option<string>): (r: (Response, Option<SessionRequest>))
    ensures body.None? ==> r == (ErrorResponse(400, "Invalid request body"), None)
    ensures body.Some? && !(body.value.priceId.Some? && body.value.priceId.value != "") ==>
      r == (ErrorResponse(400, "Missing priceId"), None)
    ensures r.1.Some? ==>
      && body.Some? && body.value.priceId == Some(r.1.value.price) && r.1.value.price != ""
      && r.1.value.clientReferenceId == body.value.userId && r.1.value.metadataUserId == body.value.userId
      && r.1.value.customerEmail == body.value.email
    ensures r.0.status == 200 <==> r.1.Some? && created.Some?
  {
    match body
    case None => (ErrorResponse(400, "Invalid request body"), None)
    case Some(b) =>
      if !(b.priceId.Some? && b.priceId.value != "") then (ErrorResponse(400, "Missing priceId"), None)
      else
        var req := SessionRequest(b.priceId.value, b.userId, b.email, b.userId, SuccessUrl, CancelUrl);
        match created
        case None => (ErrorResponse(500, "Checkout session creation failed"), Some(req))
        case Some(url) => (Json(200, map["url" := Str(url)]), Some(req))
  }

  /**
   * The session the payment provider reports once the checkout requested by
   * `req` is paid: it carries the request's client reference.
   */
  function PaidSessionOf(req: SessionRequest, subscription: string, customer: string): CheckoutSession {
    CheckoutSession(req.clientReferenceId.GetOr(""), Some(subscription), Some(customer), "paid")
  }

  /**
   * A checkout started for a user, once paid and reported to the webhook,
   * upgrades that same user's account to the paid plan: the reference the
   * route puts in the session is the one the webhook writes to.
   */
  lemma CheckoutThenWebhookUpgradesRequester(s: Store, b: CheckoutBody, url: string, subscription: string,
                                              customer: string, price: string)
    requires b.userId.Some? && b.priceId.Some? && b.priceId.value != ""
    ensures CheckoutRoute(Some(b), Some(url)).1.Some?
    ensures var req := CheckoutRoute(Some(b), Some(url)).1.value;
      var w := HandleWebhook(s, true, CheckoutCompleted(PaidSessionOf(req, subscription, customer)),
                             map[subscription := price], [], true);
      && w.0 == Received
      && b.userId.value in w.1
      && ReadFlat(w.1[b.userId.value]) == Some(FlatAccount("active", StoredRef(Some(subscription)), StoredRef(Some(price)),
           StoredRef(Some(customer)), "pro", "pro", 0, 80, 0, 50, 3))
  {
    var req := CheckoutRoute(Some(b), Some(url)).1.value;
    var session := PaidSessionOf(req, subscription, customer);
    assert session.clientReferenceId == b.userId.value;
    assert FirstPrice(map[subscription := price], Some(subscription)) == Some(price);
    var u := PaidUpdate(session, price);
    var w := HandleWebhook(s, true, CheckoutCompleted(session), map[subscription := price], [], true);
    assert w.1 == UpdateFirestore(s, b.userId.value, u, true).value;
    assert Target(u) == FlatAccount("active", StoredRef(Some(subscription)), StoredRef(Some(price)), StoredRef(Some(customer)), "pro", "pro", 0, 80, 0, 50, 3);
  }

  datatype Route = Preflight | MissingKey | UserData | Webhook | Checkout | Verify | NoRoute

  /**
   * Dispatch order: preflight first, then the configuration check, then the
   * first URL fragment found among `/user/`, `/webhook`,
   * `/create-checkout-session` and `/verify-session`.
   */
  function RouteOf(verb: string, url: string, hasStripeKey: bool): (r: Route)
    ensures r == Preflight <==> verb == "OPTIONS"
    ensures r == MissingKey <==> verb != "OPTIONS" && !hasStripeKey
    ensures r == UserData <==> verb != "OPTIONS" && hasStripeKey && Contains(url, "/user/")
    ensures r == Webhook <==> verb != "OPTIONS" && hasStripeKey && !Contains(url, "/user/") && Contains(url, "/webhook")
    ensures r == Checkout <==>
      && verb != "OPTIONS" && hasStripeKey && !Contains(url, "/user/") && !Contains(url, "/webhook")
      && Contains(url, "/create-checkout-session")
    ensures r == Verify <==>
      && verb != "OPTIONS" && hasStripeKey && !Contains(url, "/user/") && !Contains(url, "/webhook")
      && !Contains(url, "/create-checkout-session") && Contains(url, "/verify-session")
    ensures r == NoRoute <==>
      && verb != "OPTIONS" && hasStripeKey && !Contains(url, "/user/") && !Contains(url, "/webhook")
      && !Contains(url, "/create-checkout-session") && !Contains(url, "/verify-session")
  {
    if verb == "OPTIONS" then Preflight
    else if !hasStripeKey then MissingKey
    else if Contains(url, "/user/") then UserData
    else if Contains(url, "/webhook") then Webhook
    else if Contains(url, "/create-checkout-session") then Checkout
    else if Contains(url, "/verify-session") then Verify
    else NoRoute
  }

  /** The URL fragments the worker tests, in its order, with the route each selects. */
  const Fragments := [("/user/", UserData), ("/webhook", Webhook), ("/create-checkout-session", Checkout),
                      ("/verify-session", Verify)]

  /** The route of the first fragment of `table` that occurs in `url`, `NoRoute` when none does. */
  function FirstMatch(url: string, table: seq<(string, Route)>): Route {
    if |table| == 0 then NoRoute
    else if Contains(url, table[0].0) then table[0].1
    else FirstMatch(url, table[1..])
  }

  /**
   * Past the preflight and the configuration check, the dispatch is a
   * first-match lookup of the URL in the fragment table: whichever handler
   * runs is the one of the earliest fragment present.
   */
  lemma RouteOfIsFirstMatch(verb: string, url: string, hasStripeKey: bool)
    requires verb != "OPTIONS" && hasStripeKey
    ensures RouteOf(verb, url, hasStripeKey) == FirstMatch(url, Fragments)
  {
    var t := Fragments;
    assert t[1..][1..] == t[2..] && t[2..][1..] == t[3..] && t[3..][1..] == [];
    assert t[3..] == [("/verify-session", Verify)] && FirstMatch(url, []) == NoRoute;
    var m3 := FirstMatch(url, t[3..]);
    assert m3 == if Contains(url, "/verify-session") then Verify else NoRoute;
    var m2 := FirstMatch(url, t[2..]);
    assert m2 == if Contains(url, "/create-checkout-session") then Checkout else m3;
    var m1 := FirstMatch(url, t[1..]);
    assert m1 == if Contains(url, "/webhook") then Webhook else m2;
    assert FirstMatch(url, t) == if Contains(url, "/user/") then UserData else m1;
  }

  /**
   * There is no cancellation route: a request to `/cancel-subscription`
   * (with none of the handled fragments in its URL) falls through to the
   * 404 answer, whose status is not OK.
   */
  lemma CancelSubscriptionNotFound(base: string)
    requires forall i :: 0 <= i < |Fragments| ==> !Contains(base + "/cancel-subscription", Fragments[i].0)
    ensures RouteOf("POST", base + "/cancel-subscription", true) == NoRoute
    ensures FixedAnswer(NoRoute) == Some(Response(404, Str("Not found")))
  {
    assert !Contains(base + "/cancel-subscription", Fragments[0].0);
    assert !Contains(base + "/cancel-subscription", Fragments[1].0);
    assert !Contains(base + "/cancel-subscription", Fragments[2].0);
    assert !Contains(base + "/cancel-subscription", Fragments[3].0);
  }

  /** The answers that need no handler: the preflight, the configuration error and the fallback. */
  function FixedAnswer(r: Route): (resp: Option<Response>)
    ensures resp.Some? <==> r == Preflight || r == MissingKey || r == NoRoute
    ensures r == Preflight ==> resp == Some(Empty(200))
    ensures r == MissingKey ==> resp == Some(ErrorResponse(500, "Server configuration error"))
    ensures r == NoRoute ==> resp == Some(Response(404, Str("Not found")))
  {
    match r
    case Preflight => Some(Empty(200))
    case MissingKey => Some(ErrorResponse(500, "Server configuration error"))
    case NoRoute => Some(Response(404, Str("Not found")))
    case _ => None
  }
}
