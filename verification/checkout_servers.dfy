/**
 * The two token-checked checkout endpoints: the Express server of
 * server/index.js and the serverless handler of
 * server/api/create-checkout-session.js. Both verify the caller's ID token,
 * create a checkout session for the token's uid and then update the
 * account: the first writes the paid tier at once, the second a pending
 * state.
 *
 * `tokens` maps each ID token the verifier accepts to its uid (any other
 * token makes verification throw); `created` is the URL of the created
 * session, `None` when creation throws; `writeOk` is the success of the
 * store update; `now` stands for the server timestamp.
 */
module CheckoutServers {
  import opened Wrappers
  import opened Docs
  import opened Accounts
  import opened Text
  import opened Http

  /** `{ priceId, email, successUrl, cancelUrl }` of the request body. */
  datatype CheckoutBody = CheckoutBody(
    priceId: Option<string>,
    email: Option<string>,
    successUrl: Option<string>,
    cancelUrl: Option<string>)

  /** The session the servers ask for: the account reference is always the verified uid. */
  datatype SessionRequest = SessionRequest(
    price: Option<string>,
    successUrl: Option<string>,
    cancelUrl: Option<string>,
    clientReferenceId: string,
    customerEmail: Option<string>,
    metadataUserId: string)

  datatype Outcome = Outcome(response: Response, request: Option<SessionRequest>, store: Store)

  /** The framework's answer when the JSON body parser rejects a malformed body. */
  const BadJson := Response(400, Str("Bad Request"))

  /**
   * The shared authorisation step: 401 without a `Bearer` header, 500 when
   * the token does not verify, else the token's uid.
   */
  function CallerUid(header: Option<string>, tokens: map<string, string>): (r: Result<string, Response>)
    ensures !HasBearer(header) ==> r == Failure(ErrorResponse(401, "Missing authorization header"))
    ensures r.Success? <==> HasBearer(header) && BearerToken(header.value) in tokens
    ensures r.Success? ==> r.value == tokens[BearerToken(header.value)]
    ensures r.Failure? ==> r.error.status == 401 || r.error.status == 500
  {
    if !HasBearer(header) then Failure(ErrorResponse(401, "Missing authorization header"))
    else
      var token := BearerToken(header.value);
      if token !in tokens then Failure(ErrorResponse(500, "Invalid ID token"))
      else Success(tokens[token])
  }

  function RequestFor(uid: string, b: CheckoutBody): SessionRequest {
    SessionRequest(b.priceId, b.successUrl, b.cancelUrl, uid, b.email, uid)
  }

  /** What server/index.js writes once the session exists: the paid tier, before any payment. */
  function EagerProFields(price: string, now: int): (d: Doc)
    ensures ReadLimits(d) == Some(DefaultLimits(Pro))
    ensures Field(d, "subscription") == Some(Str("pro")) && Field(d, "subscriptionStatus") == Some(Str("active"))
    ensures Field(d, "priceId") == Some(Str(price)) && Field(d, "generationsPerUpload") == Some(Int(GenerationsPerUpload(Pro)))
  {
    var d := map[
      "subscription" := Str("pro"),
      "subscriptionStatus" := Str("active"),
      "priceId" := Str(price),
      "limits" := LimitsValue(DefaultLimits(Pro)),
      "generationsPerUpload" := Int(3),
      "updatedAt" := Time(now)];
    ReadLimitsValue(d, DefaultLimits(Pro));
    d
  }

  /** What server/api/create-checkout-session.js writes: a pending state and the price, nothing else. */
  function PendingFields(price: string, now: int): (d: Doc)
    ensures d.Keys == {"subscription", "subscriptionStatus", "priceId", "updatedAt"}
    ensures d["subscription"] == Str("pending") && d["subscriptionStatus"] == Str("pending") && d["priceId"] == Str(price)
  {
    map[
      "subscription" := Str("pending"),
      "subscriptionStatus" := Str("pending"),
      "priceId" := Str(price),
      "updatedAt" := Time(now)]
  }

  /**
   * The update after the session exists. An absent `priceId` is an
   * `undefined` field value, which the store rejects; a missing account
   * makes `update` fail. Either failure is a 500 and writes nothing.
   */
  function WriteAfterSession(s: Store, uid: string, price: Option<string>, fields: string -> Doc,
                             url: string, writeOk: bool): (r: (Response, Store))
    ensures r.0.status == 200 ==> price.Some? && uid in s && writeOk && r.1 == s[uid := s[uid] + fields(price.value)]
    ensures r.0.status == 200 ==> r.0 == Json(200, map["url" := Str(url)])
    ensures r.0.status != 200 ==> r.0.status == 500 && r.1 == s
  {
    if price.None? || !writeOk then (ErrorResponse(500, "Account update failed"), s)
    else match UpdateDoc(s, uid, fields(price.value))
      case Failure(_) => (ErrorResponse(500, "Account update failed"), s)
      case Success(s') => (Json(200, map["url" := Str(url)]), s')
  }

  /**
   * server/index.js: every preflight is 200 with no work; then the JSON
   * body parser answers a malformed body (`None`) with 400 before any route
   * runs; only POST reaches the route (other methods get the framework's
   * 404). Without a verified token there is no session and no write; after
   * the session is created the account is set to the paid tier.
   */
  function ExpressCheckout(verb: string, s: Store, header: Option<string>, tokens: map<string, string>,
                           body: Option<CheckoutBody>, created: Option<string>, now: int, writeOk: bool): (r: Outcome)
    ensures verb == "OPTIONS" ==> r == Outcome(Empty(200), None, s)
    ensures verb != "OPTIONS" && body.None? ==> r == Outcome(BadJson, None, s)
    ensures verb == "POST" && body.Some? && !HasBearer(header) ==>
      r == Outcome(ErrorResponse(401, "Missing authorization header"), None, s)
    ensures r.request.Some? ==>
      && body.Some? && HasBearer(header) && BearerToken(header.value) in tokens
      && r.request.value.clientReferenceId == tokens[BearerToken(header.value)]
      && r.request.value.metadataUserId == r.request.value.clientReferenceId
    ensures r.response.status != 200 ==> r.store == s
    ensures verb == "POST" && r.response.status == 200 ==>
      && r.request.Some? && created.Some? && r.request.value.price.Some?
      && var uid := r.request.value.clientReferenceId;
      && uid in s && r.store == s[uid := s[uid] + EagerProFields(r.request.value.price.value, now)]
  {
    if verb == "OPTIONS" then Outcome(Empty(200), None, s)
    else match body
      case None => Outcome(BadJson, None, s)
      case Some(b) =>
        if verb != "POST" then Outcome(Response(404, Null), None, s)
        else match CallerUid(header, tokens)
          case Failure(resp) => Outcome(resp, None, s)
          case Success(uid) =>
            var req := RequestFor(uid, b);
            match created
            case None => Outcome(ErrorResponse(500, "Checkout session creation failed"), Some(req), s)
            case Some(url) =>
              var w := WriteAfterSession(s, uid, b.priceId, p => EagerProFields(p, now), url, writeOk);
              Outcome(w.0, Some(req), w.1)
  }

  /**
   * A 200 from server/index.js leaves the caller's account on the paid tier
   * with fresh paid limits, though no payment has been observed.
   */
  lemma ExpressUpgradesBeforePayment(s: Store, header: Option<string>, tokens: map<string, string>,
                                     body: Option<CheckoutBody>, created: Option<string>, now: int)
    requires ExpressCheckout("POST", s, header, tokens, body, created, now, true).response.status == 200
    ensures var r := ExpressCheckout("POST", s, header, tokens, body, created, now, true);
      var uid := tokens[BearerToken(header.value)];
      && uid in r.store
      && ReadLimits(r.store[uid]) == Some(DefaultLimits(Pro))
      && Field(r.store[uid], "subscription") == Some(Str("pro"))
      && Field(r.store[uid], "subscriptionStatus") == Some(Str("active"))
  {
    var r := ExpressCheckout("POST", s, header, tokens, body, created, now, true);
    var uid := tokens[BearerToken(header.value)];
    var d := r.store[uid];
    assert "limits" in d && d["limits"] == LimitsValue(DefaultLimits(Pro));
    ReadLimitsValue(d, DefaultLimits(Pro));
  }

  /** The account a session is for is chosen by the token alone: two bodies give the same reference. */
  lemma SessionOwnerFromToken(s: Store, header: Option<string>, tokens: map<string, string>,
                              b1: CheckoutBody, b2: CheckoutBody, url: string, now: int)
    requires HasBearer(header) && BearerToken(header.value) in tokens
    ensures var r1 := ExpressCheckout("POST", s, header, tokens, Some(b1), Some(url), now, true);
      var r2 := ExpressCheckout("POST", s, header, tokens, Some(b2), Some(url), now, true);
      r1.request.Some? && r2.request.Some? && r1.request.value.clientReferenceId == r2.request.value.clientReferenceId
  {
  }

  /**
   * server/api/create-checkout-session.js: preflight 200 and any other
   * non-POST method 405, both before any work; then as above, but the write
   * records only a pending state and the price.
   */
  function VercelCheckout(verb: string, s: Store, header: Option<string>, tokens: map<string, string>,
                          body: Option<CheckoutBody>, created: Option<string>, now: int, writeOk: bool): (r: Outcome)
    ensures verb == "OPTIONS" ==> r == Outcome(Empty(200), None, s)
    ensures verb != "OPTIONS" && verb != "POST" ==> r == Outcome(ErrorResponse(405, "Method not allowed"), None, s)
    ensures verb == "POST" && !HasBearer(header) ==> r == Outcome(ErrorResponse(401, "Missing authorization header"), None, s)
    ensures r.request.Some? ==>
      && HasBearer(header) && BearerToken(header.value) in tokens
      && r.request.value.clientReferenceId == tokens[BearerToken(header.value)]
      && r.request.value.metadataUserId == r.request.value.clientReferenceId
    ensures r.request.None? || created.None? ==> r.store == s
    ensures verb == "POST" && r.response.status == 200 ==>
      && r.request.Some? && created.Some? && r.request.value.price.Some?
      && var uid := r.request.value.clientReferenceId;
      && uid in s && r.store == s[uid := s[uid] + PendingFields(r.request.value.price.value, now)]
  {
    if verb == "OPTIONS" then Outcome(Empty(200), None, s)
    else if verb != "POST" then Outcome(ErrorResponse(405, "Method not allowed"), None, s)
    else match CallerUid(header, tokens)
      case Failure(resp) => Outcome(resp, None, s)
      case Success(uid) =>
        match body
        case None => Outcome(ErrorResponse(500, "Invalid request body"), None, s)
        case Some(b) =>
          var req := RequestFor(uid, b);
          match created
          case None => Outcome(ErrorResponse(500, "Checkout session creation failed"), Some(req), s)
          case Some(url) =>
            var w := WriteAfterSession(s, uid, b.priceId, p => PendingFields(p, now), url, writeOk);
            Outcome(w.0, Some(req), w.1)
  }

  /** The pending write leaves the quotas and every other unlisted field as they were. */
  lemma VercelKeepsLimits(s: Store, header: Option<string>, tokens: map<string, string>,
                          body: Option<CheckoutBody>, created: Option<string>, now: int, k: string)
    requires VercelCheckout("POST", s, header, tokens, body, created, now, true).response.status == 200
    requires k !in {"subscription", "subscriptionStatus", "priceId", "updatedAt"}
    ensures var r := VercelCheckout("POST", s, header, tokens, body, created, now, true);
      var uid := tokens[BearerToken(header.value)];
      uid in s && uid in r.store && Field(r.store[uid], k) == Field(s[uid], k)
  {
  }
}
