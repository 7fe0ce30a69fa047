/**
 * `updateSubscription` of server/functions/index.js: an unauthenticated
 * endpoint that upgrades or cancels an account by id. `writeOk` is the
 * success of the store update.
 */
module SubscriptionAdmin {
  import opened Wrappers
  import opened Docs
  import opened Accounts
  import opened Http
  import opened Text

  /** `subscriptionData`; `None` is an `undefined` field, which the store rejects. */
  datatype SubscriptionData = SubscriptionData(subscriptionId: Option<string>, priceId: Option<string>, customerId: Option<string>)

  /** `{ userId, action, subscriptionData }`; an absent `userId` or `subscriptionData` is `None`. */
  datatype AdminBody = AdminBody(userId: Option<string>, action: string, subscriptionData: Option<SubscriptionData>)

  /**
   * `db.collection('users').doc(userId)` accepts the id when `users/<id>`
   * names a document: a non-empty string whose `/`-separated segments are
   * all non-empty and odd in number. Otherwise it throws.
   */
  predicate DocIdOk(userId: Option<string>) {
    userId.Some? && userId.value != "" &&
    var segments := Split(userId.value, '/');
    |segments| % 2 == 1 && forall i :: 0 <= i < |segments| ==> segments[i] != ""
  }

  const InvalidPathMessage := "Value for argument \"documentPath\" is not a valid resource path. Path must be a non-empty string."

  /** The `usage` map both actions write: an allowance and no generations recorded. */
  function GenerationsValue(p: Plan): Value {
    Obj(map["generationsPerUpload" := Int(GenerationsPerUpload(p)), "generationsUsed" := Obj(map[])])
  }

  /** The fields `upgrade` writes. */
  function UpgradeFields(id: string, price: string, customer: string): (d: Doc)
    ensures ReadLimits(d) == Some(DefaultLimits(Pro))
    ensures Field(d, "plan") == Some(Str("pro")) && Field(d, "subscription") == Some(Str("pro"))
    ensures Field(d, "subscriptionStatus") == Some(Str("active"))
    ensures Field(d, "subscriptionId") == Some(Str(id)) && Field(d, "priceId") == Some(Str(price))
    ensures Field(d, "customerId") == Some(Str(customer))
    ensures Field(d, "usage") == Some(GenerationsValue(Pro))
  {
    var d := map[
      "subscriptionStatus" := Str("active"),
      "subscriptionId" := Str(id),
      "priceId" := Str(price),
      "customerId" := Str(customer),
      "plan" := Str("pro"),
      "subscription" := Str("pro"),
      "limits" := LimitsValue(DefaultLimits(Pro)),
      "usage" := GenerationsValue(Pro)];
    ReadLimitsValue(d, DefaultLimits(Pro));
    d
  }

  /** The fields `cancel` writes; `customerId` is not among them. */
  function CancelFields(): (d: Doc)
    ensures ReadLimits(d) == Some(DefaultLimits(Free))
    ensures Field(d, "plan") == Some(Str("free")) && Field(d, "subscription") == Some(Str("free"))
    ensures Field(d, "subscriptionStatus") == Some(Str("cancelled"))
    ensures Field(d, "subscriptionId") == Some(Null) && Field(d, "priceId") == Some(Null)
    ensures "customerId" !in d
    ensures Field(d, "usage") == Some(GenerationsValue(Free))
  {
    var d := map[
      "subscriptionStatus" := Str("cancelled"),
      "subscriptionId" := Null,
      "priceId" := Null,
      "plan" := Str("free"),
      "subscription" := Str("free"),
      "limits" := LimitsValue(DefaultLimits(Free)),
      "usage" := GenerationsValue(Free)];
    ReadLimitsValue(d, DefaultLimits(Free));
    d
  }

  /** The fields an action writes: `None` for an action that writes nothing, `Failure` where building them throws. */
  function ActionFields(action: string, data: Option<SubscriptionData>): (r: Result<Option<Doc>, string>)
    ensures action != "upgrade" && action != "cancel" ==> r == Success(None)
    ensures action == "cancel" ==> r == Success(Some(CancelFields()))
    ensures action == "upgrade" && r.Success? ==>
      && data.Some? && data.value.subscriptionId.Some? && data.value.priceId.Some? && data.value.customerId.Some?
      && r.value == Some(UpgradeFields(data.value.subscriptionId.value, data.value.priceId.value, data.value.customerId.value))
  {
    if action == "upgrade" then
      match data
      case None => Failure("Cannot read properties of undefined")
      case Some(sd) =>
        if sd.subscriptionId.Some? && sd.priceId.Some? && sd.customerId.Some?
        then Success(Some(UpgradeFields(sd.subscriptionId.value, sd.priceId.value, sd.customerId.value)))
        else Failure("Cannot use undefined as a field value")
    else if action == "cancel" then Success(Some(CancelFields()))
    else Success(None)
  }

  /**
   * The handler: preflight 204; an unreadable body, an id that names no
   * document (the reference is built before the action is looked at), a
   * failed field build, a missing account or a failed update is a 500 with
   * no write; otherwise the action's fields replace the account's and the
   * answer is `{success: true}`.
   */
  function UpdateSubscription(verb: string, s: Store, body: Option<AdminBody>, writeOk: bool): (r: (Response, Store))
    ensures verb == "OPTIONS" ==> r == (Response(204, Str("")), s)
    ensures r.0.status != 200 ==> r.1 == s
    ensures verb != "OPTIONS" && body.Some? && !DocIdOk(body.value.userId) ==> r == (ErrorResponse(500, InvalidPathMessage), s)
    ensures verb != "OPTIONS" && r.0.status == 200 ==> body.Some? && DocIdOk(body.value.userId)
    ensures verb != "OPTIONS" && body.Some? && DocIdOk(body.value.userId) && body.value.action != "upgrade" && body.value.action != "cancel" ==>
      r == (Json(200, map["success" := Bool(true)]), s)
    ensures verb != "OPTIONS" && r.0.status == 200 && body.Some? ==>
      var f := ActionFields(body.value.action, body.value.subscriptionData);
      var uid := body.value.userId.value;
      && f.Success?
      && (f.value.Some? ==> uid in s && r.1 == s[uid := s[uid] + f.value.value])
  {
    if verb == "OPTIONS" then (Response(204, Str("")), s)
    else match body
      case None => (ErrorResponse(500, "Invalid request body"), s)
      case Some(b) =>
        if !DocIdOk(b.userId) then (ErrorResponse(500, InvalidPathMessage), s)
        else match ActionFields(b.action, b.subscriptionData)
        case Failure(msg) => (ErrorResponse(500, msg), s)
        case Success(None) => (Json(200, map["success" := Bool(true)]), s)
        case Success(Some(fields)) =>
          if !writeOk then (ErrorResponse(500, "Update failed"), s)
          else match UpdateDoc(s, b.userId.value, fields)
            case Failure(_) => (ErrorResponse(500, "No document to update"), s)
            case Success(s') => (Json(200, map["success" := Bool(true)]), s')
  }

  /**
   * Whatever the action, an absent or empty id is refused with a 500 before
   * anything is written, and a plain id with an unknown action is
   * acknowledged without a write.
   */
  lemma InvalidIdRefusedFirst(s: Store, action: string, data: Option<SubscriptionData>, writeOk: bool, uid: string)
    requires uid != "" && '/' !in uid
    ensures UpdateSubscription("POST", s, Some(AdminBody(None, action, data)), writeOk) == (ErrorResponse(500, InvalidPathMessage), s)
    ensures UpdateSubscription("POST", s, Some(AdminBody(Some(""), action, data)), writeOk) == (ErrorResponse(500, InvalidPathMessage), s)
    ensures action != "upgrade" && action != "cancel" ==>
      UpdateSubscription("POST", s, Some(AdminBody(Some(uid), action, data)), writeOk) == (Json(200, map["success" := Bool(true)]), s)
  {
    SplitNoSep(uid, '/');
  }

  /** Both actions overwrite regardless of prior state: repeating one changes nothing. */
  lemma UpdateSubscriptionIdempotent(s: Store, b: AdminBody)
    ensures var once := UpdateSubscription("POST", s, Some(b), true).1;
      UpdateSubscription("POST", once, Some(b), true).1 == once
  {
    var once := UpdateSubscription("POST", s, Some(b), true).1;
    PostWrites(s, b);
    PostWrites(once, b);
    var f := ActionFields(b.action, b.subscriptionData);
    if DocIdOk(b.userId) && f.Success? && f.value.Some? && b.userId.value in s {
      var uid := b.userId.value;
      var fields := f.value.value;
      OverwriteTwice(s[uid], fields);
      assert once[uid] + fields == once[uid];
      assert once[uid := once[uid]] == once;
    }
  }

  /** The store a `POST` with a working store leaves: the action's fields merged into an existing account, else unchanged. */
  lemma PostWrites(s: Store, b: AdminBody)
    ensures var f := ActionFields(b.action, b.subscriptionData);
      UpdateSubscription("POST", s, Some(b), true).1 ==
        if DocIdOk(b.userId) && f.Success? && f.value.Some? && b.userId.value in s
        then s[b.userId.value := s[b.userId.value] + f.value.value] else s
  {
  }

  /** Overwriting the same fields a second time changes nothing. */
  lemma OverwriteTwice(d: Doc, fields: Doc)
    ensures d + fields + fields == d + fields
  {
  }

  /** After a cancel the account keeps its customer reference, whatever it was. */
  lemma CancelKeepsCustomer(s: Store, uid: string)
    requires uid in s && DocIdOk(Some(uid))
    ensures var r := UpdateSubscription("POST", s, Some(AdminBody(Some(uid), "cancel", None)), true);
      r.0.status == 200 && uid in r.1 && Field(r.1[uid], "customerId") == Field(s[uid], "customerId")
  {
  }

  /**
   * The written `usage` map has no quotas, so an account created by the
   * sign-up trigger no longer reads as that shape after either action.
   */
  lemma ActionDropsUsageQuotas(s: Store, b: AdminBody)
    requires UpdateSubscription("POST", s, Some(b), true).0.status == 200
    requires b.action == "upgrade" || b.action == "cancel"
    ensures b.userId.Some? && b.userId.value in UpdateSubscription("POST", s, Some(b), true).1
    ensures ReadUsage(UpdateSubscription("POST", s, Some(b), true).1[b.userId.value]).None?
  {
  }
}
