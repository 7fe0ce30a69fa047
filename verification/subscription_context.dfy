/**
 * The browser-side subscription provider of
 * src/contexts/SubscriptionContext.js: its initial state, the provisioning
 * write made when a signed-in account lacks limits, and the non-atomic
 * upload check and counter. The signed-in user is a parameter (`None` when
 * nobody is signed in), and so is the success of each store call.
 */
module SubscriptionContext {
  import opened Wrappers
  import opened Docs
  import opened Accounts
  import UsageTransaction

  /** The provider's `subscription` and `usage` state before any snapshot arrives. */
  datatype ProviderState = ProviderState(subscription: string, usage: Usage)

  /** `useState('free')` and the free quotas with one generation per upload. */
  function InitialState(): (st: ProviderState)
    ensures st.subscription == "free"
    ensures st.usage.pdfUploads == DefaultLimits(Free).pdfUploads
    ensures st.usage.websiteUploads == DefaultLimits(Free).websiteUploads
    ensures st.usage.generationsPerUpload == GenerationsPerUpload(Free) && st.usage.generationsUsed == map[]
  {
    ProviderState("free", Usage(Quota(0, 2), Quota(0, 1), 1, map[]))
  }

  /** The fields `initializeUser` merges in. */
  function InitDefaults(email: Value): Doc {
    map[
      "email" := email,
      "subscription" := Str("free"),
      "limits" := LimitsValue(DefaultLimits(Free)),
      "generationsPerUpload" := Int(1)]
  }

  /**
   * `initializeUser`: when the account is missing or its `limits` is falsy,
   * merge-write the free defaults; otherwise write nothing.
   */
  function InitializeUser(s: Store, uid: string, email: Value): (r: Store)
    ensures uid in s && Truthy(Field(s[uid], "limits")) ==> r == s
    ensures !(uid in s && Truthy(Field(s[uid], "limits"))) ==> uid in r && ReadLimits(r[uid]) == Some(DefaultLimits(Free))
    ensures forall k :: k in s && k != uid ==> k in r && r[k] == s[k]
  {
    if uid !in s || !Truthy(Field(s[uid], "limits")) then
      var r := MergeDoc(s, uid, InitDefaults(email));
      InitializeWrites(s, uid, email);
      r
    else s
  }

  /**
   * The provisioning write sets the free limits, plan and allowance, and keeps
   * every field it does not list.
   */
  lemma InitializeWrites(s: Store, uid: string, email: Value)
    requires uid !in s || !Truthy(Field(s[uid], "limits"))
    ensures var d := MergeDoc(s, uid, InitDefaults(email))[uid];
      && ReadLimits(d) == Some(DefaultLimits(Free))
      && Field(d, "subscription") == Some(Str("free"))
      && Field(d, "generationsPerUpload") == Some(Int(1))
      && (forall k :: uid in s && k in s[uid] && k !in InitDefaults(email) ==> k in d && d[k] == s[uid][k])
  {
    var prev := if uid in s then s[uid] else map[];
    var d := MergeFields(prev, InitDefaults(email));
    assert d["limits"] == MergeValue(Field(prev, "limits"), LimitsValue(DefaultLimits(Free)));
    ReadLimitsValue(d, DefaultLimits(Free));
  }

  /** Provisioning twice is the same as provisioning once. */
  lemma InitializeUserIdempotent(s: Store, uid: string, email: Value)
    ensures InitializeUser(InitializeUser(s, uid, email), uid, email) == InitializeUser(s, uid, email)
  {
    if uid !in s || !Truthy(Field(s[uid], "limits")) {
      InitializeWrites(s, uid, email);
    }
  }

  /** The document key of an upload kind: `${type}Uploads`. */
  function QuotaKey(kind: string): string {
    kind + "Uploads"
  }

  /** `limits.used < limits.limit` for the entry `limits[key]` of an account document, with JavaScript's NaN rules. */
  predicate EntryBelowLimit(d: Doc, key: string) {
    var limits := Field(d, "limits");
    && Truthy(limits)
    && limits.value.Obj?
    && Truthy(Field(limits.value.fields, key))
    && JsLess(LookupIn(Field(limits.value.fields, key), ["used"]), LookupIn(Field(limits.value.fields, key), ["limit"]))
  }

  /**
   * `checkUploadLimit(type)`: never writes; `false` with nobody signed in, when
   * the read fails, when the account or its `limits` or the entry is missing,
   * and otherwise `used < limit`.
   */
  function CheckUploadLimit(user: Option<string>, s: Store, kind: string, readOk: bool): (r: bool)
    ensures r ==> user.Some? && readOk && user.value in s
    ensures user.Some? && readOk && user.value in s ==> (r <==> EntryBelowLimit(s[user.value], QuotaKey(kind)))
  {
    match user
    case None => false
    case Some(uid) =>
      if !readOk || uid !in s then false
      else
        var limits := Field(s[uid], "limits");
        if !Truthy(limits) then false
        else
          var entry := if limits.value.Obj? then Field(limits.value.fields, QuotaKey(kind)) else None;
          if Truthy(entry) then JsLess(LookupIn(entry, ["used"]), LookupIn(entry, ["limit"])) else false
  }

  /** On a well-formed `limits` map the check is exactly `used < limit` of the kind's quota. */
  lemma CheckUploadLimitOnLimits(uid: string, s: Store, l: Limits)
    requires uid in s && ReadLimits(s[uid]).Some? && ReadLimits(s[uid]).value == l
    ensures CheckUploadLimit(Some(uid), s, "pdf", true) <==> l.pdfUploads.used < l.pdfUploads.limit
    ensures CheckUploadLimit(Some(uid), s, "website", true) <==> l.websiteUploads.used < l.websiteUploads.limit
  {
    assert QuotaKey("pdf") == "pdfUploads";
    assert QuotaKey("website") == "websiteUploads";
  }

  /** On a quota that reads as integers, the check is exactly `used < limit`. */
  lemma CheckOnQuota(uid: string, s: Store, kind: string, q: Quota)
    requires uid in s && ReadQuota(Lookup(s[uid], ["limits", QuotaKey(kind)])) == Some(q)
    ensures CheckUploadLimit(Some(uid), s, kind, true) <==> q.used < q.limit
  {
  }

  /** The field path `incrementUploadCount` writes. */
  function CountPath(kind: string): seq<string> {
    ["limits", QuotaKey(kind), "used"]
  }

  /**
   * `incrementUploadCount(type)`: adds one to `limits.<type>Uploads.used` with
   * no limit check. Nobody signed in, a missing account (the update throws)
   * or a failed write (the error is swallowed) leave the store unchanged.
   */
  function IncrementUploadCount(user: Option<string>, s: Store, kind: string, writeOk: bool): (r: Store)
    ensures user.None? || !writeOk || user.value !in s ==> r == s
    ensures r.Keys == s.Keys && forall k :: k in s && (user.None? || k != user.value) ==> r[k] == s[k]
    ensures user.Some? && writeOk && user.value in s ==>
      Lookup(r[user.value], CountPath(kind)) == Some(Increment(Lookup(s[user.value], CountPath(kind)), 1))
  {
    match user
    case None => s
    case Some(uid) =>
      match UpdateField(s, uid, CountPath(kind), Increment(if uid in s then Lookup(s[uid], CountPath(kind)) else None, 1))
      case Success(s') => if writeOk then s' else s
      case Failure(_) => s
  }

  /** The counter changes nothing but the kind's `used` field. */
  lemma IncrementUploadCountFrame(uid: string, s: Store, kind: string, q: seq<string>)
    requires uid in s && Diverge(CountPath(kind), q)
    ensures Lookup(IncrementUploadCount(Some(uid), s, kind, true)[uid], q) == Lookup(s[uid], q)
  {
    SetAtFrame(s[uid], CountPath(kind), q, Increment(Lookup(s[uid], CountPath(kind)), 1));
  }

  /** With no guard, a counter already at its limit goes past it. */
  lemma IncrementPassesLimit(uid: string, s: Store, kind: string, q: Quota)
    requires uid in s && ReadQuota(Lookup(s[uid], ["limits", QuotaKey(kind)])) == Some(q) && q.used == q.limit
    ensures ReadQuota(Lookup(IncrementUploadCount(Some(uid), s, kind, true)[uid], ["limits", QuotaKey(kind)])) == Some(Quota(q.limit + 1, q.limit))
  {
    IncrementAddsOne(uid, s, kind, q);
  }

  /** On an account whose quota reads as integers, the counter adds one to `used` and keeps the limit. */
  lemma IncrementAddsOne(uid: string, s: Store, kind: string, q: Quota)
    requires uid in s && ReadQuota(Lookup(s[uid], ["limits", QuotaKey(kind)])) == Some(q)
    ensures ReadQuota(Lookup(IncrementUploadCount(Some(uid), s, kind, true)[uid], ["limits", QuotaKey(kind)])) == Some(Quota(q.used + 1, q.limit))
  {
    var d := s[uid];
    var f := Lookup(d, ["limits", QuotaKey(kind)]).value.fields;
    UsageTransaction.LookupExtend(d, ["limits", QuotaKey(kind)], "used", f);
    assert ["limits", QuotaKey(kind)] + ["used"] == CountPath(kind);
    SetAtParent(d, ["limits", QuotaKey(kind)], "used", Increment(Lookup(d, CountPath(kind)), 1), f);
  }

  /**
   * Two uploads racing on one remaining slot: both checks read the same
   * document and pass, then both increments land, ending one past the limit.
   * The transactional `updateUsage` run in the same order refuses the second.
   */
  lemma RacingUploadsOverrun(uid: string, s: Store, q: Quota)
    requires uid in s && ReadQuota(Lookup(s[uid], ["limits", "pdfUploads"])) == Some(q)
    requires 0 <= q.used && q.used + 1 == q.limit
    ensures CheckUploadLimit(Some(uid), s, "pdf", true)
    ensures var s2 := IncrementUploadCount(Some(uid), IncrementUploadCount(Some(uid), s, "pdf", true), "pdf", true);
      ReadQuota(Lookup(s2[uid], ["limits", "pdfUploads"])) == Some(Quota(q.limit + 1, q.limit))
    ensures var t := UsageTransaction.UpdateUsage(s, uid, "pdfUploads");
      t.Success? && UsageTransaction.UpdateUsage(t.value, uid, "pdfUploads").Failure?
  {
    assert QuotaKey("pdf") == "pdfUploads";
    CheckOnQuota(uid, s, "pdf", q);
    var s1 := IncrementUploadCount(Some(uid), s, "pdf", true);
    IncrementAddsOne(uid, s, "pdf", q);
    IncrementPassesLimit(uid, s1, "pdf", Quota(q.limit, q.limit));
    TransactionRefusesSecond(uid, s, q);
  }

  /** The transactional counter on the same last slot: the first passes, the second is refused. */
  lemma TransactionRefusesSecond(uid: string, s: Store, q: Quota)
    requires uid in s && ReadQuota(Lookup(s[uid], ["limits", "pdfUploads"])) == Some(q)
    requires 0 <= q.used && q.used + 1 == q.limit
    ensures var t := UsageTransaction.UpdateUsage(s, uid, "pdfUploads");
      t.Success? && UsageTransaction.UpdateUsage(t.value, uid, "pdfUploads").Failure?
  {
    UsageTransaction.UpdateUsageKeepsQuota(s, uid, "pdfUploads");
    UsageTransaction.UpdateUsageKeepsQuota(UsageTransaction.UpdateUsage(s, uid, "pdfUploads").value, uid, "pdfUploads");
  }

  /** `checkGenerationLimit(docId)`: a stub that allows every generation. */
  function CheckGenerationLimit(docId: string): (r: bool)
    ensures r
  {
    true
  }

  /** `incrementUsage(docId, type)`: a stub that records nothing. */
  function IncrementUsage(s: Store, docId: string, kind: string): (r: Store)
    ensures r == s
  {
    s
  }
}
