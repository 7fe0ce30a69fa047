/**
 * `onUserCreated` of server/triggers/auth.js: when an account is created the
 * server writes a full default document, keeping its quotas under `usage`
 * rather than `limits`. `now` stands for the server timestamp and `writeOk`
 * for the success of the write, whose failure is rethrown.
 */
module AuthTrigger {
  import opened Wrappers
  import opened Docs
  import opened Accounts
  import SubscriptionContext

  /** The free-tier `usage` map: 0/2 document uploads, 0/1 site uploads, one generation each, none used. */
  function FreeUsage(): (u: Usage)
    ensures u.pdfUploads == DefaultLimits(Free).pdfUploads && u.websiteUploads == DefaultLimits(Free).websiteUploads
    ensures u.generationsPerUpload == GenerationsPerUpload(Free) && u.generationsUsed == map[]
  {
    Usage(Quota(0, 2), Quota(0, 1), 1, map[])
  }

  /** The document the trigger writes for a new account. */
  function NewAccount(email: Value, now: int): (d: Doc)
    ensures d.Keys == {"email", "subscription", "createdAt", "usage", "stripeCustomerId", "stripeSubscriptionId"}
    ensures Field(d, "subscription") == Some(Str("free")) && Field(d, "email") == Some(email)
    ensures Field(d, "stripeCustomerId") == Some(Null) && Field(d, "stripeSubscriptionId") == Some(Null)
    ensures ReadUsage(d) == Some(FreeUsage())
    ensures ReadLimits(d).None?
  {
    var d := map[
      "email" := email,
      "subscription" := Str("free"),
      "createdAt" := Time(now),
      "usage" := UsageValue(FreeUsage()),
      "stripeCustomerId" := Null,
      "stripeSubscriptionId" := Null];
    ReadUsageValue(d, FreeUsage());
    d
  }

  /** The trigger: a full `set` of the new document, or the rethrown write error. */
  function OnUserCreated(s: Store, uid: string, email: Value, now: int, writeOk: bool): (r: Result<Store, StoreError>)
    ensures r.Failure? <==> !writeOk
    ensures r.Success? ==> uid in r.value && r.value[uid] == NewAccount(email, now)
    ensures r.Success? ==> forall k :: k in s && k != uid ==> k in r.value && r.value[k] == s[k]
  {
    if !writeOk then Failure(WriteFailed) else Success(SetDoc(s, uid, NewAccount(email, now)))
  }

  /** The write replaces any existing document: the prior content of the account leaves no trace. */
  lemma OnUserCreatedForgetsPrior(s: Store, uid: string, prior: Doc, email: Value, now: int)
    ensures OnUserCreated(s[uid := prior], uid, email, now, true) == OnUserCreated(s - {uid}, uid, email, now, true)
  {
    var a := NewAccount(email, now);
    var m1 := s[uid := prior][uid := a];
    var m2 := (s - {uid})[uid := a];
    assert m1.Keys == m2.Keys;
    assert forall k :: k in m1 ==> m1[k] == m2[k];
    assert m1 == m2;
  }

  /**
   * The client upload check reads `limits`, which this document lacks: an
   * account in the trigger's shape is refused every upload until something
   * else writes `limits`.
   */
  lemma TriggerAccountRefusedUploads(s: Store, uid: string, email: Value, now: int, kind: string)
    ensures var r := OnUserCreated(s, uid, email, now, true);
      !SubscriptionContext.CheckUploadLimit(Some(uid), r.value, kind, true)
  {
  }
}
