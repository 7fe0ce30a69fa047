/**
 * The plan tiers and the three shapes an account document takes in the
 * store. The code never settled on one shape, so each is its own record
 * with its own encoding into a document:
 *  - `FlatAccount`: top-level `pdfUploadsUsed`/`pdfUploadsLimit`/... fields,
 *    written over the REST interface by the payment worker (api/server.js);
 *  - `Limits`: a nested `limits` map of `{used, limit}` quotas, written by the
 *    browser client and the admin servers;
 *  - `Usage`: a nested `usage` map holding the quotas and the generation
 *    allowance, written by the account-creation trigger.
 */
module Accounts {
  import opened Wrappers
  import opened Docs

  datatype Plan = Free | Pro

  /** The plan named by a `plan` string: only `'pro'` is the paid tier. */
  function PlanOf(name: string): Plan {
    if name == "pro" then Pro else Free
  }

  /** PDF uploads per period. */
  function PdfLimit(p: Plan): int {
    match p
    case Free => 2
    case Pro => 80
  }

  /** Website-link uploads per period. */
  function WebsiteLimit(p: Plan): int {
    match p
    case Free => 1
    case Pro => 50
  }

  /** Generations allowed per uploaded document and platform. */
  function GenerationsPerUpload(p: Plan): int {
    match p
    case Free => 1
    case Pro => 3
  }

  datatype Quota = Quota(used: int, limit: int)

  function QuotaValue(q: Quota): Value {
    Obj(map["used" := Int(q.used), "limit" := Int(q.limit)])
  }

  /** A `{used, limit}` map whose two fields are integers. */
  function ReadQuota(v: Option<Value>): (r: Option<Quota>)
    ensures r.Some? ==> v.Some? && v.value.Obj?
  {
    match v
    case Some(Obj(f)) =>
      if "used" in f && "limit" in f && f["used"].Int? && f["limit"].Int?
      then Some(Quota(f["used"].i, f["limit"].i))
      else None
    case _ => None
  }

  lemma ReadQuotaValue(q: Quota)
    ensures ReadQuota(Some(QuotaValue(q))) == Some(q)
  {
  }

  /** The nested `limits` map. */
  datatype Limits = Limits(pdfUploads: Quota, websiteUploads: Quota)

  function LimitsValue(l: Limits): Value {
    Obj(map["pdfUploads" := QuotaValue(l.pdfUploads), "websiteUploads" := QuotaValue(l.websiteUploads)])
  }

  /** The `limits` map of a document, when it has both quotas in integer form. */
  function ReadLimits(d: Doc): Option<Limits> {
    var pdf := ReadQuota(Lookup(d, ["limits", "pdfUploads"]));
    var web := ReadQuota(Lookup(d, ["limits", "websiteUploads"]));
    if pdf.Some? && web.Some? then Some(Limits(pdf.value, web.value)) else None
  }

  /** Decoding an encoded `limits` map gives it back, whatever else the document holds. */
  lemma ReadLimitsValue(d: Doc, l: Limits)
    requires "limits" in d && d["limits"] == LimitsValue(l)
    ensures ReadLimits(d) == Some(l)
  {
    ReadQuotaValue(l.pdfUploads);
    ReadQuotaValue(l.websiteUploads);
  }

  /** Merging a quota into any prior value gives that quota's counters, whatever else the prior map held. */
  lemma ReadQuotaMerged(prev: Option<Value>, q: Quota)
    ensures ReadQuota(Some(MergeValue(prev, QuotaValue(q)))) == Some(q)
  {
  }

  /** A deep merge that lists a whole `limits` map leaves exactly those counters readable. */
  lemma ReadLimitsMerged(prev: Doc, upd: Doc, l: Limits)
    requires "limits" in upd && upd["limits"] == LimitsValue(l)
    ensures ReadLimits(MergeFields(prev, upd)) == Some(l)
  {
    MergedQuotaAt(prev, upd, LimitsValue(l).fields, "pdfUploads", l.pdfUploads);
    MergedQuotaAt(prev, upd, LimitsValue(l).fields, "websiteUploads", l.websiteUploads);
  }

  /** One quota inside a merged `limits` map reads back as written. */
  lemma MergedQuotaAt(prev: Doc, upd: Doc, u: map<string, Value>, key: string, q: Quota)
    requires "limits" in upd && upd["limits"] == Obj(u)
    requires key in u && u[key] == QuotaValue(q)
    ensures ReadQuota(Lookup(MergeFields(prev, upd), ["limits", key])) == Some(q)
  {
    var pl := match Field(prev, "limits") case Some(Obj(p)) => p case _ => map[];
    var lv := MergeValue(Field(prev, "limits"), Obj(u));
    assert MergeFields(prev, upd)["limits"] == lv;
    assert lv.fields == MergeFields(pl, u);
    assert lv.fields[key] == MergeValue(Field(pl, key), QuotaValue(q));
    ReadQuotaMerged(Field(pl, key), q);
  }

  /** The limits a plan resets to: nothing used, the plan's allowances. */
  function DefaultLimits(p: Plan): (l: Limits)
    ensures l.pdfUploads == Quota(0, PdfLimit(p))
    ensures l.websiteUploads == Quota(0, WebsiteLimit(p))
  {
    Limits(Quota(0, PdfLimit(p)), Quota(0, WebsiteLimit(p)))
  }

  /** The nested `usage` map. */
  datatype Usage = Usage(
    pdfUploads: Quota,
    websiteUploads: Quota,
    generationsPerUpload: int,
    generationsUsed: map<string, Value>)

  function UsageValue(u: Usage): Value {
    Obj(map[
      "pdfUploads" := QuotaValue(u.pdfUploads),
      "websiteUploads" := QuotaValue(u.websiteUploads),
      "generationsPerUpload" := Int(u.generationsPerUpload),
      "generationsUsed" := Obj(u.generationsUsed)])
  }

  /** The `usage` map of a document, when every part has the expected type. */
  function ReadUsage(d: Doc): Option<Usage> {
    var pdf := ReadQuota(Lookup(d, ["usage", "pdfUploads"]));
    var web := ReadQuota(Lookup(d, ["usage", "websiteUploads"]));
    var gens := Lookup(d, ["usage", "generationsPerUpload"]);
    var used := Lookup(d, ["usage", "generationsUsed"]);
    if pdf.Some? && web.Some? && gens.Some? && gens.value.Int? && used.Some? && used.value.Obj?
    then Some(Usage(pdf.value, web.value, gens.value.i, used.value.fields))
    else None
  }

  lemma ReadUsageValue(d: Doc, u: Usage)
    requires "usage" in d && d["usage"] == UsageValue(u)
    ensures ReadUsage(d) == Some(u)
  {
    ReadQuotaValue(u.pdfUploads);
    ReadQuotaValue(u.websiteUploads);
  }

  /** The top-level fields the REST worker writes. `None` references are stored as null. */
  datatype FlatAccount = FlatAccount(
    subscriptionStatus: string,
    subscriptionId: Option<string>,
    priceId: Option<string>,
    customerId: Option<string>,
    plan: string,
    subscription: string,
    pdfUploadsUsed: int,
    pdfUploadsLimit: int,
    websiteUploadsUsed: int,
    websiteUploadsLimit: int,
    generationsPerUpload: int)

  function RefValue(r: Option<string>): Value {
    match r
    case Some(s) => Str(s)
    case None => Null
  }

  function ReadRef(v: Option<Value>): Option<Option<string>> {
    match v
    case Some(Str(s)) => Some(Some(s))
    case Some(Null) => Some(None)
    case _ => None
  }

  /** The document holding exactly the flat fields. */
  function FlatDoc(f: FlatAccount): Doc {
    map[
      "subscriptionStatus" := Str(f.subscriptionStatus),
      "subscriptionId" := RefValue(f.subscriptionId),
      "priceId" := RefValue(f.priceId),
      "customerId" := RefValue(f.customerId),
      "plan" := Str(f.plan),
      "subscription" := Str(f.subscription),
      "pdfUploadsUsed" := Int(f.pdfUploadsUsed),
      "pdfUploadsLimit" := Int(f.pdfUploadsLimit),
      "websiteUploadsUsed" := Int(f.websiteUploadsUsed),
      "websiteUploadsLimit" := Int(f.websiteUploadsLimit),
      "generationsPerUpload" := Int(f.generationsPerUpload)]
  }

  function ReadStr(d: Doc, k: string): Option<string> {
    if k in d && d[k].Str? then Some(d[k].s) else None
  }

  function ReadInt(d: Doc, k: string): Option<int> {
    if k in d && d[k].Int? then Some(d[k].i) else None
  }

  /** The flat fields of a document, when all of them are present with their types. */
  function ReadFlat(d: Doc): Option<FlatAccount> {
    var status := ReadStr(d, "subscriptionStatus");
    var sid := ReadRef(Field(d, "subscriptionId"));
    var pid := ReadRef(Field(d, "priceId"));
    var cid := ReadRef(Field(d, "customerId"));
    var plan := ReadStr(d, "plan");
    var sub := ReadStr(d, "subscription");
    var pu := ReadInt(d, "pdfUploadsUsed");
    var pl := ReadInt(d, "pdfUploadsLimit");
    var wu := ReadInt(d, "websiteUploadsUsed");
    var wl := ReadInt(d, "websiteUploadsLimit");
    var g := ReadInt(d, "generationsPerUpload");
    if status.Some? && sid.Some? && pid.Some? && cid.Some? && plan.Some? && sub.Some?
       && pu.Some? && pl.Some? && wu.Some? && wl.Some? && g.Some?
    then Some(FlatAccount(status.value, sid.value, pid.value, cid.value, plan.value, sub.value,
                          pu.value, pl.value, wu.value, wl.value, g.value))
    else None
  }

  /** Decoding the flat encoding gives the record back. */
  lemma ReadFlatDoc(f: FlatAccount)
    ensures ReadFlat(FlatDoc(f)) == Some(f)
  {
  }
}
