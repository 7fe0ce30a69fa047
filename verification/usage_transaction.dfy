/**
 * `updateUsage(userId, type)` of src/firebase/firebase.js: a store
 * transaction that reads the account's `limits[type]` quota and either
 * refuses or adds one to `limits[type].used`. The transaction is one atomic
 * step from a store to a store.
 *
 * As written the function never gets that far: `db` is the modular
 * instance `getFirestore` returns, which has no `collection` method, and
 * `db.FieldValue` is undefined on any instance (`UpdateUsageAsWritten`).
 * `UpdateUsage` is the transaction with those two SDK calls working, which
 * is what the rest of this module studies.
 */
module UsageTransaction {
  import opened Wrappers
  import opened Docs
  import opened Accounts

  const MissingDocument := "User document does not exist!"
  const LimitReached := "Usage limit reached"

  /** The quota assumed for a type whose entry is missing: 2 for PDFs, 1 otherwise. */
  function DefaultQuota(kind: string): (q: Quota)
    ensures q.used == 0 && q.limit >= 1
    ensures kind == "pdfUploads" <==> q.limit == 2
  {
    Quota(0, if kind == "pdfUploads" then 2 else 1)
  }

  /** The field path the transaction increments. */
  function UsedPath(kind: string): seq<string> {
    ["limits", kind, "used"]
  }

  /** `userData.limits || {}`. */
  function LimitsOrEmpty(d: Doc): Value {
    if Truthy(Field(d, "limits")) then d["limits"] else Obj(map[])
  }

  /** `limits[type]`, `None` when absent (a non-map `limits` has no entries). */
  function Entry(d: Doc, kind: string): Option<Value> {
    match LimitsOrEmpty(d)
    case Obj(f) => Field(f, kind)
    case _ => None
  }

  /** `limits[type] || { used: 0, limit: ... }`. */
  function CurrentUsage(d: Doc, kind: string): Value {
    if Truthy(Entry(d, kind)) then Entry(d, kind).value else QuotaValue(DefaultQuota(kind))
  }

  /** `currentUsage.used >= currentUsage.limit`, with JavaScript's NaN rules. */
  predicate AtLimit(d: Doc, kind: string) {
    var cur := CurrentUsage(d, kind);
    JsAtLeast(LookupIn(Some(cur), ["used"]), LookupIn(Some(cur), ["limit"]))
  }

  /** The transaction as written: check the (possibly defaulted) quota, then increment `used` only. */
  function UpdateUsage(s: Store, userId: string, kind: string): (r: Result<Store, string>)
    ensures userId !in s ==> r == Failure(MissingDocument)
    ensures userId in s && AtLimit(s[userId], kind) ==> r == Failure(LimitReached)
    ensures r.Success? ==> userId in s && !AtLimit(s[userId], kind)
    ensures r.Success? ==> r.value.Keys == s.Keys && forall k :: k in s && k != userId ==> r.value[k] == s[k]
    ensures r.Success? ==> Lookup(r.value[userId], UsedPath(kind)) == Some(Increment(Lookup(s[userId], UsedPath(kind)), 1))
  {
    if userId !in s then Failure(MissingDocument)
    else if AtLimit(s[userId], kind) then Failure(LimitReached)
    else
      var d := s[userId];
      SetAtThenLookup(d, UsedPath(kind), Increment(Lookup(d, UsedPath(kind)), 1));
      Success(s[userId := SetAt(d, UsedPath(kind), Increment(Lookup(d, UsedPath(kind)), 1))])
  }

  /**
   * How `db` is bound: the modular instance of `getFirestore(app)`, or a
   * namespaced instance with or without a `FieldValue` property.
   */
  datatype Binding = Modular | Namespaced(hasFieldValue: bool)

  /** The binding of src/firebase/firebase.js:17. */
  const FirebaseBinding := Modular

  const CollectionNotAFunction := "db.collection is not a function"
  const FieldValueUndefined := "Cannot read properties of undefined (reading 'increment')"

  /**
   * `updateUsage` for a binding of `db`: on the modular instance the first
   * line throws; on a namespaced one the transaction runs its checks, and
   * then `db.FieldValue.increment` throws unless `FieldValue` exists. A
   * failed transaction writes nothing.
   */
  function UpdateUsageAsWritten(b: Binding, s: Store, userId: string, kind: string): (r: Result<Store, string>)
    ensures b == Modular ==> r == Failure(CollectionNotAFunction)
    ensures b == Namespaced(false) && userId in s && !AtLimit(s[userId], kind) ==> r == Failure(FieldValueUndefined)
    ensures b.Namespaced? && (userId !in s || AtLimit(s[userId], kind)) ==> r == UpdateUsage(s, userId, kind)
    ensures r.Success? <==> b == Namespaced(true) && UpdateUsage(s, userId, kind).Success?
    ensures r.Success? ==> r == UpdateUsage(s, userId, kind)
  {
    match b
    case Modular => Failure(CollectionNotAFunction)
    case Namespaced(hasFieldValue) =>
      match UpdateUsage(s, userId, kind)
      case Failure(e) => Failure(e)
      case Success(t) => if hasFieldValue then Success(t) else Failure(FieldValueUndefined)
  }

  /** As written, every call fails and the store is never written, whatever its contents. */
  lemma AsWrittenNeverWrites(s: Store, userId: string, kind: string)
    ensures UpdateUsageAsWritten(FirebaseBinding, s, userId, kind) == Failure(CollectionNotAFunction)
    ensures UpdateUsageAsWritten(Namespaced(false), s, userId, kind).Failure?
  {
  }

  /** Only `limits.<type>.used` changes: every field path disjoint from it reads as before. */
  lemma UpdateUsageFrame(s: Store, userId: string, kind: string, q: seq<string>)
    requires UpdateUsage(s, userId, kind).Success?
    requires Diverge(UsedPath(kind), q)
    ensures Lookup(UpdateUsage(s, userId, kind).value[userId], q) == Lookup(s[userId], q)
  {
    var d := s[userId];
    SetAtFrame(d, UsedPath(kind), q, Increment(Lookup(d, UsedPath(kind)), 1));
  }

  /** The quota entry of `type` is present, well typed and within its limit. */
  predicate WithinQuota(d: Doc, kind: string) {
    var q := ReadQuota(Lookup(d, ["limits", kind]));
    q.Some? && 0 <= q.value.used <= q.value.limit
  }

  /**
   * On a well-formed entry with `used <= limit`, a successful transaction
   * adds exactly one to `used`, keeps `limit`, and stays within the limit.
   */
  lemma UpdateUsageKeepsQuota(s: Store, userId: string, kind: string)
    requires userId in s && WithinQuota(s[userId], kind)
    ensures var r := UpdateUsage(s, userId, kind);
      var q := ReadQuota(Lookup(s[userId], ["limits", kind])).value;
      && (r.Failure? <==> q.used == q.limit)
      && (r.Success? ==> ReadQuota(Lookup(r.value[userId], ["limits", kind])) == Some(Quota(q.used + 1, q.limit)))
      && (r.Success? ==> WithinQuota(r.value[userId], kind))
  {
    var d := s[userId];
    var f := Lookup(d, ["limits", kind]).value.fields;
    var v := Increment(Lookup(d, UsedPath(kind)), 1);
    assert Lookup(d, UsedPath(kind)) == Some(f["used"]) by {
      LookupExtend(d, ["limits", kind], "used", f);
    }
    assert ["limits", kind] + ["used"] == UsedPath(kind);
    SetAtParent(d, ["limits", kind], "used", v, f);
  }

  /** Reading one field below a map reached by `p`. */
  lemma {:induction false} LookupExtend(d: Doc, p: seq<string>, k: string, f: map<string, Value>)
    requires Lookup(d, p) == Some(Obj(f))
    ensures Lookup(d, p + [k]) == Field(f, k)
    decreases |p|
  {
    if |p| > 1 {
      assert (p + [k])[1..] == p[1..] + [k];
      LookupExtend(d[p[0]].fields, p[1..], k, f);
    }
  }

  /** `n` calls in a row; a refused call leaves the store as it was. Returns the store and the number of calls that went through. */
  function RepeatUpdates(s: Store, userId: string, kind: string, n: nat): (r: (Store, nat))
    ensures r.1 <= n
  {
    if n == 0 then (s, 0)
    else
      var prev := RepeatUpdates(s, userId, kind, n - 1);
      match UpdateUsage(prev.0, userId, kind)
      case Success(s') => (s', prev.1 + 1)
      case Failure(_) => prev
  }

  /** Starting within quota, any number of calls keeps the entry within quota. */
  lemma {:induction false} RepeatUpdatesKeepsQuota(s: Store, userId: string, kind: string, n: nat)
    requires userId in s && WithinQuota(s[userId], kind)
    ensures userId in RepeatUpdates(s, userId, kind, n).0
    ensures WithinQuota(RepeatUpdates(s, userId, kind, n).0[userId], kind)
  {
    if n > 0 {
      RepeatUpdatesKeepsQuota(s, userId, kind, n - 1);
      UpdateUsageKeepsQuota(RepeatUpdates(s, userId, kind, n - 1).0, userId, kind);
    }
  }

  /**
   * As written, a missing entry is checked against the default quota but the
   * write creates only `used`; from then on the entry has no `limit`, the
   * comparison is with `undefined`, and no call is ever refused.
   */
  lemma {:induction false} MissingEntryNeverRefused(s: Store, userId: string, kind: string, n: nat)
    requires userId in s && Entry(s[userId], kind) == None
    ensures RepeatUpdates(s, userId, kind, n).1 == n
    ensures n > 0 ==> Lookup(RepeatUpdates(s, userId, kind, n).0[userId], ["limits", kind]) == Some(Obj(map["used" := Int(n)]))
  {
    if n > 0 {
      MissingEntryNeverRefused(s, userId, kind, n - 1);
      LimitlessEntryStep(RepeatUpdates(s, userId, kind, n - 1).0, userId, kind, n - 1);
    }
  }

  /** One call on an entry that lacks a limit (missing, or holding only `used`) passes and leaves only `used`. */
  lemma LimitlessEntryStep(t: Store, userId: string, kind: string, used: nat)
    requires userId in t
    requires used == 0 ==> Entry(t[userId], kind) == None
    requires used > 0 ==> Lookup(t[userId], ["limits", kind]) == Some(Obj(map["used" := Int(used)]))
    ensures UpdateUsage(t, userId, kind).Success?
    ensures Lookup(UpdateUsage(t, userId, kind).value[userId], ["limits", kind]) == Some(Obj(map["used" := Int(used + 1)]))
  {
    if used == 0 {
      MissingEntryFirstWrite(t[userId], kind);
    } else {
      LimitlessEntryNextWrite(t[userId], kind, used);
    }
  }

  /** On an entry holding only `used`, a call passes and the entry then holds only the incremented `used`. */
  lemma LimitlessEntryNextWrite(d: Doc, kind: string, used: nat)
    requires used > 0 && Lookup(d, ["limits", kind]) == Some(Obj(map["used" := Int(used)]))
    ensures !AtLimit(d, kind)
    ensures Lookup(SetAt(d, UsedPath(kind), Increment(Lookup(d, UsedPath(kind)), 1)), ["limits", kind])
      == Some(Obj(map["used" := Int(used + 1)]))
  {
    var f := map["used" := Int(used)];
    LookupExtend(d, ["limits", kind], "used", f);
    assert ["limits", kind] + ["used"] == UsedPath(kind);
    SetAtParent(d, ["limits", kind], "used", Int(used + 1), f);
    assert f["used" := Int(used + 1)] == map["used" := Int(used + 1)];
  }

  /** The first call on a missing entry passes and creates `{used: 1}` without a limit. */
  lemma MissingEntryFirstWrite(d: Doc, kind: string)
    requires Entry(d, kind) == None
    ensures !AtLimit(d, kind)
    ensures Lookup(SetAt(d, UsedPath(kind), Increment(Lookup(d, UsedPath(kind)), 1)), ["limits", kind]) == Some(Obj(map["used" := Int(1)]))
  {
    var p := UsedPath(kind);
    assert Lookup(d, p) == None by {
      if "limits" in d && d["limits"].Obj? {
        assert kind !in d["limits"].fields;
      }
    }
    ReadQuotaValue(DefaultQuota(kind));
    SetAtThenLookup(d, p, Int(1));
    var sub := if "limits" in d && d["limits"].Obj? then d["limits"].fields else map[];
    assert kind !in sub;
    assert p[1..] == [kind, "used"] && p[1..][1..] == ["used"];
    assert SetAt(sub, p[1..], Int(1)) == sub[kind := Obj(map["used" := Int(1)])];
    assert SetAt(d, p, Int(1)) == d["limits" := Obj(sub[kind := Obj(map["used" := Int(1)])])];
  }

  /** Where `limits` is a map, `limits[type]` is the value at the path `limits.<type>`. */
  lemma EntryIsLookup(d: Doc, kind: string)
    requires "limits" in d && d["limits"].Obj?
    ensures Entry(d, kind) == Lookup(d, ["limits", kind])
  {
  }

  /** Concretely: an account with an empty `limits` map gets three PDF uploads past a limit of two. */
  lemma ThreeUploadsPastDefault(userId: string)
    ensures var s := map[userId := map["limits" := Obj(map[])]];
      && RepeatUpdates(s, userId, "pdfUploads", 3).1 == 3
      && Lookup(RepeatUpdates(s, userId, "pdfUploads", 3).0[userId], UsedPath("pdfUploads")) == Some(Int(3))
      && 3 > DefaultQuota("pdfUploads").limit
  {
    var s := map[userId := map["limits" := Obj(map[])]];
    MissingEntryNeverRefused(s, userId, "pdfUploads", 3);
    var d := RepeatUpdates(s, userId, "pdfUploads", 3).0[userId];
    LookupExtend(d, ["limits", "pdfUploads"], "used", map["used" := Int(3)]);
    assert ["limits", "pdfUploads"] + ["used"] == UsedPath("pdfUploads");
  }

  /**
   * The evidently intended transaction: a missing entry is written as the
   * whole default quota with one use recorded, so its limit is kept.
   */
  function UpdateUsageCorrected(s: Store, userId: string, kind: string): (r: Result<Store, string>)
    ensures userId !in s ==> r == Failure(MissingDocument)
    ensures r.Success? ==> r.value.Keys == s.Keys && forall k :: k in s && k != userId ==> r.value[k] == s[k]
    ensures userId in s && Truthy(Entry(s[userId], kind)) ==> r == UpdateUsage(s, userId, kind)
  {
    if userId !in s then Failure(MissingDocument)
    else if Truthy(Entry(s[userId], kind)) then UpdateUsage(s, userId, kind)
    else
      var q := DefaultQuota(kind);
      Success(s[userId := SetAt(s[userId], ["limits", kind], QuotaValue(Quota(q.used + 1, q.limit)))])
  }

  function RepeatCorrected(s: Store, userId: string, kind: string, n: nat): (r: (Store, nat))
    ensures r.1 <= n
  {
    if n == 0 then (s, 0)
    else
      var prev := RepeatCorrected(s, userId, kind, n - 1);
      match UpdateUsageCorrected(prev.0, userId, kind)
      case Success(s') => (s', prev.1 + 1)
      case Failure(_) => prev
  }

  /** A missing entry, corrected: the first call records the full default quota, within its limit. */
  lemma CorrectedMissingEntry(s: Store, userId: string, kind: string)
    requires userId in s && !Truthy(Entry(s[userId], kind))
    ensures UpdateUsageCorrected(s, userId, kind).Success?
    ensures var d := UpdateUsageCorrected(s, userId, kind).value[userId];
      ReadQuota(Lookup(d, ["limits", kind])) == Some(Quota(1, DefaultQuota(kind).limit)) && WithinQuota(d, kind)
  {
    var q := DefaultQuota(kind);
    SetAtThenLookup(s[userId], ["limits", kind], QuotaValue(Quota(q.used + 1, q.limit)));
    ReadQuotaValue(Quota(q.used + 1, q.limit));
  }

  /** Corrected, every call from a missing or in-quota entry leaves the entry in quota. */
  lemma CorrectedKeepsQuota(s: Store, userId: string, kind: string)
    requires userId in s && (Entry(s[userId], kind) == None || WithinQuota(s[userId], kind))
    ensures UpdateUsageCorrected(s, userId, kind).Success? ==> WithinQuota(UpdateUsageCorrected(s, userId, kind).value[userId], kind)
    ensures UpdateUsageCorrected(s, userId, kind).Failure? ==> WithinQuota(s[userId], kind)
  {
    if WithinQuota(s[userId], kind) {
      EntryOfQuota(s[userId], kind);
      UpdateUsageKeepsQuota(s, userId, kind);
    } else {
      CorrectedMissingEntry(s, userId, kind);
    }
  }

  /** A well-formed quota entry is a map, hence truthy. */
  lemma EntryOfQuota(d: Doc, kind: string)
    requires WithinQuota(d, kind)
    ensures Truthy(Entry(d, kind)) && Entry(d, kind) == Lookup(d, ["limits", kind])
  {
    EntryIsLookup(d, kind);
  }

  /** Corrected, the bound holds across any number of calls, even from a missing entry. */
  lemma {:induction false} RepeatCorrectedKeepsQuota(s: Store, userId: string, kind: string, n: nat)
    requires userId in s && (Entry(s[userId], kind) == None || WithinQuota(s[userId], kind))
    ensures userId in RepeatCorrected(s, userId, kind, n).0
    ensures var d := RepeatCorrected(s, userId, kind, n).0[userId];
      d == s[userId] || WithinQuota(d, kind)
  {
    if n > 0 {
      RepeatCorrectedKeepsQuota(s, userId, kind, n - 1);
      var prev := RepeatCorrected(s, userId, kind, n - 1).0;
      CorrectedKeepsQuota(prev, userId, kind);
    }
  }

  /** Corrected, the three-upload run from an empty `limits` map is refused at the third call. */
  lemma CorrectedStopsAtDefault(userId: string)
    ensures var s := map[userId := map["limits" := Obj(map[])]];
      RepeatCorrected(s, userId, "pdfUploads", 3).1 == 2
  {
    var s := map[userId := map["limits" := Obj(map[])]];
    CorrectedMissingEntry(s, userId, "pdfUploads");
    assert RepeatCorrected(s, userId, "pdfUploads", 0) == (s, 0);
    var s1 := RepeatCorrected(s, userId, "pdfUploads", 1).0;
    assert s1 == UpdateUsageCorrected(s, userId, "pdfUploads").value;
    EntryOfQuota(s1[userId], "pdfUploads");
    UpdateUsageKeepsQuota(s1, userId, "pdfUploads");
    var s2 := RepeatCorrected(s, userId, "pdfUploads", 2).0;
    assert s2 == UpdateUsage(s1, userId, "pdfUploads").value;
    EntryOfQuota(s2[userId], "pdfUploads");
    UpdateUsageKeepsQuota(s2, userId, "pdfUploads");
    assert UpdateUsageCorrected(s2, userId, "pdfUploads").Failure?;
  }
}
