/**
 * Documents of the account store as Firestore holds them: field maps whose
 * values may themselves be maps. The same values stand for the plain
 * JavaScript objects the client code reads (JSON bodies, React state).
 *
 * The store operations mirror the three ways the code writes:
 *  - `set` replaces the whole document;
 *  - `set(..., {merge: true})` deep-merges nested maps into the document,
 *    creating it when missing;
 *  - `update` requires the document to exist and replaces each listed
 *    top-level field; a dotted field path writes one nested field.
 */
module Docs {
  import opened Wrappers

  datatype Value =
    | Null
    | Str(s: string)
    | Int(i: int)
    | Bool(b: bool)
    /** A timestamp (client `new Date()` or a server timestamp), in milliseconds. */
    | Time(t: int)
    | Obj(fields: map<string, Value>)

  type Doc = map<string, Value>

  /** One collection: document id to document. */
  type Store = map<string, Doc>

  datatype StoreError = NotFound | WriteFailed

  /** The field `k` of `d`, or `None` for `undefined`. */
  function Field(d: Doc, k: string): Option<Value> {
    if k in d then Some(d[k]) else None
  }

  /** Optional chaining along a field path: `d?.p0?.p1...`. */
  function Lookup(d: Doc, path: seq<string>): Option<Value>
    decreases |path|
  {
    if |path| == 0 || path[0] !in d then None
    else if |path| == 1 then Some(d[path[0]])
    else match d[path[0]]
      case Obj(f) => Lookup(f, path[1..])
      case _ => None
  }

  /** `Lookup` starting from an optional value rather than a document. */
  function LookupIn(v: Option<Value>, path: seq<string>): Option<Value> {
    if |path| == 0 then v
    else match v
      case Some(Obj(f)) => Lookup(f, path)
      case _ => None
  }

  /** JavaScript truthiness of a possibly `undefined` value. */
  predicate Truthy(v: Option<Value>) {
    match v
    case None => false
    case Some(Null) => false
    case Some(Str(s)) => s != ""
    case Some(Int(i)) => i != 0
    case Some(Bool(b)) => b
    case Some(Time(_)) => true
    case Some(Obj(_)) => true
  }

  /** Nullish (`undefined` or `null`): what `??` replaces. */
  predicate Nullish(v: Option<Value>) {
    v.None? || v == Some(Null)
  }

  /**
   * The number a relational comparison sees: `None` is NaN. `undefined`,
   * objects and (not modelled) strings compare as NaN; `null` as 0.
   */
  function ToNumber(v: Option<Value>): Option<int> {
    match v
    case Some(Int(i)) => Some(i)
    case Some(Null) => Some(0)
    case Some(Bool(b)) => Some(if b then 1 else 0)
    case _ => None
  }

  /** JavaScript `a < b`: false whenever either side is NaN. */
  predicate JsLess(a: Option<Value>, b: Option<Value>) {
    ToNumber(a).Some? && ToNumber(b).Some? && ToNumber(a).value < ToNumber(b).value
  }

  /** JavaScript `a >= b`: also false whenever either side is NaN. */
  predicate JsAtLeast(a: Option<Value>, b: Option<Value>) {
    ToNumber(a).Some? && ToNumber(b).Some? && ToNumber(a).value >= ToNumber(b).value
  }

  /** With a NaN side, neither `a < b` nor `a >= b` holds. */
  lemma NaNComparesFalse(a: Option<Value>, b: Option<Value>)
    ensures ToNumber(a).None? || ToNumber(b).None? <==> !JsLess(a, b) && !JsAtLeast(a, b)
  {
  }

  /** `setDoc(ref, d)`: the document becomes exactly `d`. */
  function SetDoc(s: Store, id: string, d: Doc): (r: Store)
    ensures id in r && r[id] == d
    ensures forall k :: k in s && k != id ==> k in r && r[k] == s[k]
    ensures r.Keys == s.Keys + {id}
  {
    s[id := d]
  }

  /** The merged value of one field: maps merge key by key, anything else overwrites. */
  function MergeValue(prev: Option<Value>, upd: Value): (r: Value)
    ensures !upd.Obj? ==> r == upd
    ensures upd.Obj? ==> r.Obj?
    decreases upd, 1
  {
    match upd
    case Obj(u) =>
      (match prev
       case Some(Obj(p)) => Obj(MergeFields(p, u))
       case _ => upd)
    case _ => upd
  }

  /** Deep merge of `upd` into `prev`, as `set` with `{merge: true}` does. */
  function MergeFields(prev: map<string, Value>, upd: map<string, Value>): (r: map<string, Value>)
    ensures r.Keys == prev.Keys + upd.Keys
    ensures forall k :: k in prev && k !in upd ==> r[k] == prev[k]
    ensures forall k :: k in upd ==> r[k] == MergeValue(Field(prev, k), upd[k])
    decreases Obj(upd), 0
  {
    map k | k in prev.Keys + upd.Keys ::
      if k in upd then MergeValue(Field(prev, k), upd[k]) else prev[k]
  }

  /** `setDoc(ref, d, {merge: true})`. */
  function MergeDoc(s: Store, id: string, d: Doc): (r: Store)
    ensures id in r
    ensures forall k :: k in s && k != id ==> k in r && r[k] == s[k]
    ensures r.Keys == s.Keys + {id}
  {
    s[id := MergeFields(if id in s then s[id] else map[], d)]
  }

  /** `updateDoc(ref, fields)`: fails on a missing document, else replaces the listed fields. */
  function UpdateDoc(s: Store, id: string, fields: Doc): (r: Result<Store, StoreError>)
    ensures r.Failure? <==> id !in s
    ensures r.Success? ==> r.value == s[id := s[id] + fields]
  {
    if id !in s then Failure(NotFound) else Success(s[id := s[id] + fields])
  }

  /** `updateDoc(ref, {[dotted path]: v})`: fails on a missing document, else writes `v` at the path. */
  function UpdateField(s: Store, id: string, path: seq<string>, v: Value): (r: Result<Store, StoreError>)
    requires |path| >= 1
    ensures r.Failure? <==> id !in s
    ensures r.Success? ==> r.value.Keys == s.Keys && forall k :: k in s && k != id ==> r.value[k] == s[k]
    ensures r.Success? ==> Lookup(r.value[id], path) == Some(v)
  {
    if id !in s then Failure(NotFound)
    else
      SetAtThenLookup(s[id], path, v);
      Success(s[id := SetAt(s[id], path, v)])
  }

  /** Writes `v` at a nested field path, creating (or replacing non-map) intermediate maps. */
  function SetAt(d: Doc, path: seq<string>, v: Value): Doc
    requires |path| >= 1
    decreases |path|
  {
    if |path| == 1 then d[path[0] := v]
    else
      var sub := if path[0] in d && d[path[0]].Obj? then d[path[0]].fields else map[];
      d[path[0] := Obj(SetAt(sub, path[1..], v))]
  }

  /** Two field paths that name disjoint parts of a document. */
  predicate Diverge(p: seq<string>, q: seq<string>)
    decreases |p|
  {
    |p| > 0 && |q| > 0 && (p[0] != q[0] || Diverge(p[1..], q[1..]))
  }

  /** After writing at `p`, reading `p` gives the written value. */
  lemma {:induction false} SetAtThenLookup(d: Doc, p: seq<string>, v: Value)
    requires |p| >= 1
    ensures Lookup(SetAt(d, p, v), p) == Some(v)
    decreases |p|
  {
    if |p| > 1 {
      var sub := if p[0] in d && d[p[0]].Obj? then d[p[0]].fields else map[];
      SetAtThenLookup(sub, p[1..], v);
    }
  }

  /** Writing at `p` leaves every field path disjoint from `p` as it was. */
  lemma {:induction false} SetAtFrame(d: Doc, p: seq<string>, q: seq<string>, v: Value)
    requires |p| >= 1 && Diverge(p, q)
    ensures Lookup(SetAt(d, p, v), q) == Lookup(d, q)
    decreases |p|
  {
    if p[0] == q[0] {
      var sub := if p[0] in d && d[p[0]].Obj? then d[p[0]].fields else map[];
      SetAtFrame(sub, p[1..], q[1..], v);
      if |q| > 1 && p[0] in d && !d[p[0]].Obj? {
        assert Lookup(sub, q[1..]) == None;
      }
    }
  }

  /** Writing one field of the map found at `p` gives that map with the field replaced. */
  lemma {:induction false} SetAtParent(d: Doc, p: seq<string>, k: string, v: Value, f: map<string, Value>)
    requires Lookup(d, p) == Some(Obj(f))
    ensures Lookup(SetAt(d, p + [k], v), p) == Some(Obj(f[k := v]))
    decreases |p|
  {
    if |p| > 1 {
      var g := d[p[0]].fields;
      assert (p + [k])[1..] == p[1..] + [k];
      SetAtParent(g, p[1..], k, v, f);
    }
  }

  /** `FieldValue.increment(n)`: adds to an integer field, otherwise writes `n`. */
  function Increment(current: Option<Value>, n: int): (r: Value)
    ensures r.Int?
    ensures current.Some? && current.value.Int? ==> r.i == current.value.i + n
    ensures !(current.Some? && current.value.Int?) ==> r.i == n
  {
    match current
    case Some(Int(x)) => Int(x + n)
    case _ => Int(n)
  }

  /** Merging the same value twice is the same as merging it once. */
  lemma {:induction false} MergeValueIdempotent(prev: Option<Value>, upd: Value)
    ensures MergeValue(Some(MergeValue(prev, upd)), upd) == MergeValue(prev, upd)
    decreases upd, 1
  {
    if upd.Obj? {
      if prev.Some? && prev.value.Obj? {
        MergeFieldsIdempotent(prev.value.fields, upd.fields);
      } else {
        MergeFieldsSelf(upd.fields);
      }
    }
  }

  /** A merge whose update is applied again changes nothing more. */
  lemma {:induction false} MergeFieldsIdempotent(prev: map<string, Value>, upd: map<string, Value>)
    ensures MergeFields(MergeFields(prev, upd), upd) == MergeFields(prev, upd)
    decreases Obj(upd), 0
  {
    var once := MergeFields(prev, upd);
    var twice := MergeFields(once, upd);
    forall k | k in upd
      ensures twice[k] == once[k]
    {
      MergeValueIdempotent(Field(prev, k), upd[k]);
    }
  }

  /** Merging a map into itself gives the map back. */
  lemma {:induction false} MergeFieldsSelf(m: map<string, Value>)
    ensures MergeFields(m, m) == m
    decreases Obj(m), 0
  {
    forall k | k in m
      ensures MergeFields(m, m)[k] == m[k]
    {
      MergeValueSelf(m[k]);
    }
  }

  lemma {:induction false} MergeValueSelf(v: Value)
    ensures MergeValue(Some(v), v) == v
    decreases v, 1
  {
    if v.Obj? {
      MergeFieldsSelf(v.fields);
    }
  }

  /** Merging the same data twice is the same as merging it once. */
  lemma MergeDocIdempotent(s: Store, id: string, d: Doc)
    ensures MergeDoc(MergeDoc(s, id, d), id, d) == MergeDoc(s, id, d)
  {
    MergeFieldsIdempotent(if id in s then s[id] else map[], d);
  }
}
