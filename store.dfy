/** The realtime database the services share, as a sequential in-memory store:
    records are flat field maps under a collection key, a `set` replaces a
    record and is refused when one of its fields is undefined, an `update` merges fields into it (a null field removes that field,
    and a record left without fields no longer exists), and reading a
    collection yields its children in the store's key order. */
module Store {
  import opened Json

  /** HTTP status codes the services answer with. */
  const OK: int := 200
  const BAD_REQUEST: int := 400
  const UNAUTHORIZED: int := 401
  const FORBIDDEN: int := 403
  const NOT_FOUND: int := 404
  const SERVER_ERROR: int := 500
  /** The handler throws outside its `try`: it sends no status of its own. */
  const NO_RESPONSE: int := 0

  type Record = map<string, Value>

  /** A character the store refuses in a path or a field name: '.', '#', '$',
      '[', ']' or an ASCII control character. */
  predicate ForbiddenInPath(c: char)
  {
    c == '.' || c == '#' || c == '$' || c == '[' || c == ']' || c as int < 32 || c as int == 127
  }

  /** `ref` accepts the text as a child name: it holds no forbidden character,
      else the call throws before anything is read or written. */
  predicate ValidKey(s: string)
  {
    forall i :: 0 <= i < |s| ==> !ForbiddenInPath(s[i])
  }

  /** `update` accepts the field names of a patch: none is empty (an empty
      name addresses the record itself, which clashes with the time stamp
      every such update adds) and none holds a forbidden character. */
  predicate ValidFieldNames(patch: map<string, Value>)
  {
    forall k :: k in patch ==> k != "" && ValidKey(k)
  }

  /** A number with a fractional part renders with a decimal point, so the
      store refuses it as a child name. */
  lemma FractionIsNoKey(n: real)
    requires n != n.Floor as real
    ensures !ValidKey(JsString(Num(n)))
  {
    assert JsString(Num(n))[7] == '.';
  }

  /** A decimal rendering is a valid child name. */
  lemma DigitsAreValidKey(s: string)
    requires AllDigits(s)
    ensures ValidKey(s)
  {
    forall i | 0 <= i < |s|
      ensures !ForbiddenInPath(s[i])
    {
      assert IsDigit(s[i]);
    }
  }

  /** Only these values are ever stored: a null field is removed, and an
      undefined one never reaches the store. */
  predicate IsStored(v: Value)
  {
    !v.Undefined? && !v.Null?
  }

  predicate WellFormed(r: Record)
  {
    forall k :: k in r ==> IsStored(r[k])
  }

  /** The JavaScript property read `record.field`. */
  function Get(r: Record, field: string): Value
  {
    if field in r then r[field] else Undefined
  }

  /** The store validates every value it is asked to write: a `set` whose
      object holds an undefined field is refused, and the call throws. */
  predicate Writable(fields: map<string, Value>)
  {
    forall k :: k in fields ==> !fields[k].Undefined?
  }

  /** The body holds every one of `names`: reading none of them gives undefined. */
  predicate HasFields(body: Record, names: set<string>)
  {
    forall f :: f in names ==> !Get(body, f).Undefined?
  }

  /** The record a `set(fields)` stores, for an object the store accepts:
      every null field is dropped, every other field is kept as given. */
  function Document(fields: map<string, Value>): (r: Record)
    requires Writable(fields)
    ensures WellFormed(r)
    ensures forall k :: k in r <==> k in fields && !fields[k].Null?
    ensures forall k :: k in r ==> r[k] == fields[k]
  {
    map k | k in fields && !fields[k].Null? :: fields[k]
  }

  /** The record an `update(patch)` leaves: fields named in the patch take the
      patch's value or disappear when it is null; every other field is kept. */
  function Merge(r: Record, patch: map<string, Value>): (m: Record)
    ensures forall k :: k in patch && IsStored(patch[k]) ==> k in m && m[k] == patch[k]
    ensures forall k :: k in patch && !IsStored(patch[k]) ==> k !in m
    ensures forall k :: k !in patch ==> (k in m <==> k in r) && (k in r ==> m[k] == r[k])
    ensures WellFormed(r) ==> WellFormed(m)
  {
    map k | k in r.Keys + patch.Keys && (k in patch ==> IsStored(patch[k])) ::
      if k in patch then patch[k] else r[k]
  }

  /** A second write under the same key leaves the collection as one write of
      the second value would. */
  lemma RewriteKey(m: map<string, Record>, k: string, a: Record, b: Record)
    ensures m[k := a][k := b] == m[k := b]
  {
  }

  /** Two updates in a row are one update with the later patch winning. */
  lemma MergeCompose(r: Record, p: map<string, Value>, q: map<string, Value>)
    ensures Merge(Merge(r, p), q) == Merge(r, p + q)
  {
    var left, right := Merge(Merge(r, p), q), Merge(r, p + q);
    assert forall k :: k in left <==> k in right;
    assert forall k :: k in left ==> left[k] == right[k];
  }

  function Lookup(m: map<string, Record>, key: string): Record
  {
    if key in m then m[key] else map[]
  }

  /** A collection after `ref(key).update(patch)`. The store creates the record
      when it is absent, and a record without fields ceases to exist. */
  function Upsert(m: map<string, Record>, key: string, patch: map<string, Value>): (m': map<string, Record>)
    ensures forall k :: k != key ==> (k in m' <==> k in m) && (k in m ==> m'[k] == m[k])
    ensures key in m' <==> Merge(Lookup(m, key), patch) != map[]
    ensures key in m' ==> m'[key] == Merge(Lookup(m, key), patch)
  {
    var r := Merge(Lookup(m, key), patch);
    if r == map[] then m - {key} else m[key := r]
  }

  /** The body fields `createTracker` and `createMobileAsset` copy into the record. */
  const TRACKED_FIELDS: set<string> :=
    {"tracker_id", "name", "latitude", "longitude", "timestamp", "vehicleType", "plateNumber"}

  /** The object `createTracker` and `createMobileAsset` hand to `set`: the
      body's tracking fields, both time stamps, the creator and
      `approved = false`. */
  function TrackedFields(body: Record, uid: string, now: int): map<string, Value>
  {
    map[
      "tracker_id" := Get(body, "tracker_id"),
      "name" := Get(body, "name"),
      "latitude" := Get(body, "latitude"),
      "longitude" := Get(body, "longitude"),
      "timestamp" := Get(body, "timestamp"),
      "vehicleType" := Get(body, "vehicleType"),
      "plateNumber" := Get(body, "plateNumber"),
      "createdAt" := Num(now as real),
      "updatedAt" := Num(now as real),
      "approved" := Bool(false),
      "createdBy" := Str(uid)]
  }

  /** The store accepts the object exactly when the body holds every tracking field. */
  lemma TrackedFieldsWritable(body: Record, uid: string, now: int)
    ensures Writable(TrackedFields(body, uid, now)) <==> HasFields(body, TRACKED_FIELDS)
  {
    var f := TrackedFields(body, uid, now);
    if Writable(f) {
      forall n | n in TRACKED_FIELDS
        ensures !Get(body, n).Undefined?
      {
        assert f[n] == Get(body, n);
      }
    }
  }

  /** The record stored under the body's `tracker_id`: unapproved, with its
      creator, each tracking field as the body gives it (a null one absent),
      and nothing else. */
  function TrackedDocument(body: Record, uid: string, now: int): (r: Record)
    requires HasFields(body, TRACKED_FIELDS)
    ensures Get(r, "approved") == Bool(false)
    ensures Get(r, "createdBy") == Str(uid)
    ensures forall f :: f in TRACKED_FIELDS ==> Get(r, f) == (if Get(body, f).Null? then Undefined else Get(body, f))
    ensures forall f :: f in r ==> f in TRACKED_FIELDS + {"createdAt", "updatedAt", "approved", "createdBy"}
  {
    TrackedFieldsWritable(body, uid, now);
    var f := TrackedFields(body, uid, now);
    assert forall n :: n in TRACKED_FIELDS ==> f[n] == Get(body, n);
    Document(f)
  }

  /** A warehouse. Its rosters are stored arrays, i.e. children keyed by
      index; the store keeps no empty array, so an empty roster is absent.
      `Undefined` stands for an absent name or description. */
  datatype Warehouse = Warehouse(
    name: Value,
    description: Value,
    admins: map<nat, Value>,
    pics: map<nat, Value>,
    users: map<nat, Value>,
    assets: seq<Value>,
    createdAt: int,
    createdBy: string)
  {
    predicate WellFormed()
    {
      && !name.Null? && !description.Null?
      && (forall i :: i in admins ==> IsStored(admins[i]))
      && (forall i :: i in pics ==> IsStored(pics[i]))
      && (forall i :: i in users ==> IsStored(users[i]))
    }
  }

  /** One database: the children of `assets`, `tracker`, `mobile-assets`,
      `warehouses`, and the set of blob URLs in file storage. */
  class Db {
    var assets: map<string, Record>
    var trackers: map<string, Record>
    var mobileAssets: map<string, Record>
    var warehouses: map<nat, Warehouse>
    var blobs: set<string>

    ghost predicate Valid()
      reads this
    {
      && (forall k :: k in assets ==> k != "" && ValidKey(k))
      && (forall k :: k in trackers ==> k != "" && ValidKey(k))
      && (forall k :: k in mobileAssets ==> k != "" && ValidKey(k))
      && (forall k :: k in assets ==> WellFormed(assets[k]))
      && (forall k :: k in trackers ==> WellFormed(trackers[k]))
      && (forall k :: k in mobileAssets ==> WellFormed(mobileAssets[k]))
      && (forall k :: k in warehouses ==> warehouses[k].WellFormed())
    }

    constructor ()
      ensures Valid()
      ensures assets == map[] && trackers == map[] && mobileAssets == map[]
      ensures warehouses == map[] && blobs == {}
    {
      assets, trackers, mobileAssets := map[], map[], map[];
      warehouses, blobs := map[], {};
    }
  }

  /** Whether a read of `tracker/<trackerId>` finds anything: an
      empty id names the whole collection, which exists while it holds any
      tracker. */
  predicate TrackerExists(trackers: map<string, Record>, trackerId: Value)
  {
    var k := JsString(trackerId);
    if k == "" then trackers != map[] else k in trackers
  }

  /** `snapshot` lists every child of `records` exactly once, with its record:
      the value a `once('value')` read of the collection yields. */
  predicate SnapshotOf(records: map<string, Record>, snapshot: seq<(string, Record)>)
  {
    && (forall i :: 0 <= i < |snapshot| ==> snapshot[i].0 in records && records[snapshot[i].0] == snapshot[i].1)
    && (forall i, j :: 0 <= i < j < |snapshot| ==> snapshot[i].0 != snapshot[j].0)
    && (forall k :: k in records ==> exists i :: 0 <= i < |snapshot| && snapshot[i].0 == k)
  }

  /** `{ id: key, ...record }`: the record with its key as `id`; a stored `id`
      field of the record itself wins, as in an object spread. */
  function Tagged(key: string, r: Record): Record
  {
    map["id" := Str(key)] + r
  }

  /** The filter of the `approved` query parameter: absent, it admits every
      record; present, it admits those whose `String(approved)` equals it. */
  predicate MatchesApproved(r: Record, approved: Option<string>)
  {
    approved.None? || JsString(Get(r, "approved")) == approved.value
  }

  /** The result of a filtered listing: the matching children, tagged with their
      keys, in snapshot order. */
  function ApprovedFilter(snapshot: seq<(string, Record)>, approved: Option<string>): seq<Record>
  {
    if snapshot == [] then []
    else
      var last := snapshot[|snapshot| - 1];
      ApprovedFilter(snapshot[..|snapshot| - 1], approved)
        + (if MatchesApproved(last.1, approved) then [Tagged(last.0, last.1)] else [])
  }

  /** Filtering distributes over concatenation, so the listing keeps the
      snapshot's order. */
  lemma {:induction false} ApprovedFilterAppend(s1: seq<(string, Record)>, s2: seq<(string, Record)>, approved: Option<string>)
    ensures ApprovedFilter(s1 + s2, approved) == ApprovedFilter(s1, approved) + ApprovedFilter(s2, approved)
  {
    if s2 != [] {
      var s2' := s2[..|s2| - 1];
      assert (s1 + s2)[..|s1 + s2| - 1] == s1 + s2';
      assert (s1 + s2)[|s1 + s2| - 1] == s2[|s2| - 1];
      ApprovedFilterAppend(s1, s2', approved);
    } else {
      assert s1 + s2 == s1;
    }
  }

  /** A listing holds exactly the tagged matching children. */
  lemma {:induction false} ApprovedFilterMembership(snapshot: seq<(string, Record)>, approved: Option<string>, x: Record)
    ensures x in ApprovedFilter(snapshot, approved) <==>
      exists i :: 0 <= i < |snapshot| && MatchesApproved(snapshot[i].1, approved) && x == Tagged(snapshot[i].0, snapshot[i].1)
  {
    if snapshot != [] {
      var init := snapshot[..|snapshot| - 1];
      ApprovedFilterMembership(init, approved, x);
      assert forall i :: 0 <= i < |init| ==> init[i] == snapshot[i];
    }
  }

  /** Without the parameter, the listing is the whole snapshot, each child tagged. */
  lemma {:induction false} ApprovedFilterUnfiltered(snapshot: seq<(string, Record)>)
    ensures |ApprovedFilter(snapshot, None)| == |snapshot|
    ensures forall i :: 0 <= i < |snapshot| ==> ApprovedFilter(snapshot, None)[i] == Tagged(snapshot[i].0, snapshot[i].1)
  {
    if snapshot != [] {
      ApprovedFilterUnfiltered(snapshot[..|snapshot| - 1]);
    }
  }

  /** The `forEach` loop of the listing services: push every matching child,
      tagged with its key. */
  method CollectApproved(snapshot: seq<(string, Record)>, approved: Option<string>) returns (result: seq<Record>)
    ensures result == ApprovedFilter(snapshot, approved)
  {
    result := [];
    var i := 0;
    while i < |snapshot|
      invariant 0 <= i <= |snapshot|
      invariant result == ApprovedFilter(snapshot[..i], approved)
    {
      var (key, r) := snapshot[i];
      assert snapshot[..i + 1][..i] == snapshot[..i];
      if approved.None? || JsString(Get(r, "approved")) == approved.value {
        result := result + [Tagged(key, r)];
      }
      i := i + 1;
    }
    assert snapshot[..i] == snapshot;
  }
}
