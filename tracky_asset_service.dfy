/** The Tracky backend's asset service over the `assets` collection: creation
    under a push key, the `approved` listing, lookup by id, and the update and
    approval merges, neither of which checks that the asset exists. */
module TrackyAssetService {
  import opened Json
  import opened Store

  /** The object `addAsset` builds; `purchaseIso` is the ISO rendering of the
      body's purchase date. */
  function NewAssetFields(body: Record, purchaseIso: string, uid: string, now: int): map<string, Value>
  {
    map[
      "name" := Get(body, "name"),
      "description" := Get(body, "description"),
      "depreciation" := Get(body, "depreciation"),
      "image" := Get(body, "image"),
      "purchaseDate" := Str(purchaseIso),
      "price" := Get(body, "price"),
      "createdBy" := Str(uid),
      "createdAt" := Num(now as real),
      "approved" := Bool(false)]
  }

  /** The body fields `addAsset` copies as they are. */
  const NEW_ASSET_FIELDS: set<string> := {"name", "description", "depreciation", "image", "price"}

  /** The store accepts the object exactly when the body holds each copied field. */
  lemma NewAssetWritable(body: Record, purchaseIso: string, uid: string, now: int)
    ensures Writable(NewAssetFields(body, purchaseIso, uid, now)) <==> HasFields(body, NEW_ASSET_FIELDS)
  {
    var f := NewAssetFields(body, purchaseIso, uid, now);
    if Writable(f) {
      forall n | n in NEW_ASSET_FIELDS
        ensures !Get(body, n).Undefined?
      {
        assert f[n] == Get(body, n);
      }
    }
  }

  /** The record `addAsset` stores, for a body the store accepts. */
  function NewAsset(body: Record, purchaseIso: string, uid: string, now: int): (r: Record)
    requires HasFields(body, NEW_ASSET_FIELDS)
    ensures WellFormed(r)
  {
    NewAssetWritable(body, purchaseIso, uid, now);
    Document(NewAssetFields(body, purchaseIso, uid, now))
  }

  /** A new asset is unapproved, records its creator and purchase date, and
      copies the body's price and depreciation unless they are null. */
  lemma NewAssetShape(body: Record, purchaseIso: string, uid: string, now: int)
    requires HasFields(body, NEW_ASSET_FIELDS)
    ensures var r := NewAsset(body, purchaseIso, uid, now);
      && Get(r, "approved") == Bool(false)
      && Get(r, "createdBy") == Str(uid)
      && Get(r, "purchaseDate") == Str(purchaseIso)
      && (!Get(body, "price").Null? ==> Get(r, "price") == Get(body, "price"))
      && (Get(body, "price").Null? ==> "price" !in r)
      && (!Get(body, "depreciation").Null? ==> Get(r, "depreciation") == Get(body, "depreciation"))
      && "approvedBy" !in r
  {
    var f := NewAssetFields(body, purchaseIso, uid, now);
    assert f["approved"] == Bool(false);
    assert f["createdBy"] == Str(uid);
    assert f["purchaseDate"] == Str(purchaseIso);
    assert f["price"] == Get(body, "price");
    assert f["depreciation"] == Get(body, "depreciation");
    assert "approvedBy" !in f;
  }

  /** `addAsset`. `purchaseIso` is `new Date(purchaseDate).toISOString()`,
      `None` when the date is invalid, where the call throws and nothing is
      written; a body without one of the copied fields is refused by the
      store, which also answers 500; `key` is the fresh push key. */
  method AddAsset(db: Db, body: Record, purchaseIso: Option<string>, key: string, uid: string, now: int)
    returns (status: int, id: Option<string>)
    requires db.Valid() && key !in db.assets && key != "" && ValidKey(key)
    modifies db
    ensures db.Valid()
    ensures db.trackers == old(db.trackers) && db.mobileAssets == old(db.mobileAssets)
    ensures db.warehouses == old(db.warehouses) && db.blobs == old(db.blobs)
    ensures status in {OK, SERVER_ERROR}
    ensures status == SERVER_ERROR <==> purchaseIso.None? || !HasFields(body, NEW_ASSET_FIELDS)
    ensures status == SERVER_ERROR ==> db.assets == old(db.assets) && id.None?
    ensures status == OK ==> id == Some(key) && db.assets == old(db.assets)[key := NewAsset(body, purchaseIso.value, uid, now)]
  {
    if purchaseIso.None? {
      return SERVER_ERROR, None;
    }
    NewAssetWritable(body, purchaseIso.value, uid, now);
    if !Writable(NewAssetFields(body, purchaseIso.value, uid, now)) {
      return SERVER_ERROR, None;
    }
    db.assets := db.assets[key := NewAsset(body, purchaseIso.value, uid, now)];
    status, id := OK, Some(key);
  }

  /** `listAssets`. */
  method ListAssets(db: Db, snapshot: seq<(string, Record)>, approved: Option<string>) returns (result: seq<Record>)
    requires SnapshotOf(db.assets, snapshot)
    ensures result == ApprovedFilter(snapshot, approved)
  {
    result := CollectApproved(snapshot, approved);
  }

  /** `getAsset`: the stored record with its id, 404, or 500 for an id the
      store refuses. */
  method GetAsset(db: Db, assetId: string) returns (status: int, result: Option<Record>)
    ensures status in {OK, NOT_FOUND, SERVER_ERROR}
    ensures status == SERVER_ERROR <==> !ValidKey(assetId)
    ensures status == NOT_FOUND <==> ValidKey(assetId) && assetId !in db.assets
    ensures status == OK <==> result.Some?
    ensures result.Some? ==>
      forall f :: f in db.assets[assetId] ==> f in result.value && result.value[f] == db.assets[assetId][f]
    ensures result.Some? ==>
      Get(result.value, "id") == (if "id" in db.assets[assetId] then db.assets[assetId]["id"] else Str(assetId))
    ensures result.Some? ==> forall f :: f in result.value ==> f in db.assets[assetId] || f == "id"
  {
    if !ValidKey(assetId) {
      return SERVER_ERROR, None;
    }
    if assetId !in db.assets {
      return NOT_FOUND, None;
    }
    status, result := OK, Some(Tagged(assetId, db.assets[assetId]));
  }

  function UpdatePatch(updates: Record, now: int): map<string, Value>
  {
    updates["updatedAt" := Num(now as real)]
  }

  /** `updateAsset`: no existence or approval check; only an id or a body
      field name the store refuses fails. */
  method UpdateAsset(db: Db, assetId: string, updates: Record, now: int) returns (status: int)
    requires db.Valid()
    requires assetId != ""  // a route parameter is never empty
    modifies db
    ensures db.Valid()
    ensures db.trackers == old(db.trackers) && db.mobileAssets == old(db.mobileAssets)
    ensures db.warehouses == old(db.warehouses) && db.blobs == old(db.blobs)
    ensures status in {OK, SERVER_ERROR}
    ensures status == SERVER_ERROR <==> !ValidKey(assetId) || !ValidFieldNames(updates)
    ensures status == SERVER_ERROR ==> db.assets == old(db.assets)
    ensures status == OK ==> db.assets == Upsert(old(db.assets), assetId, UpdatePatch(updates, now))
  {
    if !ValidKey(assetId) || !ValidFieldNames(updates) {
      return SERVER_ERROR;
    }
    db.assets := Upsert(db.assets, assetId, UpdatePatch(updates, now));
    status := OK;
  }

  /** Because the time stamp is always written, an update of an absent id
      creates a record holding just the body's stored fields and the stamp,
      and an approved asset can be edited or unapproved. */
  lemma UpdateAlwaysLeavesARecord(assets: map<string, Record>, assetId: string, updates: Record, now: int)
    ensures var after := Upsert(assets, assetId, UpdatePatch(updates, now));
      && assetId in after
      && Get(after[assetId], "updatedAt") == Num(now as real)
      && (assetId !in assets ==> after[assetId] == Merge(map[], UpdatePatch(updates, now)))
      && ("approved" in updates && IsStored(updates["approved"]) ==> Get(after[assetId], "approved") == updates["approved"])
  {
    var m := Merge(Lookup(assets, assetId), UpdatePatch(updates, now));
    assert "updatedAt" in m;
  }

  function ApprovePatch(uid: string, now: int): map<string, Value>
  {
    map["approved" := Bool(true), "approvedAt" := Num(now as real), "approvedBy" := Str(uid)]
  }

  /** `approveAsset`: no existence check; only an id the store refuses fails. */
  method ApproveAsset(db: Db, assetId: string, uid: string, now: int) returns (status: int)
    requires db.Valid()
    requires assetId != ""  // a route parameter is never empty
    modifies db
    ensures db.Valid()
    ensures db.trackers == old(db.trackers) && db.mobileAssets == old(db.mobileAssets)
    ensures db.warehouses == old(db.warehouses) && db.blobs == old(db.blobs)
    ensures status in {OK, SERVER_ERROR}
    ensures status == SERVER_ERROR <==> !ValidKey(assetId)
    ensures status == SERVER_ERROR ==> db.assets == old(db.assets)
    ensures status == OK ==> db.assets == Upsert(old(db.assets), assetId, ApprovePatch(uid, now))
  {
    if !ValidKey(assetId) {
      return SERVER_ERROR;
    }
    db.assets := Upsert(db.assets, assetId, ApprovePatch(uid, now));
    status := OK;
  }

  /** An approved asset lists under `approved=true`, and approving it again
      keeps it approved; only approver and time change. */
  lemma ApproveAssetIdempotent(r: Record, uid1: string, now1: int, uid2: string, now2: int)
    ensures var once := Merge(r, ApprovePatch(uid1, now1));
      var twice := Merge(once, ApprovePatch(uid2, now2));
      && Get(once, "approved") == Bool(true)
      && Get(twice, "approved") == Bool(true)
      && MatchesApproved(twice, Some("true"))
      && twice == Merge(r, ApprovePatch(uid2, now2))
  {
    MergeCompose(r, ApprovePatch(uid1, now1), ApprovePatch(uid2, now2));
    assert ApprovePatch(uid1, now1) + ApprovePatch(uid2, now2) == ApprovePatch(uid2, now2);
  }

  /** Approval always leaves a record under the id, existing or not. */
  lemma ApproveAssetLeavesARecord(assets: map<string, Record>, assetId: string, uid: string, now: int)
    ensures var after := Upsert(assets, assetId, ApprovePatch(uid, now));
      assetId in after && after[assetId] == Merge(Lookup(assets, assetId), ApprovePatch(uid, now))
  {
    assert "approved" in Merge(Lookup(assets, assetId), ApprovePatch(uid, now));
  }
}
