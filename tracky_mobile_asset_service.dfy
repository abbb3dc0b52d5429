/** The Tracky backend's mobile-asset service, over the `mobile-assets` collection:
    creation, the approval-gated update, the `approved` query, the approval
    request and the approval itself. */
module TrackyMobileAssetService {
  import opened Json
  import opened Store
  import opened TrackyApproval

  /** `createMobileAsset`: replaces whatever is stored under the body's `tracker_id`. */
  method CreateMobileAsset(db: Db, body: Record, uid: string, now: int) returns (status: int)
    requires db.Valid()
    modifies db
    ensures db.Valid()
    ensures db.assets == old(db.assets) && db.trackers == old(db.trackers)
    ensures db.warehouses == old(db.warehouses) && db.blobs == old(db.blobs)
    ensures status in {OK, BAD_REQUEST, SERVER_ERROR}
    ensures status == BAD_REQUEST <==> !Truthy(Get(body, "tracker_id"))
    ensures status == SERVER_ERROR <==>
      Truthy(Get(body, "tracker_id")) && (!ValidKey(JsString(Get(body, "tracker_id"))) || !HasFields(body, TRACKED_FIELDS))
    ensures status != OK ==> db.mobileAssets == old(db.mobileAssets)
    ensures status == OK ==>
      db.mobileAssets == old(db.mobileAssets)[JsString(Get(body, "tracker_id")) := TrackedDocument(body, uid, now)]
  {
    if !Truthy(Get(body, "tracker_id")) {
      return BAD_REQUEST;
    }
    if !ValidKey(JsString(Get(body, "tracker_id"))) {
      // `ref` refuses the path and the handler answers 500
      return SERVER_ERROR;
    }
    TrackedFieldsWritable(body, uid, now);
    if !Writable(TrackedFields(body, uid, now)) {
      // the store refuses an undefined field and the handler answers 500
      return SERVER_ERROR;
    }
    db.mobileAssets := db.mobileAssets[JsString(Get(body, "tracker_id")) := TrackedDocument(body, uid, now)];
    status := OK;
  }

  /** `updateMobileAsset`: refused for an approved record whatever the body holds.
      An id or a body field name the store refuses is answered with 500. */
  method UpdateMobileAsset(db: Db, id: string, updates: Record, now: int) returns (status: int)
    requires db.Valid()
    modifies db
    ensures db.Valid()
    ensures db.assets == old(db.assets) && db.trackers == old(db.trackers)
    ensures db.warehouses == old(db.warehouses) && db.blobs == old(db.blobs)
    ensures status in {OK, FORBIDDEN, NOT_FOUND, SERVER_ERROR}
    ensures status == NOT_FOUND <==> ValidKey(id) && id !in old(db.mobileAssets)
    ensures status == FORBIDDEN <==> id in old(db.mobileAssets) && !Editable(old(db.mobileAssets)[id])
    ensures status == SERVER_ERROR <==>
      !ValidKey(id) || (id in old(db.mobileAssets) && Editable(old(db.mobileAssets)[id]) && !ValidFieldNames(updates))
    ensures status != OK ==> db.mobileAssets == old(db.mobileAssets)
    ensures status == OK ==> db.mobileAssets == old(db.mobileAssets)[id := Edited(old(db.mobileAssets)[id], updates, now)]
  {
    if !ValidKey(id) {
      return SERVER_ERROR;
    }
    if id !in db.mobileAssets {
      return NOT_FOUND;
    }
    var record := db.mobileAssets[id];
    if Truthy(Get(record, "approved")) {
      return FORBIDDEN;
    }
    if !ValidFieldNames(updates) {
      return SERVER_ERROR;
    }
    var patch := updates["updatedAt" := Num(now as real)];
    db.mobileAssets := db.mobileAssets[id := Merge(record, patch)];
    status := OK;
  }

  /** `queryMobileAssets`. */
  method QueryMobileAssets(db: Db, snapshot: seq<(string, Record)>, approved: Option<string>) returns (result: seq<Record>)
    requires SnapshotOf(db.mobileAssets, snapshot)
    ensures result == ApprovedFilter(snapshot, approved)
  {
    result := CollectApproved(snapshot, approved);
  }

  /** `requestApproval`: no existence check, so an absent id gets a record of
      the request fields alone; only an id the store refuses fails. */
  method RequestApproval(db: Db, id: string, uid: string, now: int) returns (status: int)
    requires db.Valid()
    requires id != ""  // a route parameter is never empty
    modifies db
    ensures db.Valid()
    ensures db.assets == old(db.assets) && db.trackers == old(db.trackers)
    ensures db.warehouses == old(db.warehouses) && db.blobs == old(db.blobs)
    ensures status in {OK, SERVER_ERROR}
    ensures status == SERVER_ERROR <==> !ValidKey(id)
    ensures status == SERVER_ERROR ==> db.mobileAssets == old(db.mobileAssets)
    ensures status == OK ==> db.mobileAssets == Upsert(old(db.mobileAssets), id, RequestPatch(uid, now))
  {
    if !ValidKey(id) {
      return SERVER_ERROR;
    }
    db.mobileAssets := Upsert(db.mobileAssets, id, RequestPatch(uid, now));
    status := OK;
  }

  /** `approveMobileAsset`: no pending request is needed; only an id the store
      refuses fails. */
  method ApproveMobileAsset(db: Db, id: string, uid: string, now: int) returns (status: int)
    requires db.Valid()
    requires id != ""  // a route parameter is never empty
    modifies db
    ensures db.Valid()
    ensures db.assets == old(db.assets) && db.trackers == old(db.trackers)
    ensures db.warehouses == old(db.warehouses) && db.blobs == old(db.blobs)
    ensures status in {OK, SERVER_ERROR}
    ensures status == SERVER_ERROR <==> !ValidKey(id)
    ensures status == SERVER_ERROR ==> db.mobileAssets == old(db.mobileAssets)
    ensures status == OK ==> db.mobileAssets == Upsert(old(db.mobileAssets), id, ApprovePatch(uid, now))
  {
    if !ValidKey(id) {
      return SERVER_ERROR;
    }
    db.mobileAssets := Upsert(db.mobileAssets, id, ApprovePatch(uid, now));
    status := OK;
  }
}
