/** The tracker service of the main backend: creation, the flag-gated update
    whose edit grant is cleared by a second write, the edit-request /
    edit-approval pair (neither checks that the tracker exists), the location
    overwrite, and the `approved` query. */
module TrackerService {
  import opened Json
  import opened Store

  /** `createTracker`: replaces whatever is stored under the given id. */
  method CreateTracker(db: Db, body: Record, uid: string, now: int) returns (status: int)
    requires db.Valid()
    modifies db
    ensures db.Valid()
    ensures db.assets == old(db.assets) && db.mobileAssets == old(db.mobileAssets)
    ensures db.warehouses == old(db.warehouses) && db.blobs == old(db.blobs)
    ensures status in {OK, BAD_REQUEST, SERVER_ERROR}
    ensures status == BAD_REQUEST <==> !Truthy(Get(body, "tracker_id"))
    ensures status == SERVER_ERROR <==>
      Truthy(Get(body, "tracker_id")) && (!ValidKey(JsString(Get(body, "tracker_id"))) || !HasFields(body, TRACKED_FIELDS))
    ensures status != OK ==> db.trackers == old(db.trackers)
    ensures status == OK ==>
      db.trackers == old(db.trackers)[JsString(Get(body, "tracker_id")) := TrackedDocument(body, uid, now)]
  {
    if !Truthy(Get(body, "tracker_id")) {
      return BAD_REQUEST;
    }
    if !ValidKey(JsString(Get(body, "tracker_id"))) {
      // `ref` refuses the path and the handler answers 500
      return SERVER_ERROR;
    }
    TrackedFieldsWritable(body, uid, now);
    if !Writable(TrackedFields(body, uid, now)) {
      // the store refuses an undefined field and the handler answers 500
      return SERVER_ERROR;
    }
    db.trackers := db.trackers[JsString(Get(body, "tracker_id")) := TrackedDocument(body, uid, now)];
    status := OK;
  }

  /** A created tracker is unapproved and carries no grant or request, whatever
      was stored under its id before. */
  lemma CreatedTrackerIsFresh(body: Record, uid: string, now: int)
    requires HasFields(body, TRACKED_FIELDS)
    ensures var r := TrackedDocument(body, uid, now);
      && Get(r, "approved") == Bool(false) && Get(r, "createdBy") == Str(uid)
      && "editApproved" !in r && "editRequested" !in r
  {
  }

  /** The gate of `updateTracker`: an approved tracker is locked unless it
      holds an edit grant. */
  predicate Locked(tracker: Record)
  {
    Truthy(Get(tracker, "approved")) && !Truthy(Get(tracker, "editApproved"))
  }

  const GRANT_RESET: map<string, Value> :=
    map["editApproved" := Bool(false), "editApprovedAt" := Null, "editApprovedBy" := Null]

  /** The stored tracker after a permitted `updateTracker`: the caller's fields
      and the time stamp merged in, then the grant cleared if there was one. */
  function UpdatedTracker(tracker: Record, updates: Record, now: int): Record
  {
    var first := Merge(tracker, updates["updatedAt" := Num(now as real)]);
    if Truthy(Get(tracker, "editApproved")) then Merge(first, GRANT_RESET) else first
  }

  /** One `update` of a tracker, as the store applies it. */
  method WriteTracker(db: Db, id: string, r: Record)
    requires db.Valid() && ValidKey(id) && WellFormed(r)
    requires id != ""
    modifies db
    ensures db.Valid()
    ensures db.trackers == old(db.trackers)[id := r]
    ensures db.assets == old(db.assets) && db.mobileAssets == old(db.mobileAssets)
    ensures db.warehouses == old(db.warehouses) && db.blobs == old(db.blobs)
  {
    db.trackers := db.trackers[id := r];
  }

  /** The writes of a permitted `updateTracker`: the caller's fields and the
      time stamp, then, when the tracker held a grant, the grant reset. */
  method WriteUpdate(db: Db, id: string, updates: Record, now: int)
    requires db.Valid() && ValidKey(id) && id in db.trackers
    modifies db
    ensures db.Valid()
    ensures db.trackers == old(db.trackers)[id := UpdatedTracker(old(db.trackers)[id], updates, now)]
    ensures db.assets == old(db.assets) && db.mobileAssets == old(db.mobileAssets)
    ensures db.warehouses == old(db.warehouses) && db.blobs == old(db.blobs)
  {
    var tracker := db.trackers[id];
    var first := Merge(tracker, updates["updatedAt" := Num(now as real)]);
    var granted := Truthy(Get(tracker, "editApproved"));
    var second := Merge(first, GRANT_RESET);
    assert WellFormed(first) && WellFormed(second);
    assert UpdatedTracker(tracker, updates, now) == if granted then second else first;
    WriteTracker(db, id, first);
    if granted {
      WriteTracker(db, id, second);
      RewriteKey(old(db.trackers), id, first, second);
    }
  }

  /** `updateTracker`. The two writes of a grant-holding update are modelled in
      sequence; a failure between them is not. An id or a body field name the
      store refuses is answered with 500. */
  method UpdateTracker(db: Db, id: string, updates: Record, now: int) returns (status: int)
    requires db.Valid()
    modifies db
    ensures db.Valid()
    ensures db.assets == old(db.assets) && db.mobileAssets == old(db.mobileAssets)
    ensures db.warehouses == old(db.warehouses) && db.blobs == old(db.blobs)
    ensures status in {OK, FORBIDDEN, NOT_FOUND, SERVER_ERROR}
    ensures status == NOT_FOUND <==> ValidKey(id) && id !in old(db.trackers)
    ensures status == FORBIDDEN <==> id in old(db.trackers) && Locked(old(db.trackers)[id])
    ensures status == SERVER_ERROR <==>
      !ValidKey(id) || (id in old(db.trackers) && !Locked(old(db.trackers)[id]) && !ValidFieldNames(updates))
    ensures status != OK ==> db.trackers == old(db.trackers)
    ensures status == OK ==> db.trackers == old(db.trackers)[id := UpdatedTracker(old(db.trackers)[id], updates, now)]
  {
    if !ValidKey(id) {
      return SERVER_ERROR;
    }
    if id !in db.trackers {
      return NOT_FOUND;
    }
    var tracker := db.trackers[id];
    var granted := Truthy(Get(tracker, "editApproved"));
    if Truthy(Get(tracker, "approved")) && !granted {
      return FORBIDDEN;
    }
    if !ValidFieldNames(updates) {
      // the added time stamp is a valid name; the body's names decide
      return SERVER_ERROR;
    }
    WriteUpdate(db, id, updates, now);
    status := OK;
  }

  /** A permitted update touches only the fields it names, the time stamp and
      the grant fields. */
  lemma UpdateTouchesOnlyNamedFields(tracker: Record, updates: Record, now: int, field: string)
    requires field !in updates && field !in {"updatedAt", "editApproved", "editApprovedAt", "editApprovedBy"}
    ensures Get(UpdatedTracker(tracker, updates, now), field) == Get(tracker, field)
  {
  }

  /** A grant is cleared by the update it permits, even when the caller's own
      fields try to set it, so an approved tracker whose update leaves it
      approved is locked again. */
  lemma UpdateConsumesGrant(tracker: Record, updates: Record, now: int)
    requires Truthy(Get(tracker, "editApproved"))
    ensures var after := UpdatedTracker(tracker, updates, now);
      && Get(after, "editApproved") == Bool(false)
      && "editApprovedAt" !in after && "editApprovedBy" !in after
      && (Truthy(Get(after, "approved")) ==> Locked(after))
  {
    var first := Merge(tracker, updates["updatedAt" := Num(now as real)]);
    assert UpdatedTracker(tracker, updates, now) == Merge(first, GRANT_RESET);
    assert Get(Merge(first, GRANT_RESET), "editApproved") == Bool(false);
  }

  /** The grant-holding update is the same as one merged write whose reset
      overrides the caller's fields. */
  lemma TwoWritesAreOne(tracker: Record, updates: Record, now: int)
    requires Truthy(Get(tracker, "editApproved"))
    ensures UpdatedTracker(tracker, updates, now) == Merge(tracker, updates["updatedAt" := Num(now as real)] + GRANT_RESET)
  {
    MergeCompose(tracker, updates["updatedAt" := Num(now as real)], GRANT_RESET);
  }

  function RequestEditPatch(uid: string, now: int): map<string, Value>
  {
    map["editRequested" := Bool(true), "editRequestedAt" := Num(now as real), "editRequestedBy" := Str(uid)]
  }

  /** `requestEdit`: no existence or role check; an absent tracker is created
      with only the request fields. Only an id the store refuses fails. */
  method RequestEdit(db: Db, id: string, uid: string, now: int) returns (status: int)
    requires db.Valid()
    requires id != ""  // a route parameter is never empty
    modifies db
    ensures db.Valid()
    ensures db.assets == old(db.assets) && db.mobileAssets == old(db.mobileAssets)
    ensures db.warehouses == old(db.warehouses) && db.blobs == old(db.blobs)
    ensures status in {OK, SERVER_ERROR}
    ensures status == SERVER_ERROR <==> !ValidKey(id)
    ensures status == SERVER_ERROR ==> db.trackers == old(db.trackers)
    ensures status == OK ==> db.trackers == Upsert(old(db.trackers), id, RequestEditPatch(uid, now))
  {
    if !ValidKey(id) {
      return SERVER_ERROR;
    }
    db.trackers := Upsert(db.trackers, id, RequestEditPatch(uid, now));
    status := OK;
  }

  function ApproveEditPatch(uid: string, now: int): map<string, Value>
  {
    map["editApproved" := Bool(true), "editApprovedAt" := Num(now as real), "editApprovedBy" := Str(uid),
        "editRequested" := Bool(false)]
  }

  /** `approveEdit`: no pending request is needed. Only an id the store
      refuses fails. */
  method ApproveEdit(db: Db, id: string, uid: string, now: int) returns (status: int)
    requires db.Valid()
    requires id != ""  // a route parameter is never empty
    modifies db
    ensures db.Valid()
    ensures db.assets == old(db.assets) && db.mobileAssets == old(db.mobileAssets)
    ensures db.warehouses == old(db.warehouses) && db.blobs == old(db.blobs)
    ensures status in {OK, SERVER_ERROR}
    ensures status == SERVER_ERROR <==> !ValidKey(id)
    ensures status == SERVER_ERROR ==> db.trackers == old(db.trackers)
    ensures status == OK ==> db.trackers == Upsert(old(db.trackers), id, ApproveEditPatch(uid, now))
  {
    if !ValidKey(id) {
      return SERVER_ERROR;
    }
    db.trackers := Upsert(db.trackers, id, ApproveEditPatch(uid, now));
    status := OK;
  }

  /** An approval unlocks the tracker and clears the request flag, but keeps
      who asked and when. */
  lemma ApproveEditUnlocks(tracker: Record, uid: string, now: int)
    ensures var after := Merge(tracker, ApproveEditPatch(uid, now));
      && !Locked(after)
      && Get(after, "editRequested") == Bool(false)
      && Get(after, "editRequestedBy") == Get(tracker, "editRequestedBy")
      && Get(after, "editRequestedAt") == Get(tracker, "editRequestedAt")
  {
  }

  function LocationPatch(body: Record, now: int): map<string, Value>
  {
    map["latitude" := Get(body, "latitude"), "longitude" := Get(body, "longitude"),
        "timestamp" := Num(now as real), "updatedAt" := Num(now as real)]
  }

  /** `updateLocation`: overwrites the single stored position, whatever the
      approval state. Only an absent coordinate is refused; a null one
      removes that field. */
  method UpdateLocation(db: Db, id: string, body: Record, now: int) returns (status: int)
    requires db.Valid()
    modifies db
    ensures db.Valid()
    ensures db.assets == old(db.assets) && db.mobileAssets == old(db.mobileAssets)
    ensures db.warehouses == old(db.warehouses) && db.blobs == old(db.blobs)
    ensures status in {OK, BAD_REQUEST, NOT_FOUND, SERVER_ERROR}
    ensures status == BAD_REQUEST <==> Get(body, "latitude").Undefined? || Get(body, "longitude").Undefined?
    ensures status == SERVER_ERROR <==>
      !Get(body, "latitude").Undefined? && !Get(body, "longitude").Undefined? && !ValidKey(id)
    ensures status == NOT_FOUND <==>
      !Get(body, "latitude").Undefined? && !Get(body, "longitude").Undefined? && ValidKey(id) && id !in old(db.trackers)
    ensures status != OK ==> db.trackers == old(db.trackers)
    ensures status == OK ==> db.trackers == old(db.trackers)[id := Merge(old(db.trackers)[id], LocationPatch(body, now))]
  {
    if Get(body, "latitude").Undefined? || Get(body, "longitude").Undefined? {
      return BAD_REQUEST;
    }
    if !ValidKey(id) {
      return SERVER_ERROR;
    }
    if id !in db.trackers {
      return NOT_FOUND;
    }
    db.trackers := db.trackers[id := Merge(db.trackers[id], LocationPatch(body, now))];
    status := OK;
  }

  /** A location update keeps every other field, approval and grant included. */
  lemma LocationKeepsOtherFields(tracker: Record, body: Record, now: int, field: string)
    requires field !in {"latitude", "longitude", "timestamp", "updatedAt"}
    ensures Get(Merge(tracker, LocationPatch(body, now)), field) == Get(tracker, field)
    ensures Locked(Merge(tracker, LocationPatch(body, now))) == Locked(tracker)
  {
  }

  /** `queryTracker`. */
  method QueryTracker(db: Db, snapshot: seq<(string, Record)>, approved: Option<string>) returns (result: seq<Record>)
    requires SnapshotOf(db.trackers, snapshot)
    ensures result == ApprovedFilter(snapshot, approved)
  {
    result := CollectApproved(snapshot, approved);
  }
}
