/** The warehouse service: sequential id allocation on creation, the
    slot-indexed roster update, the asset/tracker join of one warehouse and the
    listing of all warehouses. Warehouse keys are the decimal renderings of
    their numeric ids. */
module WarehouseService {
  import opened Json
  import opened Store

  /** The value a `set` keeps for a field it accepts: a null one is left
      absent, which a read sees as undefined. */
  function Stored(v: Value): Value
    requires !v.Undefined?
  {
    if v.Null? then Undefined else v
  }

  /** The warehouse a route parameter names: only the canonical decimal
      rendering of an id is a key of the collection. */
  function KeyOf(id: string): Option<nat>
  {
    if |id| > 0 && AllDigits(id) && (id[0] != '0' || |id| == 1) then Some(DigitsToNat(id)) else None
  }

  lemma {:induction false} NatToStringLeadingDigit(n: nat)
    requires n > 0
    ensures NatToString(n)[0] != '0'
  {
    if n >= 10 {
      NatToStringLeadingDigit(n / 10);
      assert NatToString(n)[0] == NatToString(n / 10)[0];
    }
  }

  /** A canonical warehouse id is a valid child name, so only a route id that
      names no warehouse can be refused by the store. */
  lemma CanonicalIdIsValidKey(id: string)
    ensures KeyOf(id).Some? ==> ValidKey(id)
  {
    if KeyOf(id).Some? {
      DigitsAreValidKey(id);
    }
  }

  /** The id `createWarehouse` answers with addresses the warehouse it created. */
  lemma KeyOfNatToString(n: nat)
    ensures KeyOf(NatToString(n)) == Some(n)
  {
    NatToStringRoundTrip(n);
    if n > 0 {
      NatToStringLeadingDigit(n);
    }
  }

  /** `last` is the key list an `orderByKey().limitToLast(1)` read yields: the
      greatest key, or nothing when there is no warehouse. */
  predicate LastOf(warehouses: map<nat, Warehouse>, last: seq<nat>)
  {
    && |last| <= 1
    && (last == [] <==> warehouses == map[])
    && (forall i :: 0 <= i < |last| ==> last[i] in warehouses)
    && (forall i, k :: 0 <= i < |last| && k in warehouses ==> k <= last[i])
  }

  /** The `forEach` over the last-key read: every child seen replaces the
      candidate by its key plus one. */
  method NextWarehouseId(last: seq<nat>) returns (id: nat)
    ensures last == [] ==> id == 1
    ensures last != [] ==> id == last[|last| - 1] + 1
  {
    id := 1;
    var i := 0;
    while i < |last|
      invariant 0 <= i <= |last|
      invariant i == 0 ==> id == 1
      invariant i > 0 ==> id == last[i - 1] + 1
    {
      id := last[i] + 1;
      i := i + 1;
    }
  }

  /** A roster given as an array, as the store keeps it: entries keyed by
      position, null and undefined entries dropped. */
  function RosterOf(ids: seq<Value>): (m: map<nat, Value>)
    ensures forall i: nat :: i in m <==> i < |ids| && IsStored(ids[i])
    ensures forall i :: i in m ==> i < |ids| && m[i] == ids[i]
  {
    map i: nat | i < |ids| && IsStored(ids[i]) :: ids[i]
  }

  /** The record `createWarehouse` stores. `picIds` and `userIds` are `None`
      when the body's field is falsy, so `[]` stands in. */
  function NewWarehouse(name: Value, description: Value, adminId: Value,
                        picIds: Option<seq<Value>>, userIds: Option<seq<Value>>, uid: string, now: int): Warehouse
    requires !name.Undefined? && !description.Undefined?
  {
    Warehouse(Stored(name), Stored(description),
              if Truthy(adminId) then map[0 := adminId] else map[],
              if picIds.Some? then RosterOf(picIds.value) else map[],
              if userIds.Some? then RosterOf(userIds.value) else map[],
              [], now, uid)
  }

  /** A new warehouse holds at most its one admin, exactly the non-null ids
      it was given, and no asset. */
  lemma NewWarehouseShape(name: Value, description: Value, adminId: Value,
                          picIds: Option<seq<Value>>, userIds: Option<seq<Value>>, uid: string, now: int)
    requires !name.Undefined? && !description.Undefined?
    ensures var w := NewWarehouse(name, description, adminId, picIds, userIds, uid, now);
      && w.WellFormed()
      && (Truthy(adminId) ==> w.admins == map[0 := adminId])
      && (!Truthy(adminId) ==> w.admins == map[])
      && (forall v :: v in w.pics.Values <==> picIds.Some? && v in picIds.value && IsStored(v))
      && (forall v :: v in w.users.Values <==> userIds.Some? && v in userIds.value && IsStored(v))
      && w.assets == [] && w.createdBy == uid
  {
    var w := NewWarehouse(name, description, adminId, picIds, userIds, uid, now);
    if picIds.Some? {
      RosterValues(picIds.value);
    }
    if userIds.Some? {
      RosterValues(userIds.value);
    }
  }

  lemma RosterValues(ids: seq<Value>)
    ensures forall v :: v in RosterOf(ids).Values <==> v in ids && IsStored(v)
  {
    var m := RosterOf(ids);
    forall v | v in ids && IsStored(v)
      ensures v in m.Values
    {
      var i :| 0 <= i < |ids| && ids[i] == v;
      assert i in m;
    }
  }

  /** `createWarehouse`. */
  method CreateWarehouse(db: Db, last: seq<nat>, name: Value, description: Value, adminId: Value,
                         picIds: Option<seq<Value>>, userIds: Option<seq<Value>>, uid: string, now: int)
    returns (status: int, id: nat)
    requires db.Valid() && LastOf(db.warehouses, last)
    modifies db
    ensures db.Valid()
    ensures db.assets == old(db.assets) && db.trackers == old(db.trackers)
    ensures db.mobileAssets == old(db.mobileAssets) && db.blobs == old(db.blobs)
    ensures status in {OK, SERVER_ERROR}
    ensures status == SERVER_ERROR <==> name.Undefined? || description.Undefined?
    ensures id !in old(db.warehouses)
    ensures forall k :: k in old(db.warehouses) ==> k < id
    ensures old(db.warehouses) == map[] ==> id == 1
    ensures status == SERVER_ERROR ==> db.warehouses == old(db.warehouses)
    ensures status == OK ==>
      db.warehouses == old(db.warehouses)[id := NewWarehouse(name, description, adminId, picIds, userIds, uid, now)]
  {
    id := NextWarehouseId(last);
    if name.Undefined? || description.Undefined? {
      // the store refuses an object with an undefined field and the handler answers 500
      return SERVER_ERROR, id;
    }
    NewWarehouseShape(name, description, adminId, picIds, userIds, uid, now);
    db.warehouses := db.warehouses[id := NewWarehouse(name, description, adminId, picIds, userIds, uid, now)];
    status := OK;
  }

  /** The multi-path update `assignUsersToWarehouse` builds, grouped by
      roster: the paths `/admins/<n>`, `/pics/<n>` and `/users/<n>` are the
      slot entries of the three maps. */
  datatype RosterUpdate = RosterUpdate(admins: map<nat, Value>, pics: map<nat, Value>, users: map<nat, Value>)

  /** One roster after the update: a slot the update names takes its value,
      or disappears when that value is null; every other slot is kept. */
  function MergeSlots(m: map<nat, Value>, u: map<nat, Value>): (m': map<nat, Value>)
    ensures forall k :: k in u && IsStored(u[k]) ==> k in m' && m'[k] == u[k]
    ensures forall k :: k in u && !IsStored(u[k]) ==> k !in m'
    ensures forall k :: k !in u ==> (k in m' <==> k in m) && (k in m ==> m'[k] == m[k])
  {
    map k | k in m.Keys + u.Keys && (k in u ==> IsStored(u[k])) :: if k in u then u[k] else m[k]
  }

  function ApplyUpdate(w: Warehouse, u: RosterUpdate): Warehouse
  {
    w.(admins := MergeSlots(w.admins, u.admins),
       pics := MergeSlots(w.pics, u.pics),
       users := MergeSlots(w.users, u.users))
  }

  /** What the loop over an id list leaves: every id targets the same slot,
      so the last one wins. */
  function LastSlot(slot: nat, ids: seq<Value>): map<nat, Value>
  {
    if ids == [] then map[] else map[slot := ids[|ids| - 1]]
  }

  /** The update dictionary of `assignUsersToWarehouse`, with each slot
      computed from the roster sizes read before the update. */
  function AssignUpdate(w: Warehouse, adminId: Value, picIds: Option<seq<Value>>, userIds: Option<seq<Value>>): RosterUpdate
  {
    RosterUpdate(
      if Truthy(adminId) then map[|w.admins| := adminId] else map[],
      if picIds.Some? then LastSlot(|w.pics|, picIds.value) else map[],
      if userIds.Some? then LastSlot(|w.users|, userIds.value) else map[])
  }

  function Assigned(w: Warehouse, adminId: Value, picIds: Option<seq<Value>>, userIds: Option<seq<Value>>): Warehouse
  {
    ApplyUpdate(w, AssignUpdate(w, adminId, picIds, userIds))
  }

  /** The loop over one id list: every id is written at the same slot. */
  method WriteAll(slot: nat, ids: seq<Value>) returns (u: map<nat, Value>)
    ensures u == LastSlot(slot, ids)
  {
    u := map[];
    var i := 0;
    while i < |ids|
      invariant 0 <= i <= |ids|
      invariant u == LastSlot(slot, ids[..i])
    {
      assert ids[..i + 1][i] == ids[i];
      u := u[slot := ids[i]];
      i := i + 1;
    }
    assert ids[..i] == ids;
  }

  /** The update dictionary as the handler fills it: the admin slot, then the
      pic loop, then the user loop. */
  method BuildAssignUpdate(w: Warehouse, adminId: Value, picIds: Option<seq<Value>>, userIds: Option<seq<Value>>)
    returns (updates: RosterUpdate)
    ensures updates == AssignUpdate(w, adminId, picIds, userIds)
  {
    var admins: map<nat, Value> := map[];
    if Truthy(adminId) {
      admins := admins[|w.admins| := adminId];
    }
    var pics: map<nat, Value> := map[];
    if picIds.Some? {
      pics := WriteAll(|w.pics|, picIds.value);
    }
    var users: map<nat, Value> := map[];
    if userIds.Some? {
      users := WriteAll(|w.users|, userIds.value);
    }
    updates := RosterUpdate(admins, pics, users);
  }

  /** One write of a warehouse record, as the store applies it. */
  method WriteWarehouse(db: Db, k: nat, w: Warehouse)
    requires db.Valid() && w.WellFormed()
    modifies db
    ensures db.Valid()
    ensures db.warehouses == old(db.warehouses)[k := w]
    ensures db.assets == old(db.assets) && db.trackers == old(db.trackers)
    ensures db.mobileAssets == old(db.mobileAssets) && db.blobs == old(db.blobs)
  {
    db.warehouses := db.warehouses[k := w];
  }

  /** `assignUsersToWarehouse`. `picIds` and `userIds` are `None` when the
      body's field is falsy. */
  method AssignUsersToWarehouse(db: Db, id: string, adminId: Value, picIds: Option<seq<Value>>, userIds: Option<seq<Value>>)
    returns (status: int)
    requires db.Valid()
    modifies db
    ensures db.Valid()
    ensures db.assets == old(db.assets) && db.trackers == old(db.trackers)
    ensures db.mobileAssets == old(db.mobileAssets) && db.blobs == old(db.blobs)
    ensures status in {OK, NOT_FOUND, SERVER_ERROR}
    ensures status == SERVER_ERROR <==> !ValidKey(id)
    ensures status == NOT_FOUND <==> ValidKey(id) && (KeyOf(id).None? || KeyOf(id).value !in old(db.warehouses))
    ensures status != OK ==> db.warehouses == old(db.warehouses)
    ensures status == OK ==>
      var k := KeyOf(id).value;
      db.warehouses == old(db.warehouses)[k := Assigned(old(db.warehouses)[k], adminId, picIds, userIds)]
  {
    if !ValidKey(id) {
      return SERVER_ERROR;
    }
    var key := KeyOf(id);
    if key.None? || key.value !in db.warehouses {
      return NOT_FOUND;
    }
    var w := db.warehouses[key.value];
    var updates := BuildAssignUpdate(w, adminId, picIds, userIds);
    AssignedWellFormed(w, adminId, picIds, userIds);
    WriteWarehouse(db, key.value, ApplyUpdate(w, updates));
    status := OK;
  }

  /** The value a single-slot merge leaves. */
  function SetSlot(m: map<nat, Value>, slot: nat, v: Value): map<nat, Value>
  {
    if IsStored(v) then m[slot := v] else m - {slot}
  }

  lemma MergeOneSlot(m: map<nat, Value>, u: map<nat, Value>, slot: nat)
    requires forall k :: k in u ==> k == slot
    ensures slot in u ==> MergeSlots(m, u) == SetSlot(m, slot, u[slot])
    ensures slot !in u ==> MergeSlots(m, u) == m
  {
  }

  /** Each roster changes at one slot at most: the admin count as it was
      before the update, and likewise for the pics and the users, where the
      last id of the list is the one written. Everything else is kept. */
  lemma AssignedRosters(w: Warehouse, adminId: Value, picIds: Option<seq<Value>>, userIds: Option<seq<Value>>)
    ensures var a := Assigned(w, adminId, picIds, userIds);
      && a.admins == (if Truthy(adminId) then w.admins[|w.admins| := adminId] else w.admins)
      && a.pics == (if picIds.Some? && picIds.value != [] then SetSlot(w.pics, |w.pics|, picIds.value[|picIds.value| - 1]) else w.pics)
      && a.users == (if userIds.Some? && userIds.value != [] then SetSlot(w.users, |w.users|, userIds.value[|userIds.value| - 1]) else w.users)
      && a.name == w.name && a.description == w.description && a.assets == w.assets
      && a.createdAt == w.createdAt && a.createdBy == w.createdBy
  {
    AssignedAdmins(w, adminId, picIds, userIds);
    AssignedSlot(w.pics, picIds);
    AssignedSlot(w.users, userIds);
  }

  lemma AssignedAdmins(w: Warehouse, adminId: Value, picIds: Option<seq<Value>>, userIds: Option<seq<Value>>)
    ensures Assigned(w, adminId, picIds, userIds).admins ==
      (if Truthy(adminId) then w.admins[|w.admins| := adminId] else w.admins)
  {
    var u := if Truthy(adminId) then map[|w.admins| := adminId] else map[];
    assert Assigned(w, adminId, picIds, userIds).admins == MergeSlots(w.admins, u);
    MergeOneSlot(w.admins, u, |w.admins|);
  }

  /** The pic or user roster after the loop over its id list. */
  lemma AssignedSlot(m: map<nat, Value>, ids: Option<seq<Value>>)
    ensures MergeSlots(m, if ids.Some? then LastSlot(|m|, ids.value) else map[]) ==
      (if ids.Some? && ids.value != [] then SetSlot(m, |m|, ids.value[|ids.value| - 1]) else m)
  {
    var u := if ids.Some? then LastSlot(|m|, ids.value) else map[];
    MergeOneSlot(m, u, |m|);
  }

  lemma AssignedWellFormed(w: Warehouse, adminId: Value, picIds: Option<seq<Value>>, userIds: Option<seq<Value>>)
    requires w.WellFormed()
    ensures Assigned(w, adminId, picIds, userIds).WellFormed()
  {
    AssignedRosters(w, adminId, picIds, userIds);
  }

  /** Only the last of several pic ids survives: the roster gains at most one
      entry, and every value it holds was there before or is that last id. */
  lemma OnlyLastPicSurvives(w: Warehouse, adminId: Value, picIds: seq<Value>, userIds: Option<seq<Value>>)
    requires picIds != []
    ensures var pics := Assigned(w, adminId, Some(picIds), userIds).pics;
      && |pics| <= |w.pics| + 1
      && forall v :: v in pics.Values ==> v in w.pics.Values || v == picIds[|picIds| - 1]
  {
    AssignedRosters(w, adminId, Some(picIds), userIds);
    var last := picIds[|picIds| - 1];
    var pics := Assigned(w, adminId, Some(picIds), userIds).pics;
    forall v | v in pics.Values
      ensures v in w.pics.Values || v == last
    {
      var k :| k in pics && pics[k] == v;
      if k != |w.pics| {
        assert k in w.pics && w.pics[k] == v;
      }
    }
  }

  /** Two pic ids given to a warehouse without pics: the first is lost. */
  lemma FirstPicLost(w: Warehouse, p: string, q: string)
    requires w.pics == map[] && p != q
    ensures Assigned(w, Undefined, Some([Str(p), Str(q)]), None).pics == map[0 := Str(q)]
    ensures Str(p) !in Assigned(w, Undefined, Some([Str(p), Str(q)]), None).pics.Values
  {
    AssignedRosters(w, Undefined, Some([Str(p), Str(q)]), None);
  }

  /** The slots of a roster without gaps are 0 .. count - 1. */
  ghost predicate Dense(m: map<nat, Value>)
  {
    forall k: nat :: k in m <==> k < |m|
  }

  /** On a roster without gaps an admin is appended; on a roster with a gap
      (an entry once removed) the admin count names a slot that may still be
      taken, and that entry is overwritten. */
  lemma AdminAppended(w: Warehouse, adminId: Value, picIds: Option<seq<Value>>, userIds: Option<seq<Value>>)
    requires Truthy(adminId) && Dense(w.admins)
    ensures var admins := Assigned(w, adminId, picIds, userIds).admins;
      && Dense(admins) && |admins| == |w.admins| + 1
      && admins[|w.admins|] == adminId
      && forall k :: k in w.admins ==> k in admins && admins[k] == w.admins[k]
  {
    AssignedAdmins(w, adminId, picIds, userIds);
    var n := |w.admins|;
    assert n !in w.admins;
    var admins := w.admins[n := adminId];
    assert |admins| == n + 1;
    forall k: nat
      ensures k in admins <==> k < |admins|
    {
      assert k in admins <==> k in w.admins || k == n;
    }
  }

  /** The slots an id list would take if each id were appended in turn:
      the i-th id at the roster's size plus i. */
  function Appended(slot: nat, ids: seq<Value>): (u: map<nat, Value>)
    ensures forall k :: k in u <==> slot <= k < slot + |ids|
    ensures forall k :: k in u ==> u[k] == ids[k - slot]
    decreases |ids|
  {
    if ids == [] then map[]
    else
      var init := ids[..|ids| - 1];
      assert forall i :: 0 <= i < |init| ==> init[i] == ids[i];
      Appended(slot, init)[slot + |init| := ids[|init|]]
  }

  /** The roster loop as intended: the slot advances with every id written. */
  method AppendAll(slot: nat, ids: seq<Value>) returns (u: map<nat, Value>)
    ensures u == Appended(slot, ids)
  {
    u := map[];
    var i := 0;
    while i < |ids|
      invariant 0 <= i <= |ids|
      invariant u == Appended(slot, ids[..i])
    {
      assert ids[..i + 1][..i] == ids[..i];
      u := u[slot + i := ids[i]];
      i := i + 1;
    }
    assert ids[..i] == ids;
  }

  /** One roster after the intended loop over `ids`, starting at `slot`
      (the roster's size), merged into it. */
  function AppendRoster(m: map<nat, Value>, slot: nat, ids: Option<seq<Value>>): map<nat, Value>
  {
    if ids.Some? then MergeSlots(m, Appended(slot, ids.value)) else m
  }

  /** `assignUsersToWarehouse` as intended: the admin as written, and every
      pic and user id appended. */
  function AssignedIntended(w: Warehouse, adminId: Value, picIds: Option<seq<Value>>, userIds: Option<seq<Value>>): Warehouse
  {
    w.(admins := MergeSlots(w.admins, if Truthy(adminId) then map[|w.admins| := adminId] else map[]),
       pics := AppendRoster(w.pics, |w.pics|, picIds),
       users := AppendRoster(w.users, |w.users|, userIds))
  }

  /** With the intended loop, every id given to a roster without gaps is
      kept, after the existing entries and in the order given, and the
      roster still has no gaps. */
  lemma EveryIdAppendedIntended(m: map<nat, Value>, n: nat, ids: seq<Value>)
    requires forall k: nat :: k in m <==> k < n
    requires forall i :: 0 <= i < |ids| ==> IsStored(ids[i])
    ensures var r := AppendRoster(m, n, Some(ids));
      && (forall k: nat :: k in r <==> k < n + |ids|)
      && (forall k :: n <= k < n + |ids| ==> r[k] == ids[k - n])
      && (forall k :: k in m ==> r[k] == m[k])
  {
    forall k: nat
      ensures k in AppendRoster(m, n, Some(ids)) <==> k < n + |ids|
    {
      AppendedMergeAt(m, n, ids, k);
    }
  }

  lemma AppendedMergeAt(m: map<nat, Value>, n: nat, ids: seq<Value>, k: nat)
    requires k in m <==> k < n
    requires forall i :: 0 <= i < |ids| ==> IsStored(ids[i])
    ensures k in MergeSlots(m, Appended(n, ids)) <==> k < n + |ids|
  {
    var u := Appended(n, ids);
    var r := MergeSlots(m, u);
    if k in u {
      assert u[k] == ids[k - n];
      assert IsStored(u[k]);
      assert k in r;
    } else {
      assert k in r <==> k in m;
    }
  }

  /** Two pic ids given to a warehouse without pics: with the intended
      loop both are kept, the first at slot 0 and the second at slot 1. */
  lemma BothPicsKeptIntended(w: Warehouse, p: string, q: string)
    requires w.pics == map[]
    ensures AssignedIntended(w, Undefined, Some([Str(p), Str(q)]), None).pics == map[0 := Str(p), 1 := Str(q)]
  {
    EveryIdAppendedIntended(w.pics, 0, [Str(p), Str(q)]);
    var r := AssignedIntended(w, Undefined, Some([Str(p), Str(q)]), None).pics;
    assert r.Keys == {0, 1} by {
      forall k: nat ensures k in r <==> k in {0, 1} { }
    }
  }

  /** What the read of `tracker/<trackerId>` yields: nothing (`tracker:
      null`), one tracker, or, for an empty id, the whole collection. */
  datatype TrackerRead = NoTracker | OneTracker(record: Record) | AllTrackers(collection: map<string, Record>)

  /** A tracked asset of a warehouse listing: the asset record with what the
      read of its tracker yields. */
  datatype AssetWithTracker = AssetWithTracker(asset: Record, tracker: TrackerRead)

  function ReadTracker(trackers: map<string, Record>, k: string): TrackerRead
  {
    if k == "" then (if trackers == map[] then NoTracker else AllTrackers(trackers))
    else if k in trackers then OneTracker(trackers[k]) else NoTracker
  }

  function TrackerOf(asset: Record, trackers: map<string, Record>): TrackerRead
  {
    ReadTracker(trackers, JsString(Get(asset, "trackerId")))
  }

  /** The listing pairs an asset with a tracker exactly when `addAsset`'s
      existence check on its tracker id passes; an empty id yields the whole
      collection, and any other id the tracker stored under it. */
  lemma TrackerOfMatchesExistenceCheck(asset: Record, trackers: map<string, Record>)
    ensures TrackerOf(asset, trackers).NoTracker? <==> !TrackerExists(trackers, Get(asset, "trackerId"))
    ensures var k := JsString(Get(asset, "trackerId"));
      && (k == "" && trackers != map[] ==> TrackerOf(asset, trackers) == AllTrackers(trackers))
      && (k != "" && k in trackers ==> TrackerOf(asset, trackers) == OneTracker(trackers[k]))
  {
  }

  /** The listing of `listWarehouseAssets`: ids without an asset record are
      dropped, the others kept in roster order, each joined with its tracker. */
  function JoinAssets(ids: seq<Value>, assets: map<string, Record>, trackers: map<string, Record>): seq<AssetWithTracker>
  {
    if ids == [] then []
    else
      var key := JsString(ids[|ids| - 1]);
      JoinAssets(ids[..|ids| - 1], assets, trackers)
        + (if key in assets then [AssetWithTracker(assets[key], TrackerOf(assets[key], trackers))] else [])
  }

  /** An entry is listed iff some id of the roster names an existing asset
      and the entry is that asset with its tracker. */
  lemma {:induction false} JoinAssetsMembership(ids: seq<Value>, assets: map<string, Record>, trackers: map<string, Record>, x: AssetWithTracker)
    ensures x in JoinAssets(ids, assets, trackers) <==>
      exists i :: 0 <= i < |ids| && JsString(ids[i]) in assets
        && x == AssetWithTracker(assets[JsString(ids[i])], TrackerOf(assets[JsString(ids[i])], trackers))
  {
    if ids != [] {
      var init := ids[..|ids| - 1];
      JoinAssetsMembership(init, assets, trackers, x);
      assert forall i :: 0 <= i < |init| ==> init[i] == ids[i];
    }
  }

  /** When every id names an asset, the listing has one entry per id, in
      roster order. */
  lemma {:induction false} JoinAssetsAllPresent(ids: seq<Value>, assets: map<string, Record>, trackers: map<string, Record>)
    requires forall i :: 0 <= i < |ids| ==> JsString(ids[i]) in assets
    ensures |JoinAssets(ids, assets, trackers)| == |ids|
    ensures forall i :: 0 <= i < |ids| ==>
      JoinAssets(ids, assets, trackers)[i].asset == assets[JsString(ids[i])]
  {
    if ids != [] {
      var init := ids[..|ids| - 1];
      JoinAssetsAllPresent(init, assets, trackers);
      var key := JsString(ids[|ids| - 1]);
      assert JoinAssets(ids, assets, trackers)
        == JoinAssets(init, assets, trackers) + [AssetWithTracker(assets[key], TrackerOf(assets[key], trackers))];
      assert forall i :: 0 <= i < |init| ==> init[i] == ids[i];
    }
  }

  lemma {:induction false} JoinAssetsLength(ids: seq<Value>, assets: map<string, Record>, trackers: map<string, Record>)
    ensures |JoinAssets(ids, assets, trackers)| <= |ids|
  {
    if ids != [] {
      JoinAssetsLength(ids[..|ids| - 1], assets, trackers);
    }
  }

  /** The per-asset reads of `listWarehouseAssets`. The reads change nothing,
      so their concurrent issue does not matter; the results are kept in
      roster order, as `Promise.all` keeps them. */
  method CollectAssets(db: Db, ids: seq<Value>) returns (result: seq<AssetWithTracker>)
    ensures result == JoinAssets(ids, db.assets, db.trackers)
  {
    result := [];
    var i := 0;
    while i < |ids|
      invariant 0 <= i <= |ids|
      invariant result == JoinAssets(ids[..i], db.assets, db.trackers)
    {
      assert ids[..i + 1][..i] == ids[..i];
      var key := JsString(ids[i]);
      if key in db.assets {
        var asset := db.assets[key];
        var tracker := ReadTracker(db.trackers, JsString(Get(asset, "trackerId")));
        result := result + [AssetWithTracker(asset, tracker)];
      }
      i := i + 1;
    }
    assert ids[..i] == ids;
  }

  /** `listWarehouseAssets` as written. The store keeps no empty array, so a
      warehouse without assets has no `assets` field, and mapping over it
      throws: such a warehouse is answered with 500, as is an id the store
      refuses. */
  method ListWarehouseAssets(db: Db, id: string) returns (status: int, result: seq<AssetWithTracker>)
    ensures status in {OK, NOT_FOUND, SERVER_ERROR}
    ensures status == NOT_FOUND <==> ValidKey(id) && (KeyOf(id).None? || KeyOf(id).value !in db.warehouses)
    ensures status == SERVER_ERROR <==>
      || !ValidKey(id)
      || (KeyOf(id).Some? && KeyOf(id).value in db.warehouses && db.warehouses[KeyOf(id).value].assets == [])
    ensures status == OK ==> result == JoinAssets(db.warehouses[KeyOf(id).value].assets, db.assets, db.trackers)
    ensures status != OK ==> result == []
  {
    if !ValidKey(id) {
      return SERVER_ERROR, [];
    }
    var key := KeyOf(id);
    if key.None? || key.value !in db.warehouses {
      return NOT_FOUND, [];
    }
    var w := db.warehouses[key.value];
    if w.assets == [] {
      return SERVER_ERROR, [];
    }
    result := CollectAssets(db, w.assets);
    status := OK;
  }

  /** Every warehouse `createWarehouse` makes starts without assets, and no
      operation of the service adds one, so listing its assets fails. */
  lemma NewWarehouseHasNoAssets(name: Value, description: Value, adminId: Value,
                                picIds: Option<seq<Value>>, userIds: Option<seq<Value>>, uid: string, now: int,
                                a: Value, p: Option<seq<Value>>, u: Option<seq<Value>>)
    requires !name.Undefined? && !description.Undefined?
    ensures NewWarehouse(name, description, adminId, picIds, userIds, uid, now).assets == []
    ensures Assigned(NewWarehouse(name, description, adminId, picIds, userIds, uid, now), a, p, u).assets == []
  {
    AssignedRosters(NewWarehouse(name, description, adminId, picIds, userIds, uid, now), a, p, u);
  }

  /** `listWarehouseAssets` as intended: an existing warehouse without assets
      lists none. */
  method ListWarehouseAssetsIntended(db: Db, id: string) returns (status: int, result: seq<AssetWithTracker>)
    ensures status in {OK, NOT_FOUND, SERVER_ERROR}
    ensures status == SERVER_ERROR <==> !ValidKey(id)
    ensures status == NOT_FOUND <==> ValidKey(id) && (KeyOf(id).None? || KeyOf(id).value !in db.warehouses)
    ensures status == OK ==> result == JoinAssets(db.warehouses[KeyOf(id).value].assets, db.assets, db.trackers)
    ensures status == OK && db.warehouses[KeyOf(id).value].assets == [] ==> result == []
    ensures status != OK ==> result == []
  {
    if !ValidKey(id) {
      return SERVER_ERROR, [];
    }
    var key := KeyOf(id);
    if key.None? || key.value !in db.warehouses {
      return NOT_FOUND, [];
    }
    result := CollectAssets(db, db.warehouses[key.value].assets);
    status := OK;
  }

  /** One element of the warehouse listing: `{ id, ...warehouse }`. */
  datatype Listed = Listed(id: string, warehouse: Warehouse)

  /** `entries` is `Object.entries` of the collection's value. The store hands
      a collection with numeric keys back as an array, whose missing indexes
      read as null (`None`): each present entry is the warehouse stored under
      its index, and every warehouse appears. */
  predicate EntriesOf(warehouses: map<nat, Warehouse>, entries: seq<(nat, Option<Warehouse>)>)
  {
    && (forall i :: 0 <= i < |entries| && entries[i].1.Some? ==>
          entries[i].0 in warehouses && entries[i].1.value == warehouses[entries[i].0])
    && (forall k :: k in warehouses ==> exists i :: 0 <= i < |entries| && entries[i] == (k, Some(warehouses[k])))
  }

  /** `listWarehouses`: null entries dropped, each other one tagged with its
      key, which `Object.entries` renders in decimal. */
  function ListWarehouses(entries: seq<(nat, Option<Warehouse>)>): (r: seq<Listed>)
    ensures |r| <= |entries|
    ensures (forall i :: 0 <= i < |entries| ==> entries[i].1.Some?) ==> |r| == |entries|
    ensures (forall i :: 0 <= i < |entries| ==> entries[i].1.None?) ==> r == []
  {
    if entries == [] then []
    else
      var (id, w) := entries[|entries| - 1];
      ListWarehouses(entries[..|entries| - 1]) + (if w.Some? then [Listed(NatToString(id), w.value)] else [])
  }

  lemma {:induction false} ListWarehousesMembership(entries: seq<(nat, Option<Warehouse>)>, x: Listed)
    ensures x in ListWarehouses(entries) <==>
      exists i :: 0 <= i < |entries| && entries[i].1.Some? && x == Listed(NatToString(entries[i].0), entries[i].1.value)
  {
    if entries != [] {
      var init := entries[..|entries| - 1];
      ListWarehousesMembership(init, x);
      assert forall i :: 0 <= i < |init| ==> init[i] == entries[i];
    }
  }

  /** The listing holds exactly the stored warehouses, each under its id. */
  lemma ListWarehousesComplete(warehouses: map<nat, Warehouse>, entries: seq<(nat, Option<Warehouse>)>, x: Listed)
    requires EntriesOf(warehouses, entries)
    ensures x in ListWarehouses(entries) <==>
      exists k :: k in warehouses && x == Listed(NatToString(k), warehouses[k])
  {
    ListWarehousesMembership(entries, x);
    if x in ListWarehouses(entries) {
      var i :| 0 <= i < |entries| && entries[i].1.Some? && x == Listed(NatToString(entries[i].0), entries[i].1.value);
      assert entries[i].0 in warehouses;
    }
    if exists k :: k in warehouses && x == Listed(NatToString(k), warehouses[k]) {
      var k :| k in warehouses && x == Listed(NatToString(k), warehouses[k]);
      var i :| 0 <= i < |entries| && entries[i] == (k, Some(warehouses[k]));
      assert entries[i].1.Some?;
    }
  }

  /** An empty collection lists nothing, as the handler's early answer does. */
  lemma {:induction false} ListWarehousesEmpty(entries: seq<(nat, Option<Warehouse>)>)
    requires EntriesOf(map[], entries)
    ensures ListWarehouses(entries) == []
  {
    if entries != [] {
      var init := entries[..|entries| - 1];
      assert EntriesOf(map[], init) by {
        assert forall i :: 0 <= i < |init| ==> init[i] == entries[i];
      }
      ListWarehousesEmpty(init);
    }
  }
}
