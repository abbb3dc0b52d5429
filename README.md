# Asset and tracker backend: per-record business rules in Dafny

This project models the business rules of an Express/Firebase backend that
tracks assets and the trackers that carry them. The rules covered are:

- the straight-line depreciation that values an asset;
- the approval and edit-grant gates that decide who may change a record:
  - the main asset service is role-based ('Admin' always; 'PIC' only while
    holding a one-time `editApproved` grant);
  - the main tracker service is flag-based;
  - the Tracky tracker and mobile-asset services lock a record for good once
    it is approved;
  - the Tracky asset service has no gate at all;
- warehouse roster bookkeeping;
- the two authentication middlewares (`authenticateJWT` and
  `authorizeRole`) and the role tables the routers give them.

The Realtime Database is modelled as a sequential in-memory store: the class
`Store.Db` holds one `map<string, Record>` per collection (a record is a
field-to-value map), the warehouses, and the set of blob URLs in file
storage. Service operations are methods that `modify` the store:

- Firebase `set` replaces a record and drops its null fields
  (`Store.Document`). The store refuses an object with an undefined field:
  the call throws, nothing is written, and every create handler answers
  500 when its body lacks a field it copies (`Store.Writable`).
- Firebase `update` merges field by field: a null field removes that field
  (`Store.Merge`). On an absent path it creates the record (`Store.Upsert`).
- `ref` and `update` throw on a path segment holding `.`, `#`, `$`, `[`, `]`
  or a control character (`Store.ValidKey`). Inside a `try` the handler
  answers that with 500 and writes nothing. Every collection holds only
  valid, non-empty keys.
- A read of `tracker/` with an empty id reads the whole collection
  (`Store.TrackerExists`, `WarehouseService.ReadTracker`).
- Every operation returns the HTTP status the handler answers with
  (200/400/401/403/404/500).

JavaScript values (`Json.Value`) keep the distinctions the code relies on:
truthiness for `if (x)` and `x || y`, `String(x)` for the `approved` query
filter, and `parseFloat` / `Number` for the price arithmetic. Prices use
`real`.

Inputs the code obtains from the outside world are parameters of the model:

- the wall clock and the elapsed milliseconds since purchase;
- push keys;
- the QR-code generator's result;
- upload results, and whether each blob deletion succeeds;
- `jwt.verify`, as a function from token to optional claims;
- the key order of a collection read (a snapshot sequence tied to the map by
  `Store.SnapshotOf`).

The model follows the code in these details:

- `updateLocation` overwrites one position. It keeps no location history
  and sets no `mobile` flag.
- `approveEdit` grants a one-time edit window and applies nothing. No
  change is staged for approval.
- The QR code encodes the asset name, not an image URL.
- The roles are 'Admin', 'PIC', 'User' and their lower-case variants.
- `approveEdit` does not need a pending request.
- `requestEdit` does not need an approved record.

## Model

| member | source | states |
|---|---|---|
| `Store.Document` | services/trackerService.js:13-25 | a `set` of an object without undefined fields keeps exactly its non-null fields, with their values |
| `Store.Merge` | services/trackerService.js:63 | an `update` gives named fields the patch's value, removes the fields the patch nulls, and leaves every unnamed field as it was |
| `Store.MergeCompose` | services/trackerService.js:63-72 | two successive updates equal one update with the later patch winning |
| `Store.Upsert` | services/trackerService.js:113-117 | an update on an id changes no other id; the id ends up holding the merge of its old record (or of nothing) and the patch, and disappears only if that merge is empty |
| `Store.FractionIsNoKey` | services/trackerService.js:12 | `String(x)` of a number with a fractional part holds a `.`, so `ref` refuses such an id |
| `Store.DigitsAreValidKey` | services/warehouseService.js:33-37 | a decimal numeral, such as a warehouse id, holds none of `.`, `#`, `$`, `[`, `]` or a control character, so the store accepts it as a path segment |
| `Store.TrackedFieldsWritable` | services/trackerService.js:5-25 | the store accepts the object `createTracker` builds iff the body holds all seven tracking fields |
| `Store.TrackedDocument` | services/trackerService.js:13-25 | a created tracker or mobile asset has `approved=false`, `createdBy=uid`, each tracking field as the body gives it (absent when null), and nothing else |
| `Store.ApprovedFilterMembership` | services/trackerService.js:97-101 | a record is in the `approved` listing iff some child matches `String(approved) === q` (or there is no parameter) and the entry is that child tagged with its key |
| `Store.ApprovedFilterUnfiltered` | services/trackerService.js:99-100 | with no parameter the listing is every child, in store order, each tagged with its key |
| `Store.ApprovedFilterAppend` | services/trackerService.js:97-102 | filtering distributes over concatenation, so the listing keeps snapshot order |
| `Store.CollectApproved` | services/trackerService.js:96-102 | the `forEach` push loop yields exactly the filtered listing |
| `Json.OrFallsBackOnFalsy` | services/assetService.js:111-115 | `a || b` is falsy iff both a and b are |
| `Json.JsStringOfBool` | services/trackerService.js:99 | `String(b) === q` holds iff b is true and q is "true", or b is false and q is "false" |
| `Json.ParseFloatRejectsWords` | services/assetService.js:76-79 | a depreciation value with no digit is NaN to `parseFloat` |
| `Json.ParseFloatReadsNatToString` | services/assetService.js:76 | `parseFloat` reads back the decimal rendering of every whole number |
| `AssetService.ElapsedDays` | services/assetService.js:55-56 | elapsed days are the ceiling of the absolute milliseconds over 86400000: zero iff no time elapsed, otherwise the least whole number of days covering the elapsed time |
| `AssetService.PeriodDays` | services/assetService.js:59-73 | the divisor is 7, 30 or 365 exactly for 'weekly', 'monthly' and 'yearly', and 1 for every other rate |
| `AssetService.Periods` | services/assetService.js:56-73 | the period count is non-negative and zero iff no time elapsed |
| `AssetService.Max0` | services/assetService.js:82 | `Math.max(x, 0)`: a negative x gives 0, any other x is kept |
| `AssetService.Decay` | services/assetService.js:81-82 | the decayed price is never negative |
| `AssetService.PriceAfter` | services/assetService.js:76-82 | throws iff `parseFloat` fails; NaN iff the price is not a number; otherwise a non-negative price |
| `AssetService.CurrentPrice` | services/assetService.js:52-83 | `calculateCurrentPrice` with elapsed time as input: the same three outcomes as PriceAfter, never a negative price |
| `AssetService.NoDecayWithoutElapsedTime` | services/assetService.js:55-82 | with zero elapsed time a non-negative original price is returned unchanged |
| `AssetService.StraightLineDecay` | services/assetService.js:56-82 | after n whole periods the price is max(p − p·v/100·n, 0) |
| `AssetService.DirectionDoesNotMatter` | services/assetService.js:55 | a future purchase date decays exactly like a past one equally far away |
| `AssetService.PriceAfterNonIncreasing` | services/assetService.js:81-82 | for p, v ≥ 0, more periods never leave more value, and the value never exceeds p |
| `AssetService.PriceNonIncreasing` | services/assetService.js:52-83 | for p, v ≥ 0 the price never rises as elapsed time grows and stays in [0, p] |
| `AssetService.PartialPeriodDecay` | services/assetService.js:55-82 | anywhere within the k-th day since purchase, the price has lost k / PeriodDays periods' worth: partial days round up and periods may be fractional |
| `AssetService.OneMillisecondCostsADay` | services/assetService.js:55-82 | one millisecond after purchase, 100 at 1% daily is worth 99 |
| `AssetService.TenDaysAtWeeklyRate` | services/assetService.js:59-82 | ten days at 7% weekly are 10/7 periods: 700 is worth 630 |
| `AssetService.TwoYearsAtTenPercent` | services/assetService.js:52-83 | 1000 at 10% yearly after 730 days is worth 800 |
| `AssetService.NewAssetDefaults` | services/assetService.js:108-122 | a new asset is unapproved with no grant, has `createdBy=uid`, the computed price and the QR code, and defaults a falsy price to 0, rate to 'daily' and value to 0 |
| `AssetService.NewAssetWritable` | services/assetService.js:86-125 | every valuation field has a default, so the store refuses the new asset iff the name, description or tracker id is absent (or the image URL undefined) |
| `AssetService.AddAsset` | services/assetService.js:85-132 | 400 with no write iff the name is not a non-empty string, or the tracker id is a valid key naming no tracker (an empty id names the whole collection); no response and no write iff the name is valid but the tracker id is not a valid key; 200 iff, in addition, QR, upload and price succeed and the body holds a description and a tracker id, storing the new record under the push key; any other outcome is 500 with no record written |
| `AssetService.SecondGateSubsumed` | services/assetService.js:201-209 | the second PIC check can never fire once the first has passed; refusal iff neither 'Admin' nor a granted 'PIC' |
| `AssetService.FalsyUpdateFallsBack` | services/assetService.js:222-227 | a 0 price in the update does not override the stored one in the recomputation |
| `AssetService.UpdateOverwritesPrice` | services/assetService.js:222-238 | after a permitted update the stored price is the recomputed one whatever the caller sent, and unnamed fields are untouched |
| `AssetService.UpdateConsumesGrant` | services/assetService.js:231-238 | a grant-holding asset leaves the update with `editApproved=false`, no `editApprovedAt`/`By`, and a PIC refused |
| `AssetService.SwapImage` | services/assetService.js:211-220 | a new upload is added to storage and the old image removed only when its best-effort deletion succeeds |
| `AssetService.BuildUpdatePatch` | services/assetService.js:213-236 | the in-place amendments of the body yield the image, price, stamp and grant-reset patch |
| `AssetService.UpdateAsset` | services/assetService.js:186-244 | an id that is not a valid key (`Store.ValidKey`) is 500 with no write; otherwise 404 iff absent; 403 with no write iff not `MayUpdate`; 200 iff permitted, the upload and price succeed and every field name is a valid key, merging the patch; storage changes only after the gate |
| `AssetService.BlobIf` | services/assetService.js:259-264 | a best-effort deletion removes at most the one URL |
| `AssetService.DeleteAsset` | services/assetService.js:246-271 | an invalid key or an absent asset is answered 500 with nothing changed; otherwise the record is removed first and blob deletion failures never fail the call |
| `AssetService.RequestEdit` | services/assetService.js:273-300 | an invalid key or an absent asset is 500; a role other than 'PIC' is 403 with no write; a PIC's request is merged whatever the approval state |
| `AssetService.ApproveEditGrants` | services/assetService.js:318-325 | approval grants a PIC the update and clears the request fields, with or without a pending request |
| `AssetService.OneShotGrant` | services/assetService.js:202-325 | after an approval one PIC update is allowed, and the update it permits leaves the next PIC update refused |
| `AssetService.ApproveEdit` | services/assetService.js:302-332 | an invalid key or an absent asset is 500; any role but exactly 'admin' is 403 with no write; otherwise the grant patch is merged |
| `TrackerService.CreateTracker` | services/trackerService.js:4-31 | 400 with no write iff `tracker_id` is falsy; 500 with no write iff it is truthy but not a valid key, or a tracking field is absent; otherwise the record under that id is replaced whatever was there |
| `TrackerService.CreatedTrackerIsFresh` | services/trackerService.js:12-25 | a created tracker is unapproved, carries the creator, and has no grant or request |
| `TrackerService.UpdateTracker` | services/trackerService.js:48-77 | an id that is not a valid key (`Store.ValidKey`) is 500 with no write; otherwise 404 iff absent; 403 with no write iff `approved && !editApproved`; 500 with no write iff a field name is not a valid key; otherwise the fields plus stamp are merged, then the grant cleared if there was one |
| `TrackerService.UpdateTouchesOnlyNamedFields` | services/trackerService.js:62-72 | a permitted update changes only the named fields, the stamp and the grant fields |
| `TrackerService.UpdateConsumesGrant` | services/trackerService.js:66-72 | a granted update leaves `editApproved=false` even if the caller set it, so an approved tracker is locked again |
| `TrackerService.TwoWritesAreOne` | services/trackerService.js:62-72 | the two writes equal one merge whose reset overrides the caller's fields |
| `TrackerService.RequestEdit` | services/trackerService.js:110-123 | no existence or role check: 500 with no write iff the id is not a valid key, otherwise the request fields are upserted and 200 returned |
| `TrackerService.ApproveEdit` | services/trackerService.js:125-139 | no pending request needed: 500 with no write iff the id is not a valid key, otherwise the grant fields are upserted and 200 returned |
| `TrackerService.ApproveEditUnlocks` | services/trackerService.js:128-133 | approval unlocks the tracker and sets `editRequested=false`, keeping who asked and when |
| `TrackerService.UpdateLocation` | services/trackerService.js:141-168 | 400 iff a coordinate is undefined; then 500 with no write iff the id is not a valid key; 404 iff absent; otherwise only the position, timestamp and `updatedAt` are overwritten |
| `TrackerService.LocationKeepsOtherFields` | services/trackerService.js:155-162 | a location update keeps every other field and the lock state, whatever the approval |
| `TrackerService.QueryTracker` | services/trackerService.js:91-108 | the query returns exactly the `approved`-filtered listing in store order |
| `WarehouseService.NextWarehouseId` | services/warehouseService.js:13-18 | the id is 1 when there is no warehouse, else the last key + 1 |
| `WarehouseService.KeyOfNatToString` | services/warehouseService.js:33-37 | the id answered addresses the warehouse stored under it |
| `WarehouseService.CanonicalIdIsValidKey` | services/warehouseService.js:49 | every route id that names a warehouse key is accepted by `ref` |
| `WarehouseService.RosterOf` | services/warehouseService.js:25-26 | a stored array keeps each non-null id at its index |
| `WarehouseService.NewWarehouseShape` | services/warehouseService.js:21-30 | admins are `[adminId]` or empty; pics and users hold exactly the non-null ids given; no assets; creator recorded |
| `WarehouseService.CreateWarehouse` | services/warehouseService.js:5-42 | 500 with no write iff the name or description is absent; otherwise a fresh id above every existing key (1 when empty) gets the new warehouse; nothing else changes |
| `WarehouseService.MergeSlots` | services/warehouseService.js:70 | the multi-path update sets named slots, removes nulled slots and keeps the rest |
| `WarehouseService.WriteAll` | services/warehouseService.js:59-68 | the id loop with the slot fixed leaves only the last id at that slot |
| `WarehouseService.BuildAssignUpdate` | services/warehouseService.js:55-68 | the filled dictionary has the admin slot and the last pic and user at the pre-update counts |
| `WarehouseService.AssignUsersToWarehouse` | services/warehouseService.js:44-77 | an id that is not a valid key (`Store.ValidKey`) is 500 with no write; otherwise 404 with no write iff no such warehouse, and else the slot update is merged |
| `WarehouseService.AssignedRosters` | services/warehouseService.js:55-70 | each roster changes at most at its pre-update count slot; name, description, assets and creator are kept |
| `WarehouseService.AdminAppended` | services/warehouseService.js:56-58 | on a gapless admin roster the admin is appended once and existing admins are kept |
| `WarehouseService.OnlyLastPicSurvives` | services/warehouseService.js:59-63 | the pic roster gains at most one entry, which is the last pic id |
| `WarehouseService.FirstPicLost` | services/warehouseService.js:59-63 | two pic ids on a warehouse with no pics leave only the second |
| `WarehouseService.Appended` | services/warehouseService.js:59-68 | intended loop result: the i-th id at slot + i, and no other slot |
| `WarehouseService.AppendAll` | services/warehouseService.js:59-68 | the intended loop, with the slot advancing, yields Appended |
| `WarehouseService.EveryIdAppendedIntended` | services/warehouseService.js:59-70 | intended: every id is kept after the existing entries, in order, with no gaps |
| `WarehouseService.BothPicsKeptIntended` | services/warehouseService.js:59-63 | intended: two pic ids on a warehouse with no pics occupy slots 0 and 1 |
| `WarehouseService.TrackerOfMatchesExistenceCheck` | services/warehouseService.js:95-97 | an asset is listed with no tracker iff `addAsset`'s existence check on its tracker id fails; an empty tracker id yields the whole collection, any other id the tracker stored under it |
| `WarehouseService.JoinAssetsMembership` | services/warehouseService.js:90-103 | an entry is listed iff an id names an existing asset and the entry pairs it with what the read of its tracker yields: nothing, one tracker, or for an empty tracker id the whole collection |
| `WarehouseService.JoinAssetsAllPresent` | services/warehouseService.js:90-103 | when every id names an asset, one entry per id in roster order |
| `WarehouseService.JoinAssetsLength` | services/warehouseService.js:103 | the listing is never longer than the roster |
| `WarehouseService.CollectAssets` | services/warehouseService.js:90-103 | the per-asset reads yield the join in roster order |
| `WarehouseService.ListWarehouseAssets` | services/warehouseService.js:79-110 | 500 iff the id is not a valid key or the warehouse has no assets; otherwise 404 iff absent, and else the join |
| `WarehouseService.NewWarehouseHasNoAssets` | services/warehouseService.js:27-90 | created and assigned warehouses never have assets |
| `WarehouseService.ListWarehouseAssetsIntended` | services/warehouseService.js:79-110 | intended: 500 iff the id is not a valid key; otherwise 404 iff absent, else the join, empty for a warehouse without assets |
| `WarehouseService.ListWarehouses` | services/warehouseService.js:112-132 | the listing has at most one entry per `Object.entries` pair, exactly one per pair when none is null, and none when all are null |
| `WarehouseService.ListWarehousesMembership` | services/warehouseService.js:122-124 | the listing holds exactly the non-null entries tagged with their keys |
| `WarehouseService.ListWarehousesComplete` | services/warehouseService.js:112-132 | the listing holds exactly the stored warehouses, each under its id |
| `WarehouseService.ListWarehousesEmpty` | services/warehouseService.js:115-118 | an empty collection lists nothing |
| `TrackyApproval.CreatedIsEditable` | Tracky-Backend/services/trackerService.js:13-25 | a created record is editable |
| `TrackyApproval.EditKeepsOtherFields` | Tracky-Backend/services/trackerService.js:63-64 | an edit changes only the named fields and the stamp |
| `TrackyApproval.EditMayApprove` | Tracky-Backend/services/mobileAssetService.js:63-64 | an edit body that sets `approved` locks the record against later edits |
| `TrackyApproval.RequestKeepsApproval` | Tracky-Backend/services/mobileAssetService.js:105-109 | a request records who asked and leaves `approved` and other fields untouched |
| `TrackyApproval.ApprovalLocks` | Tracky-Backend/services/mobileAssetService.js:120-125 | approval sets `approved=true`, `approvalRequested=false`, and locks edits |
| `TrackyApproval.ApprovalIdempotent` | Tracky-Backend/services/trackerService.js:120-125 | approving twice leaves the same flags and equals one approval by the second caller |
| `TrackyTrackerService.CreateTracker` | Tracky-Backend/services/trackerService.js:4-32 | 400 with no write iff `tracker_id` falsy; 500 with no write iff it is then not a valid key or a tracking field is absent; otherwise replace with an unapproved record |
| `TrackyTrackerService.UpdateTracker` | Tracky-Backend/services/trackerService.js:49-70 | an id that is not a valid key (`Store.ValidKey`) is 500 with no write; otherwise 404 iff absent; 403 with no write iff approved; 500 with no write iff a field name is not a valid key; otherwise merge fields plus stamp |
| `TrackyTrackerService.QueryTracker` | Tracky-Backend/services/trackerService.js:83-100 | the `approved`-filtered listing in store order, the same query as the main backend's |
| `TrackyTrackerService.RequestApproval` | Tracky-Backend/services/trackerService.js:102-115 | 500 with no write iff the id is not a valid key; otherwise request fields upserted, 200 |
| `TrackyTrackerService.ApproveTracker` | Tracky-Backend/services/trackerService.js:117-131 | 500 with no write iff the id is not a valid key; otherwise approval fields upserted, 200 |
| `TrackyMobileAssetService.CreateMobileAsset` | Tracky-Backend/services/mobileAssetService.js:4-32 | 400 with no write iff `tracker_id` falsy; 500 with no write iff it is then not a valid key or a tracking field is absent; otherwise replace with an unapproved record |
| `TrackyMobileAssetService.UpdateMobileAsset` | Tracky-Backend/services/mobileAssetService.js:49-70 | an id that is not a valid key (`Store.ValidKey`) is 500 with no write; otherwise 404 iff absent; 403 with no write iff approved whatever the payload; 500 with no write iff a field name is not a valid key; otherwise merge fields plus stamp |
| `TrackyMobileAssetService.QueryMobileAssets` | Tracky-Backend/services/mobileAssetService.js:83-100 | the `approved`-filtered listing in store order |
| `TrackyMobileAssetService.RequestApproval` | Tracky-Backend/services/mobileAssetService.js:102-115 | 500 with no write iff the id is not a valid key; otherwise request fields upserted, 200 |
| `TrackyMobileAssetService.ApproveMobileAsset` | Tracky-Backend/services/mobileAssetService.js:117-131 | 500 with no write iff the id is not a valid key; otherwise approval fields upserted, 200 |
| `TrackyAssetService.NewAssetWritable` | Tracky-Backend/services/assetService.js:5-19 | the store accepts the new asset iff the body holds name, description, depreciation, image and price |
| `TrackyAssetService.NewAsset` | Tracky-Backend/services/assetService.js:7-17 | the stored record holds no null or undefined field |
| `TrackyAssetService.NewAssetShape` | Tracky-Backend/services/assetService.js:7-17 | a new asset is unapproved, records creator and ISO purchase date, and copies price and depreciation unless they are null |
| `TrackyAssetService.AddAsset` | Tracky-Backend/services/assetService.js:4-25 | 500 with no write iff the purchase date is invalid or a copied field is absent; otherwise the record under the fresh push key |
| `TrackyAssetService.ListAssets` | Tracky-Backend/services/assetService.js:27-44 | the `approved`-filtered listing in store order |
| `TrackyAssetService.GetAsset` | Tracky-Backend/services/assetService.js:46-58 | 500 iff the id is not a valid key; otherwise 404 iff absent, and else the record with `id`, where a stored `id` wins |
| `TrackyAssetService.UpdateAsset` | Tracky-Backend/services/assetService.js:60-71 | no existence or approval check: 500 with no write iff the id or a field name is not a valid key, otherwise fields plus stamp upserted, 200 |
| `TrackyAssetService.UpdateAlwaysLeavesARecord` | Tracky-Backend/services/assetService.js:63-65 | an update always leaves a record with the stamp, creates one for an absent id, and can overwrite `approved` |
| `TrackyAssetService.ApproveAsset` | Tracky-Backend/services/assetService.js:84-97 | 500 with no write iff the id is not a valid key; otherwise approval fields upserted, 200 |
| `TrackyAssetService.ApproveAssetIdempotent` | Tracky-Backend/services/assetService.js:87-91 | approved after one approval, still approved after a second, which equals one approval |
| `TrackyAssetService.ApproveAssetLeavesARecord` | Tracky-Backend/services/assetService.js:87-91 | approval leaves a record under the id whether it existed or not |
| `AuthMiddleware.Split` | middleware/authMiddleware.js:7 | `split(' ')` yields at least one piece and no piece holds a space |
| `AuthMiddleware.SplitJoin` | middleware/authMiddleware.js:7 | the pieces joined with the separator give back the header |
| `AuthMiddleware.TokenOfBearer` | middleware/authMiddleware.js:7-12 | `Bearer t` carries t; no header, or one without a space, carries no token |
| `AuthMiddleware.AuthenticateJwt` | middleware/authMiddleware.js:6-24 | no token gives 401; a failed verify gives 403; otherwise `req.user` is the payload and next is called |
| `AuthMiddleware.AuthorizeRole` | middleware/authMiddleware.js:26-34 | next iff the role is an exact member of the roles; otherwise 403 (500 without a user) |
| `AuthMiddleware.RolesAreCaseSensitive` | middleware/authMiddleware.js:29 | 'admin' and 'Admin' are distinct; no role passes both single-role lists |
| `Routes.Admit` | routes/asset.js:9-15 | the handler runs iff a token verifies to claims whose role is listed; 401 without a token, otherwise 403 |
| `Routes.NoRoleAdministersBoth` | routes/warehouse.js:6-9 | no role is admitted both by the warehouse and the asset admin tables, nor by both reader tables |
| `Routes.PicNeverUpdatesAnAsset` | routes/asset.js:12-14 | the update route refuses 'PIC', so the PIC update branch is unreachable; the request-edit route admits 'PIC' |
| `Routes.ApproveEditUnreachable` | routes/asset.js:15 | every role the approve-edit route admits is refused by the handler's 'admin' check |
| `Routes.ApproveEditReachableIntended` | routes/asset.js:15 | with the intended 'Admin' check, exactly the admitted roles approve, and the approval grants a PIC the update |

## Findings

| source | as written | input that shows it | evidently intended | confidence | as-written member | corrected member |
|---|---|---|---|---|---|---|
| services/assetService.js:314 | `approveEdit` requires the role `'admin'`, but its route admits only `'Admin'` | any caller admitted by routes/asset.js:15, e.g. role 'Admin' | the handler checks 'Admin', so an admin can grant a PIC the edit | high, not executed | `Routes.ApproveEditUnreachable` | `Routes.ApproveEditReachableIntended` |
| services/warehouseService.js:59-68 | every pic (and user) id is written to the slot numbered by the pre-update count | picIds ['p', 'q'] on a warehouse without pics: only 'q' is stored, at slot 0 | each id is appended at the next free slot | high, not executed | `WarehouseService.FirstPicLost` | `WarehouseService.BothPicsKeptIntended` |
| services/warehouseService.js:90 | `warehouse.assets.map` on a warehouse created with `assets: []`, which the Realtime Database does not store (`NewWarehouseHasNoAssets`) | any warehouse made by `createWarehouse`: the call throws and answers 500 | an empty asset list is listed as `[]` | medium: depends on the store dropping empty arrays; not executed | `WarehouseService.ListWarehouseAssets` | `WarehouseService.ListWarehouseAssetsIntended` |

## Left out

- Media handling: QR rendering, upload with signed URLs, and blob deletion are foreign calls. They are parameters: the QR result, the upload outcome, and whether each deletion succeeds. A failed deletion is swallowed.
- `listAssets` and `getAsset` of services/assetService.js: they regenerate a QR code and delete blobs while reading. That is I/O with no rule beyond "the name must be a string".
- `getTracker`, `deleteTracker`, `getMobileAsset`, `deleteMobileAsset` and the Tracky `deleteAsset` are not modelled. They are single reads or removals outside the gated rules.
- Tracky-Backend/routes/asset.js routes to a `requestApproval` that its asset service does not export. That route is not modelled.
- Dates and clocks: `new Date` parsing and the wall clock are not modelled. `calculateCurrentPrice` takes the elapsed milliseconds as an `int`, so an unparseable purchase date (a NaN time) is not modelled. Server timestamps are an `int` parameter `now`.
- Floating point: prices are `real`, without IEEE-754 rounding or infinities.
- `Json.JsString` renders numbers with a fractional part as one placeholder text that holds a `.`. So an id such as 1.5 is refused as a key, as `ref` refuses `tracker/1.5` (`Store.FractionIsNoKey`). JavaScript writes very small numbers such as 1e-7 in exponent form, without a `.`. `ref` would accept such an id; the model refuses it.
- `Json.ParseFloat` and `Json.ToNumber` read plain decimal literals only: no exponents, hexadecimal or `Infinity`.
- NaN prices: the Firebase client refuses to write a non-finite number. A NaN price is therefore answered with 500 and nothing is written.
- Token verification: `jwt.verify` and its secret are the parameter `verify`, from token to optional claims.
- Concurrency: the model is sequential. Read-then-write races, and a failure between the two writes of the main `updateTracker`, are not captured.
- Express plumbing: response bodies, logging and `multer` are outside the model. Only status codes and store effects are modelled.
- Undefined inside a body: a parsed JSON body holds no undefined value, so the handlers meet undefined only as an absent field. Where the model's `Value` still admits `Undefined` inside a body array or a body spread into an `update`, `Store.Merge` and `WarehouseService.RosterOf` treat it like null (the field or slot is removed), where the store would refuse the write.
- The caller's id: `req.user.uid` is a `string` in the model. A token whose payload has no `uid` would make every write that records the caller (`createdBy`, `editRequestedBy`, `editApprovedBy`, `requestedBy`, `approvedBy`) throw and answer 500. The model assumes every issued token carries one.
- `Json.Value` is scalar: nested objects in a body are not modelled. The only arrays are the warehouse rosters.
- Price over time: the price does not always fall as time passes. `Math.abs` at services/assetService.js:55 makes the price of an asset with a future purchase date rise as that date approaches (`AssetService.DirectionDoesNotMatter`). The model proves monotonicity in the absolute elapsed time (`AssetService.PriceNonIncreasing`), not in time itself.
- Blob deletion: `deleteFileFromStorage` (services/assetService.js:40-49) looks up only the last segment of a download URL, without the `assets/` folder and with any query string kept. Deletions of signed URLs therefore probably never find their file and fail silently. The model leaves each deletion's success a free input, which covers this without showing it.
- Tracky asset routes: Tracky-Backend/routes/asset.js:8-12 name the parameter `:tracker_id`, while `getAsset`, `updateAsset`, `deleteAsset` and `approveAsset` read `req.params.assetId`. Through that router they address `assets/undefined`. The model takes the asset id as an input and does not model this routing.
- Warehouse inputs: only array-valued `picIds`/`userIds` are modelled; a truthy non-array, such as a string, is not.
- Warehouse keys: the `warehouses` collection holds only numeric keys, and a route id names a warehouse only in canonical decimal form.
- Nested paths: a `/` inside an id or a field name makes the store address a nested child (a tracker id `t1/name` reads the `name` field of tracker `t1`). The model treats every id and field name as one flat key, so `Store.ValidKey` admits `/`. Reserved names such as `.priority` are not modelled either.
- Push keys: `push().key` always yields a non-empty valid key. `AssetService.AddAsset` and `TrackyAssetService.AddAsset` take the key as a parameter and require both of it.
- `WarehouseService.ListWarehouseAssets`: the asset ids in a warehouse's list, and the tracker ids inside the assets, are read without checking their validity as keys. Such an id would make `ref` throw and the listing answer 500. The model keeps only valid keys in every collection (`Store.Db.Valid`), so a stored id that is not a valid key simply names no record.
- `WarehouseService.JoinAssets`: an empty asset id in a warehouse's list would read the whole `assets` collection and list it as one entry. The model finds no asset under the empty key and drops the id. No operation of the service writes that list (`WarehouseService.NewWarehouseHasNoAssets`).
- Route parameters: Express never matches an empty route parameter. The handlers that write under the route id without reading it first (`TrackerService.RequestEdit`, `TrackerService.ApproveEdit`, `TrackyTrackerService.RequestApproval`, `TrackyTrackerService.ApproveTracker`, `TrackyMobileAssetService.RequestApproval`, `TrackyMobileAssetService.ApproveMobileAsset`, `TrackyAssetService.UpdateAsset`, `TrackyAssetService.ApproveAsset`) require a non-empty id.
- Repeated query parameters: Express parses `?approved=true&approved=false` into an array. `String(x)` never equals an array, so that query lists nothing. The `approved` parameter of `TrackerService.QueryTracker`, `TrackyTrackerService.QueryTracker`, `TrackyMobileAssetService.QueryMobileAssets` and `TrackyAssetService.ListAssets` is `Option<string>`, which cannot express an array.
- A missing response: `AssetService.AddAsset` reads the tracker before its `try`. An invalid tracker id therefore rejects the handler's promise, and Express 4 leaves the request unanswered. The model returns the status `Store.NO_RESPONSE` (0) for this outcome.
- `WarehouseService.ListWarehouses`: the `Object.entries` input is a parameter tied to the stored map by `EntriesOf`, rather than read from the store.
