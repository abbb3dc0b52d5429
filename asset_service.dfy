/** The asset service of the main backend: straight-line depreciation, asset
    creation with defaults, the role-gated update that recomputes the price and
    consumes a one-time edit grant, deletion with best-effort blob clean-up, and
    the edit-request / edit-approval pair. */
module AssetService {
  import opened Json
  import opened Store

  const MS_PER_DAY: int := 86400000

  /** `Math.ceil(Math.abs(diff) / 86400000)`: whole days elapsed, rounded up;
      a purchase date in the future counts the same as one in the past. */
  function ElapsedDays(elapsedMs: int): (days: nat)
    ensures days == 0 <==> elapsedMs == 0
    ensures elapsedMs != 0 ==> (days - 1) * MS_PER_DAY < Abs(elapsedMs) <= days * MS_PER_DAY
  {
    (Abs(elapsedMs) + MS_PER_DAY - 1) / MS_PER_DAY
  }

  function Abs(x: int): nat
  {
    if x < 0 then -x else x
  }

  /** The divisor of the rate switch: 7, 30 or 365 days for 'weekly', 'monthly'
      and 'yearly'; every other rate, 'daily' included, counts days. */
  function PeriodDays(rate: Value): (d: nat)
    ensures d in {1, 7, 30, 365}
    ensures d == 7 <==> rate == Str("weekly")
    ensures d == 30 <==> rate == Str("monthly")
    ensures d == 365 <==> rate == Str("yearly")
  {
    match rate
    case Str(s) => if s == "weekly" then 7 else if s == "monthly" then 30 else if s == "yearly" then 365 else 1
    case _ => 1
  }

  /** The outcome of `calculateCurrentPrice`: a price, NaN (an original price
      that is not a number), or the error thrown for an unreadable
      depreciation value. */
  datatype PriceResult = Price(amount: real) | NotANumber | InvalidDepreciation

  function Max0(x: real): (r: real)
    ensures r >= 0.0 && r >= x
    ensures x >= 0.0 ==> r == x
    ensures x < 0.0 ==> r == 0.0
  {
    if x > 0.0 then x else 0.0
  }

  /** The possibly fractional number of periods elapsed: the whole days divided
      by the rate's period length. */
  function Periods(rate: Value, elapsedMs: int): (t: real)
    ensures t >= 0.0
    ensures t == 0.0 <==> elapsedMs == 0
  {
    ElapsedDays(elapsedMs) as real / PeriodDays(rate) as real
  }

  /** `Math.max(p - p * (v / 100) * t, 0)`: the original price p less v
      percent of it per period, for t periods, floored at 0. */
  function Decay(p: real, v: real, t: real): (r: real)
    ensures r >= 0.0
  {
    Max0(p - p * (v / 100.0) * t)
  }

  /** The value left after `periods` periods of straight-line decay. */
  function PriceAfter(originalPrice: Value, depreciationValue: Value, periods: real): (r: PriceResult)
    ensures r.InvalidDepreciation? <==> ParseFloat(depreciationValue).None?
    ensures r.NotANumber? <==> ParseFloat(depreciationValue).Some? && ToNumber(originalPrice).None?
    ensures r.Price? ==> r.amount >= 0.0
  {
    match ParseFloat(depreciationValue)
    case None => InvalidDepreciation
    case Some(v) =>
      match ToNumber(originalPrice)
      case None => NotANumber
      case Some(p) => Price(Decay(p, v, periods))
  }

  /** `calculateCurrentPrice` with the clock read injected: `elapsedMs` is the
      current time minus the purchase date, in milliseconds. The rate switch
      runs before the depreciation value is checked; the check throws for a
      value `parseFloat` cannot read, and an original price that is not a
      number yields NaN. */
  function CurrentPrice(originalPrice: Value, rate: Value, depreciationValue: Value, elapsedMs: int): (r: PriceResult)
    ensures r.InvalidDepreciation? <==> ParseFloat(depreciationValue).None?
    ensures r.NotANumber? <==> ParseFloat(depreciationValue).Some? && ToNumber(originalPrice).None?
    ensures r.Price? ==> r.amount >= 0.0
  {
    PriceAfter(originalPrice, depreciationValue, Periods(rate, elapsedMs))
  }

  /** With no time elapsed nothing decays: a non-negative price is returned as it is. */
  lemma NoDecayWithoutElapsedTime(originalPrice: Value, rate: Value, depreciationValue: Value, p: real)
    requires ToNumber(originalPrice) == Some(p) && p >= 0.0
    requires ParseFloat(depreciationValue).Some?
    ensures CurrentPrice(originalPrice, rate, depreciationValue, 0) == Price(p)
  {
    var v := ParseFloat(depreciationValue).value;
    assert Decay(p, v, 0.0) == p by {
      assert p * (v / 100.0) * 0.0 == 0.0;
    }
  }

  lemma DaysOfWholeDays(k: nat)
    ensures ElapsedDays(k * MS_PER_DAY) == k
  {
    assert (k * 86400000 + 86400000 - 1) / 86400000 == k;
  }

  /** Decay is straight-line: after n whole periods the price has lost n times
      the percentage of the original price, floored at 0. */
  lemma StraightLineDecay(originalPrice: Value, rate: Value, depreciationValue: Value, p: real, v: real, n: nat)
    requires ToNumber(originalPrice) == Some(p) && ParseFloat(depreciationValue) == Some(v)
    ensures CurrentPrice(originalPrice, rate, depreciationValue, (n * PeriodDays(rate)) * MS_PER_DAY)
      == Price(Decay(p, v, n as real))
  {
    PeriodsOfWholePeriods(rate, n);
  }

  lemma PeriodsOfWholePeriods(rate: Value, n: nat)
    ensures Periods(rate, (n * PeriodDays(rate)) * MS_PER_DAY) == n as real
  {
    var d := PeriodDays(rate);
    DaysOfWholeDays(n * d);
    WholeQuotient(n, d);
  }

  lemma WholeQuotient(n: nat, d: nat)
    requires d > 0
    ensures (n * d) as real / d as real == n as real
  {
    assert (n * d) as real == n as real * d as real;
  }

  /** Any time within the k-th day counts as k whole days. */
  lemma ElapsedDaysWithin(k: nat, elapsedMs: int)
    requires k >= 1 && (k - 1) * MS_PER_DAY < Abs(elapsedMs) <= k * MS_PER_DAY
    ensures ElapsedDays(elapsedMs) == k
  {
  }

  /** Partial days are rounded up and periods may be fractional: anywhere in
      the k-th day the price has lost k / PeriodDays periods' worth. */
  lemma PartialPeriodDecay(originalPrice: Value, rate: Value, depreciationValue: Value, p: real, v: real,
                           k: nat, elapsedMs: int)
    requires ToNumber(originalPrice) == Some(p) && ParseFloat(depreciationValue) == Some(v)
    requires k >= 1 && (k - 1) * MS_PER_DAY < Abs(elapsedMs) <= k * MS_PER_DAY
    ensures CurrentPrice(originalPrice, rate, depreciationValue, elapsedMs)
      == Price(Decay(p, v, k as real / PeriodDays(rate) as real))
  {
    ElapsedDaysWithin(k, elapsedMs);
  }

  /** One millisecond after purchase a full day has been charged: 100 at 1%
      daily is worth 99. */
  lemma OneMillisecondCostsADay()
    ensures CurrentPrice(Num(100.0), Str("daily"), Num(1.0), 1) == Price(99.0)
  {
    PartialPeriodDecay(Num(100.0), Str("daily"), Num(1.0), 100.0, 1.0, 1, 1);
  }

  /** Ten days at a weekly rate are 10/7 periods: 700 at 7% weekly is worth 630. */
  lemma TenDaysAtWeeklyRate()
    ensures CurrentPrice(Num(700.0), Str("weekly"), Num(7.0), 10 * MS_PER_DAY) == Price(630.0)
  {
    PartialPeriodDecay(Num(700.0), Str("weekly"), Num(7.0), 700.0, 7.0, 10, 10 * MS_PER_DAY);
    assert 700.0 * (7.0 / 100.0) * (10 as real / 7 as real) == 70.0;
  }

  /** A purchase date in the future decays exactly like one equally far in the past. */
  lemma DirectionDoesNotMatter(originalPrice: Value, rate: Value, depreciationValue: Value, elapsedMs: int)
    ensures CurrentPrice(originalPrice, rate, depreciationValue, elapsedMs)
         == CurrentPrice(originalPrice, rate, depreciationValue, -elapsedMs)
  {
    assert Periods(rate, elapsedMs) == Periods(rate, -elapsedMs);
  }

  lemma ElapsedDaysMonotone(e1: int, e2: int)
    requires Abs(e1) <= Abs(e2)
    ensures ElapsedDays(e1) <= ElapsedDays(e2)
  {
    var x, y := Abs(e1) + 86400000 - 1, Abs(e2) + 86400000 - 1;
    assert x / 86400000 <= y / 86400000;
  }

  lemma PeriodsMonotone(rate: Value, e1: int, e2: int)
    requires Abs(e1) <= Abs(e2)
    ensures Periods(rate, e1) <= Periods(rate, e2)
  {
    ElapsedDaysMonotone(e1, e2);
    var a, b := ElapsedDays(e1) as real, ElapsedDays(e2) as real;
    var d := PeriodDays(rate);
    if d == 1 {
      assert a / 1.0 <= b / 1.0;
    } else if d == 7 {
      assert a / 7.0 <= b / 7.0;
    } else if d == 30 {
      assert a / 30.0 <= b / 30.0;
    } else {
      assert a / 365.0 <= b / 365.0;
    }
  }

  lemma DecayArithmetic(p: real, v: real, t1: real, t2: real)
    requires p >= 0.0 && v >= 0.0 && 0.0 <= t1 <= t2
    ensures Decay(p, v, t2) <= Decay(p, v, t1) <= p
  {
    var k := p * (v / 100.0);
    assert k >= 0.0;
    assert k * t1 <= k * t2 by {
      assert k * t2 - k * t1 == k * (t2 - t1);
    }
  }

  /** More periods never leave more value, and no decay exceeds the original price. */
  lemma PriceAfterNonIncreasing(originalPrice: Value, depreciationValue: Value, p: real, v: real, t1: real, t2: real)
    requires ToNumber(originalPrice) == Some(p) && p >= 0.0
    requires ParseFloat(depreciationValue) == Some(v) && v >= 0.0
    requires 0.0 <= t1 <= t2
    ensures PriceAfter(originalPrice, depreciationValue, t2).amount
         <= PriceAfter(originalPrice, depreciationValue, t1).amount
         <= p
  {
    DecayArithmetic(p, v, t1, t2);
  }

  /** For a non-negative price and rate the value never rises as time passes,
      and stays within [0, originalPrice]. */
  lemma PriceNonIncreasing(originalPrice: Value, rate: Value, depreciationValue: Value, p: real, v: real, e1: int, e2: int)
    requires ToNumber(originalPrice) == Some(p) && p >= 0.0
    requires ParseFloat(depreciationValue) == Some(v) && v >= 0.0
    requires Abs(e1) <= Abs(e2)
    ensures CurrentPrice(originalPrice, rate, depreciationValue, e2).amount
         <= CurrentPrice(originalPrice, rate, depreciationValue, e1).amount
         <= p
  {
    PeriodsMonotone(rate, e1, e2);
    PriceAfterNonIncreasing(originalPrice, depreciationValue, p, v, Periods(rate, e1), Periods(rate, e2));
  }

  /** 1000 at 10% a year, bought two years (730 days) ago, is worth 800. */
  lemma TwoYearsAtTenPercent()
    ensures CurrentPrice(Num(1000.0), Str("yearly"), Num(10.0), 730 * MS_PER_DAY) == Price(800.0)
  {
    StraightLineDecay(Num(1000.0), Str("yearly"), Num(10.0), 1000.0, 10.0, 2);
  }

  /** A name is accepted when it is a non-empty string. */
  predicate ValidName(name: Value)
  {
    Truthy(name) && name.Str?
  }

  /** The outcome of the image upload (`uploadFileToStorage`), a foreign call. */
  datatype Upload = NoImage | Uploaded(url: string) | UploadFailed

  /** The record `addAsset` stores, for a body the store accepts. */
  function NewAssetRecord(body: Record, qrCode: string, imageURL: Value, price: real, uid: string, now: int, nowIso: string): Record
    requires HasFields(body, NEW_ASSET_FIELDS) && !imageURL.Undefined?
  {
    NewAssetWritable(body, qrCode, imageURL, price, uid, now, nowIso);
    Document(NewAssetFields(body, qrCode, imageURL, price, uid, now, nowIso))
  }

  /** The body fields `addAsset` copies without a default. */
  const NEW_ASSET_FIELDS: set<string> := {"name", "description", "trackerId"}

  function NewAssetFields(body: Record, qrCode: string, imageURL: Value, price: real, uid: string, now: int, nowIso: string): map<string, Value>
  {
    map[
      "name" := Get(body, "name"),
      "description" := Get(body, "description"),
      "originalPrice" := Or(Get(body, "originalPrice"), Num(0.0)),
      "depreciationRate" := Or(Get(body, "depreciationRate"), Str("daily")),
      "depreciationValue" := Or(Get(body, "depreciationValue"), Num(0.0)),
      "purchaseDate" := Or(Get(body, "purchaseDate"), Str(nowIso)),
      "currentPrice" := Num(price),
      "imageURL" := imageURL,
      "trackerId" := Get(body, "trackerId"),
      "createdBy" := Str(uid),
      "createdAt" := Num(now as real),
      "approved" := Bool(false),
      "qrCode" := Str(qrCode)]
  }

  /** Every valuation field has a default, so the store refuses the object
      only for a missing description or tracker id (or an undefined image URL). */
  lemma NewAssetWritable(body: Record, qrCode: string, imageURL: Value, price: real, uid: string, now: int, nowIso: string)
    ensures Writable(NewAssetFields(body, qrCode, imageURL, price, uid, now, nowIso)) <==>
      HasFields(body, NEW_ASSET_FIELDS) && !imageURL.Undefined?
  {
    var f := NewAssetFields(body, qrCode, imageURL, price, uid, now, nowIso);
    if Writable(f) {
      assert f["name"] == Get(body, "name") && f["description"] == Get(body, "description");
      assert f["trackerId"] == Get(body, "trackerId") && f["imageURL"] == imageURL;
    }
  }

  /** A new asset starts unapproved, without an edit grant, with the QR code
      of its name and the computed price, and with the documented defaults
      for missing or falsy valuation fields. */
  lemma NewAssetDefaults(body: Record, qrCode: string, imageURL: Value, price: real, uid: string, now: int, nowIso: string)
    requires HasFields(body, NEW_ASSET_FIELDS) && !imageURL.Undefined?
    ensures var r := NewAssetRecord(body, qrCode, imageURL, price, uid, now, nowIso);
      && Get(r, "approved") == Bool(false)
      && Get(r, "editApproved") == Undefined
      && Get(r, "createdBy") == Str(uid)
      && Get(r, "currentPrice") == Num(price)
      && Get(r, "qrCode") == Str(qrCode)
      && (!Truthy(Get(body, "originalPrice")) ==> Get(r, "originalPrice") == Num(0.0))
      && (!Truthy(Get(body, "depreciationRate")) ==> Get(r, "depreciationRate") == Str("daily"))
      && (!Truthy(Get(body, "depreciationValue")) ==> Get(r, "depreciationValue") == Num(0.0))
      && (Truthy(Get(body, "originalPrice")) ==> Get(r, "originalPrice") == Get(body, "originalPrice"))
  {
    var f := NewAssetFields(body, qrCode, imageURL, price, uid, now, nowIso);
    assert f["approved"] == Bool(false);
    assert "editApproved" !in f;
    assert f["createdBy"] == Str(uid);
    assert f["currentPrice"] == Num(price);
    assert f["qrCode"] == Str(qrCode);
    assert f["originalPrice"] == Or(Get(body, "originalPrice"), Num(0.0));
    assert f["depreciationRate"] == Or(Get(body, "depreciationRate"), Str("daily"));
    assert f["depreciationValue"] == Or(Get(body, "depreciationValue"), Num(0.0));
  }

  /** `addAsset`. The push key, the QR-code generator's result, the upload's
      result, the clock and the elapsed time of the purchase date are inputs. */
  method AddAsset(db: Db, body: Record, image: Upload, qrCode: Option<string>, elapsedMs: int,
                  uid: string, key: string, now: int, nowIso: string) returns (status: int)
    requires db.Valid() && key !in db.assets && key != "" && ValidKey(key)
    modifies db
    ensures db.Valid()
    ensures db.trackers == old(db.trackers) && db.mobileAssets == old(db.mobileAssets) && db.warehouses == old(db.warehouses)
    ensures status in {OK, BAD_REQUEST, SERVER_ERROR, NO_RESPONSE}
    // the tracker read happens outside the handler's `try`
    ensures status == NO_RESPONSE <==> ValidName(Get(body, "name")) && !ValidKey(JsString(Get(body, "trackerId")))
    ensures status == BAD_REQUEST <==>
      || !ValidName(Get(body, "name"))
      || (ValidKey(JsString(Get(body, "trackerId"))) && !TrackerExists(old(db.trackers), Get(body, "trackerId")))
    ensures status == BAD_REQUEST || status == NO_RESPONSE ==> db.blobs == old(db.blobs)
    ensures status != OK ==> db.assets == old(db.assets)
    ensures status == OK <==>
      && ValidName(Get(body, "name"))
      && ValidKey(JsString(Get(body, "trackerId"))) && TrackerExists(old(db.trackers), Get(body, "trackerId"))
      && qrCode.Some? && !image.UploadFailed?
      && HasFields(body, NEW_ASSET_FIELDS)
      && CurrentPrice(Or(Get(body, "originalPrice"), Num(0.0)), Or(Get(body, "depreciationRate"), Str("daily")),
                      Or(Get(body, "depreciationValue"), Num(0.0)), elapsedMs).Price?
    ensures status == OK ==> db.assets == old(db.assets)[key := NewAssetRecord(body, qrCode.value,
      if image.Uploaded? then Str(image.url) else Null,
      CurrentPrice(Or(Get(body, "originalPrice"), Num(0.0)), Or(Get(body, "depreciationRate"), Str("daily")),
                   Or(Get(body, "depreciationValue"), Num(0.0)), elapsedMs).amount,
      uid, now, nowIso)]
    // an image uploaded before a failing price computation stays in storage
    ensures status == OK || status == SERVER_ERROR ==>
      db.blobs == old(db.blobs) + (if qrCode.Some? && image.Uploaded? then {image.url} else {})
  {
    var name := Get(body, "name");
    if !(Truthy(name) && name.Str?) {
      return BAD_REQUEST;
    }
    if !ValidKey(JsString(Get(body, "trackerId"))) {
      return NO_RESPONSE;
    }
    if !TrackerExists(db.trackers, Get(body, "trackerId")) {
      return BAD_REQUEST;
    }
    if qrCode.None? {
      return SERVER_ERROR;
    }
    var imageURL := Null;
    match image {
      case UploadFailed =>
        return SERVER_ERROR;
      case Uploaded(url) =>
        db.blobs := db.blobs + {url};
        imageURL := Str(url);
      case NoImage =>
    }
    var price := CurrentPrice(Or(Get(body, "originalPrice"), Num(0.0)), Or(Get(body, "depreciationRate"), Str("daily")),
                              Or(Get(body, "depreciationValue"), Num(0.0)), elapsedMs);
    if !price.Price? {
      // a thrown error, or NaN, which the store refuses to write
      return SERVER_ERROR;
    }
    NewAssetWritable(body, qrCode.value, imageURL, price.amount, uid, now, nowIso);
    if !Writable(NewAssetFields(body, qrCode.value, imageURL, price.amount, uid, now, nowIso)) {
      // a missing description or tracker id: the store refuses the object
      return SERVER_ERROR;
    }
    WriteAsset(db, key, NewAssetRecord(body, qrCode.value, imageURL, price.amount, uid, now, nowIso));
    status := OK;
  }

  /** The gate of `updateAsset`: 'Admin' always, 'PIC' only while the asset
      holds an edit grant, nobody else. */
  predicate MayUpdate(role: string, asset: Record)
  {
    role == "Admin" || (role == "PIC" && Truthy(Get(asset, "editApproved")))
  }

  /** The second check of `updateAsset` (a PIC without a grant) can never fire
      once the first has passed. */
  lemma SecondGateSubsumed(role: string, asset: Record)
    ensures MayUpdate(role, asset) ==> !(role == "PIC" && !Truthy(Get(asset, "editApproved")))
    ensures !MayUpdate(role, asset) <==> role != "Admin" && (role != "PIC" || !Truthy(Get(asset, "editApproved")))
  {
  }

  /** The price `updateAsset` recomputes: each input from the update unless it
      is missing or falsy there, else the stored one. */
  function RecomputedPrice(updates: Record, asset: Record, elapsedMs: int): PriceResult
  {
    CurrentPrice(Or(Get(updates, "originalPrice"), Get(asset, "originalPrice")),
                 Or(Get(updates, "depreciationRate"), Get(asset, "depreciationRate")),
                 Or(Get(updates, "depreciationValue"), Get(asset, "depreciationValue")),
                 elapsedMs)
  }

  /** A zero (or other falsy) value in the update does not override the
      stored valuation field. */
  lemma FalsyUpdateFallsBack(updates: Record, asset: Record, elapsedMs: int)
    requires Get(updates, "originalPrice") == Num(0.0)
    ensures RecomputedPrice(updates, asset, elapsedMs)
         == RecomputedPrice(updates - {"originalPrice"}, asset, elapsedMs)
  {
  }

  /** The `updates` object after `updateAsset` has amended it: the new image
      URL, the recomputed price and the time stamp, and the reset of a grant
      the asset held. */
  function AssetUpdatePatch(updates: Record, asset: Record, imageURL: Option<string>, price: real, now: int): map<string, Value>
  {
    var withImage := if imageURL.Some? then updates["imageURL" := Str(imageURL.value)] else updates;
    var stamped := withImage["currentPrice" := Num(price)]["updatedAt" := Num(now as real)];
    if Truthy(Get(asset, "editApproved"))
    then stamped["editApproved" := Bool(false)]["editApprovedAt" := Null]["editApprovedBy" := Null]
    else stamped
  }

  /** After a permitted update the stored price is the recomputed one, whatever
      price the caller sent; fields the update does not name are untouched. */
  lemma UpdateOverwritesPrice(updates: Record, asset: Record, imageURL: Option<string>, price: real, now: int, field: string)
    ensures Get(Merge(asset, AssetUpdatePatch(updates, asset, imageURL, price, now)), "currentPrice") == Num(price)
    ensures field !in updates && field !in {"imageURL", "currentPrice", "updatedAt", "editApproved", "editApprovedAt", "editApprovedBy"}
      ==> Get(Merge(asset, AssetUpdatePatch(updates, asset, imageURL, price, now)), field) == Get(asset, field)
  {
  }

  /** A grant is used up by the write it permits: a second PIC update is refused. */
  lemma UpdateConsumesGrant(updates: Record, asset: Record, imageURL: Option<string>, price: real, now: int)
    requires Truthy(Get(asset, "editApproved"))
    ensures var after := Merge(asset, AssetUpdatePatch(updates, asset, imageURL, price, now));
      && !MayUpdate("PIC", after)
      && Get(after, "editApproved") == Bool(false)
      && "editApprovedAt" !in after && "editApprovedBy" !in after
  {
  }

  /** The blob store after `updateAsset` has switched images: the new upload
      is added and the old image removed when its deletion succeeds. */
  function BlobsAfterImageSwap(blobs: set<string>, image: Upload, oldImage: Value, oldImageDeleted: bool): set<string>
  {
    if image.Uploaded? then
      var added := blobs + {image.url};
      if Truthy(oldImage) && oldImage.Str? && oldImageDeleted then added - {oldImage.s} else added
    else blobs
  }

  /** The upload of the new image and the best-effort deletion of the old one. */
  method SwapImage(db: Db, image: Upload, oldImage: Value, oldImageDeleted: bool)
    requires db.Valid()
    modifies db
    ensures db.Valid()
    ensures db.blobs == BlobsAfterImageSwap(old(db.blobs), image, oldImage, oldImageDeleted)
    ensures db.assets == old(db.assets) && db.trackers == old(db.trackers)
    ensures db.mobileAssets == old(db.mobileAssets) && db.warehouses == old(db.warehouses)
  {
    if image.Uploaded? {
      db.blobs := db.blobs + {image.url};
      if Truthy(oldImage) && oldImage.Str? && oldImageDeleted {
        db.blobs := db.blobs - {oldImage.s};
      }
    }
  }

  /** One `update` of an asset record, as the store applies it. */
  method WriteAsset(db: Db, id: string, r: Record)
    requires db.Valid() && ValidKey(id) && WellFormed(r)
    requires id != ""
    modifies db
    ensures db.Valid()
    ensures db.assets == old(db.assets)[id := r]
    ensures db.trackers == old(db.trackers) && db.mobileAssets == old(db.mobileAssets)
    ensures db.warehouses == old(db.warehouses) && db.blobs == old(db.blobs)
  {
    db.assets := db.assets[id := r];
  }

  /** The in-place changes `updateAsset` makes to the body before merging it:
      the new image, the price, the time stamp, and the grant reset. */
  method BuildUpdatePatch(updates: Record, asset: Record, imageURL: Option<string>, price: real, now: int)
    returns (patch: map<string, Value>)
    ensures patch == AssetUpdatePatch(updates, asset, imageURL, price, now)
  {
    patch := updates;
    if imageURL.Some? {
      patch := patch["imageURL" := Str(imageURL.value)];
    }
    patch := patch["currentPrice" := Num(price)];
    patch := patch["updatedAt" := Num(now as real)];
    if Truthy(Get(asset, "editApproved")) {
      patch := patch["editApproved" := Bool(false)];
      patch := patch["editApprovedAt" := Null];
      patch := patch["editApprovedBy" := Null];
    }
  }

  /** `updateAsset`. The upload's result, whether deleting the old image
      succeeds, the clock and the elapsed time of the resulting purchase date
      are inputs. An id the store refuses is answered with 500 before anything
      happens; body field names it refuses fail the final write, after the
      image has been switched. */
  method UpdateAsset(db: Db, id: string, role: string, updates: Record, image: Upload, oldImageDeleted: bool,
                     elapsedMs: int, now: int) returns (status: int)
    requires db.Valid()
    modifies db
    ensures db.Valid()
    ensures db.trackers == old(db.trackers) && db.mobileAssets == old(db.mobileAssets) && db.warehouses == old(db.warehouses)
    ensures status in {OK, FORBIDDEN, NOT_FOUND, SERVER_ERROR}
    ensures status == NOT_FOUND <==> ValidKey(id) && id !in old(db.assets)
    ensures status == FORBIDDEN <==> id in old(db.assets) && !MayUpdate(role, old(db.assets)[id])
    ensures status == OK <==>
      id in old(db.assets) && MayUpdate(role, old(db.assets)[id]) && !image.UploadFailed?
      && RecomputedPrice(updates, old(db.assets)[id], elapsedMs).Price? && ValidFieldNames(updates)
    ensures !ValidKey(id) ==> status == SERVER_ERROR && db.blobs == old(db.blobs)
    ensures status != OK ==> db.assets == old(db.assets)
    ensures status == OK ==> db.assets == old(db.assets)[id := Merge(old(db.assets)[id],
      AssetUpdatePatch(updates, old(db.assets)[id], if image.Uploaded? then Some(image.url) else None,
                       RecomputedPrice(updates, old(db.assets)[id], elapsedMs).amount, now))]
    // the old image is deleted before the price is computed, so a failing
    // computation leaves the record pointing at an image that is gone
    ensures status == OK || (status == SERVER_ERROR && ValidKey(id)) ==>
      db.blobs == BlobsAfterImageSwap(old(db.blobs), image, Get(old(db.assets)[id], "imageURL"), oldImageDeleted)
    ensures status == NOT_FOUND || status == FORBIDDEN ==> db.blobs == old(db.blobs)
  {
    if !ValidKey(id) {
      return SERVER_ERROR;
    }
    if id !in db.assets {
      return NOT_FOUND;
    }
    var asset := db.assets[id];
    var isAdmin := role == "Admin";
    var isPIC := role == "PIC";
    if !isAdmin && !(isPIC && Truthy(Get(asset, "editApproved"))) {
      return FORBIDDEN;
    }
    var oldImage := Get(asset, "imageURL");
    if image.UploadFailed? {
      return SERVER_ERROR;
    }
    var imageURL: Option<string> := None;
    if image.Uploaded? {
      imageURL := Some(image.url);
    }
    SwapImage(db, image, oldImage, oldImageDeleted);
    var price := RecomputedPrice(updates, asset, elapsedMs);
    if !price.Price? {
      return SERVER_ERROR;
    }
    if !ValidFieldNames(updates) {
      // the names the handler adds are valid; the body's names decide
      return SERVER_ERROR;
    }
    var patch := BuildUpdatePatch(updates, asset, imageURL, price.amount, now);
    WriteAsset(db, id, Merge(asset, patch));
    status := OK;
  }

  /** `deleteAsset`. Whether each blob deletion succeeds is an input; the
      record is removed first and a failed deletion never fails the call. The
      not-found error is answered by the generic handler, as 500. */
  method DeleteAsset(db: Db, id: string, imageDeleted: bool, qrCodeDeleted: bool) returns (status: int)
    requires db.Valid()
    modifies db
    ensures db.Valid()
    ensures db.trackers == old(db.trackers) && db.mobileAssets == old(db.mobileAssets) && db.warehouses == old(db.warehouses)
    ensures status == SERVER_ERROR <==> id !in old(db.assets)
    // no stored key holds a character the store refuses, so such an id is absent
    ensures !ValidKey(id) ==> status == SERVER_ERROR
    ensures status == OK <==> id in old(db.assets)
    ensures status == SERVER_ERROR ==> db.assets == old(db.assets) && db.blobs == old(db.blobs)
    ensures status == OK ==> db.assets == old(db.assets) - {id}
    ensures status == OK ==>
      db.blobs == old(db.blobs)
        - BlobIf(Get(old(db.assets)[id], "imageURL"), imageDeleted)
        - BlobIf(Get(old(db.assets)[id], "qrCodeURL"), qrCodeDeleted)
  {
    if id !in db.assets {
      return SERVER_ERROR;
    }
    var imageURL := Get(db.assets[id], "imageURL");
    var qrCodeURL := Get(db.assets[id], "qrCodeURL");
    db.assets := db.assets - {id};
    db.blobs := db.blobs - BlobIf(imageURL, imageDeleted);
    db.blobs := db.blobs - BlobIf(qrCodeURL, qrCodeDeleted);
    status := OK;
  }

  /** The blob a best-effort delete of `url` removes: none when the URL is
      falsy, not a string, or the deletion failed. */
  function BlobIf(url: Value, deleted: bool): (b: set<string>)
    ensures |b| <= 1
  {
    if Truthy(url) && url.Str? && deleted then {url.s} else {}
  }

  function RequestEditPatch(uid: string, now: int): map<string, Value>
  {
    map["editRequested" := Bool(true), "editRequestedBy" := Str(uid), "editRequestedAt" := Num(now as real)]
  }

  /** `requestEdit`: only 'PIC' may ask, and nothing requires the asset to be approved. */
  method RequestEdit(db: Db, id: string, role: string, uid: string, now: int) returns (status: int)
    requires db.Valid()
    modifies db
    ensures db.Valid()
    ensures db.trackers == old(db.trackers) && db.mobileAssets == old(db.mobileAssets)
    ensures db.warehouses == old(db.warehouses) && db.blobs == old(db.blobs)
    ensures status == SERVER_ERROR <==> id !in old(db.assets)
    // no stored key holds a character the store refuses, so such an id is absent
    ensures !ValidKey(id) ==> status == SERVER_ERROR
    ensures status == FORBIDDEN <==> id in old(db.assets) && role != "PIC"
    ensures status == OK <==> id in old(db.assets) && role == "PIC"
    ensures status != OK ==> db.assets == old(db.assets)
    ensures status == OK ==> db.assets == old(db.assets)[id := Merge(old(db.assets)[id], RequestEditPatch(uid, now))]
  {
    if id !in db.assets {
      return SERVER_ERROR;
    }
    if role != "PIC" {
      return FORBIDDEN;
    }
    db.assets := db.assets[id := Merge(db.assets[id], RequestEditPatch(uid, now))];
    status := OK;
  }

  /** The role check of `approveEdit`: exactly the lower-case 'admin'. */
  predicate ApproveEditAllowed(role: string)
  {
    role == "admin"
  }

  function ApproveEditPatch(uid: string, now: int): map<string, Value>
  {
    map["editApproved" := Bool(true), "editApprovedBy" := Str(uid), "editApprovedAt" := Num(now as real),
        "editRequested" := Bool(false), "editRequestedBy" := Null, "editRequestedAt" := Null]
  }

  /** An approval grants the PIC one update and clears the request, whether or
      not a request was pending. */
  lemma ApproveEditGrants(asset: Record, uid: string, now: int)
    ensures var after := Merge(asset, ApproveEditPatch(uid, now));
      && MayUpdate("PIC", after)
      && Get(after, "editRequested") == Bool(false)
      && "editRequestedBy" !in after && "editRequestedAt" !in after
  {
  }

  /** The grant is one-shot: approve, one PIC update, and the next PIC update
      is refused. */
  lemma OneShotGrant(asset: Record, uid: string, t: int, updates: Record, imageURL: Option<string>, price: real, now: int)
    ensures var granted := Merge(asset, ApproveEditPatch(uid, t));
      MayUpdate("PIC", granted) && !MayUpdate("PIC", Merge(granted, AssetUpdatePatch(updates, granted, imageURL, price, now)))
  {
    var granted := Merge(asset, ApproveEditPatch(uid, t));
    ApproveEditGrants(asset, uid, t);
    UpdateConsumesGrant(updates, granted, imageURL, price, now);
  }

  /** `approveEdit`. */
  method ApproveEdit(db: Db, id: string, role: string, uid: string, now: int) returns (status: int)
    requires db.Valid()
    modifies db
    ensures db.Valid()
    ensures db.trackers == old(db.trackers) && db.mobileAssets == old(db.mobileAssets)
    ensures db.warehouses == old(db.warehouses) && db.blobs == old(db.blobs)
    ensures status == SERVER_ERROR <==> id !in old(db.assets)
    // no stored key holds a character the store refuses, so such an id is absent
    ensures !ValidKey(id) ==> status == SERVER_ERROR
    ensures status == FORBIDDEN <==> id in old(db.assets) && !ApproveEditAllowed(role)
    ensures status == OK <==> id in old(db.assets) && ApproveEditAllowed(role)
    ensures status != OK ==> db.assets == old(db.assets)
    ensures status == OK ==> db.assets == old(db.assets)[id := Merge(old(db.assets)[id], ApproveEditPatch(uid, now))]
  {
    if id !in db.assets {
      return SERVER_ERROR;
    }
    if role != "admin" {
      return FORBIDDEN;
    }
    db.assets := db.assets[id := Merge(db.assets[id], ApproveEditPatch(uid, now))];
    status := OK;
  }
}
