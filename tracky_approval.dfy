/** The approval workflow the Tracky backend's tracker and mobile-asset
    services share: a record is created unapproved, may be edited only while
    unapproved, and is approved by one merge that also clears the request. */
module TrackyApproval {
  import opened Json
  import opened Store

  /** The update gate: any truthy `approved` refuses the edit; this variant
      has no edit grant. */
  predicate Editable(r: Record)
  {
    !Truthy(Get(r, "approved"))
  }

  /** The record after a permitted update: the body's fields and the time
      stamp merged in. */
  function Edited(r: Record, updates: Record, now: int): Record
  {
    Merge(r, updates["updatedAt" := Num(now as real)])
  }

  function RequestPatch(uid: string, now: int): map<string, Value>
  {
    map["approvalRequested" := Bool(true), "requestedAt" := Num(now as real), "requestedBy" := Str(uid)]
  }

  function ApprovePatch(uid: string, now: int): map<string, Value>
  {
    map["approved" := Bool(true), "approvedAt" := Num(now as real), "approvedBy" := Str(uid),
        "approvalRequested" := Bool(false)]
  }

  /** A new record is editable. */
  lemma CreatedIsEditable(body: Record, uid: string, now: int)
    requires HasFields(body, TRACKED_FIELDS)
    ensures Editable(TrackedDocument(body, uid, now))
  {
  }

  /** A permitted edit changes only the fields it names and the time stamp. */
  lemma EditKeepsOtherFields(r: Record, updates: Record, now: int, field: string)
    requires field !in updates && field != "updatedAt"
    ensures Get(Edited(r, updates, now), field) == Get(r, field)
  {
  }

  /** Nothing stops the body of an edit from approving the record: the edit
      then locks it against every later edit. */
  lemma EditMayApprove(r: Record, updates: Record, now: int)
    requires "approved" in updates && Truthy(updates["approved"])
    ensures !Editable(Edited(r, updates, now))
  {
    assert Get(Edited(r, updates, now), "approved") == updates["approved"];
  }

  /** Asking for approval records who asked and when, and leaves the approval
      and every field outside the request untouched. */
  lemma RequestKeepsApproval(r: Record, uid: string, now: int, field: string)
    requires field !in {"approvalRequested", "requestedAt", "requestedBy"}
    ensures var after := Merge(r, RequestPatch(uid, now));
      && Get(after, field) == Get(r, field)
      && Editable(after) == Editable(r)
      && Get(after, "approvalRequested") == Bool(true)
      && Get(after, "requestedBy") == Str(uid)
  {
  }

  /** Approval sets the flags and locks the record against edits. */
  lemma ApprovalLocks(r: Record, uid: string, now: int)
    ensures var after := Merge(r, ApprovePatch(uid, now));
      && Get(after, "approved") == Bool(true)
      && Get(after, "approvalRequested") == Bool(false)
      && Get(after, "approvedBy") == Str(uid)
      && !Editable(after)
  {
  }

  /** A second approval leaves the same flags; only who approved and when are
      rewritten. */
  lemma ApprovalIdempotent(r: Record, uid1: string, now1: int, uid2: string, now2: int)
    ensures var once := Merge(r, ApprovePatch(uid1, now1));
      var twice := Merge(once, ApprovePatch(uid2, now2));
      && Get(twice, "approved") == Get(once, "approved")
      && Get(twice, "approvalRequested") == Get(once, "approvalRequested")
      && twice == Merge(r, ApprovePatch(uid2, now2))
  {
    MergeCompose(r, ApprovePatch(uid1, now1), ApprovePatch(uid2, now2));
    assert ApprovePatch(uid1, now1) + ApprovePatch(uid2, now2) == ApprovePatch(uid2, now2);
  }
}
