/** The role tables the routers hand to `authorizeRole`, the gate chain every
    route runs before its handler, and what the tables imply for the
    handlers' own role checks. */
module Routes {
  import opened Json
  import opened Store
  import opened AuthMiddleware
  import AssetService

  /** routes/asset.js: create, update, delete and approve-edit. */
  const ASSET_ADMIN: seq<string> := ["Admin"]
  /** routes/asset.js: list and get. */
  const ASSET_READERS: seq<string> := ["User", "Admin", "PIC"]
  /** routes/asset.js: request-edit. */
  const ASSET_REQUEST_EDIT: seq<string> := ["PIC"]
  /** routes/warehouse.js: create and assign-users. */
  const WAREHOUSE_ADMIN: seq<string> := ["admin"]
  /** routes/warehouse.js: the two listings. */
  const WAREHOUSE_READERS: seq<string> := ["user", "admin", "pic"]

  /** `authenticateJWT` followed by `authorizeRole(roles)`: the handler runs
      iff the header carries a token that verifies to claims whose role is
      listed. */
  method Admit(req: Request, verify: string -> Option<Claims>, roles: seq<string>) returns (outcome: Outcome)
    modifies req
    ensures outcome == Next <==>
      Token(old(req.authorization)).Some? && verify(Token(old(req.authorization)).value).Some?
      && Authorized(roles, verify(Token(old(req.authorization)).value).value.role)
    ensures Token(old(req.authorization)).None? ==> outcome == Respond(UNAUTHORIZED)
    ensures Token(old(req.authorization)).Some? && outcome != Next ==> outcome == Respond(FORBIDDEN)
  {
    outcome := AuthenticateJwt(req, verify);
    if outcome == Next {
      outcome := AuthorizeRole(roles, req);
    }
  }

  /** No role is admitted both by the warehouse routes' 'admin' and by the
      asset routes' 'Admin'. */
  lemma NoRoleAdministersBoth(role: Value)
    ensures !(Authorized(WAREHOUSE_ADMIN, role) && Authorized(ASSET_ADMIN, role))
    ensures !(Authorized(WAREHOUSE_READERS, role) && Authorized(ASSET_READERS, role))
  {
  }

  /** The update route admits only 'Admin', so the PIC branch of the update
      gate is never reached through it. */
  lemma PicNeverUpdatesAnAsset()
    ensures !Authorized(ASSET_ADMIN, Str("PIC"))
    ensures Authorized(ASSET_REQUEST_EDIT, Str("PIC"))
  {
  }

  /** As written, every role the approve-edit route lets through is refused
      by the handler, which wants 'admin': no edit grant is ever issued. */
  lemma ApproveEditUnreachable(role: string)
    requires Authorized(ASSET_ADMIN, Str(role))
    ensures !AssetService.ApproveEditAllowed(role)
  {
    assert role == "Admin";
  }

  /** The handler's check as the route table implies it: 'Admin'. */
  predicate ApproveEditAllowedIntended(role: string)
  {
    role == "Admin"
  }

  /** With the intended check, exactly the roles the route admits may approve,
      and the approval grants the edit. */
  lemma ApproveEditReachableIntended(role: string, asset: Record, uid: string, now: int)
    ensures Authorized(ASSET_ADMIN, Str(role)) <==> ApproveEditAllowedIntended(role)
    ensures ApproveEditAllowedIntended(role) ==>
      AssetService.MayUpdate("PIC", Merge(asset, AssetService.ApproveEditPatch(uid, now)))
  {
    AssetService.ApproveEditGrants(asset, uid, now);
  }
}
