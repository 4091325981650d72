/** The global-role routes (src/routes/role.rs): every change to the roles
    collection is gated on a permission of the caller's own roles, and no
    role can be created or updated to carry Owner through them. The
    permission names the routes ask for are compared as text with the
    names stored on roles. */
module RoleRoutes {
  import opened Base
  import opened Auth
  import opened Store
  import opened Roles

  const Unauthorized: Response := Response(401, "UNAUTHORIZED")
  const InvalidPermission: Response := Response(400, "ROLE_MUST_HAVE_VALID_PERMISSION")

  datatype RoleRequest = RoleRequest(name: string, permission: seq<string>)

  /** The gate of the role routes: a caller is attached, has at least one
      role, and one of those roles grants the action or Owner. */
  predicate MayAct(issuer: Option<AuthData>, action: string, roles: seq<RoleDoc>)
  {
    issuer.Some? && |issuer.value.roleId| > 0 && Validate(issuer.value.roleId, action, roles)
  }

  /** The roles that carry Owner. */
  predicate OwnersAmong(before: seq<RoleDoc>, after: seq<RoleDoc>)
  {
    forall r :: r in after && OwnerPermission in r.permission ==> r in before
  }

  /** `create_role`: a permitted caller stores a role without Owner. */
  method CreateRole(db: Database, issuer: Option<AuthData>, payload: RoleRequest, newId: ObjectId)
    returns (resp: Response)
    modifies db
    ensures !MayAct(issuer, "CreateRole", old(db.roles)) ==> resp == Unauthorized && db.roles == old(db.roles)
    ensures MayAct(issuer, "CreateRole", old(db.roles)) && OwnerPermission in payload.permission ==>
              resp == InvalidPermission && db.roles == old(db.roles)
    ensures MayAct(issuer, "CreateRole", old(db.roles)) && OwnerPermission !in payload.permission ==>
              var ins := Insert(old(db.roles), RoleKey, RoleDoc(newId, payload.name, payload.permission));
              (ins.Ok? ==> resp == Response(201, IdText(newId)) && db.roles == ins.value)
              && (ins.Err? ==> resp == Response(500, ins.error) && db.roles == old(db.roles))
    ensures OwnersAmong(old(db.roles), db.roles)
    ensures db.customers == old(db.customers) && db.users == old(db.users) && db.projects == old(db.projects)
    ensures db.projectRoles == old(db.projectRoles) && db.tasks == old(db.tasks) && db.reports == old(db.reports)
  {
    if issuer.None? {
      return Unauthorized;
    }
    var callerRoles := issuer.value.roleId;
    if |callerRoles| == 0 || !Validate(callerRoles, "CreateRole", db.roles) {
      return Unauthorized;
    }
    var role := new Role(payload.name, payload.permission);
    if OwnerPermission in role.permission {
      return InvalidPermission;
    }
    var saved := role.Save(db, newId);
    if saved.Err? {
      return Response(500, saved.error);
    }
    resp := Response(201, IdText(saved.value));
  }

  /** The body of a delete reply: how many roles were deleted. */
  function DeletedText(count: nat): string
    requires count <= 1
  {
    "Deleted " + (if count == 1 then "1" else "0") + " role"
  }

  /** `delete_role`: the path is parsed before the caller is checked. */
  method DeleteRole(db: Database, issuer: Option<AuthData>, roleText: string) returns (resp: Response)
    modifies db
    ensures ParseObjectId(roleText).None? ==> resp == Response(400, "INVALID_ID") && db.roles == old(db.roles)
    ensures ParseObjectId(roleText).Some? && !MayAct(issuer, "DeleteRole", old(db.roles)) ==>
              resp == Unauthorized && db.roles == old(db.roles)
    ensures ParseObjectId(roleText).Some? && MayAct(issuer, "DeleteRole", old(db.roles)) ==>
              var roleId := ParseObjectId(roleText).value;
              db.roles == Remove(old(db.roles), RoleKey, roleId)
              && resp == Response(200, DeletedText(if Find(old(db.roles), RoleKey, roleId).Some? then 1 else 0))
    ensures OwnersAmong(old(db.roles), db.roles)
    ensures db.customers == old(db.customers) && db.users == old(db.users) && db.projects == old(db.projects)
    ensures db.projectRoles == old(db.projectRoles) && db.tasks == old(db.tasks) && db.reports == old(db.reports)
  {
    var parsed := ParseObjectId(roleText);
    if parsed.None? {
      return Response(400, "INVALID_ID");
    }
    if issuer.None? {
      return Unauthorized;
    }
    var callerRoles := issuer.value.roleId;
    if |callerRoles| == 0 || !Validate(callerRoles, "DeleteRole", db.roles) {
      return Unauthorized;
    }
    var count := if db.Role(parsed.value).Some? then 1 else 0;
    db.DeleteRole(parsed.value);
    resp := Response(200, DeletedText(count));
  }

  /** `update_role`: the stored role is read into memory and its name and
      permissions overwritten there; only a result without Owner is
      written back, so a refused update changes nothing stored. */
  method UpdateRole(db: Database, issuer: Option<AuthData>, roleText: string, payload: RoleRequest)
    returns (resp: Response)
    modifies db
    ensures ParseObjectId(roleText).None? ==> resp == Response(400, "INVALID_ID") && db.roles == old(db.roles)
    ensures ParseObjectId(roleText).Some? && !MayAct(issuer, "UpdateRole", old(db.roles)) ==>
              resp == Unauthorized && db.roles == old(db.roles)
    ensures ParseObjectId(roleText).Some? && MayAct(issuer, "UpdateRole", old(db.roles)) ==>
              var roleId := ParseObjectId(roleText).value;
              (Find(old(db.roles), RoleKey, roleId).None? ==> resp == Response(400, "ROLE_NOT_FOUND") && db.roles == old(db.roles))
              && (Find(old(db.roles), RoleKey, roleId).Some? && OwnerPermission in payload.permission ==>
                    resp == InvalidPermission && db.roles == old(db.roles))
              && (Find(old(db.roles), RoleKey, roleId).Some? && OwnerPermission !in payload.permission ==>
                    resp == Response(200, IdText(roleId))
                    && db.roles == Replace(old(db.roles), RoleKey, RoleDoc(roleId, payload.name, payload.permission)))
    ensures OwnersAmong(old(db.roles), db.roles)
    ensures db.customers == old(db.customers) && db.users == old(db.users) && db.projects == old(db.projects)
    ensures db.projectRoles == old(db.projectRoles) && db.tasks == old(db.tasks) && db.reports == old(db.reports)
  {
    var parsed := ParseObjectId(roleText);
    if parsed.None? {
      return Response(400, "INVALID_ID");
    }
    if issuer.None? {
      return Unauthorized;
    }
    var callerRoles := issuer.value.roleId;
    if |callerRoles| == 0 || !Validate(callerRoles, "UpdateRole", db.roles) {
      return Unauthorized;
    }
    var stored := db.Role(parsed.value);
    if stored.None? {
      return Response(400, "ROLE_NOT_FOUND");
    }
    var role := new Role.FromDoc(stored.value);
    role.name := payload.name;
    role.permission := payload.permission;
    if OwnerPermission in role.permission {
      return InvalidPermission;
    }
    db.UpdateRole(role.Doc());
    resp := Response(200, IdText(role.id.value));
  }
}
