/** Global roles (src/models/role.rs): a role's permission list, the
    permissions an administrator may add, the Owner mark, and the check
    that a list of role ids grants an action. */
module Roles {
  import opened Base
  import opened Store

  const OwnerPermission: string := "Owner"

  /** The only names `add_permission` accepts. */
  const GrantablePermissions: seq<string> :=
    ["get_users", "get_user", "add_user", "get_roles", "get_role", "add_role",
     "add_customer", "get_customer", "update_customer"]

  /** A permission list after `add_permission(payload)`. */
  function WithPermission(permission: seq<string>, payload: string): seq<string>
  {
    if payload in GrantablePermissions then permission + [payload] else permission
  }

  /** Adding a permission keeps the list as a prefix and appends at most the payload. */
  lemma WithPermissionAppends(permission: seq<string>, payload: string)
    ensures var r := WithPermission(permission, payload);
            r[..|permission|] == permission
            && (|r| == |permission| || (|r| == |permission| + 1 && r[|permission|] == payload))
            && (|r| == |permission| + 1 <==> payload in GrantablePermissions)
  {
  }

  /** `add_permission` can never grant Owner: only `set_as_owner` does. */
  lemma WithPermissionNeverOwner(permission: seq<string>, payload: string)
    ensures OwnerPermission in WithPermission(permission, payload) <==> OwnerPermission in permission
  {
    assert OwnerPermission !in GrantablePermissions;
  }

  /** Nothing is deduplicated: adding a listed name twice stores it twice more. */
  lemma WithPermissionTwice(permission: seq<string>, payload: string)
    requires payload in GrantablePermissions
    ensures multiset(WithPermission(WithPermission(permission, payload), payload))[payload]
         == multiset(permission)[payload] + 2
  {
    assert WithPermission(WithPermission(permission, payload), payload) == permission + [payload] + [payload];
  }

  /** Whether a looked-up role grants `action`. */
  predicate Grants(role: Option<RoleDoc>, action: string)
  {
    role.Some? && (OwnerPermission in role.value.permission || action in role.value.permission)
  }

  /** `Role::validate`: the ids are tried in order; an id that resolves to a
      role listing Owner or the action grants it, unresolved ids are skipped. */
  function Validate(ids: seq<ObjectId>, action: string, roles: seq<RoleDoc>): (r: bool)
    ensures r <==> exists i :: 0 <= i < |ids| && Grants(Find(roles, RoleKey, ids[i]), action)
    ensures |ids| == 0 ==> !r
  {
    if |ids| == 0 then false
    else if Grants(Find(roles, RoleKey, ids[0]), action) then true
    else
      var rest := Validate(ids[1..], action, roles);
      assert forall i :: 1 <= i < |ids| ==> ids[i] == ids[1..][i - 1];
      rest
  }

  /** A role holding Owner grants every action to whoever lists it. */
  lemma OwnerGrantsEverything(ids: seq<ObjectId>, roles: seq<RoleDoc>, i: nat, action: string)
    requires i < |ids| && Find(roles, RoleKey, ids[i]).Some?
    requires OwnerPermission in Find(roles, RoleKey, ids[i]).value.permission
    ensures Validate(ids, action, roles)
  {
    assert Grants(Find(roles, RoleKey, ids[i]), action);
  }

  /** A role as held in memory before and after it is saved. */
  class Role {
    var id: Option<ObjectId>
    var name: string
    var permission: seq<string>

    constructor(name: string, permission: seq<string>)
      ensures this.id == None && this.name == name && this.permission == permission
    {
      this.id := None;
      this.name := name;
      this.permission := permission;
    }

    /** A role read back from the collection. */
    constructor FromDoc(doc: RoleDoc)
      ensures id == Some(doc.id) && name == doc.name && permission == doc.permission
    {
      id := Some(doc.id);
      name := doc.name;
      permission := doc.permission;
    }

    function Doc(): (d: RoleDoc)
      reads this
      requires id.Some?
      ensures d.id == id.value && d.permission == permission
    {
      RoleDoc(id.value, name, permission)
    }

    method AddPermission(payload: string)
      modifies this
      ensures permission == WithPermission(old(permission), payload)
      ensures id == old(id) && name == old(name)
    {
      if payload in GrantablePermissions {
        permission := permission + [payload];
      }
    }

    method SetAsOwner()
      modifies this
      ensures permission == old(permission) + [OwnerPermission]
      ensures id == old(id) && name == old(name)
    {
      permission := permission + [OwnerPermission];
    }

    /** `Role::save`: a newId id, then one insert into the roles collection. */
    method Save(db: Database, newId: ObjectId) returns (r: Result<ObjectId>)
      modifies this, db
      ensures id == Some(newId) && name == old(name) && permission == old(permission)
      ensures var ins := Insert(old(db.roles), RoleKey, RoleDoc(newId, name, permission));
              (r.Ok? <==> ins.Ok?) && (r.Ok? ==> r == Ok(newId) && db.roles == ins.value)
              && (r.Err? ==> r.error == "INSERTING_FAILED" && db.roles == old(db.roles))
      ensures db.customers == old(db.customers) && db.users == old(db.users) && db.projects == old(db.projects)
      ensures db.projectRoles == old(db.projectRoles) && db.tasks == old(db.tasks) && db.reports == old(db.reports)
    {
      id := Some(newId);
      r := db.InsertRole(Doc());
    }
  }
}
