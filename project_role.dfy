/** Project-scoped permissions (src/models/project_role.rs): whether a user
    holds a permission in a project through the roles of their membership. */
module ProjectRoles {
  import opened Base
  import opened Store

  /** Whether one project role grants `permit`: Owner grants everything. */
  predicate RoleGrants(role: Option<ProjectRoleDoc>, permit: ProjectPermission)
  {
    role.Some? && exists p :: p in role.value.permission && (p == Owner || p == permit)
  }

  /** The member's role ids tried in order; unresolved ids are skipped. */
  function AnyRoleGrants(roleIds: seq<ObjectId>, permit: ProjectPermission, projectRoles: seq<ProjectRoleDoc>): (r: bool)
    ensures r <==> exists i :: 0 <= i < |roleIds| && RoleGrants(Find(projectRoles, ProjectRoleKey, roleIds[i]), permit)
  {
    if |roleIds| == 0 then false
    else if RoleGrants(Find(projectRoles, ProjectRoleKey, roleIds[0]), permit) then true
    else
      var rest := AnyRoleGrants(roleIds[1..], permit, projectRoles);
      assert forall i :: 1 <= i < |roleIds| ==> roleIds[i] == roleIds[1..][i - 1];
      rest
  }

  /** The membership `validate` looks at: the first member entry of the user
      in the project, if the project and its member list exist. */
  function Membership(projectId: ObjectId, userId: ObjectId, projects: seq<ProjectDoc>): (m: Option<Member>)
    ensures m.Some? ==> var p := Find(projects, ProjectKey, projectId);
                        p.Some? && p.value.member.Some? && m == Find(p.value.member.value, MemberKey, userId)
    ensures m.None? <==> (Find(projects, ProjectKey, projectId).None?
                          || Find(projects, ProjectKey, projectId).value.member.None?
                          || Find(Find(projects, ProjectKey, projectId).value.member.value, MemberKey, userId).None?)
  {
    match Find(projects, ProjectKey, projectId)
    case None => None
    case Some(project) =>
      match project.member
      case None => None
      case Some(members) => Find(members, MemberKey, userId)
  }

  /** `ProjectRole::validate`. */
  function Validate(projectId: ObjectId, userId: ObjectId, permit: ProjectPermission,
                    projects: seq<ProjectDoc>, projectRoles: seq<ProjectRoleDoc>): (r: bool)
    ensures Find(projects, ProjectKey, projectId).None? ==> !r
    ensures Find(projects, ProjectKey, projectId).Some? && Find(projects, ProjectKey, projectId).value.member.None? ==> !r
    ensures r <==> var m := Membership(projectId, userId, projects);
                   m.Some? && exists i :: 0 <= i < |m.value.roleId|
                                          && RoleGrants(Find(projectRoles, ProjectRoleKey, m.value.roleId[i]), permit)
  {
    match Membership(projectId, userId, projects)
    case None => false
    case Some(member) => AnyRoleGrants(member.roleId, permit, projectRoles)
  }

  /** `ProjectRole::save`: the project must exist; then one insert. */
  method Save(db: Database, role: ProjectRoleDoc) returns (r: Result<ObjectId>)
    modifies db
    ensures Find(old(db.projects), ProjectKey, role.projectId).None? ==>
              r == Err("PROJECT_NOT_FOUND") && db.projectRoles == old(db.projectRoles)
    ensures Find(old(db.projects), ProjectKey, role.projectId).Some? ==>
              var ins := Insert(old(db.projectRoles), ProjectRoleKey, role);
              (r.Ok? <==> ins.Ok?) && (r.Ok? ==> r == Ok(role.id) && db.projectRoles == ins.value)
              && (r.Err? ==> r.error == ins.error && db.projectRoles == old(db.projectRoles))
    ensures db.customers == old(db.customers) && db.users == old(db.users) && db.roles == old(db.roles)
    ensures db.projects == old(db.projects) && db.tasks == old(db.tasks) && db.reports == old(db.reports)
  {
    if Find(db.projects, ProjectKey, role.projectId).None? {
      return Err("PROJECT_NOT_FOUND");
    }
    r := db.InsertProjectRole(role);
  }

  /** A member holding a resolvable Owner role passes every permission check. */
  lemma OwnerPassesEveryCheck(projectId: ObjectId, userId: ObjectId, projects: seq<ProjectDoc>,
                              projectRoles: seq<ProjectRoleDoc>, i: nat, permit: ProjectPermission)
    requires Membership(projectId, userId, projects).Some?
    requires i < |Membership(projectId, userId, projects).value.roleId|
    requires var role := Find(projectRoles, ProjectRoleKey, Membership(projectId, userId, projects).value.roleId[i]);
             role.Some? && Owner in role.value.permission
    ensures Validate(projectId, userId, permit, projects, projectRoles)
  {
    var m := Membership(projectId, userId, projects).value;
    assert RoleGrants(Find(projectRoles, ProjectRoleKey, m.roleId[i]), permit);
  }

  /** Someone who is not a member of the project never passes. */
  lemma NonMemberFails(projectId: ObjectId, userId: ObjectId, permit: ProjectPermission,
                       projects: seq<ProjectDoc>, projectRoles: seq<ProjectRoleDoc>)
    requires var p := Find(projects, ProjectKey, projectId);
             p.Some? && p.value.member.Some? && forall m :: m in p.value.member.value ==> m.id != userId
    ensures !Validate(projectId, userId, permit, projects, projectRoles)
  {
  }
}
