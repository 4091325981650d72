/** The registration route `create_user` (src/routes/user.rs:38-109).
    The first user ever registered needs no caller: all roles are wiped
    and the user becomes the only holder of a fresh Owner role. Later
    users are created by a caller with CreateUser, and keep only the
    requested roles that exist. bcrypt is the parameter `hash`. */
module UserRoutes {
  import opened Base
  import opened Auth
  import opened Store
  import opened Roles
  import opened Email

  datatype UserRequest = UserRequest(name: string, email: string, password: string, role: Option<seq<ObjectId>>)

  const Unauthorized: Response := Response(401, "UNAUTHORIZED")

  /** The requested role ids that name a stored role, in request order. */
  function KeptRoles(ids: seq<ObjectId>, roles: seq<RoleDoc>): (kept: seq<ObjectId>)
    ensures |kept| <= |ids|
    ensures forall r :: r in kept <==> r in ids && Find(roles, RoleKey, r).Some?
  {
    if |ids| == 0 then []
    else
      var last := ids[|ids| - 1];
      assert ids == ids[..|ids| - 1] + [last];
      KeptRoles(ids[..|ids| - 1], roles) + (if Find(roles, RoleKey, last).Some? then [last] else [])
  }

  /** Filtering keeps the order of the request: it works piecewise. */
  lemma {:induction false} KeptRolesAppend(a: seq<ObjectId>, b: seq<ObjectId>, roles: seq<RoleDoc>)
    ensures KeptRoles(a + b, roles) == KeptRoles(a, roles) + KeptRoles(b, roles)
    decreases |b|
  {
    if |b| > 0 {
      var b' := b[..|b| - 1];
      assert (a + b)[..|a + b| - 1] == a + b';
      KeptRolesAppend(a, b', roles);
    } else {
      assert a + b == a;
    }
  }

  /** A list that names only stored roles is kept whole. */
  lemma {:induction false} KeptRolesOfStored(ids: seq<ObjectId>, roles: seq<RoleDoc>)
    requires forall i :: 0 <= i < |ids| ==> Find(roles, RoleKey, ids[i]).Some?
    ensures KeptRoles(ids, roles) == ids
  {
    if |ids| > 0 {
      KeptRolesOfStored(ids[..|ids| - 1], roles);
      assert ids == ids[..|ids| - 1] + [ids[|ids| - 1]];
    }
  }

  /** The loop of `create_user` that pushes every requested role found. */
  method KeepRoles(db: Database, ids: seq<ObjectId>) returns (kept: seq<ObjectId>)
    ensures kept == KeptRoles(ids, db.roles)
  {
    kept := [];
    for i := 0 to |ids|
      invariant kept == KeptRoles(ids[..i], db.roles)
    {
      if db.Role(ids[i]).Some? {
        kept := kept + [ids[i]];
      }
      assert ids[..i + 1][..i] == ids[..i];
    }
    assert ids[..|ids|] == ids;
  }

  predicate EmailTaken(users: seq<UserDoc>, email: string)
  {
    exists i :: 0 <= i < |users| && users[i].email == email
  }

  /** No two stored users share an e-mail. */
  predicate DistinctEmails(users: seq<UserDoc>)
  {
    forall i, j :: 0 <= i < j < |users| ==> users[i].email != users[j].email
  }

  /** The password and e-mail rules, checked before anything is read. */
  predicate WellFormed(request: UserRequest)
  {
    PasswordLongEnough(request.password) && IsEmail(request.email)
  }

  /** Whether the request reaches the duplicate-email check: the first user
      always does; later ones need a caller with CreateUser and a role list. */
  predicate Admitted(request: UserRequest, issuer: Option<AuthData>, users: seq<UserDoc>, roles: seq<RoleDoc>)
  {
    WellFormed(request)
    && (|users| == 0
        || (issuer.Some? && Validate(issuer.value.roleId, "CreateUser", roles) && request.role.Some?))
  }

  /** The roles the new user is given. */
  function GivenRoles(request: UserRequest, users: seq<UserDoc>, roles: seq<RoleDoc>, ownerRoleId: ObjectId)
    : seq<ObjectId>
    requires |users| == 0 || request.role.Some?
  {
    if |users| == 0 then [ownerRoleId] else KeptRoles(request.role.value, roles)
  }

  /** The role created for the first user. */
  function OwnerRole(ownerRoleId: ObjectId): RoleDoc
  {
    RoleDoc(ownerRoleId, "Owner", [OwnerPermission])
  }

  /** The first user's only role grants every action. */
  lemma FirstUserMayDoAnything(ownerRoleId: ObjectId, action: string)
    ensures Validate([ownerRoleId], action, [OwnerRole(ownerRoleId)])
  {
    assert Find([OwnerRole(ownerRoleId)], RoleKey, ownerRoleId) == Some(OwnerRole(ownerRoleId));
  }

  /** `create_user`. */
  method CreateUser(db: Database, issuer: Option<AuthData>, request: UserRequest,
                    hash: string -> Option<string>, ownerRoleId: ObjectId, userId: ObjectId)
    returns (resp: Response)
    modifies db
    ensures !PasswordLongEnough(request.password) ==>
              resp == Response(400, "USER_MUST_HAVE_VALID_PASSWORD")
    ensures PasswordLongEnough(request.password) && !IsEmail(request.email) ==>
              resp == Response(400, "USER_MUST_HAVE_VALID_EMAIL")
    ensures WellFormed(request) && |old(db.users)| > 0
            && !(issuer.Some? && Validate(issuer.value.roleId, "CreateUser", old(db.roles))) ==>
              resp == Unauthorized
    ensures WellFormed(request) && |old(db.users)| > 0
            && issuer.Some? && Validate(issuer.value.roleId, "CreateUser", old(db.roles)) && request.role.None? ==>
              resp == Response(400, "USER_MUST_HAVE_ROLES")
    ensures !Admitted(request, issuer, old(db.users), old(db.roles)) ==>
              resp.status != 201 && db.users == old(db.users) && db.roles == old(db.roles)
    ensures Admitted(request, issuer, old(db.users), old(db.roles)) ==>
              (db.roles == if |old(db.users)| == 0 then [OwnerRole(ownerRoleId)] else old(db.roles))
              && var given := GivenRoles(request, old(db.users), old(db.roles), ownerRoleId);
              (EmailTaken(old(db.users), request.email) ==>
                 resp == Response(400, "USER_ALREADY_EXIST") && db.users == old(db.users))
              && (!EmailTaken(old(db.users), request.email) && hash(request.password).None? ==>
                 resp == Response(500, "HASHING_FAILED") && db.users == old(db.users))
              && (!EmailTaken(old(db.users), request.email) && hash(request.password).Some? ==>
                 var ins := Insert(old(db.users), UserKey,
                                   UserDoc(userId, given, request.name, request.email, hash(request.password).value));
                 (ins.Ok? ==> resp == Response(201, IdText(userId)) && db.users == ins.value)
                 && (ins.Err? ==> resp == Response(500, ins.error) && db.users == old(db.users)))
    ensures DistinctEmails(old(db.users)) ==> DistinctEmails(db.users)
    ensures db.customers == old(db.customers) && db.projects == old(db.projects)
    ensures db.projectRoles == old(db.projectRoles) && db.tasks == old(db.tasks) && db.reports == old(db.reports)
  {
    if Utf8Length(request.password) < 8 {
      return Response(400, "USER_MUST_HAVE_VALID_PASSWORD");
    }
    if !IsEmail(request.email) {
      return Response(400, "USER_MUST_HAVE_VALID_EMAIL");
    }
    var given: seq<ObjectId>;
    if |db.users| > 0 {
      if issuer.None? || !Validate(issuer.value.roleId, "CreateUser", db.roles) {
        return Unauthorized;
      }
      if request.role.None? {
        return Response(400, "USER_MUST_HAVE_ROLES");
      }
      given := KeepRoles(db, request.role.value);
    } else {
      given := Bootstrap(db, ownerRoleId);
    }
    resp := Register(db, request, hash, given, userId);
  }

  /** The first registration: every role is deleted and one Owner role is
      stored in their place. Saving into an emptied collection cannot meet
      a duplicate id, so UNABLE_TO_CREATE_ROLE is not reached. */
  method Bootstrap(db: Database, ownerRoleId: ObjectId) returns (given: seq<ObjectId>)
    modifies db
    ensures given == [ownerRoleId] && db.roles == [OwnerRole(ownerRoleId)]
    ensures db.customers == old(db.customers) && db.users == old(db.users) && db.projects == old(db.projects)
    ensures db.projectRoles == old(db.projectRoles) && db.tasks == old(db.tasks) && db.reports == old(db.reports)
  {
    db.DeleteAllRoles();
    var role := new Role("Owner", []);
    role.SetAsOwner();
    var saved := role.Save(db, ownerRoleId);
    if saved.Err? {
      assert false;
    }
    assert role.permission == [OwnerPermission];
    assert db.roles == [] + [OwnerRole(ownerRoleId)];
    given := [saved.value];
  }

  /** The duplicate-email check, hashing and the insert. */
  method Register(db: Database, request: UserRequest, hash: string -> Option<string>,
                  given: seq<ObjectId>, userId: ObjectId) returns (resp: Response)
    modifies db
    ensures EmailTaken(old(db.users), request.email) ==>
              resp == Response(400, "USER_ALREADY_EXIST") && db.users == old(db.users)
    ensures !EmailTaken(old(db.users), request.email) && hash(request.password).None? ==>
              resp == Response(500, "HASHING_FAILED") && db.users == old(db.users)
    ensures !EmailTaken(old(db.users), request.email) && hash(request.password).Some? ==>
              var ins := Insert(old(db.users), UserKey,
                                UserDoc(userId, given, request.name, request.email, hash(request.password).value));
              (ins.Ok? ==> resp == Response(201, IdText(userId)) && db.users == ins.value)
              && (ins.Err? ==> resp == Response(500, ins.error) && db.users == old(db.users))
    ensures DistinctEmails(old(db.users)) ==> DistinctEmails(db.users)
    ensures db.customers == old(db.customers) && db.roles == old(db.roles) && db.projects == old(db.projects)
    ensures db.projectRoles == old(db.projectRoles) && db.tasks == old(db.tasks) && db.reports == old(db.reports)
  {
    if EmailTaken(db.users, request.email) {
      return Response(400, "USER_ALREADY_EXIST");
    }
    var hashed := hash(request.password);
    if hashed.None? {
      return Response(500, "HASHING_FAILED");
    }
    var doc := UserDoc(userId, given, request.name, request.email, hashed.value);
    var saved := db.InsertUser(doc);
    if saved.Err? {
      return Response(500, saved.error);
    }
    resp := Response(201, IdText(userId));
  }
}
