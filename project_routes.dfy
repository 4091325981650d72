/** The rule checks and rollbacks of the project routes (src/routes/project.rs):
    creating a project with its Owner role and owner member, creating a task
    and a batch of sub-tasks, editing a task, and attaching uploaded
    documentation to a report. The caller is what the authentication
    middleware attached to the request; path segments are parsed as
    ObjectId text. Fresh ids and the clock are parameters. */
module ProjectRoutes {
  import opened Base
  import opened Auth
  import opened Store
  import Roles
  import ProjectRoles
  import opened Projects
  import opened Tasks

  const Unauthorized: Response := Response(401, "UNAUTHORIZED")
  const InvalidId: Response := Response(400, "INVALID_ID")

  /** The global permission `create_project` asks for. */
  const CreateProjectAction: string := "CreateProject"

  /** A 200 reply carrying an id as ObjectId text. */
  function Created(id: ObjectId): Response
  {
    Response(200, IdText(id))
  }

  /** The project-role gate shared by the task and report routes: a caller is
      attached and holds the permission in the project named by the path. */
  predicate Permitted(issuer: Option<AuthData>, projectId: ObjectId, permit: ProjectPermission,
                      projects: seq<ProjectDoc>, projectRoles: seq<ProjectRoleDoc>)
  {
    issuer.Some? && ProjectRoles.Validate(projectId, issuer.value.id, permit, projects, projectRoles)
  }

  /** Two path segments parsed as ObjectIds, or neither. */
  function PathIds(first: string, second: string): (r: Option<(ObjectId, ObjectId)>)
    ensures r.Some? <==> ParseObjectId(first).Some? && ParseObjectId(second).Some?
    ensures r.Some? ==> r.value == (ParseObjectId(first).value, ParseObjectId(second).value)
  {
    match (ParseObjectId(first), ParseObjectId(second))
    case (Some(a), Some(b)) => Some((a, b))
    case _ => None
  }

  /** A project's latest status is Pending; a project without a status has none. */
  predicate IsPending(project: ProjectDoc)
  {
    Latest(project.status).Some? && Latest(project.status).value.kind == Pending
  }

  // ---------------------------------------------------------------- create_project

  datatype ProjectRequest = ProjectRequest(customerId: ObjectId, name: string, code: string,
                                           period: Period, leave: Option<seq<Millis>>)

  /** The global-role gate of `create_project`: a caller with at least one
      role, one of which grants CreateProject or Owner. */
  predicate MayCreateProject(issuer: Option<AuthData>, roles: seq<RoleDoc>)
  {
    issuer.Some? && |issuer.value.roleId| > 0 && Roles.Validate(issuer.value.roleId, CreateProjectAction, roles)
  }

  /** The project `create_project` stores: Pending from `now`, no areas, and
      the given members. */
  function NewProject(payload: ProjectRequest, id: ObjectId, now: Millis, members: seq<Member>): (p: ProjectDoc)
  {
    ProjectDoc(id, payload.customerId, payload.name, payload.code, payload.period,
               [ProjectStatus(Pending, now, None)], None, Some(members), payload.leave)
  }

  /** The Owner role created with every project. */
  function OwnerRole(id: ObjectId, projectId: ObjectId): ProjectRoleDoc
  {
    ProjectRoleDoc(id, projectId, "Owner", [Owner])
  }

  /** The owner member list: the caller as an Indirect member holding the
      Owner role, when the caller is a stored user. */
  function OwnerMembers(users: seq<UserDoc>, caller: ObjectId, roleId: ObjectId): seq<Member>
  {
    if Find(users, UserKey, caller).Some? then [Member(caller, None, Indirect, [roleId])] else []
  }

  /** `create_project`: the project is saved with one Pending status, then
      its Owner role, then the caller is added as a member. If the role
      cannot be saved the project is deleted again. */
  method CreateProject(db: Database, issuer: Option<AuthData>, payload: ProjectRequest, now: Millis,
                       projectId: ObjectId, roleId: ObjectId) returns (resp: Response)
    modifies db
    ensures !MayCreateProject(issuer, old(db.roles)) ==> resp == Unauthorized
    ensures MayCreateProject(issuer, old(db.roles)) && payload.customerId !in old(db.customers) ==>
              resp == Response(500, "CUSTOMER_NOT_FOUND")
    ensures resp.status == 200 <==>
              MayCreateProject(issuer, old(db.roles)) && payload.customerId in old(db.customers)
              && Find(old(db.projects), ProjectKey, projectId).None?
              && Find(old(db.projectRoles), ProjectRoleKey, roleId).None?
    ensures resp.status == 200 ==>
              resp == Created(projectId)
              && db.projects == old(db.projects) + [NewProject(payload, projectId, now, OwnerMembers(old(db.users), issuer.value.id, roleId))]
              && db.projectRoles == old(db.projectRoles) + [OwnerRole(roleId, projectId)]
    ensures resp.status != 200 ==> db.projects == old(db.projects) && db.projectRoles == old(db.projectRoles)
    ensures db.customers == old(db.customers) && db.users == old(db.users) && db.roles == old(db.roles)
    ensures db.tasks == old(db.tasks) && db.reports == old(db.reports)
  {
    if issuer.None? {
      return Unauthorized;
    }
    var caller := issuer.value;
    if |caller.roleId| == 0 || !Roles.Validate(caller.roleId, CreateProjectAction, db.roles) {
      return Unauthorized;
    }
    resp := StoreProject(db, caller, payload, now, projectId, roleId);
  }

  /** The saving part of `create_project`, once the caller has passed the gate. */
  method StoreProject(db: Database, caller: AuthData, payload: ProjectRequest, now: Millis,
                      projectId: ObjectId, roleId: ObjectId) returns (resp: Response)
    modifies db
    ensures payload.customerId !in old(db.customers) ==> resp == Response(500, "CUSTOMER_NOT_FOUND")
    ensures resp.status == 200 <==>
              payload.customerId in old(db.customers)
              && Find(old(db.projects), ProjectKey, projectId).None?
              && Find(old(db.projectRoles), ProjectRoleKey, roleId).None?
    ensures resp.status == 200 ==>
              resp == Created(projectId)
              && db.projects == old(db.projects) + [NewProject(payload, projectId, now, OwnerMembers(old(db.users), caller.id, roleId))]
              && db.projectRoles == old(db.projectRoles) + [OwnerRole(roleId, projectId)]
    ensures resp.status != 200 ==> db.projects == old(db.projects) && db.projectRoles == old(db.projectRoles)
    ensures db.customers == old(db.customers) && db.users == old(db.users) && db.roles == old(db.roles)
    ensures db.tasks == old(db.tasks) && db.reports == old(db.reports)
  {
    ghost var projects0 := db.projects;
    var project := new Project(payload.customerId, payload.name, payload.code, payload.period,
                               [ProjectStatus(Pending, now, None)], payload.leave);
    var saved := project.Save(db, projectId);
    if saved.Err? {
      return Response(500, saved.error);
    }
    ghost var stored := project.Doc();
    assert db.projects == projects0 + [stored];
    var role := ProjectRoles.Save(db, OwnerRole(roleId, projectId));
    if role.Err? {
      RemoveFirstAfter(projects0, ProjectKey, stored, []);
      db.DeleteProject(projectId);
      return Response(500, role.error);
    }
    var request := MemberRequest(Some(caller.id), None, Indirect, [roleId]);
    var users := db.users;
    var added := project.AddMember(db, [request], [roleId]);
    AdmittedSingle(request, roleId, users);
    ReplaceLast(projects0, ProjectKey, stored, project.Doc());
    resp := Created(added.value);
  }

  /** Right after `create_project`, its caller passes every permission check
      of the new project through the Owner role. */
  lemma CreatorPassesEveryCheck(projects: seq<ProjectDoc>, projectRoles: seq<ProjectRoleDoc>, users: seq<UserDoc>,
                                payload: ProjectRequest, projectId: ObjectId, roleId: ObjectId, now: Millis,
                                caller: ObjectId, permit: ProjectPermission)
    requires Find(projects, ProjectKey, projectId).None? && Find(projectRoles, ProjectRoleKey, roleId).None?
    requires Find(users, UserKey, caller).Some?
    ensures ProjectRoles.Validate(projectId, caller,  permit,
                                  projects + [NewProject(payload, projectId, now, OwnerMembers(users, caller, roleId))],
                                  projectRoles + [OwnerRole(roleId, projectId)])
  {
    var p := NewProject(payload, projectId, now, OwnerMembers(users, caller, roleId));
    var role := OwnerRole(roleId, projectId);
    IndexOfFirst(projects + [p], ProjectKey, projectId, |projects|);
    IndexOfFirst(projectRoles + [role], ProjectRoleKey, roleId, |projectRoles|);
    var m := Member(caller, None, Indirect, [roleId]);
    IndexOfFirst([m], MemberKey, caller, 0);
    assert ProjectRoles.Membership(projectId, caller, projects + [p]) == Some(m);
    ProjectRoles.OwnerPassesEveryCheck(projectId, caller, projects + [p], projectRoles + [role], 0, permit);
  }

  // ---------------------------------------------------------------- create_project_task

  datatype TaskRequest = TaskRequest(areaId: Option<ObjectId>, userId: Option<seq<ObjectId>>, name: string,
                                     description: Option<string>, volume: Option<Volume>, value: real)

  /** The root task `create_project_task` stores: Pending from `now`, no
      parent and no period. */
  function NewRootTask(projectId: ObjectId, areaId: ObjectId, request: TaskRequest, id: ObjectId, now: Millis): TaskDoc
  {
    TaskDoc(id, projectId, areaId, None, request.userId, request.name, request.description, None,
            [TaskStatus(TaskPending, now, None)], request.volume, request.value)
  }

  /** `create_project_task`: a request without an area is refused before
      anything is saved; otherwise the task is saved as a root task. */
  method CreateProjectTask(db: Database, issuer: Option<AuthData>, projectText: string, request: TaskRequest,
                           now: Millis, newId: ObjectId) returns (resp: Response)
    modifies db
    ensures ParseObjectId(projectText).None? ==> resp == InvalidId
    ensures ParseObjectId(projectText).Some? ==>
              var projectId := ParseObjectId(projectText).value;
              var permitted := Permitted(issuer, projectId, CreateTask, old(db.projects), old(db.projectRoles));
              var placement := if request.areaId.Some? then Placement(Find(old(db.projects), ProjectKey, projectId), request.areaId.value) else None;
              (!permitted ==> resp == Unauthorized)
              && (permitted && request.areaId.None? ==> resp == Response(400, "PROJECT_TASK_MUST_HAVE_AREA_ID"))
              && (permitted && placement.Some? ==> resp == Response(500, placement.value))
    ensures resp.status == 200 ==>
              ParseObjectId(projectText).Some? && request.areaId.Some?
              && Placement(Find(old(db.projects), ProjectKey, ParseObjectId(projectText).value), request.areaId.value).None?
              && resp == Created(newId)
              && db.tasks == old(db.tasks) + [NewRootTask(ParseObjectId(projectText).value, request.areaId.value, request, newId, now)]
    ensures resp.status != 200 ==> db.tasks == old(db.tasks)
    ensures db.customers == old(db.customers) && db.users == old(db.users) && db.roles == old(db.roles)
    ensures db.projects == old(db.projects) && db.projectRoles == old(db.projectRoles) && db.reports == old(db.reports)
  {
    var parsed := ParseObjectId(projectText);
    if parsed.None? {
      return InvalidId;
    }
    var projectId := parsed.value;
    if issuer.None? || !ProjectRoles.Validate(projectId, issuer.value.id, CreateTask, db.projects, db.projectRoles) {
      return Unauthorized;
    }
    if request.areaId.None? {
      return Response(400, "PROJECT_TASK_MUST_HAVE_AREA_ID");
    }
    var task := new ProjectTask(projectId, request.areaId.value, None, request.userId, request.name,
                                request.description, [TaskStatus(TaskPending, now, None)], request.volume, request.value);
    var saved := task.Save(db, newId);
    if saved.Err? {
      return Response(500, saved.error);
    }
    resp := Created(saved.value);
  }

  // ---------------------------------------------------------------- create_project_task_sub

  /** The sub-task stored for one request of a batch: it takes the parent's
      area, points at the parent and starts Pending. */
  function NewSubTask(projectId: ObjectId, parent: TaskDoc, request: TaskRequest, id: ObjectId, now: Millis): TaskDoc
  {
    TaskDoc(id, projectId, parent.areaId, Some(parent.id), request.userId, request.name, request.description, None,
            [TaskStatus(TaskPending, now, None)], request.volume, request.value)
  }

  /** The sub-tasks of a batch, in request order. */
  function NewSubTasks(projectId: ObjectId, parent: TaskDoc, requests: seq<TaskRequest>, ids: seq<ObjectId>, now: Millis)
    : (r: seq<TaskDoc>)
    requires |ids| == |requests|
    ensures |r| == |requests|
    ensures forall i :: 0 <= i < |r| ==>
              r[i].id == ids[i] && r[i].areaId == parent.areaId && r[i].taskId == Some(parent.id)
              && r[i].status == [TaskStatus(TaskPending, now, None)] && r[i].value == requests[i].value
  {
    seq(|requests|, i requires 0 <= i < |requests| => NewSubTask(projectId, parent, requests[i], ids[i], now))
  }

  function RequestValues(requests: seq<TaskRequest>): (vs: seq<real>)
    ensures |vs| == |requests| && forall i :: 0 <= i < |requests| ==> vs[i] == requests[i].value
  {
    seq(|requests|, i requires 0 <= i < |requests| => requests[i].value)
  }

  /** The loop `for i in &payload { total += i.value }`. */
  method RequestTotal(requests: seq<TaskRequest>) returns (total: real)
    ensures total == Sum(RequestValues(requests))
  {
    total := 0.0;
    for i := 0 to |requests|
      invariant total == Sum(RequestValues(requests[..i]))
    {
      assert RequestValues(requests[..i + 1]) == RequestValues(requests[..i]) + [requests[i].value];
      total := total + requests[i].value;
    }
    assert requests[..|requests|] == requests;
  }

  /** The gate `create_project_task_sub` and `update_project_task` share: a
      bad path, a caller without CreateTask, a missing task or project of
      that task, or a project that is no longer Pending. */
  function EditRefusal(issuer: Option<AuthData>, projectText: string, taskText: string,
                       projects: seq<ProjectDoc>, projectRoles: seq<ProjectRoleDoc>, tasks: seq<TaskDoc>)
    : (r: Option<Response>)
    ensures r.None? <==>
              var ids := PathIds(projectText, taskText);
              ids.Some? && Permitted(issuer, ids.value.0, CreateTask, projects, projectRoles)
              && Find(tasks, TaskKey, ids.value.1).Some?
              && Find(projects, ProjectKey, Find(tasks, TaskKey, ids.value.1).value.projectId).Some?
              && IsPending(Find(projects, ProjectKey, Find(tasks, TaskKey, ids.value.1).value.projectId).value)
    ensures r.Some? ==> r.value.status in {400, 401, 404}
    ensures PathIds(projectText, taskText).None? ==> r == Some(InvalidId)
    ensures PathIds(projectText, taskText).Some? ==>
              (!Permitted(issuer, PathIds(projectText, taskText).value.0, CreateTask, projects, projectRoles) ==> r == Some(Unauthorized))
  {
    match PathIds(projectText, taskText)
    case None => Some(InvalidId)
    case Some((projectId, taskId)) =>
      if !Permitted(issuer, projectId, CreateTask, projects, projectRoles) then Some(Unauthorized)
      else match Find(tasks, TaskKey, taskId)
        case None => Some(Response(404, "PROJECT_TASK_NOT_FOUND"))
        case Some(task) =>
          match Find(projects, ProjectKey, task.projectId)
          case None => Some(Response(404, "PROJECT_NOT_FOUND"))
          case Some(project) =>
            if !IsPending(project) then Some(Response(400, "PROJECT_STATUS_MUST_BE_PENDING"))
            else None
  }

  /** Why a sub-task batch is refused before anything is saved: the shared
      gate, or values not adding up to exactly 100. */
  function SubTaskRefusal(issuer: Option<AuthData>, projectText: string, taskText: string, requests: seq<TaskRequest>,
                          projects: seq<ProjectDoc>, projectRoles: seq<ProjectRoleDoc>, tasks: seq<TaskDoc>)
    : (r: Option<Response>)
    ensures r.None? <==> EditRefusal(issuer, projectText, taskText, projects, projectRoles, tasks).None?
                         && Sum(RequestValues(requests)) == 100.0
    ensures EditRefusal(issuer, projectText, taskText, projects, projectRoles, tasks).Some? ==>
              r == EditRefusal(issuer, projectText, taskText, projects, projectRoles, tasks)
    ensures r.Some? ==> r.value.status in {400, 401, 404}
  {
    var gate := EditRefusal(issuer, projectText, taskText, projects, projectRoles, tasks);
    if gate.Some? then gate
    else if Sum(RequestValues(requests)) != 100.0 then Some(Response(400, "PROJECT_TASK_VALUE_SUM_MUST_BE_100"))
    else None
  }

  /** The saving loop of a batch and its rollback: every sub-task is saved in
      order; when one save fails, the sub-tasks already saved are deleted.
      The parent's cleared volume and assignees are not restored. */
  method SaveSubTasks(db: Database, projectId: ObjectId, parent: TaskDoc, requests: seq<TaskRequest>,
                      ids: seq<ObjectId>, now: Millis) returns (r: Result<seq<ObjectId>>)
    requires |ids| == |requests| && |requests| > 0
    requires db.Task(parent.id) == Some(parent)
    modifies db
    ensures r.Ok? ==> r.value == ids
                      && db.tasks == Replace(old(db.tasks), TaskKey, Cleared(parent)) + NewSubTasks(projectId, parent, requests, ids, now)
    ensures r.Err? ==> db.tasks == Replace(old(db.tasks), TaskKey, Cleared(parent))
    ensures db.customers == old(db.customers) && db.users == old(db.users) && db.roles == old(db.roles)
    ensures db.projects == old(db.projects) && db.projectRoles == old(db.projectRoles) && db.reports == old(db.reports)
  {
    ghost var base := Replace(db.tasks, TaskKey, Cleared(parent));
    var created: seq<ObjectId> := [];
    for i := 0 to |requests|
      invariant created == ids[..i]
      invariant i == 0 ==> db.tasks == old(db.tasks)
      invariant i > 0 ==> db.tasks == base + NewSubTasks(projectId, parent, requests[..i], ids[..i], now)
      invariant forall k :: 0 <= k < i ==> Find(base, TaskKey, ids[k]).None?
      invariant db.customers == old(db.customers) && db.users == old(db.users) && db.roles == old(db.roles)
      invariant db.projects == old(db.projects) && db.projectRoles == old(db.projectRoles) && db.reports == old(db.reports)
    {
      var saved := SaveNext(db, projectId, parent, requests, ids, i, now, base);
      if saved.Err? {
        RollBack(db, base, NewSubTasks(projectId, parent, requests[..i], ids[..i], now), created);
        return Err(saved.error);
      }
      created := created + [saved.value];
    }
    assert requests[..|requests|] == requests && ids[..|ids|] == ids;
    r := Ok(created);
  }

  /** Iteration `i` of the saving loop, over the collection as the earlier
      iterations left it: `base` is the collection with the parent cleared. */
  method SaveNext(db: Database, projectId: ObjectId, parent: TaskDoc, requests: seq<TaskRequest>, ids: seq<ObjectId>,
                  i: nat, now: Millis, ghost base: seq<TaskDoc>) returns (r: Result<ObjectId>)
    requires i < |requests| == |ids|
    requires Find(base, TaskKey, parent.id) == Some(Cleared(parent))
    requires i == 0 ==> db.Task(parent.id) == Some(parent) && Replace(db.tasks, TaskKey, Cleared(parent)) == base
    requires i > 0 ==> db.tasks == base + NewSubTasks(projectId, parent, requests[..i], ids[..i], now)
    modifies db
    ensures r.Ok? ==> r == Ok(ids[i]) && Find(base, TaskKey, ids[i]).None?
                      && db.tasks == base + NewSubTasks(projectId, parent, requests[..i + 1], ids[..i + 1], now)
    ensures r.Err? ==> db.tasks == base + NewSubTasks(projectId, parent, requests[..i], ids[..i], now)
    ensures db.customers == old(db.customers) && db.users == old(db.users) && db.roles == old(db.roles)
    ensures db.projects == old(db.projects) && db.projectRoles == old(db.projectRoles) && db.reports == old(db.reports)
  {
    ghost var done := NewSubTasks(projectId, parent, requests[..i], ids[..i], now);
    if i > 0 {
      FindPrefix(base, done, TaskKey, parent.id);
      ReplaceSame(base + done, TaskKey, Cleared(parent));
    } else {
      assert done == [];
    }
    r := SaveSubTask(db, projectId, parent, requests[i], ids[i], now);
    if r.Ok? {
      NewSubTasksSnoc(projectId, parent, requests, ids, i, now);
      if Find(base, TaskKey, ids[i]).Some? {
        FindPrefix(base, done, TaskKey, ids[i]);
      }
    }
  }

  lemma NewSubTasksSnoc(projectId: ObjectId, parent: TaskDoc, requests: seq<TaskRequest>, ids: seq<ObjectId>,
                        i: nat, now: Millis)
    requires i < |requests| == |ids|
    ensures NewSubTasks(projectId, parent, requests[..i + 1], ids[..i + 1], now)
         == NewSubTasks(projectId, parent, requests[..i], ids[..i], now) + [NewSubTask(projectId, parent, requests[i], ids[i], now)]
  {
  }

  /** One save of the batch: the parent, found as stored or already
      cleared, is written back cleared and the sub-task appended. */
  method SaveSubTask(db: Database, projectId: ObjectId, parent: TaskDoc, request: TaskRequest, id: ObjectId, now: Millis)
    returns (r: Result<ObjectId>)
    requires db.Task(parent.id) == Some(parent) || db.Task(parent.id) == Some(Cleared(parent))
    modifies db
    ensures r.Ok? ==> r == Ok(id) && Find(Replace(old(db.tasks), TaskKey, Cleared(parent)), TaskKey, id).None?
                      && db.tasks == Replace(old(db.tasks), TaskKey, Cleared(parent)) + [NewSubTask(projectId, parent, request, id, now)]
    ensures r.Err? ==> db.tasks == Replace(old(db.tasks), TaskKey, Cleared(parent))
    ensures db.customers == old(db.customers) && db.users == old(db.users) && db.roles == old(db.roles)
    ensures db.projects == old(db.projects) && db.projectRoles == old(db.projectRoles) && db.reports == old(db.reports)
  {
    var task := new ProjectTask(projectId, parent.areaId, Some(parent.id), request.userId, request.name,
                                request.description, [TaskStatus(TaskPending, now, None)], request.volume, request.value);
    assert Adopted(db.tasks, Some(parent.id)) == Replace(db.tasks, TaskKey, Cleared(parent));
    r := task.Save(db, id);
    if r.Ok? {
      assert task.Doc() == NewSubTask(projectId, parent, request, id, now);
    }
  }

  /** The rollback loop `for i in new_task_id { delete_by_id(i) }`: each
      saved sub-task is deleted in turn, leaving the collection as it was
      before the first one was inserted. */
  method RollBack(db: Database, ghost base: seq<TaskDoc>, ghost done: seq<TaskDoc>, created: seq<ObjectId>)
    requires db.tasks == base + done && |created| == |done|
    requires forall k :: 0 <= k < |done| ==> done[k].id == created[k] && Find(base, TaskKey, created[k]).None?
    modifies db
    ensures db.tasks == base
    ensures db.customers == old(db.customers) && db.users == old(db.users) && db.roles == old(db.roles)
    ensures db.projects == old(db.projects) && db.projectRoles == old(db.projectRoles) && db.reports == old(db.reports)
  {
    for j := 0 to |created|
      invariant db.tasks == base + done[j..]
      invariant db.customers == old(db.customers) && db.users == old(db.users) && db.roles == old(db.roles)
      invariant db.projects == old(db.projects) && db.projectRoles == old(db.projectRoles) && db.reports == old(db.reports)
    {
      RemoveNext(base, done, j);
      db.DeleteTask(created[j]);
    }
  }

  lemma RemoveNext(base: seq<TaskDoc>, done: seq<TaskDoc>, j: nat)
    requires j < |done| && Find(base, TaskKey, done[j].id).None?
    ensures Remove(base + done[j..], TaskKey, done[j].id) == base + done[j + 1..]
  {
    assert base + done[j..] == base + [done[j]] + done[j + 1..];
    RemoveFirstAfter(base, TaskKey, done[j], done[j + 1..]);
  }

  /** `create_project_task_sub`: a batch of sub-tasks under one task, only
      while the task's project is Pending and only if the values add up to
      exactly 100; all or none of the batch stays stored. */
  method CreateProjectTaskSub(db: Database, issuer: Option<AuthData>, projectText: string, taskText: string,
                              requests: seq<TaskRequest>, ids: seq<ObjectId>, now: Millis) returns (resp: Response)
    requires |ids| == |requests|
    modifies db
    ensures var refusal := SubTaskRefusal(issuer, projectText, taskText, requests, old(db.projects), old(db.projectRoles), old(db.tasks));
            refusal.Some? ==> resp == refusal.value && db.tasks == old(db.tasks)
    ensures SubTaskRefusal(issuer, projectText, taskText, requests, old(db.projects), old(db.projectRoles), old(db.tasks)).None? ==>
              var pathIds := PathIds(projectText, taskText).value;
              var parent := Find(old(db.tasks), TaskKey, pathIds.1).value;
              (resp.status == 200 ==>
                 db.tasks == Replace(old(db.tasks), TaskKey, Cleared(parent)) + NewSubTasks(pathIds.0, parent, requests, ids, now))
              && (resp.status != 200 ==> resp.status == 500 && db.tasks == Replace(old(db.tasks), TaskKey, Cleared(parent)))
    ensures db.customers == old(db.customers) && db.users == old(db.users) && db.roles == old(db.roles)
    ensures db.projects == old(db.projects) && db.projectRoles == old(db.projectRoles) && db.reports == old(db.reports)
  {
    var refusal := SubTaskRefusal(issuer, projectText, taskText, requests, db.projects, db.projectRoles, db.tasks);
    var pathIds := PathIds(projectText, taskText);
    if pathIds.None? {
      return InvalidId;
    }
    var (projectId, taskId) := pathIds.value;
    if issuer.None? || !ProjectRoles.Validate(projectId, issuer.value.id, CreateTask, db.projects, db.projectRoles) {
      return Unauthorized;
    }
    var task := db.Task(taskId);
    if task.None? {
      return Response(404, "PROJECT_TASK_NOT_FOUND");
    }
    var project := db.Project(task.value.projectId);
    if project.None? {
      return Response(404, "PROJECT_NOT_FOUND");
    }
    var latest := Latest(project.value.status);
    if latest.None? || latest.value.kind != Pending {
      return Response(400, "PROJECT_STATUS_MUST_BE_PENDING");
    }
    var total := RequestTotal(requests);
    if total != 100.0 {
      return Response(400, "PROJECT_TASK_VALUE_SUM_MUST_BE_100");
    }
    assert refusal.None?;
    var saved := SaveSubTasks(db, projectId, task.value, requests, ids, now);
    if saved.Err? {
      return Response(500, saved.error);
    }
    resp := Response(200, IdsText(saved.value));
  }

  /** The JSON body `{ "_id": [...] }` of a stored batch, reduced to the ids' text. */
  function IdsText(ids: seq<ObjectId>): string
  {
    if |ids| == 0 then "" else IdsText(ids[..|ids| - 1]) + IdText(ids[|ids| - 1])
  }

  // ---------------------------------------------------------------- update_project_task

  /** A task as `update_project_task` writes it back: name, volume,
      description and value come from the request, everything else stays. */
  function Edited(t: TaskDoc, request: TaskRequest): (e: TaskDoc)
    ensures e.name == request.name && e.volume == request.volume
    ensures e.description == request.description && e.value == request.value
    ensures e.(name := t.name, volume := t.volume, description := t.description, value := t.value) == t
  {
    t.(name := request.name, volume := request.volume, description := request.description, value := request.value)
  }

  /** `update_project_task`: while the task's project is Pending, the four
      editable fields are overwritten and the task is written back. */
  method UpdateProjectTask(db: Database, issuer: Option<AuthData>, projectText: string, taskText: string,
                           request: TaskRequest) returns (resp: Response)
    modifies db
    ensures var refusal := EditRefusal(issuer, projectText, taskText, old(db.projects), old(db.projectRoles), old(db.tasks));
            refusal.Some? ==> resp == refusal.value && db.tasks == old(db.tasks)
    ensures EditRefusal(issuer, projectText, taskText, old(db.projects), old(db.projectRoles), old(db.tasks)).None? ==>
              var taskId := PathIds(projectText, taskText).value.1;
              resp == Created(taskId)
              && db.tasks == Replace(old(db.tasks), TaskKey, Edited(Find(old(db.tasks), TaskKey, taskId).value, request))
    ensures db.customers == old(db.customers) && db.users == old(db.users) && db.roles == old(db.roles)
    ensures db.projects == old(db.projects) && db.projectRoles == old(db.projectRoles) && db.reports == old(db.reports)
  {
    var pathIds := PathIds(projectText, taskText);
    if pathIds.None? {
      return InvalidId;
    }
    var (projectId, taskId) := pathIds.value;
    if issuer.None? || !ProjectRoles.Validate(projectId, issuer.value.id, CreateTask, db.projects, db.projectRoles) {
      return Unauthorized;
    }
    var found := db.Task(taskId);
    if found.None? {
      return Response(404, "PROJECT_TASK_NOT_FOUND");
    }
    var project := db.Project(found.value.projectId);
    if project.None? {
      return Response(404, "PROJECT_NOT_FOUND");
    }
    var latest := Latest(project.value.status);
    if latest.None? || latest.value.kind != Pending {
      return Response(400, "PROJECT_STATUS_MUST_BE_PENDING");
    }
    var updated := Edit(db, found.value, request);
    resp := Created(updated.value);
  }

  /** The stored task read into memory, its four editable fields
      overwritten, and the whole task written back. */
  method Edit(db: Database, stored: TaskDoc, request: TaskRequest) returns (r: Result<ObjectId>)
    modifies db
    ensures r == Ok(stored.id) && db.tasks == Replace(old(db.tasks), TaskKey, Edited(stored, request))
    ensures db.customers == old(db.customers) && db.users == old(db.users) && db.roles == old(db.roles)
    ensures db.projects == old(db.projects) && db.projectRoles == old(db.projectRoles) && db.reports == old(db.reports)
  {
    var task := new ProjectTask.FromDoc(stored);
    task.name := request.name;
    task.volume := request.volume;
    task.description := request.description;
    task.value := request.value;
    assert task.Doc() == Edited(stored, request);
    r := task.Update(db);
  }

  // ---------------------------------------------------------------- update_project_report

  /** One uploaded file as the documentation loop sees it once the
      file-system work is done: whether it came with a file name, the
      extension taken from that name (empty when it has none), whether
      moving it into the report's directory succeeded, and, when it did
      not, whether removing the target path succeeded. */
  datatype Upload = Upload(named: bool, extension: string, moved: bool, removed: bool)

  /** How the documentation loop ended. */
  datatype UploadEnd = Completed | Unnamed | Unmoved(removed: bool)

  /** The documentation loop: file `i` records its extension on entry `i`,
      in order, until a file without a name or a file that cannot be
      moved stops it. */
  function Uploaded(docs: seq<Documentation>, uploads: seq<Upload>): (r: (seq<Documentation>, UploadEnd))
    requires |uploads| <= |docs|
    ensures |r.0| == |docs|
    ensures forall i :: 0 <= i < |docs| ==> r.0[i].id == docs[i].id && r.0[i].description == docs[i].description
    ensures forall i :: |uploads| <= i < |docs| ==> r.0[i] == docs[i]
    ensures r.1 == Completed ==> forall i :: 0 <= i < |uploads| ==> r.0[i].extension == uploads[i].extension
    decreases |uploads|
  {
    if |uploads| == 0 then (docs, Completed)
    else
      var n := |uploads| - 1;
      var before := Uploaded(docs, uploads[..n]);
      if before.1 != Completed then before
      else if !uploads[n].named then (before.0, Unnamed)
      else if !uploads[n].moved then (before.0, Unmoved(uploads[n].removed))
      else
        assert forall i :: 0 <= i < n ==> uploads[..n][i] == uploads[i];
        (before.0[n := before.0[n].(extension := uploads[n].extension)], Completed)
  }

  /** How the upload loop ends, which depends on the files alone. */
  function EndOf(uploads: seq<Upload>): UploadEnd
    decreases |uploads|
  {
    if |uploads| == 0 then Completed
    else
      var n := |uploads| - 1;
      var before := EndOf(uploads[..n]);
      if before != Completed then before
      else if !uploads[n].named then Unnamed
      else if !uploads[n].moved then Unmoved(uploads[n].removed)
      else Completed
  }

  lemma {:induction false} UploadedEndIs(docs: seq<Documentation>, uploads: seq<Upload>)
    requires |uploads| <= |docs|
    ensures Uploaded(docs, uploads).1 == EndOf(uploads)
    decreases |uploads|
  {
    if |uploads| > 0 {
      UploadedEndIs(docs, uploads[..|uploads| - 1]);
    }
  }

  lemma {:induction false} EndOfFirstFailure(uploads: seq<Upload>)
    ensures EndOf(uploads) == Completed <==> forall i :: 0 <= i < |uploads| ==> uploads[i].named && uploads[i].moved
    ensures EndOf(uploads) != Completed ==>
              exists k :: 0 <= k < |uploads| && (forall i :: 0 <= i < k ==> uploads[i].named && uploads[i].moved)
                          && EndOf(uploads) == (if !uploads[k].named then Unnamed else Unmoved(uploads[k].removed))
    decreases |uploads|
  {
    if |uploads| > 0 {
      var n := |uploads| - 1;
      EndOfFirstFailure(uploads[..n]);
      assert forall i :: 0 <= i < n ==> uploads[..n][i] == uploads[i];
      if EndOf(uploads[..n]) == Completed && (!uploads[n].named || !uploads[n].moved) {
        assert forall i :: 0 <= i < n ==> uploads[i].named && uploads[i].moved;
      }
    }
  }

  /** The loop completes exactly when every file has a name and is moved;
      otherwise the first file that fails decides how it ends. */
  lemma UploadedEnds(docs: seq<Documentation>, uploads: seq<Upload>)
    requires |uploads| <= |docs|
    ensures Uploaded(docs, uploads).1 == Completed <==> forall i :: 0 <= i < |uploads| ==> uploads[i].named && uploads[i].moved
    ensures Uploaded(docs, uploads).1 != Completed ==>
              exists k :: 0 <= k < |uploads| && (forall i :: 0 <= i < k ==> uploads[i].named && uploads[i].moved)
                          && Uploaded(docs, uploads).1 == (if !uploads[k].named then Unnamed else Unmoved(uploads[k].removed))
  {
    UploadedEndIs(docs, uploads);
    EndOfFirstFailure(uploads);
  }

  /** Once the loop has stopped, the later files change nothing. */
  lemma {:induction false} UploadedStops(docs: seq<Documentation>, uploads: seq<Upload>, k: nat)
    requires k <= |uploads| <= |docs|
    requires Uploaded(docs, uploads[..k]).1 != Completed
    ensures Uploaded(docs, uploads) == Uploaded(docs, uploads[..k])
    decreases |uploads| - k
  {
    if k < |uploads| {
      var n := |uploads| - 1;
      assert uploads[..n][..k] == uploads[..k];
      UploadedStops(docs, uploads[..n], k);
    } else {
      assert uploads[..k] == uploads;
    }
  }

  /** The loop over the form's files: entries get their extensions in
      order; a file without a name deletes the report and refuses, a file
      that cannot be moved stops the loop and deletes the report when its
      target could be removed. */
  method Document(db: Database, reportId: ObjectId, docs: seq<Documentation>, uploads: seq<Upload>)
    returns (recorded: seq<Documentation>, refusal: Option<Response>)
    requires |uploads| == |docs|
    modifies db
    ensures var (result, end) := Uploaded(docs, uploads);
            recorded == result
            && (end == Unnamed ==> refusal == Some(Response(400, "PROJECT_REPORT_DOCUMENTATION_ONLY_ACCEPTS_IMAGE"))
                                   && db.reports == Remove(old(db.reports), ReportKey, reportId))
            && (end == Unmoved(true) ==> refusal.None? && db.reports == Remove(old(db.reports), ReportKey, reportId))
            && (end == Completed || end == Unmoved(false) ==> refusal.None? && db.reports == old(db.reports))
    ensures db.customers == old(db.customers) && db.users == old(db.users) && db.roles == old(db.roles)
    ensures db.projects == old(db.projects) && db.projectRoles == old(db.projectRoles) && db.tasks == old(db.tasks)
  {
    recorded := docs;
    refusal := None;
    for i := 0 to |uploads|
      invariant Uploaded(docs, uploads[..i]) == (recorded, Completed)
      invariant db.reports == old(db.reports)
      invariant db.customers == old(db.customers) && db.users == old(db.users) && db.roles == old(db.roles)
      invariant db.projects == old(db.projects) && db.projectRoles == old(db.projectRoles) && db.tasks == old(db.tasks)
    {
      var upload := uploads[i];
      assert uploads[..i + 1][..i] == uploads[..i];
      if !upload.named {
        UploadedStops(docs, uploads, i + 1);
        db.DeleteReport(reportId);
        refusal := Some(Response(400, "PROJECT_REPORT_DOCUMENTATION_ONLY_ACCEPTS_IMAGE"));
        return;
      }
      if !upload.moved {
        UploadedStops(docs, uploads, i + 1);
        if upload.removed {
          db.DeleteReport(reportId);
        }
        return;
      }
      recorded := recorded[i := recorded[i].(extension := upload.extension)];
    }
    assert uploads[..|uploads|] == uploads;
  }

  /** The reply to the final write of the report as written: the 500 built
      after a failed update is never returned, so the route answers 200
      either way. */
  function FinalReplyAsWritten(updated: bool, reportId: ObjectId): (resp: Response)
    ensures resp.status == 200 && resp.body == IdText(reportId)
  {
    Created(reportId)
  }

  /** The reply evidently intended: 200 only when the update went through. */
  function FinalReply(updated: bool, reportId: ObjectId): (resp: Response)
    ensures resp.status == 200 <==> updated
    ensures !updated ==> resp == Response(500, "PROJECT_REPORT_UPDATE_FAILED")
  {
    if updated then Created(reportId) else Response(500, "PROJECT_REPORT_UPDATE_FAILED")
  }

  /** The two replies part exactly on a failed update, which as written is
      answered with 200 although the report has just been deleted. */
  lemma FailedUpdateAnswered200(updated: bool, reportId: ObjectId)
    ensures FinalReplyAsWritten(updated, reportId) == FinalReply(updated, reportId) <==> updated
    ensures FinalReplyAsWritten(false, reportId).status == 200
  {
  }

  /** `update_project_report`: documentation files are attached to a stored
      report. A count mismatch deletes the report; the loop over the files
      may delete it too; then the report is written back, and deleted if
      that write fails. The file-system outcomes and whether the final write
      succeeds are parameters. */
  method UpdateProjectReport(db: Database, issuer: Option<AuthData>, projectText: string, reportText: string,
                             dirCreated: bool, uploads: seq<Upload>, updated: bool) returns (resp: Response)
    modifies db
    ensures PathIds(projectText, reportText).None? ==> resp == InvalidId && db.reports == old(db.reports)
    ensures PathIds(projectText, reportText).Some? ==>
              var (projectId, reportId) := PathIds(projectText, reportText).value;
              var report := Find(old(db.reports), ReportKey, reportId);
              var gated := Permitted(issuer, projectId, UpdateTask, old(db.projects), old(db.projectRoles));
              (!gated ==> resp == Unauthorized && db.reports == old(db.reports))
              && (gated && report.None? ==> resp == Response(404, "PROJECT_REPORT_NOT_FOUND") && db.reports == old(db.reports))
              && (gated && report.Some? && !dirCreated ==>
                    resp == Response(500, "DIRECTORY_CREATION_FAILED") && db.reports == old(db.reports))
              && (gated && report.Some? && dirCreated && report.value.documentation.None? ==>
                    resp == Response(400, "PROJECT_REPORT_DOCUMENTATION_NOT_FOUND") && db.reports == old(db.reports))
              && (gated && report.Some? && dirCreated && report.value.documentation.Some?
                  && |report.value.documentation.value| != |uploads| ==>
                    resp == Response(400, "PROJECT_REPORT_DOCUMENTATION_INVALID_LENGTH")
                    && db.reports == Remove(old(db.reports), ReportKey, reportId))
              && (gated && report.Some? && dirCreated && report.value.documentation.Some?
                  && |report.value.documentation.value| == |uploads| ==>
                    var (recorded, end) := Uploaded(report.value.documentation.value, uploads);
                    var written := report.value.(documentation := Some(recorded));
                    var stopped := if end == Unmoved(true) then Remove(old(db.reports), ReportKey, reportId) else old(db.reports);
                    (end == Unnamed ==> resp == Response(400, "PROJECT_REPORT_DOCUMENTATION_ONLY_ACCEPTS_IMAGE")
                                        && db.reports == Remove(old(db.reports), ReportKey, reportId))
                    && (end != Unnamed && updated ==> resp == FinalReply(true, reportId)
                                                      && db.reports == Replace(stopped, ReportKey, written))
                    && (end != Unnamed && !updated ==> resp == FinalReply(false, reportId)
                                                       && db.reports == Remove(stopped, ReportKey, reportId)))
    ensures db.customers == old(db.customers) && db.users == old(db.users) && db.roles == old(db.roles)
    ensures db.projects == old(db.projects) && db.projectRoles == old(db.projectRoles) && db.tasks == old(db.tasks)
  {
    var pathIds := PathIds(projectText, reportText);
    if pathIds.None? {
      return InvalidId;
    }
    var (projectId, reportId) := pathIds.value;
    if issuer.None? || !ProjectRoles.Validate(projectId, issuer.value.id, UpdateTask, db.projects, db.projectRoles) {
      return Unauthorized;
    }
    var report := db.Report(reportId);
    if report.None? {
      return Response(404, "PROJECT_REPORT_NOT_FOUND");
    }
    if !dirCreated {
      return Response(500, "DIRECTORY_CREATION_FAILED");
    }
    resp := Attach(db, report.value, uploads, updated);
  }

  /** The part of `update_project_report` after the directory is made: the
      documentation list must exist and match the files in number; then
      the loop runs and the report is written back, or deleted when that
      write fails. */
  method Attach(db: Database, report: ReportDoc, uploads: seq<Upload>, updated: bool) returns (resp: Response)
    modifies db
    ensures report.documentation.None? ==>
              resp == Response(400, "PROJECT_REPORT_DOCUMENTATION_NOT_FOUND") && db.reports == old(db.reports)
    ensures report.documentation.Some? && |report.documentation.value| != |uploads| ==>
              resp == Response(400, "PROJECT_REPORT_DOCUMENTATION_INVALID_LENGTH")
              && db.reports == Remove(old(db.reports), ReportKey, report.id)
    ensures report.documentation.Some? && |report.documentation.value| == |uploads| ==>
              var (recorded, end) := Uploaded(report.documentation.value, uploads);
              var written := report.(documentation := Some(recorded));
              var stopped := if end == Unmoved(true) then Remove(old(db.reports), ReportKey, report.id) else old(db.reports);
              (end == Unnamed ==> resp == Response(400, "PROJECT_REPORT_DOCUMENTATION_ONLY_ACCEPTS_IMAGE")
                                  && db.reports == Remove(old(db.reports), ReportKey, report.id))
              && (end != Unnamed && updated ==> resp == FinalReply(true, report.id)
                                                && db.reports == Replace(stopped, ReportKey, written))
              && (end != Unnamed && !updated ==> resp == FinalReply(false, report.id)
                                                 && db.reports == Remove(stopped, ReportKey, report.id))
    ensures db.customers == old(db.customers) && db.users == old(db.users) && db.roles == old(db.roles)
    ensures db.projects == old(db.projects) && db.projectRoles == old(db.projectRoles) && db.tasks == old(db.tasks)
  {
    var reportId := report.id;
    var documentation := report.documentation;
    if documentation.None? {
      return Response(400, "PROJECT_REPORT_DOCUMENTATION_NOT_FOUND");
    }
    if |documentation.value| != |uploads| {
      db.DeleteReport(reportId);
      return Response(400, "PROJECT_REPORT_DOCUMENTATION_INVALID_LENGTH");
    }
    var recorded, refusal := Document(db, reportId, documentation.value, uploads);
    if refusal.Some? {
      return refusal.value;
    }
    var written := report.(documentation := Some(recorded));
    if updated {
      db.UpdateReport(written);
    } else {
      db.DeleteReport(reportId);
    }
    resp := FinalReply(updated, reportId);
  }
}
