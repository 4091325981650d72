/** The stored documents of the MongoDB collections the core reads and writes
    (src/models/project.rs, project_task.rs, project_progress_report.rs,
    project_role.rs, role.rs) and the database holding them. A collection is
    a sequence in natural order; reads and writes go through the first-match
    helpers of `Base`. Connection failures of the driver are not modelled. */
module Store {
  import opened Base
  import opened Auth

  // ---------------------------------------------------------------- projects

  datatype ProjectStatusKind = Running | Paused | Pending | Breakdown | Finished | Cancelled
  datatype ProjectStatus = ProjectStatus(kind: ProjectStatusKind, time: Millis, message: Option<string>)
  datatype MemberKind = Direct | Indirect | Support
  datatype Member = Member(id: ObjectId, name: Option<string>, kind: MemberKind, roleId: seq<ObjectId>)
  datatype Area = Area(id: ObjectId, name: string)
  datatype Period = Period(start: Millis, end: Millis)

  /** A project; `status` is kept newest-first. */
  datatype ProjectDoc = ProjectDoc(id: ObjectId, customerId: ObjectId, name: string, code: string,
                                   period: Period, status: seq<ProjectStatus>,
                                   area: Option<seq<Area>>, member: Option<seq<Member>>,
                                   leave: Option<seq<Millis>>)

  // ---------------------------------------------------------------- tasks

  datatype TaskStatusKind = TaskRunning | TaskPaused | TaskPending | TaskFinished
  datatype TaskStatus = TaskStatus(kind: TaskStatusKind, time: Millis, message: Option<string>)
  datatype Volume = Volume(value: nat, unit: string)

  /** A project task; `taskId` links a sub-task to its parent, `status` is
      newest-first and `value` is its weight in percent of the parent. */
  datatype TaskDoc = TaskDoc(id: ObjectId, projectId: ObjectId, areaId: ObjectId, taskId: Option<ObjectId>,
                             userId: Option<seq<ObjectId>>, name: string, description: Option<string>,
                             period: Option<Period>, status: seq<TaskStatus>, volume: Option<Volume>,
                             value: real)

  // ---------------------------------------------------------------- reports

  /** `[[usize; 2]; 2]`: start and end, each an hour and a minute. */
  datatype Clock = Clock(hour: nat, minute: nat)
  datatype TimeWindow = TimeWindow(start: Clock, end: Clock)
  datatype Actual = Actual(taskId: ObjectId, value: real)
  datatype Documentation = Documentation(id: ObjectId, description: Option<string>, extension: string)

  datatype ReportDoc = ReportDoc(id: ObjectId, projectId: ObjectId, userId: ObjectId,
                                 memberId: Option<seq<ObjectId>>, date: Millis, time: Option<TimeWindow>,
                                 actual: Option<seq<Actual>>, plan: Option<seq<ObjectId>>,
                                 documentation: Option<seq<Documentation>>)

  // ---------------------------------------------------------------- roles

  /** A global role; permissions are names, "Owner" grants everything. */
  datatype RoleDoc = RoleDoc(id: ObjectId, name: string, permission: seq<string>)

  datatype ProjectPermission = Owner | CreateRole | UpdateRole | DeleteRole | GetRoles | GetRole
                             | CreateTask | UpdateTask | DeleteTask | GetTasks | GetTask
                             | CreateReport | CreateIncident

  datatype ProjectRoleDoc = ProjectRoleDoc(id: ObjectId, projectId: ObjectId, name: string,
                                           permission: seq<ProjectPermission>)

  // ---------------------------------------------------------------- keys

  function ProjectKey(p: ProjectDoc): ObjectId { p.id }
  function TaskKey(t: TaskDoc): ObjectId { t.id }
  function ReportKey(r: ReportDoc): ObjectId { r.id }
  function RoleKey(r: RoleDoc): ObjectId { r.id }
  function ProjectRoleKey(r: ProjectRoleDoc): ObjectId { r.id }
  function MemberKey(m: Member): ObjectId { m.id }
  function AreaKey(a: Area): ObjectId { a.id }

  /** The database: one sequence per collection. */
  class Database {
    var customers: seq<ObjectId>
    var users: seq<UserDoc>
    var roles: seq<RoleDoc>
    var projects: seq<ProjectDoc>
    var projectRoles: seq<ProjectRoleDoc>
    var tasks: seq<TaskDoc>
    var reports: seq<ReportDoc>

    constructor(customers: seq<ObjectId>, users: seq<UserDoc>, roles: seq<RoleDoc>, projects: seq<ProjectDoc>,
                projectRoles: seq<ProjectRoleDoc>, tasks: seq<TaskDoc>, reports: seq<ReportDoc>)
      ensures this.customers == customers && this.users == users && this.roles == roles
      ensures this.projects == projects && this.projectRoles == projectRoles
      ensures this.tasks == tasks && this.reports == reports
    {
      this.customers := customers;
      this.users := users;
      this.roles := roles;
      this.projects := projects;
      this.projectRoles := projectRoles;
      this.tasks := tasks;
      this.reports := reports;
    }

    function Project(id: ObjectId): (r: Option<ProjectDoc>)
      reads this
      ensures r.Some? ==> r.value in projects && r.value.id == id
    {
      Find(projects, ProjectKey, id)
    }

    function Task(id: ObjectId): (r: Option<TaskDoc>)
      reads this
      ensures r.Some? ==> r.value in tasks && r.value.id == id
    {
      Find(tasks, TaskKey, id)
    }

    function Report(id: ObjectId): (r: Option<ReportDoc>)
      reads this
      ensures r.Some? ==> r.value in reports && r.value.id == id
    {
      Find(reports, ReportKey, id)
    }

    function Role(id: ObjectId): (r: Option<RoleDoc>)
      reads this
      ensures r.Some? ==> r.value in roles && r.value.id == id
    {
      Find(roles, RoleKey, id)
    }

    // ------------------------------------------------------------ writes

    method UpdateProject(doc: ProjectDoc)
      modifies this
      ensures projects == Replace(old(projects), ProjectKey, doc)
      ensures customers == old(customers) && users == old(users) && roles == old(roles)
      ensures projectRoles == old(projectRoles) && tasks == old(tasks) && reports == old(reports)
    {
      projects := Replace(projects, ProjectKey, doc);
    }

    method UpdateTask(doc: TaskDoc)
      modifies this
      ensures tasks == Replace(old(tasks), TaskKey, doc)
      ensures customers == old(customers) && users == old(users) && roles == old(roles)
      ensures projects == old(projects) && projectRoles == old(projectRoles) && reports == old(reports)
    {
      tasks := Replace(tasks, TaskKey, doc);
    }

    method UpdateReport(doc: ReportDoc)
      modifies this
      ensures reports == Replace(old(reports), ReportKey, doc)
      ensures customers == old(customers) && users == old(users) && roles == old(roles)
      ensures projects == old(projects) && projectRoles == old(projectRoles) && tasks == old(tasks)
    {
      reports := Replace(reports, ReportKey, doc);
    }

    method UpdateRole(doc: RoleDoc)
      modifies this
      ensures roles == Replace(old(roles), RoleKey, doc)
      ensures customers == old(customers) && users == old(users) && projects == old(projects)
      ensures projectRoles == old(projectRoles) && tasks == old(tasks) && reports == old(reports)
    {
      roles := Replace(roles, RoleKey, doc);
    }

    method InsertProject(doc: ProjectDoc) returns (r: Result<ObjectId>)
      modifies this
      ensures var ins := Insert(old(projects), ProjectKey, doc);
              (r.Ok? <==> ins.Ok?) && (r.Ok? ==> r.value == doc.id && projects == ins.value)
              && (r.Err? ==> r.error == ins.error && projects == old(projects))
      ensures customers == old(customers) && users == old(users) && roles == old(roles)
      ensures projectRoles == old(projectRoles) && tasks == old(tasks) && reports == old(reports)
    {
      var ins := Insert(projects, ProjectKey, doc);
      if ins.Ok? {
        projects := ins.value;
        r := Ok(doc.id);
      } else {
        r := Err(ins.error);
      }
    }

    method InsertTask(doc: TaskDoc) returns (r: Result<ObjectId>)
      modifies this
      ensures var ins := Insert(old(tasks), TaskKey, doc);
              (r.Ok? <==> ins.Ok?) && (r.Ok? ==> r.value == doc.id && tasks == ins.value)
              && (r.Err? ==> r.error == ins.error && tasks == old(tasks))
      ensures customers == old(customers) && users == old(users) && roles == old(roles)
      ensures projects == old(projects) && projectRoles == old(projectRoles) && reports == old(reports)
    {
      var ins := Insert(tasks, TaskKey, doc);
      if ins.Ok? {
        tasks := ins.value;
        r := Ok(doc.id);
      } else {
        r := Err(ins.error);
      }
    }

    method InsertReport(doc: ReportDoc) returns (r: Result<ObjectId>)
      modifies this
      ensures var ins := Insert(old(reports), ReportKey, doc);
              (r.Ok? <==> ins.Ok?) && (r.Ok? ==> r.value == doc.id && reports == ins.value)
              && (r.Err? ==> r.error == ins.error && reports == old(reports))
      ensures customers == old(customers) && users == old(users) && roles == old(roles)
      ensures projects == old(projects) && projectRoles == old(projectRoles) && tasks == old(tasks)
    {
      var ins := Insert(reports, ReportKey, doc);
      if ins.Ok? {
        reports := ins.value;
        r := Ok(doc.id);
      } else {
        r := Err(ins.error);
      }
    }

    method InsertRole(doc: RoleDoc) returns (r: Result<ObjectId>)
      modifies this
      ensures var ins := Insert(old(roles), RoleKey, doc);
              (r.Ok? <==> ins.Ok?) && (r.Ok? ==> r.value == doc.id && roles == ins.value)
              && (r.Err? ==> r.error == ins.error && roles == old(roles))
      ensures customers == old(customers) && users == old(users) && projects == old(projects)
      ensures projectRoles == old(projectRoles) && tasks == old(tasks) && reports == old(reports)
    {
      var ins := Insert(roles, RoleKey, doc);
      if ins.Ok? {
        roles := ins.value;
        r := Ok(doc.id);
      } else {
        r := Err(ins.error);
      }
    }

    method InsertProjectRole(doc: ProjectRoleDoc) returns (r: Result<ObjectId>)
      modifies this
      ensures var ins := Insert(old(projectRoles), ProjectRoleKey, doc);
              (r.Ok? <==> ins.Ok?) && (r.Ok? ==> r.value == doc.id && projectRoles == ins.value)
              && (r.Err? ==> r.error == ins.error && projectRoles == old(projectRoles))
      ensures customers == old(customers) && users == old(users) && roles == old(roles)
      ensures projects == old(projects) && tasks == old(tasks) && reports == old(reports)
    {
      var ins := Insert(projectRoles, ProjectRoleKey, doc);
      if ins.Ok? {
        projectRoles := ins.value;
        r := Ok(doc.id);
      } else {
        r := Err(ins.error);
      }
    }

    method InsertUser(doc: UserDoc) returns (r: Result<ObjectId>)
      modifies this
      ensures var ins := Insert(old(users), UserKey, doc);
              (r.Ok? <==> ins.Ok?) && (r.Ok? ==> r.value == doc.id && users == ins.value)
              && (r.Err? ==> r.error == ins.error && users == old(users))
      ensures customers == old(customers) && roles == old(roles) && projects == old(projects)
      ensures projectRoles == old(projectRoles) && tasks == old(tasks) && reports == old(reports)
    {
      var ins := Insert(users, UserKey, doc);
      if ins.Ok? {
        users := ins.value;
        r := Ok(doc.id);
      } else {
        r := Err(ins.error);
      }
    }

    method DeleteProject(id: ObjectId)
      modifies this
      ensures projects == Remove(old(projects), ProjectKey, id)
      ensures customers == old(customers) && users == old(users) && roles == old(roles)
      ensures projectRoles == old(projectRoles) && tasks == old(tasks) && reports == old(reports)
    {
      projects := Remove(projects, ProjectKey, id);
    }

    method DeleteProjectRole(id: ObjectId)
      modifies this
      ensures projectRoles == Remove(old(projectRoles), ProjectRoleKey, id)
      ensures customers == old(customers) && users == old(users) && roles == old(roles)
      ensures projects == old(projects) && tasks == old(tasks) && reports == old(reports)
    {
      projectRoles := Remove(projectRoles, ProjectRoleKey, id);
    }

    method DeleteTask(id: ObjectId)
      modifies this
      ensures tasks == Remove(old(tasks), TaskKey, id)
      ensures customers == old(customers) && users == old(users) && roles == old(roles)
      ensures projects == old(projects) && projectRoles == old(projectRoles) && reports == old(reports)
    {
      tasks := Remove(tasks, TaskKey, id);
    }

    method DeleteReport(id: ObjectId)
      modifies this
      ensures reports == Remove(old(reports), ReportKey, id)
      ensures customers == old(customers) && users == old(users) && roles == old(roles)
      ensures projects == old(projects) && projectRoles == old(projectRoles) && tasks == old(tasks)
    {
      reports := Remove(reports, ReportKey, id);
    }

    method DeleteRole(id: ObjectId)
      modifies this
      ensures roles == Remove(old(roles), RoleKey, id)
      ensures customers == old(customers) && users == old(users) && projects == old(projects)
      ensures projectRoles == old(projectRoles) && tasks == old(tasks) && reports == old(reports)
    {
      roles := Remove(roles, RoleKey, id);
    }

    /** `Role::delete_many`: the roles collection is emptied. */
    method DeleteAllRoles()
      modifies this
      ensures roles == []
      ensures customers == old(customers) && users == old(users) && projects == old(projects)
      ensures projectRoles == old(projectRoles) && tasks == old(tasks) && reports == old(reports)
    {
      roles := [];
    }
  }
}
