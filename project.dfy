/** A project held in memory (src/models/project.rs): `save`, the in-place
    list edits `add_member`, `add_area` and `remove_area`, and `update_status`,
    each of which writes the whole project back with `update_one`. Fresh ids
    from `ObjectId::new` and the clock are parameters. */
module Projects {
  import opened Base
  import opened Auth
  import opened Store

  datatype MemberRequest = MemberRequest(id: Option<ObjectId>, name: Option<string>, kind: MemberKind, roleId: seq<ObjectId>)

  // ---------------------------------------------------------------- members

  /** The member one request adds, if any: a Support member needs a name and
      gets a fresh id; any other member needs the id of a stored user. */
  function Admitted(request: MemberRequest, newId: ObjectId, users: seq<UserDoc>): (m: Option<Member>)
    ensures request.kind == Support ==> (m.Some? <==> request.name.Some?)
    ensures request.kind == Support && m.Some? ==> m.value == Member(newId, request.name, Support, request.roleId)
    ensures request.kind != Support ==> (m.Some? <==> request.id.Some? && exists u :: u in users && u.id == request.id.value)
    ensures request.kind != Support && m.Some? ==> m.value == Member(request.id.value, None, request.kind, request.roleId)
  {
    if request.kind == Support then
      if request.name.Some? then Some(Member(newId, request.name, Support, request.roleId)) else None
    else if request.id.Some? && Find(users, UserKey, request.id.value).Some? then
      Some(Member(request.id.value, None, request.kind, request.roleId))
    else None
  }

  /** The members appended for a batch of requests, in request order. */
  function AdmittedAll(requests: seq<MemberRequest>, newIds: seq<ObjectId>, users: seq<UserDoc>): (ms: seq<Member>)
    requires |newIds| == |requests|
    ensures |ms| <= |requests|
    ensures forall m :: m in ms ==> exists i :: 0 <= i < |requests| && Admitted(requests[i], newIds[i], users) == Some(m)
  {
    if |requests| == 0 then []
    else
      var n := |requests| - 1;
      var rest := AdmittedAll(requests[..n], newIds[..n], users);
      assert forall i :: 0 <= i < n ==> requests[..n][i] == requests[i] && newIds[..n][i] == newIds[i];
      match Admitted(requests[n], newIds[n], users)
      case Some(m) => rest + [m]
      case None => rest
  }

  /** The loop of `add_member` over the requests. */
  method AdmitAll(users: seq<UserDoc>, requests: seq<MemberRequest>, newIds: seq<ObjectId>) returns (admitted: seq<Member>)
    requires |newIds| == |requests|
    ensures admitted == AdmittedAll(requests, newIds, users)
  {
    admitted := [];
    for i := 0 to |requests|
      invariant admitted == AdmittedAll(requests[..i], newIds[..i], users)
    {
      assert requests[..i + 1][..i] == requests[..i] && newIds[..i + 1][..i] == newIds[..i];
      var request := requests[i];
      if request.kind == Support {
        if request.name.Some? {
          admitted := admitted + [Member(newIds[i], request.name, request.kind, request.roleId)];
        }
      } else if request.id.Some? {
        if Find(users, UserKey, request.id.value).Some? {
          admitted := admitted + [Member(request.id.value, None, request.kind, request.roleId)];
        }
      }
    }
    assert requests[..|requests|] == requests && newIds[..|newIds|] == newIds;
  }

  /** A batch of one request appends what that request admits. */
  lemma AdmittedSingle(request: MemberRequest, newId: ObjectId, users: seq<UserDoc>)
    ensures AdmittedAll([request], [newId], users)
            == match Admitted(request, newId, users) case Some(m) => [m] case None => []
  {
    assert [request][..0] == [] && [newId][..0] == [];
  }

  /** As written, the user check is `User::find_by_id(_id).is_ok()`, which
      holds for every id the query can be run for: a missing user is
      `Ok(None)`, so any id is let in. */
  function AdmittedAsWritten(request: MemberRequest, newId: ObjectId): Option<Member>
  {
    if request.kind == Support then
      if request.name.Some? then Some(Member(newId, request.name, Support, request.roleId)) else None
    else if request.id.Some? then Some(Member(request.id.value, None, request.kind, request.roleId))
    else None
  }

  /** The as-written check lets a member in for an id no user has; the
      corrected one does not. */
  lemma AddMemberAcceptsUnknownUser(users: seq<UserDoc>, request: MemberRequest, newId: ObjectId)
    requires request.kind == Direct && request.id.Some?
    requires forall j :: 0 <= j < |users| ==> users[j].id != request.id.value
    ensures AdmittedAsWritten(request, newId).Some?
    ensures Admitted(request, newId, users).None?
  {
  }

  /** The two agree wherever the id names a stored user, and on Support requests. */
  lemma AdmittedAgreesOnStoredUsers(users: seq<UserDoc>, request: MemberRequest, newId: ObjectId)
    requires request.kind == Support || (request.id.Some? && exists u :: u in users && u.id == request.id.value)
    ensures Admitted(request, newId, users) == AdmittedAsWritten(request, newId)
  {
  }

  // ---------------------------------------------------------------- areas

  /** The area list after `add_area`: the old list (or none) followed by one
      area per requested name, with the fresh ids in order. */
  function AreasAdded(area: Option<seq<Area>>, names: seq<string>, newIds: seq<ObjectId>): (r: seq<Area>)
    requires |newIds| == |names|
    ensures |r| == (if area.Some? then |area.value| else 0) + |names|
    ensures area.Some? ==> r[..|area.value|] == area.value
    ensures var k := if area.Some? then |area.value| else 0;
            forall i :: 0 <= i < |names| ==> r[k + i] == Area(newIds[i], names[i])
  {
    var existing := if area.Some? then area.value else [];
    existing + seq(|names|, i requires 0 <= i < |names| => Area(newIds[i], names[i]))
  }

  /** The area list after `remove_area`: the first area with the id leaves. */
  function AreaRemoved(area: Option<seq<Area>>, id: ObjectId): (r: Option<seq<Area>>)
    ensures area.None? <==> r.None?
    ensures area.Some? && Find(area.value, AreaKey, id).None? ==> r == area
    ensures area.Some? && Find(area.value, AreaKey, id).Some? ==>
              var k := IndexOf(area.value, AreaKey, id).value;
              r.value == area.value[..k] + area.value[k + 1..]
  {
    match area
    case None => None
    case Some(areas) =>
      match IndexOf(areas, AreaKey, id)
      case Some(k) => Some(areas[..k] + areas[k + 1..])
      case None => area
  }

  /** Only the first matching area goes: the others keep their order, and a
      second area with the same id stays. */
  lemma AreaRemovedKeepsOthers(areas: seq<Area>, id: ObjectId)
    ensures var r := AreaRemoved(Some(areas), id).value;
            |r| >= |areas| - 1
            && (forall a :: a in areas && a.id != id ==> a in r)
            && (forall a :: a in r ==> a in areas)
            && multiset(r) + (if Find(areas, AreaKey, id).Some? then multiset{Find(areas, AreaKey, id).value} else multiset{})
               == multiset(areas)
  {
    match IndexOf(areas, AreaKey, id)
    case Some(k) =>
      assert areas == areas[..k] + [areas[k]] + areas[k + 1..];
    case None =>
  }

  /** With ids unique, removing an area leaves no area with that id. */
  lemma AreaRemovedGone(areas: seq<Area>, id: ObjectId)
    requires forall i, j :: 0 <= i < j < |areas| ==> areas[i].id != areas[j].id
    ensures forall a :: a in AreaRemoved(Some(areas), id).value ==> a.id != id
  {
    match IndexOf(areas, AreaKey, id)
    case Some(k) =>
      var r := areas[..k] + areas[k + 1..];
      forall a | a in r ensures a.id != id {
        var j :| 0 <= j < |r| && r[j] == a;
        if j < k { assert r[j] == areas[j]; } else { assert r[j] == areas[j + 1]; }
      }
    case None =>
  }

  // ---------------------------------------------------------------- status

  /** The root tasks of a project, in collection order. */
  function RootTasks(tasks: seq<TaskDoc>, projectId: ObjectId): (r: seq<TaskDoc>)
    ensures forall t :: t in r <==> t in tasks && t.projectId == projectId && t.taskId.None?
  {
    if |tasks| == 0 then []
    else
      var n := |tasks| - 1;
      var rest := RootTasks(tasks[..n], projectId);
      assert tasks == tasks[..n] + [tasks[n]];
      if tasks[n].projectId == projectId && tasks[n].taskId.None? then rest + [tasks[n]] else rest
  }

  function Values(tasks: seq<TaskDoc>): (vs: seq<real>)
    ensures |vs| == |tasks| && forall i :: 0 <= i < |tasks| ==> vs[i] == tasks[i].value
  {
    seq(|tasks|, i requires 0 <= i < |tasks| => tasks[i].value)
  }

  /** Why a project may not start: no root task, or root values that do not
      add up to exactly 100. */
  function StartRefusal(tasks: seq<TaskDoc>, projectId: ObjectId): (r: Option<string>)
    ensures r.None? <==> |RootTasks(tasks, projectId)| > 0 && Sum(Values(RootTasks(tasks, projectId))) == 100.0
    ensures r.Some? ==> r.value in {"PROJECT_TASK_NOT_FOUND", "PROJECT_TASK_VALUE_SUM_MUST_BE_100"}
  {
    var roots := RootTasks(tasks, projectId);
    if |roots| == 0 then Some("PROJECT_TASK_NOT_FOUND")
    else if Sum(Values(roots)) != 100.0 then Some("PROJECT_TASK_VALUE_SUM_MUST_BE_100")
    else None
  }

  /** The loop `for i in &tasks { total += i.value }`. */
  method Total(tasks: seq<TaskDoc>) returns (total: real)
    ensures total == Sum(Values(tasks))
  {
    total := 0.0;
    for i := 0 to |tasks|
      invariant total == Sum(Values(tasks[..i]))
    {
      assert Values(tasks[..i + 1]) == Values(tasks[..i]) + [tasks[i].value];
      total := total + tasks[i].value;
    }
    assert tasks[..|tasks|] == tasks;
  }

  class Project {
    var id: Option<ObjectId>
    var customerId: ObjectId
    var name: string
    var code: string
    var period: Period
    var status: seq<ProjectStatus>
    var area: Option<seq<Area>>
    var member: Option<seq<Member>>
    var leave: Option<seq<Millis>>

    /** A project read back from the collection. */
    constructor FromDoc(doc: ProjectDoc)
      ensures id == Some(doc.id) && Doc() == doc
    {
      id := Some(doc.id);
      customerId := doc.customerId;
      name := doc.name;
      code := doc.code;
      period := doc.period;
      status := doc.status;
      area := doc.area;
      member := doc.member;
      leave := doc.leave;
    }

    /** A project not saved yet. */
    constructor(customerId: ObjectId, name: string, code: string, period: Period,
                status: seq<ProjectStatus>, leave: Option<seq<Millis>>)
      ensures id == None && this.customerId == customerId && this.name == name && this.code == code
      ensures this.period == period && this.status == status && this.leave == leave
      ensures area == None && member == None
    {
      id := None;
      this.customerId := customerId;
      this.name := name;
      this.code := code;
      this.period := period;
      this.status := status;
      area := None;
      member := None;
      this.leave := leave;
    }

    function Doc(): (d: ProjectDoc)
      reads this
      requires id.Some?
      ensures d.id == id.value && d.status == status && d.area == area && d.member == member
    {
      ProjectDoc(id.value, customerId, name, code, period, status, area, member, leave)
    }

    /** `Project::save`: a fresh id; the customer must exist; then one insert. */
    method Save(db: Database, newId: ObjectId) returns (r: Result<ObjectId>)
      modifies this, db
      ensures id == Some(newId) && customerId == old(customerId) && name == old(name) && code == old(code)
      ensures period == old(period) && status == old(status) && area == old(area) && member == old(member)
      ensures leave == old(leave)
      ensures customerId !in db.customers ==> r == Err("CUSTOMER_NOT_FOUND")
      ensures customerId in db.customers ==>
                var ins := Insert(old(db.projects), ProjectKey, Doc());
                (r.Ok? <==> ins.Ok?) && (r.Ok? ==> r == Ok(newId) && db.projects == ins.value)
      ensures r.Err? ==> db.projects == old(db.projects)
      ensures db.customers == old(db.customers) && db.users == old(db.users) && db.roles == old(db.roles)
      ensures db.projectRoles == old(db.projectRoles) && db.tasks == old(db.tasks) && db.reports == old(db.reports)
    {
      id := Some(newId);
      if customerId in db.customers {
        r := db.InsertProject(Doc());
      } else {
        r := Err("CUSTOMER_NOT_FOUND");
      }
    }

    /** `add_member`: admitted requests are appended to the member list and
        the project is written back. */
    method AddMember(db: Database, requests: seq<MemberRequest>, newIds: seq<ObjectId>) returns (r: Result<ObjectId>)
      requires id.Some? && |newIds| == |requests|
      modifies this, db
      ensures member == Some((if old(member).Some? then old(member).value else [])
                             + AdmittedAll(requests, newIds, old(db.users)))
      ensures id == old(id) && status == old(status) && area == old(area) && Doc() == old(Doc()).(member := member)
      ensures db.projects == Replace(old(db.projects), ProjectKey, Doc()) && r == Ok(id.value)
      ensures db.customers == old(db.customers) && db.users == old(db.users) && db.roles == old(db.roles)
      ensures db.projectRoles == old(db.projectRoles) && db.tasks == old(db.tasks) && db.reports == old(db.reports)
    {
      var members := if member.Some? then member.value else [];
      var admitted := AdmitAll(db.users, requests, newIds);
      members := members + admitted;
      member := Some(members);
      db.UpdateProject(Doc());
      r := Ok(id.value);
    }

    /** `add_area`: one new area per request, appended in order. */
    method AddArea(db: Database, names: seq<string>, newIds: seq<ObjectId>) returns (r: Result<ObjectId>)
      requires id.Some? && |newIds| == |names|
      modifies this, db
      ensures area == Some(AreasAdded(old(area), names, newIds))
      ensures id == old(id) && status == old(status) && member == old(member) && Doc() == old(Doc()).(area := area)
      ensures db.projects == Replace(old(db.projects), ProjectKey, Doc()) && r == Ok(id.value)
      ensures db.customers == old(db.customers) && db.users == old(db.users) && db.roles == old(db.roles)
      ensures db.projectRoles == old(db.projectRoles) && db.tasks == old(db.tasks) && db.reports == old(db.reports)
    {
      var areas := if area.Some? then area.value else [];
      ghost var existing := areas;
      for i := 0 to |names|
        invariant areas == existing + seq(i, j requires 0 <= j < i => Area(newIds[j], names[j]))
      {
        areas := areas + [Area(newIds[i], names[i])];
      }
      area := Some(areas);
      db.UpdateProject(Doc());
      r := Ok(id.value);
    }

    /** `remove_area`: the first area with the id leaves, if there is a list. */
    method RemoveArea(db: Database, areaId: ObjectId) returns (r: Result<ObjectId>)
      requires id.Some?
      modifies this, db
      ensures area == AreaRemoved(old(area), areaId)
      ensures id == old(id) && status == old(status) && member == old(member) && Doc() == old(Doc()).(area := area)
      ensures db.projects == Replace(old(db.projects), ProjectKey, Doc()) && r == Ok(id.value)
      ensures db.customers == old(db.customers) && db.users == old(db.users) && db.roles == old(db.roles)
      ensures db.projectRoles == old(db.projectRoles) && db.tasks == old(db.tasks) && db.reports == old(db.reports)
    {
      if area.Some? {
        var index := IndexOf(area.value, AreaKey, areaId);
        if index.Some? {
          var k := index.value;
          area := Some(area.value[..k] + area.value[k + 1..]);
        }
      }
      db.UpdateProject(Doc());
      r := Ok(id.value);
    }

    /** `update_status`: the new status goes first in memory; starting the
        project needs root tasks whose values add up to 100, and only then
        is the project written back. */
    method UpdateStatus(db: Database, kind: ProjectStatusKind, message: Option<string>, now: Millis)
      returns (r: Result<ObjectId>)
      requires id.Some?
      modifies this, db
      ensures status == [ProjectStatus(kind, now, message)] + old(status)
      ensures id == old(id) && Doc() == old(Doc()).(status := status)
      ensures kind == Running && StartRefusal(old(db.tasks), id.value).Some? ==>
                r == Err(StartRefusal(old(db.tasks), id.value).value) && db.projects == old(db.projects)
      ensures kind != Running || StartRefusal(old(db.tasks), id.value).None? ==>
                r == Ok(id.value) && db.projects == Replace(old(db.projects), ProjectKey, Doc())
      ensures db.customers == old(db.customers) && db.users == old(db.users) && db.roles == old(db.roles)
      ensures db.projectRoles == old(db.projectRoles) && db.tasks == old(db.tasks) && db.reports == old(db.reports)
    {
      status := [ProjectStatus(kind, now, message)] + status;
      if kind == Running {
        var roots := RootTasks(db.tasks, id.value);
        if |roots| == 0 {
          return Err("PROJECT_TASK_NOT_FOUND");
        }
        var total := Total(roots);
        if total != 100.0 {
          return Err("PROJECT_TASK_VALUE_SUM_MUST_BE_100");
        }
      }
      db.UpdateProject(Doc());
      r := Ok(id.value);
    }
  }

  /** The history after a status change: the new entry first, the old
      history shifted by one and otherwise untouched. */
  lemma StatusPrependShifts(history: seq<ProjectStatus>, entry: ProjectStatus)
    ensures Latest([entry] + history) == Some(entry)
    ensures ([entry] + history)[1..] == history
    ensures forall i :: 0 <= i < |history| ==> ([entry] + history)[i + 1] == history[i]
  {
  }
}
