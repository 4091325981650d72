/** A project task held in memory (src/models/project_task.rs): `save`,
    `update_period`, the finishing cascade of `update_status`, and the
    filter `find_many` builds. */
module Tasks {
  import opened Base
  import opened Store
  import opened Projects

  // ---------------------------------------------------------------- find_many

  datatype TaskQuery = TaskQuery(id: Option<ObjectId>, projectId: Option<ObjectId>, taskId: Option<ObjectId>,
                                 areaId: Option<ObjectId>, limit: Option<nat>, base: bool)

  /** One `$eq` clause of the `$match` stage. */
  datatype Condition = IdIs(id: ObjectId) | ProjectIs(id: ObjectId) | AreaIs(id: ObjectId)
                     | ParentIs(id: ObjectId) | NoParent

  predicate Holds(c: Condition, t: TaskDoc)
  {
    match c
    case IdIs(id) => t.id == id
    case ProjectIs(id) => t.projectId == id
    case AreaIs(id) => t.areaId == id
    case ParentIs(id) => t.taskId == Some(id)
    case NoParent => t.taskId.None?
  }

  /** `$and` over the clauses; an empty `$and` holds for every task. */
  predicate AllHold(cs: seq<Condition>, t: TaskDoc)
  {
    forall i :: 0 <= i < |cs| ==> Holds(cs[i], t)
  }

  /** What a query asks of a task: every given field matches, and `base`
      asks for a root task only when no parent id is given. */
  predicate Selects(q: TaskQuery, t: TaskDoc)
  {
    (q.id.Some? ==> t.id == q.id.value)
    && (q.projectId.Some? ==> t.projectId == q.projectId.value)
    && (q.areaId.Some? ==> t.areaId == q.areaId.value)
    && (q.taskId.Some? ==> t.taskId == q.taskId)
    && (q.taskId.None? && q.base ==> t.taskId.None?)
  }

  /** The clause list `find_many` pushes, one optional clause per field. */
  method Conditions(q: TaskQuery) returns (cs: seq<Condition>)
    ensures |cs| <= 4
    ensures forall t :: AllHold(cs, t) <==> Selects(q, t)
  {
    cs := [];
    if q.id.Some? {
      cs := cs + [IdIs(q.id.value)];
    }
    if q.projectId.Some? {
      cs := cs + [ProjectIs(q.projectId.value)];
    }
    if q.areaId.Some? {
      cs := cs + [AreaIs(q.areaId.value)];
    }
    if q.taskId.Some? {
      cs := cs + [ParentIs(q.taskId.value)];
    } else if q.base {
      cs := cs + [NoParent];
    }
    forall t ensures AllHold(cs, t) <==> Selects(q, t) {
      if AllHold(cs, t) {
        if q.id.Some? { HoldsMember(cs, IdIs(q.id.value), t); }
        if q.projectId.Some? { HoldsMember(cs, ProjectIs(q.projectId.value), t); }
        if q.areaId.Some? { HoldsMember(cs, AreaIs(q.areaId.value), t); }
        if q.taskId.Some? { HoldsMember(cs, ParentIs(q.taskId.value), t); }
        else if q.base { HoldsMember(cs, NoParent, t); }
      }
    }
  }

  lemma HoldsMember(cs: seq<Condition>, c: Condition, t: TaskDoc)
    requires AllHold(cs, t) && c in cs
    ensures Holds(c, t)
  {
    var i :| 0 <= i < |cs| && cs[i] == c;
  }

  /** A parent id in the query makes `base` irrelevant. */
  lemma ParentIdOverridesBase(q: TaskQuery, t: TaskDoc)
    requires q.taskId.Some?
    ensures Selects(q, t) <==> Selects(q.(base := !q.base), t)
  {
  }

  /** The tasks a query selects, in collection order. */
  function Matching(tasks: seq<TaskDoc>, q: TaskQuery): (r: seq<TaskDoc>)
    ensures |r| <= |tasks|
    ensures forall t :: t in r <==> t in tasks && Selects(q, t)
  {
    if |tasks| == 0 then []
    else
      var n := |tasks| - 1;
      assert tasks == tasks[..n] + [tasks[n]];
      Matching(tasks[..n], q) + (if Selects(q, tasks[n]) then [tasks[n]] else [])
  }

  /** `find_many`: the aggregation of the selected tasks, cut to `limit`.
      A `$limit` of 0 is refused by the server, so the aggregation fails;
      an empty result is `Ok(None)`. */
  function FindMany(tasks: seq<TaskDoc>, q: TaskQuery): (r: Result<Option<seq<TaskDoc>>>)
    ensures r.Err? <==> q.limit == Some(0)
    ensures r.Err? ==> r.error == "PROJECT_TASK_NOT_FOUND"
    ensures r.Ok? ==> (r.value.None? <==> |Matching(tasks, q)| == 0)
    ensures r.Ok? && r.value.Some? ==> forall t :: t in r.value.value ==> t in tasks && Selects(q, t)
    ensures r.Ok? && r.value.Some? && q.limit.None? ==> r.value.value == Matching(tasks, q)
    ensures r.Ok? && r.value.Some? && q.limit.Some?
            ==> r.value.value == Matching(tasks, q)[..Min(q.limit.value, |Matching(tasks, q)|)]
  {
    if q.limit == Some(0) then Err("PROJECT_TASK_NOT_FOUND")
    else
      var found := Matching(tasks, q);
      var kept := if q.limit.Some? && q.limit.value < |found| then found[..q.limit.value] else found;
      if |kept| == 0 then Ok(None) else Ok(Some(kept))
  }

  function Min(a: int, b: int): int
  {
    if a <= b then a else b
  }

  /** What the callers take from `find_many`: the tasks of an `Ok(Some(..))`,
      anything else read as none. */
  function Found(tasks: seq<TaskDoc>, q: TaskQuery): (r: Option<seq<TaskDoc>>)
    ensures r.None? <==> |Matching(tasks, q)| == 0 || q.limit == Some(0)
    ensures r.Some? ==> forall t :: t in r.value ==> t in tasks && Selects(q, t)
    ensures r.Some? && q.limit.None? ==> r.value == Matching(tasks, q)
  {
    match FindMany(tasks, q)
    case Ok(Some(found)) => Some(found)
    case _ => None
  }

  function SiblingQuery(parent: ObjectId): TaskQuery
  {
    TaskQuery(None, None, Some(parent), None, None, false)
  }

  function RootQuery(): TaskQuery
  {
    TaskQuery(None, None, None, None, None, true)
  }

  // ---------------------------------------------------------------- save

  /** The parent as `save` writes it back: no volume and no assignees, the
      rest untouched. */
  function Cleared(parent: TaskDoc): (c: TaskDoc)
    ensures c.volume.None? && c.userId.None?
    ensures c.(volume := parent.volume, userId := parent.userId) == parent
  {
    parent.(volume := None, userId := None)
  }

  /** The task collection once `save` has dealt with the parent: a parent
      that is found is written back cleared. */
  function Adopted(tasks: seq<TaskDoc>, taskId: Option<ObjectId>): seq<TaskDoc>
  {
    if taskId.Some? && Find(tasks, TaskKey, taskId.value).Some?
    then Replace(tasks, TaskKey, Cleared(Find(tasks, TaskKey, taskId.value).value))
    else tasks
  }

  /** Why a task may not be stored under a project: the project is missing,
      or none of its areas has the task's area id. */
  function Placement(project: Option<ProjectDoc>, areaId: ObjectId): (r: Option<string>)
    ensures r.None? <==> project.Some? && project.value.area.Some? && exists a :: a in project.value.area.value && a.id == areaId
    ensures project.None? ==> r == Some("PROJECT_NOT_FOUND")
    ensures project.Some? && r.Some? ==> r == Some("PROJECT_AREA_NOT_FOUND")
  {
    if project.None? then Some("PROJECT_NOT_FOUND")
    else if project.value.area.Some? && Find(project.value.area.value, AreaKey, areaId).Some? then None
    else Some("PROJECT_AREA_NOT_FOUND")
  }

  // ---------------------------------------------------------------- status

  predicate LatestFinished(t: TaskDoc)
  {
    Latest(t.status).Some? && Latest(t.status).value.kind == TaskFinished
  }

  /** The `all` test: every listed task is the one being finished or has
      Finished as its latest status. */
  predicate OthersFinished(tasks: seq<TaskDoc>, self: ObjectId)
  {
    forall i :: 0 <= i < |tasks| ==> tasks[i].id == self || LatestFinished(tasks[i])
  }

  /** The parent chain from `parent` leaves the stored tasks, or reaches a
      root, within `fuel` steps. */
  predicate Climbs(tasks: seq<TaskDoc>, parent: Option<ObjectId>, fuel: nat)
    decreases fuel
  {
    match parent
    case None => true
    case Some(p) =>
      fuel > 0 && (Find(tasks, TaskKey, p).None? || Climbs(tasks, Find(tasks, TaskKey, p).value.taskId, fuel - 1))
  }

  /** The in-memory task has the parent link its stored copy has. */
  predicate LinkAgrees(tasks: seq<TaskDoc>, t: TaskDoc)
  {
    Find(tasks, TaskKey, t.id).None? || Find(tasks, TaskKey, t.id).value.taskId == t.taskId
  }

  /** Writing a task back with its own parent link keeps every chain as long. */
  lemma {:induction false} ClimbsReplace(tasks: seq<TaskDoc>, x: TaskDoc, parent: Option<ObjectId>, fuel: nat)
    requires LinkAgrees(tasks, x) && Climbs(tasks, parent, fuel)
    ensures Climbs(Replace(tasks, TaskKey, x), parent, fuel)
    decreases fuel
  {
    var r := Replace(tasks, TaskKey, x);
    match parent
    case None =>
    case Some(p) =>
      if p != x.id {
        FindAfterReplace(tasks, TaskKey, x, p);
      }
      if Find(tasks, TaskKey, p).Some? {
        ClimbsReplace(tasks, x, Find(tasks, TaskKey, p).value.taskId, fuel - 1);
      }
  }

  /** What a status change writes: the result and the task and project
      collections afterwards. */
  datatype Outcome = Outcome(result: Result<ObjectId>, tasks: seq<TaskDoc>, projects: seq<ProjectDoc>)

  /** One level of the cascade: either it ends with an outcome, or it has
      written the task back and goes on to finish `parent`. */
  datatype Step = Done(outcome: Outcome) | Climb(tasks: seq<TaskDoc>, parent: TaskDoc)

  function Prepended(t: TaskDoc, kind: TaskStatusKind, message: Option<string>, now: Millis): (t': TaskDoc)
    ensures t'.id == t.id && t'.taskId == t.taskId && t'.projectId == t.projectId
    ensures |t'.status| == |t.status| + 1
    ensures t'.status[0] == TaskStatus(kind, now, message) && t'.status[1..] == t.status
    ensures t'.(status := t.status) == t
  {
    t.(status := [TaskStatus(kind, now, message)] + t.status)
  }

  function FinishedProject(p: ProjectDoc, now: Millis): (p': ProjectDoc)
    ensures p'.id == p.id && Latest(p'.status) == Some(ProjectStatus(Finished, now, None)) && p'.status[1..] == p.status
  {
    p.(status := [ProjectStatus(Finished, now, None)] + p.status)
  }

  /** Finishing sub-task `t'` (its new status already first): without
      siblings the update fails; otherwise `t'` is written, and when every
      sibling is finished the cascade climbs to the parent. */
  function SubTaskStep(tasks: seq<TaskDoc>, projects: seq<ProjectDoc>, t': TaskDoc): (s: Step)
    requires t'.taskId.Some?
    ensures s.Climb? ==> s.tasks == Replace(tasks, TaskKey, t') && Find(s.tasks, TaskKey, t'.taskId.value) == Some(s.parent)
    ensures s.Done? ==> s.outcome.projects == projects
    ensures s.Done? ==> s.outcome.tasks == tasks || s.outcome.tasks == Replace(tasks, TaskKey, t')
    ensures s.Done? && s.outcome.result.Ok? ==> s.outcome.result.value == t'.id
  {
    var siblings := Found(tasks, SiblingQuery(t'.taskId.value));
    if siblings.None? then Done(Outcome(Err("UPDATE_FAILED"), tasks, projects))
    else
      var written := Replace(tasks, TaskKey, t');
      if !OthersFinished(siblings.value, t'.id) then Done(Outcome(Ok(t'.id), written, projects))
      else
        match Find(written, TaskKey, t'.taskId.value)
        case None => Done(Outcome(Err("PROJECT_TASK_NOT_FOUND"), written, projects))
        case Some(parent) => Climb(written, parent)
  }

  /** Finishing root task `t'`: without root tasks the update fails; when
      every root task (of any project) is finished, its project must exist
      and is finished too; then `t'` is written. */
  function RootStep(tasks: seq<TaskDoc>, projects: seq<ProjectDoc>, t': TaskDoc, now: Millis): (o: Outcome)
    ensures o.tasks == tasks || o.tasks == Replace(tasks, TaskKey, t')
    ensures o.result.Ok? ==> o.result.value == t'.id
  {
    var roots := Found(tasks, RootQuery());
    if roots.None? then Outcome(Err("UPDATE_FAILED"), tasks, projects)
    else if !OthersFinished(roots.value, t'.id) then Outcome(Ok(t'.id), Replace(tasks, TaskKey, t'), projects)
    else
      match Find(projects, ProjectKey, t'.projectId)
      case None => Outcome(Err("UPDATE_FAILED"), tasks, projects)
      case Some(p) =>
        Outcome(Ok(t'.id), Replace(tasks, TaskKey, t'), Replace(projects, ProjectKey, FinishedProject(p, now)))
  }

  /** One level of `update_status` on task `t`: the new status goes first;
      anything but Finished is only written back. */
  function StepOf(tasks: seq<TaskDoc>, projects: seq<ProjectDoc>, t: TaskDoc, kind: TaskStatusKind,
                  message: Option<string>, now: Millis): (s: Step)
    ensures var t' := Prepended(t, kind, message, now);
            s.Climb? ==> kind == TaskFinished && t.taskId.Some? && s.tasks == Replace(tasks, TaskKey, t')
                         && Find(s.tasks, TaskKey, t.taskId.value) == Some(s.parent)
    ensures var t' := Prepended(t, kind, message, now);
            s.Done? ==> s.outcome.tasks == tasks || s.outcome.tasks == Replace(tasks, TaskKey, t')
    ensures s.Done? && s.outcome.result.Ok? ==> s.outcome.result.value == t.id
  {
    var t' := Prepended(t, kind, message, now);
    if kind != TaskFinished then Done(Outcome(Ok(t.id), Replace(tasks, TaskKey, t'), projects))
    else if t.taskId.Some? then SubTaskStep(tasks, projects, t')
    else Done(RootStep(tasks, projects, t', now))
  }

  /** The whole cascade: one level after another up the parent chain. */
  ghost function Cascade(tasks: seq<TaskDoc>, projects: seq<ProjectDoc>, t: TaskDoc, kind: TaskStatusKind,
                         message: Option<string>, now: Millis, fuel: nat): Outcome
    requires Climbs(tasks, t.taskId, fuel) && LinkAgrees(tasks, t)
    decreases fuel
  {
    match StepOf(tasks, projects, t, kind, message, now)
    case Done(o) => o
    case Climb(written, parent) =>
      ClimbsReplace(tasks, Prepended(t, kind, message, now), t.taskId, fuel);
      Cascade(written, projects, parent, TaskFinished, None, now, fuel - 1)
  }

  /** A level that ends gives the outcome of the whole cascade. */
  lemma CascadeEnds(tasks: seq<TaskDoc>, projects: seq<ProjectDoc>, t: TaskDoc, kind: TaskStatusKind,
                    message: Option<string>, now: Millis, fuel: nat, o: Outcome)
    requires Climbs(tasks, t.taskId, fuel) && LinkAgrees(tasks, t)
    requires StepOf(tasks, projects, t, kind, message, now) == Done(o)
    ensures Cascade(tasks, projects, t, kind, message, now, fuel) == o
  {
  }

  /** A level that climbs leaves a chain the rest of the cascade can walk,
      and the cascade goes on from the parent. */
  lemma CascadeClimbs(tasks: seq<TaskDoc>, projects: seq<ProjectDoc>, t: TaskDoc, kind: TaskStatusKind,
                      message: Option<string>, now: Millis, fuel: nat, written: seq<TaskDoc>, parent: TaskDoc)
    requires Climbs(tasks, t.taskId, fuel) && LinkAgrees(tasks, t)
    requires StepOf(tasks, projects, t, kind, message, now) == Climb(written, parent)
    ensures fuel > 0 && Climbs(written, parent.taskId, fuel - 1) && LinkAgrees(written, parent)
    ensures Cascade(tasks, projects, t, kind, message, now, fuel)
            == Cascade(written, projects, parent, TaskFinished, None, now, fuel - 1)
  {
    ClimbsReplace(tasks, Prepended(t, kind, message, now), t.taskId, fuel);
  }

  /** A cascade of finishes only ever writes tasks whose latest status is
      Finished, so a task that was finished stays finished. */
  lemma {:induction false} CascadeKeepsFinished(tasks: seq<TaskDoc>, projects: seq<ProjectDoc>, t: TaskDoc,
                                                now: Millis, fuel: nat, id: ObjectId)
    requires Climbs(tasks, t.taskId, fuel) && LinkAgrees(tasks, t)
    requires Find(tasks, TaskKey, id).Some? && LatestFinished(Find(tasks, TaskKey, id).value)
    ensures var after := Cascade(tasks, projects, t, TaskFinished, None, now, fuel).tasks;
            Find(after, TaskKey, id).Some? && LatestFinished(Find(after, TaskKey, id).value)
    decreases fuel
  {
    var t' := Prepended(t, TaskFinished, None, now);
    var written := Replace(tasks, TaskKey, t');
    if id != t.id {
      FindAfterReplace(tasks, TaskKey, t', id);
    }
    match StepOf(tasks, projects, t, TaskFinished, None, now)
    case Done(o) =>
    case Climb(_, parent) =>
      ClimbsReplace(tasks, t', t.taskId, fuel);
      CascadeKeepsFinished(written, projects, parent, now, fuel - 1, id);
  }

  /** Finishing a stored task leaves it finished, unless it is a root task
      whose project is missing. */
  lemma CascadeFinishesSelf(tasks: seq<TaskDoc>, projects: seq<ProjectDoc>, t: TaskDoc, now: Millis, fuel: nat)
    requires Climbs(tasks, t.taskId, fuel) && Find(tasks, TaskKey, t.id) == Some(t)
    requires t.taskId.None? ==> Find(projects, ProjectKey, t.projectId).Some?
    ensures var after := Cascade(tasks, projects, t, TaskFinished, None, now, fuel).tasks;
            Find(after, TaskKey, t.id).Some? && LatestFinished(Find(after, TaskKey, t.id).value)
  {
    var t' := Prepended(t, TaskFinished, None, now);
    var written := Replace(tasks, TaskKey, t');
    assert Find(written, TaskKey, t.id) == Some(t');
    assert LatestFinished(t');
    var step := StepOf(tasks, projects, t, TaskFinished, None, now);
    if t.taskId.Some? {
      assert t in Matching(tasks, SiblingQuery(t.taskId.value));
      assert step == SubTaskStep(tasks, projects, t');
      match step
      case Done(o) =>
        assert o.tasks == written;
      case Climb(_, parent) =>
        ClimbsReplace(tasks, t', t.taskId, fuel);
        CascadeKeepsFinished(written, projects, parent, now, fuel - 1, t.id);
    } else {
      assert t in Matching(tasks, RootQuery());
      assert step == Done(RootStep(tasks, projects, t', now));
      assert RootStep(tasks, projects, t', now).tasks == written;
    }
  }

  /** Finishing a sub-task finishes its parent when every sibling is
      already finished (a root parent also needs its project). */
  lemma ParentFinishedWhenSiblingsAre(tasks: seq<TaskDoc>, projects: seq<ProjectDoc>, t: TaskDoc, now: Millis, fuel: nat)
    requires Climbs(tasks, t.taskId, fuel) && LinkAgrees(tasks, t)
    requires t.taskId.Some? && t.taskId.value != t.id
    requires Find(tasks, TaskKey, t.taskId.value).Some?
    requires var parent := Find(tasks, TaskKey, t.taskId.value).value;
             parent.taskId.None? ==> Find(projects, ProjectKey, parent.projectId).Some?
    requires var siblings := Found(tasks, SiblingQuery(t.taskId.value));
             siblings.Some? && OthersFinished(siblings.value, t.id)
    ensures var after := Cascade(tasks, projects, t, TaskFinished, None, now, fuel).tasks;
            var p := t.taskId.value;
            Find(after, TaskKey, p).Some? && LatestFinished(Find(after, TaskKey, p).value)
  {
    var t' := Prepended(t, TaskFinished, None, now);
    var written := Replace(tasks, TaskKey, t');
    var p := t.taskId.value;
    FindAfterReplace(tasks, TaskKey, t', p);
    ClimbsReplace(tasks, t', t.taskId, fuel);
    var parent := Find(written, TaskKey, p).value;
    assert StepOf(tasks, projects, t, TaskFinished, None, now) == Climb(written, parent);
    CascadeFinishesSelf(written, projects, parent, now, fuel - 1);
  }

  /** While some sibling is unfinished the parent is left as it was. */
  lemma ParentUntouchedWhileSiblingRuns(tasks: seq<TaskDoc>, projects: seq<ProjectDoc>, t: TaskDoc, now: Millis,
                                        fuel: nat, sibling: TaskDoc)
    requires Climbs(tasks, t.taskId, fuel) && LinkAgrees(tasks, t)
    requires t.taskId.Some? && t.taskId.value != t.id
    requires sibling in tasks && sibling.taskId == t.taskId && sibling.id != t.id && !LatestFinished(sibling)
    ensures var o := Cascade(tasks, projects, t, TaskFinished, None, now, fuel);
            o.result == Ok(t.id)
            && Find(o.tasks, TaskKey, t.taskId.value) == Find(tasks, TaskKey, t.taskId.value)
            && o.projects == projects
  {
    var t' := Prepended(t, TaskFinished, None, now);
    var siblings := Found(tasks, SiblingQuery(t.taskId.value));
    assert sibling in Matching(tasks, SiblingQuery(t.taskId.value));
    var k :| 0 <= k < |siblings.value| && siblings.value[k] == sibling;
    assert !OthersFinished(siblings.value, t.id);
    FindAfterReplace(tasks, TaskKey, t', t.taskId.value);
  }

  /** The root test spans every project: one unfinished root task anywhere
      else keeps the project from finishing. */
  lemma RootTestSpansProjects(tasks: seq<TaskDoc>, projects: seq<ProjectDoc>, t: TaskDoc, now: Millis,
                              fuel: nat, other: TaskDoc)
    requires Climbs(tasks, t.taskId, fuel) && LinkAgrees(tasks, t)
    requires t.taskId.None?
    requires other in tasks && other.taskId.None? && other.id != t.id && !LatestFinished(other)
    ensures Cascade(tasks, projects, t, TaskFinished, None, now, fuel).projects == projects
  {
    var roots := Found(tasks, RootQuery());
    assert other in Matching(tasks, RootQuery());
    var k :| 0 <= k < |roots.value| && roots.value[k] == other;
  }

  /** Finishing the last unfinished root task finishes its project. */
  lemma LastRootFinishesProject(tasks: seq<TaskDoc>, projects: seq<ProjectDoc>, t: TaskDoc, now: Millis, fuel: nat)
    requires Climbs(tasks, t.taskId, fuel) && LinkAgrees(tasks, t)
    requires t.taskId.None? && t in tasks
    requires forall u :: u in tasks && u.taskId.None? && u.id != t.id ==> LatestFinished(u)
    requires Find(projects, ProjectKey, t.projectId).Some?
    ensures var o := Cascade(tasks, projects, t, TaskFinished, None, now, fuel);
            var p := Find(projects, ProjectKey, t.projectId).value;
            o.result == Ok(t.id)
            && Find(o.projects, ProjectKey, t.projectId) == Some(FinishedProject(p, now))
  {
    var roots := Found(tasks, RootQuery());
    assert t in Matching(tasks, RootQuery());
    assert OthersFinished(roots.value, t.id) by {
      forall i | 0 <= i < |roots.value| ensures roots.value[i].id == t.id || LatestFinished(roots.value[i]) {
        assert roots.value[i] in roots.value;
      }
    }
  }

  /** A change to any status other than Finished only prepends it. */
  lemma OtherKindsOnlyPrepend(tasks: seq<TaskDoc>, projects: seq<ProjectDoc>, t: TaskDoc, kind: TaskStatusKind,
                              message: Option<string>, now: Millis, fuel: nat)
    requires Climbs(tasks, t.taskId, fuel) && LinkAgrees(tasks, t)
    requires kind != TaskFinished && t in tasks
    ensures var o := Cascade(tasks, projects, t, kind, message, now, fuel);
            o.result == Ok(t.id) && o.projects == projects
            && Find(o.tasks, TaskKey, t.id) == Some(Prepended(t, kind, message, now))
            && forall id :: id != t.id ==> Find(o.tasks, TaskKey, id) == Find(tasks, TaskKey, id)
  {
    var t' := Prepended(t, kind, message, now);
    forall id | id != t.id ensures Find(Replace(tasks, TaskKey, t'), TaskKey, id) == Find(tasks, TaskKey, id) {
      FindAfterReplace(tasks, TaskKey, t', id);
    }
  }

  // ---------------------------------------------------------------- shape

  /** Two task collections with the same ids and parent links in the same
      positions: they differ at most in what status changes write. */
  predicate SameShape(a: seq<TaskDoc>, b: seq<TaskDoc>)
  {
    |a| == |b| && forall j :: 0 <= j < |a| ==> a[j].id == b[j].id && a[j].taskId == b[j].taskId
  }

  lemma ShapeTrans(a: seq<TaskDoc>, b: seq<TaskDoc>, c: seq<TaskDoc>)
    requires SameShape(a, b) && SameShape(b, c)
    ensures SameShape(a, c)
  {
  }

  /** Every stored task's parent chain ends within `n` steps. */
  predicate ChainsEnd(tasks: seq<TaskDoc>, n: nat)
  {
    forall j :: 0 <= j < |tasks| ==> Climbs(tasks, tasks[j].taskId, n)
  }

  /** Lookups see the same positions in collections of the same shape. */
  lemma ShapeFind(a: seq<TaskDoc>, b: seq<TaskDoc>, id: ObjectId)
    requires SameShape(a, b)
    ensures Find(a, TaskKey, id).Some? <==> Find(b, TaskKey, id).Some?
    ensures Find(a, TaskKey, id).Some? ==> Find(a, TaskKey, id).value.taskId == Find(b, TaskKey, id).value.taskId
  {
    match IndexOf(a, TaskKey, id)
    case Some(k) =>
      IndexOfFirst(b, TaskKey, id, k);
    case None =>
  }

  lemma {:induction false} ShapeClimbs(a: seq<TaskDoc>, b: seq<TaskDoc>, parent: Option<ObjectId>, n: nat)
    requires SameShape(a, b)
    ensures Climbs(a, parent, n) <==> Climbs(b, parent, n)
    decreases n
  {
    match parent
    case None =>
    case Some(p) =>
      ShapeFind(a, b, p);
      if n > 0 && Find(a, TaskKey, p).Some? {
        ShapeClimbs(a, b, Find(a, TaskKey, p).value.taskId, n - 1);
      }
  }

  lemma ShapeChainsEnd(a: seq<TaskDoc>, b: seq<TaskDoc>, n: nat)
    requires SameShape(a, b) && ChainsEnd(a, n)
    ensures ChainsEnd(b, n)
  {
    forall j | 0 <= j < |b| ensures Climbs(b, b[j].taskId, n) {
      ShapeClimbs(a, b, a[j].taskId, n);
    }
  }

  /** Writing back a task with its stored parent link keeps the shape. */
  lemma ReplaceKeepsShape(tasks: seq<TaskDoc>, x: TaskDoc)
    requires LinkAgrees(tasks, x)
    ensures SameShape(tasks, Replace(tasks, TaskKey, x))
  {
  }

  /** A status cascade changes statuses only: no task appears, disappears
      or changes its parent. */
  lemma {:induction false} CascadeKeepsShape(tasks: seq<TaskDoc>, projects: seq<ProjectDoc>, t: TaskDoc,
                                             kind: TaskStatusKind, message: Option<string>, now: Millis, fuel: nat)
    requires Climbs(tasks, t.taskId, fuel) && LinkAgrees(tasks, t)
    ensures SameShape(tasks, Cascade(tasks, projects, t, kind, message, now, fuel).tasks)
    decreases fuel
  {
    var t' := Prepended(t, kind, message, now);
    ReplaceKeepsShape(tasks, t');
    match StepOf(tasks, projects, t, kind, message, now)
    case Done(o) =>
    case Climb(written, parent) =>
      CascadeClimbs(tasks, projects, t, kind, message, now, fuel, written, parent);
      CascadeKeepsShape(written, projects, parent, TaskFinished, None, now, fuel - 1);
  }

  /** A stored task can start a cascade when every chain ends. */
  lemma StoredTaskClimbs(tasks: seq<TaskDoc>, n: nat, id: ObjectId)
    requires ChainsEnd(tasks, n) && Find(tasks, TaskKey, id).Some?
    ensures var t := Find(tasks, TaskKey, id).value;
            Climbs(tasks, t.taskId, n) && LinkAgrees(tasks, t)
  {
    var t := Find(tasks, TaskKey, id).value;
    var j :| 0 <= j < |tasks| && tasks[j] == t;
  }

  class ProjectTask {
    var id: Option<ObjectId>
    var projectId: ObjectId
    var areaId: ObjectId
    var taskId: Option<ObjectId>
    var userId: Option<seq<ObjectId>>
    var name: string
    var description: Option<string>
    var period: Option<Period>
    var status: seq<TaskStatus>
    var volume: Option<Volume>
    var value: real

    constructor FromDoc(doc: TaskDoc)
      ensures id == Some(doc.id) && Doc() == doc
    {
      id := Some(doc.id);
      projectId := doc.projectId;
      areaId := doc.areaId;
      taskId := doc.taskId;
      userId := doc.userId;
      name := doc.name;
      description := doc.description;
      period := doc.period;
      status := doc.status;
      volume := doc.volume;
      value := doc.value;
    }

    /** A task not saved yet, without a period. */
    constructor(projectId: ObjectId, areaId: ObjectId, taskId: Option<ObjectId>, userId: Option<seq<ObjectId>>,
                name: string, description: Option<string>, status: seq<TaskStatus>, volume: Option<Volume>, value: real)
      ensures id == None && period == None
      ensures this.projectId == projectId && this.areaId == areaId && this.taskId == taskId
      ensures this.userId == userId && this.name == name && this.description == description
      ensures this.status == status && this.volume == volume && this.value == value
    {
      id := None;
      this.projectId := projectId;
      this.areaId := areaId;
      this.taskId := taskId;
      this.userId := userId;
      this.name := name;
      this.description := description;
      period := None;
      this.status := status;
      this.volume := volume;
      this.value := value;
    }

    function Doc(): (d: TaskDoc)
      reads this
      requires id.Some?
      ensures d.id == id.value && d.taskId == taskId && d.areaId == areaId && d.status == status
      ensures d.period == period && d.projectId == projectId && d.value == value
    {
      TaskDoc(id.value, projectId, areaId, taskId, userId, name, description, period, status, volume, value)
    }

    /** The parent part of `save`: the parent must exist; it loses its
        volume and assignees and the new task takes its area. */
    method AdoptParent(db: Database) returns (r: Option<string>)
      requires taskId.Some?
      modifies this`areaId, db
      ensures old(db.Task(taskId.value)).None? ==>
                r == Some("PROJECT_TASK_NOT_FOUND") && db.tasks == old(db.tasks) && areaId == old(areaId)
      ensures old(db.Task(taskId.value)).Some? ==>
                var parent := old(db.Task(taskId.value)).value;
                r.None? && areaId == parent.areaId && db.tasks == Replace(old(db.tasks), TaskKey, Cleared(parent))
      ensures db.customers == old(db.customers) && db.users == old(db.users) && db.roles == old(db.roles)
      ensures db.projects == old(db.projects) && db.projectRoles == old(db.projectRoles) && db.reports == old(db.reports)
    {
      var parent := db.Task(taskId.value);
      if parent.None? {
        return Some("PROJECT_TASK_NOT_FOUND");
      }
      var cleared := Cleared(parent.value);
      db.UpdateTask(cleared);
      areaId := cleared.areaId;
      r := None;
    }

    /** `save`: a fresh id; a sub-task clears its parent and takes its area
        (`AdoptParent`); the project must exist and own that area; then one
        insert. */
    method Save(db: Database, newId: ObjectId) returns (r: Result<ObjectId>)
      modifies this, db
      ensures id == Some(newId) && taskId == old(taskId) && projectId == old(projectId) && status == old(status)
      ensures old(taskId).Some? && old(db.Task(taskId.value)).None? ==>
                r == Err("PROJECT_TASK_NOT_FOUND") && db.tasks == old(db.tasks)
      ensures old(taskId).Some? && old(db.Task(taskId.value)).Some? ==>
                areaId == old(db.Task(taskId.value)).value.areaId
      ensures old(taskId).None? ==> areaId == old(areaId)
      ensures userId == old(userId) && name == old(name) && description == old(description)
      ensures period == old(period) && volume == old(volume) && value == old(value)
      ensures r.Ok? ==> Placement(db.Project(projectId), areaId).None? && r == Ok(newId)
                        && Find(old(Adopted(db.tasks, taskId)), TaskKey, newId).None?
      ensures old(taskId).None? || old(db.Task(taskId.value)).Some? ==>
                db.tasks == old(Adopted(db.tasks, taskId)) + (if r.Ok? then [Doc()] else [])
      ensures (old(taskId).None? || old(db.Task(taskId.value)).Some?) && Placement(db.Project(projectId), areaId).Some? ==>
                r == Err(Placement(db.Project(projectId), areaId).value)
      ensures db.customers == old(db.customers) && db.users == old(db.users) && db.roles == old(db.roles)
      ensures db.projects == old(db.projects) && db.projectRoles == old(db.projectRoles) && db.reports == old(db.reports)
    {
      id := Some(newId);
      if taskId.Some? {
        var refused := AdoptParent(db);
        if refused.Some? {
          return Err(refused.value);
        }
      }
      var refusal := Placement(db.Project(projectId), areaId);
      if refusal.Some? {
        return Err(refusal.value);
      }
      r := db.InsertTask(Doc());
    }

    /** `update`: the whole task is written back over the stored one. */
    method Update(db: Database) returns (r: Result<ObjectId>)
      requires id.Some?
      modifies db
      ensures r == Ok(id.value) && db.tasks == Replace(old(db.tasks), TaskKey, Doc())
      ensures db.customers == old(db.customers) && db.users == old(db.users) && db.roles == old(db.roles)
      ensures db.projects == old(db.projects) && db.projectRoles == old(db.projectRoles) && db.reports == old(db.reports)
    {
      db.UpdateTask(Doc());
      r := Ok(id.value);
    }

    /** `update_period`: an empty or reversed period is refused and nothing
        changes; otherwise the period is set and written back. */
    method UpdatePeriod(db: Database, p: Period) returns (r: Result<ObjectId>)
      requires id.Some?
      modifies this, db
      ensures id == old(id) && status == old(status) && taskId == old(taskId) && areaId == old(areaId)
      ensures p.start >= p.end ==> r == Err("INVALID_PERIOD") && period == old(period) && db.tasks == old(db.tasks)
      ensures p.start < p.end ==> r == Ok(id.value) && period == Some(p) && db.tasks == Replace(old(db.tasks), TaskKey, Doc())
      ensures db.customers == old(db.customers) && db.users == old(db.users) && db.roles == old(db.roles)
      ensures db.projects == old(db.projects) && db.projectRoles == old(db.projectRoles) && db.reports == old(db.reports)
    {
      if p.start >= p.end {
        return Err("INVALID_PERIOD");
      }
      period := Some(p);
      db.UpdateTask(Doc());
      r := Ok(id.value);
    }

    /** One level of `update_status` (`StepOf`): write this task back, and
        report the parent to finish next, if any. */
    method StatusStep(db: Database, kind: TaskStatusKind, message: Option<string>, now: Millis)
      returns (r: Result<ObjectId>, next: Option<TaskDoc>)
      requires id.Some?
      modifies this`status, db
      ensures status == [TaskStatus(kind, now, message)] + old(status)
      ensures StepOf(old(db.tasks), old(db.projects), old(Doc()), kind, message, now)
              == (if next.Some? then Climb(db.tasks, next.value) else Done(Outcome(r, db.tasks, db.projects)))
      ensures next.Some? ==> db.projects == old(db.projects)
      ensures db.customers == old(db.customers) && db.users == old(db.users) && db.roles == old(db.roles)
      ensures db.projectRoles == old(db.projectRoles) && db.reports == old(db.reports)
    {
      status := [TaskStatus(kind, now, message)] + status;
      assert Doc() == Prepended(old(Doc()), kind, message, now);
      next := None;
      if kind != TaskFinished {
        db.UpdateTask(Doc());
        r := Ok(id.value);
      } else if taskId.Some? {
        r, next := FinishSubTask(db);
      } else {
        r := FinishRoot(db, now);
      }
    }

    /** Finishing a sub-task (`SubTaskStep`). */
    method FinishSubTask(db: Database) returns (r: Result<ObjectId>, next: Option<TaskDoc>)
      requires id.Some? && taskId.Some?
      modifies db
      ensures SubTaskStep(old(db.tasks), old(db.projects), Doc())
              == (if next.Some? then Climb(db.tasks, next.value) else Done(Outcome(r, db.tasks, db.projects)))
      ensures next.Some? ==> db.projects == old(db.projects)
      ensures db.customers == old(db.customers) && db.users == old(db.users) && db.roles == old(db.roles)
      ensures db.projectRoles == old(db.projectRoles) && db.reports == old(db.reports)
    {
      next := None;
      var siblings := Found(db.tasks, SiblingQuery(taskId.value));
      if siblings.None? {
        return Err("UPDATE_FAILED"), None;
      }
      var parentDone := OthersFinished(siblings.value, id.value);
      db.UpdateTask(Doc());
      r := Ok(id.value);
      if parentDone {
        var parent := db.Task(taskId.value);
        if parent.None? {
          return Err("PROJECT_TASK_NOT_FOUND"), None;
        }
        next := parent;
      }
    }

    /** Finishing a root task (`RootStep`). */
    method FinishRoot(db: Database, now: Millis) returns (r: Result<ObjectId>)
      requires id.Some?
      modifies db
      ensures RootStep(old(db.tasks), old(db.projects), Doc(), now) == Outcome(r, db.tasks, db.projects)
      ensures db.customers == old(db.customers) && db.users == old(db.users) && db.roles == old(db.roles)
      ensures db.projectRoles == old(db.projectRoles) && db.reports == old(db.reports)
    {
      var roots := Found(db.tasks, RootQuery());
      if roots.None? {
        return Err("UPDATE_FAILED");
      }
      if OthersFinished(roots.value, id.value) {
        var found := db.Project(projectId);
        if found.None? {
          return Err("UPDATE_FAILED");
        }
        var project := new Project.FromDoc(found.value);
        r := project.UpdateStatus(db, Finished, None, now);
        assert project.Doc() == FinishedProject(found.value, now);
      }
      db.UpdateTask(Doc());
      r := Ok(id.value);
    }

    /** `update_status`: `Cascade` carried out, one `StatusStep` per level. */
    method UpdateStatus(db: Database, kind: TaskStatusKind, message: Option<string>, now: Millis, ghost fuel: nat)
      returns (r: Result<ObjectId>)
      requires id.Some? && Climbs(db.tasks, taskId, fuel) && LinkAgrees(db.tasks, Doc())
      modifies this, db
      ensures status == [TaskStatus(kind, now, message)] + old(status)
      ensures Outcome(r, db.tasks, db.projects) == Cascade(old(db.tasks), old(db.projects), old(Doc()), kind, message, now, fuel)
      ensures db.customers == old(db.customers) && db.users == old(db.users) && db.roles == old(db.roles)
      ensures db.projectRoles == old(db.projectRoles) && db.reports == old(db.reports)
      decreases fuel
    {
      ghost var before := Doc();
      ghost var tasks0 := db.tasks;
      ghost var projects0 := db.projects;
      var next;
      r, next := StatusStep(db, kind, message, now);
      if next.Some? {
        CascadeClimbs(tasks0, projects0, before, kind, message, now, fuel, db.tasks, next.value);
        var parentTask := new ProjectTask.FromDoc(next.value);
        r := parentTask.UpdateStatus(db, TaskFinished, None, now, fuel - 1);
      } else {
        CascadeEnds(tasks0, projects0, before, kind, message, now, fuel, Outcome(r, db.tasks, db.projects));
      }
    }
  }
}
