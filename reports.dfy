/** Saving a daily progress report (src/models/project_progress_report.rs,
    `save`): the time-window check, starting a waiting project, the status
    changes each actual entry causes, and dropping entries whose task is
    missing or has sub-tasks. A task's accumulated progress comes from an
    aggregation pipeline and is a parameter. */
module Reports {
  import opened Base
  import opened Store
  import opened Projects
  import opened Tasks

  // ---------------------------------------------------------------- time

  predicate ValidClock(c: Clock)
  {
    c.hour <= 23 && c.minute <= 59
  }

  function MinuteOfDay(c: Clock): nat
  {
    c.hour * 60 + c.minute
  }

  /** A present time window must hold two valid clock readings, the start
      strictly before the end. */
  predicate ValidWindow(w: TimeWindow)
  {
    ValidClock(w.start) && ValidClock(w.end) && MinuteOfDay(w.start) < MinuteOfDay(w.end)
  }

  /** For valid readings, comparing minutes of the day is comparing hours
      first and minutes second; each valid reading is a minute of one day. */
  lemma MinuteOfDayOrders(a: Clock, b: Clock)
    requires ValidClock(a) && ValidClock(b)
    ensures MinuteOfDay(a) < 1440
    ensures MinuteOfDay(a) < MinuteOfDay(b) <==> a.hour < b.hour || (a.hour == b.hour && a.minute < b.minute)
    ensures MinuteOfDay(a) == MinuteOfDay(b) <==> a == b
  {
    if a.hour < b.hour {
      assert a.hour * 60 + 60 <= b.hour * 60;
    } else if a.hour > b.hour {
      assert b.hour * 60 + 60 <= a.hour * 60;
    }
  }

  /** The window test of `save`: an absent window passes. */
  function WindowRefusal(time: Option<TimeWindow>): (r: Option<string>)
    ensures r.None? <==> time.None? || ValidWindow(time.value)
    ensures r.Some? ==> r.value == "PROJECT_REPORT_TIME_INVALID"
  {
    match time
    case None => None
    case Some(w) =>
      if w.start.hour > 23 || w.start.minute > 59 || w.end.hour > 23 || w.end.minute > 59
         || w.start.hour * 60 + w.start.minute >= w.end.hour * 60 + w.end.minute
      then Some("PROJECT_REPORT_TIME_INVALID")
      else None
  }

  // ---------------------------------------------------------------- entries

  predicate HasSubTasks(tasks: seq<TaskDoc>, id: ObjectId)
  {
    exists j :: 0 <= j < |tasks| && tasks[j].taskId == Some(id)
  }

  /** An entry is dropped when its task cannot be loaded or has sub-tasks. */
  function Flagged(tasks: seq<TaskDoc>, id: ObjectId): (r: bool)
    ensures r <==> Find(tasks, TaskKey, id).None? || HasSubTasks(tasks, id)
  {
    var children := Found(tasks, SiblingQuery(id));
    if children.Some? then
      assert children.value[0] in tasks;
      true
    else
      assert forall j :: 0 <= j < |tasks| && tasks[j].taskId == Some(id) ==> tasks[j] in Matching(tasks, SiblingQuery(id));
      Find(tasks, TaskKey, id).None?
  }

  lemma ShapeFlagged(a: seq<TaskDoc>, b: seq<TaskDoc>, id: ObjectId)
    requires SameShape(a, b)
    ensures Flagged(a, id) == Flagged(b, id)
  {
    ShapeFind(a, b, id);
    if HasSubTasks(a, id) {
      var j :| 0 <= j < |a| && a[j].taskId == Some(id);
      assert b[j].taskId == Some(id);
    }
    if HasSubTasks(b, id) {
      var j :| 0 <= j < |b| && b[j].taskId == Some(id);
      assert a[j].taskId == Some(id);
    }
  }

  predicate Near(value: real, remain: real)
  {
    (if value >= remain then value - remain else remain - value) <= 0.001
  }

  /** A value within 0.001 of what remains of the task becomes exactly the
      remainder. */
  function Snap(e: Actual, progress: real): (s: Actual)
    ensures s.taskId == e.taskId
    ensures Near(e.value, 100.0 - progress) ==> s.value == 100.0 - progress
    ensures !Near(e.value, 100.0 - progress) ==> s == e
  {
    if Near(e.value, 100.0 - progress) then e.(value := 100.0 - progress) else e
  }

  /** The entries a saved report keeps, in order: the unflagged ones, each
      snapped to its task's remainder. */
  function Cleaned(tasks: seq<TaskDoc>, entries: seq<Actual>, progressOf: ObjectId -> real): (r: seq<Actual>)
    ensures |r| <= |entries|
    ensures forall e :: e in r ==> !Flagged(tasks, e.taskId)
  {
    if |entries| == 0 then []
    else
      var n := |entries| - 1;
      var e := entries[n];
      Cleaned(tasks, entries[..n], progressOf) + (if Flagged(tasks, e.taskId) then [] else [Snap(e, progressOf(e.taskId))])
  }

  /** Which entries are flagged, position by position. */
  function FlagsOf(tasks: seq<TaskDoc>, entries: seq<Actual>): (flags: seq<bool>)
    ensures |flags| == |entries|
    ensures forall i :: 0 <= i < |entries| ==> flags[i] == Flagged(tasks, entries[i].taskId)
  {
    seq(|entries|, i requires 0 <= i < |entries| => Flagged(tasks, entries[i].taskId))
  }

  /** The positions holding `want`, ascending. */
  function Positions(flags: seq<bool>, want: bool): (r: seq<nat>)
    ensures forall k :: 0 <= k < |r| ==> r[k] < |flags| && flags[r[k]] == want
    ensures forall k, l :: 0 <= k < l < |r| ==> r[k] < r[l]
  {
    if |flags| == 0 then []
    else
      var n := |flags| - 1;
      var rest := Positions(flags[..n], want);
      rest + (if flags[n] == want then [n] else [])
  }

  /** Every position holding `want` is listed. */
  lemma {:induction false} PositionsComplete(flags: seq<bool>, want: bool, i: nat)
    requires i < |flags| && flags[i] == want
    ensures i in Positions(flags, want)
  {
    var n := |flags| - 1;
    if i < n {
      PositionsComplete(flags[..n], want, i);
    }
  }

  /** Kept entries paired with their positions: each is its entry, snapped. */
  predicate KeptAt(entries: seq<Actual>, progressOf: ObjectId -> real, cleaned: seq<Actual>, kept: seq<nat>)
  {
    |cleaned| == |kept|
    && forall k :: 0 <= k < |kept| ==>
         kept[k] < |entries| && cleaned[k] == Snap(entries[kept[k]], progressOf(entries[kept[k]].taskId))
  }

  lemma KeptAtGrows(entries: seq<Actual>, progressOf: ObjectId -> real, cleaned: seq<Actual>, kept: seq<nat>,
                    n: nat, keep: bool)
    requires n < |entries| && KeptAt(entries[..n], progressOf, cleaned, kept)
    ensures KeptAt(entries, progressOf,
                   cleaned + (if keep then [Snap(entries[n], progressOf(entries[n].taskId))] else []),
                   kept + (if keep then [n] else []))
  {
    forall k | 0 <= k < |kept|
      ensures kept[k] < |entries| && cleaned[k] == Snap(entries[kept[k]], progressOf(entries[kept[k]].taskId))
    {
      assert entries[..n][kept[k]] == entries[kept[k]];
    }
  }

  /** Exactly the flagged entries leave: the kept entries are the unflagged
      ones in their order, with nothing else in between. */
  lemma {:induction false} CleanedKeepsExactlyUnflagged(tasks: seq<TaskDoc>, entries: seq<Actual>, progressOf: ObjectId -> real)
    ensures KeptAt(entries, progressOf, Cleaned(tasks, entries, progressOf), Positions(FlagsOf(tasks, entries), false))
  {
    if |entries| > 0 {
      var n := |entries| - 1;
      var e := entries[n];
      var flags := FlagsOf(tasks, entries);
      CleanedKeepsExactlyUnflagged(tasks, entries[..n], progressOf);
      assert flags[..n] == FlagsOf(tasks, entries[..n]);
      var keep := !Flagged(tasks, e.taskId);
      KeptAtGrows(entries, progressOf, Cleaned(tasks, entries[..n], progressOf), Positions(flags[..n], false), n, keep);
    }
  }

  // ---------------------------------------------------------------- removal as written

  /** `Vec::remove`: an index past the end panics (`None`). */
  function RemoveAt<T>(xs: seq<T>, i: nat): (r: Option<seq<T>>)
    ensures r.None? <==> i >= |xs|
    ensures r.Some? ==> r.value == xs[..i] + xs[i + 1..]
  {
    if i < |xs| then Some(xs[..i] + xs[i + 1..]) else None
  }

  /** The removal loop as written: each index is removed from the list the
      previous removals have already shortened. */
  function RemoveInOrder<T>(xs: seq<T>, indices: seq<nat>): (r: Option<seq<T>>)
    ensures r.Some? ==> |r.value| + |indices| == |xs|
    ensures |indices| > |xs| ==> r.None?
  {
    if |indices| == 0 then Some(xs)
    else match RemoveAt(xs, indices[0])
      case None => None
      case Some(ys) => RemoveInOrder(ys, indices[1..])
  }

  /** With two flagged positions the second removal hits the wrong entry,
      and with the last two positions flagged it runs off the end. */
  lemma RemoveInOrderShifts(a: Actual, b: Actual, c: Actual)
    ensures RemoveInOrder([a, b, c], [0, 1]) == Some([b])
    ensures RemoveInOrder([a, b, c], [1, 2]) == None
  {
    assert [a, b, c][..0] + [a, b, c][1..] == [b, c];
    assert [b, c][..1] + [b, c][2..] == [b];
    assert [a, b, c][..1] + [a, b, c][2..] == [a, c];
    assert [0, 1][1..] == [1] && [1][1..] == [] && [1, 2][1..] == [2];
    assert RemoveInOrder([b, c], [1]) == RemoveInOrder([b], []);
    assert RemoveAt([a, c], 2) == None;
  }

  // ---------------------------------------------------------------- save

  predicate Waiting(p: ProjectDoc)
  {
    Latest(p.status).Some? && Latest(p.status).value.kind in {Pending, Paused}
  }

  /** The projects once a report with actual entries has tried to start its
      project: a waiting project whose root tasks allow it gets Running
      pushed onto its history; anything else stays as it was. */
  function Started(projects: seq<ProjectDoc>, tasks: seq<TaskDoc>, projectId: ObjectId, now: Millis): seq<ProjectDoc>
  {
    match Find(projects, ProjectKey, projectId)
    case None => projects
    case Some(p) =>
      if Waiting(p) && StartRefusal(tasks, projectId).None?
      then Replace(projects, ProjectKey, p.(status := [ProjectStatus(Running, now, None)] + p.status))
      else projects
  }

  /** A waiting project that may start is Running afterwards; one that is
      not waiting is left alone. */
  lemma WaitingProjectRuns(projects: seq<ProjectDoc>, tasks: seq<TaskDoc>, projectId: ObjectId, now: Millis)
    requires Find(projects, ProjectKey, projectId).Some?
    ensures var p := Find(projects, ProjectKey, projectId).value;
            Waiting(p) && StartRefusal(tasks, projectId).None? ==>
              Find(Started(projects, tasks, projectId, now), ProjectKey, projectId).Some?
              && Latest(Find(Started(projects, tasks, projectId, now), ProjectKey, projectId).value.status)
                 == Some(ProjectStatus(Running, now, None))
    ensures !Waiting(Find(projects, ProjectKey, projectId).value) ==> Started(projects, tasks, projectId, now) == projects
  {
    var p := Find(projects, ProjectKey, projectId).value;
    assert ProjectKey(p.(status := [ProjectStatus(Running, now, None)] + p.status)) == projectId;
  }

  /** A waiting project is started when the report carries actual entries;
      a refusal to start fails the save. */
  method StartIfWaiting(db: Database, projectId: ObjectId, now: Millis) returns (r: Option<string>)
    requires db.Project(projectId).Some?
    modifies db
    ensures var p := old(db.Project(projectId)).value;
            !Waiting(p) ==> r.None? && db.projects == old(db.projects)
    ensures var p := old(db.Project(projectId)).value;
            Waiting(p) && StartRefusal(old(db.tasks), projectId).Some? ==>
              r == Some("PROJECT_UPDATE_FAILED") && db.projects == old(db.projects)
    ensures var p := old(db.Project(projectId)).value;
            Waiting(p) && StartRefusal(old(db.tasks), projectId).None? ==>
              r.None? && db.projects == Replace(old(db.projects), ProjectKey, p.(status := [ProjectStatus(Running, now, None)] + p.status))
    ensures r.None? ==> db.projects == Started(old(db.projects), old(db.tasks), projectId, now)
    ensures db.customers == old(db.customers) && db.users == old(db.users) && db.roles == old(db.roles)
    ensures db.projectRoles == old(db.projectRoles) && db.tasks == old(db.tasks) && db.reports == old(db.reports)
  {
    var found := db.Project(projectId).value;
    if !Waiting(found) {
      return None;
    }
    var project := new Project.FromDoc(found);
    var started := project.UpdateStatus(db, Running, None, now);
    r := if started.Err? then Some("PROJECT_UPDATE_FAILED") else None;
  }

  /** What one kept entry does: its result and the tasks and projects after it. */
  datatype Effect = Effect(result: Result<Actual>, tasks: seq<TaskDoc>, projects: seq<ProjectDoc>)

  /** The status change one kept entry causes, as a function of the stored
      state: a value that completes the task finishes it with the whole
      cascade; otherwise a task with no history fails the save, a running
      task is left alone and any other task is started. */
  ghost function EntryEffect(tasks: seq<TaskDoc>, projects: seq<ProjectDoc>, e: Actual, progress: real,
                             now: Millis, n: nat): (f: Effect)
    requires ChainsEnd(tasks, n) && !Flagged(tasks, e.taskId)
    ensures SameShape(tasks, f.tasks)
  {
    var task := Find(tasks, TaskKey, e.taskId).value;
    StoredTaskClimbs(tasks, n, e.taskId);
    if Near(e.value, 100.0 - progress) then
      var o := Cascade(tasks, projects, task, TaskFinished, None, now, n);
      CascadeKeepsShape(tasks, projects, task, TaskFinished, None, now, n);
      Effect(if o.result.Ok? then Ok(Snap(e, progress)) else Err("PROJECT_TASK_UPDATE_FAILED"), o.tasks, o.projects)
    else if |task.status| == 0 then
      Effect(Err("PROJECT_TASK_STATUS_NOT_FOUND"), tasks, projects)
    else if task.status[0].kind == TaskRunning then
      Effect(Ok(e), tasks, projects)
    else
      var o := Cascade(tasks, projects, task, TaskRunning, None, now, n);
      CascadeKeepsShape(tasks, projects, task, TaskRunning, None, now, n);
      Effect(if o.result.Ok? then Ok(e) else Err("PROJECT_TASK_UPDATE_FAILED"), o.tasks, o.projects)
  }

  /** After a kept entry succeeds its task is Running or, when the entry
      completes it, Finished (a root task's project must exist for the
      cascade to reach the project). */
  lemma EntryTaskMovesOn(tasks: seq<TaskDoc>, projects: seq<ProjectDoc>, e: Actual, progress: real,
                         now: Millis, n: nat)
    requires ChainsEnd(tasks, n) && !Flagged(tasks, e.taskId)
    requires var task := Find(tasks, TaskKey, e.taskId).value;
             task.taskId.None? ==> Find(projects, ProjectKey, task.projectId).Some?
    ensures var f := EntryEffect(tasks, projects, e, progress, now, n);
            f.result.Ok? ==>
              Find(f.tasks, TaskKey, e.taskId).Some?
              && Latest(Find(f.tasks, TaskKey, e.taskId).value.status).Some?
              && Latest(Find(f.tasks, TaskKey, e.taskId).value.status).value.kind
                 == (if Near(e.value, 100.0 - progress) then TaskFinished else TaskRunning)
  {
    var task := Find(tasks, TaskKey, e.taskId).value;
    StoredTaskClimbs(tasks, n, e.taskId);
    assert TaskKey(task) == e.taskId;
    if Near(e.value, 100.0 - progress) {
      CascadeFinishesSelf(tasks, projects, task, now, n);
    } else if |task.status| > 0 && task.status[0].kind != TaskRunning {
      OtherKindsOnlyPrepend(tasks, projects, task, TaskRunning, None, now, n);
    }
  }

  /** The status change one kept entry causes: a value that completes the
      task finishes it (with the whole cascade); otherwise a task not
      running is started. */
  method ApplyEntry(db: Database, e: Actual, progress: real, now: Millis, ghost n: nat) returns (r: Result<Actual>)
    requires ChainsEnd(db.tasks, n) && !Flagged(db.tasks, e.taskId)
    modifies db
    ensures SameShape(old(db.tasks), db.tasks) && ChainsEnd(db.tasks, n)
    ensures Effect(r, db.tasks, db.projects) == EntryEffect(old(db.tasks), old(db.projects), e, progress, now, n)
    ensures r.Ok? ==> r.value == Snap(e, progress)
    ensures r.Err? ==> r.error in {"PROJECT_TASK_UPDATE_FAILED", "PROJECT_TASK_STATUS_NOT_FOUND"}
    ensures var task := Find(old(db.tasks), TaskKey, e.taskId).value;
            var o := Cascade(old(db.tasks), old(db.projects), task, TaskFinished, None, now, n);
            Near(e.value, 100.0 - progress) ==>
              (r.Ok? <==> o.result.Ok?) && db.tasks == o.tasks && db.projects == o.projects
    ensures var task := Find(old(db.tasks), TaskKey, e.taskId).value;
            !Near(e.value, 100.0 - progress) && |task.status| == 0 ==>
              r == Err("PROJECT_TASK_STATUS_NOT_FOUND") && db.tasks == old(db.tasks) && db.projects == old(db.projects)
    ensures var task := Find(old(db.tasks), TaskKey, e.taskId).value;
            !Near(e.value, 100.0 - progress) && |task.status| > 0 && task.status[0].kind == TaskRunning ==>
              r.Ok? && db.tasks == old(db.tasks) && db.projects == old(db.projects)
    ensures var task := Find(old(db.tasks), TaskKey, e.taskId).value;
            !Near(e.value, 100.0 - progress) && |task.status| > 0 && task.status[0].kind != TaskRunning ==>
              r.Ok? && db.tasks == Replace(old(db.tasks), TaskKey, Prepended(task, TaskRunning, None, now))
              && db.projects == old(db.projects)
    ensures db.customers == old(db.customers) && db.users == old(db.users) && db.roles == old(db.roles)
    ensures db.projectRoles == old(db.projectRoles) && db.reports == old(db.reports)
  {
    var stored := db.Task(e.taskId).value;
    StoredTaskClimbs(db.tasks, n, e.taskId);
    ghost var tasks0 := db.tasks;
    if Near(e.value, 100.0 - progress) {
      var task := new ProjectTask.FromDoc(stored);
      var finished := task.UpdateStatus(db, TaskFinished, None, now, n);
      CascadeKeepsShape(tasks0, old(db.projects), stored, TaskFinished, None, now, n);
      ShapeChainsEnd(tasks0, db.tasks, n);
      if finished.Err? {
        return Err("PROJECT_TASK_UPDATE_FAILED");
      }
      return Ok(e.(value := 100.0 - progress));
    }
    if |stored.status| == 0 {
      return Err("PROJECT_TASK_STATUS_NOT_FOUND");
    }
    if stored.status[0].kind != TaskRunning {
      var task := new ProjectTask.FromDoc(stored);
      var started := task.UpdateStatus(db, TaskRunning, None, now, n);
      CascadeKeepsShape(tasks0, old(db.projects), stored, TaskRunning, None, now, n);
      ShapeChainsEnd(tasks0, db.tasks, n);
      if started.Err? {
        return Err("PROJECT_TASK_UPDATE_FAILED");
      }
    }
    r := Ok(e);
  }

  /** What the entry loop of `save` does to the stored state, entry by
      entry from the front: a flagged entry is skipped, a kept one takes
      effect, and the first failure ends the loop. */
  ghost function CleanFrom(tasks: seq<TaskDoc>, projects: seq<ProjectDoc>, entries: seq<Actual>,
                           progressOf: ObjectId -> real, now: Millis, n: nat): (run: Run)
    requires ChainsEnd(tasks, n)
    ensures SameShape(tasks, run.tasks)
    decreases |entries|
  {
    if |entries| == 0 then Run(Ok([]), tasks, projects)
    else
      var e := entries[0];
      if Flagged(tasks, e.taskId) then CleanFrom(tasks, projects, entries[1..], progressOf, now, n)
      else
        var step := EntryEffect(tasks, projects, e, progressOf(e.taskId), now, n);
        if step.result.Err? then Run(Err(step.result.error), step.tasks, step.projects)
        else
          ShapeChainsEnd(tasks, step.tasks, n);
          var rest := CleanFrom(step.tasks, step.projects, entries[1..], progressOf, now, n);
          ShapeTrans(tasks, step.tasks, rest.tasks);
          Prefixed([step.result.value], rest)
  }

  /** What a run of entries does: its result and the tasks and projects after it. */
  datatype Run = Run(result: Result<seq<Actual>>, tasks: seq<TaskDoc>, projects: seq<ProjectDoc>)

  /** A run preceded by entries already kept. */
  function Prefixed(kept: seq<Actual>, run: Run): (r: Run)
    ensures r.tasks == run.tasks && r.projects == run.projects
    ensures run.result.Err? ==> r.result == run.result
    ensures run.result.Ok? ==> r.result == Ok(kept + run.result.value)
  {
    if run.result.Ok? then run.(result := Ok(kept + run.result.value)) else run
  }

  /** One entry of a run: a flagged one is skipped; a kept one's effect
      either ends the run or is followed by the rest. */
  lemma CleanFromFirst(tasks: seq<TaskDoc>, projects: seq<ProjectDoc>, entries: seq<Actual>,
                       progressOf: ObjectId -> real, now: Millis, n: nat)
    requires ChainsEnd(tasks, n) && |entries| > 0
    ensures var e := entries[0];
            Flagged(tasks, e.taskId) ==>
              CleanFrom(tasks, projects, entries, progressOf, now, n)
              == CleanFrom(tasks, projects, entries[1..], progressOf, now, n)
    ensures var e := entries[0];
            !Flagged(tasks, e.taskId) ==>
              var step := EntryEffect(tasks, projects, e, progressOf(e.taskId), now, n);
              (step.result.Err? ==>
                 CleanFrom(tasks, projects, entries, progressOf, now, n) == Run(Err(step.result.error), step.tasks, step.projects))
              && (step.result.Ok? ==>
                    ChainsEnd(step.tasks, n)
                    && CleanFrom(tasks, projects, entries, progressOf, now, n)
                       == Prefixed([step.result.value], CleanFrom(step.tasks, step.projects, entries[1..], progressOf, now, n)))
  {
    var e := entries[0];
    if !Flagged(tasks, e.taskId) {
      var step := EntryEffect(tasks, projects, e, progressOf(e.taskId), now, n);
      ShapeChainsEnd(tasks, step.tasks, n);
    }
  }

  /** `Cleaned` grows by one entry at a time. */
  lemma CleanedStep(tasks: seq<TaskDoc>, entries: seq<Actual>, progressOf: ObjectId -> real, i: nat)
    requires i < |entries|
    ensures var e := entries[i];
            Cleaned(tasks, entries[..i + 1], progressOf)
            == Cleaned(tasks, entries[..i], progressOf)
               + (if Flagged(tasks, e.taskId) then [] else [Snap(e, progressOf(e.taskId))])
  {
    assert entries[..i + 1][..i] == entries[..i];
  }

  lemma PrefixedNothing(run: Run)
    ensures Prefixed([], run) == run
  {
    if run.result.Ok? {
      assert [] + run.result.value == run.result.value;
    }
  }

  lemma PrefixedTwice(a: seq<Actual>, b: seq<Actual>, run: Run)
    ensures Prefixed(a, Prefixed(b, run)) == Prefixed(a + b, run)
  {
    if run.result.Ok? {
      assert a + (b + run.result.value) == (a + b) + run.result.value;
    }
  }

  /** The entry loop of `save`: every entry is checked against the tasks;
      the kept ones are `Cleaned`. */
  method CleanEntries(db: Database, entries: seq<Actual>, progressOf: ObjectId -> real, now: Millis, ghost n: nat)
    returns (r: Result<seq<Actual>>)
    requires ChainsEnd(db.tasks, n)
    modifies db
    ensures SameShape(old(db.tasks), db.tasks)
    ensures Run(r, db.tasks, db.projects) == CleanFrom(old(db.tasks), old(db.projects), entries, progressOf, now, n)
    ensures r.Ok? ==> r.value == Cleaned(old(db.tasks), entries, progressOf)
    ensures r.Err? ==> r.error in {"PROJECT_TASK_UPDATE_FAILED", "PROJECT_TASK_STATUS_NOT_FOUND"}
    ensures db.customers == old(db.customers) && db.users == old(db.users) && db.roles == old(db.roles)
    ensures db.projectRoles == old(db.projectRoles) && db.reports == old(db.reports)
  {
    ghost var tasks0 := db.tasks;
    ghost var projects0 := db.projects;
    var kept: seq<Actual> := [];
    assert entries[0..] == entries;
    PrefixedNothing(CleanFrom(db.tasks, db.projects, entries, progressOf, now, n));
    for i := 0 to |entries|
      invariant SameShape(tasks0, db.tasks) && ChainsEnd(db.tasks, n)
      invariant kept == Cleaned(tasks0, entries[..i], progressOf)
      invariant Prefixed(kept, CleanFrom(db.tasks, db.projects, entries[i..], progressOf, now, n))
                == CleanFrom(tasks0, projects0, entries, progressOf, now, n)
      invariant db.customers == old(db.customers) && db.users == old(db.users) && db.roles == old(db.roles)
      invariant db.projectRoles == old(db.projectRoles) && db.reports == old(db.reports)
    {
      var e := entries[i];
      assert entries[i..][0] == e && entries[i..][1..] == entries[i + 1..];
      CleanedStep(tasks0, entries, progressOf, i);
      ShapeFlagged(tasks0, db.tasks, e.taskId);
      CleanFromFirst(db.tasks, db.projects, entries[i..], progressOf, now, n);
      if !Flagged(db.tasks, e.taskId) {
        ghost var before := db.tasks;
        ghost var beforeProjects := db.projects;
        var applied := ApplyEntry(db, e, progressOf(e.taskId), now, n);
        ShapeTrans(tasks0, before, db.tasks);
        if applied.Err? {
          assert CleanFrom(before, beforeProjects, entries[i..], progressOf, now, n)
              == Run(Err(applied.error), db.tasks, db.projects);
          assert Prefixed(kept, CleanFrom(before, beforeProjects, entries[i..], progressOf, now, n))
              == Run(Err(applied.error), db.tasks, db.projects);
          return Err(applied.error);
        }
        PrefixedTwice(kept, [applied.value], CleanFrom(db.tasks, db.projects, entries[i + 1..], progressOf, now, n));
        kept := kept + [applied.value];
      }
    }
    assert entries[..|entries|] == entries;
    assert entries[|entries|..] == [];
    assert kept + [] == kept;
    assert Prefixed(kept, CleanFrom(db.tasks, db.projects, [], progressOf, now, n)) == Run(Ok(kept), db.tasks, db.projects);
    r := Ok(kept);
  }

  class ProgressReport {
    var id: Option<ObjectId>
    var projectId: ObjectId
    var userId: ObjectId
    var memberId: Option<seq<ObjectId>>
    var date: Millis
    var time: Option<TimeWindow>
    var actual: Option<seq<Actual>>
    var plan: Option<seq<ObjectId>>
    var documentation: Option<seq<Documentation>>

    constructor(projectId: ObjectId, userId: ObjectId, memberId: Option<seq<ObjectId>>, date: Millis,
                time: Option<TimeWindow>, actual: Option<seq<Actual>>, plan: Option<seq<ObjectId>>,
                documentation: Option<seq<Documentation>>)
      ensures id == None && this.projectId == projectId && this.userId == userId && this.memberId == memberId
      ensures this.date == date && this.time == time && this.actual == actual && this.plan == plan
      ensures this.documentation == documentation
    {
      id := None;
      this.projectId := projectId;
      this.userId := userId;
      this.memberId := memberId;
      this.date := date;
      this.time := time;
      this.actual := actual;
      this.plan := plan;
      this.documentation := documentation;
    }

    function Doc(): (d: ReportDoc)
      reads this
      requires id.Some?
      ensures d.id == id.value && d.projectId == projectId && d.time == time && d.actual == actual
    {
      ReportDoc(id.value, projectId, userId, memberId, date, time, actual, plan, documentation)
    }

    /** `save`: a fresh id; the project must exist and the window be valid;
        actual entries start a waiting project, move their tasks on, and are
        cleaned; then one insert. */
    method Save(db: Database, newId: ObjectId, progressOf: ObjectId -> real, now: Millis, ghost n: nat)
      returns (r: Result<ObjectId>)
      requires ChainsEnd(db.tasks, n)
      modifies this, db
      ensures id == Some(newId) && projectId == old(projectId) && time == old(time)
      ensures old(db.Project(projectId)).None? ==>
                r == Err("PROJECT_NOT_FOUND") && db.projects == old(db.projects) && db.tasks == old(db.tasks)
      ensures old(db.Project(projectId)).Some? && WindowRefusal(time).Some? ==>
                r == Err("PROJECT_REPORT_TIME_INVALID") && db.projects == old(db.projects) && db.tasks == old(db.tasks)
      ensures old(db.Project(projectId)).Some? && WindowRefusal(time).None? && old(actual).Some?
              && Waiting(old(db.Project(projectId)).value) && StartRefusal(old(db.tasks), projectId).Some? ==>
                r == Err("PROJECT_UPDATE_FAILED") && db.projects == old(db.projects) && db.tasks == old(db.tasks)
      ensures old(actual).None? ==> actual == None && db.tasks == old(db.tasks) && db.projects == old(db.projects)
      ensures old(db.Project(projectId)).Some? && WindowRefusal(time).None? && old(actual).Some?
              && !(Waiting(old(db.Project(projectId)).value) && StartRefusal(old(db.tasks), projectId).Some?) ==>
                var run := CleanFrom(old(db.tasks), Started(old(db.projects), old(db.tasks), projectId, now),
                                     old(actual).value, progressOf, now, n);
                db.tasks == run.tasks && db.projects == run.projects
                && (run.result.Err? ==> r == Err(run.result.error))
                && (run.result.Ok? ==> actual == Some(run.result.value))
      ensures r.Ok? ==> old(db.Project(projectId)).Some? && WindowRefusal(time).None?
                        && (old(actual).Some? ==> actual == Some(Cleaned(old(db.tasks), old(actual).value, progressOf)))
                        && db.reports == old(db.reports) + [Doc()] && r == Ok(newId)
      ensures r.Err? ==> db.reports == old(db.reports)
      ensures SameShape(old(db.tasks), db.tasks)
      ensures db.customers == old(db.customers) && db.users == old(db.users) && db.roles == old(db.roles)
      ensures db.projectRoles == old(db.projectRoles)
    {
      id := Some(newId);
      if db.Project(projectId).None? {
        return Err("PROJECT_NOT_FOUND");
      }
      var refusal := WindowRefusal(time);
      if refusal.Some? {
        return Err(refusal.value);
      }
      if actual.Some? {
        var notStarted := StartIfWaiting(db, projectId, now);
        if notStarted.Some? {
          return Err(notStarted.value);
        }
        var cleaned := CleanEntries(db, actual.value, progressOf, now, n);
        if cleaned.Err? {
          return Err(cleaned.error);
        }
        actual := Some(cleaned.value);
      }
      r := db.InsertReport(Doc());
    }
  }
}
