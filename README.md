# redian-pms-server, the rule core in Dafny

redian-pms-server is a project-management back end written in Rust (actix-web
over MongoDB). This model covers the part of it that makes decisions:

- project and task progress arithmetic;
- the project and task status histories and the finishing cascade;
- the checks and rollbacks of the project, role and user routes;
- project-scoped and global permissions;
- a few small string parsers: `.env` lines, the bearer prefix, ObjectId
  text, the e-mail pattern and file paths.

## How it is modelled

- **The database.** `Store.Database` is a class with one `seq` field per
  MongoDB collection: customers, users, roles, projects, project roles,
  tasks and reports. A lookup finds the first document with the id. An
  `update_one` replaces that document, and is a no-op when the id is
  missing. A `delete_one` removes it. An insert fails with
  `INSERTING_FAILED` when the id is already stored.
- **Documents edited in memory.** The source reads some documents into
  memory and edits them there: `Project`, `ProjectTask`, `Role` and
  `ProgressReport`. Each is a class with the source's fields, whose methods
  update them in place and write them back. `Doc()` is the snapshot those
  methods write.
- **Routes.** Each route is a method over the database. It returns the
  status code and body the handler returns. The caller is an
  `Option<AuthData>`, as the authentication middleware attaches it.
- **Inputs that come from outside.** Fresh `ObjectId`s, the clock,
  bcrypt, RS256 signing and checking, and the outcome of file-system calls
  are parameters. Aggregation results are also parameters: a task's
  accumulated progress, and the dependency list of the report walk.
- **Numbers.** `f64` is `real`, without rounding. Rust's truncating `/` on
  `i64` is written out as `Progress.RustDiv`.

### Where the parts of the source disagree

The source files do not always agree with each other. In each case the
model follows the code that does the work:

- `calculate_progress` builds its two task queries with a `kind` field
  (base tasks, dependencies), but `ProjectTaskQuery` has `base`. The model
  does not run these queries: their results, the base tasks and the
  dependency list, are the `bases` and `deps` parameters of
  `Progress.CalculateProgress`.
- `create_project` sets `holiday`, but the project declares `leave`. The
  request's field becomes `leave`.
- The report `save` reads `task.task` on a task-detail response. It is
  read as "the task has sub-tasks" (`Reports.Flagged`).
- The user route reads `issuer.role` and the role routes read
  `issuer.role_id`. Both are `AuthData.roleId`.
- `RolePermission` is not declared in the files modelled here. Its
  variants are compared as the text `CreateRole`, `UpdateRole`,
  `DeleteRole`, `CreateUser`, `CreateProject` and `Owner`.
  `add_permission` appends only its own nine snake-case names, so it can
  never add any of these (`Roles.WithPermissionNeverOwner`).
- `add_member` looks each id up with `User::find_by_id`, evidently to
  require a stored user, but it tests only `is_ok()`; see Findings.

## Model

| member | source | states |
|---|---|---|
| Auth.ObjectIdTextRoundTrip | src/models/user.rs:399 | The 24-hex-digit text of every ObjectId parses back to the same id |
| Auth.AccessClaim | src/models/user.rs:347-352 | The access claim expires 1800 s after `now`, has issuer "Redian" and the base URL as audience, and its subject parses back to the user |
| Auth.RefreshClaim | src/models/user.rs:353-358 | The refresh claim expires 259200 s after `now`, with the same issuer, audience and subject; it outlives the access claim by 71.5 hours |
| Auth.IssueTokens | src/models/user.rs:360-384 | Succeeds exactly when both claims are signed and the user's detail is found, returning both tokens; a signing failure gives GENERATING_FAILED, a missing detail USER_NOT_FOUND |
| Auth.Authenticate | src/models/user.rs:339-386 | An unknown e-mail or a wrong password gives INVALID_COMBINATION; success implies the user exists and the password matched; a stored user with a matching password gets exactly the tokens issued for that user |
| Auth.Refresh | src/models/user.rs:387-444 | An undecodable token gives INVALID_TOKEN, a subject that is not an ObjectId INVALID_ID, an unknown user the source's USER_NOT_FOUDN; success means the user exists and the two tokens sign its fresh access and refresh claims; a decodable token whose subject is a stored user's id gets exactly the tokens issued for that user |
| Auth.Verify | src/models/user.rs:445-460 | Some(id) exactly when the token decodes and its subject parses as an ObjectId, and the id is that subject |
| Auth.IssuedTokenVerifies | src/models/user.rs:445-460 | A token that decodes to an access claim issued for a user verifies as that user |
| Auth.TokenOf | src/models/user.rs:478-485 | A token exists exactly when the header is longer than 7 bytes, and it is the header minus its first 7 bytes |
| Auth.AnyPrefixIsDropped | src/models/user.rs:483-484 | Any 7 bytes are dropped, not only "Bearer " |
| Auth.BearerToken | src/models/user.rs:479-485 | The copy loop and `drain(0..7)` compute `TokenOf` of the header |
| Auth.Authenticated | src/models/user.rs:477-498 | The request panics exactly when its token bytes are not UTF-8 (`from_utf8(..).unwrap()`); otherwise it is authenticated exactly when its token verifies to a stored user, and the attached data carries the token, that user's id and that user's roles |
| Auth.AsciiIsUtf8 | src/models/user.rs:485 | Bytes below 0x80 are valid UTF-8, so an ASCII token never panics |
| Auth.Utf8Concat | src/models/user.rs:485 | Valid UTF-8 followed by valid UTF-8 is valid UTF-8 |
| Auth.StrayContinuationIsInvalid | src/models/user.rs:479-485 | A header whose eighth byte is a lone continuation byte 0x80 yields a token that is not UTF-8, so the request panics |
| Env.Split | src/main.rs:15 | `split('=')` yields at least one field, and no field contains '=' |
| Env.JoinSplit | src/main.rs:15 | Joining the fields of a split with the separator gives back the text |
| Env.SplitNoSeparator | src/main.rs:15 | Text without '=' splits into itself |
| Env.SplitAfterField | src/main.rs:15 | A separator-free prefix becomes the first field |
| Env.LinePairOfAssignment | src/main.rs:14-20 | A line `key=value` with no other '=' yields (key, value) |
| Env.LinePairDropsMiddle | src/main.rs:14-20 | "a=b=c" yields ("a", "c"): the first and the last field |
| Env.LinePairWithoutEquals | src/main.rs:14-20 | A line without '=' yields (line, line) |
| Env.Lines | src/main.rs:13 | `str::lines` yields lines without a newline |
| Env.LinesOfTerminated | src/main.rs:13 | Lines written one per newline are read back unchanged |
| Env.ApplyLastWins | src/main.rs:23-25 | A later pair with the same key overrides an earlier one |
| Env.ApplyUntouched | src/main.rs:23-25 | A variable no pair names keeps its value or stays unset |
| Env.WithDefaults | src/main.rs:28-42 | The five defaults are set only when absent; present variables keep their values; nothing else is added |
| Env.PanicAt | src/main.rs:23-25 | The position of the first pair `set_var` panics on (an empty key, '=' or NUL in the key, NUL in the value), or the number of pairs; no earlier pair panics |
| Env.BlankLineAborts | src/main.rs:13-25 | A blank line in the file yields an empty key, so `set_var` panics at it or earlier |
| Env.Environment.LoadEnv | src/main.rs:10-43 | Startup panics exactly when some pair of the file panics `set_var`, leaving the pairs before it applied and no defaults; otherwise the environment becomes the defaults over the file's pairs applied in order; a missing file still gets the defaults |
| Env.Environment.SetAll | src/main.rs:23-25 | The `set_var` loop applies the pairs in file order and panics exactly at the first pair that panics, with the pairs before it applied |
| Env.Environment.SetDefaults | src/main.rs:28-42 | The five `is_err` checks leave `WithDefaults` of the environment |
| `Env.ParseU16` | src/main.rs:51 | A parsed port is below 65536 and comes from non-empty text |
| Env.ParsePortRoundTrip | src/main.rs:49-52 | Every u16 in decimal parses back to itself |
| Env.StartupPort | src/main.rs:49-52 | Startup succeeds exactly when PORT parses as a u16, and otherwise fails with INVALID_PORT |
| Env.DefaultPort | src/main.rs:40-52 | Without PORT anywhere the server listens on 8000 |
| Files.FilePath | src/routes/mod.rs:29-34 | The path is the kind's directory followed by the name, verbatim |
| Files.ParseFilePath | src/routes/mod.rs:29-34 | A path can be read back into its kind and name |
| Files.FilePathInjective | src/routes/mod.rs:29-34 | Two requests share a path only if they are the same request |
| Files.NameNotSanitised | src/routes/mod.rs:33 | A name with `..` segments is appended unchanged, leaving the files directory |
| Files.GetFile | src/routes/mod.rs:35-40 | 404 CONTENT_NOT_FOUND exactly when the path cannot be read; otherwise 200 with the type guessed from the path |
| Progress.RustDiv | src/models/project.rs:339 | `i64` division truncates toward zero, for either sign of the dividend |
| Progress.ChainFuel | src/models/project.rs:300-311 | More fuel changes neither whether the ancestor chain ends nor its product |
| Progress.AncestorFactorIs | src/models/project.rs:300-311 | A chain that ends within some fuel terminates, and its factor is the product for that fuel |
| Progress.MissingAncestorNeverEnds | src/models/project.rs:302-307 | An ancestor id missing from the dependencies makes the weighting loop run forever |
| Progress.SelfParentNeverEnds | src/models/project.rs:300-311 | A task that names itself as its parent makes the loop run forever |
| Progress.Weighted | src/models/project.rs:296-313 | The weighting keeps one task per base task |
| Progress.WeighOne | src/models/project.rs:298-311 | The `while found` loop leaves the value times the product of `value`/100 over the ancestors |
| Progress.WeighBases | src/models/project.rs:296-312 | The in-place loop over the base-task array scales every task by its ancestor product and keeps its other fields |
| Progress.WeightedBases | src/models/project.rs:296-313 | The base tasks as the weighting loop leaves them are `Weighted` |
| Progress.EarliestPeriodStart | src/models/project.rs:319-327 | None exactly when no base task has a period; otherwise the smallest start among them |
| Progress.EarliestReport | src/models/project.rs:328-332 | None exactly when there is no report; otherwise the earliest report date |
| Progress.StartOf | src/models/project.rs:315-332 | The walk starts no later than any dated task or report, at one of them; with none it starts at 0 |
| Progress.PlanShare | src/models/project.rs:352-369 | A task adds `value`/(whole days of its period) on a day its period covers, and nothing otherwise |
| Progress.EntryGain | src/models/project.rs:383-391 | A report entry adds `value`×`base.value`/100 for a base task, and nothing for any other task |
| Progress.ReportGainSkipsOtherTasks | src/models/project.rs:384-390 | An entry whose task is not a base task changes nothing |
| Progress.Clamp | src/models/project.rs:398-403 | A clamped total is below 99.99 or exactly 100, and a total below 99.99 is unchanged |
| Progress.WalkSettled | src/models/project.rs:345-410 | From settled totals, the day loop ends with settled totals that are never both 100 |
| Progress.TotalsSettled | src/models/project.rs:334-413 | Each total of `calculate_progress` is below 99.99 or exactly 100, and never are both 100 |
| Progress.NothingDatedNoProgress | src/models/project.rs:334-338 | Without a dated base task and without reports, the result is (0, 0) |
| Progress.FutureStartNoProgress | src/models/project.rs:338-345 | A walk that starts a whole day or more after the end date gives (0, 0) |
| Progress.NextDayStartOneStep | src/models/project.rs:338-410 | A start less than a day after the end makes the truncating day count 0, so exactly one day, the start, is walked |
| Progress.PlanOverWholePeriod | src/models/project.rs:363-369 | Over its whole period, a task's daily plan shares add up to its value |
| Progress.PlanSumCovered | src/models/project.rs:363-369 | The first n covered days add n shares |
| Progress.WalkDays | src/models/project.rs:338-411 | The day loop computes the specified totals |
| Progress.CalculateProgress | src/models/project.rs:258-414 | The result is the day walk over the weighted base tasks, settled and never (100, 100) |
| Progress.WalkFuel | src/models/project_progress_report.rs:698-711 | More fuel changes neither whether the report walk ends nor its product |
| Progress.WalkTotalIs | src/models/project_progress_report.rs:698-711 | A report walk that ends within some fuel terminates with that fuel's product |
| Progress.ChainAndWalkAgree | src/models/project_progress_report.rs:698-711 | Where the project's weighting chain ends, the report walk ends with the same product |
| Progress.WalkStopsAtMissing | src/models/project_progress_report.rs:700-707 | The report walk stops quietly at an ancestor it cannot find |
| Progress.WalkFromIs | src/models/project_progress_report.rs:698-711 | Walking from a running product gives that product times the walk's product |
| Progress.SelfDependencyNeverEnds | src/models/project_progress_report.rs:698-711 | A dependency that names itself as its parent keeps the report walk going forever |
| Progress.SelfDependentEntryNeverEnds | src/models/project_progress_report.rs:689-711 | An entry whose task depends on itself makes the report's progress loop never end |
| Progress.WalkOne | src/models/project_progress_report.rs:694-711 | The loop for one entry leaves the first factor times the walk's product |
| Progress.ReportProgress | src/models/project_progress_report.rs:689-716 | The loop sums every entry's weighted contribution |
| Progress.ReportMatchesWeighting | src/models/project_progress_report.rs:696-713 | An entry's report progress equals `value`×`base.value`/100 times the product of the ancestors' `value`/100 |
| Projects.Admitted | src/models/project.rs:190-214 | A Support request is admitted exactly when it has a name; any other kind exactly when its id names a stored user |
| Projects.AdmittedAll | src/models/project.rs:190-215 | Every appended member is admitted from some request, and there are no more members than requests |
| Projects.AdmitAll | src/models/project.rs:190-215 | The request loop of `add_member` admits exactly `AdmittedAll`, in request order |
| Projects.AdmittedSingle | src/models/project.rs:190-215 | A batch of one request appends what that request admits |
| Projects.AddMemberAcceptsUnknownUser | src/models/project.rs:203-204 | As written, a Direct member with an id no user has is admitted, where the intended check refuses it |
| Projects.AdmittedAgreesOnStoredUsers | src/models/project.rs:203-211 | The written and the intended checks agree on Support requests and on stored users |
| Projects.AreasAdded | src/models/project.rs:233-246 | The old areas stay as a prefix, and one area per name follows in request order |
| Projects.AreaRemoved | src/models/project.rs:848-852 | No list stays none; without a match nothing changes; otherwise the first matching area leaves |
| Projects.AreaRemovedKeepsOthers | src/models/project.rs:848-852 | Only the first matching area goes, and the others keep their order |
| Projects.AreaRemovedGone | src/models/project.rs:848-852 | With unique ids, no area with the id remains |
| Projects.RootTasks | src/models/project.rs:814-823 | The root tasks are exactly the project's stored tasks without a parent |
| Projects.StartRefusal | src/models/project.rs:812-831 | A project may start exactly when it has root tasks whose values sum to exactly 100 |
| Projects.Total | src/models/project.rs:825-827 | The summing loop computes the sum of the values |
| Projects.Project.Save | src/models/project.rs:162-177 | A missing customer gives CUSTOMER_NOT_FOUND and stores nothing; otherwise the project takes the fresh id and is inserted, failing only on a duplicate id; no other collection changes |
| Projects.Project.AddMember | src/models/project.rs:178-228 | Admitted members are appended in request order after the existing ones, and the project is written back |
| Projects.Project.AddArea | src/models/project.rs:229-257 | The areas become `AreasAdded` and the project is written back |
| Projects.Project.RemoveArea | src/models/project.rs:844-863 | The areas become `AreaRemoved` and the project is written back |
| Projects.Project.UpdateStatus | src/models/project.rs:795-843 | The new status goes first in memory; starting is refused with the reason from `StartRefusal` and nothing is written; otherwise the project is written back |
| Projects.StatusPrependShifts | src/models/project.rs:803-810 | After a prepend the new entry is the latest, and the older history is shifted by one, unchanged |
| ProjectRoles.AnyRoleGrants | src/models/project_role.rs:61-70 | True exactly when some role id resolves to a role holding Owner or the permission; ids that do not resolve are skipped |
| ProjectRoles.Membership | src/models/project_role.rs:58-60 | None exactly when the project is missing, has no members, or does not list the user |
| ProjectRoles.Validate | src/models/project_role.rs:53-75 | False without a project or members; otherwise true exactly when the user's membership has a role granting the permission |
| ProjectRoles.Save | src/models/project_role.rs:76-91 | A role for a missing project gives PROJECT_NOT_FOUND and stores nothing; otherwise it is inserted, failing only on a duplicate id |
| ProjectRoles.OwnerPassesEveryCheck | src/models/project_role.rs:63-65 | A member holding a resolvable Owner role passes every permission check |
| ProjectRoles.NonMemberFails | src/models/project_role.rs:60 | Someone who is not a member never passes |
| Roles.WithPermissionAppends | src/models/role.rs:34-47 | `add_permission` keeps the list as a prefix and appends the payload exactly when it is one of the nine names |
| Roles.WithPermissionNeverOwner | src/models/role.rs:34-47 | `add_permission` never changes whether the list holds Owner |
| Roles.WithPermissionTwice | src/models/role.rs:36-44 | Adding a listed name twice stores it twice more: nothing is deduplicated |
| Roles.Validate | src/models/role.rs:48-59 | True exactly when some id resolves to a role listing Owner or the action; an empty id list gives false |
| Roles.OwnerGrantsEverything | src/models/role.rs:51-54 | A role holding Owner grants every action to whoever lists it |
| Roles.Role.AddPermission | src/models/role.rs:34-47 | The permission list becomes `WithPermission` of the old list |
| Roles.Role.SetAsOwner | src/models/role.rs:60-62 | Owner is appended to the permission list |
| Roles.Role.Save | src/models/role.rs:63-74 | The role gets a fresh id and is inserted; a duplicate id fails and leaves the collection unchanged |
| Tasks.Conditions | src/models/project_task.rs:295-318 | The pushed `$eq` clauses hold of a task exactly when the query selects it |
| Tasks.ParentIdOverridesBase | src/models/project_task.rs:310-318 | With a parent id in the query, `base` makes no difference |
| Tasks.Matching | src/models/project_task.rs:320-326 | The matched tasks are exactly the stored tasks the query selects |
| Tasks.FindMany | src/models/project_task.rs:287-346 | A limit of 0 gives the error PROJECT_TASK_NOT_FOUND; otherwise None exactly when nothing matches; every task found is stored and selected; without a limit all matches are found in stored order, with one the first `limit` of them |
| Tasks.Found | src/models/project_task.rs:333-345 | The `if let Ok(Some(..))` reading of a query: None exactly when nothing matches or the limit is 0; every task found is stored and selected; without a limit, all matches in stored order |
| Tasks.Cleared | src/models/project_task.rs:127-132 | The parent loses its volume and its assignees, and nothing else changes |
| Tasks.Placement | src/models/project_task.rs:141-154 | A missing project gives PROJECT_NOT_FOUND; a project without the area gives PROJECT_AREA_NOT_FOUND; it passes exactly when one of the project's areas has the id |
| Tasks.ProjectTask.AdoptParent | src/models/project_task.rs:121-139 | A missing parent gives PROJECT_TASK_NOT_FOUND and changes nothing; otherwise the parent is written back cleared and the task takes its area |
| Tasks.ProjectTask.Save | src/models/project_task.rs:115-155 | A fresh id; a sub-task clears its parent and takes its area; the project and area are checked; then the task is appended, and on success the placement held |
| Tasks.ProjectTask.Update | src/models/project_task.rs:156-169 | The whole task is written over the stored one |
| Tasks.ProjectTask.UpdatePeriod | src/models/project_task.rs:170-189 | start ≥ end gives INVALID_PERIOD, leaving the period and the collection unchanged; otherwise the period is set and written back |
| Tasks.Prepended | src/models/project_task.rs:199-206 | The new status is first, the older history follows unchanged, and nothing else changes |
| Tasks.FinishedProject | src/models/project_task.rs:247-253 | The project's latest status becomes Finished, over its unchanged history |
| Tasks.SubTaskStep | src/models/project_task.rs:209-229 | Finishing a sub-task either climbs, having written the task, to its parent as stored, or ends without touching projects, having written the task or nothing; success answers the task's id |
| Tasks.RootStep | src/models/project_task.rs:230-255 | Finishing a root task writes the task back or nothing, and success answers its id; which projects change is stated by the lemmas beside it |
| Tasks.StepOf | src/models/project_task.rs:199-275 | A level climbs only when finishing a sub-task, having written the task; any other ending writes the task back or nothing |
| Tasks.CascadeEnds | src/models/project_task.rs:273-275 | A level that ends gives the outcome of the whole cascade |
| Tasks.CascadeClimbs | src/models/project_task.rs:267-272 | A level that climbs leaves a parent chain the recursion can walk, and the cascade continues from the parent |
| Tasks.ClimbsReplace | src/models/project_task.rs:258-275 | Writing back a task that keeps its parent link keeps every parent chain within the same bound |
| Tasks.CascadeKeepsFinished | src/models/project_task.rs:258-275 | A cascade of finishes leaves every finished task finished |
| Tasks.CascadeFinishesSelf | src/models/project_task.rs:199-275 | Finishing a stored task leaves it finished, provided a root task's project exists |
| Tasks.ParentFinishedWhenSiblingsAre | src/models/project_task.rs:209-229 | When every sibling is already finished, finishing a sub-task finishes its parent |
| Tasks.ParentUntouchedWhileSiblingRuns | src/models/project_task.rs:222-229 | While a sibling is unfinished, the parent and the projects are left as they were |
| Tasks.RootTestSpansProjects | src/models/project_task.rs:232-246 | One unfinished root task of any project keeps the project from finishing |
| Tasks.LastRootFinishesProject | src/models/project_task.rs:243-254 | Finishing the last unfinished root task finishes its project |
| Tasks.OtherKindsOnlyPrepend | src/models/project_task.rs:199-209 | A status other than Finished is only prepended and written back; nothing else changes |
| Tasks.CascadeKeepsShape | src/models/project_task.rs:258-266 | A cascade changes statuses only: no task appears, disappears or changes its parent |
| Tasks.StoredTaskClimbs | src/models/project_task.rs:267-275 | When every stored chain ends, a stored task can start a cascade |
| Tasks.ProjectTask.StatusStep | src/models/project_task.rs:196-266 | One level prepends the status, and its writes and result are `StepOf` |
| Tasks.ProjectTask.FinishSubTask | src/models/project_task.rs:210-229 | Finishing a sub-task carries out `SubTaskStep` |
| Tasks.ProjectTask.FinishRoot | src/models/project_task.rs:230-255 | Finishing a root task carries out `RootStep` |
| Tasks.ProjectTask.UpdateStatus | src/models/project_task.rs:190-276 | The recursive `update_status` produces exactly the specified cascade |
| Reports.WindowRefusal | src/models/project_progress_report.rs:157-167 | An absent window passes; a present one passes exactly when both readings are valid and the start is strictly earlier; otherwise PROJECT_REPORT_TIME_INVALID |
| Reports.MinuteOfDayOrders | src/models/project_progress_report.rs:159-163 | For valid readings, comparing minutes of the day is comparing hours, then minutes |
| Reports.Flagged | src/models/project_progress_report.rs:179-212 | An entry is flagged exactly when its task is missing or has sub-tasks |
| Reports.Snap | src/models/project_progress_report.rs:185-187 | A value within 0.001 of the task's remainder becomes exactly the remainder; otherwise it is unchanged |
| Reports.Cleaned | src/models/project_progress_report.rs:179-216 | The kept entries are never flagged and are no more than the entries |
| Reports.CleanedKeepsExactlyUnflagged | src/models/project_progress_report.rs:179-216 | Exactly the flagged entries leave; the others stay, snapped, in their order |
| Reports.RemoveAt | src/models/project_progress_report.rs:215 | `Vec::remove` fails exactly past the end, and otherwise drops that one position |
| Reports.RemoveInOrder | src/models/project_progress_report.rs:214-216 | As written, each removal shortens the list by one, and more indices than entries fail |
| Reports.RemoveInOrderShifts | src/models/project_progress_report.rs:214-216 | As written, flags at 0 and 1 remove the wrong second entry, and flags at 1 and 2 run off the end |
| Reports.WaitingProjectRuns | src/models/project_progress_report.rs:171-178 | After `Started`, a waiting project that may start has Running as its latest status, and a project that is not waiting is unchanged |
| Reports.StartIfWaiting | src/models/project_progress_report.rs:171-178 | A Pending or Paused project is started, or the save fails with PROJECT_UPDATE_FAILED when it may not start; other projects are left alone; on success the projects are `Started` |
| Reports.ApplyEntry | src/models/project_progress_report.rs:185-209 | A completing value finishes the task with the whole cascade; otherwise a task without status gives PROJECT_TASK_STATUS_NOT_FOUND, a Running task is left alone and any other is set Running; the entry comes back snapped and no task changes its parent; result and new state are `EntryEffect` of the old state |
| Reports.EntryTaskMovesOn | src/models/project_progress_report.rs:185-209 | After a kept entry succeeds its task's latest status is Finished when the value completes it and Running otherwise |
| Reports.CleanFromFirst | src/models/project_progress_report.rs:179-213 | The loop over entries skips a flagged entry, stops at the first failing one, and otherwise goes on from the state the entry left |
| Reports.CleanEntries | src/models/project_progress_report.rs:179-213 | The result, tasks and projects are `CleanFrom` of the old state (each kept entry's `EntryEffect` in turn, up to the first failure); on success the entry loop returns exactly `Cleaned`; errors are the two task-update failures; tasks only change their statuses |
| Reports.ProgressReport.Save | src/models/project_progress_report.rs:147-224 | Project and window checks; actual entries start the project and are cleaned; on success the report is appended with the cleaned entries; with actual entries, the tasks and projects become `CleanFrom` of the tasks and the `Started` projects |
| ProjectRoutes.PathIds | src/routes/project.rs:245-248 | Both path segments parse as ObjectIds, or the route answers INVALID_ID |
| ProjectRoutes.CreateProject | src/routes/project.rs:86-155 | 401 unless the caller's roles grant CreateProject; 200 exactly when the caller passes, the customer exists and both ids are fresh; then the project with the caller as Owner member and its Owner role are appended |
| ProjectRoutes.StoreProject | src/routes/project.rs:97-150 | A missing customer gives 500 CUSTOMER_NOT_FOUND; 200 exactly when the customer exists and both ids are fresh, and then the project with its Owner member and the Owner role are appended; tasks and reports are untouched |
| ProjectRoutes.CreatorPassesEveryCheck | src/routes/project.rs:114-132 | Right after creation the caller passes every permission check of the new project |
| ProjectRoutes.CreateProjectTask | src/routes/project.rs:190-238 | INVALID_ID, then the CreateTask gate, then 400 PROJECT_TASK_MUST_HAVE_AREA_ID without an area, then the placement error as 500; 200 appends exactly one root task, and any other reply leaves the tasks unchanged |
| ProjectRoutes.NewSubTasks | src/routes/project.rs:276-293 | Each sub-task takes the parent's area, points at the parent, starts Pending, and keeps its request's value |
| ProjectRoutes.RequestTotal | src/routes/project.rs:266-270 | The loop computes the sum of the request values |
| ProjectRoutes.EditRefusal | src/routes/project.rs:245-263 | Passes exactly when the path parses, the caller holds CreateTask, and the task and its Pending project exist; otherwise the matching 400/401/404 |
| ProjectRoutes.SubTaskRefusal | src/routes/project.rs:245-274 | Passes exactly when the shared gate passes and the values sum to exactly 100 |
| ProjectRoutes.SaveSubTasks | src/routes/project.rs:276-305 | Either the parent is cleared and all sub-tasks follow in request order, or only the clearing of the parent remains |
| ProjectRoutes.SaveNext | src/routes/project.rs:276-295 | One iteration appends its sub-task, or leaves the batch saved so far |
| ProjectRoutes.SaveSubTask | src/routes/project.rs:277-295 | One save clears the parent and appends the sub-task, or only clears the parent |
| ProjectRoutes.RollBack | src/routes/project.rs:296-302 | Deleting the created ids, which no earlier task has, restores the collection as it was before the batch |
| ProjectRoutes.CreateProjectTaskSub | src/routes/project.rs:239-316 | A refusal is the reply and changes nothing; otherwise 200 with the parent cleared and the whole batch appended, or 500 with only the parent cleared |
| ProjectRoutes.Edited | src/routes/project.rs:431-434 | Only name, volume, description and value change |
| ProjectRoutes.UpdateProjectTask | src/routes/project.rs:404-446 | A refusal is the reply and changes nothing; otherwise the task is replaced by `Edited` and its id is answered |
| ProjectRoutes.Edit | src/routes/project.rs:429-439 | The in-memory edit and `update` replace the stored task with `Edited` |
| ProjectRoutes.Uploaded | src/routes/project.rs:560-601 | Entries keep their ids and descriptions, entries past the files are untouched, and a completed loop gives entry i the extension of file i |
| ProjectRoutes.UploadedEnds | src/routes/project.rs:560-601 | The loop completes exactly when every file is named and moved; otherwise the first failing file decides how it ends |
| ProjectRoutes.EndOfFirstFailure | src/routes/project.rs:560-601 | How the loop ends depends on the files alone: completed exactly when all are named and moved, else decided by the first failing file |
| ProjectRoutes.UploadedStops | src/routes/project.rs:577-585 | After the loop stops, later files change nothing |
| ProjectRoutes.Document | src/routes/project.rs:560-601 | The loop records `Uploaded`; an unnamed file deletes the report and refuses; a failed move deletes it when the target could be removed |
| ProjectRoutes.FinalReplyAsWritten | src/routes/project.rs:605-612 | As written, the final reply is 200 with the report id, whatever the update did |
| ProjectRoutes.FinalReply | src/routes/project.rs:605-612 | 200 exactly when the update went through, and 500 PROJECT_REPORT_UPDATE_FAILED otherwise |
| `ProjectRoutes.FailedUpdateAnswered200` | src/routes/project.rs:605-612 | The two replies differ exactly on a failed update, which is answered 200 as written |
| ProjectRoutes.UpdateProjectReport | src/routes/project.rs:513-613 | INVALID_ID, 401, 404 PROJECT_REPORT_NOT_FOUND, 500 DIRECTORY_CREATION_FAILED, 400 without documentation; a count mismatch deletes the report; then the loop's outcome, and the report is written back, or deleted when that write fails |
| ProjectRoutes.Attach | src/routes/project.rs:543-612 | The documentation checks, the loop and the final write or delete, as in `UpdateProjectReport` |
| RoleRoutes.CreateRole | src/routes/role.rs:20-46 | 401 unless the caller's roles grant CreateRole; an Owner permission gives 400 and stores nothing; otherwise 201 and the role is inserted; no role gains Owner |
| RoleRoutes.DeleteRole | src/routes/role.rs:60-79 | INVALID_ID before the DeleteRole gate; then the role is removed and the reply counts the deleted roles (0 or 1) |
| RoleRoutes.UpdateRole | src/routes/role.rs:80-116 | INVALID_ID, the UpdateRole gate, 400 ROLE_NOT_FOUND; an Owner permission gives 400 and stores nothing; otherwise the role is replaced; no role gains Owner |
| UserRoutes.KeptRoles | src/routes/user.rs:75-80 | A role id is kept exactly when it is requested and names a stored role |
| UserRoutes.KeptRolesAppend | src/routes/user.rs:75-80 | Filtering works piecewise, so the request order is kept |
| UserRoutes.KeptRolesOfStored | src/routes/user.rs:75-80 | A list naming only stored roles is kept whole |
| UserRoutes.KeepRoles | src/routes/user.rs:75-80 | The push loop computes `KeptRoles` |
| UserRoutes.FirstUserMayDoAnything | src/routes/user.rs:88-94 | The first user's only role grants every action |
| UserRoutes.CreateUser | src/routes/user.rs:37-109 | The password is checked first, then the e-mail; the first user wipes the roles and gets a fresh Owner role; later users need a CreateUser caller and a role list; a taken e-mail stores nothing; distinct e-mails stay distinct |
| UserRoutes.Bootstrap | src/routes/user.rs:84-98 | All roles are deleted and one Owner role is stored in their place |
| UserRoutes.Register | src/routes/user.rs:100-108 | A taken e-mail gives USER_ALREADY_EXIST, a hashing failure HASHING_FAILED; otherwise the user is inserted with the hashed password |
| Email.FirstAt | src/routes/user.rs:41 | The position of the first '@', or the length when there is none |
| Email.LabelsIffSegmented | src/routes/user.rs:41 | The label grammar `[a-z0-9]+([-.][a-z0-9]+)*` equals the character-wise check |
| Email.MatchesIffIsEmail | src/routes/user.rs:40-49 | The direct check accepts exactly the strings the start-anchored pattern matches |
| Email.TrailingTextAccepted | src/routes/user.rs:40-48 | Anything may follow a matching address |
| `Email.Utf8Length` | src/routes/user.rs:45 | `String::len` counts between one and four bytes per character |
| Email.AsciiLength | src/routes/user.rs:45 | ASCII text has one byte per character |

## Left out

- **MongoDB driver failures.** Connection and driver errors are not
  modelled: every read answers and every write succeeds, except an insert
  of a duplicate id. So the errors that only a failing driver produces do
  not arise:
  - `UNABLE_TO_DELETE_ROLES` and `UNABLE_TO_CREATE_ROLE` in `create_user`;
  - the `add_member` failure branch of `create_project` (add_member
    cannot fail);
  - the `expect("..._DELETION_FAILED")` panics;
  - `PROJECT_REPORT_DELETION_FAILED`.
- **Aggregation pipelines.** These are not modelled. A task's accumulated
  progress in the report `save` is the parameter `progressOf`. The
  dependency tasks of the report walk are a parameter, because the source
  fetches them with the report's own id as the project id.
- **Outside effects.** RS256 signing and checking, bcrypt, the clock,
  `ObjectId::new` and the file system are parameters. This covers
  directory creation, `rename`, `remove_dir_all`, `fs::read` and
  `mime_guess`.
- **Other operations.** These are not part of this model:
  - read-only queries: `get_roles`, `get_role`, `get_users`, `get_user`,
    `get_project`, and the `find_*` detail pipelines;
  - `login`, the server setup and the middleware plumbing;
  - the company, customer, incident and safety modules;
  - the routes that only call modelled operations:
    `create_project_role`, `create_project_report`,
    `update_project_task_status`, `update_project_task_period`,
    `add_project_member` and `add_project_area`.
- **Floating point.** IEEE-754 rounding of `f64` is not modelled. The
  comparisons with 99.99, 0.001 and 100.0 are made over reals.
- **User image.** The user's `image` field is not modelled.
- Tasks.ProjectTask.UpdateStatus: one `now` serves every level of the
  cascade, where the source reads the clock again at each level.
- Tasks.ProjectTask.UpdateStatus: requires the parent chain to end within
  a ghost bound. The source recurses forever on a cyclic `task_id` chain.
- Reports.ProgressReport.Save: requires the same bound, for the cascades
  its entries start.
- Progress.CalculateProgress: requires every ancestor chain to reach a
  root. The source's loop never ends otherwise, as
  `Progress.MissingAncestorNeverEnds` and `Progress.SelfParentNeverEnds`
  show.
- Progress.ReportProgress: requires the report walk of every entry to
  end. The source's `while found` loop never ends on a dependency that
  names itself or a cycle of dependencies, as
  `Progress.SelfDependentEntryNeverEnds` shows. The routes give new tasks
  fresh ids and existing parents, and never change a task's parent, so the
  stored dependencies do not form such a cycle.
- Tasks.SubTaskStep: a task with an empty status history counts as not
  finished, where the source's `get(0).unwrap()` panics.
- Tasks.RootStep: the same reading of an empty status history.
- ProjectRoutes.EditRefusal: a project with an empty status history is not
  Pending, where the source panics.
- Reports.StartIfWaiting: a project with an empty status history is not
  waiting, where the source panics.
- ProjectRoutes.Document: every documentation entry is taken to carry an
  id. So the 500 `PROJECT_REPORT_DOCUMENTATION_INVALID_LENGTH` branch for
  an entry without one is not modelled. The `..._MALFORMED` branch cannot
  be reached, because the counts were checked equal before the loop.
- ProjectRoutes.CreateProjectTaskSub: as in the source, the parent's
  cleared volume and assignees are not restored by the rollback.
- ProjectRoutes.UpdateProjectReport: whether the final `update` succeeds
  is a parameter, because only a driver failure makes it fail.

## Findings

| source | as written | input that shows it | evidently intended | confidence | as-written member | corrected member |
|---|---|---|---|---|---|---|
| src/models/project_progress_report.rs:214-216 | The flagged indices are removed in ascending order from the list that each removal has already shortened | Three entries with positions 0 and 1 flagged keep only the third entry's neighbour (`[b]` of `[a, b, c]`); positions 1 and 2 flagged make the second `remove` run past the end and panic | Exactly the flagged entries leave, and the others keep their order | not executed | `Reports.RemoveInOrder` (counterexample `Reports.RemoveInOrderShifts`) | `Reports.Cleaned` (proved by `Reports.CleanedKeepsExactlyUnflagged`) |
| src/routes/project.rs:605-612 | After a failed `update` the report is deleted and a 500 reply is built, but not returned; the route answers 200 | `report.update()` fails | Answer 500 PROJECT_REPORT_UPDATE_FAILED | not executed | `ProjectRoutes.FinalReplyAsWritten` (shown by `ProjectRoutes.FailedUpdateAnswered200`) | `ProjectRoutes.FinalReply` (used by `ProjectRoutes.UpdateProjectReport`) |
| src/models/project.rs:203-204 | A non-Support member is admitted when `User::find_by_id(id).is_ok()`, which also holds when no user has the id (`Ok(None)`) | A Direct member request whose id names no stored user | Admit only ids of stored users | not executed | `Projects.AdmittedAsWritten` (shown by `Projects.AddMemberAcceptsUnknownUser`) | `Projects.Admitted` (used by `Projects.Project.AddMember`) |
