/** Progress arithmetic of a project (src/models/project.rs,
    `calculate_progress`) and of one report (src/models/project_progress_report.rs,
    the walk in `find_detail_by_id`). Task values are percentages of the
    parent task; `f64` is modelled as `real`, without rounding. The query
    results (base tasks, dependency tasks, reports) are the inputs. */
module Progress {
  import opened Base
  import opened Store

  const DayMillis: int := 86400000

  /** Rust's `/` on `i64`: the quotient truncated toward zero. */
  function RustDiv(a: int, b: int): (q: int)
    requires b > 0
    ensures a >= 0 ==> q >= 0 && q * b <= a < q * b + b
    ensures a < 0 ==> q <= 0 && q * b - b < a <= q * b
  {
    if a >= 0 then a / b else -((-a) / b)
  }

  // ---------------------------------------------------------------- ancestor chain

  /** Walking `task_id` links from `id` through `deps` reaches a root task
      within `fuel` steps, every ancestor being found on the way. */
  predicate ChainEnds(deps: seq<TaskDoc>, id: Option<ObjectId>, fuel: nat)
    decreases fuel
  {
    match id
    case None => true
    case Some(t) =>
      fuel > 0 && IndexOf(deps, TaskKey, t).Some?
      && ChainEnds(deps, deps[IndexOf(deps, TaskKey, t).value].taskId, fuel - 1)
  }

  /** The product of `value / 100` over the ancestors on the chain. */
  function ChainFactor(deps: seq<TaskDoc>, id: Option<ObjectId>, fuel: nat): real
    requires ChainEnds(deps, id, fuel)
    decreases fuel
  {
    match id
    case None => 1.0
    case Some(t) =>
      var k := IndexOf(deps, TaskKey, t).value;
      deps[k].value / 100.0 * ChainFactor(deps, deps[k].taskId, fuel - 1)
  }

  /** More fuel changes neither the verdict nor the product. */
  lemma {:induction false} ChainFuel(deps: seq<TaskDoc>, id: Option<ObjectId>, f1: nat, f2: nat)
    requires ChainEnds(deps, id, f1) && f1 <= f2
    ensures ChainEnds(deps, id, f2) && ChainFactor(deps, id, f2) == ChainFactor(deps, id, f1)
    decreases f1
  {
    if id.Some? {
      var k := IndexOf(deps, TaskKey, id.value).value;
      ChainFuel(deps, deps[k].taskId, f1 - 1, f2 - 1);
    }
  }

  /** The weighting loop of `calculate_progress` stops for this chain. */
  ghost predicate ChainTerminates(deps: seq<TaskDoc>, id: Option<ObjectId>)
  {
    exists fuel: nat :: ChainEnds(deps, id, fuel)
  }

  ghost function AncestorFactor(deps: seq<TaskDoc>, id: Option<ObjectId>): real
    requires ChainTerminates(deps, id)
  {
    var fuel: nat :| ChainEnds(deps, id, fuel);
    ChainFactor(deps, id, fuel)
  }

  lemma AncestorFactorIs(deps: seq<TaskDoc>, id: Option<ObjectId>, fuel: nat)
    requires ChainEnds(deps, id, fuel)
    ensures ChainTerminates(deps, id) && AncestorFactor(deps, id) == ChainFactor(deps, id, fuel)
  {
    forall f: nat | ChainEnds(deps, id, f)
      ensures ChainFactor(deps, id, f) == ChainFactor(deps, id, fuel)
    {
      if f <= fuel {
        ChainFuel(deps, id, f, fuel);
      } else {
        ChainFuel(deps, id, fuel, f);
      }
    }
  }

  /** An ancestor id missing from the dependencies makes the loop spin forever. */
  lemma MissingAncestorNeverEnds(deps: seq<TaskDoc>, t: ObjectId)
    requires forall j :: 0 <= j < |deps| ==> deps[j].id != t
    ensures !ChainTerminates(deps, Some(t))
  {
  }

  /** So does a task that names itself as its parent. */
  lemma {:induction false} SelfParentNeverEnds(deps: seq<TaskDoc>, t: ObjectId, fuel: nat)
    requires IndexOf(deps, TaskKey, t).Some? && deps[IndexOf(deps, TaskKey, t).value].taskId == Some(t)
    ensures !ChainEnds(deps, Some(t), fuel)
    decreases fuel
  {
    if fuel > 0 {
      SelfParentNeverEnds(deps, t, fuel - 1);
    }
  }

  /** The base tasks after the weighting loop: each value scaled by its
      ancestors' factors. The loop runs only when both lists are non-empty. */
  ghost function Weighted(bases: seq<TaskDoc>, deps: seq<TaskDoc>): (w: seq<TaskDoc>)
    requires |bases| > 0 && |deps| > 0 ==> forall i :: 0 <= i < |bases| ==> ChainTerminates(deps, bases[i].taskId)
    ensures |w| == |bases|
  {
    if |bases| > 0 && |deps| > 0 then
      seq(|bases|, i requires 0 <= i < |bases| =>
        bases[i].(value := bases[i].value * AncestorFactor(deps, bases[i].taskId)))
    else bases
  }

  /** The `while found` loop of `calculate_progress` for one task: its value
      multiplied by each ancestor's `value / 100` in turn. */
  method WeighOne(deps: seq<TaskDoc>, taskId: Option<ObjectId>, value: real) returns (weighted: real)
    requires ChainTerminates(deps, taskId)
    ensures weighted == value * AncestorFactor(deps, taskId)
  {
    var id := taskId;
    weighted := value;
    ghost var fuel: nat :| ChainEnds(deps, id, fuel);
    ghost var total := ChainFactor(deps, id, fuel);
    AncestorFactorIs(deps, id, fuel);
    while id.Some?
      invariant ChainEnds(deps, id, fuel)
      invariant weighted * ChainFactor(deps, id, fuel) == value * total
      decreases fuel
    {
      var k := IndexOf(deps, TaskKey, id.value).value;
      ghost var rest := ChainFactor(deps, deps[k].taskId, fuel - 1);
      assert ChainFactor(deps, id, fuel) == deps[k].value / 100.0 * rest;
      weighted := weighted * (deps[k].value / 100.0);
      id := deps[k].taskId;
      fuel := fuel - 1;
    }
  }

  /** The weighting loop over all base tasks, in place. */
  method WeighBases(bases: array<TaskDoc>, deps: seq<TaskDoc>)
    modifies bases
    requires forall i :: 0 <= i < bases.Length ==> ChainTerminates(deps, bases[i].taskId)
    ensures forall i :: 0 <= i < bases.Length ==>
              bases[i] == old(bases[i]).(value := old(bases[i]).value * AncestorFactor(deps, old(bases[i]).taskId))
  {
    for j := 0 to bases.Length
      invariant forall i :: 0 <= i < j ==>
                  bases[i] == old(bases[i]).(value := old(bases[i]).value * AncestorFactor(deps, old(bases[i]).taskId))
      invariant forall i :: j <= i < bases.Length ==> bases[i] == old(bases[i])
    {
      var value := WeighOne(deps, bases[j].taskId, bases[j].value);
      bases[j] := bases[j].(value := value);
    }
  }

  // ---------------------------------------------------------------- start day

  /** The earliest period start among the base tasks that have a period. */
  function EarliestPeriodStart(bases: seq<TaskDoc>): (r: Option<Millis>)
    ensures r.None? <==> forall i :: 0 <= i < |bases| ==> bases[i].period.None?
    ensures r.Some? ==> (exists i :: 0 <= i < |bases| && bases[i].period.Some? && bases[i].period.value.start == r.value)
                        && forall i :: 0 <= i < |bases| && bases[i].period.Some? ==> r.value <= bases[i].period.value.start
  {
    if |bases| == 0 then None
    else
      var rest := EarliestPeriodStart(bases[1..]);
      assert forall i :: 1 <= i < |bases| ==> bases[i] == bases[1..][i - 1];
      match bases[0].period
      case None => rest
      case Some(p) =>
        if rest.None? || p.start <= rest.value then Some(p.start) else rest
  }

  /** The earliest report date. */
  function EarliestReport(reports: seq<ReportDoc>): (r: Option<Millis>)
    ensures r.None? <==> |reports| == 0
    ensures r.Some? ==> (exists i :: 0 <= i < |reports| && reports[i].date == r.value)
                        && forall i :: 0 <= i < |reports| ==> r.value <= reports[i].date
  {
    if |reports| == 0 then None
    else
      var rest := EarliestReport(reports[1..]);
      assert forall i :: 1 <= i < |reports| ==> reports[i] == reports[1..][i - 1];
      if rest.None? || reports[0].date <= rest.value then Some(reports[0].date) else rest
  }

  /** The first day of the walk: the earliest dated base task or report, and
      0 when there is neither. */
  function StartOf(bases: seq<TaskDoc>, reports: seq<ReportDoc>): (start: Millis)
    ensures EarliestPeriodStart(bases).None? && |reports| == 0 ==> start == 0
    ensures forall i :: 0 <= i < |bases| && bases[i].period.Some? ==> start <= bases[i].period.value.start
    ensures forall i :: 0 <= i < |reports| ==> start <= reports[i].date
    ensures (exists i :: 0 <= i < |bases| && bases[i].period.Some? && bases[i].period.value.start == start)
            || (exists i :: 0 <= i < |reports| && reports[i].date == start)
            || (EarliestPeriodStart(bases).None? && |reports| == 0)
  {
    var fromBases := EarliestPeriodStart(bases);
    var start := if fromBases.Some? then fromBases.value else 0;
    match EarliestReport(reports)
    case Some(date) => if fromBases.None? || date < start then date else start
    case None => start
  }

  // ---------------------------------------------------------------- one day

  /** The whole days of a period, counted as the source counts them. */
  function PeriodDays(p: Period): int
  {
    RustDiv(p.end - p.start, DayMillis) + 1
  }

  predicate Covers(p: Period, date: Millis)
  {
    p.start <= date <= p.end
  }

  /** One base task's share of the plan on `date`: its value spread evenly
      over the whole days of its period, nothing outside the period. */
  function PlanShare(b: TaskDoc, date: Millis): (r: real)
    ensures b.period.None? || !Covers(b.period.value, date) ==> r == 0.0
    ensures b.period.Some? && Covers(b.period.value, date) ==>
              (PeriodDays(b.period.value) >= 1 && r * (PeriodDays(b.period.value) as real) == b.value)
  {
    match b.period
    case Some(p) => if Covers(p, date) then b.value / (PeriodDays(p) as real) else 0.0
    case None => 0.0
  }

  /** What the plan grows by on `date`. */
  function PlanOn(bases: seq<TaskDoc>, date: Millis): real
  {
    if |bases| == 0 then 0.0 else PlanOn(bases[..|bases| - 1], date) + PlanShare(bases[|bases| - 1], date)
  }

  /** The contribution of one report entry: its value weighted by the first
      base task with that id; entries naming no base task add nothing. */
  function EntryGain(bases: seq<TaskDoc>, entry: Actual): (r: real)
    ensures Find(bases, TaskKey, entry.taskId).None? ==> r == 0.0
    ensures Find(bases, TaskKey, entry.taskId).Some? ==>
              r == entry.value * Find(bases, TaskKey, entry.taskId).value.value / 100.0
  {
    match IndexOf(bases, TaskKey, entry.taskId)
    case Some(k) => entry.value * bases[k].value / 100.0
    case None => 0.0
  }

  function ReportGain(bases: seq<TaskDoc>, entries: seq<Actual>): real
  {
    if |entries| == 0 then 0.0 else ReportGain(bases, entries[..|entries| - 1]) + EntryGain(bases, entries[|entries| - 1])
  }

  /** What the actual progress grows by on `date`: the reports made on the
      same day number, each through its actual entries. */
  function ActualOn(bases: seq<TaskDoc>, reports: seq<ReportDoc>, date: Millis): real
  {
    if |reports| == 0 then 0.0
    else
      var r := reports[|reports| - 1];
      var gain := if RustDiv(date, DayMillis) == RustDiv(r.date, DayMillis) && r.actual.Some?
                  then ReportGain(bases, r.actual.value) else 0.0;
      ActualOn(bases, reports[..|reports| - 1], date) + gain
  }

  /** Entries for tasks that are not base tasks change nothing. */
  lemma {:induction false} ReportGainSkipsOtherTasks(bases: seq<TaskDoc>, entries: seq<Actual>, entry: Actual)
    requires forall j :: 0 <= j < |bases| ==> bases[j].id != entry.taskId
    ensures ReportGain(bases, entries + [entry]) == ReportGain(bases, entries)
  {
    assert EntryGain(bases, entry) == 0.0;
    assert (entries + [entry])[..|entries|] == entries;
  }

  const Nearly: real := 99.99

  function Clamp(x: real): (r: real)
    ensures r < Nearly || r == 100.0
    ensures x < Nearly ==> r == x
  {
    if x >= Nearly then 100.0 else x
  }

  // ---------------------------------------------------------------- the day loop

  datatype Totals = Totals(plan: real, actual: real)

  /** Both totals are below 99.99 or exactly 100. */
  predicate Settled(t: Totals)
  {
    (t.plan < Nearly || t.plan == 100.0) && (t.actual < Nearly || t.actual == 100.0)
  }

  /** The totals after the day with index `i` and all following ones, starting
      from `t`; a day on which both would reach 100 ends the walk unstored. */
  function Walk(bases: seq<TaskDoc>, reports: seq<ReportDoc>, start: Millis, days: int, i: int, t: Totals): Totals
    decreases days - i
  {
    if i >= days then t
    else
      var date := start + i * DayMillis;
      var plan := Clamp(t.plan + PlanOn(bases, date));
      var actual := Clamp(t.actual + ActualOn(bases, reports, date));
      if plan == 100.0 && actual == 100.0 then t
      else Walk(bases, reports, start, days, i + 1, Totals(plan, actual))
  }

  /** The result of `calculate_progress` for weighted base tasks, the reports
      and the current time `end`. */
  function DayTotals(bases: seq<TaskDoc>, reports: seq<ReportDoc>, end: Millis): Totals
  {
    var start := StartOf(bases, reports);
    if start == 0 then Totals(0.0, 0.0)
    else Walk(bases, reports, start, RustDiv(end - start, DayMillis) + 1, 0, Totals(0.0, 0.0))
  }

  lemma {:induction false} WalkSettled(bases: seq<TaskDoc>, reports: seq<ReportDoc>, start: Millis, days: int, i: int, t: Totals)
    requires Settled(t) && !(t.plan == 100.0 && t.actual == 100.0)
    ensures var r := Walk(bases, reports, start, days, i, t);
            Settled(r) && !(r.plan == 100.0 && r.actual == 100.0)
    decreases days - i
  {
    if i < days {
      var date := start + i * DayMillis;
      var plan := Clamp(t.plan + PlanOn(bases, date));
      var actual := Clamp(t.actual + ActualOn(bases, reports, date));
      if !(plan == 100.0 && actual == 100.0) {
        WalkSettled(bases, reports, start, days, i + 1, Totals(plan, actual));
      }
    }
  }

  /** Each total is below 99.99 or exactly 100, and never are both 100. */
  lemma TotalsSettled(bases: seq<TaskDoc>, reports: seq<ReportDoc>, end: Millis)
    ensures var r := DayTotals(bases, reports, end);
            Settled(r) && !(r.plan == 100.0 && r.actual == 100.0)
  {
    var start := StartOf(bases, reports);
    if start != 0 {
      WalkSettled(bases, reports, start, RustDiv(end - start, DayMillis) + 1, 0, Totals(0.0, 0.0));
    }
  }

  /** Without a dated base task and without reports there is no progress. */
  lemma NothingDatedNoProgress(bases: seq<TaskDoc>, reports: seq<ReportDoc>, end: Millis)
    requires forall i :: 0 <= i < |bases| ==> bases[i].period.None?
    requires |reports| == 0
    ensures DayTotals(bases, reports, end) == Totals(0.0, 0.0)
  {
  }

  /** A walk that begins a whole day or more after `end` never takes a step. */
  lemma FutureStartNoProgress(bases: seq<TaskDoc>, reports: seq<ReportDoc>, end: Millis)
    requires StartOf(bases, reports) >= end + DayMillis
    ensures DayTotals(bases, reports, end) == Totals(0.0, 0.0)
  {
  }

  /** A walk that begins less than a day after `end` still takes one step:
      the day count truncates toward zero, so the first day is counted. */
  lemma NextDayStartOneStep(bases: seq<TaskDoc>, reports: seq<ReportDoc>, end: Millis)
    requires StartOf(bases, reports) != 0
    requires end < StartOf(bases, reports) < end + DayMillis
    ensures var start := StartOf(bases, reports);
            var plan := Clamp(PlanOn(bases, start));
            var actual := Clamp(ActualOn(bases, reports, start));
            DayTotals(bases, reports, end)
            == (if plan == 100.0 && actual == 100.0 then Totals(0.0, 0.0) else Totals(plan, actual))
  {
    var start := StartOf(bases, reports);
    assert RustDiv(end - start, DayMillis) == 0;
    assert start + 0 * DayMillis == start;
  }

  /** The plan a base task contributes on the `n` days from `from`. */
  function PlanSum(b: TaskDoc, from: Millis, n: nat): real
  {
    if n == 0 then 0.0 else PlanSum(b, from, n - 1) + PlanShare(b, from + (n - 1) * DayMillis)
  }

  /** Walking a task's period from its first day, its shares add up to its
      whole value by the last day. */
  lemma PlanOverWholePeriod(b: TaskDoc)
    requires b.period.Some? && b.period.value.start <= b.period.value.end
    ensures PeriodDays(b.period.value) >= 1
    ensures PlanSum(b, b.period.value.start, PeriodDays(b.period.value) as nat) == b.value
  {
    var p := b.period.value;
    var n := PeriodDays(p);
    assert (n - 1) * DayMillis <= p.end - p.start;
    PlanSumCovered(b, n as nat, n as nat);
    assert b.value / (n as real) * (n as real) == b.value;
  }

  lemma {:induction false} PlanSumCovered(b: TaskDoc, n: nat, m: nat)
    requires b.period.Some? && b.period.value.start <= b.period.value.end
    requires m == PeriodDays(b.period.value) && n <= m
    ensures PlanSum(b, b.period.value.start, n) == (n as real) * (b.value / (m as real))
  {
    var p := b.period.value;
    if n > 0 {
      PlanSumCovered(b, n - 1, m);
      var date := p.start + (n - 1) * DayMillis;
      assert (m - 1) * DayMillis <= p.end - p.start;
      assert (n - 1) * DayMillis <= (m - 1) * DayMillis;
      assert Covers(p, date);
    }
  }

  /** The base tasks as the weighting loop leaves them. */
  method WeightedBases(bases: seq<TaskDoc>, deps: seq<TaskDoc>) returns (weighted: seq<TaskDoc>)
    requires |bases| > 0 && |deps| > 0 ==> forall i :: 0 <= i < |bases| ==> ChainTerminates(deps, bases[i].taskId)
    ensures weighted == Weighted(bases, deps)
  {
    var tasks := new TaskDoc[|bases|](i requires 0 <= i < |bases| => bases[i]);
    if |bases| > 0 && |deps| > 0 {
      WeighBases(tasks, deps);
    }
    weighted := tasks[..];
    assert forall i :: 0 <= i < |bases| ==> weighted[i] == Weighted(bases, deps)[i];
  }

  /** The day loop of `calculate_progress`. */
  method WalkDays(bases: seq<TaskDoc>, reports: seq<ReportDoc>, end: Millis) returns (progress: Totals)
    ensures progress == DayTotals(bases, reports, end)
  {
    var start := StartOf(bases, reports);
    progress := Totals(0.0, 0.0);
    if start != 0 {
      var days := RustDiv(end - start, DayMillis) + 1;
      var i := 0;
      while i < days
        invariant Walk(bases, reports, start, days, i, progress) == DayTotals(bases, reports, end)
        decreases days - i
      {
        var date := start + i * DayMillis;
        var plan := progress.plan + PlanOn(bases, date);
        var actual := progress.actual + ActualOn(bases, reports, date);
        if plan >= Nearly {
          plan := 100.0;
        }
        if actual >= Nearly {
          actual := 100.0;
        }
        if plan == 100.0 && actual == 100.0 {
          break;
        }
        progress := Totals(plan, actual);
        i := i + 1;
      }
    }
  }

  /** `calculate_progress` once its queries have run: weigh the base tasks,
      find the first day, then walk day by day up to `end`. */
  method CalculateProgress(bases: seq<TaskDoc>, deps: seq<TaskDoc>, reports: seq<ReportDoc>, end: Millis)
    returns (progress: Totals)
    requires |bases| > 0 && |deps| > 0 ==> forall i :: 0 <= i < |bases| ==> ChainTerminates(deps, bases[i].taskId)
    ensures progress == DayTotals(Weighted(bases, deps), reports, end)
    ensures Settled(progress) && !(progress.plan == 100.0 && progress.actual == 100.0)
  {
    var weighted := WeightedBases(bases, deps);
    progress := WalkDays(weighted, reports, end);
    TotalsSettled(weighted, reports, end);
  }

  // ---------------------------------------------------------------- one report

  /** The report walk stops at a root or at an ancestor it cannot find. */
  predicate WalkEnds(deps: seq<TaskDoc>, id: Option<ObjectId>, fuel: nat)
    decreases fuel
  {
    match id
    case None => true
    case Some(t) =>
      IndexOf(deps, TaskKey, t).None?
      || (fuel > 0 && WalkEnds(deps, deps[IndexOf(deps, TaskKey, t).value].taskId, fuel - 1))
  }

  function WalkFactor(deps: seq<TaskDoc>, id: Option<ObjectId>, fuel: nat): real
    requires WalkEnds(deps, id, fuel)
    decreases fuel
  {
    match id
    case None => 1.0
    case Some(t) =>
      match IndexOf(deps, TaskKey, t)
      case None => 1.0
      case Some(k) => deps[k].value / 100.0 * WalkFactor(deps, deps[k].taskId, fuel - 1)
  }

  lemma {:induction false} WalkFuel(deps: seq<TaskDoc>, id: Option<ObjectId>, f1: nat, f2: nat)
    requires WalkEnds(deps, id, f1) && f1 <= f2
    ensures WalkEnds(deps, id, f2) && WalkFactor(deps, id, f2) == WalkFactor(deps, id, f1)
    decreases f1
  {
    if id.Some? && IndexOf(deps, TaskKey, id.value).Some? {
      var k := IndexOf(deps, TaskKey, id.value).value;
      WalkFuel(deps, deps[k].taskId, f1 - 1, f2 - 1);
    }
  }

  ghost predicate WalkTerminates(deps: seq<TaskDoc>, id: Option<ObjectId>)
  {
    exists fuel: nat :: WalkEnds(deps, id, fuel)
  }

  ghost function WalkTotal(deps: seq<TaskDoc>, id: Option<ObjectId>): real
    requires WalkTerminates(deps, id)
  {
    var fuel: nat :| WalkEnds(deps, id, fuel);
    WalkFactor(deps, id, fuel)
  }

  lemma WalkTotalIs(deps: seq<TaskDoc>, id: Option<ObjectId>, fuel: nat)
    requires WalkEnds(deps, id, fuel)
    ensures WalkTerminates(deps, id) && WalkTotal(deps, id) == WalkFactor(deps, id, fuel)
  {
    forall f: nat | WalkEnds(deps, id, f)
      ensures WalkFactor(deps, id, f) == WalkFactor(deps, id, fuel)
    {
      if f <= fuel {
        WalkFuel(deps, id, f, fuel);
      } else {
        WalkFuel(deps, id, fuel, f);
      }
    }
  }

  /** Where the project's weighting loop ends, the report walk ends too and
      multiplies the same factors: both weigh a task alike. */
  lemma {:induction false} ChainAndWalkAgree(deps: seq<TaskDoc>, id: Option<ObjectId>, fuel: nat)
    requires ChainEnds(deps, id, fuel)
    ensures WalkEnds(deps, id, fuel) && WalkFactor(deps, id, fuel) == ChainFactor(deps, id, fuel)
    decreases fuel
  {
    if id.Some? {
      var k := IndexOf(deps, TaskKey, id.value).value;
      ChainAndWalkAgree(deps, deps[k].taskId, fuel - 1);
    }
  }

  /** A dependency that names itself as its parent keeps the report walk
      going forever. */
  lemma {:induction false} SelfDependencyNeverEnds(deps: seq<TaskDoc>, t: ObjectId, fuel: nat)
    requires IndexOf(deps, TaskKey, t).Some? && deps[IndexOf(deps, TaskKey, t).value].taskId == Some(t)
    ensures !WalkEnds(deps, Some(t), fuel)
    decreases fuel
  {
    if fuel > 0 {
      SelfDependencyNeverEnds(deps, t, fuel - 1);
    }
  }

  /** So an entry whose task hangs below such a dependency leaves the
      entries' walk without an end. */
  lemma SelfDependentEntryNeverEnds(entries: seq<Actual>, tasks: seq<TaskDoc>, deps: seq<TaskDoc>, i: nat, t: ObjectId)
    requires i < |entries| && Find(tasks, TaskKey, entries[i].taskId).Some?
    requires Find(tasks, TaskKey, entries[i].taskId).value.taskId == Some(t)
    requires IndexOf(deps, TaskKey, t).Some? && deps[IndexOf(deps, TaskKey, t).value].taskId == Some(t)
    ensures !EntriesTerminate(entries, tasks, deps)
  {
    forall fuel: nat ensures !WalkEnds(deps, Some(t), fuel) {
      SelfDependencyNeverEnds(deps, t, fuel);
    }
  }

  /** The report walk stops quietly at an ancestor it cannot find. */
  lemma WalkStopsAtMissing(deps: seq<TaskDoc>, t: ObjectId)
    requires forall j :: 0 <= j < |deps| ==> deps[j].id != t
    ensures WalkEnds(deps, Some(t), 0) && WalkFactor(deps, Some(t), 0) == 1.0
  {
  }

  /** The walk over every entry of a report ends. */
  ghost predicate EntriesTerminate(entries: seq<Actual>, tasks: seq<TaskDoc>, deps: seq<TaskDoc>)
  {
    forall i :: 0 <= i < |entries| && Find(tasks, TaskKey, entries[i].taskId).Some? ==>
      WalkTerminates(deps, Find(tasks, TaskKey, entries[i].taskId).value.taskId)
  }

  /** A report's progress: for each entry whose task is stored, its value
      times the task's value / 100 times every found ancestor's value / 100. */
  ghost function ReportProgressSpec(entries: seq<Actual>, tasks: seq<TaskDoc>, deps: seq<TaskDoc>): real
    requires EntriesTerminate(entries, tasks, deps)
  {
    if |entries| == 0 then 0.0
    else
      var e := entries[|entries| - 1];
      var count := match Find(tasks, TaskKey, e.taskId)
        case Some(base) => e.value * base.value / 100.0 * WalkTotal(deps, base.taskId)
        case None => 0.0;
      ReportProgressSpec(entries[..|entries| - 1], tasks, deps) + count
  }

  /** The count after one found ancestor: `count *= value / 100.0`. */
  function Scaled(count: real, value: real): real
  {
    count * (value / 100.0)
  }

  /** The count the `while found` loop ends with, starting from `count`. */
  ghost function WalkFrom(deps: seq<TaskDoc>, id: Option<ObjectId>, fuel: nat, count: real): real
    requires WalkEnds(deps, id, fuel)
    decreases fuel
  {
    match id
    case None => count
    case Some(t) =>
      match IndexOf(deps, TaskKey, t)
      case None => count
      case Some(k) => WalkFrom(deps, deps[k].taskId, fuel - 1, Scaled(count, deps[k].value))
  }

  lemma {:induction false} WalkFromIs(deps: seq<TaskDoc>, id: Option<ObjectId>, fuel: nat, count: real)
    requires WalkEnds(deps, id, fuel)
    ensures WalkFrom(deps, id, fuel, count) == count * WalkFactor(deps, id, fuel)
    decreases fuel
  {
    if id.Some? && IndexOf(deps, TaskKey, id.value).Some? {
      var k := IndexOf(deps, TaskKey, id.value).value;
      var factor := deps[k].value / 100.0;
      WalkFromIs(deps, deps[k].taskId, fuel - 1, Scaled(count, deps[k].value));
      var rest := WalkFactor(deps, deps[k].taskId, fuel - 1);
      assert count * factor * rest == count * (factor * rest);
    }
  }

  /** The `while found` loop of `find_detail_by_id` for one entry: `count`
      multiplied by the factor of each ancestor found. */
  method WalkOne(deps: seq<TaskDoc>, taskId: Option<ObjectId>, first: real) returns (count: real)
    requires WalkTerminates(deps, taskId)
    ensures count == first * WalkTotal(deps, taskId)
  {
    var id := taskId;
    count := first;
    ghost var fuel: nat :| WalkEnds(deps, id, fuel);
    ghost var result := WalkFrom(deps, id, fuel, first);
    WalkFromIs(deps, id, fuel, first);
    WalkTotalIs(deps, id, fuel);
    var found := true;
    while found
      invariant found ==> WalkEnds(deps, id, fuel) && WalkFrom(deps, id, fuel, count) == result
      invariant !found ==> count == result
      decreases fuel, found
    {
      if id.Some? {
        var index := IndexOf(deps, TaskKey, id.value);
        if index.Some? {
          var k := index.value;
          ghost var before := count;
          count := count * (deps[k].value / 100.0);
          assert count == Scaled(before, deps[k].value);
          id := deps[k].taskId;
          fuel := fuel - 1;
        } else {
          found := false;
        }
      } else {
        found := false;
      }
    }
  }

  /** The loop of `find_detail_by_id` that fills in `progress`. */
  method ReportProgress(entries: seq<Actual>, tasks: seq<TaskDoc>, deps: seq<TaskDoc>) returns (progress: real)
    requires EntriesTerminate(entries, tasks, deps)
    ensures progress == ReportProgressSpec(entries, tasks, deps)
  {
    progress := 0.0;
    for i := 0 to |entries|
      invariant EntriesTerminate(entries[..i], tasks, deps)
      invariant progress == ReportProgressSpec(entries[..i], tasks, deps)
    {
      assert entries[..i + 1][..i] == entries[..i];
      var base := Find(tasks, TaskKey, entries[i].taskId);
      if base.Some? {
        var count := WalkOne(deps, base.value.taskId, entries[i].value * base.value.value / 100.0);
        progress := progress + count;
      }
    }
    assert entries[..|entries|] == entries;
  }

  /** Where every chain of the project ends, a report's progress is its
      entries weighted by the weighted base tasks, as the project totals use. */
  lemma ReportMatchesWeighting(entry: Actual, base: TaskDoc, deps: seq<TaskDoc>, fuel: nat)
    requires ChainEnds(deps, base.taskId, fuel)
    ensures WalkTerminates(deps, base.taskId)
    ensures entry.value * base.value / 100.0 * WalkTotal(deps, base.taskId)
         == entry.value * (base.value * AncestorFactor(deps, base.taskId)) / 100.0
  {
    ChainAndWalkAgree(deps, base.taskId, fuel);
    WalkTotalIs(deps, base.taskId, fuel);
    AncestorFactorIs(deps, base.taskId, fuel);
  }
}
