/** Deploying a plan on a worker (src/fmh/reusable_executor.py): the plan is re-checked against a table that
    people edit at any time, the row is marked before the worker is stopped, and the new server is started
    only after the old one is gone. */
module Executor {
  import opened Text
  import opened Paths
  import opened Placement
  import opened Wrappers
  import opened PlanRewrites
  import opened DeployedTable

  // ---------------------------------------------------------------- finding the row again

  function FirstByIndex(rows: seq<Row>, index: nat): Option<Row> {
    if rows == [] then None else if rows[0].rowIndex == index then Some(rows[0]) else FirstByIndex(rows[1..], index)
  }

  function FirstByIp(rows: seq<Row>, ip: string): Option<Row> {
    if rows == [] then None else if rows[0].ip == ip then Some(rows[0]) else FirstByIp(rows[1..], ip)
  }

  function PlaceOnRow(c: Config, plan: Plan, row: Row): Option<Plan> {
    if SafeForPlan(c, row, plan.path) then Some(SetRow(plan, row)) else None
  }

  /** The plan against the table as it is now; None where the source raises. Without the worker in the table
      another row is taken. */
  function Refreshed(c: Config, g: Grid, plan: Plan): Option<Plan> {
    var ip, rows := Strip(plan.row.ip), ParseTable(c, g);
    if ip == "" then Some(plan)
    else
      var current := FirstByIndex(rows, plan.row.rowIndex);
      if current.Some? && current.value.ip == ip then PlaceOnRow(c, plan, current.value)
      else
        match FirstByIp(rows, ip)
        case Some(row) => PlaceOnRow(c, plan, row)
        case None =>
          match ChooseRow(c, rows, plan.row.gpuCount, {})
          case Some(row) => Some(SwapRow(c, plan, row))
          case None => None
  }

  ghost predicate Listed(c: Config, g: Grid, ip: string) { exists row :: row in ParseTable(c, g) && row.ip == ip }

  lemma {:induction false} FirstByIndexFinds(rows: seq<Row>, index: nat)
    ensures var r := FirstByIndex(rows, index);
      && (r.Some? ==> r.value in rows && r.value.rowIndex == index)
      && (r.None? ==> forall row :: row in rows ==> row.rowIndex != index)
  {
    if rows != [] {
      FirstByIndexFinds(rows[1..], index);
      assert rows == [rows[0]] + rows[1..];
    }
  }

  /** The first of the rows that name the worker. */
  ghost predicate IsFirstByIp(rows: seq<Row>, ip: string, row: Row) {
    exists k :: 0 <= k < |rows| && rows[k] == row && row.ip == ip && forall j :: 0 <= j < k ==> rows[j].ip != ip
  }

  lemma {:induction false} FirstByIpFinds(rows: seq<Row>, ip: string)
    ensures var r := FirstByIp(rows, ip);
      && (r.Some? <==> exists row :: row in rows && row.ip == ip)
      && (r.Some? ==> r.value in rows && r.value.ip == ip && IsFirstByIp(rows, ip, r.value))
  {
    if rows != [] {
      var rest := rows[1..];
      FirstByIpFinds(rest, ip);
      assert rows == [rows[0]] + rest;
      if rows[0].ip == ip {
        assert rows[0] == FirstByIp(rows, ip).value;
      } else if FirstByIp(rest, ip).Some? {
        var row := FirstByIp(rest, ip).value;
        var k :| 0 <= k < |rest| && rest[k] == row && row.ip == ip && forall j :: 0 <= j < k ==> rest[j].ip != ip;
        assert rows[k + 1] == row && forall j :: 0 < j < k + 1 ==> rows[j] == rest[j - 1];
      }
    }
  }

  lemma {:induction false} RowsInOrder(c: Config, g: Grid, from: nat)
    ensures forall i, j :: 0 <= i < j < |RowsFrom(c, g, from)| ==>
      RowsFrom(c, g, from)[i].rowIndex < RowsFrom(c, g, from)[j].rowIndex
    decreases g.rows - from
  {
    hide IsBlank, RowAt;
    if from < g.rows {
      RowsInOrder(c, g, from + 1);
      IndexOfRow(c, g, from);
      var rest := RowsFrom(c, g, from + 1);
      forall j | 0 <= j < |rest| ensures from < rest[j].rowIndex {
        RowsAreTheRows(c, g, from + 1, rest[j]);
      }
    }
  }

  /** The row a plan's worker has in the table: the plan's own row while it names the worker, else the first row that
      does. */
  ghost predicate IsOwnRow(c: Config, g: Grid, plan: Plan, row: Row) {
    && row in ParseTable(c, g) && row.ip == Strip(plan.row.ip)
    && (row.rowIndex == plan.row.rowIndex || IsFirstRow(c, g, plan.row.rowIndex, row))
  }

  ghost predicate IsFirstRow(c: Config, g: Grid, index: nat, row: Row) {
    forall other :: other in ParseTable(c, g) && other.ip == row.ip ==>
      row.rowIndex <= other.rowIndex && other.rowIndex != index
  }

  lemma FirstInTable(c: Config, g: Grid, index: nat, row: Row)
    requires IsFirstByIp(ParseTable(c, g), row.ip, row)
    requires forall other :: other in ParseTable(c, g) && other.ip == row.ip ==> other.rowIndex != index
    ensures IsFirstRow(c, g, index, row)
  {
    hide RowsFrom;
    RowsInOrder(c, g, 1);
    var rows := ParseTable(c, g);
    var k :| 0 <= k < |rows| && rows[k] == row && forall j :: 0 <= j < k ==> rows[j].ip != row.ip;
    forall other | other in rows && other.ip == row.ip ensures row.rowIndex <= other.rowIndex {
      var j :| 0 <= j < |rows| && rows[j] == other;
    }
  }

  lemma SameIndexSameRow(c: Config, g: Grid, a: Row, b: Row)
    requires a in ParseTable(c, g) && b in ParseTable(c, g) && a.rowIndex == b.rowIndex
    ensures a == b
  {
    hide IsBlank, RowAt, Readable;
    RowsAreTheRows(c, g, 1, a);
    RowsAreTheRows(c, g, 1, b);
  }

  /** A worker the table still lists is kept on its own row if that row is safe for the plan, and the refresh fails if
      it is not. For a worker that has left the table a free row before which no free row comes is taken, and the
      refresh fails if there is none. */
  lemma RefreshIs(c: Config, g: Grid, plan: Plan)
    ensures Strip(plan.row.ip) == "" ==> Refreshed(c, g, plan) == Some(plan)
    ensures Strip(plan.row.ip) != "" && Listed(c, g, Strip(plan.row.ip)) ==>
      exists row :: IsOwnRow(c, g, plan, row) &&
        Refreshed(c, g, plan) == if SafeForPlan(c, row, plan.path) then Some(plan.(row := row)) else None
    ensures Strip(plan.row.ip) != "" && !Listed(c, g, Strip(plan.row.ip)) ==>
      var rows, now := ParseTable(c, g), Refreshed(c, g, plan);
      && (now.None? <==> forall row :: row in rows ==> !IsFree(c, row, plan.row.gpuCount, {}))
      && (now.Some? ==> now.value.row in rows && IsLeast(c, rows, plan.row.gpuCount, {}, now.value.row))
  {
    hide ParseTable, SafeForPlan, BuildPlan, Strip, ChooseRow, RebuildPath, IsFree, IsLeast, IsFirstRow, IsFirstByIp;
    var ip, rows := Strip(plan.row.ip), ParseTable(c, g);
    FirstByIndexFinds(rows, plan.row.rowIndex);
    FirstByIpFinds(rows, ip);
    ChoiceIsLeast(c, rows, plan.row.gpuCount, {});
    var current, first := FirstByIndex(rows, plan.row.rowIndex), FirstByIp(rows, ip);
    if ip == "" {
      return;
    }
    if current.Some? && current.value.ip == ip {
      assert IsOwnRow(c, g, plan, current.value);
    } else if first.Some? {
      forall other | other in rows && other.ip == ip ensures other.rowIndex != plan.row.rowIndex {
        if other.rowIndex == plan.row.rowIndex {
          SameIndexSameRow(c, g, other, current.value);
        }
      }
      FirstInTable(c, g, plan.row.rowIndex, first.value);
      assert IsOwnRow(c, g, plan, first.value);
    } else if Refreshed(c, g, plan).Some? {
      RowOfBuilt(c, RebuildPath(plan.path), ChooseRow(c, rows, plan.row.gpuCount, {}).value);
    }
  }

  /** What a successful refresh gives, whatever was edited before: a row of the table that is safe for the plan, on
      the same worker exactly when the table still lists that worker. */
  lemma RefreshedRowIsSafe(c: Config, g: Grid, plan: Plan)
    requires Refreshed(c, g, plan).Some? && Strip(plan.row.ip) != ""
    ensures var ip, now := Strip(plan.row.ip), Refreshed(c, g, plan).value;
      && now.row in ParseTable(c, g) && SafeForPlan(c, now.row, now.path)
      && 0 < now.row.rowIndex < g.rows
      && (now.row.ip == ip <==> Listed(c, g, ip))
      && now.extra == plan.extra
  {
    hide ParseTable, SafeForPlan, BuildPlan, Strip, ChooseRow, RebuildPath, IsFree, IsFirstByIp, IsLeast;
    var ip, rows := Strip(plan.row.ip), ParseTable(c, g);
    FirstByIndexFinds(rows, plan.row.rowIndex);
    FirstByIpFinds(rows, ip);
    ChoiceIsLeast(c, rows, plan.row.gpuCount, {});
    var now := Refreshed(c, g, plan).value;
    if FirstByIp(rows, ip).None? {
      var row := ChooseRow(c, rows, plan.row.gpuCount, {}).value;
      RowOfBuilt(c, RebuildPath(plan.path), row);
      LeastIsFree(c, rows, row, plan.row.gpuCount);
      ReusableIsSafe(c, row, now.path, plan.row.gpuCount);
    }
    InTable(c, g, now.row);
  }

  lemma LeastIsFree(c: Config, rows: seq<Row>, row: Row, required: nat)
    requires IsLeast(c, rows, required, {}, row)
    ensures IsFree(c, row, required, {})
  {
  }

  lemma RowOfBuilt(c: Config, path: PathInfo, row: Row)
    ensures BuildPlan(c, path, row).row == row
  {
  }

  lemma ReusableIsSafe(c: Config, row: Row, path: PathInfo, required: nat)
    requires IsFree(c, row, required, {})
    ensures SafeForPlan(c, row, path)
  {
    hide IsReusable, MayScan, IsFinished;
    ReusableIff(c, row);
  }

  lemma InTable(c: Config, g: Grid, row: Row)
    requires row in ParseTable(c, g)
    ensures 0 < row.rowIndex < g.rows
  {
    RowsAreTheRows(c, g, 1, row);
  }

  // ---------------------------------------------------------------- what a run does to the world

  datatype Event =
    | Asked(ip: string, ids: set<string>)
    | Converted(done: bool)
    | Sighted(session: string, sessionFound: bool, windowFound: bool)
    | Probed(probe: Probe)
    | PathChecked(probed: string)
    | PreflightPassed(direct: bool)
    | Marked(before: Grid, row: Row, path: PathInfo, values: Values)
    | MarkRefused(before: Grid, plan: Plan)
    | PaneSeen(session: string, connected: bool)
    | PaneReset(session: string, sent: bool)
    | PanePrepared(session: string, done: bool)
    | Interrupted(ip: string, session: string)
    | EndpointSeen(ip: string, down: bool)
    | PortKilled(ip: string)
    | GpuListed(ip: string, pids: Option<nat>)
    | GpuKilled(ip: string)
    | GpuRechecked(ip: string, empty: Option<bool>)
    | Started(ip: string, session: string, command: seq<string>, path: PathInfo)
    | StartRefused(session: string)
    | WrongModel(ip: string, ids: set<string>, count: nat)
    | Served(ip: string, modelId: string, ids: set<string>)
    | GaveUp(wait: Wait, waited: nat)

  /** What a run waits for: the pane to connect, the old server to stop, the new one to list its model. */
  datatype Wait = ForPane | ForStop | ForServer

  function WorkerOfEvent(e: Event): Option<string> {
    match e
    case Asked(ip, _) => Some(ip)
    case Interrupted(ip, _) => Some(ip)
    case EndpointSeen(ip, _) => Some(ip)
    case PortKilled(ip) => Some(ip)
    case GpuListed(ip, _) => Some(ip)
    case GpuKilled(ip) => Some(ip)
    case GpuRechecked(ip, _) => Some(ip)
    case Started(ip, _, _, _) => Some(ip)
    case WrongModel(ip, _, _) => Some(ip)
    case Served(ip, _, _) => Some(ip)
    case _ => None
  }

  function SessionOfEvent(e: Event): Option<string> {
    match e
    case PaneSeen(session, _) => Some(session)
    case Sighted(session, _, _) => Some(session)
    case PaneReset(session, _) => Some(session)
    case PanePrepared(session, _) => Some(session)
    case StartRefused(session) => Some(session)
    case Interrupted(_, session) => Some(session)
    case Started(_, session, _, _) => Some(session)
    case _ => None
  }

  /** The answers a run stops at. */
  ghost predicate IsFailure(e: Event) {
    match e
    case Converted(done) => !done
    case Sighted(_, session, window) => !session || !window
    case Probed(probe) => !probe.Ok? && !probe.Resolved?
    case MarkRefused(_, _) => true
    case PaneReset(_, sent) => !sent
    case PanePrepared(_, done) => !done
    case GpuListed(_, pids) => pids.None?
    case GpuRechecked(_, empty) => empty != Some(true)
    case StartRefused(_) => true
    case WrongModel(_, _, count) => count >= 3
    case GaveUp(_, _) => true
    case _ => false
  }

  ghost predicate Unbroken(trace: seq<Event>) { forall e :: e in trace ==> !IsFailure(e) }

  /** The run stopped at its first failure. */
  ghost predicate BrokeAtLast(trace: seq<Event>) {
    trace != [] && IsFailure(trace[|trace| - 1]) && Unbroken(trace[..|trace| - 1])
  }

  /** The table writes the marks of a run stand for. */
  function MarkWrites(trace: seq<Event>): seq<Write> {
    if trace == [] then []
    else
      var last := trace[|trace| - 1];
      MarkWrites(trace[..|trace| - 1]) +
        if last.Marked? then [Write(last.before, last.row.rowIndex, last.values)] else []
  }

  lemma MarkWritesAfter(trace: seq<Event>, e: Event)
    ensures MarkWrites(trace + [e]) ==
      MarkWrites(trace) + if e.Marked? then [Write(e.before, e.row.rowIndex, e.values)] else []
  {
    assert (trace + [e])[..|trace|] == trace;
  }

  /** The event is on this worker, through this session. */
  ghost predicate StaysOn(e: Event, ip: string, session: string) {
    WorkerOfEvent(e) in {None, Some(ip)} && SessionOfEvent(e) in {None, Some(session)}
  }

  /** No other worker is touched or asked, and no pane of another session. */
  ghost predicate OnlyWorker(trace: seq<Event>, ip: string, session: string) {
    forall e :: e in trace ==> StaysOn(e, ip, session)
  }

  /** The worker was seen to list the model. */
  ghost predicate Confirms(e: Event, modelId: string) { (e.Asked? || e.Served?) && modelId in e.ids }

  /** What a step that neither marks nor asks for the model adds to the log. */
  ghost predicate Adds(was: seq<Event>, now: seq<Event>, ip: string, session: string) {
    was <= now && forall i :: |was| <= i < |now| ==> IsQuiet(now[i], ip, session)
  }

  ghost predicate IsQuiet(e: Event, ip: string, session: string) {
    StaysOn(e, ip, session) && !e.Marked? && !e.Asked? && !e.Served? && !IsFailure(e)
  }

  /** What a step that fails adds: quiet events and then the failure. */
  ghost predicate Breaks(was: seq<Event>, now: seq<Event>, ip: string, session: string) {
    && |was| < |now| && Adds(was, now[..|now| - 1], ip, session)
    && StaysOn(now[|now| - 1], ip, session) && IsFailure(now[|now| - 1])
  }

  /** A step goes well quietly or breaks off; a plan the planner did not build may also be refused for blank parts. */
  ghost predicate Goes(sound: bool, ok: bool, was: seq<Event>, now: seq<Event>, ip: string, session: string) {
    if ok then Adds(was, now, ip, session)
    else Breaks(was, now, ip, session) || (!sound && Adds(was, now, ip, session))
  }

  lemma BreaksWith(was: seq<Event>, now: seq<Event>, e: Event, ip: string, session: string)
    requires Adds(was, now, ip, session) && StaysOn(e, ip, session) && IsFailure(e)
    ensures Breaks(was, now + [e], ip, session)
  {
    hide StaysOn, IsFailure, Adds;
    assert (now + [e])[..|now|] == now;
    AddsMeans(was, now, ip, session);
  }

  lemma AddsMeans(was: seq<Event>, now: seq<Event>, ip: string, session: string)
    requires Adds(was, now, ip, session)
    ensures was <= now
  {
  }

  lemma GoesOn(sound: bool, ok: bool, was: seq<Event>, now: seq<Event>, more: seq<Event>, ip: string, session: string)
    requires Adds(was, now, ip, session) && Goes(sound, ok, now, more, ip, session)
    ensures Goes(sound, ok, was, more, ip, session)
  {
    hide StaysOn, IsFailure, Adds;
    AddsMeans(was, now, ip, session);
    if Adds(now, more, ip, session) {
      AddsMore(was, now, more, ip, session);
    }
    if Breaks(now, more, ip, session) {
      AddsMore(was, now, more[..|more| - 1], ip, session);
    }
  }

  lemma AddsMore(was: seq<Event>, now: seq<Event>, more: seq<Event>, ip: string, session: string)
    requires Adds(was, now, ip, session) && Adds(now, more, ip, session)
    ensures Adds(was, more, ip, session)
  {
    hide IsQuiet;
  }

  /** Quiet steps write nothing, stay on the worker and confirm nothing. */
  lemma {:induction false} AddsNothing(was: seq<Event>, now: seq<Event>, ip: string, session: string)
    requires Adds(was, now, ip, session)
    ensures MarkWrites(now) == MarkWrites(was)
    ensures OnlyWorker(was, ip, session) ==> OnlyWorker(now, ip, session)
    ensures forall e :: e in now && (e.Asked? || e.Served? || e.Marked? || IsFailure(e)) ==> e in was
    decreases |now|
  {
    hide StaysOn, IsFailure;
    if |was| < |now| {
      var init, last := now[..|now| - 1], now[|now| - 1];
      assert now == init + [last] && IsQuiet(last, ip, session);
      AddsNothing(was, init, ip, session);
      MarkWritesAfter(init, last);
    } else {
      assert was == now;
    }
  }

  ghost predicate SeenDown(e: Event, ip: string) { e == EndpointSeen(ip, true) }

  /** No process on the cards: none was listed, or none was left after the kill. */
  ghost predicate SeenFree(e: Event, ip: string) { e == GpuListed(ip, Some(0)) || e == GpuRechecked(ip, Some(true)) }

  ghost predicate AllClear(past: seq<Event>, ip: string) {
    exists i, j :: 0 <= i < j < |past| &&
      SeenDown(past[i], ip) && SeenFree(past[j], ip) && WasInterrupted(past[..i], ip)
  }

  ghost predicate WasInterrupted(past: seq<Event>, ip: string) { exists session :: Interrupted(ip, session) in past }

  /** The last thing seen is the pane of the session connected to the worker. */
  ghost predicate JustConnected(past: seq<Event>, session: string) {
    past != [] && past[|past| - 1] in {PaneSeen(session, true), PanePrepared(session, true)}
  }

  ghost predicate Preflighted(past: seq<Event>) { exists e :: e in past && e.PreflightPassed? }

  /** The table takes these values for the plan: a row is found for it, and unless there is nothing to write the table
      can be written and every named cell of the row holds a text. */
  ghost predicate Accepts(c: Config, g: Grid, plan: Plan, given: map<string, string>) {
    && Refreshed(c, g, plan).Some?
    && var index := Refreshed(c, g, plan).value.row.rowIndex;
       || given == map[] || index == 0
       || (Writable(g) && index < g.rows && forall name :: name in given ==> !Blocked(g, index, name))
  }

  ghost predicate MarkIsSafe(c: Config, e: Event) {
    && e.Marked? && Writable(e.before)
    && e.row in ParseTable(c, e.before) && 0 < e.row.rowIndex < e.before.rows
    && SafeForPlan(c, e.row, e.path)
    && SaysDeploying(c, e.values, e.path)
  }

  /** The worker was marked in a row that was safe then; the row is the worker's own exactly if the table still
      listed the worker. */
  ghost predicate MarkedFor(c: Config, past: seq<Event>, ip: string) {
    exists e :: e in past && IsMarkFor(c, e, ip)
  }

  ghost predicate IsMarkFor(c: Config, e: Event, ip: string) {
    MarkIsSafe(c, e) && (e.row.ip == ip <==> Listed(c, e.before, ip))
  }

  /** What a run is to do: deploy this model from this path, after a conversion or not. `found` are the directories
      the worker may give as the model's own when it is asked for the path; `shell` says whether it can be asked before
      the stop, and `patience` how long the new server is waited for. */
  datatype Job = Job(modelId: string, workerPath: string, conversion: bool, found: set<string>, shell: bool,
    patience: nat)

  /** The model's path at this point of the run: the plan's, until a probe has given another. */
  function PathNow(job: Job, past: seq<Event>): string {
    if past == [] then job.workerPath
    else if past[|past| - 1].PathChecked? then past[|past| - 1].probed
    else PathNow(job, past[..|past| - 1])
  }

  /** The path is that of the job's model as it stands. */
  ghost predicate IsJobPath(c: Config, job: Job, past: seq<Event>, path: PathInfo) {
    && path.modelId == job.modelId
    && path.workerPath == PathNow(job, past)
    && path.tablePath == TablePath(c.prefixes, path.workerPath)
  }

  /** What must have happened before an event. */
  ghost predicate Allowed(c: Config, job: Job, past: seq<Event>, e: Event) {
    match e
    case Asked(_, _) => true
    case Converted(_) => true
    case Sighted(_, _, _) => true
    case Probed(probe) => probe.NoDirectShell? ==> Preflighted(past)
    case PathChecked(probed) => probed == PathNow(job, past) || probed in job.found
    case PreflightPassed(direct) =>
      && (exists session :: Sighted(session, true, true) in past) && (job.conversion ==> Converted(true) in past)
      && direct == job.shell && (direct ==> past != [] && past[|past| - 1].PathChecked?)
    case Marked(_, _, path, _) => MarkIsSafe(c, e) && Preflighted(past) && IsJobPath(c, job, past, path)
    case PaneSeen(_, _) => true
    case MarkRefused(before, plan) => !Accepts(c, before, plan, plan.deployingValues)
    case PaneReset(_, _) => exists ip :: MarkedFor(c, past, ip)
    case PanePrepared(session, _) => past != [] && past[|past| - 1] == PaneSeen(session, true)
    case Interrupted(ip, session) => MarkedFor(c, past, ip) && JustConnected(past, session)
    case EndpointSeen(ip, _) => WasInterrupted(past, ip)
    case PortKilled(ip) => WasInterrupted(past, ip)
    case GpuListed(ip, _) => EndpointSeen(ip, true) in past
    case GpuKilled(ip) => EndpointSeen(ip, true) in past
    case GpuRechecked(ip, _) => GpuKilled(ip) in past
    case Started(ip, session, command, path) =>
      AllClear(past, ip) && JustConnected(past, session) && PathChecked(path.workerPath) in past &&
        Launches(command, path) && IsJobPath(c, job, past, path)
    case StartRefused(session) => JustConnected(past, session)
    case WrongModel(ip, ids, count) =>
      ids != {} && job.modelId !in ids && (count <= 1 || SeenWrong(past, ip, count - 1))
    case GaveUp(wait, waited) =>
      match wait {
        case ForPane => waited >= 30
        case ForStop => waited >= 75 && exists ip :: PortKilled(ip) in past
        case ForServer => waited >= job.patience
      }
    case Served(ip, modelId, ids) => modelId in ids && modelId == job.modelId && StartedFor(past, ip, modelId)
  }

  ghost predicate StartedFor(past: seq<Event>, ip: string, modelId: string) {
    exists e :: e in past && e.Started? && e.ip == ip && e.path.modelId == modelId
  }

  ghost predicate Launches(command: seq<string>, path: PathInfo) {
    LaunchPrefix(path) <= command && TokenAfter(command, MODEL_FLAG) == Some(path.workerPath)
  }

  /** Every event of a run comes after what it needs. */
  ghost predicate Disciplined(c: Config, job: Job, trace: seq<Event>) {
    forall i :: 0 <= i < |trace| ==> Allowed(c, job, trace[..i], trace[i])
  }

  lemma OneMore(c: Config, job: Job, trace: seq<Event>, e: Event)
    requires Disciplined(c, job, trace) && Allowed(c, job, trace, e)
    ensures Disciplined(c, job, trace + [e])
  {
    hide Allowed;
    var more := trace + [e];
    forall i | 0 <= i < |more| ensures Allowed(c, job, more[..i], more[i]) {
      assert more[..i] == if i < |trace| then trace[..i] else trace;
    }
  }

  lemma FactsStay(c: Config, past: seq<Event>, more: seq<Event>, ip: string)
    requires past <= more
    ensures MarkedFor(c, past, ip) ==> MarkedFor(c, more, ip)
    ensures AllClear(past, ip) ==> AllClear(more, ip)
  {
    hide IsMarkFor, SeenDown, SeenFree;
    if MarkedFor(c, past, ip) {
      var e :| e in past && IsMarkFor(c, e, ip);
      assert e in more;
    }
    if AllClear(past, ip) {
      var i, j :| 0 <= i < j < |past| && SeenDown(past[i], ip) && SeenFree(past[j], ip) &&
        WasInterrupted(past[..i], ip);
      assert more[i] == past[i] && more[j] == past[j] && more[..i] == past[..i];
    }
  }

  // ---------------------------------------------------------------- the executor

  predicate NeedsConversion(extra: map<string, string>) {
    "weight_conversion" in extra && extra["weight_conversion"] != "not required"
  }

  /** A plan as the planner builds it and rewrites keep it. */
  ghost predicate Sound(c: Config, plan: Plan) { Coherent(c, plan) && WellSpelled(c, plan) }

  /** A plan whose final values are those of its own row. */
  ghost predicate AsBuilt(c: Config, plan: Plan) {
    Sound(c, plan) && IsDone(c, plan.path, plan.row, plan.finalValues)
  }

  /** A plan the planner builds for a proper path is one, unless its model id is blank, padded or the flag. */
  lemma PlannerBuildsSound(c: Config, path: PathInfo, row: Row)
    requires path.tablePath == TablePath(c.prefixes, path.workerPath) && ProperPath(c, path.workerPath)
    ensures AsBuilt(c, BuildPlan(c, path, row)) <==> IsText(path.modelId) && path.modelId != MODEL_FLAG
  {
    hide BuildPlan, Coherent, ProperPath, IsDone, TablePath, Strip;
    BuiltFrom(c, path, row);
    RowOfBuilt(c, path, row);
    BuiltIsDone(c, path, row);
    NotTheFlag(c, path.workerPath);
    BuiltIsCoherent(c, path, row);
  }

  lemma NotTheFlag(c: Config, resolved: string)
    requires ProperPath(c, resolved)
    ensures resolved != MODEL_FLAG
  {
  }

  /** What looking for the model directory on the worker gives. */
  datatype Probe = Ok | Resolved(path: string) | Missing | Ambiguous | Invalid | CommandFailed | NoDirectShell

  /** Everything a run learns from outside: how people left the table before each of its steps, and the answers
      of the two directory probes; and how long it is to wait for a server. */
  datatype World = World(edits: seq<Grid>, first: Probe, second: Probe, patience: nat)

  ghost predicate ProperWorld(c: Config, w: World) {
    && (forall g :: g in w.edits ==> IsTable(g))
    && (w.first.Resolved? ==> ProperPath(c, w.first.path))
    && (w.second.Resolved? ==> ProperPath(c, w.second.path))
  }

  function Found(w: World): set<string> {
    (if w.first.Resolved? then {w.first.path} else {}) + (if w.second.Resolved? then {w.second.path} else {})
  }

  function JobOf(plan: Plan, w: World): Job {
    Job(plan.path.modelId, plan.path.workerPath, NeedsConversion(plan.extra), Found(w), !w.first.NoDirectShell?,
      w.patience)
  }

  lemma PathAfter(job: Job, past: seq<Event>, e: Event)
    ensures PathNow(job, past + [e]) == if e.PathChecked? then e.probed else PathNow(job, past)
  {
    assert (past + [e])[..|past|] == past;
  }

  /** The entries of a dictionary. */
  ghost predicate Lists(values: Values, m: map<string, string>) {
    && (forall i, j :: 0 <= i < j < |values| ==> values[i].0 != values[j].0)
    && (forall i :: 0 <= i < |values| ==> values[i].0 in m && m[values[i].0] == values[i].1)
    && (forall k :: k in m ==> HasKey(values, k))
  }

  ghost predicate HasKey(values: Values, key: string) { exists i :: 0 <= i < |values| && values[i].0 == key }

  method Items(m: map<string, string>) returns (values: Values)
    ensures Lists(values, m)
  {
    values := [];
    var keys := m.Keys;
    while keys != {}
      invariant keys <= m.Keys
      invariant forall i :: 0 <= i < |values| ==> values[i].0 in m.Keys - keys && m[values[i].0] == values[i].1
      invariant forall k :: k in m.Keys - keys ==> HasKey(values, k)
      invariant forall i, j :: 0 <= i < j < |values| ==> values[i].0 != values[j].0
      decreases |keys|
    {
      var k :| k in keys;
      MoreKeys(values, (k, m[k]));
      values := values + [(k, m[k])];
      keys := keys - {k};
    }
  }

  lemma MoreKeys(values: Values, v: (string, string))
    ensures forall k :: HasKey(values, k) || k == v.0 ==> HasKey(values + [v], k)
  {
    forall k | HasKey(values, k) || k == v.0 ensures HasKey(values + [v], k) {
      if k == v.0 {
        assert (values + [v])[|values|].0 == k;
      } else {
        var i :| 0 <= i < |values| && values[i].0 == k;
        assert (values + [v])[i].0 == k;
      }
    }
  }

  /** The value given for a title no other key can be taken for. */
  lemma {:induction false} GivenEntry(values: Values, key: string)
    requires forall i :: 0 <= i < |values| ==> NormalizeHeader(values[i].0) == values[i].0
    requires forall i, j :: 0 <= i < j < |values| ==> values[i].0 != values[j].0
    ensures forall i :: 0 <= i < |values| && values[i].0 == key ==> Given(values, key) == Some(values[i].1)
  {
    if values != [] {
      GivenEntry(values[..|values| - 1], key);
    }
  }

  /** The titles hold no white space. */
  lemma PlainColumns()
    ensures forall name :: IsColumn(name) ==> NormalizeHeader(name) == name
  {
    hide NormalizeHeader;
    forall name | IsColumn(name) ensures NormalizeHeader(name) == name {
      PlainText(name);
    }
  }

  ghost predicate IsColumn(name: string) {
    name in {COL_MODEL, COL_MODEL_ID, COL_ADDRESS, COL_TOOL_PARSER, COL_REASONING_PARSER, COL_TESTED, COL_REUSE}
  }

  lemma {:induction false} PlainText(s: string)
    ensures (forall ch :: ch in s ==> !IsSpace(ch)) ==> NormalizeHeader(s) == s
  {
    if s != "" {
      PlainText(s[1..]);
    }
  }

  lemma GivenListed(values: Values, m: map<string, string>)
    requires Lists(values, m) && forall name :: name in m ==> IsColumn(name)
    ensures forall name :: name in m ==> Given(values, name) == Some(m[name])
    ensures m != map[] ==> values != []
  {
    hide NormalizeHeader, Given, IsColumn;
    PlainColumns();
    forall name | name in m ensures Given(values, name) == Some(m[name]) {
      assert HasKey(values, name);
      GivenEntry(values, name);
    }
    if m != map[] {
      var name :| name in m;
      assert HasKey(values, name);
    }
  }

  lemma ListedMark(c: Config, plan: Plan, values: Values)
    requires ValuesMatch(c, plan) && Lists(values, plan.deployingValues)
    ensures SaysDeploying(c, values, plan.path) && values != []
  {
    hide Given, Lists;
    assert COL_MODEL in plan.deployingValues && COL_MODEL_ID in plan.deployingValues &&
      COL_TESTED in plan.deployingValues;
    GivenListed(values, plan.deployingValues);
  }

  /** What the last write puts into the row: the model with no marker, the address, parsers and reuse flag of the row
      the plan was built on, and no tested tasks. */
  ghost predicate Fills(c: Config, values: Values, tablePath: string, modelId: string, home: Row) {
    && Given(values, COL_MODEL) == Some(tablePath) && Given(values, COL_MODEL_ID) == Some(modelId)
    && Given(values, COL_ADDRESS) == Some(home.address) && Given(values, COL_TESTED) == Some("")
    && Given(values, COL_TOOL_PARSER).Some? && Given(values, COL_REASONING_PARSER).Some?
    && ParsersOf(c, home, Given(values, COL_TOOL_PARSER).value, Given(values, COL_REASONING_PARSER).value)
    && Given(values, COL_REUSE) == Some(if Strip(home.reuse) != "" then Strip(home.reuse) else "yes")
  }

  lemma ListedFills(c: Config, path: PathInfo, home: Row, m: map<string, string>, values: Values)
    requires IsDone(c, path, home, m) && Lists(values, m)
    ensures Fills(c, values, path.tablePath, path.modelId, home) && values != []
  {
    hide Given, Lists, ParsersOf, Strip;
    DoneHas(c, path, home, m);
    GivenListed(values, m);
  }

  lemma DoneHas(c: Config, path: PathInfo, home: Row, m: map<string, string>)
    requires IsDone(c, path, home, m)
    ensures forall name :: name in m <==> IsColumn(name)
  {
    hide ParsersOf, Strip;
  }

  lemma RefreshKeepsSound(c: Config, g: Grid, plan: Plan)
    requires Sound(c, plan) && Refreshed(c, g, plan).Some?
    ensures Sound(c, Refreshed(c, g, plan).value)
  {
    hide Sound, ParseTable, SafeForPlan, SwapRow, SetRow, Strip, ChooseRow, FirstByIp, FirstByIndex;
    var now := Refreshed(c, g, plan).value;
    var rows := ParseTable(c, g);
    var chosen := ChooseRow(c, rows, plan.row.gpuCount, {});
    SetRowKeepsSound(c, plan);
    if now != plan && FirstByIp(rows, Strip(plan.row.ip)).None? && chosen.Some? {
      SwapRowKeepsSound(c, plan, chosen.value);
    }
  }

  lemma SetRowKeepsSound(c: Config, plan: Plan)
    requires Sound(c, plan)
    ensures forall row :: Sound(c, SetRow(plan, row))
  {
    hide Coherent, WellSpelled, SetRow, Rewritten;
    forall row ensures Sound(c, SetRow(plan, row)) {
      RewriteKeepsCoherence(c, plan, ToRow(row));
      RewriteMeans(c, plan, ToRow(row));
    }
  }

  lemma SwapRowKeepsSound(c: Config, plan: Plan, row: Row)
    requires Sound(c, plan)
    ensures Sound(c, SwapRow(c, plan, row))
  {
    hide Coherent, WellSpelled, SwapRow, Rewritten;
    RewriteKeepsCoherence(c, plan, ToOtherRow(row));
    RewriteMeans(c, plan, ToOtherRow(row));
  }

  lemma RewriteMeans(c: Config, plan: Plan, r: Rewrite)
    ensures r.ToRow? ==> Rewritten(c, plan, r) == SetRow(plan, r.row)
    ensures r.ToOtherRow? ==> Rewritten(c, plan, r) == SwapRow(c, plan, r.row)
    ensures r.ToPath? ==> Rewritten(c, plan, r) == MovePath(c, plan, r.resolved)
  {
  }

  ghost predicate SameModel(a: PathInfo, b: PathInfo) {
    a.tablePath == b.tablePath && a.modelId == b.modelId && a.workerPath == b.workerPath
  }

  /** Taking another row for a plan does not change which model it deploys. */
  lemma RefreshKeepsModel(c: Config, g: Grid, plan: Plan)
    requires Sound(c, plan) && Refreshed(c, g, plan).Some?
    ensures var now := Refreshed(c, g, plan).value;
      SameModel(now.path, plan.path) && now.extra == plan.extra
  {
    hide TablePath, Strip, ParseTable, SafeForPlan, BuildPlan, ChooseRow, FirstByIp, FirstByIndex, TokenAfter,
      LaunchPrefix, ValuesMatch;
    var rows := ParseTable(c, g);
    var chosen := ChooseRow(c, rows, plan.row.gpuCount, {});
    if chosen.Some? {
      BuiltFrom(c, RebuildPath(plan.path), chosen.value);
    }
  }

  /** The row whose cells a plan fills in: another one after the plan was rebuilt on another row. */
  ghost function HomeAfter(c: Config, g: Grid, plan: Plan, home: Row): Row {
    var ip := Strip(plan.row.ip);
    if ip == "" || Listed(c, g, ip) || Refreshed(c, g, plan).None? then home else Refreshed(c, g, plan).value.row
  }

  lemma RefreshKeepsDone(c: Config, g: Grid, plan: Plan, home: Row)
    requires IsDone(c, plan.path, home, plan.finalValues) && Sound(c, plan) && Refreshed(c, g, plan).Some?
    ensures var now := Refreshed(c, g, plan).value;
      IsDone(c, now.path, HomeAfter(c, g, plan, home), now.finalValues)
  {
    hide IsDone, Sound, ParseTable, SafeForPlan, BuildPlan, Strip, ChooseRow, RebuildPath;
    var ip, rows := Strip(plan.row.ip), ParseTable(c, g);
    FirstByIpFinds(rows, ip);
    FirstByIndexFinds(rows, plan.row.rowIndex);
    if ip != "" && !Listed(c, g, ip) {
      var row := ChooseRow(c, rows, plan.row.gpuCount, {}).value;
      RowOfBuilt(c, RebuildPath(plan.path), row);
      BuiltFrom(c, RebuildPath(plan.path), row);
      BuiltIsDone(c, RebuildPath(plan.path), row);
    }
  }

  lemma MoveKeepsDone(c: Config, plan: Plan, resolved: string, home: Row)
    requires IsDone(c, plan.path, home, plan.finalValues) && Sound(c, plan)
    ensures var moved := MovePath(c, plan, resolved);
      IsDone(c, moved.path, home, moved.finalValues)
  {
    hide TablePath, ReplaceAfter, Coherent, Strip, ParsersOf;
    SoundModelId(c, plan);
    SevenColumns();
  }

  /** The statuses a run writes to its review. */
  datatype Decided = NeedsHuman | Deploying | DeployFailed | DeployedAs(documentFailed: bool)

  /** The statuses of one run. The last one may be written again, with what became of the notifications. */
  ghost predicate IsRun(s: seq<Decided>) {
    || s == [Deploying, DeployFailed]
    || exists failed :: s == [Deploying, DeployedAs(failed)] || s == [Deploying, DeployedAs(failed), DeployedAs(failed)]
  }

  datatype Result = AlreadyServing(ip: string) | Deployed(ip: string) | Failed

  // ---------------------------------------------------------------- what a run promises

  ghost predicate Unconfirmed(trace: seq<Event>, modelId: string) {
    forall e :: e in trace ==> !Confirms(e, modelId)
  }

  ghost predicate EndsServed(trace: seq<Event>, ip: string, modelId: string) {
    trace != [] && var last := trace[|trace| - 1];
      last.Served? && last.ip == ip && last.modelId == modelId && modelId in last.ids
  }

  /** The run stayed on the worker and in the session of the refreshed plan; it succeeded exactly when that worker was
      seen to list the model, and only the last event may show that. It stopped at its first failure and, unless the
      plan is blank, at nothing else. */
  ghost predicate RanOn(sound: bool, now: Plan, r: Result, trace: seq<Event>) {
    var ip, modelId := Strip(now.row.ip), Strip(now.path.modelId);
    && (!r.Failed? ==> Unbroken(trace))
    && (r.Failed? && sound && ip != "" && modelId != "" && Strip(now.session) != "" ==> BrokeAtLast(trace))
    && OnlyWorker(trace, ip, Strip(now.session))
    && (r.Failed? ==> Unconfirmed(trace, modelId))
    && (!r.Failed? ==> r.ip == ip)
    && (r.Deployed? ==> EndsServed(trace, ip, modelId))
    && (r.AlreadyServing? ==> |trace| == 1 && trace[0].Asked? && trace[0].ip == ip && modelId in trace[0].ids)
  }

  /** A worker whose row already names the model is asked first, and nothing more is done when it lists the model. */
  ghost predicate AsksFirst(c: Config, now: Plan, r: Result, trace: seq<Event>) {
    var ip, modelId := Strip(now.row.ip), Strip(now.path.modelId);
    if ip != "" && modelId != "" && Strip(now.session) != "" && AlreadyServes(c, now.row, now.path) then
      && trace != [] && trace[0].Asked? && trace[0].ip == ip
      && (r.AlreadyServing? <==> modelId in trace[0].ids)
    else !r.AlreadyServing?
  }

  ghost predicate IsRebuild(c: Config, e: Event, ip: string, first: Row, home: Row) {
    e.Marked? && home == if Listed(c, e.before, ip) then first else e.row
  }

  ghost predicate Rebuilt(c: Config, trace: seq<Event>, ip: string, first: Row, home: Row) {
    exists e :: e in trace && IsRebuild(c, e, ip, first, home)
  }

  ghost predicate Unmarked(trace: seq<Event>) { forall e :: e in trace ==> !e.Marked? }

  /** The row the plan was built on in the end: its first one as long as every table read still listed the worker,
      otherwise the row that was taken instead. */
  ghost predicate SourceIs(c: Config, g: Grid, plan: Plan, home: Row, trace: seq<Event>, source: Row) {
    && Refreshed(c, g, plan).Some?
    && (Unmarked(trace) ==> source == HomeAfter(c, g, plan, home))
    && (!Unmarked(trace) ==>
          Rebuilt(c, trace, Strip(Refreshed(c, g, plan).value.row.ip), HomeAfter(c, g, plan, home), source))
  }

  /** After the writes before, one more write went to the plan's row of the table as it was then, which is a safe row
      for the plan; it fills in the model at the path it was started from. */
  ghost predicate FinishedWith(c: Config, job: Job, before: seq<Write>, writes: seq<Write>, grid: Grid, plan: Plan,
                               trace: seq<Event>, source: Row) {
    writes != [] && var w := writes[|writes| - 1];
      && writes == before + [w] && w.row == plan.row.rowIndex
      && Writable(w.before) && grid == AfterWrite(w.before, w.row, w.values)
      && (Strip(plan.row.ip) != "" ==> plan.row in ParseTable(c, w.before) && SafeForPlan(c, plan.row, plan.path))
      && Fills(c, w.values, TablePath(c.prefixes, PathNow(job, trace)), job.modelId, source)
  }

  /** A restart is quiet until it breaks off or the worker lists the model. */
  ghost predicate Restarted(sound: bool, was: seq<Event>, now: seq<Event>, r: Result, ip: string, session: string,
                            modelId: string) {
    && !r.AlreadyServing?
    && (r.Failed? ==> Goes(sound, false, was, now, ip, session))
    && (r.Deployed? ==> r.ip == ip && EndsServed(now, ip, modelId) && Adds(was, now[..|now| - 1], ip, session))
  }

  class ReusableDeploymentExecutor {
    const c: Config
    const doc: DeployedDoc
    const world: World
    const job: Job
    ghost const sound: bool
    var plan: Plan
    /** The row the plan was built on. */
    ghost var home: Row
    var trace: seq<Event>
    var statuses: seq<Decided>

    constructor (c: Config, doc: DeployedDoc, world: World, plan: Plan)
      requires IsTable(doc.grid) && ProperWorld(c, world)
      ensures Valid() && this.c == c && this.doc == doc && this.world == world && this.plan == plan && trace == []
      ensures job == JobOf(plan, world) && sound == AsBuilt(c, plan) && home == plan.row
      ensures job.modelId == plan.path.modelId && job.workerPath == plan.path.workerPath
      ensures job.conversion <==>
        "weight_conversion" in plan.extra && plan.extra["weight_conversion"] != "not required"
      ensures forall path :: path in job.found <==> Resolved(path) in [world.first, world.second]
      ensures (job.shell <==> world.first != NoDirectShell) && job.patience == world.patience
    {
      this.c, this.doc, this.world, this.plan, this.home := c, doc, world, plan, plan.row;
      job, sound, trace, statuses := JobOf(plan, world), AsBuilt(c, plan), [], [];
    }

    ghost predicate Valid()
      reads this`plan, this`home, this`trace, doc
    {
      Core() && (sound ==> plan.path.workerPath == PathNow(job, trace))
    }

    /** All of the invariant but the path, which a probe changes before it is logged. */
    ghost predicate Core()
      reads this`plan, this`home, this`trace, doc
    {
      && IsTable(doc.grid) && ProperWorld(c, world) && job.found == Found(world)
      && job.shell == !world.first.NoDirectShell? && job.patience == world.patience
      && (sound ==> Sound(c, plan) && plan.path.modelId == job.modelId && Disciplined(c, job, trace))
      && (sound ==> IsDone(c, plan.path, home, plan.finalValues))
    }

    method Emit(e: Event)
      requires Valid() && (sound ==> Allowed(c, job, trace, e)) && !e.PathChecked?
      modifies this`trace
      ensures Valid() && trace == old(trace) + [e]
      ensures forall was, ip, session :: Adds(was, old(trace), ip, session) && IsQuiet(e, ip, session) ==>
        Adds(was, trace, ip, session)
    {
      hide Sound, IsDone, Disciplined, Allowed, ProperWorld, PathNow, IsQuiet;
      PathAfter(job, trace, e);
      if sound {
        OneMore(c, job, trace, e);
      }
      trace := trace + [e];
    }

    /** The failure at which a step that began with the log `was` breaks off. */
    method Break(e: Event, ip: string, session: string, ghost was: seq<Event>)
      requires Valid() && (sound ==> Allowed(c, job, trace, e))
      requires Adds(was, trace, ip, session) && StaysOn(e, ip, session) && IsFailure(e)
      modifies this`trace
      ensures Valid() && trace == old(trace) + [e] && Breaks(was, trace, ip, session)
    {
      hide Sound, IsDone, Disciplined, Allowed, ProperWorld, PathNow, IsFailure, StaysOn, Adds, Breaks;
      FailureIsNoPath(e);
      PathAfter(job, trace, e);
      BreaksWith(was, trace, e, ip, session);
      if sound {
        OneMore(c, job, trace, e);
      }
      trace := trace + [e];
    }

    method EmitPath()
      requires Core() && (sound ==> Allowed(c, job, trace, PathChecked(plan.path.workerPath)))
      modifies this`trace
      ensures Valid() && trace == old(trace) + [PathChecked(plan.path.workerPath)]
    {
      hide Sound, IsDone, Disciplined, Allowed, ProperWorld, PathNow;
      var e := PathChecked(plan.path.workerPath);
      PathAfter(job, trace, e);
      if sound {
        OneMore(c, job, trace, e);
      }
      trace := trace + [e];
    }

    /** People edit the table between two steps. */
    method Outside(step: nat)
      requires Valid()
      modifies doc
      ensures Valid()
      ensures doc.writes == old(doc.writes)
      ensures doc.grid == if step < |world.edits| then world.edits[step] else old(doc.grid)
    {
      if step < |world.edits| {
        doc.grid := world.edits[step];
      }
    }

    method Refresh() returns (ok: bool)
      requires Valid()
      modifies this`plan, this`home
      ensures Valid()
      ensures ok <==> Refreshed(c, doc.grid, old(plan)).Some?
      ensures plan == if ok then Refreshed(c, doc.grid, old(plan)).value else old(plan)
      ensures home == HomeAfter(c, doc.grid, old(plan), old(home))
    {
      hide Refreshed, Sound, IsDone, Disciplined, PathNow, Strip, Listed;
      var now := Refreshed(c, doc.grid, plan);
      if now.None? {
        return false;
      }
      if sound {
        RefreshKeepsSound(c, doc.grid, plan);
        RefreshKeepsModel(c, doc.grid, plan);
        RefreshKeepsDone(c, doc.grid, plan, home);
      }
      plan, home := now.value, HomeAfter(c, doc.grid, plan, home);
      return true;
    }

    /** Reading the table, checking the row and writing it. The values are those the plan held before the
        refresh. */
    method WriteTableValues(given: map<string, string>) returns (ok: bool, values: Values)
      requires Valid()
      modifies this`plan, this`home, doc
      ensures Valid() && Lists(values, given)
      ensures ok <==> Accepts(c, old(doc.grid), old(plan), given)
      ensures Refreshed(c, old(doc.grid), old(plan)).Some? ==> plan == Refreshed(c, old(doc.grid), old(plan)).value
      ensures home == HomeAfter(c, old(doc.grid), old(plan), old(home))
      ensures ok && values != [] && plan.row.rowIndex != 0 ==>
        Writable(old(doc.grid)) && doc.grid == AfterWrite(old(doc.grid), plan.row.rowIndex, values)
      ensures Refreshed(c, old(doc.grid), old(plan)).None? ==> !ok && plan == old(plan) && doc.grid == old(doc.grid)
      ensures var write := Write(old(doc.grid), plan.row.rowIndex, values);
        doc.writes == old(doc.writes) + if ok && values != [] && plan.row.rowIndex != 0 then [write] else []
    {
      hide Refreshed, Sound, IsDone, Disciplined, AfterWrite, Writable, Blocked, HomeAfter;
      values := Items(given);
      ListedNames(doc.grid, 0, values, given);
      ok := Refresh();
      if !ok || values == [] || plan.row.rowIndex == 0 {
        return;
      }
      ListedNames(doc.grid, plan.row.rowIndex, values, given);
      var outcome := doc.UpdateRow(plan.row.rowIndex, values);
      ok := outcome.Updated?;
    }

    /** The mark: the row is read as safe and written in one step. */
    method MarkRow(ip: string, session: string) returns (ok: bool, values: Values)
      requires Valid() && ip == Strip(plan.row.ip) && ip != "" && Preflighted(trace)
      modifies this`plan, this`home, this`trace, doc
      ensures Valid()
      ensures ok && sound ==> MarkedFor(c, trace, ip)
      ensures trace == old(trace) +
        [if ok then Marked(old(doc.grid), plan.row, plan.path, values) else MarkRefused(old(doc.grid), old(plan))]
      ensures !ok ==> Breaks(old(trace), trace, ip, session)
      ensures ok && sound ==> doc.grid == AfterWrite(old(doc.grid), plan.row.rowIndex, values)
      ensures ok ==> plan.row.rowIndex > 0
      ensures ok ==> home == if Listed(c, old(doc.grid), ip) then old(home) else plan.row
      ensures sound ==> SameModel(plan.path, old(plan).path)
      ensures sound ==>
        doc.writes == old(doc.writes) + if ok then [Write(old(doc.grid), plan.row.rowIndex, values)] else []
    {
      hide Refreshed, Sound, IsDone, Disciplined, AfterWrite, Writable, IsMarkFor, Listed, SafeForPlan, ParseTable,
        Strip, SaysDeploying, Preflighted, Adds, Breaks, Accepts;
      var before := doc.grid;
      var was := plan;
      ok, values := WriteTableValues(plan.deployingValues);
      if sound {
        SoundMark(c, was, values);
        if Refreshed(c, before, was).Some? {
          RefreshKeepsModel(c, before, was);
        }
      }
      if !ok {
        SelfAdds(trace, ip, session);
        Break(MarkRefused(before, was), ip, session, old(trace));
      } else {
        RefreshedRowIsSafe(c, before, was);
        var mark := Marked(before, plan.row, plan.path, values);
        if sound {
          SameModelSameMark(c, values, was.path, plan.path);
          MarkIsMark(c, mark, ip);
          SoundPath(c, job, trace, plan);
        }
        Emit(mark);
      }
    }

    method ReplaceWorkerPath(resolved: string) returns (ok: bool)
      requires Valid() && ProperPath(c, resolved)
      modifies this`plan
      ensures Core() && plan.row == old(plan.row) && plan.path.modelId == old(plan.path.modelId)
      ensures ok ==> plan == MovePath(c, old(plan), resolved)
      ensures sound ==> ok
    {
      hide TablePath, ReplaceAfter, TokenAfter, Strip, ProperPath, IsDone;
      ghost var was := plan;
      var table := TablePath(c.prefixes, resolved);
      var modelId := Strip(plan.path.modelId);
      if sound {
        MoveKeepsSound(c, was, resolved);
        MoveKeepsDone(c, was, resolved, home);
      }
      if Strip(plan.path.workerPath) == "" || modelId == "" || plan.command == [] {
        return false;
      }
      plan := plan.(path := plan.path.(workerPath := resolved, tablePath := table));
      var command, found := ReplaceModelArg(plan.command, resolved);
      plan := plan.(command := command);
      plan := plan.(finalValues := plan.finalValues[COL_MODEL := table][COL_MODEL_ID := modelId]);
      plan := plan.(deployingValues :=
        plan.deployingValues[COL_MODEL := table + c.deployingMarker][COL_MODEL_ID := modelId + c.deployingMarker]);
      return true;
    }

    method ApplyProbe(probe: Probe, ip: string, session: string) returns (ok: bool)
      requires Valid() && probe in {world.first, world.second} && (sound && probe.NoDirectShell? ==> Preflighted(trace))
      modifies this`plan, this`trace
      ensures Valid() && plan.row == old(plan.row) && plan.path.modelId == old(plan.path.modelId)
      ensures ok ==> probe.Ok? || probe.Resolved?
      ensures ok ==> plan == if probe.Resolved? then MovePath(c, old(plan), probe.path) else old(plan)
      ensures ok ==> trace == old(trace) + [Probed(probe), PathChecked(plan.path.workerPath)]
      ensures Goes(sound, ok, old(trace), trace, ip, session)
    {
      hide Sound, IsDone, Disciplined, ProperPath, PathNow, TablePath, ReplaceAfter, Preflighted, Adds, Breaks;
      SelfAdds(trace, ip, session);
      if !probe.Ok? && !probe.Resolved? {
        Break(Probed(probe), ip, session, old(trace));
        return false;
      }
      Emit(Probed(probe));
      ok := true;
      if probe.Resolved? {
        ok := ReplaceWorkerPath(probe.path);
      }
      if ok {
        ghost var past := trace;
        EmitPath();
        AddsPath(past, trace, plan.path.workerPath, ip, session);
        AddsMore(old(trace), past, trace, ip, session);
      }
    }

    /** Looks for the session, its worker window and the model directory. Where the worker allows no direct shell
        the directory is looked for after the stop. */
    method Preflight(ip: string, session: string) returns (ok: bool, direct: bool)
      requires Valid() && (job.conversion ==> Converted(true) in trace)
      modifies this`plan, this`trace
      ensures Valid() && plan.row == old(plan.row) && plan.path.modelId == old(plan.path.modelId)
      ensures Goes(sound, ok, old(trace), trace, ip, session)
      ensures ok ==> Preflighted(trace) && direct == !world.first.NoDirectShell?
      ensures ok ==> if direct then PathChecked(plan.path.workerPath) in trace else plan == old(plan)
    {
      hide Sound, IsDone, Disciplined, MovePath, ProperPath, Strip, Adds, Breaks, ProperWorld, Found;
      SelfAdds(trace, ip, session);
      if sound {
        SoundParts(c, plan);
      }
      if Strip(plan.path.workerPath) == "" {
        return false, false;
      }
      var sessionFound: bool, windowFound: bool := *, *;
      if !sessionFound || !windowFound {
        Break(Sighted(session, sessionFound, windowFound), ip, session, old(trace));
        return false, false;
      }
      Emit(Sighted(session, sessionFound, windowFound));
      ghost var past := trace;
      assert past[|past| - 1] == Sighted(session, true, true);
      direct := !world.first.NoDirectShell?;
      ok := true;
      if direct {
        ok := ApplyProbe(world.first, ip, session);
        GoesOn(sound, ok, old(trace), past, trace, ip, session);
        KeepsPast(sound, ok, past, trace, ip, session);
        assert ok ==> trace[|trace| - 1] == PathChecked(plan.path.workerPath);
      }
      if ok {
        Emit(PreflightPassed(direct));
        assert trace[|trace| - 1].PreflightPassed?;
      }
    }

    /** Interrupts the pane and connects it to the worker again, unless it is connected. */
    method EnsureConnected(session: string, ip: string) returns (ok: bool)
      requires Valid() && (sound ==> MarkedFor(c, trace, ip))
      modifies this`trace
      ensures Valid() && Goes(sound, ok, old(trace), trace, ip, session)
      ensures ok ==> JustConnected(trace, session)
    {
      hide Sound, IsDone, Disciplined, MarkedFor, ProperWorld, Adds, Breaks;
      SelfAdds(trace, ip, session);
      var connected: bool, sent: bool := *, *;
      Emit(PaneSeen(session, connected));
      if connected {
        return true;
      }
      FactsStay(c, old(trace), trace, ip);
      if !sent {
        Break(PaneReset(session, sent), ip, session, old(trace));
        return false;
      }
      Emit(PaneReset(session, sent));
      ok := AwaitConnection(session, ip, old(trace));
    }

    method AwaitConnection(session: string, ip: string, ghost was: seq<Event>) returns (ok: bool)
      requires Valid() && Adds(was, trace, ip, session)
      modifies this`trace
      ensures Valid() && Goes(sound, ok, was, trace, ip, session)
      ensures ok ==> JustConnected(trace, session)
    {
      hide Sound, IsDone, Disciplined, ProperWorld, Adds, Breaks;
      var time := 0;
      while time < 30
        invariant Valid() && Adds(was, trace, ip, session)
      {
        var answer: bool, waited: nat := *, *;
        time := time + 2 + waited;
        Emit(PaneSeen(session, answer));
        if answer {
          var prepared: bool := *;
          if !prepared {
            Break(PanePrepared(session, prepared), ip, session, was);
            return false;
          }
          Emit(PanePrepared(session, prepared));
          return true;
        }
      }
      Break(GaveUp(ForPane, time), ip, session, was);
      return false;
    }

    method WaitEndpointDown(ip: string, session: string, timeout: nat) returns (down: bool, time: nat)
      requires Valid() && WasInterrupted(trace, ip)
      modifies this`trace
      ensures Valid() && Adds(old(trace), trace, ip, session) && WasInterrupted(trace, ip)
      ensures down ==> |trace| > 0 && SeenDown(trace[|trace| - 1], ip) && WasInterrupted(trace[..|trace| - 1], ip)
      ensures !down ==> time >= timeout
    {
      hide Sound, IsDone, Disciplined, ProperWorld, Adds, Breaks, WasInterrupted;
      SelfAdds(trace, ip, session);
      time := 0;
      while time < timeout
        invariant Valid() && Adds(old(trace), trace, ip, session) && WasInterrupted(trace, ip)
      {
        var gone: bool, waited: nat := *, *;
        ghost var past := trace;
        StillInterrupted(past, ip, EndpointSeen(ip, gone));
        Emit(EndpointSeen(ip, gone));
        assert trace[..|trace| - 1] == past;
        if gone {
          return true, time;
        }
        time := time + 3 + waited;
      }
      return false, time;
    }

    method KillLeftoverGpuApps(ip: string, session: string) returns (ok: bool)
      requires Valid() && |trace| > 0 && SeenDown(trace[|trace| - 1], ip) && WasInterrupted(trace[..|trace| - 1], ip)
      modifies this`trace
      ensures Valid() && Goes(sound, ok, old(trace), trace, ip, session)
      ensures ok ==> AllClear(trace, ip)
    {
      hide Sound, IsDone, Disciplined, ProperWorld, Adds, Breaks, WasInterrupted;
      ghost var down, past := |trace| - 1, trace;
      SelfAdds(trace, ip, session);
      var listed: Option<nat>, empty: Option<bool> := *, *;
      if listed.None? {
        Break(GpuListed(ip, listed), ip, session, past);
        return false;
      }
      Emit(GpuListed(ip, listed));
      assert trace[..down] == past[..down];
      if listed.value == 0 {
        assert SeenDown(trace[down], ip) && SeenFree(trace[|trace| - 1], ip);
        return true;
      }
      Emit(GpuKilled(ip));
      if empty != Some(true) {
        Break(GpuRechecked(ip, empty), ip, session, past);
        return false;
      }
      Emit(GpuRechecked(ip, empty));
      assert trace[..down] == past[..down];
      assert SeenDown(trace[down], ip) && SeenFree(trace[|trace| - 1], ip);
      return true;
    }

    method StopExisting(ip: string, session: string) returns (ok: bool)
      requires Valid() && (sound ==> MarkedFor(c, trace, ip)) && JustConnected(trace, session)
      modifies this`trace
      ensures Valid() && Goes(sound, ok, old(trace), trace, ip, session)
      ensures ok ==> AllClear(trace, ip)
    {
      hide Sound, IsDone, Disciplined, ProperWorld, MarkedFor, AllClear, SeenDown, Adds, Breaks;
      SelfAdds(trace, ip, session);
      Emit(Interrupted(ip, session));
      assert trace[|trace| - 1] == Interrupted(ip, session);
      ok := AwaitStop(ip, session, old(trace));
      if ok {
        FactsOfGoing(c, sound, old(trace), trace, ip, session);
        ghost var past := trace;
        ok := KillLeftoverGpuApps(ip, session);
        GoesOn(sound, ok, old(trace), past, trace, ip, session);
      }
    }

    /** What does not go down by itself is killed. */
    method AwaitStop(ip: string, session: string, ghost was: seq<Event>) returns (down: bool)
      requires Valid() && WasInterrupted(trace, ip) && Adds(was, trace, ip, session)
      modifies this`trace
      ensures Valid() && Goes(sound, down, was, trace, ip, session)
      ensures down ==> |trace| > 0 && SeenDown(trace[|trace| - 1], ip) && WasInterrupted(trace[..|trace| - 1], ip)
    {
      hide Sound, IsDone, Disciplined, ProperWorld, SeenDown, WasInterrupted, Adds, Breaks;
      ghost var past := trace;
      var time, more;
      down, time := WaitEndpointDown(ip, session, 45);
      AddsMore(was, past, trace, ip, session);
      if !down {
        StillInterrupted(trace, ip, PortKilled(ip));
        Emit(PortKilled(ip));
        past := trace;
        assert past[|past| - 1] == PortKilled(ip);
        down, more := WaitEndpointDown(ip, session, 30);
        AddsMore(was, past, trace, ip, session);
        if !down {
          KeepsPast(sound, true, past, trace, ip, session);
          Break(GaveUp(ForStop, time + more), ip, session, was);
        }
      }
    }

    method VerifyWorkerPathAfterStop(ip: string, session: string) returns (ok: bool)
      requires Valid() && (sound ==> Preflighted(trace))
      modifies this`plan, this`trace
      ensures Valid() && plan.row == old(plan.row) && plan.path.modelId == old(plan.path.modelId)
      ensures ok ==> plan == if world.second.Resolved? then MovePath(c, old(plan), world.second.path) else old(plan)
      ensures ok ==> trace == old(trace) + [Probed(world.second), PathChecked(plan.path.workerPath)]
      ensures Goes(sound, ok, old(trace), trace, ip, session)
    {
      hide Sound, IsDone, Disciplined, ProperPath, MovePath, Strip, Preflighted, Adds, Breaks;
      SelfAdds(trace, ip, session);
      if sound {
        SoundParts(c, plan);
      }
      if Strip(plan.path.workerPath) == "" {
        return false;
      }
      ok := ApplyProbe(world.second, ip, session);
    }

    /** One deployment. On a worker that already serves the model nothing is touched. */
    method Execute() returns (r: Result)
      requires Valid() && trace == [] && job == JobOf(plan, world)
      modifies this`plan, this`home, this`trace, doc
      ensures Valid()
      ensures Refreshed(c, old(doc.grid), old(plan)).None? ==> r.Failed? && trace == []
      ensures Refreshed(c, old(doc.grid), old(plan)).Some? ==>
        RanOn(sound, Refreshed(c, old(doc.grid), old(plan)).value, r, trace)
      ensures Refreshed(c, old(doc.grid), old(plan)).Some? ==>
        AsksFirst(c, Refreshed(c, old(doc.grid), old(plan)).value, r, trace)
      ensures sound && Refreshed(c, old(doc.grid), old(plan)).Some? ==>
        Strip(Refreshed(c, old(doc.grid), old(plan)).value.path.modelId) == job.modelId
      ensures r.AlreadyServing? ==> doc.grid == old(doc.grid)
      ensures !r.Failed? ==>
        plan.row.rowIndex > 0 && SourceIs(c, old(doc.grid), old(plan), old(home), trace, home)
      ensures sound ==> doc.writes == old(doc.writes) + MarkWrites(trace)
    {
      hide Sound, IsDone, Disciplined, ProperWorld, PathNow, Refreshed, Strip, RanOn, AsksFirst, MarkWrites, HomeAfter,
        Unmarked, Rebuilt, ParseTable, SafeForPlan;
      NobodyYet();
      var ok := Refresh();
      if !ok {
        return Failed;
      }
      RefreshedHasRow(c, old(doc.grid), old(plan));
      if sound {
        SoundModelId(c, plan);
      }
      r := RunRefreshed();
    }

    method RunRefreshed() returns (r: Result)
      requires Valid() && trace == [] && (Strip(plan.row.ip) != "" ==> plan.row.rowIndex > 0)
      requires sound ==> Strip(plan.path.modelId) == plan.path.modelId
      modifies this`plan, this`home, this`trace, doc
      ensures Valid() && RanOn(sound, old(plan), r, trace) && AsksFirst(c, old(plan), r, trace)
      ensures r.AlreadyServing? ==> doc.grid == old(doc.grid)
      ensures !r.Failed? ==> plan.row.rowIndex > 0
      ensures !r.Failed? && Unmarked(trace) ==> home == old(home)
      ensures !r.Failed? && !Unmarked(trace) ==> Rebuilt(c, trace, Strip(old(plan).row.ip), old(home), home)
      ensures sound ==> doc.writes == old(doc.writes) + MarkWrites(trace)
    {
      hide Sound, IsDone, Disciplined, ProperWorld, PathNow, Strip, AlreadyServes, OnlyWorker, MarkWrites, Unconfirmed,
        IsRebuild;
      NobodyYet();
      var ip, modelId, session := Strip(plan.row.ip), Strip(plan.path.modelId), Strip(plan.session);
      if ip == "" || modelId == "" || session == "" {
        return Failed;
      }
      if AlreadyServes(c, plan.row, plan.path) {
        var ids: set<string> := *;
        Emit(Asked(ip, ids));
        assert trace == [Asked(ip, ids)];
        AskedOnly(ip, ids, session, modelId);
        if modelId in ids {
          return AlreadyServing(ip);
        }
      }
      r := Deploy(ip, modelId, session);
      if r.Deployed? {
        RebuiltIsMarked(c, trace, ip, old(home), home);
      }
    }

    /** Conversion, preflight, mark and restart. */
    method Deploy(ip: string, modelId: string, session: string) returns (r: Result)
      requires Valid() && ip == Strip(plan.row.ip) && ip != "" && (sound ==> plan.path.modelId == modelId)
      requires OnlyWorker(trace, ip, session) && Unconfirmed(trace, modelId) && Unbroken(trace)
      requires MarkWrites(trace) == []
      modifies this`plan, this`home, this`trace, doc
      ensures Valid() && !r.AlreadyServing? && old(trace) <= trace
      ensures r.Deployed? ==> r.ip == ip && EndsServed(trace, ip, modelId)
      ensures if r.Failed? then Unconfirmed(trace, modelId) && (sound ==> BrokeAtLast(trace)) else Unbroken(trace)
      ensures OnlyWorker(trace, ip, session)
      ensures r.Deployed? ==> plan.row.rowIndex > 0 && Rebuilt(c, trace, ip, old(home), home)
      ensures sound ==> doc.writes == old(doc.writes) + MarkWrites(trace)
    {
      hide Sound, IsDone, Disciplined, ProperWorld, MarkedFor, AllClear, Preflighted, Strip, OnlyWorker, MarkWrites,
        PathNow, Adds, Unconfirmed, EndsServed, AfterWrite, Listed, Restarted, Goes, Breaks, Unbroken, BrokeAtLast;
      var ok, direct := Prepare(ip, session);
      if !ok {
        FailedStep(sound, old(trace), trace, ip, session, modelId);
        return Failed;
      }
      QuietPrepared(sound, old(trace), trace, ip, session, modelId);
      Outside(2);
      var values;
      ghost var past, before := trace, doc.grid;
      ok, values := MarkRow(ip, session);
      if !ok {
        BreaksGoes(sound, past, trace, ip, session);
        FailedStep(sound, past, trace, ip, session, modelId);
        return Failed;
      }
      var mark := Marked(before, plan.row, plan.path, values);
      MarkedOn(past, mark, ip, session, modelId);
      past := trace;
      assert mark in trace && IsRebuild(c, mark, ip, old(home), home);
      r := Restart(ip, modelId, session, direct);
      RestartedMeans(sound, past, trace, r, ip, session, modelId);
    }

    method Prepare(ip: string, session: string) returns (ok: bool, direct: bool)
      requires Valid()
      modifies this`plan, this`trace, doc
      ensures Valid() && plan.row == old(plan.row) && plan.path.modelId == old(plan.path.modelId)
      ensures Goes(sound, ok, old(trace), trace, ip, session) && doc.writes == old(doc.writes)
      ensures ok ==> Preflighted(trace) && direct == !world.first.NoDirectShell?
      ensures ok ==> if direct then PathChecked(plan.path.workerPath) in trace else plan == old(plan)
    {
      hide Sound, IsDone, Disciplined, ProperWorld, Preflighted, PathNow, Adds, Breaks;
      SelfAdds(trace, ip, session);
      Outside(0);
      if job.conversion {
        var converted: bool := *;
        if !converted {
          Break(Converted(converted), ip, session, old(trace));
          return false, false;
        }
        Emit(Converted(converted));
        assert trace[|trace| - 1] == Converted(true);
        Outside(1);
      }
      ghost var past := trace;
      ok, direct := Preflight(ip, session);
      GoesOn(sound, ok, old(trace), past, trace, ip, session);
    }

    method Restart(ip: string, modelId: string, session: string, direct: bool) returns (r: Result)
      requires sound ==> plan.path.modelId == modelId && Preflighted(trace)
      requires Valid() && (sound ==> MarkedFor(c, trace, ip) && (direct ==> PathChecked(plan.path.workerPath) in trace))
      modifies this`plan, this`trace, doc
      ensures Valid() && plan.row == old(plan.row)
      ensures Restarted(sound, old(trace), trace, r, ip, session, modelId)
      ensures doc.writes == old(doc.writes)
    {
      hide Sound, IsDone, Disciplined, ProperWorld, MarkedFor, AllClear, ProperPath, Adds, Breaks, JustConnected, Goes,
        Preflighted;
      Outside(3);
      var ok := EnsureConnected(session, ip);
      if !ok {
        return Failed;
      }
      FactsOfGoing(c, sound, old(trace), trace, ip, session);
      ghost var past := trace;
      ok := StopExisting(ip, session);
      GoesOn(sound, ok, old(trace), past, trace, ip, session);
      if !ok {
        return Failed;
      }
      FactsOfGoing(c, sound, old(trace), trace, ip, session);
      if !direct {
        past := trace;
        ok := VerifyWorkerPathAfterStop(ip, session);
        GoesOn(sound, ok, old(trace), past, trace, ip, session);
        if !ok {
          return Failed;
        }
        FactsOfGoing(c, sound, past, trace, ip, session);
        FactsOfGoing(c, sound, old(trace), trace, ip, session);
        assert trace[|trace| - 1] == PathChecked(plan.path.workerPath);
      }
      if sound {
        SoundParts(c, plan);
      }
      if plan.command == [] {
        NothingMore(old(trace), trace, ip, session);
        return Failed;
      }
      past := trace;
      r := Start(ip, modelId, session);
      RestartedLater(sound, old(trace), past, trace, r, ip, session, modelId);
    }

    method Start(ip: string, modelId: string, session: string) returns (r: Result)
      requires sound ==> plan.path.modelId == modelId
      requires Valid() && (sound ==> MarkedFor(c, trace, ip)) && AllClear(trace, ip) && plan.command != []
      requires sound ==> PathChecked(plan.path.workerPath) in trace
      modifies this`trace
      ensures Valid()
      ensures Restarted(sound, old(trace), trace, r, ip, session, modelId)
    {
      hide Disciplined, ProperWorld, MarkedFor, AllClear, Coherent, WellSpelled, IsDone, Adds, Breaks;
      var command, path := plan.command, plan.path;
      var ok := EnsureConnected(session, ip);
      if !ok {
        return Failed;
      }
      FactsOfGoing(c, sound, old(trace), trace, ip, session);
      var sent: bool := *;
      if !sent {
        Break(StartRefused(session), ip, session, old(trace));
        return Failed;
      }
      if sound {
        CoherentStart(c, plan);
        SoundPath(c, job, trace, plan);
      }
      Emit(Started(ip, session, command, path));
      assert trace[|trace| - 1].path.modelId == path.modelId;
      r := WaitUntilServing(ip, modelId, session, old(trace));
    }

    /** Asks the endpoint until it lists the model. Three answers with other models only end the wait. */
    method WaitUntilServing(ip: string, modelId: string, session: string, ghost was: seq<Event>) returns (r: Result)
      requires Valid() && (sound ==> StartedFor(trace, ip, modelId) && modelId == job.modelId)
      requires Adds(was, trace, ip, session)
      modifies this`trace
      ensures Valid() && Restarted(sound, was, trace, r, ip, session, modelId)
    {
      hide Sound, IsDone, Disciplined, ProperWorld, Adds, Breaks, StartedFor;
      var time, wrongModelSeen := 0, 0;
      while time < world.patience
        invariant Valid() && Adds(was, trace, ip, session)
        invariant sound ==> StartedFor(trace, ip, modelId)
        invariant 0 <= wrongModelSeen < 3 && (wrongModelSeen > 0 ==> SeenWrong(trace, ip, wrongModelSeen))
      {
        var ids: set<string>, waited: nat := *, *;
        time := time + 1 + waited;
        if modelId in ids {
          ghost var past := trace;
          Emit(Served(ip, modelId, ids));
          assert trace[..|trace| - 1] == past;
          return Deployed(ip);
        }
        if ids != {} {
          wrongModelSeen := wrongModelSeen + 1;
          if wrongModelSeen >= 3 {
            Break(WrongModel(ip, ids, wrongModelSeen), ip, session, was);
            return Failed;
          }
          StillStarted(trace, ip, modelId, ids, wrongModelSeen);
          Emit(WrongModel(ip, ids, wrongModelSeen));
        }
      }
      Break(GaveUp(ForServer, time), ip, session, was);
      return Failed;
    }

    /** Runs an approved reuse review. The table is written once more at the end; when that fails the deployment
        stands and the failure is recorded. `source` is the row whose address, parsers and reuse flag were filled
        in. */
    method ExecuteIfEnabled(enabled: bool, approved: bool, reuseStage: bool, reviewId: string)
        returns (handled: bool, ghost source: Row, ghost at: Grid, ghost last: Plan)
      requires Valid() && trace == [] && job == JobOf(plan, world)
      modifies this, doc
      ensures Valid()
      ensures handled <==>
        enabled && approved && reuseStage && reviewId != "" && ExecutorGuardPasses(c, Some(old(plan).row))
      ensures !handled ==> trace == [] && doc.grid == old(doc.grid) && plan == old(plan)
      ensures !handled ==>
        statuses == old(statuses) + if enabled && approved && reuseStage && reviewId != "" then [NeedsHuman] else []
      ensures handled ==> old(statuses) <= statuses && IsRun(statuses[|old(statuses)|..])
      ensures sound && handled ==>
        (statuses[|statuses| - 1].DeployedAs? <==> !Unconfirmed(trace, job.modelId))
      ensures sound && handled && statuses[|statuses| - 1] != DeployedAs(false) ==>
        doc.writes == old(doc.writes) + MarkWrites(trace)
      ensures sound && handled && statuses[|statuses| - 1] == DeployedAs(false) ==>
        && FinishedWith(c, job, old(doc.writes) + MarkWrites(trace), doc.writes, doc.grid, plan, trace, source)
        && SourceIs(c, old(doc.grid), old(plan), old(home), trace, source)
      // the document failed exactly if the table, as it then was, did not take the final values
      ensures handled && statuses[|statuses| - 1].DeployedAs? ==>
        && (statuses[|statuses| - 1] == DeployedAs(true) <==> !Accepts(c, at, last, last.finalValues))
        && (|world.edits| > 4 ==> at == world.edits[4]) && (sound ==> SameModel(last.path, plan.path))
    {
      hide Core, PathNow, ExecutorGuardPasses, HomeAfter, Strip, AlreadyServes, Refreshed, Accepts, SameModel,
        OnlyWorker, MarkWrites, IsRun, FinishedWith,
        SourceIs, AsksFirst, RanOn, Unconfirmed;
      source, at, last := home, doc.grid, plan;
      if !enabled || !approved || !reuseStage || reviewId == "" {
        return false, source, at, last;
      }
      if !ExecutorGuardPasses(c, Some(plan.row)) {
        statuses := statuses + [NeedsHuman];
        return false, source, at, last;
      }
      NobodyYet();
      statuses := statuses + [Deploying];
      var result := Execute();
      source, last := home, plan;
      if sound && Refreshed(c, old(doc.grid), old(plan)).Some? {
        SuccessIsConfirmed(sound, Refreshed(c, old(doc.grid), old(plan)).value, result, trace);
      }
      if result.Failed? {
        statuses := statuses + [DeployFailed];
        FailedRun(old(statuses));
        return true, source, at, last;
      }
      var written, again;
      written, again, at := Finish();
      FinishedRun(old(statuses), !written);
      return true, source, at, last;
    }

    /** The write at the end. Its failure is recorded; the status is written again after notifications. */
    method Finish() returns (written: bool, again: bool, ghost at: Grid)
      requires Valid()
      modifies this`plan, this`home, this`statuses, doc
      ensures Valid()
      ensures statuses == if again then old(statuses) + [DeployedAs(!written)] + [DeployedAs(!written)]
        else old(statuses) + [DeployedAs(!written)]
      ensures written <==> Accepts(c, at, old(plan), old(plan).finalValues)
      ensures (|world.edits| > 4 ==> at == world.edits[4]) && (sound ==> SameModel(old(plan).path, plan.path))
      ensures !written ==> doc.writes == old(doc.writes)
      ensures sound && written && old(plan).row.rowIndex > 0 ==>
        FinishedWith(c, job, old(doc.writes), doc.writes, doc.grid, plan, trace, old(home))
    {
      hide PathNow, Refreshed, AfterWrite, Writable, Lists, Sound, IsDone, Disciplined, ProperWorld, HomeAfter, Fills,
        ParseTable, SafeForPlan, Strip, Accepts;
      Outside(4);
      ghost var was, before := plan, doc.grid;
      at := before;
      if sound && Refreshed(c, before, was).Some? {
        RefreshKeepsModel(c, before, was);
      }
      var values;
      written, values := WriteTableValues(plan.finalValues);
      if sound && written {
        FinalValues(c, job, was, trace, old(home), values);
        RefreshedHasRow(c, before, was);
      }
      statuses := statuses + [DeployedAs(!written)];
      again := *;
      if again {
        statuses := statuses + [DeployedAs(!written)];
      }
    }
  }

  lemma FailedRun(before: seq<Decided>)
    ensures var all := before + [Deploying] + [DeployFailed];
      before <= all && IsRun(all[|before|..])
  {
    assert (before + [Deploying] + [DeployFailed])[|before|..] == [Deploying, DeployFailed];
  }

  lemma FinishedRun(before: seq<Decided>, failed: bool)
    ensures var all := before + [Deploying] + [DeployedAs(failed)];
      && before <= all && IsRun(all[|before|..])
      && before <= all + [DeployedAs(failed)] && IsRun((all + [DeployedAs(failed)])[|before|..])
  {
    var all := before + [Deploying] + [DeployedAs(failed)];
    assert all[|before|..] == [Deploying, DeployedAs(failed)];
    assert (all + [DeployedAs(failed)])[|before|..] == [Deploying, DeployedAs(failed), DeployedAs(failed)];
  }

  lemma NobodyYet()
    ensures forall ip, session :: OnlyWorker([], ip, session)
    ensures MarkWrites([]) == [] && Unbroken([]) && forall modelId :: Unconfirmed([], modelId)
  {
  }

  lemma RebuiltIsMarked(c: Config, trace: seq<Event>, ip: string, first: Row, home: Row)
    requires Rebuilt(c, trace, ip, first, home)
    ensures !Unmarked(trace)
  {
    hide Listed;
  }

  ghost predicate SeenWrong(past: seq<Event>, ip: string, count: nat) {
    exists ids :: WrongModel(ip, ids, count) in past
  }

  lemma StillStarted(past: seq<Event>, ip: string, modelId: string, ids: set<string>, count: nat)
    ensures SeenWrong(past + [WrongModel(ip, ids, count)], ip, count)
    ensures StartedFor(past, ip, modelId) ==> StartedFor(past + [WrongModel(ip, ids, count)], ip, modelId)
  {
    var more := past + [WrongModel(ip, ids, count)];
    assert more[|past|] == WrongModel(ip, ids, count);
  }

  lemma FailureIsNoPath(e: Event)
    requires IsFailure(e)
    ensures !e.PathChecked?
  {
  }

  lemma FactsOfGoing(c: Config, sound: bool, was: seq<Event>, now: seq<Event>, ip: string, session: string)
    requires Goes(sound, true, was, now, ip, session)
    ensures Adds(was, now, ip, session)
    ensures MarkedFor(c, was, ip) ==> MarkedFor(c, now, ip)
    ensures AllClear(was, ip) ==> AllClear(now, ip)
    ensures Preflighted(was) ==> Preflighted(now)
    ensures forall e :: e in was ==> e in now
  {
    hide MarkedFor, AllClear, Adds, Breaks;
    FactsOfAdds(c, was, now, ip, session);
  }

  lemma KeepsPast(sound: bool, ok: bool, past: seq<Event>, now: seq<Event>, ip: string, session: string)
    requires ok ==> Goes(sound, true, past, now, ip, session)
    ensures ok ==> past <= now && forall e :: e in past ==> e in now
  {
    hide IsQuiet;
  }

  lemma QuietPrepared(sound: bool, was: seq<Event>, now: seq<Event>, ip: string, session: string, modelId: string)
    requires Goes(sound, true, was, now, ip, session)
    ensures MarkWrites(now) == MarkWrites(was) && was <= now
    ensures OnlyWorker(was, ip, session) ==> OnlyWorker(now, ip, session)
    ensures Unconfirmed(was, modelId) ==> Unconfirmed(now, modelId)
    ensures Unbroken(was) ==> Unbroken(now)
  {
    hide Adds, OnlyWorker, MarkWrites, Unconfirmed, Unbroken;
    QuietStep(was, now, ip, session, modelId);
  }

  lemma BreaksGoes(sound: bool, was: seq<Event>, now: seq<Event>, ip: string, session: string)
    requires Breaks(was, now, ip, session)
    ensures Goes(sound, false, was, now, ip, session)
  {
    hide Breaks, Adds;
  }

  lemma NothingMore(was: seq<Event>, now: seq<Event>, ip: string, session: string)
    requires Goes(false, true, was, now, ip, session)
    ensures Goes(false, false, was, now, ip, session)
  {
    hide Adds, Breaks;
  }

  lemma AskedOnly(ip: string, ids: set<string>, session: string, modelId: string)
    ensures OnlyWorker([Asked(ip, ids)], ip, session) && MarkWrites([Asked(ip, ids)]) == []
    ensures modelId !in ids ==> Unconfirmed([Asked(ip, ids)], modelId)
    ensures Unmarked([Asked(ip, ids)]) && Unbroken([Asked(ip, ids)])
  {
    MarkWritesAfter([], Asked(ip, ids));
  }

  /** A run succeeds exactly if some event shows the worker listing the model. */
  lemma SuccessIsConfirmed(sound: bool, now: Plan, r: Result, trace: seq<Event>)
    requires RanOn(sound, now, r, trace)
    ensures !r.Failed? <==> !Unconfirmed(trace, Strip(now.path.modelId))
  {
    hide OnlyWorker, Strip;
    if !r.Failed? {
      assert trace[|trace| - 1] in trace && Confirms(trace[|trace| - 1], Strip(now.path.modelId));
    }
  }

  lemma SelfAdds(trace: seq<Event>, ip: string, session: string)
    ensures Adds(trace, trace, ip, session)
  {
  }

  lemma AddsPath(was: seq<Event>, now: seq<Event>, path: string, ip: string, session: string)
    requires now == was || now == was + [PathChecked(path)]
    ensures Adds(was, now, ip, session)
  {
  }

  lemma StillInterrupted(past: seq<Event>, ip: string, e: Event)
    requires WasInterrupted(past, ip)
    ensures WasInterrupted(past + [e], ip)
  {
    var session :| Interrupted(ip, session) in past;
    assert Interrupted(ip, session) in past + [e];
  }

  lemma FactsOfAdds(c: Config, was: seq<Event>, now: seq<Event>, ip: string, session: string)
    requires Adds(was, now, ip, session)
    ensures MarkedFor(c, was, ip) ==> MarkedFor(c, now, ip)
    ensures AllClear(was, ip) ==> AllClear(now, ip)
    ensures forall e :: e in was ==> e in now
  {
    hide MarkedFor, AllClear, IsQuiet;
    FactsStay(c, was, now, ip);
  }

  lemma QuietStep(was: seq<Event>, now: seq<Event>, ip: string, session: string, modelId: string)
    requires Adds(was, now, ip, session)
    ensures MarkWrites(now) == MarkWrites(was) && was <= now
    ensures OnlyWorker(was, ip, session) ==> OnlyWorker(now, ip, session)
    ensures Unconfirmed(was, modelId) ==> Unconfirmed(now, modelId)
    ensures Unbroken(was) ==> Unbroken(now)
  {
    hide IsQuiet, OnlyWorker, MarkWrites, IsFailure;
    AddsNothing(was, now, ip, session);
  }

  lemma FailedStep(sound: bool, was: seq<Event>, now: seq<Event>, ip: string, session: string, modelId: string)
    requires Goes(sound, false, was, now, ip, session)
    ensures MarkWrites(now) == MarkWrites(was) && was <= now
    ensures OnlyWorker(was, ip, session) ==> OnlyWorker(now, ip, session)
    ensures Unconfirmed(was, modelId) ==> Unconfirmed(now, modelId)
    ensures Unbroken(was) && sound ==> BrokeAtLast(now)
  {
    hide Adds, OnlyWorker, MarkWrites, IsFailure, Unconfirmed, StaysOn, Unbroken;
    if Breaks(was, now, ip, session) {
      var init, last := now[..|now| - 1], now[|now| - 1];
      assert now == init + [last];
      QuietStep(was, init, ip, session, modelId);
      MarkWritesAfter(init, last);
      FailureConfirmsNothing(init, last, ip, session, modelId);
    } else {
      QuietStep(was, now, ip, session, modelId);
    }
  }

  lemma FailureConfirmsNothing(past: seq<Event>, e: Event, ip: string, session: string, modelId: string)
    requires IsFailure(e) && StaysOn(e, ip, session)
    ensures !e.Marked? && (Unconfirmed(past, modelId) ==> Unconfirmed(past + [e], modelId))
    ensures OnlyWorker(past, ip, session) ==> OnlyWorker(past + [e], ip, session)
  {
  }

  lemma RestartedLater(sound: bool, was: seq<Event>, past: seq<Event>, now: seq<Event>, r: Result, ip: string,
                       session: string, modelId: string)
    requires Adds(was, past, ip, session) && Restarted(sound, past, now, r, ip, session, modelId)
    ensures Restarted(sound, was, now, r, ip, session, modelId)
  {
    hide Adds, Goes;
    if r.Failed? {
      GoesOn(sound, false, was, past, now, ip, session);
    } else {
      AddsMore(was, past, now[..|now| - 1], ip, session);
    }
  }

  lemma RestartedMeans(sound: bool, was: seq<Event>, now: seq<Event>, r: Result, ip: string, session: string,
                       modelId: string)
    requires Restarted(sound, was, now, r, ip, session, modelId)
    ensures MarkWrites(now) == MarkWrites(was) && was <= now
    ensures OnlyWorker(was, ip, session) ==> OnlyWorker(now, ip, session)
    ensures r.Failed? && Unconfirmed(was, modelId) ==> Unconfirmed(now, modelId)
    ensures !r.AlreadyServing? && (r.Deployed? ==> r.ip == ip && EndsServed(now, ip, modelId))
    ensures Unbroken(was) ==> if r.Failed? then sound ==> BrokeAtLast(now) else Unbroken(now)
  {
    hide Adds, MarkWrites, Unconfirmed, Goes;
    if r.Failed? {
      FailedStep(sound, was, now, ip, session, modelId);
    } else {
      var init, last := now[..|now| - 1], now[|now| - 1];
      assert now == init + [last];
      QuietStep(was, init, ip, session, modelId);
      MarkWritesAfter(init, last);
    }
  }

  lemma MarkedOn(past: seq<Event>, mark: Event, ip: string, session: string, modelId: string)
    requires mark.Marked?
    ensures OnlyWorker(past, ip, session) ==> OnlyWorker(past + [mark], ip, session)
    ensures Unconfirmed(past, modelId) ==> Unconfirmed(past + [mark], modelId)
    ensures Unbroken(past) ==> Unbroken(past + [mark])
    ensures Preflighted(past) ==> Preflighted(past + [mark])
    ensures MarkWrites(past + [mark]) == MarkWrites(past) + [Write(mark.before, mark.row.rowIndex, mark.values)]
  {
    hide MarkWrites;
    MarkWritesAfter(past, mark);
  }

  lemma RefreshedHasRow(c: Config, g: Grid, plan: Plan)
    requires Refreshed(c, g, plan).Some?
    ensures var now := Refreshed(c, g, plan).value;
      && (plan.row.rowIndex > 0 || Strip(now.row.ip) != "" ==> now.row.rowIndex > 0)
      && (Strip(now.row.ip) != "" ==> now.row in ParseTable(c, g) && SafeForPlan(c, now.row, now.path))
  {
    hide ParseTable, SafeForPlan, Strip, ChooseRow, SwapRow, FirstByIp, FirstByIndex;
    if Strip(plan.row.ip) != "" {
      RefreshedRowIsSafe(c, g, plan);
    }
  }

  /** A dictionary is accepted as the list of its entries. */
  lemma ListedNames(g: Grid, index: nat, values: Values, given: map<string, string>)
    requires Lists(values, given)
    ensures (forall v :: v in values ==> !Blocked(g, index, v.0)) <==>
      (forall name :: name in given ==> !Blocked(g, index, name))
    ensures values == [] <==> given == map[]
  {
    hide Blocked;
    forall name | name in given ensures exists v :: v in values && v.0 == name {
      assert HasKey(values, name);
      var i :| 0 <= i < |values| && values[i].0 == name;
      assert values[i] in values;
    }
    if values == [] {
      assert forall name :: name in given ==> HasKey(values, name);
      assert given.Keys == {};
    } else {
      assert values[0].0 in given;
    }
    forall v | v in values ensures v.0 in given {
      var i :| 0 <= i < |values| && values[i] == v;
    }
  }

  lemma SoundParts(c: Config, plan: Plan)
    requires Sound(c, plan)
    ensures Strip(plan.path.workerPath) != "" && plan.command != []
  {
    hide TokenAfter, ValuesMatch, TablePath, Strip;
    assert LaunchPrefix(plan.path) <= plan.command;
  }

  lemma FinalValues(c: Config, job: Job, plan: Plan, trace: seq<Event>, home: Row, values: Values)
    requires Sound(c, plan) && plan.path.modelId == job.modelId && plan.path.workerPath == PathNow(job, trace)
    requires IsDone(c, plan.path, home, plan.finalValues) && Lists(values, plan.finalValues)
    ensures Fills(c, values, TablePath(c.prefixes, PathNow(job, trace)), job.modelId, home) && values != []
  {
    hide Fills, IsDone, Lists, PathNow, TablePath, TokenAfter, LaunchPrefix, ValuesMatch;
    ListedFills(c, plan.path, home, plan.finalValues, values);
  }

  lemma MoveKeepsSound(c: Config, plan: Plan, resolved: string)
    requires Sound(c, plan) && ProperPath(c, resolved)
    ensures Sound(c, MovePath(c, plan, resolved))
    ensures Strip(plan.path.workerPath) != "" && Strip(plan.path.modelId) != "" && plan.command != []
    ensures NeedsConversion(plan.extra) == NeedsConversion(MovePath(c, plan, resolved).extra)
  {
    hide Coherent, MovePath, Rewritten, ValuesMatch, TablePath, TokenAfter;
    RewriteKeepsCoherence(c, plan, ToPath(resolved));
    RewriteMeans(c, plan, ToPath(resolved));
    assert LaunchPrefix(plan.path) <= plan.command by { CoherentStart(c, plan); }
  }

  lemma SoundPath(c: Config, job: Job, past: seq<Event>, plan: Plan)
    requires Sound(c, plan) && plan.path.modelId == job.modelId && plan.path.workerPath == PathNow(job, past)
    ensures IsJobPath(c, job, past, plan.path)
  {
    hide PathNow, TablePath, TokenAfter, LaunchPrefix, ValuesMatch;
  }

  lemma SoundModelId(c: Config, plan: Plan)
    requires Sound(c, plan)
    ensures Strip(plan.path.modelId) == plan.path.modelId
  {
    hide Coherent;
  }

  lemma CoherentStart(c: Config, plan: Plan)
    requires Coherent(c, plan)
    ensures LaunchPrefix(plan.path) <= plan.command && plan.command != []
    ensures TokenAfter(plan.command, MODEL_FLAG) == Some(plan.path.workerPath)
  {
    hide TokenAfter, ValuesMatch;
    assert LaunchPrefix(plan.path)[0] == "python3";
  }

  lemma SoundMark(c: Config, plan: Plan, values: Values)
    requires Sound(c, plan) && Lists(values, plan.deployingValues)
    ensures SaysDeploying(c, values, plan.path) && values != []
  {
    hide Lists, SaysDeploying, ValuesMatch;
    ListedMark(c, plan, values);
  }

  lemma SameModelSameMark(c: Config, values: Values, path: PathInfo, other: PathInfo)
    requires SaysDeploying(c, values, path) && other.tablePath == path.tablePath && other.modelId == path.modelId
    ensures SaysDeploying(c, values, other)
  {
  }

  lemma MarkIsMark(c: Config, mark: Event, ip: string)
    requires mark.Marked? && Writable(mark.before) && mark.row in ParseTable(c, mark.before)
    requires 0 < mark.row.rowIndex < mark.before.rows && SafeForPlan(c, mark.row, mark.path)
    requires SaysDeploying(c, mark.values, mark.path) && (mark.row.ip == ip <==> Listed(c, mark.before, ip))
    ensures IsMarkFor(c, mark, ip) && MarkIsSafe(c, mark)
  {
  }

  // ---------------------------------------------------------------- what the discipline means

  ghost predicate Touches(e: Event) {
    e.PaneReset? || e.Interrupted? || e.PortKilled? || e.GpuKilled? || e.Started?
  }

  ghost predicate SafelyMarked(c: Config, job: Job, trace: seq<Event>, mark: nat, passed: nat) {
    && passed < mark < |trace| && MarkIsSafe(c, trace[mark])
    && trace[passed].PreflightPassed? && (exists session :: Sighted(session, true, true) in trace[..passed])
    && (job.conversion ==> Converted(true) in trace[..passed])
    && IsJobPath(c, job, trace[..mark], trace[mark].path)
  }

  /** A mark is always made after preflight passed, and that after the conversion. */
  lemma MarkFollowsPreflight(c: Config, job: Job, trace: seq<Event>, mark: nat) returns (passed: nat)
    requires Disciplined(c, job, trace) && mark < |trace| && trace[mark].Marked?
    ensures passed < mark && SafelyMarked(c, job, trace, mark, passed)
  {
    hide MarkIsSafe;
    assert Allowed(c, job, trace[..mark], trace[mark]);
    var e :| e in trace[..mark] && e.PreflightPassed?;
    passed :| 0 <= passed < mark && trace[passed] == e;
    assert Allowed(c, job, trace[..passed], trace[passed]);
  }

  ghost predicate MarkAt(c: Config, trace: seq<Event>, mark: int, ip: string) {
    0 <= mark < |trace| && IsMarkFor(c, trace[mark], ip)
  }

  lemma FindMark(c: Config, trace: seq<Event>, n: nat, ip: string) returns (mark: nat)
    requires n <= |trace| && MarkedFor(c, trace[..n], ip)
    ensures mark < n && MarkAt(c, trace, mark, ip) && trace[mark].Marked?
  {
    hide Listed, ParseTable, SafeForPlan, SaysDeploying, Writable;
    var e :| e in trace[..n] && IsMarkFor(c, e, ip);
    mark :| 0 <= mark < n && trace[mark] == e;
  }

  lemma InterruptFollowsMark(c: Config, job: Job, trace: seq<Event>, n: nat) returns (mark: nat, passed: nat)
    requires Disciplined(c, job, trace) && n < |trace| && trace[n].Interrupted?
    ensures passed < mark < n && MarkAt(c, trace, mark, trace[n].ip) && SafelyMarked(c, job, trace, mark, passed)
  {
    hide MarkAt, MarkedFor, SafelyMarked;
    assert Allowed(c, job, trace[..n], trace[n]);
    mark := FindMark(c, trace, n, trace[n].ip);
    passed := MarkFollowsPreflight(c, job, trace, mark);
  }

  /** Whatever disturbs a worker comes after a safe mark, for this plan, made after conversion and preflight. */
  lemma NothingIsTouchedUnmarked(c: Config, job: Job, trace: seq<Event>, n: nat) returns (mark: nat, passed: nat)
    requires Disciplined(c, job, trace) && n < |trace| && Touches(trace[n])
    ensures passed < mark < n && SafelyMarked(c, job, trace, mark, passed)
  {
    hide Disciplined, SafelyMarked, MarkAt;
    if trace[n].PaneReset? {
      var ip := ResetFollowsMark(c, job, trace, n);
      mark := FindMark(c, trace, n, ip);
      passed := MarkFollowsPreflight(c, job, trace, mark);
    } else if trace[n].Interrupted? {
      mark, passed := InterruptFollowsMark(c, job, trace, n);
    } else {
      var k := InterruptBefore(c, job, trace, n);
      mark, passed := InterruptFollowsMark(c, job, trace, k);
    }
  }

  lemma ResetFollowsMark(c: Config, job: Job, trace: seq<Event>, n: nat) returns (ip: string)
    requires Disciplined(c, job, trace) && n < |trace| && trace[n].PaneReset?
    ensures MarkedFor(c, trace[..n], ip)
  {
    hide MarkedFor;
    assert Allowed(c, job, trace[..n], trace[n]);
    ip :| MarkedFor(c, trace[..n], ip);
  }

  lemma InterruptBefore(c: Config, job: Job, trace: seq<Event>, n: nat) returns (k: nat)
    requires Disciplined(c, job, trace) && n < |trace|
    requires trace[n].PortKilled? || trace[n].GpuKilled? || trace[n].Started?
    ensures k < n && trace[k].Interrupted? && trace[k].ip == trace[n].ip
  {
    hide MarkIsSafe, IsMarkFor, MarkedFor, AllClear, Disciplined;
    var ip := trace[n].ip;
    assert Allowed(c, job, trace[..n], trace[n]) by { Step(c, job, trace, n); }
    match trace[n]
    case PortKilled(_) =>
      k := FindInterrupt(trace, n, ip);
    case GpuKilled(_) =>
      var j :| 0 <= j < n && trace[j] == EndpointSeen(ip, true);
      Step(c, job, trace, j);
      k := FindInterrupt(trace, j, ip);
    case Started(_, _, _, _) =>
      var down, free;
      k, down, free := ClearBefore(trace, n, ip);
  }

  lemma FindInterrupt(trace: seq<Event>, n: nat, ip: string) returns (k: nat)
    requires n <= |trace| && WasInterrupted(trace[..n], ip)
    ensures k < n && trace[k].Interrupted? && trace[k].ip == ip
  {
    var session :| Interrupted(ip, session) in trace[..n];
    k :| 0 <= k < n && trace[k] == Interrupted(ip, session);
  }

  lemma Step(c: Config, job: Job, trace: seq<Event>, n: nat)
    requires Disciplined(c, job, trace) && n < |trace|
    ensures Allowed(c, job, trace[..n], trace[n])
  {
  }

  lemma ClearBefore(trace: seq<Event>, n: nat, ip: string) returns (stop: nat, down: nat, free: nat)
    requires n <= |trace| && AllClear(trace[..n], ip)
    ensures stop < down < free < n
    ensures trace[stop].Interrupted? && trace[stop].ip == ip
    ensures SeenDown(trace[down], ip) && SeenFree(trace[free], ip)
  {
    hide SeenDown, SeenFree, WasInterrupted;
    var past := trace[..n];
    down, free :| 0 <= down < free < n && SeenDown(past[down], ip) && SeenFree(past[free], ip) &&
      WasInterrupted(past[..down], ip);
    assert past[..down] == trace[..down];
    stop := FindInterrupt(trace, down, ip);
  }

  /** A server is started only at the end of the whole protocol (conversion, preflight, safe mark, interrupt, endpoint
      down, cards free), and it serves the model of its plan. */
  lemma StartFollowsTheProtocol(c: Config, job: Job, trace: seq<Event>, n: nat)
      returns (passed: nat, mark: nat, stop: nat, down: nat, free: nat)
    requires Disciplined(c, job, trace) && n < |trace| && trace[n].Started?
    ensures passed < mark < stop < down < free < n
    ensures SafelyMarked(c, job, trace, mark, passed) && MarkAt(c, trace, mark, trace[n].ip)
    ensures trace[stop].Interrupted? && trace[stop].ip == trace[n].ip && JustConnected(trace[..n], trace[n].session)
    ensures SeenDown(trace[down], trace[n].ip) && SeenFree(trace[free], trace[n].ip)
    ensures PathChecked(trace[n].path.workerPath) in trace[..n] && Launches(trace[n].command, trace[n].path)
    ensures IsJobPath(c, job, trace[..n], trace[n].path)
    ensures trace[mark].Marked? && trace[mark].path.modelId == trace[n].path.modelId == job.modelId
    ensures trace[mark].path.workerPath != trace[n].path.workerPath ==>
      exists k :: mark < k < n && trace[k] == PathChecked(trace[n].path.workerPath)
  {
    hide AllClear, MarkAt, SafelyMarked, SeenDown, SeenFree, Disciplined, JustConnected;
    Step(c, job, trace, n);
    stop, down, free := ClearBefore(trace, n, trace[n].ip);
    mark, passed := InterruptFollowsMark(c, job, trace, stop);
    MarkedPath(c, job, trace, mark, passed);
    PathSince(job, trace, mark, n);
  }

  lemma MarkedPath(c: Config, job: Job, trace: seq<Event>, mark: nat, passed: nat)
    requires SafelyMarked(c, job, trace, mark, passed)
    ensures trace[mark].Marked? && IsJobPath(c, job, trace[..mark], trace[mark].path)
  {
  }

  /** The path changes only when a probe gives another. */
  lemma {:induction false} PathSince(job: Job, trace: seq<Event>, m: nat, n: nat)
    requires m < n <= |trace| && !trace[m].PathChecked?
    ensures PathNow(job, trace[..n]) == PathNow(job, trace[..m]) ||
      exists k :: m < k < n && trace[k] == PathChecked(PathNow(job, trace[..n]))
    decreases n
  {
    var before, last := trace[..n - 1], trace[n - 1];
    assert trace[..n] == before + [last];
    PathAfter(job, before, last);
    if m < n - 1 && !last.PathChecked? {
      PathSince(job, trace, m, n - 1);
    }
  }

  /** A deployment is reported only for a server of the plan's model that was started on the worker before. */
  lemma ServedAfterStart(c: Config, job: Job, trace: seq<Event>, n: nat) returns (start: nat)
    requires Disciplined(c, job, trace) && n < |trace| && trace[n].Served?
    ensures start < n && trace[start].Started? && trace[n].modelId in trace[n].ids
    ensures trace[start].ip == trace[n].ip && trace[start].path.modelId == trace[n].modelId
  {
    hide Disciplined;
    Step(c, job, trace, n);
    var e :| e in trace[..n] && e.Started? && e.ip == trace[n].ip && e.path.modelId == trace[n].modelId;
    start :| 0 <= start < n && trace[start] == e;
  }

  // ---------------------------------------------------------------- the write at the end

  lemma {:induction false} FirstByIndexInTable(c: Config, g: Grid, from: nat, row: nat)
    requires from <= row < g.rows && !IsBlank(c, g, row)
    ensures FirstByIndex(RowsFrom(c, g, from), row) == Some(RowAt(c, g, row))
    decreases g.rows - from
  {
    hide IsBlank, RowAt;
    hide FirstByIndex;
    IndexOfRow(c, g, from);
    var rest := RowsFrom(c, g, from + 1);
    SkipRow(RowAt(c, g, from), rest, row);
    if from < row {
      FirstByIndexInTable(c, g, from + 1, row);
    }
    if IsBlank(c, g, from) {
      assert RowsFrom(c, g, from) == [] + rest == rest;
    }
  }

  lemma SkipRow(first: Row, rest: seq<Row>, row: nat)
    ensures FirstByIndex([first] + rest, row) == if first.rowIndex == row then Some(first) else FirstByIndex(rest, row)
  {
    assert ([first] + rest)[1..] == rest;
  }

  lemma UnnamedField(c: Config, g: Grid, row: nat, values: Values, name: string)
    requires IsTable(g) && 0 < row < g.rows && PlainTitles(c, g) && Given(values, name).None?
    ensures Field(c, AfterWrite(g, row, values), row, name) == Field(c, g, row, name)
  {
    hide Titles, WriteTitles, Given, ReadText, Patched;
    TitlesStay(c, g, row, values);
    ReadTitleCount(c, g);
    if LastIndex(Titles(c, g), name).Some? {
      InRow(g, row, LastIndex(Titles(c, g), name).value);
    }
  }

  /** Nobody having touched the table since the mark, the write at the end is accepted exactly when the model's table
      path is still the one that was marked. A path that was resolved only after the stop is refused. */
  lemma FinalWriteNeedsMarkedPath(c: Config, g: Grid, row: nat, values: Values, marked: PathInfo, plan: Plan)
    requires Markable(c, g, row) && SaysDeploying(c, values, marked) && Given(values, COL_ADDRESS).None?
    requires MarkerReads(marked.tablePath, c.deployingMarker) && MarkerReads(marked.modelId, c.deployingMarker)
    requires MarkSurvives(c, marked)
    requires plan.row == RowAt(c, g, row) && plan.row.ip != "" && Strip(plan.row.ip) == plan.row.ip
    requires plan.path.modelId == marked.modelId
    ensures Refreshed(c, AfterWrite(g, row, values), plan).Some? <==>
      Strip(plan.path.tablePath) == Strip(marked.tablePath)
  {
    hide AfterWrite, RowsFrom, IsBlank, Strip, SafeForPlan, FirstByIp, FirstByIndex, ChooseRow, SwapRow, Field,
      FirstField, Titles, SaysDeploying, Named;
    var after := AfterWrite(g, row, values);
    MarkedRowIsSafeOnlyForItsModel(c, g, row, values, marked, plan.path);
    TitlesStay(c, g, row, values);
    SameShape(g, row, values);
    UnnamedField(c, g, row, values, COL_ADDRESS);
    FirstByIndexInTable(c, after, 1, row);
  }

  /** Every named cell of the row holds one text block. */
  ghost predicate Fillable(c: Config, g: Grid, row: nat) {
    && IsTable(g) && 0 < row < g.rows && Readable(c, g) && PlainTitles(c, g)
    && forall name :: IsColumn(name) && LastIndex(Titles(c, g), name).Some? ==>
      OneText(CellAt(g, row * g.columns + LastIndex(Titles(c, g), name).value))
  }

  lemma FilledField(c: Config, g: Grid, row: nat, values: Values, name: string)
    requires Fillable(c, g, row) && IsColumn(name) && name in Titles(c, g) && Given(values, name).Some?
    ensures Field(c, AfterWrite(g, row, values), row, name) == c.reader.clean(Strip(Given(values, name).value))
    ensures name in Titles(c, AfterWrite(g, row, values))
  {
    hide Titles, WriteTitles, AfterWrite, Field, Strip, Given, OneText, LastIndex, CellAt, Readable, IsColumn;
    HasIndexIff(Titles(c, g), name);
    WrittenField(c, g, row, values, name);
    TitlesStay(c, g, row, values);
  }

  lemma ReadTitles(c: Config, g: Grid, row: nat)
    requires Fillable(c, g, row)
    ensures forall name :: name in {COL_MODEL, COL_MODEL_ID, COL_ADDRESS, COL_TESTED} ==> name in Titles(c, g)
  {
    hide Titles, LastIndex;
    var names := [COL_MODEL, COL_MODEL_ID, COL_ADDRESS, COL_TESTED];
    assert names[0] == COL_MODEL && names[1] == COL_MODEL_ID && names[2] == COL_ADDRESS && names[3] == COL_TESTED;
    forall name | name in {COL_MODEL, COL_MODEL_ID, COL_ADDRESS, COL_TESTED} ensures name in Titles(c, g) {
      assert name in names;
      HasIndexIff(Titles(c, g), name);
    }
  }

  lemma FirstTitle(c: Config, g: Grid, row: nat)
    requires COL_REUSE in Titles(c, g)
    ensures FirstField(c, g, row, REUSE_TITLES) == Field(c, g, row, COL_REUSE)
    ensures RowAt(c, g, row).reuseColumnPresent
  {
    hide Titles, Field, LastIndex;
    HasIndexIff(Titles(c, g), COL_REUSE);
    assert REUSE_TITLES[0] == COL_REUSE;
  }

  /** After the last write the row reads as the model, with no marker, at the address it was given, untested. */
  lemma FilledRowReads(c: Config, g: Grid, row: nat, values: Values, tablePath: string, modelId: string, home: Row)
    requires Fillable(c, g, row) && Fills(c, values, tablePath, modelId, home)
    ensures var now := RowAt(c, AfterWrite(g, row, values), row);
      && now.model == c.reader.clean(Strip(tablePath)) && now.modelId == c.reader.clean(Strip(modelId))
      && now.address == c.reader.clean(Strip(home.address)) && now.ip == c.reader.ip(now.address)
      && now.gpuCount == c.reader.gpuCount(now.address) && now.testedTasks == c.reader.clean("")
    ensures FilledOptional(c, g, row, values, RowAt(c, AfterWrite(g, row, values), row))
    ensures c.reader.clean(Strip(tablePath)) != "" ==> !IsBlank(c, AfterWrite(g, row, values), row)
  {
    hide Titles, AfterWrite, Field, FirstField, Given, Fillable, ParsersOf, Strip;
    ReadTitles(c, g, row);
    forall name | IsColumn(name) && name in Titles(c, g)
      ensures Field(c, AfterWrite(g, row, values), row, name) == c.reader.clean(Strip(Given(values, name).value))
      ensures name in Titles(c, AfterWrite(g, row, values))
    {
      FilledField(c, g, row, values, name);
    }
    if COL_REUSE in Titles(c, g) {
      FirstTitle(c, AfterWrite(g, row, values), row);
    }
    EmptyStrip();
  }

  /** The columns a table need not have read as written where it has them. */
  ghost predicate FilledOptional(c: Config, g: Grid, row: nat, values: Values, now: Row) {
    && (COL_TOOL_PARSER in Titles(c, g) && Given(values, COL_TOOL_PARSER).Some? ==>
          now.toolParser == c.reader.clean(Strip(Given(values, COL_TOOL_PARSER).value)))
    && (COL_REASONING_PARSER in Titles(c, g) && Given(values, COL_REASONING_PARSER).Some? ==>
          now.reasoningParser == c.reader.clean(Strip(Given(values, COL_REASONING_PARSER).value)))
    && (COL_REUSE in Titles(c, g) && Given(values, COL_REUSE).Some? ==>
          now.reuseColumnPresent && now.reuse == c.reader.clean(Strip(Given(values, COL_REUSE).value)))
  }

  ghost predicate HasNoMarker(text: string, marker: string) {
    marker != "" ==> forall head :: Strip(text) != head + marker
  }

  lemma UnmarkedStays(text: string, marker: string)
    requires HasNoMarker(text, marker)
    ensures StripMarker(Strip(text), marker) == Strip(text)
  {
    hide Strip;
    StripTwice(text);
    var t := Strip(text);
    if marker != "" && |marker| <= |t| {
      assert t == t[..|t| - |marker|] + t[|t| - |marker|..];
    }
  }

  /** Until its tasks are tested, a worker that was just deployed is taken for no other model, and for its own model it
      reads as serving it. */
  lemma DeployedRowIsTaken(c: Config, g: Grid, row: nat, values: Values, path: PathInfo, home: Row, other: PathInfo)
    requires Fillable(c, g, row) && Fills(c, values, path.tablePath, path.modelId, home)
    requires Survives(c, path.tablePath) && Survives(c, path.modelId) && Survives(c, "") && Strip(path.tablePath) != ""
    requires HasNoMarker(path.tablePath, c.deployingMarker) && HasNoMarker(path.modelId, c.deployingMarker)
    ensures var now := RowAt(c, AfterWrite(g, row, values), row);
      && now in ParseTable(c, AfterWrite(g, row, values))
      && forall required, excluded :: !IsFree(c, now, required, excluded)
    ensures SafeForPlan(c, RowAt(c, AfterWrite(g, row, values), row), other) <==>
      Strip(other.tablePath) == Strip(path.tablePath) && Strip(other.modelId) == Strip(path.modelId)
  {
    hide AfterWrite, RowAt, Fills, Titles, WriteTitles, IsBlank, Strip, HasNoMarker, RowsFrom, ReuseFlagAllows, OneText,
      StripMarker, MayScan;
    var after := AfterWrite(g, row, values);
    FilledRowReads(c, g, row, values, path.tablePath, path.modelId, home);
    UnmarkedStays(path.tablePath, c.deployingMarker);
    UnmarkedStays(path.modelId, c.deployingMarker);
    StripTwice(path.tablePath);
    EmptyStrip();
    TitlesStay(c, g, row, values);
    SameShape(g, row, values);
    IndexOfRow(c, after, row);
    RowsAreTheRows(c, after, 1, RowAt(c, after, row));
  }

  /** When the worker has left the table, the write at the end puts its address into the row of another worker. */
  lemma VanishedWorkerOverwritesAnother(c: Config, g: Grid, plan: Plan, values: Values, address: string)
    requires IsTable(g) && Readable(c, g) && PlainTitles(c, g) && Given(values, COL_ADDRESS) == Some(address)
    requires Strip(plan.row.ip) != "" && !Listed(c, g, Strip(plan.row.ip)) && Refreshed(c, g, plan).Some?
    requires var row := Refreshed(c, g, plan).value.row.rowIndex;
      OneText(CellAt(g, row * g.columns + LastIndex(Titles(c, g), COL_ADDRESS).value))
    ensures var other := Refreshed(c, g, plan).value.row;
      && other.ip != Strip(plan.row.ip) && other in ParseTable(c, g)
      && Field(c, AfterWrite(g, other.rowIndex, values), other.rowIndex, COL_ADDRESS) == c.reader.clean(Strip(address))
  {
    hide Refreshed, AfterWrite, Titles, WriteTitles, RowsFrom, SafeForPlan, CellAt, LastIndex, Given, Strip, OneText;
    RefreshedRowIsSafe(c, g, plan);
    var other := Refreshed(c, g, plan).value.row;
    WrittenField(c, g, other.rowIndex, values, COL_ADDRESS);
  }
}
