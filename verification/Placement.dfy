/** Choosing a reusable worker row and planning a deployment on it (src/fmh/reusable_workers.py), the
    deterministic review policy (src/fmh/codex_auditor.py) and the executor's own guard. */
module Placement {
  import opened Text
  import opened Paths
  import opened Wrappers
  import opened ShellWords

  /** What the regular expressions read out of a cell. Every claim below holds for any such reading. */
  datatype Reader = Reader(
    normalized: string -> string,
    running: string -> bool,
    blocked: string -> bool,
    tokens: string -> set<string>,
    ip: string -> string,
    gpuCount: string -> nat,
    clean: string -> string)

  datatype Config = Config(
    prefixes: Prefixes,
    reader: Reader,
    deployingMarker: string,
    requiredTasks: set<string>,
    defaultToolParser: string,
    defaultReasoningParser: string,
    servingArgs: seq<string>,
    port: nat)

  /** A parsed row of the deployed-models table. `ip` and `gpuCount` are read from the address cell. */
  datatype Row = Row(
    rowIndex: nat,
    model: string,
    modelId: string,
    address: string,
    ip: string,
    gpuCount: nat,
    toolParser: string,
    reasoningParser: string,
    testedTasks: string,
    reuse: string,
    reuseColumnPresent: bool)

  const REUSE_YES := {"yes", "y", "true", "1", "是", "可", "可以", "复用"}

  predicate ReuseFlagAllows(c: Config, value: string, columnPresent: bool) {
    !columnPresent || c.reader.normalized(value) in REUSE_YES
  }

  predicate IsReusableState(c: Config, model: string, modelId: string, testedTasks: string) {
    var tested := Strip(testedTasks);
    var hasModel := Strip(model) != "" || Strip(modelId) != "";
    if c.reader.running(tested) || c.reader.blocked(tested) then false
    else if tested == "" then !hasModel
    else c.requiredTasks <= c.reader.tokens(tested)
  }

  predicate IsReusable(c: Config, row: Row) {
    ReuseFlagAllows(c, row.reuse, row.reuseColumnPresent) && IsReusableState(c, row.model, row.modelId, row.testedTasks)
  }

  predicate IsIdleEmpty(row: Row) {
    Strip(row.model) == "" && Strip(row.modelId) == "" && Strip(row.testedTasks) == ""
  }

  /** The reuse column, if there is one, says yes. */
  ghost predicate MayScan(c: Config, row: Row) {
    row.reuseColumnPresent ==>
      c.reader.normalized(row.reuse) in {"yes", "y", "true", "1", "是", "可", "可以", "复用"}
  }

  /** The worker serves nothing, or all required tasks were tested on it; no test is running and none is blocked. */
  ghost predicate IsFinished(c: Config, row: Row) {
    && !c.reader.running(Strip(row.testedTasks)) && !c.reader.blocked(Strip(row.testedTasks))
    && (Serves(row) || Strip(row.testedTasks) != "" ==>
      Strip(row.testedTasks) != "" &&
      forall task :: task in c.requiredTasks ==> task in c.reader.tokens(Strip(row.testedTasks)))
  }

  ghost predicate Serves(row: Row) { Strip(row.model) != "" || Strip(row.modelId) != "" }

  lemma ReusableIff(c: Config, row: Row)
    ensures IsReusable(c, row) <==> MayScan(c, row) && IsFinished(c, row)
  {
    hide Strip;
    assert REUSE_YES == {"yes", "y", "true", "1", "是", "可", "可以", "复用"};
  }

  // ---------------------------------------------------------------- choosing a row

  predicate Eligible(c: Config, row: Row, required: nat, excluded: set<int>) {
    && row.ip != "" && row.gpuCount > 0 && IsReusable(c, row)
    && row.rowIndex !in excluded
    && (required > 0 ==> row.gpuCount >= required)
  }

  /** Order of preference: idle rows first, then fewer cards, then the higher place in the table. */
  predicate Preferred(a: Row, b: Row) {
    if IsIdleEmpty(a) != IsIdleEmpty(b) then IsIdleEmpty(a)
    else if a.gpuCount != b.gpuCount then a.gpuCount < b.gpuCount
    else a.rowIndex < b.rowIndex
  }

  function ChooseRow(c: Config, rows: seq<Row>, required: nat, excluded: set<int>): Option<Row> {
    if rows == [] then None
    else
      var row := rows[|rows| - 1];
      var best := ChooseRow(c, rows[..|rows| - 1], required, excluded);
      if !Eligible(c, row, required, excluded) then best
      else if best.None? || Preferred(row, best.value) then Some(row)
      else best
  }

  /** A row that may be taken: on a known worker with enough cards, not excluded, and reusable. */
  ghost predicate IsFree(c: Config, row: Row, required: nat, excluded: set<int>) {
    && row.ip != "" && row.gpuCount > 0 && row.gpuCount >= required && row.rowIndex !in excluded
    && MayScan(c, row) && IsFinished(c, row)
  }

  /** A worker that serves nothing and has no tests comes first, then fewer cards, then the higher place. */
  ghost predicate ComesBefore(a: Row, b: Row) {
    var emptyA, emptyB := !Serves(a) && Strip(a.testedTasks) == "", !Serves(b) && Strip(b.testedTasks) == "";
    || (emptyA && !emptyB)
    || (emptyA == emptyB && (a.gpuCount < b.gpuCount || (a.gpuCount == b.gpuCount && a.rowIndex < b.rowIndex)))
  }

  /** A free row before which no free row comes. */
  ghost predicate IsLeast(c: Config, rows: seq<Row>, required: nat, excluded: set<int>, choice: Row) {
    && IsFree(c, choice, required, excluded)
    && forall row :: row in rows && IsFree(c, row, required, excluded) ==> !ComesBefore(row, choice)
  }

  lemma EligibleIff(c: Config, row: Row, required: nat, excluded: set<int>)
    ensures Eligible(c, row, required, excluded) <==> IsFree(c, row, required, excluded)
  {
    hide IsReusable, MayScan, IsFinished;
    ReusableIff(c, row);
  }

  lemma PreferredIff(a: Row, b: Row)
    ensures Preferred(a, b) <==> ComesBefore(a, b)
  {
    hide Strip;
  }

  /** The choice is a free row before which no free row comes, and fails only if no row is free. */
  lemma {:induction false} ChoiceIsLeast(c: Config, rows: seq<Row>, required: nat, excluded: set<int>)
    ensures var choice := ChooseRow(c, rows, required, excluded);
      && (choice.None? <==> forall row :: row in rows ==> !IsFree(c, row, required, excluded))
      && (choice.Some? ==> choice.value in rows && IsLeast(c, rows, required, excluded, choice.value))
  {
    hide Eligible, Preferred, IsFree, ComesBefore;
    if rows != [] {
      var init, last := rows[..|rows| - 1], rows[|rows| - 1];
      var best := ChooseRow(c, init, required, excluded);
      ChoiceIsLeast(c, init, required, excluded);
      EligibleIff(c, last, required, excluded);
      assert forall row :: row in rows <==> row in init || row == last;
      NotBeforeItself(last);
      if best.Some? {
        PreferredIff(last, best.value);
        BeforeTransitive(last, best.value);
      }
    }
  }

  lemma NotBeforeItself(a: Row)
    ensures !ComesBefore(a, a)
  {
  }

  /** What does not come before a row does not come before one that does. */
  lemma BeforeTransitive(a: Row, b: Row)
    ensures ComesBefore(a, b) ==> forall row :: !ComesBefore(row, b) ==> !ComesBefore(row, a)
  {
    hide Strip;
  }

  /** With distinct row numbers this leaves one row only. */
  lemma LeastIsUnique(a: Row, b: Row)
    requires !ComesBefore(a, b) && !ComesBefore(b, a)
    ensures a.rowIndex == b.rowIndex
  {
    hide Strip;
  }

  // ---------------------------------------------------------------- building a plan

  const COL_MODEL := "模型"
  const COL_MODEL_ID := "模型id"
  const COL_ADDRESS := "地址"
  const COL_TOOL_PARSER := "推理工具调用解析器"
  const COL_REASONING_PARSER := "推理解析器"
  const COL_TESTED := "已经测试完的任务"
  const COL_REUSE := "复用"

  /** A deployment plan. `extra` stands for keys a rebuilt plan does not have, such as `weight_conversion`. */
  datatype Plan = Plan(
    path: PathInfo,
    row: Row,
    session: string,
    command: seq<string>,
    finalValues: map<string, string>,
    deployingValues: map<string, string>,
    extra: map<string, string>)

  function TmuxSession(ip: string, gpuCount: nat): string {
    var parts := Split(ip, '.');
    if |parts| != 4 then "ssh_" + Decimal(gpuCount) + "_gpu"
    else "ssh_" + Decimal(gpuCount) + "_gpu_" + parts[2] + "_" + parts[3]
  }

  function VllmCommand(c: Config, path: PathInfo, gpuCount: nat, toolParser: string,
    reasoningParser: string): seq<string> {
    ["python3", "-m", "vllm.entrypoints.openai.api_server", "--served-model-name", path.modelId,
     "--model", path.workerPath] +
    [DATA_PARALLEL, Decimal(gpuCount)] +
    (c.servingArgs +
     ["--reasoning-parser", reasoningParser, "--enable-auto-tool-choice", "--tool-call-parser", toolParser])
  }

  function BuildPlan(c: Config, path: PathInfo, row: Row): Plan {
    var tool := if row.toolParser != "" then row.toolParser else c.defaultToolParser;
    var reasoning := if row.reasoningParser != "" then row.reasoningParser else c.defaultReasoningParser;
    var gpus := if row.gpuCount > 0 then row.gpuCount else 1;
    var reuse := if Strip(row.reuse) != "" then Strip(row.reuse) else "yes";
    Plan(
      path, row, TmuxSession(row.ip, gpus), VllmCommand(c, path, gpus, tool, reasoning),
      map[COL_MODEL := path.tablePath, COL_MODEL_ID := path.modelId, COL_ADDRESS := row.address,
          COL_TOOL_PARSER := tool, COL_REASONING_PARSER := reasoning, COL_TESTED := "", COL_REUSE := reuse],
      map[COL_MODEL := path.tablePath + c.deployingMarker, COL_MODEL_ID := path.modelId + c.deployingMarker,
          COL_TESTED := "", COL_REUSE := reuse],
      map[])
  }

  /** The parsers of a row, or those of the configuration where the row names none. */
  ghost predicate ParsersOf(c: Config, row: Row, tool: string, reasoning: string) {
    && (row.toolParser != "" ==> tool == row.toolParser) && (row.toolParser == "" ==> tool == c.defaultToolParser)
    && (row.reasoningParser != "" ==> reasoning == row.reasoningParser)
    && (row.reasoningParser == "" ==> reasoning == c.defaultReasoningParser)
  }

  /** The cells a row has once its deployment is done: the model, the row's own address, the parsers it runs with, no
      tested tasks, and the reuse flag, yes where there was none. */
  ghost predicate IsDone(c: Config, path: PathInfo, row: Row, values: map<string, string>) {
    && values.Keys ==
      {COL_MODEL, COL_MODEL_ID, COL_ADDRESS, COL_TOOL_PARSER, COL_REASONING_PARSER, COL_TESTED, COL_REUSE}
    && values[COL_MODEL] == path.tablePath && values[COL_MODEL_ID] == path.modelId
    && values[COL_ADDRESS] == row.address && values[COL_TESTED] == ""
    && ParsersOf(c, row, values[COL_TOOL_PARSER], values[COL_REASONING_PARSER])
    && values[COL_REUSE] == (if Strip(row.reuse) != "" then Strip(row.reuse) else "yes")
  }

  /** An address without a number of cards counts as one card. */
  ghost function CardsOf(row: Row): nat { if row.gpuCount == 0 then 1 else row.gpuCount }

  /** The command serves the model on all cards of the row, with the parsers the row gets. */
  ghost predicate RunsOn(c: Config, path: PathInfo, row: Row, command: seq<string>) {
    var n := |command|;
    && n >= 14
    && command[..9] == ["python3", "-m", "vllm.entrypoints.openai.api_server", "--served-model-name", path.modelId,
                        "--model", path.workerPath, "--data-parallel-size", Decimal(CardsOf(row))]
    && command[n - 5] == "--reasoning-parser" && command[n - 3] == "--enable-auto-tool-choice"
    && command[n - 2] == "--tool-call-parser" && ParsersOf(c, row, command[n - 1], command[n - 4])
  }

  /** The cells written before the worker is stopped: the model with the marker, no tested tasks, the reuse flag. */
  ghost predicate IsMark(c: Config, path: PathInfo, row: Row, values: map<string, string>) {
    && values.Keys == {COL_MODEL, COL_MODEL_ID, COL_TESTED, COL_REUSE}
    && values[COL_MODEL] == path.tablePath + c.deployingMarker
    && values[COL_MODEL_ID] == path.modelId + c.deployingMarker
    && values[COL_TESTED] == "" && values[COL_REUSE] == (if Strip(row.reuse) != "" then Strip(row.reuse) else "yes")
  }

  ghost predicate SessionFor(row: Row, session: string) {
    && (forall a, b, x, y :: Split(row.ip, '.') == [a, b, x, y] ==>
          session == "ssh_" + Decimal(CardsOf(row)) + "_gpu_" + x + "_" + y)
    && (|Split(row.ip, '.')| != 4 ==> session == "ssh_" + Decimal(CardsOf(row)) + "_gpu")
  }

  /** All parts of the plan are for this row. */
  ghost predicate IsBuiltFor(c: Config, plan: Plan, row: Row) {
    && plan.row == row && RunsOn(c, plan.path, row, plan.command) && SessionFor(row, plan.session)
    && IsDone(c, plan.path, row, plan.finalValues) && IsMark(c, plan.path, row, plan.deployingValues)
  }

  /** What a built plan says of its row and its model. */
  lemma BuiltPlanSays(c: Config, path: PathInfo, row: Row)
    ensures IsBuiltFor(c, BuildPlan(c, path, row), row) && BuildPlan(c, path, row).path == path
  {
    hide Strip, Decimal, Split, TmuxSession, RunsOn, IsDone, VllmCommand;
    BuiltIsDone(c, path, row);
    SevenColumns();
    BuiltRuns(c, path, row);
    SessionOf(row.ip, CardsOf(row));
  }

  lemma BuiltIsDone(c: Config, path: PathInfo, row: Row)
    ensures IsDone(c, path, row, BuildPlan(c, path, row).finalValues)
  {
    hide Strip, Decimal, VllmCommand, TmuxSession;
    SevenColumns();
  }

  lemma SevenColumns()
    ensures |{COL_MODEL, COL_MODEL_ID, COL_ADDRESS, COL_TOOL_PARSER, COL_REASONING_PARSER, COL_TESTED, COL_REUSE}| == 7
    ensures COL_MODEL !in {COL_MODEL_ID, COL_ADDRESS, COL_TOOL_PARSER, COL_REASONING_PARSER, COL_TESTED, COL_REUSE}
    ensures COL_MODEL_ID !in {COL_ADDRESS, COL_TOOL_PARSER, COL_REASONING_PARSER, COL_TESTED, COL_REUSE}
    ensures COL_ADDRESS !in {COL_TOOL_PARSER, COL_REASONING_PARSER, COL_TESTED, COL_REUSE}
    ensures COL_TOOL_PARSER !in {COL_REASONING_PARSER, COL_TESTED, COL_REUSE}
    ensures COL_REASONING_PARSER !in {COL_TESTED, COL_REUSE} && COL_TESTED != COL_REUSE
  {
    assert |COL_MODEL| == 2 && |COL_MODEL_ID| == 4 && |COL_ADDRESS| == 2 && |COL_TOOL_PARSER| == 9;
    assert |COL_REASONING_PARSER| == 5 && |COL_TESTED| == 8 && |COL_REUSE| == 2;
    assert COL_MODEL[0] == '模' && COL_ADDRESS[0] == '地' && COL_REUSE[0] == '复';
  }

  lemma BuiltRuns(c: Config, path: PathInfo, row: Row)
    ensures RunsOn(c, path, row, BuildPlan(c, path, row).command)
  {
    hide Strip, Decimal, TmuxSession;
  }

  lemma SessionOf(ip: string, gpuCount: nat)
    ensures forall a, b, x, y :: Split(ip, '.') == [a, b, x, y] ==>
      TmuxSession(ip, gpuCount) == "ssh_" + Decimal(gpuCount) + "_gpu_" + x + "_" + y
    ensures |Split(ip, '.')| != 4 ==> TmuxSession(ip, gpuCount) == "ssh_" + Decimal(gpuCount) + "_gpu"
  {
    hide Split, Decimal;
  }

  // ---------------------------------------------------------------- the command as text

  lemma {:induction false} JoinKeepsPair(before: seq<string>, x: string, y: string, after: seq<string>)
    ensures exists a, b :: ShellJoin(before + [x, y] + after) == a + (Quote(x) + " " + Quote(y)) + b
  {
    hide Quote;
    var tokens := before + [x, y] + after;
    var pair := Quote(x) + " " + Quote(y);
    if after == [] {
      var init := before + [x];
      assert tokens[..|tokens| - 1] == init;
      if before == [] {
        assert ShellJoin(tokens) == "" + pair + "";
      } else {
        assert init[..|init| - 1] == before;
        assert ShellJoin(tokens) == (ShellJoin(before) + " ") + pair + "";
      }
    } else {
      JoinKeepsPair(before, x, y, after[..|after| - 1]);
      assert tokens[..|tokens| - 1] == before + [x, y] + after[..|after| - 1];
      var a, b :| ShellJoin(before + [x, y] + after[..|after| - 1]) == a + pair + b;
      assert ShellJoin(tokens) == a + pair + (b + " " + Quote(tokens[|tokens| - 1]));
    }
  }

  // ---------------------------------------------------------------- the review policy and the executor guard

  const DATA_PARALLEL := "--data-parallel-size"

  /** The parts of a review payload the policy reads; a missing dictionary is None. */
  datatype Payload = Payload(
    reuseStage: bool,
    planRow: Option<Row>,
    selectedRow: Option<Row>,
    planPath: Option<PathInfo>,
    contextPath: Option<PathInfo>,
    command: string,
    session: string)

  function PayloadOf(plan: Plan): Payload {
    Payload(true, Some(plan.row), Some(plan.row), Some(plan.path), Some(plan.path), ShellJoin(plan.command),
      plan.session)
  }

  function LastTwo(parts: seq<string>): string {
    if |parts| >= 2 then parts[|parts| - 2] + "_" + parts[|parts| - 1]
    else if |parts| == 1 then parts[0] else ""
  }

  predicate PolicyApproves(c: Config, p: Payload) {
    var row := if p.planRow.Some? then p.planRow else p.selectedRow;
    var path := if p.planPath.Some? then p.planPath else p.contextPath;
    && p.reuseStage && row.Some? && path.Some?
    && IsReusable(c, row.value)
    && row.value.ip != "" && row.value.gpuCount > 0
    && path.value.workerPath != "" && p.command != "" && p.session != ""
    && c.prefixes.Worker() + "/" <= path.value.workerPath
    && Contains(p.session, LastTwo(Split(row.value.ip, '.')))
    && Contains(p.command, DATA_PARALLEL + " " + Decimal(row.value.gpuCount))
  }

  /** The guard in the executor. It reads the plan's row only; a missing row reads as an empty dictionary. */
  predicate ExecutorGuardPasses(c: Config, planRow: Option<Row>) {
    match planRow
    case Some(row) => IsReusable(c, row)
    case None => ReuseFlagAllows(c, "", false) && IsReusableState(c, "", "", "")
  }

  /** An address read by the table parser is a dotted quad. */
  predicate IsDottedQuad(ip: string) { |Split(ip, '.')| == 4 }

  /** The path is under the source prefix, under the worker prefix, or relative. */
  predicate Deployable(p: Prefixes, path: PathInfo) {
    p.Source() + "/" <= path.originalPath || p.Worker() + "/" <= path.originalPath || !("/" <= path.originalPath)
  }

  lemma WorkerPathUnderPrefix(p: Prefixes, raw: string)
    ensures p.Worker() + "/" <= Normalize(p, raw).workerPath <==> Deployable(p, Normalize(p, raw))
  {
    hide TrimRight, Unquote;
    var n := Normalize(p, raw);
    var s, w := p.Source(), p.Worker();
    if s + "/" <= n.originalPath {
      assert n.originalPath[|s|] == '/';
      assert n.workerPath == w + n.originalPath[|s|..];
      assert n.workerPath[..|w| + 1] == w + "/";
    }
  }

  lemma SessionNamesWorker(ip: string, gpus: nat)
    requires IsDottedQuad(ip)
    ensures Contains(TmuxSession(ip, gpus), LastTwo(Split(ip, '.')))
  {
    var parts := Split(ip, '.');
    var head, suffix := "ssh_" + Decimal(gpus) + "_gpu_", parts[2] + "_" + parts[3];
    ContainsMiddle(head, suffix, "");
    assert TmuxSession(ip, gpus) == head + suffix + "";
  }

  lemma CommandNamesCards(c: Config, path: PathInfo, gpus: nat, tool: string, reasoning: string)
    ensures var text := ShellJoin(VllmCommand(c, path, gpus, tool, reasoning));
      text != "" && Contains(text, DATA_PARALLEL + " " + Decimal(gpus))
  {
    hide ShellJoin, Decimal, Quote, Contains;
    var before := ["python3", "-m", "vllm.entrypoints.openai.api_server", "--served-model-name", path.modelId,
      "--model", path.workerPath];
    var after := c.servingArgs +
      ["--reasoning-parser", reasoning, "--enable-auto-tool-choice", "--tool-call-parser", tool];
    PlainFlag();
    PlainNumber(gpus);
    PairIsContained(before, DATA_PARALLEL, Decimal(gpus), after);
  }

  lemma PairIsContained(before: seq<string>, flag: string, number: string, after: seq<string>)
    requires Quote(flag) == flag && Quote(number) == number
    ensures var text := ShellJoin(before + [flag, number] + after);
      text != "" && Contains(text, flag + " " + number)
  {
    hide ShellJoin, Contains, Quote;
    JoinKeepsPair(before, flag, number, after);
    var a, b :| ShellJoin(before + [flag, number] + after) == a + (Quote(flag) + " " + Quote(number)) + b;
    ContainsMiddle(a, flag + " " + number, b);
  }

  lemma PlainFlag()
    ensures Quote(DATA_PARALLEL) == DATA_PARALLEL
  {
    assert forall ch :: ch in DATA_PARALLEL ==> IsShellSafe(ch);
  }

  lemma PlainNumber(n: nat)
    ensures Quote(Decimal(n)) == Decimal(n)
  {
    DecimalShape(n);
  }

  /** The policy approves a plan built from a chosen row exactly when the path is one it may deploy, whatever
      model id the plan was given, and the executor's guard then passes. */
  lemma ChosenPlanIsApproved(c: Config, rows: seq<Row>, required: nat, excluded: set<int>, raw: string, modelId: string)
    requires ChooseRow(c, rows, required, excluded).Some?
    requires IsDottedQuad(ChooseRow(c, rows, required, excluded).value.ip)
    ensures var row := ChooseRow(c, rows, required, excluded).value;
      var path := Normalize(c.prefixes, raw).(modelId := modelId);
      && (PolicyApproves(c, PayloadOf(BuildPlan(c, path, row))) <==> Deployable(c.prefixes, path))
      && ExecutorGuardPasses(c, Some(BuildPlan(c, path, row).row))
  {
    hide Normalize, ShellJoin, VllmCommand, TmuxSession, Contains, LastTwo, Split, IsReusable, ChooseRow, MayScan,
      IsFinished;
    ChoiceIsLeast(c, rows, required, excluded);
    var row := ChooseRow(c, rows, required, excluded).value;
    ReusableIff(c, row);
    var path := Normalize(c.prefixes, raw).(modelId := modelId);
    WorkerPathUnderPrefix(c.prefixes, raw);
    SessionNamesWorker(row.ip, row.gpuCount);
    SessionNotEmpty(row.ip, row.gpuCount);
    var tool := if row.toolParser != "" then row.toolParser else c.defaultToolParser;
    var reasoning := if row.reasoningParser != "" then row.reasoningParser else c.defaultReasoningParser;
    CommandNamesCards(c, path, row.gpuCount, tool, reasoning);
  }

  lemma SessionNotEmpty(ip: string, gpus: nat)
    ensures TmuxSession(ip, gpus) != ""
  {
  }

  /** What an approval takes: the plan's row, or without one the selected row, on a known worker and free to use; the
      plan's path, or without one the context's, under the worker prefix; a command for the row's number of cards; and a
      session named after the last two numbers of the worker's address. */
  ghost predicate MayApprove(c: Config, p: Payload, row: Row, path: PathInfo) {
    && p.reuseStage
    && row.ip != "" && row.gpuCount > 0 && MayScan(c, row) && IsFinished(c, row)
    && path.workerPath != "" && c.prefixes.Worker() + "/" <= path.workerPath
    && p.command != "" && p.session != ""
    && (exists a, b :: p.command == a + ("--data-parallel-size " + Decimal(row.gpuCount)) + b)
    && (exists a, b :: p.session == a + LastTwo(Split(row.ip, '.')) + b)
  }

  lemma PolicyIff(c: Config, p: Payload)
    ensures PolicyApproves(c, p) <==>
      && (p.planRow.Some? || p.selectedRow.Some?) && (p.planPath.Some? || p.contextPath.Some?)
      && MayApprove(c, p, if p.planRow.Some? then p.planRow.value else p.selectedRow.value,
                          if p.planPath.Some? then p.planPath.value else p.contextPath.value)
  {
    hide IsReusable, MayScan, IsFinished, Contains, Split, LastTwo, Decimal;
    if (p.planRow.Some? || p.selectedRow.Some?) && (p.planPath.Some? || p.contextPath.Some?) {
      var row := if p.planRow.Some? then p.planRow.value else p.selectedRow.value;
      ReusableIff(c, row);
      ContainsIff(p.command, "--data-parallel-size " + Decimal(row.gpuCount));
      ContainsIff(p.session, LastTwo(Split(row.ip, '.')));
      assert DATA_PARALLEL + " " + Decimal(row.gpuCount) == "--data-parallel-size " + Decimal(row.gpuCount);
    }
  }

  lemma ContainsIff(s: string, sub: string)
    ensures Contains(s, sub) <==> exists a, b :: s == a + sub + b
  {
    if Contains(s, sub) {
      ContainedIsMiddle(s, sub);
    }
    forall a, b | s == a + sub + b ensures Contains(s, sub) {
      ContainsMiddle(a, sub, b);
    }
  }

  lemma LastTwoOf(before: seq<string>, x: string, y: string)
    ensures LastTwo(before + [x, y]) == x + "_" + y && LastTwo([x]) == x
  {
  }

  /** The guard asks of the plan's row what the choice asked. */
  lemma GuardIff(c: Config, row: Row)
    ensures ExecutorGuardPasses(c, Some(row)) <==> MayScan(c, row) && IsFinished(c, row)
  {
    hide IsReusable, MayScan, IsFinished;
    ReusableIff(c, row);
  }

  /** What the policy approves passes the executor's guard exactly if the plan has a row or blank text carries no
      marker: without a row in the plan the policy judged the selected row, and the guard reads an empty one. */
  lemma ApprovalPassesGuard(c: Config, p: Payload)
    requires PolicyApproves(c, p)
    ensures ExecutorGuardPasses(c, p.planRow) <==>
      p.planRow.Some? || (!c.reader.running("") && !c.reader.blocked(""))
  {
    hide IsReusable, Contains, Split, LastTwo;
    assert Strip("") == "";
  }
}
