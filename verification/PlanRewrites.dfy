/** The in-place rewrites of a deployment plan during execution (src/fmh/reusable_executor.py). */
module PlanRewrites {
  import opened Text
  import opened Paths
  import opened Placement
  import opened Wrappers

  const MODEL_FLAG := "--model"

  /** The token after the first `flag` that has one. */
  function TokenAfter(command: seq<string>, flag: string): Option<string> {
    if |command| < 2 then None
    else if command[0] == flag then Some(command[1])
    else TokenAfter(command[1..], flag)
  }

  function ReplaceAfter(command: seq<string>, flag: string, value: string): seq<string> {
    if |command| < 2 then command
    else if command[0] == flag then [flag, value] + command[2..]
    else [command[0]] + ReplaceAfter(command[1..], flag, value)
  }

  /** The replacement loop over the split command. Without the flag the source falls back to a textual
      replacement, which is left out. */
  method ReplaceModelArg(command: seq<string>, newPath: string) returns (replaced: seq<string>, found: bool)
    ensures replaced == ReplaceAfter(command, MODEL_FLAG, newPath)
    ensures found <==> TokenAfter(command, MODEL_FLAG).Some?
  {
    hide TokenAfter, ReplaceAfter;
    replaced, found := command, false;
    var index := 0;
    while index + 1 < |command|
      invariant 0 <= index <= |command|
      invariant MODEL_FLAG !in command[..index]
      invariant index < |command| || command == []
    {
      if command[index] == MODEL_FLAG {
        SplitAt(command, index, newPath);
        return command[index + 1 := newPath], true;
      }
      index := index + 1;
    }
    NoFlag(command, newPath);
  }

  lemma SplitAt(command: seq<string>, index: nat, value: string)
    requires index + 1 < |command| && command[index] == MODEL_FLAG && MODEL_FLAG !in command[..index]
    ensures ReplaceAfter(command, MODEL_FLAG, value) == command[index + 1 := value]
    ensures TokenAfter(command, MODEL_FLAG) == Some(command[index + 1])
  {
    hide TokenAfter, ReplaceAfter;
    var before, after := command[..index], command[index..];
    assert command == before + after;
    SkipTokens(before, after, MODEL_FLAG);
    KeepTokens(before, after, MODEL_FLAG, value);
    AtFlag(after, value);
  }

  lemma AtFlag(command: seq<string>, value: string)
    requires |command| >= 2 && command[0] == MODEL_FLAG
    ensures ReplaceAfter(command, MODEL_FLAG, value) == command[1 := value]
    ensures TokenAfter(command, MODEL_FLAG) == Some(command[1])
  {
  }

  lemma NoFlag(command: seq<string>, value: string)
    requires command == [] || MODEL_FLAG !in command[..|command| - 1]
    ensures ReplaceAfter(command, MODEL_FLAG, value) == command && TokenAfter(command, MODEL_FLAG).None?
  {
    if command != [] {
      var before, after := command[..|command| - 1], command[|command| - 1..];
      assert command == before + after;
      SkipTokens(before, after, MODEL_FLAG);
      KeepTokens(before, after, MODEL_FLAG, value);
    }
  }

  /** How every command starts: it serves `modelId` from `workerPath`. */
  function LaunchPrefix(path: PathInfo): seq<string> {
    ["python3", "-m", "vllm.entrypoints.openai.api_server", "--served-model-name", path.modelId,
     MODEL_FLAG, path.workerPath]
  }

  ghost predicate IsText(s: string) { s != "" && Strip(s) == s }

  /** All parts of a plan speak of the same model at the same path. */
  ghost predicate Coherent(c: Config, plan: Plan) {
    && LaunchPrefix(plan.path) <= plan.command
    && TokenAfter(plan.command, MODEL_FLAG) == Some(plan.path.workerPath)
    && plan.path.tablePath == TablePath(c.prefixes, plan.path.workerPath)
    && ValuesMatch(c, plan)
  }

  ghost predicate ValuesMatch(c: Config, plan: Plan) {
    && COL_MODEL in plan.finalValues && plan.finalValues[COL_MODEL] == plan.path.tablePath
    && COL_MODEL_ID in plan.finalValues && plan.finalValues[COL_MODEL_ID] == plan.path.modelId
    && plan.deployingValues.Keys == {COL_MODEL, COL_MODEL_ID, COL_TESTED, COL_REUSE}
    && plan.deployingValues[COL_MODEL] == plan.path.tablePath + c.deployingMarker
    && plan.deployingValues[COL_MODEL_ID] == plan.path.modelId + c.deployingMarker
    && plan.deployingValues[COL_TESTED] == ""
  }

  // ---------------------------------------------------------------- the rewrites

  function SetRow(plan: Plan, row: Row): Plan { plan.(row := row) }

  /** The path a plan is rebuilt from. Missing parts are derived from the worker path. */
  function RebuildPath(path: PathInfo): PathInfo {
    var worker := Strip(path.workerPath);
    PathInfo(
      if path.originalPath != "" then path.originalPath else worker,
      worker,
      if path.tablePath != "" then path.tablePath else TrimLeft(worker, IsSlash),
      Strip(path.modelId))
  }

  /** Rebuild on another row; keys the rebuilt plan does not have are kept. */
  function SwapRow(c: Config, plan: Plan, row: Row): Plan {
    BuildPlan(c, RebuildPath(plan.path), row).(extra := plan.extra)
  }

  function MovePath(c: Config, plan: Plan, resolved: string): Plan {
    var table := TablePath(c.prefixes, resolved);
    var modelId := Strip(plan.path.modelId);
    plan.(
      path := plan.path.(workerPath := resolved, tablePath := table),
      command := ReplaceAfter(plan.command, MODEL_FLAG, resolved),
      finalValues := plan.finalValues[COL_MODEL := table][COL_MODEL_ID := modelId],
      deployingValues :=
        plan.deployingValues[COL_MODEL := table + c.deployingMarker][COL_MODEL_ID := modelId + c.deployingMarker])
  }

  datatype Rewrite = ToRow(row: Row) | ToOtherRow(row: Row) | ToPath(resolved: string)

  function Rewritten(c: Config, plan: Plan, r: Rewrite): Plan {
    match r
    case ToRow(row) => SetRow(plan, row)
    case ToOtherRow(row) => SwapRow(c, plan, row)
    case ToPath(resolved) => MovePath(c, plan, resolved)
  }

  function RewrittenAll(c: Config, plan: Plan, rs: seq<Rewrite>): Plan
    decreases |rs|
  {
    if rs == [] then plan else RewrittenAll(c, Rewritten(c, plan, rs[0]), rs[1..])
  }

  // ---------------------------------------------------------------- coherence

  lemma {:induction false} SkipTokens(before: seq<string>, after: seq<string>, flag: string)
    requires flag !in before && |after| >= 1
    ensures TokenAfter(before + after, flag) == TokenAfter(after, flag)
  {
    if before == [] {
      assert before + after == after;
    } else {
      assert (before + after)[1..] == before[1..] + after;
      SkipTokens(before[1..], after, flag);
    }
  }

  lemma {:induction false} KeepTokens(before: seq<string>, after: seq<string>, flag: string, value: string)
    requires flag !in before && |after| >= 1
    ensures ReplaceAfter(before + after, flag, value) == before + ReplaceAfter(after, flag, value)
  {
    if before == [] {
      assert before + after == after;
    } else {
      assert (before + after)[1..] == before[1..] + after;
      KeepTokens(before[1..], after, flag, value);
      assert before == [before[0]] + before[1..];
    }
  }

  /** Unless the model id is itself the flag, the flag of a launch command is the intended one. */
  lemma LaunchFlag(path: PathInfo, command: seq<string>, value: string)
    requires LaunchPrefix(path) <= command && path.modelId != MODEL_FLAG
    ensures TokenAfter(command, MODEL_FLAG) == Some(path.workerPath)
    ensures ReplaceAfter(command, MODEL_FLAG, value) == LaunchPrefix(path.(workerPath := value)) + command[7..]
  {
    var before, after := command[..5], command[5..];
    assert before == LaunchPrefix(path)[..5];
    assert command[5] == LaunchPrefix(path)[5] && command[6] == LaunchPrefix(path)[6];
    assert command == before + after;
    SkipTokens(before, after, MODEL_FLAG);
    KeepTokens(before, after, MODEL_FLAG, value);
    assert after[2..] == command[7..];
  }

  lemma FlagAsModelId(path: PathInfo, command: seq<string>)
    requires LaunchPrefix(path) <= command && path.modelId == MODEL_FLAG
    ensures TokenAfter(command, MODEL_FLAG) == Some(MODEL_FLAG)
  {
    var before, after := command[..4], command[4..];
    assert before == LaunchPrefix(path)[..4];
    assert command[4] == LaunchPrefix(path)[4] && command[5] == LaunchPrefix(path)[5];
    assert command == before + after;
    SkipTokens(before, after, MODEL_FLAG);
  }

  /** A plan built from a path whose table path follows the rule is coherent exactly when its model id is not
      the flag itself. */
  lemma BuiltIsCoherent(c: Config, path: PathInfo, row: Row)
    requires path.tablePath == TablePath(c.prefixes, path.workerPath) && path.workerPath != MODEL_FLAG
    ensures Coherent(c, BuildPlan(c, path, row)) <==> path.modelId != MODEL_FLAG
  {
    hide TmuxSession, TablePath, Strip, Decimal;
    var plan := BuildPlan(c, path, row);
    BuiltStartsAsLaunch(c, path, row);
    BuiltValuesMatch(c, path, row);
    if path.modelId != MODEL_FLAG {
      LaunchFlag(path, plan.command, "");
    } else {
      FlagAsModelId(path, plan.command);
    }
  }

  lemma BuiltStartsAsLaunch(c: Config, path: PathInfo, row: Row)
    ensures LaunchPrefix(path) <= BuildPlan(c, path, row).command
  {
    hide TmuxSession, Strip, Decimal;
  }

  lemma BuiltValuesMatch(c: Config, path: PathInfo, row: Row)
    ensures ValuesMatch(c, BuildPlan(c, path, row))
  {
    hide TmuxSession, VllmCommand, Strip;
    ColumnsDiffer();
  }

  lemma ColumnsDiffer()
    ensures COL_MODEL !in {COL_MODEL_ID, COL_ADDRESS, COL_TOOL_PARSER, COL_REASONING_PARSER, COL_TESTED, COL_REUSE}
    ensures COL_MODEL_ID !in {COL_ADDRESS, COL_TOOL_PARSER, COL_REASONING_PARSER, COL_TESTED, COL_REUSE}
  {
    assert |COL_MODEL| == 2 && |COL_MODEL_ID| == 4 && |COL_ADDRESS| == 2 && |COL_TESTED| == 8 && |COL_REUSE| == 2;
    assert COL_MODEL[0] == '模' && COL_ADDRESS[0] == '地' && COL_REUSE[0] == '复';
  }

  /** A path as the directory probe resolves it: text below the table prefix, and not the flag itself. */
  ghost predicate ProperPath(c: Config, resolved: string) {
    IsText(resolved) && resolved != MODEL_FLAG && TablePath(c.prefixes, resolved) != ""
  }

  ghost predicate WellSpelled(c: Config, plan: Plan) {
    ProperPath(c, plan.path.workerPath) && IsText(plan.path.modelId) && plan.path.modelId != MODEL_FLAG
  }

  lemma RewriteKeepsCoherence(c: Config, plan: Plan, r: Rewrite)
    requires Coherent(c, plan) && WellSpelled(c, plan) && (r.ToPath? ==> ProperPath(c, r.resolved))
    ensures Coherent(c, Rewritten(c, plan, r)) && WellSpelled(c, Rewritten(c, plan, r))
    ensures Rewritten(c, plan, r).path.modelId == plan.path.modelId
    ensures Rewritten(c, plan, r).extra == plan.extra
  {
    hide TablePath, Strip, BuildPlan, TokenAfter, ReplaceAfter;
    match r {
      case ToRow(row) =>
      case ToOtherRow(row) =>
        BuiltFrom(c, RebuildPath(plan.path), row);
        BuiltIsCoherent(c, RebuildPath(plan.path), row);
      case ToPath(resolved) =>
        LaunchFlag(plan.path, plan.command, resolved);
        var moved := MovePath(c, plan, resolved);
        LaunchFlag(moved.path, moved.command, "");
        ColumnsDiffer();
    }
  }

  /** Another row gives another session, command and final values; another path changes none of them but the model. */
  lemma RewriteRuns(c: Config, plan: Plan, r: Rewrite)
    ensures var now := Rewritten(c, plan, r);
      && (plan.path.originalPath != "" ==> now.path.originalPath == plan.path.originalPath)
      && (!r.ToOtherRow? ==> now.session == plan.session)
      && (!r.ToPath? ==> now.row == r.row)
      && (r.ToRow? ==> now == plan.(row := r.row))
      && (r.ToPath? ==> now.row == plan.row && now.path.workerPath == r.resolved)
      && (r.ToOtherRow? ==> IsBuiltFor(c, now, r.row))
  {
    hide TablePath, Strip, BuildPlan, ReplaceAfter, RunsOn, IsDone, IsMark;
    if r.ToOtherRow? {
      BuiltPlanSays(c, RebuildPath(plan.path), r.row);
    }
  }

  lemma BuiltFrom(c: Config, path: PathInfo, row: Row)
    ensures BuildPlan(c, path, row).path == path
  {
  }

  /** Rebuilding on another row needs a table path: without one the rebuilt plan falls back to the worker path
      without its leading slashes, which is not what the rule gives. */
  lemma SwapNeedsTablePath(c: Config, plan: Plan, row: Row)
    requires Coherent(c, plan) && IsText(plan.path.workerPath) && IsText(plan.path.modelId)
    requires plan.path.modelId != MODEL_FLAG && plan.path.workerPath != MODEL_FLAG
    ensures Coherent(c, SwapRow(c, plan, row)) <==>
      plan.path.tablePath != "" || TrimLeft(plan.path.workerPath, IsSlash) == ""
  {
    hide TablePath, Strip, BuildPlan, TokenAfter, ReplaceAfter, TrimLeft, LaunchPrefix;
    var path := RebuildPath(plan.path);
    BuiltFrom(c, path, row);
    if path.tablePath == TablePath(c.prefixes, path.workerPath) {
      BuiltIsCoherent(c, path, row);
    }
  }

  /** Coherence, the model id and the extra keys survive every sequence of rewrites. */
  lemma {:induction false} RewritesKeepCoherence(c: Config, plan: Plan, rs: seq<Rewrite>)
    requires Coherent(c, plan) && WellSpelled(c, plan)
    requires forall r :: r in rs && r.ToPath? ==> ProperPath(c, r.resolved)
    ensures var final := RewrittenAll(c, plan, rs);
      Coherent(c, final) && final.path.modelId == plan.path.modelId && final.extra == plan.extra
    decreases |rs|
  {
    hide Coherent, WellSpelled, Rewritten;
    if rs != [] {
      RewriteKeepsCoherence(c, plan, rs[0]);
      RewritesKeepCoherence(c, Rewritten(c, plan, rs[0]), rs[1..]);
    }
  }
}
