/**
 * The pipeline runner of scripts/00_build_solution.py: which numbered steps run, in which order,
 * with which command line, and what exit status the runner ends with.
 */
module BuildSolution {
  import opened Wrappers
  import opened Collections

  /** One entry of the `STEPS` table. */
  datatype StepInfo = StepInfo(script: string, name: string, time: string)

  const Steps: map<string, StepInfo> := map[
    "01" := StepInfo("01_generate_sample_data.py", "Generate Sample Data (Manual)", "~10s"),
    "01a" := StepInfo("01a_generate_sample_data.py", "Generate Sample Data (AI)", "~2min"),
    "02" := StepInfo("02_setup_fabric.py", "Setup Fabric Workspace", "~30s"),
    "03" := StepInfo("03_load_fabric_data.py", "Load Data into Fabric", "~1min"),
    "04" := StepInfo("04_generate_prompt.py", "Generate NL2SQL Prompt", "~5s"),
    "05" := StepInfo("05_create_fabric_agent.py", "Create Fabric Data Agent", "~30s"),
    "06" := StepInfo("06_upload_to_search.py", "Upload to AI Search", "~1min"),
    "07" := StepInfo("07_create_foundry_agent.py", "Create Single-Tool Agent", "~10s"),
    "07a" := StepInfo("07a_create_foundry_agent.py", "Create Multi-Tool Agent", "~10s"),
    "08" := StepInfo("08_test_foundry_agent.py", "Test Single-Tool Agent", "interactive"),
    "08a" := StepInfo("08a_test_multi_tool_agent.py", "Test Multi-Tool Agent", "interactive")
  ]

  const DefaultPipeline: seq<string> := ["01", "02", "03", "04", "05", "06", "07a"]
  const AiPipeline: seq<string> := ["01a", "02", "03", "04", "05", "06", "07a"]

  /** The steps each skip flag removes. */
  const FabricSteps: set<string> := {"02", "03"}
  const SearchSteps: set<string> := {"06"}
  const AgentSteps: set<string> := {"05", "07", "07a", "08", "08a"}

  /**
   * The parsed command line. `industry`, `usecase` and `size` hold the values the script has
   * settled on by the time steps run (command line, else environment, else terminal input).
   */
  datatype Flags = Flags(
    ai: bool,
    industry: string,
    usecase: string,
    size: string,
    clean: bool,
    fromStep: Option<string>,
    only: Option<seq<string>>,
    skipFabric: bool,
    skipSearch: bool,
    skipAgents: bool,
    dryRun: bool,
    continueOnError: bool)

  /** Why the runner exits with status 1 before running anything. */
  datatype PlanError =
    | StepNotInPipeline(step: string, available: seq<string>)  // `--from` names a step not in the pipeline
    | UnknownStep(step: string)                                 // `STEPS[step]` raises KeyError

  /** `--only` given a non-empty list wins over `--ai`; otherwise `--ai` picks the AI pipeline. */
  function BasePipeline(f: Flags): seq<string>
  {
    if f.only.Some? && f.only.value != [] then f.only.value
    else if f.ai then AiPipeline
    else DefaultPipeline
  }

  lemma BasePipelineChoice(f: Flags)
    ensures f.only.Some? && f.only.value != [] ==>
              BasePipeline(f) == f.only.value && BasePipeline(f.(ai := !f.ai)) == BasePipeline(f)
    ensures (f.only.None? || f.only.value == []) && f.ai ==> BasePipeline(f) == AiPipeline
    ensures (f.only.None? || f.only.value == []) && !f.ai ==> BasePipeline(f) == DefaultPipeline
  {
  }

  /** `list.index`: the position of the first occurrence. */
  function IndexOf(p: seq<string>, s: string): (i: nat)
    requires s in p
    ensures i < |p| && p[i] == s && s !in p[..i]
  {
    if p[0] == s then 0
    else
      var j := IndexOf(p[1..], s);
      assert p[..j + 1] == [p[0]] + p[1..][..j];
      j + 1
  }

  /** The `--from` cut. An empty `--from` value is falsy and leaves the pipeline alone. */
  function ApplyFrom(p: seq<string>, fromStep: Option<string>): (r: Result<seq<string>, PlanError>)
    ensures (fromStep.None? || fromStep.value == "") ==> r == Success(p)
    ensures fromStep.Some? && fromStep.value != "" && fromStep.value !in p ==>
              r == Failure(StepNotInPipeline(fromStep.value, p))
    ensures fromStep.Some? && fromStep.value != "" && fromStep.value in p ==>
              && r.Success? && 0 < |r.value| <= |p|
              && r.value == p[|p| - |r.value|..]
              && r.value[0] == fromStep.value
              && fromStep.value !in p[..|p| - |r.value|]
  {
    if fromStep.None? || fromStep.value == "" then Success(p)
    else if fromStep.value in p then Success(p[IndexOf(p, fromStep.value)..])
    else Failure(StepNotInPipeline(fromStep.value, p))
  }

  /** `[s for s in p if s not in excluded]`. */
  function Without(p: seq<string>, excluded: set<string>): (r: seq<string>)
    ensures forall x :: x in r <==> x in p && x !in excluded
    ensures IsSubsequence(r, p)
  {
    if p == [] then []
    else
      var rest := Without(p[1..], excluded);
      assert p == [p[0]] + p[1..];
      if p[0] in excluded then
        SubsequenceCons(rest, p[0], p[1..]);
        rest
      else
        assert ([p[0]] + rest)[1..] == rest;
        [p[0]] + rest
  }

  /** The three skip filters, applied one after the other as the script does. */
  function ApplySkips(p: seq<string>, f: Flags): seq<string>
  {
    var afterFabric := if f.skipFabric then Without(p, FabricSteps) else p;
    var afterSearch := if f.skipSearch then Without(afterFabric, SearchSteps) else afterFabric;
    if f.skipAgents then Without(afterSearch, AgentSteps) else afterSearch
  }

  /** Every step some set skip flag names. */
  function Skipped(f: Flags): set<string>
  {
    SkipSet(f.skipFabric, FabricSteps) + SkipSet(f.skipSearch, SearchSteps) + SkipSet(f.skipAgents, AgentSteps)
  }

  /** A filter keeps every step it does not exclude as often as the step occurs. */
  lemma {:induction false} WithoutCounts(p: seq<string>, excluded: set<string>, x: string)
    requires x !in excluded
    ensures multiset(Without(p, excluded))[x] == multiset(p)[x]
    decreases |p|
  {
    if p != [] {
      WithoutCounts(p[1..], excluded, x);
      assert p == [p[0]] + p[1..];
      assert multiset(p) == multiset([p[0]]) + multiset(p[1..]);
      if p[0] !in excluded {
        assert multiset([p[0]] + Without(p[1..], excluded)) == multiset([p[0]]) + multiset(Without(p[1..], excluded));
      }
    }
  }

  lemma {:induction false} WithoutTwice(p: seq<string>, a: set<string>, b: set<string>)
    ensures Without(Without(p, a), b) == Without(p, a + b)
    decreases |p|
  {
    if p != [] {
      WithoutTwice(p[1..], a, b);
      var rest := Without(p[1..], a);
      if p[0] !in a {
        assert ([p[0]] + rest)[1..] == rest;
      }
    }
  }

  lemma {:induction false} WithoutNothing(p: seq<string>)
    ensures Without(p, {}) == p
    decreases |p|
  {
    if p != [] {
      WithoutNothing(p[1..]);
      assert p == [p[0]] + p[1..];
    }
  }

  /** One optional filter is a filter by the set, or by nothing. */
  function SkipSet(on: bool, steps: set<string>): set<string>
  {
    if on then steps else {}
  }

  lemma OptionalFilter(p: seq<string>, on: bool, steps: set<string>)
    ensures (if on then Without(p, steps) else p) == Without(p, SkipSet(on, steps))
  {
    if !on {
      WithoutNothing(p);
    }
  }

  /** The three filters, one after the other, are one filter by the union of the skipped sets. */
  lemma SkipsAsOneFilter(p: seq<string>, f: Flags)
    ensures ApplySkips(p, f) == Without(p, Skipped(f))
  {
    var a := SkipSet(f.skipFabric, FabricSteps);
    var b := SkipSet(f.skipSearch, SearchSteps);
    var c := SkipSet(f.skipAgents, AgentSteps);
    var p1 := if f.skipFabric then Without(p, FabricSteps) else p;
    var p2 := if f.skipSearch then Without(p1, SearchSteps) else p1;
    OptionalFilter(p, f.skipFabric, FabricSteps);
    OptionalFilter(p1, f.skipSearch, SearchSteps);
    OptionalFilter(p2, f.skipAgents, AgentSteps);
    WithoutTwice(p, a, b);
    WithoutTwice(p, a + b, c);
    assert Skipped(f) == a + b + c;
  }

  /**
   * The skip filters keep the input's order, drop exactly the steps the set flags name, and keep
   * every other step as often as it occurs.
   */
  lemma SkipFilters(p: seq<string>, f: Flags)
    ensures IsSubsequence(ApplySkips(p, f), p)
    ensures f.skipFabric ==> "02" !in ApplySkips(p, f) && "03" !in ApplySkips(p, f)
    ensures f.skipSearch ==> "06" !in ApplySkips(p, f)
    ensures f.skipAgents ==> forall s :: s in AgentSteps ==> s !in ApplySkips(p, f)
    ensures forall s :: s in ApplySkips(p, f) <==> s in p && s !in Skipped(f)
    ensures forall s :: s !in Skipped(f) ==> multiset(ApplySkips(p, f))[s] == multiset(p)[s]
  {
    SkipsAsOneFilter(p, f);
    forall s | s !in Skipped(f)
      ensures multiset(ApplySkips(p, f))[s] == multiset(p)[s]
    {
      WithoutCounts(p, Skipped(f), s);
    }
  }

  /** The check at lines 143-146 looks every step up in `STEPS`; the first unknown one raises. */
  function Validate(p: seq<string>): (r: Result<seq<string>, PlanError>)
    ensures r.Success? <==> forall s :: s in p ==> s in Steps
    ensures r.Success? ==> r.value == p
    ensures r.Failure? ==>
              && r.error.UnknownStep? && r.error.step in p && r.error.step !in Steps
              && forall s :: s in p[..IndexOf(p, r.error.step)] ==> s in Steps
  {
    if p == [] then Success(p)
    else if p[0] !in Steps then Failure(UnknownStep(p[0]))
    else
      match Validate(p[1..])
      case Success(_) =>
        assert forall s :: s in p ==> s == p[0] || s in p[1..];
        Success(p)
      case Failure(e) =>
        assert IndexOf(p, e.step) == IndexOf(p[1..], e.step) + 1;
        assert p[..IndexOf(p, e.step)] == [p[0]] + p[1..][..IndexOf(p[1..], e.step)];
        Failure(e)
  }

  /** Lines 113-146: the steps that will run, or why the runner stops first. */
  function Plan(f: Flags): Result<seq<string>, PlanError>
  {
    match ApplyFrom(BasePipeline(f), f.fromStep)
    case Failure(e) => Failure(e)
    case Success(p) => Validate(ApplySkips(p, f))
  }

  /**
   * A planned pipeline keeps the base pipeline's order, holds only known steps, holds none that
   * a skip flag removes, and starts after the `--from` cut.
   */
  lemma PlanShape(f: Flags)
    requires Plan(f).Success?
    ensures IsSubsequence(Plan(f).value, BasePipeline(f))
    ensures forall s :: s in Plan(f).value ==> s in Steps && s !in Skipped(f)
    ensures f.fromStep.Some? && f.fromStep.value != "" ==>
              f.fromStep.value in BasePipeline(f)
              && IsSubsequence(Plan(f).value, BasePipeline(f)[IndexOf(BasePipeline(f), f.fromStep.value)..])
  {
    var base := BasePipeline(f);
    var cut := ApplyFrom(base, f.fromStep).value;
    SkipFilters(cut, f);
    SubsequenceOfExtension(ApplySkips(cut, f), base, |base| - |cut|);
  }

  /** What the environment answers when a step runs: whether its script file exists, and the exit code. */
  datatype StepEnv = StepEnv(scriptExists: bool, exitCode: int)

  /** `run_step`'s verdict: a missing script counts as a success, otherwise the exit code must be 0. */
  predicate StepSucceeded(e: StepEnv)
  {
    !e.scriptExists || e.exitCode == 0
  }

  function ScriptPath(scriptDir: string, stepId: string): string
    requires stepId in Steps
  {
    scriptDir + "/" + Steps[stepId].script
  }

  /**
   * `run_step`: builds the command line and reports success. `launched` is the command handed to
   * the subprocess, or None when the script is missing and nothing is launched.
   */
  method RunStep(stepId: string, f: Flags, python: string, scriptDir: string, env: StepEnv)
    returns (success: bool, launched: Option<seq<string>>)
    requires stepId in Steps
    ensures !env.scriptExists ==> success && launched.None?
    ensures env.scriptExists ==> launched.Some? && (success <==> env.exitCode == 0)
    ensures launched.Some? ==> |launched.value| >= 2 && launched.value[..2] == [python, ScriptPath(scriptDir, stepId)]
    ensures launched.Some? && stepId == "01a" && f.ai ==>
              launched.value[2..] == ["--industry", f.industry, "--usecase", f.usecase, "--size", f.size]
    ensures launched.Some? && stepId == "02" && f.clean ==> launched.value[2..] == ["--clean"]
    ensures launched.Some? && !(stepId == "01a" && f.ai) && !(stepId == "02" && f.clean) ==> |launched.value| == 2
  {
    if !env.scriptExists {
      return true, None;
    }
    var cmd := [python, ScriptPath(scriptDir, stepId)];
    if stepId == "01a" && f.ai {
      cmd := cmd + ["--industry", f.industry];
      cmd := cmd + ["--usecase", f.usecase];
      cmd := cmd + ["--size", f.size];
    }
    if stepId == "02" && f.clean {
      cmd := cmd + ["--clean"];
    }
    launched := Some(cmd);
    success := env.exitCode == 0;
  }

  /** The position of the last occurrence of `s` in `p`. */
  function LastIndex(p: seq<string>, s: string): (i: nat)
    requires s in p
    ensures i < |p| && p[i] == s && s !in p[i + 1..]
  {
    if p[|p| - 1] == s then |p| - 1
    else
      var i := LastIndex(p[..|p| - 1], s);
      assert p[i + 1..] == p[..|p| - 1][i + 1..] + [p[|p| - 1]];
      i
  }

  /**
   * `results` records exactly the steps in `executed`, each with the outcome of its latest run
   * (a later run of the same step overwrites the dictionary entry).
   */
  ghost predicate Recorded(results: map<string, bool>, executed: seq<string>, world: nat -> StepEnv)
  {
    && (forall s :: s in results <==> s in executed)
    && (forall s :: s in executed ==> results[s] == StepSucceeded(world(LastIndex(executed, s))))
  }

  lemma RecordOneMore(results: map<string, bool>, executed: seq<string>, world: nat -> StepEnv, step: string)
    requires Recorded(results, executed, world)
    ensures Recorded(results[step := StepSucceeded(world(|executed|))], executed + [step], world)
  {
    var r := results[step := StepSucceeded(world(|executed|))];
    var e := executed + [step];
    assert e[..|e| - 1] == executed;
    forall s | s in e
      ensures r[s] == StepSucceeded(world(LastIndex(e, s)))
    {
      if s != step {
        assert s in executed;
        assert LastIndex(e, s) == LastIndex(executed, s);
      }
    }
  }

  /** The first `n` runs all succeeded. */
  ghost predicate AllSucceeded(world: nat -> StepEnv, n: int)
  {
    forall j :: 0 <= j < n ==> StepSucceeded(world(j))
  }

  /** Some run among the first `n` failed. */
  ghost predicate SomeFailed(world: nat -> StepEnv, n: int)
  {
    exists j :: 0 <= j < n && !StepSucceeded(world(j))
  }

  /** The state of the run loop after it has run the first `i` steps without being stopped. */
  ghost predicate Progress(pipeline: seq<string>, f: Flags, world: nat -> StepEnv,
                           results: map<string, bool>, failed: bool, executed: seq<string>)
  {
    && |executed| <= |pipeline| && executed == pipeline[..|executed|]
    && (!f.continueOnError ==> AllSucceeded(world, |executed|))
    && (failed <==> SomeFailed(world, |executed|))
    && Recorded(results, executed, world)
    && (!f.continueOnError ==> forall s :: s in results ==> results[s])
  }

  /** What `RunPipeline` promises about the state it leaves. */
  ghost predicate Finished(pipeline: seq<string>, f: Flags, world: nat -> StepEnv,
                           results: map<string, bool>, failed: bool, executed: seq<string>)
  {
    && |executed| <= |pipeline| && executed == pipeline[..|executed|]
    && (f.continueOnError ==> executed == pipeline)
    && (!f.continueOnError ==> AllSucceeded(world, |executed| - 1))
    && (!f.continueOnError && |executed| < |pipeline| ==> executed != [] && !StepSucceeded(world(|executed| - 1)))
    && (failed <==> SomeFailed(world, |executed|))
    && Recorded(results, executed, world)
    && (!f.continueOnError && failed ==>
          executed != [] && forall s :: s in results && s != executed[|executed| - 1] ==> results[s])
  }

  /** A step that succeeded, or any step under `--continue-on-error`: the loop carries on. */
  lemma ProgressContinues(pipeline: seq<string>, f: Flags, world: nat -> StepEnv,
                          results: map<string, bool>, failed: bool, executed: seq<string>)
    requires Progress(pipeline, f, world, results, failed, executed) && |executed| < |pipeline|
    requires StepSucceeded(world(|executed|)) || f.continueOnError
    ensures var n := |executed|;
            Progress(pipeline, f, world, results[pipeline[n] := StepSucceeded(world(n))],
                     failed || !StepSucceeded(world(n)), executed + [pipeline[n]])
  {
    var n := |executed|;
    var ok := StepSucceeded(world(n));
    var results' := results[pipeline[n] := ok];
    var executed' := executed + [pipeline[n]];
    RecordOneMore(results, executed, world, pipeline[n]);
    assert executed' == pipeline[..n + 1];
    SomeFailedMore(world, n);
    if !f.continueOnError {
      AllSucceededMore(world, n);
      assert forall s :: s in results' ==> results'[s];
    }
  }

  /** A step that failed without `--continue-on-error`: the loop stops there. */
  lemma ProgressStops(pipeline: seq<string>, f: Flags, world: nat -> StepEnv,
                      results: map<string, bool>, failed: bool, executed: seq<string>)
    requires Progress(pipeline, f, world, results, failed, executed) && |executed| < |pipeline|
    requires !StepSucceeded(world(|executed|)) && !f.continueOnError
    ensures var n := |executed|;
            Finished(pipeline, f, world, results[pipeline[n] := false], true, executed + [pipeline[n]])
  {
    var n := |executed|;
    var results' := results[pipeline[n] := false];
    var executed' := executed + [pipeline[n]];
    RecordOneMore(results, executed, world, pipeline[n]);
    assert executed' == pipeline[..n + 1];
    SomeFailedMore(world, n);
    assert executed'[|executed'| - 1] == pipeline[n];
    assert forall s :: s in results' && s != pipeline[n] ==> results'[s];
  }

  lemma AllSucceededMore(world: nat -> StepEnv, n: nat)
    requires AllSucceeded(world, n) && StepSucceeded(world(n))
    ensures AllSucceeded(world, n + 1)
  {
  }

  lemma SomeFailedMore(world: nat -> StepEnv, n: nat)
    ensures SomeFailed(world, n + 1) <==> SomeFailed(world, n) || !StepSucceeded(world(n))
  {
    if !StepSucceeded(world(n)) {
      assert 0 <= n < n + 1 && !StepSucceeded(world(n));
    }
    if SomeFailed(world, n + 1) {
      var j :| 0 <= j < n + 1 && !StepSucceeded(world(j));
      if j < n {
        assert 0 <= j < n && !StepSucceeded(world(j));
      }
    }
  }

  /** Running out of steps finishes the loop. */
  lemma RanAll(pipeline: seq<string>, f: Flags, world: nat -> StepEnv,
               results: map<string, bool>, failed: bool, executed: seq<string>)
    requires Progress(pipeline, f, world, results, failed, executed) && |executed| == |pipeline|
    ensures Finished(pipeline, f, world, results, failed, executed)
  {
    assert pipeline[..|pipeline|] == pipeline;
  }

  /**
   * The run loop (lines 266-277). `world(i)` is what the environment answers for the i-th step
   * run. `executed` lists the steps run, in order; `results` is the script's dictionary.
   */
  method RunPipeline(pipeline: seq<string>, f: Flags, python: string, scriptDir: string, world: nat -> StepEnv)
    returns (results: map<string, bool>, failed: bool, executed: seq<string>)
    requires forall s :: s in pipeline ==> s in Steps
    ensures |executed| <= |pipeline| && executed == pipeline[..|executed|]
    ensures f.continueOnError ==> executed == pipeline
    ensures !f.continueOnError ==> AllSucceeded(world, |executed| - 1)
    ensures !f.continueOnError && |executed| < |pipeline| ==> executed != [] && !StepSucceeded(world(|executed| - 1))
    ensures failed <==> SomeFailed(world, |executed|)
    ensures Recorded(results, executed, world)
    ensures !f.continueOnError && failed ==>
              executed != [] && forall s :: s in results && s != executed[|executed| - 1] ==> results[s]
  {
    results, failed, executed := map[], false, [];
    var i := 0;
    while i < |pipeline|
      invariant i == |executed| && Progress(pipeline, f, world, results, failed, executed)
    {
      var step := pipeline[i];
      var success, _ := RunStep(step, f, python, scriptDir, world(i));
      assert success == StepSucceeded(world(i));
      if success || f.continueOnError {
        ProgressContinues(pipeline, f, world, results, failed, executed);
      } else {
        ProgressStops(pipeline, f, world, results, failed, executed);
      }
      results := results[step := success];
      executed := executed + [step];
      i := i + 1;
      if !success {
        failed := true;
        if !f.continueOnError {
          return;  // the script's `break`: nothing else happens in the loop's scope
        }
      }
    }
    RanAll(pipeline, f, world, results, failed, executed);
  }

  /** `sys.exit(1)` when a step failed, normal exit (status 0) otherwise. */
  function ExitStatus(failed: bool): int
  {
    if failed then 1 else 0
  }

  /** The whole runner: plan, stop early on a plan error or `--dry-run`, otherwise run the steps. */
  method Run(f: Flags, python: string, scriptDir: string, world: nat -> StepEnv)
    returns (status: int, executed: seq<string>)
    ensures Plan(f).Failure? ==> status == 1 && executed == []
    ensures Plan(f).Success? && f.dryRun ==> status == 0 && executed == []
    ensures Plan(f).Success? && !f.dryRun ==>
              && |executed| <= |Plan(f).value| && executed == Plan(f).value[..|executed|]
              && (f.continueOnError ==> executed == Plan(f).value)
              && (!f.continueOnError ==> AllSucceeded(world, |executed| - 1))
              && (!f.continueOnError && |executed| < |Plan(f).value| ==>
                    executed != [] && !StepSucceeded(world(|executed| - 1)))
              && (status == 1 <==> exists i :: 0 <= i < |executed| && !StepSucceeded(world(i)))
              && (status == 0 <==> forall i :: 0 <= i < |executed| ==> StepSucceeded(world(i)))
  {
    var plan := Plan(f);
    if plan.Failure? {
      return 1, [];
    }
    if f.dryRun {
      return 0, [];
    }
    assert Validate(plan.value).Success?;
    var results, failed;
    results, failed, executed := RunPipeline(plan.value, f, python, scriptDir, world);
    status := ExitStatus(failed);
  }

  /**
   * A step listed twice keeps only its last outcome in `results`, so `results` can show only
   * successes while the runner still exits with status 1.
   */
  method RepeatedStepKeepsLastOutcome(f: Flags, python: string, scriptDir: string)
    returns (results: map<string, bool>, failed: bool)
    requires f.continueOnError
    ensures results == map["02" := true] && failed && ExitStatus(failed) == 1
  {
    var world := (i: nat) => if i == 0 then StepEnv(true, 1) else StepEnv(true, 0);
    var executed;
    results, failed, executed := RunPipeline(["02", "02"], f, python, scriptDir, world);
    assert executed == ["02", "02"] && executed[1] !in executed[2..];
    assert !StepSucceeded(world(0));
  }
}
