/**
 Validating a judging task, laying out its cases on disk and executing it stage by
 stage: the code finds each case by parsing a stage name and compares files. It is
 proved to judge every testcase on its own input, output and expected answer.
 */
module Execution {
  import opened Prelude
  import opened Decimal
  import Judge
  import Text
  import opened WorkerLoop

  datatype Error = Internal | Stage(message: string) | BadRequest(reason: Reason)

  datatype Reason =
    EmptySource | ZeroTimeLimit | ZeroMemoryLimit | NoTestcases | DuplicateCase(caseNo: u32) | NoSignature | WasmSpj

  datatype Testcase = Testcase(caseNo: u32, input: string, expected: string, score: u32)

  datatype JudgeMode = Acm | Functional

  datatype Sandbox = Nsjail | Wasm | NsjailWasm

  datatype OjTask = OjTask(
    sourceCode: string, timeLimitMs: nat, memoryLimitKb: nat, judgeMode: JudgeMode, sandbox: Sandbox,
    testcases: seq<Testcase>, judgeConfig: Option<Judge.JudgeConfig>, hasSignature: bool)

  // ---------- validation ----------

  ghost predicate UniqueCases(testcases: seq<Testcase>) {
    forall i, j :: 0 <= i < j < |testcases| ==> testcases[i].caseNo != testcases[j].caseNo
  }

  predicate IsSpj(config: Option<Judge.JudgeConfig>) {
    config.Some? && config.value.judgeMethod.Spj?
  }

  ghost predicate ValidTask(task: OjTask) {
    && !Text.Blank(task.sourceCode) && task.timeLimitMs > 0 && task.memoryLimitKb > 0
    && task.testcases != [] && UniqueCases(task.testcases)
    && (task.judgeMode.Functional? ==> task.judgeConfig.Some? && task.hasSignature)
    && (!task.sandbox.Nsjail? ==> !IsSpj(task.judgeConfig))
  }

  /** `n` is the number of the first testcase that repeats an earlier one. */
  ghost predicate FirstRepeat(testcases: seq<Testcase>, n: u32) {
    exists j :: 0 <= j < |testcases| && RepeatsAt(testcases, j, n)
  }

  ghost predicate RepeatsAt(testcases: seq<Testcase>, j: nat, n: u32)
    requires j < |testcases|
  {
    testcases[j].caseNo == n && UniqueCases(testcases[..j]) && exists i :: 0 <= i < j && testcases[i].caseNo == n
  }

  /** The rule this reason reports is broken. */
  ghost predicate Breaks(task: OjTask, reason: Reason) {
    match reason
    case EmptySource => Text.Blank(task.sourceCode)
    case ZeroTimeLimit => task.timeLimitMs == 0
    case ZeroMemoryLimit => task.memoryLimitKb == 0
    case NoTestcases => task.testcases == []
    case DuplicateCase(n) => FirstRepeat(task.testcases, n)
    case NoSignature => task.judgeMode.Functional? && !(task.judgeConfig.Some? && task.hasSignature)
    case WasmSpj => !task.sandbox.Nsjail? && IsSpj(task.judgeConfig)
  }

  /** The order in which broken rules are reported. */
  function Precedence(reason: Reason): nat {
    match reason
    case EmptySource => 0
    case ZeroTimeLimit => 1
    case ZeroMemoryLimit => 2
    case NoTestcases => 3
    case DuplicateCase(_) => 4
    case NoSignature => 5
    case WasmSpj => 6
  }

  method ValidateOjTask(task: OjTask) returns (r: Result<(), Error>)
    ensures r.Ok? <==> ValidTask(task)
    ensures r.Err? ==> r.error.BadRequest? && Breaks(task, r.error.reason)
    ensures r.Err? ==> forall other :: Breaks(task, other) ==> Precedence(other) >= Precedence(r.error.reason)
  {
    if Text.Trim(task.sourceCode) == [] {
      return Err(BadRequest(EmptySource));
    }
    if task.timeLimitMs == 0 {
      return Err(BadRequest(ZeroTimeLimit));
    }
    if task.memoryLimitKb == 0 {
      return Err(BadRequest(ZeroMemoryLimit));
    }
    if task.testcases == [] {
      return Err(BadRequest(NoTestcases));
    }
    var seen: set<u32> := {};
    var i := 0;
    while i < |task.testcases|
      invariant i <= |task.testcases| && UniqueCases(task.testcases[..i])
      invariant forall n :: n in seen <==> exists j :: 0 <= j < i && task.testcases[j].caseNo == n
    {
      var n := task.testcases[i].caseNo;
      if n in seen {
        assert RepeatsAt(task.testcases, i, n);
        return Err(BadRequest(DuplicateCase(n)));
      }
      seen := seen + {n};
      assert task.testcases[..i + 1] == task.testcases[..i] + [task.testcases[i]];
      i := i + 1;
    }
    assert task.testcases[..i] == task.testcases;
    forall n: u32 ensures !FirstRepeat(task.testcases, n) {
    }
    if task.judgeMode.Functional? && !(task.judgeConfig.Some? && task.hasSignature) {
      return Err(BadRequest(NoSignature));
    }
    if !task.sandbox.Nsjail? && IsSpj(task.judgeConfig) {
      return Err(BadRequest(WasmSpj));
    }
    return Ok(());
  }

  // ---------- the prepared layout ----------

  datatype Path = Path(directory: string, name: string)

  /** The text of a file, or `None` when it cannot be read as text. */
  type File = Option<string>

  type Disk = map<Path, File>

  datatype CaseDir = CaseDir(
    caseNo: u32, score: u32, directory: string, inputPath: Path, answerPath: Path, outputPath: Path, stderrPath: Path)

  datatype RunStage = RunStage(stageName: string, score: u32, stdoutPath: Path, stderrPath: Path)

  datatype SpjArtifacts = SpjArtifacts(hasCompileStage: bool)

  datatype Artifacts = Artifacts(
    judgeConfig: Option<Judge.JudgeConfig>, cases: seq<CaseDir>, spj: Option<SpjArtifacts>,
    hasCompileStage: bool, runStages: seq<RunStage>)

  const RUN_CASE := "run_case_"

  function DirectoryOf(caseNo: u32): string {
    "case_" + Padded(caseNo, 3)
  }

  function CaseDirOf(t: Testcase): CaseDir {
    var d := DirectoryOf(t.caseNo);
    CaseDir(t.caseNo, t.score, d,
            Path(d, "input.txt"), Path(d, "answer.txt"), Path(d, "output.txt"), Path(d, "err.txt"))
  }

  function RunStageOf(c: CaseDir): RunStage {
    RunStage(RUN_CASE + Print(c.caseNo), c.score, c.outputPath, c.stderrPath)
  }

  function CaseDirs(testcases: seq<Testcase>): (r: seq<CaseDir>)
    ensures |r| == |testcases| && forall i :: 0 <= i < |r| ==> r[i] == CaseDirOf(testcases[i])
  {
    if testcases == [] then [] else [CaseDirOf(testcases[0])] + CaseDirs(testcases[1..])
  }

  function RunStages(cases: seq<CaseDir>): (r: seq<RunStage>)
    ensures |r| == |cases| && forall i :: 0 <= i < |r| ==> r[i] == RunStageOf(cases[i])
  {
    if cases == [] then [] else [RunStageOf(cases[0])] + RunStages(cases[1..])
  }

  function WriteCase(disk: Disk, t: Testcase): Disk {
    var c := CaseDirOf(t);
    disk[c.inputPath := Some(t.input)][c.answerPath := Some(t.expected)]
        [c.outputPath := Some("")][c.stderrPath := Some("")]
  }

  /** The files of each case, written case after case. */
  function WriteCases(disk: Disk, testcases: seq<Testcase>): Disk
    decreases |testcases|
  {
    if testcases == [] then disk else WriteCases(WriteCase(disk, testcases[0]), testcases[1..])
  }

  function Prepare(task: OjTask, hasCompileStage: bool, spjCompiled: bool): Artifacts {
    var cases := CaseDirs(task.testcases);
    Artifacts(task.judgeConfig, cases, if IsSpj(task.judgeConfig) then Some(SpjArtifacts(spjCompiled)) else None,
              hasCompileStage, RunStages(cases))
  }

  // ---------- stages and their results ----------

  datatype StageStatus = Succeeded | Failed | Skipped

  datatype FailureKind =
    TimeLimitExceeded | MemoryLimitExceeded | OutputLimitExceeded | SecurityViolation | RuntimeError

  datatype StageOutcome = StageOutcome(
    status: StageStatus, exitCode: Option<int>, failureKind: Option<FailureKind>, stderrExcerpt: string)

  datatype CaseStatus =
    | Accepted
    | WrongAnswer
    | CaseTimeLimit
    | CaseMemoryLimit
    | CaseOutputLimit
    | CaseSecurityViolation
    | CaseRuntimeError

  datatype Case = Case(caseNo: u32, score: u32, status: CaseStatus, stderrExcerpt: string)

  datatype Outcome = Outcome(
    compile: Option<StageOutcome>, judgeCompile: Option<StageOutcome>, cases: seq<Case>, finalStatus: LifecycleStatus)

  /** What one run of the program under judgement did: how it ended and what it left in its two files. */
  datatype Run = Run(outcome: StageOutcome, output: File, errors: File)

  /**
   What the processes do, one entry a stage. The special judge sees the input, output
   and answer of a case; starting a process can fail.
   */
  datatype Processes = Processes(
    compile: Result<StageOutcome, Error>,
    judgeCompile: Result<StageOutcome, Error>,
    runs: seq<Result<Run, Error>>,
    spj: (nat, File, File, File) -> Result<StageOutcome, Error>)

  function MapStageFailure(kind: Option<FailureKind>): CaseStatus {
    match if kind.Some? then kind.value else RuntimeError
    case TimeLimitExceeded => CaseTimeLimit
    case MemoryLimitExceeded => CaseMemoryLimit
    case OutputLimitExceeded => CaseOutputLimit
    case SecurityViolation => CaseSecurityViolation
    case RuntimeError => CaseRuntimeError
  }

  function SpjStatus(o: StageOutcome): CaseStatus {
    if o.exitCode == Some(0) then Accepted
    else if o.exitCode == Some(1) then WrongAnswer
    else MapStageFailure(o.failureKind)
  }

  // ---------- judging testcases, without stage names, lookups or files ----------

  ghost function JudgeRun(task: OjTask, i: nat, run: Run, ps: Processes, p: Judge.Platform): Result<CaseStatus, Error>
    requires i < |task.testcases|
  {
    var t := task.testcases[i];
    if !run.outcome.status.Succeeded? then Ok(MapStageFailure(run.outcome.failureKind))
    else if IsSpj(task.judgeConfig) then
      match ps.spj(i, Some(t.input), run.output, Some(t.expected))
      case Err(e) => Err(e)
      case Ok(o) => Ok(SpjStatus(o))
    else
      match run.output
      case None => Err(Internal)
      case Some(output) =>
        var config := Judge.EffectiveConfig(task.judgeConfig);
        Ok(if Judge.Accepts(output, t.expected, config, p) then Accepted else WrongAnswer)
  }

  ghost function JudgeCase(task: OjTask, i: nat, ps: Processes, p: Judge.Platform): Result<Case, Error>
    requires i < |task.testcases| == |ps.runs|
  {
    match ps.runs[i]
    case Err(e) => Err(e)
    case Ok(run) =>
      match JudgeRun(task, i, run, ps, p)
      case Err(e) => Err(e)
      case Ok(status) =>
        Ok(Case(task.testcases[i].caseNo, task.testcases[i].score, status, run.outcome.stderrExcerpt))
  }

  /** Testcases from `i` on, up to and including the first that is not accepted. */
  ghost function JudgeCases(task: OjTask, i: nat, ps: Processes, p: Judge.Platform): Result<seq<Case>, Error>
    requires i <= |task.testcases| == |ps.runs|
    decreases |task.testcases| - i
  {
    if i == |task.testcases| then Ok([])
    else
      match JudgeCase(task, i, ps, p)
      case Err(e) => Err(e)
      case Ok(c) =>
        if !c.status.Accepted? then Ok([c])
        else
          match JudgeCases(task, i + 1, ps, p)
          case Err(e) => Err(e)
          case Ok(rest) => Ok([c] + rest)
  }

  predicate AllAccepted(cases: seq<Case>) {
    forall i :: 0 <= i < |cases| ==> cases[i].status.Accepted?
  }

  function Finish(compile: Option<StageOutcome>, judgeCompile: Option<StageOutcome>,
                  cases: Result<seq<Case>, Error>): Result<Outcome, Error> {
    match cases
    case Err(e) => Err(e)
    case Ok(cs) =>
      Ok(Outcome(compile, judgeCompile, cs,
                 if AllAccepted(cs) then LifecycleStatus.Completed else LifecycleStatus.Failed))
  }

  ghost function JudgeTask(task: OjTask, hasCompileStage: bool, spjCompiled: bool, ps: Processes, p: Judge.Platform)
    : Result<Outcome, Error>
    requires |task.testcases| == |ps.runs|
  {
    var judges := IsSpj(task.judgeConfig) && spjCompiled;
    if hasCompileStage && ps.compile.Err? then Err(ps.compile.error)
    else if hasCompileStage && !ps.compile.value.status.Succeeded? then
      Ok(Outcome(Some(ps.compile.value), None, [], LifecycleStatus.Failed))
    else
      var compile := if hasCompileStage then Some(ps.compile.value) else None;
      if judges && ps.judgeCompile.Err? then Err(ps.judgeCompile.error)
      else if judges && !ps.judgeCompile.value.status.Succeeded? then
        Ok(Outcome(compile, Some(ps.judgeCompile.value), [], LifecycleStatus.Failed))
      else
        Finish(compile, if judges then Some(ps.judgeCompile.value) else None, JudgeCases(task, 0, ps, p))
  }

  // ---------- the code ----------

  function Read(disk: Disk, path: Path): File {
    if path in disk then disk[path] else None
  }

  /** Without the prefix, or with anything but a 32-bit number after it, the number is zero. */
  function CaseNoOf(stageName: string): u32 {
    if RUN_CASE <= stageName && ParseU32(stageName[|RUN_CASE|..]).Some?
    then ParseU32(stageName[|RUN_CASE|..]).value else 0
  }

  function FindCase(cases: seq<CaseDir>, caseNo: u32): Option<CaseDir> {
    if cases == [] then None
    else if cases[0].caseNo == caseNo then Some(cases[0])
    else FindCase(cases[1..], caseNo)
  }

  function AfterRun(disk: Disk, stage: RunStage, run: Run): Disk {
    disk[stage.stdoutPath := run.output][stage.stderrPath := run.errors]
  }

  function AfterSpj(disk: Disk, c: CaseDir): Disk {
    disk[Path(c.directory, "spj.stdout") := None][Path(c.directory, "spj.stderr") := None]
  }

  function SpjCase(disk: Disk, i: nat, c: CaseDir, ps: Processes): Result<StageOutcome, Error> {
    ps.spj(i, Read(disk, c.inputPath), Read(disk, c.outputPath), Read(disk, c.answerPath))
  }

  /** The status of stage `i` with the disk its run left behind, and the disk after judging it. */
  ghost function StageStatusOf(a: Artifacts, i: nat, c: CaseDir, run: Run, disk: Disk, ps: Processes, p: Judge.Platform)
    : (Result<CaseStatus, Error>, Disk)
  {
    if !run.outcome.status.Succeeded? then (Ok(MapStageFailure(run.outcome.failureKind)), disk)
    else if a.spj.Some? then
      (match SpjCase(disk, i, c, ps)
       case Err(e) => Err(e)
       case Ok(o) => Ok(SpjStatus(o)),
       AfterSpj(disk, c))
    else
      (match (Read(disk, c.outputPath), Read(disk, c.answerPath))
       case (Some(output), Some(answer)) =>
         Ok(if Judge.Accepts(output, answer, Judge.EffectiveConfig(a.judgeConfig), p) then Accepted else WrongAnswer)
       case _ => Err(Internal),
       disk)
  }

  ghost function ExecuteStages(a: Artifacts, i: nat, disk: Disk, ps: Processes, p: Judge.Platform)
    : Result<seq<Case>, Error>
    requires i <= |a.runStages| == |ps.runs|
    decreases |a.runStages| - i
  {
    if i == |a.runStages| then Ok([])
    else if ps.runs[i].Err? then Err(ps.runs[i].error)
    else
      var stage, run := a.runStages[i], ps.runs[i].value;
      var caseNo := CaseNoOf(stage.stageName);
      match FindCase(a.cases, caseNo)
      case None => Err(Internal)
      case Some(c) =>
        var (status, after) := StageStatusOf(a, i, c, run, AfterRun(disk, stage, run), ps, p);
        if status.Err? then Err(status.error)
        else
          var outcome := Case(caseNo, stage.score, status.value, run.outcome.stderrExcerpt);
          if !outcome.status.Accepted? then Ok([outcome])
          else
            match ExecuteStages(a, i + 1, after, ps, p)
            case Err(e) => Err(e)
            case Ok(rest) => Ok([outcome] + rest)
  }

  ghost function Executed(a: Artifacts, disk: Disk, ps: Processes, p: Judge.Platform): Result<Outcome, Error>
    requires |a.runStages| == |ps.runs|
  {
    var judges := a.spj.Some? && a.spj.value.hasCompileStage;
    if a.hasCompileStage && ps.compile.Err? then Err(ps.compile.error)
    else if a.hasCompileStage && !ps.compile.value.status.Succeeded? then
      Ok(Outcome(Some(ps.compile.value), None, [], LifecycleStatus.Failed))
    else
      var compile := if a.hasCompileStage then Some(ps.compile.value) else None;
      if judges && ps.judgeCompile.Err? then Err(ps.judgeCompile.error)
      else if judges && !ps.judgeCompile.value.status.Succeeded? then
        Ok(Outcome(compile, Some(ps.judgeCompile.value), [], LifecycleStatus.Failed))
      else
        Finish(compile, if judges then Some(ps.judgeCompile.value) else None, ExecuteStages(a, 0, disk, ps, p))
  }

  ghost function PrependCases(done: seq<Case>, rest: Result<seq<Case>, Error>): Result<seq<Case>, Error> {
    match rest
    case Err(e) => Err(e)
    case Ok(cs) => Ok(done + cs)
  }

  /** Where the loop stands after stage `i`, in terms of what the stages still to come yield. */
  lemma ExecuteStep(a: Artifacts, i: nat, disk: Disk, ps: Processes, p: Judge.Platform, done: seq<Case>, c: CaseDir)
    requires i < |a.runStages| == |ps.runs| && ps.runs[i].Ok?
    requires FindCase(a.cases, CaseNoOf(a.runStages[i].stageName)) == Some(c)
    ensures
      var (stage, run) := (a.runStages[i], ps.runs[i].value);
      var (status, after) := StageStatusOf(a, i, c, run, AfterRun(disk, stage, run), ps, p);
      PrependCases(done, ExecuteStages(a, i, disk, ps, p)) ==
        if status.Err? then Err(status.error)
        else
          var outcome := Case(CaseNoOf(stage.stageName), stage.score, status.value, run.outcome.stderrExcerpt);
          if !outcome.status.Accepted? then Ok(done + [outcome])
          else PrependCases(done + [outcome], ExecuteStages(a, i + 1, after, ps, p))
  {
    var stage, run := a.runStages[i], ps.runs[i].value;
    var (status, after) := StageStatusOf(a, i, c, run, AfterRun(disk, stage, run), ps, p);
    if status.Ok? {
      var outcome := Case(CaseNoOf(stage.stageName), stage.score, status.value, run.outcome.stderrExcerpt);
      var rest := ExecuteStages(a, i + 1, after, ps, p);
      if rest.Ok? {
        assert done + ([outcome] + rest.value) == done + [outcome] + rest.value;
      }
    }
  }

  method JudgeStage(a: Artifacts, i: nat, c: CaseDir, run: Run, disk: Disk, ps: Processes, p: Judge.Platform)
    returns (status: Result<CaseStatus, Error>, after: Disk)
    ensures (status, after) == StageStatusOf(a, i, c, run, disk, ps, p)
  {
    after := disk;
    if !run.outcome.status.Succeeded? {
      status := Ok(MapStageFailure(run.outcome.failureKind));
    } else if a.spj.Some? {
      var o := SpjCase(disk, i, c, ps);
      after := AfterSpj(disk, c);
      status := if o.Err? then Err(o.error) else Ok(SpjStatus(o.value));
    } else {
      var output, answer := Read(disk, c.outputPath), Read(disk, c.answerPath);
      if output.None? || answer.None? {
        status := Err(Internal);
      } else {
        var verdict := Judge.ValidateOutput(output.value, answer.value, a.judgeConfig, p);
        status := Ok(if verdict.Accepted? then Accepted else WrongAnswer);
      }
    }
  }

  /** The run stages in order, stopping at the first that is not accepted. */
  method RunAll(a: Artifacts, start: Disk, ps: Processes, p: Judge.Platform)
    returns (r: Result<seq<Case>, Error>, stopped: bool)
    requires |a.runStages| == |ps.runs|
    ensures r == ExecuteStages(a, 0, start, ps, p)
    ensures r.Ok? ==> (stopped <==> !AllAccepted(r.value))
  {
    var disk := start;
    var cases: seq<Case> := [];
    var i := 0;
    ghost var all := ExecuteStages(a, 0, start, ps, p);
    if all.Ok? {
      assert [] + all.value == all.value;
    }
    while i < |a.runStages|
      invariant i <= |a.runStages| && AllAccepted(cases)
      invariant all == PrependCases(cases, ExecuteStages(a, i, disk, ps, p))
    {
      if ps.runs[i].Err? {
        return Err(ps.runs[i].error), true;
      }
      var stage, run := a.runStages[i], ps.runs[i].value;
      var caseNo := CaseNoOf(stage.stageName);
      var found := FindCase(a.cases, caseNo);
      if found.None? {
        return Err(Internal), true;
      }
      ExecuteStep(a, i, disk, ps, p, cases, found.value);
      var status;
      status, disk := JudgeStage(a, i, found.value, run, AfterRun(disk, stage, run), ps, p);
      if status.Err? {
        return Err(status.error), true;
      }
      cases := cases + [Case(caseNo, stage.score, status.value, run.outcome.stderrExcerpt)];
      if !status.value.Accepted? {
        assert !cases[|cases| - 1].status.Accepted?;
        return Ok(cases), true;
      }
      i := i + 1;
    }
    assert cases + [] == cases;
    return Ok(cases), false;
  }

  /** `execute` on any artifacts: every stage must succeed for the next to start. */
  method Execute(a: Artifacts, start: Disk, ps: Processes, p: Judge.Platform) returns (r: Result<Outcome, Error>)
    requires |a.runStages| == |ps.runs|
    ensures r == Executed(a, start, ps, p)
  {
    var compile: Option<StageOutcome> := None;
    if a.hasCompileStage {
      if ps.compile.Err? {
        return Err(ps.compile.error);
      }
      if !ps.compile.value.status.Succeeded? {
        return Ok(Outcome(Some(ps.compile.value), None, [], LifecycleStatus.Failed));
      }
      compile := Some(ps.compile.value);
    }
    var judgeCompile: Option<StageOutcome> := None;
    if a.spj.Some? && a.spj.value.hasCompileStage {
      if ps.judgeCompile.Err? {
        return Err(ps.judgeCompile.error);
      }
      if !ps.judgeCompile.value.status.Succeeded? {
        return Ok(Outcome(compile, Some(ps.judgeCompile.value), [], LifecycleStatus.Failed));
      }
      judgeCompile := Some(ps.judgeCompile.value);
    }
    var cases, stopped := RunAll(a, start, ps, p);
    if cases.Err? {
      return Err(cases.error);
    }
    return Ok(Outcome(compile, judgeCompile, cases.value,
                      if stopped then LifecycleStatus.Failed else LifecycleStatus.Completed));
  }

  // ---------- every case finds its own directory ----------

  lemma CaseNoOfRunStage(caseNo: u32)
    ensures CaseNoOf(RUN_CASE + Print(caseNo)) == caseNo
  {
    PrintParse(caseNo);
    assert (RUN_CASE + Print(caseNo))[|RUN_CASE|..] == Print(caseNo);
  }

  lemma {:induction false} FindFirst(cases: seq<CaseDir>, caseNo: u32, i: nat)
    requires i < |cases| && cases[i].caseNo == caseNo && forall j :: 0 <= j < i ==> cases[j].caseNo != caseNo
    ensures FindCase(cases, caseNo) == Some(cases[i])
  {
    if i > 0 {
      FindFirst(cases[1..], caseNo, i - 1);
    }
  }

  /** A stage's name leads back to the directory of the testcase it was made for. */
  lemma StageFindsOwnCase(testcases: seq<Testcase>, i: nat)
    requires UniqueCases(testcases) && i < |testcases|
    ensures var cases := CaseDirs(testcases);
      FindCase(cases, CaseNoOf(RunStages(cases)[i].stageName)) == Some(CaseDirOf(testcases[i]))
  {
    var cases := CaseDirs(testcases);
    CaseNoOfRunStage(testcases[i].caseNo);
    FindFirst(cases, testcases[i].caseNo, i);
  }

  /** Different case numbers have different directories, also beyond three digits. */
  lemma DirectoriesDiffer(a: u32, b: u32)
    requires a != b
    ensures DirectoryOf(a) != DirectoryOf(b)
  {
    PaddedInjective(a, b, 3);
    assert DirectoryOf(a)[5..] == Padded(a, 3) && DirectoryOf(b)[5..] == Padded(b, 3);
  }

  ghost predicate CaseReady(disk: Disk, t: Testcase) {
    var c := CaseDirOf(t);
    Read(disk, c.inputPath) == Some(t.input) && Read(disk, c.answerPath) == Some(t.expected)
  }

  ghost predicate Ready(disk: Disk, testcases: seq<Testcase>) {
    forall j :: 0 <= j < |testcases| ==> CaseReady(disk, testcases[j])
  }

  /** Files that neither hold the input nor the answer of a case. */
  predicate Scratch(path: Path) {
    path.name != "input.txt" && path.name != "answer.txt"
  }

  lemma ScratchWrite(disk: Disk, path: Path, file: File, testcases: seq<Testcase>)
    requires Ready(disk, testcases) && Scratch(path)
    ensures Ready(disk[path := file], testcases)
  {
    forall j | 0 <= j < |testcases| ensures CaseReady(disk[path := file], testcases[j]) {
      assert CaseReady(disk, testcases[j]);
    }
  }

  lemma StageKeepsReady(disk: Disk, t: Testcase, run: Run, testcases: seq<Testcase>)
    requires Ready(disk, testcases)
    ensures var c := CaseDirOf(t);
      var after := AfterRun(disk, RunStageOf(c), run);
      Ready(after, testcases) && Ready(AfterSpj(after, c), testcases) && Read(after, c.outputPath) == run.output
  {
    var c := CaseDirOf(t);
    assert "output.txt"[0] == 'o' && "err.txt"[0] == 'e' && "spj.stdout"[0] == 's' && "spj.stderr"[0] == 's'
      && "input.txt"[0] == 'i' && "answer.txt"[0] == 'a';
    ScratchWrite(disk, c.outputPath, run.output, testcases);
    ScratchWrite(disk[c.outputPath := run.output], c.stderrPath, run.errors, testcases);
    var after := AfterRun(disk, RunStageOf(c), run);
    ScratchWrite(after, Path(c.directory, "spj.stdout"), None, testcases);
    ScratchWrite(after[Path(c.directory, "spj.stdout") := None], Path(c.directory, "spj.stderr"), None, testcases);
  }

  lemma WriteCaseElsewhere(disk: Disk, t: Testcase, other: Testcase)
    requires t.caseNo != other.caseNo && CaseReady(disk, other)
    ensures CaseReady(WriteCase(disk, t), other)
  {
    DirectoriesDiffer(t.caseNo, other.caseNo);
  }

  lemma {:induction false} WriteCasesKeeps(disk: Disk, testcases: seq<Testcase>, other: Testcase)
    requires CaseReady(disk, other) && forall j :: 0 <= j < |testcases| ==> testcases[j].caseNo != other.caseNo
    ensures CaseReady(WriteCases(disk, testcases), other)
    decreases |testcases|
  {
    if testcases != [] {
      WriteCaseElsewhere(disk, testcases[0], other);
      WriteCasesKeeps(WriteCase(disk, testcases[0]), testcases[1..], other);
    }
  }

  /** Writing the cases out leaves each case's own input and answer in its directory. */
  lemma {:induction false} WriteCasesReady(disk: Disk, testcases: seq<Testcase>)
    requires UniqueCases(testcases)
    ensures Ready(WriteCases(disk, testcases), testcases)
    decreases |testcases|
  {
    if testcases != [] {
      var first := WriteCase(disk, testcases[0]);
      WriteCasesKeeps(first, testcases[1..], testcases[0]);
      WriteCasesReady(first, testcases[1..]);
      var after := WriteCases(disk, testcases);
      forall j | 0 <= j < |testcases| ensures CaseReady(after, testcases[j]) {
        if j > 0 {
          assert CaseReady(after, testcases[1..][j - 1]);
        }
      }
    }
  }

  // ---------- executing is judging every testcase on its own ----------

  lemma StageJudges(task: OjTask, i: nat, run: Run, disk: Disk, ps: Processes, p: Judge.Platform,
                    hasCompileStage: bool, spjCompiled: bool)
    requires i < |task.testcases| && Ready(disk, task.testcases)
    ensures var a := Prepare(task, hasCompileStage, spjCompiled);
      var c := CaseDirOf(task.testcases[i]);
      var (status, after) := StageStatusOf(a, i, c, run, AfterRun(disk, a.runStages[i], run), ps, p);
      status == JudgeRun(task, i, run, ps, p) && Ready(after, task.testcases)
  {
    StageKeepsReady(disk, task.testcases[i], run, task.testcases);
    var c := CaseDirOf(task.testcases[i]);
    assert CaseReady(AfterRun(disk, RunStageOf(c), run), task.testcases[i]);
  }

  lemma {:induction false} StagesJudge(task: OjTask, i: nat, disk: Disk, ps: Processes, p: Judge.Platform,
                                       hasCompileStage: bool, spjCompiled: bool)
    requires UniqueCases(task.testcases) && i <= |task.testcases| == |ps.runs| && Ready(disk, task.testcases)
    ensures ExecuteStages(Prepare(task, hasCompileStage, spjCompiled), i, disk, ps, p) == JudgeCases(task, i, ps, p)
    decreases |task.testcases| - i
  {
    if i < |task.testcases| && ps.runs[i].Ok? {
      var a, run := Prepare(task, hasCompileStage, spjCompiled), ps.runs[i].value;
      StageFindsOwnCase(task.testcases, i);
      CaseNoOfRunStage(task.testcases[i].caseNo);
      StageJudges(task, i, run, disk, ps, p, hasCompileStage, spjCompiled);
      var c := CaseDirOf(task.testcases[i]);
      var (status, after) := StageStatusOf(a, i, c, run, AfterRun(disk, a.runStages[i], run), ps, p);
      StagesJudge(task, i + 1, after, ps, p, hasCompileStage, spjCompiled);
    }
  }

  /**
   Refinement. For a task that passed validation, executing what was prepared, with its
   stage names, lookups and files, yields exactly what judging its testcases yields.
   */
  lemma ExecuteRefinesJudging(task: OjTask, hasCompileStage: bool, spjCompiled: bool, disk: Disk,
                              ps: Processes, p: Judge.Platform)
    requires ValidTask(task) && |task.testcases| == |ps.runs|
    ensures Executed(Prepare(task, hasCompileStage, spjCompiled), WriteCases(disk, task.testcases), ps, p)
         == JudgeTask(task, hasCompileStage, spjCompiled, ps, p)
  {
    WriteCasesReady(disk, task.testcases);
    StagesJudge(task, 0, WriteCases(disk, task.testcases), ps, p, hasCompileStage, spjCompiled);
  }

  // ---------- what an outcome looks like ----------

  ghost predicate IsCaseOf(c: Case, t: Testcase) {
    c.caseNo == t.caseNo && c.score == t.score
  }

  /** The testcases from `i` on, in order, up to the first that was not accepted. */
  ghost predicate CasesFrom(testcases: seq<Testcase>, i: nat, cs: seq<Case>) {
    && i + |cs| <= |testcases|
    && (forall k :: 0 <= k < |cs| ==> IsCaseOf(cs[k], testcases[i + k]))
    && (forall k :: 0 <= k < |cs| - 1 ==> cs[k].status.Accepted?)
    && (i + |cs| < |testcases| ==> cs != [] && !cs[|cs| - 1].status.Accepted?)
  }

  lemma CaseGoesFirst(testcases: seq<Testcase>, i: nat, c: Case, rest: seq<Case>)
    requires i < |testcases| && IsCaseOf(c, testcases[i])
    requires if c.status.Accepted? then CasesFrom(testcases, i + 1, rest) else rest == []
    ensures CasesFrom(testcases, i, [c] + rest)
  {
    var cs := [c] + rest;
    forall k | 0 <= k < |cs| ensures IsCaseOf(cs[k], testcases[i + k]) {
      assert k > 0 ==> cs[k] == rest[k - 1] && IsCaseOf(rest[k - 1], testcases[i + 1 + (k - 1)]);
    }
  }

  lemma {:induction false} CasesAreAPrefix(task: OjTask, i: nat, ps: Processes, p: Judge.Platform)
    requires i <= |task.testcases| == |ps.runs| && JudgeCases(task, i, ps, p).Ok?
    ensures CasesFrom(task.testcases, i, JudgeCases(task, i, ps, p).value)
    decreases |task.testcases| - i
  {
    if i < |task.testcases| {
      var c := JudgeCase(task, i, ps, p).value;
      if c.status.Accepted? {
        CasesAreAPrefix(task, i + 1, ps, p);
        CaseGoesFirst(task.testcases, i, c, JudgeCases(task, i + 1, ps, p).value);
      } else {
        CaseGoesFirst(task.testcases, i, c, []);
      }
    }
  }

  predicate CompiledOk(stage: Option<StageOutcome>) {
    stage.None? || stage.value.status.Succeeded?
  }

  /** What holds of every outcome that `execute` returns. */
  ghost predicate Sound(task: OjTask, o: Outcome) {
    && |o.cases| <= |task.testcases|
    && (forall k :: 0 <= k < |o.cases| ==> IsCaseOf(o.cases[k], task.testcases[k]))
    && (forall k :: 0 <= k < |o.cases| - 1 ==> o.cases[k].status.Accepted?)
    && (!CompiledOk(o.compile) ==> o.judgeCompile.None?)
    && (!CompiledOk(o.compile) || !CompiledOk(o.judgeCompile) ==> o.cases == [])
    && (o.finalStatus == LifecycleStatus.Completed || o.finalStatus == LifecycleStatus.Failed)
    && (o.finalStatus == LifecycleStatus.Completed <==>
          CompiledOk(o.compile) && CompiledOk(o.judgeCompile)
          && |o.cases| == |task.testcases| && AllAccepted(o.cases))
    && (o.finalStatus == LifecycleStatus.Failed <==>
          !CompiledOk(o.compile) || !CompiledOk(o.judgeCompile)
          || (o.cases != [] && !o.cases[|o.cases| - 1].status.Accepted?))
  }

  lemma FinishIsSound(task: OjTask, compile: Option<StageOutcome>, judgeCompile: Option<StageOutcome>, cs: seq<Case>)
    requires CasesFrom(task.testcases, 0, cs) && task.testcases != []
    requires CompiledOk(compile) && CompiledOk(judgeCompile)
    ensures Sound(task, Finish(compile, judgeCompile, Ok(cs)).value)
  {
    assert forall k :: 0 <= k < |cs| ==> IsCaseOf(cs[k], task.testcases[0 + k]);
    if cs != [] {
      assert AllAccepted(cs) <==> cs[|cs| - 1].status.Accepted?;
    }
  }

  lemma JudgedOutcomeIsSound(task: OjTask, hasCompileStage: bool, spjCompiled: bool, ps: Processes, p: Judge.Platform)
    requires |task.testcases| == |ps.runs| && task.testcases != []
    requires JudgeTask(task, hasCompileStage, spjCompiled, ps, p).Ok?
    ensures Sound(task, JudgeTask(task, hasCompileStage, spjCompiled, ps, p).value)
  {
    var judges := IsSpj(task.judgeConfig) && spjCompiled;
    var compile := if hasCompileStage then Some(ps.compile.value) else None;
    if CompiledOk(compile) {
      var judgeCompile := if judges then Some(ps.judgeCompile.value) else None;
      if CompiledOk(judgeCompile) {
        CasesAreAPrefix(task, 0, ps, p);
        FinishIsSound(task, compile, judgeCompile, JudgeCases(task, 0, ps, p).value);
      }
    }
  }

  /**
   The cases are the first testcases, with their numbers and scores; all but the last
   are accepted; the outcome is Completed exactly when everything ran and was accepted,
   and Failed otherwise.
   */
  lemma ExecutedOutcomeIsSound(task: OjTask, hasCompileStage: bool, spjCompiled: bool, disk: Disk,
                               ps: Processes, p: Judge.Platform, r: Result<Outcome, Error>)
    requires ValidTask(task) && |task.testcases| == |ps.runs|
    requires r == Executed(Prepare(task, hasCompileStage, spjCompiled), WriteCases(disk, task.testcases), ps, p)
    ensures r.Ok? ==> Sound(task, r.value)
  {
    ExecuteRefinesJudging(task, hasCompileStage, spjCompiled, disk, ps, p);
    if r.Ok? {
      JudgedOutcomeIsSound(task, hasCompileStage, spjCompiled, ps, p);
    }
  }

  // ---------- why case numbers must be unique ----------

  /** With a repeated number the second stage is led to the first testcase's directory. */
  lemma {:induction false} RepeatedNumberMisleads(testcases: seq<Testcase>, i: nat, j: nat)
    requires i < j < |testcases| && testcases[i].caseNo == testcases[j].caseNo && UniqueCases(testcases[..j])
    ensures var cases := CaseDirs(testcases);
      FindCase(cases, CaseNoOf(RunStages(cases)[j].stageName)) == Some(CaseDirOf(testcases[i]))
  {
    var cases := CaseDirs(testcases);
    CaseNoOfRunStage(testcases[j].caseNo);
    forall k | 0 <= k < i ensures cases[k].caseNo != testcases[j].caseNo {
      assert testcases[..j][k].caseNo != testcases[..j][i].caseNo;
    }
    FindFirst(cases, testcases[j].caseNo, i);
  }
}
