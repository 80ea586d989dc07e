/** What a verdict means, in terms of what the processes did. */
module Verdicts {
  import opened Prelude
  import opened Execution
  import opened WorkerLoop
  import Judge
  import Projection

  /** The judge, shown the testcase's own input, the program's output and the testcase's answer. */
  function Shown(task: OjTask, k: nat, ps: Processes): Result<StageOutcome, Error>
    requires k < |task.testcases| == |ps.runs| && ps.runs[k].Ok?
  {
    ps.spj(k, Some(task.testcases[k].input), ps.runs[k].value.output, Some(task.testcases[k].expected))
  }

  ghost predicate Ran(task: OjTask, k: nat, ps: Processes)
    requires k < |task.testcases| == |ps.runs|
  {
    ps.runs[k].Ok? && ps.runs[k].value.outcome.status.Succeeded?
  }

  /** The special judge ended with this code on the testcase. */
  ghost predicate JudgeExits(task: OjTask, k: nat, ps: Processes, code: int)
    requires k < |task.testcases| == |ps.runs|
  {
    Ran(task, k, ps) && Shown(task, k, ps).Ok? && Shown(task, k, ps).value.exitCode == Some(code)
  }

  ghost predicate ValidatorSays(task: OjTask, k: nat, ps: Processes, p: Judge.Platform, accepts: bool)
    requires k < |task.testcases| == |ps.runs|
  {
    Ran(task, k, ps) && ps.runs[k].value.output.Some?
    && var output, expected := ps.runs[k].value.output.value, task.testcases[k].expected;
      accepts <==> Judge.Accepts(output, expected, Judge.EffectiveConfig(task.judgeConfig), p)
  }

  /** The testcase is passed: the program succeeded and whoever judges it was content. */
  ghost predicate Passes(task: OjTask, k: nat, ps: Processes, p: Judge.Platform)
    requires k < |task.testcases| == |ps.runs|
  {
    if IsSpj(task.judgeConfig) then JudgeExits(task, k, ps, 0) else ValidatorSays(task, k, ps, p, true)
  }

  ghost predicate IsWrong(task: OjTask, k: nat, ps: Processes, p: Judge.Platform)
    requires k < |task.testcases| == |ps.runs|
  {
    if IsSpj(task.judgeConfig) then JudgeExits(task, k, ps, 1) else ValidatorSays(task, k, ps, p, false)
  }

  /** A stage that gives no kind of failure counts as a runtime error. */
  predicate OfKind(o: StageOutcome, kind: FailureKind) {
    o.failureKind == Some(kind) || (o.failureKind.None? && kind.RuntimeError?)
  }

  /** The run failed this way, or the special judge did, ending with neither 0 nor 1. */
  ghost predicate FailsWith(task: OjTask, k: nat, ps: Processes, kind: FailureKind)
    requires k < |task.testcases| == |ps.runs|
  {
    ps.runs[k].Ok?
    && if !Ran(task, k, ps) then OfKind(ps.runs[k].value.outcome, kind)
       else
         IsSpj(task.judgeConfig) && Shown(task, k, ps).Ok? && OfKind(Shown(task, k, ps).value, kind)
         && Shown(task, k, ps).value.exitCode != Some(0) && Shown(task, k, ps).value.exitCode != Some(1)
  }

  /** There is no verdict: a process could not be started, or the output is not text. */
  ghost predicate Undecided(task: OjTask, k: nat, ps: Processes)
    requires k < |task.testcases| == |ps.runs|
  {
    ps.runs[k].Err?
    || (Ran(task, k, ps) && if IsSpj(task.judgeConfig) then Shown(task, k, ps).Err? else ps.runs[k].value.output.None?)
  }

  /** The status says exactly what happened on the testcase. */
  ghost predicate Tells(task: OjTask, k: nat, ps: Processes, p: Judge.Platform, status: CaseStatus)
    requires k < |task.testcases| == |ps.runs|
  {
    && (status.Accepted? <==> Passes(task, k, ps, p))
    && (status.WrongAnswer? <==> IsWrong(task, k, ps, p))
    && (status.CaseTimeLimit? <==> FailsWith(task, k, ps, TimeLimitExceeded))
    && (status.CaseMemoryLimit? <==> FailsWith(task, k, ps, MemoryLimitExceeded))
    && (status.CaseOutputLimit? <==> FailsWith(task, k, ps, OutputLimitExceeded))
    && (status.CaseSecurityViolation? <==> FailsWith(task, k, ps, SecurityViolation))
    && (status.CaseRuntimeError? <==> FailsWith(task, k, ps, RuntimeError))
  }

  lemma CaseTells(task: OjTask, k: nat, ps: Processes, p: Judge.Platform)
    requires k < |task.testcases| == |ps.runs|
    ensures JudgeCase(task, k, ps, p).Err? <==> Undecided(task, k, ps)
    ensures JudgeCase(task, k, ps, p).Ok? ==>
      var c := JudgeCase(task, k, ps, p).value;
      Tells(task, k, ps, p, c.status) && c.stderrExcerpt == ps.runs[k].value.outcome.stderrExcerpt
  {
  }

  ghost predicate CaseAt(task: OjTask, k: nat, ps: Processes, p: Judge.Platform, c: Case)
    requires k < |task.testcases| == |ps.runs|
  {
    && ps.runs[k].Ok? && Tells(task, k, ps, p, c.status)
    && c.stderrExcerpt == ps.runs[k].value.outcome.stderrExcerpt
  }

  ghost predicate CasesTell(task: OjTask, i: nat, ps: Processes, p: Judge.Platform, cs: seq<Case>)
    requires i + |cs| <= |task.testcases| == |ps.runs|
  {
    forall k :: 0 <= k < |cs| ==> CaseAt(task, i + k, ps, p, cs[k])
  }

  lemma CaseFirst(task: OjTask, i: nat, ps: Processes, p: Judge.Platform, c: Case, rest: seq<Case>)
    requires i + 1 + |rest| <= |task.testcases| == |ps.runs|
    requires CaseAt(task, i, ps, p, c) && CasesTell(task, i + 1, ps, p, rest)
    ensures CasesTell(task, i, ps, p, [c] + rest)
  {
    forall k | 0 <= k < 1 + |rest| ensures CaseAt(task, i + k, ps, p, ([c] + rest)[k]) {
      if k > 0 {
        assert CaseAt(task, i + 1 + (k - 1), ps, p, rest[k - 1]);
      }
    }
  }

  lemma {:induction false} JudgedCasesTell(task: OjTask, i: nat, ps: Processes, p: Judge.Platform)
    requires i <= |task.testcases| == |ps.runs| && JudgeCases(task, i, ps, p).Ok?
    ensures i + |JudgeCases(task, i, ps, p).value| <= |task.testcases|
    ensures CasesTell(task, i, ps, p, JudgeCases(task, i, ps, p).value)
    decreases |task.testcases| - i
  {
    if i < |task.testcases| {
      var c := JudgeCase(task, i, ps, p).value;
      CaseTells(task, i, ps, p);
      assert CaseAt(task, i, ps, p, c);
      if c.status.Accepted? {
        JudgedCasesTell(task, i + 1, ps, p);
        CaseFirst(task, i, ps, p, c, JudgeCases(task, i + 1, ps, p).value);
      } else {
        CaseFirst(task, i, ps, p, c, []);
      }
    }
  }

  ghost predicate Compiled(task: OjTask, hasCompileStage: bool, spjCompiled: bool, ps: Processes) {
    && (hasCompileStage ==> ps.compile.Ok? && ps.compile.value.status.Succeeded?)
    && (IsSpj(task.judgeConfig) && spjCompiled ==> ps.judgeCompile.Ok? && ps.judgeCompile.value.status.Succeeded?)
  }

  /** The first testcases are passed and this one gets no verdict. */
  ghost predicate StuckAt(task: OjTask, i: nat, k: nat, ps: Processes, p: Judge.Platform)
    requires i <= |task.testcases| == |ps.runs|
  {
    i <= k < |task.testcases| && Undecided(task, k, ps) && forall j :: i <= j < k ==> Passes(task, j, ps, p)
  }

  ghost predicate Stuck(task: OjTask, i: nat, ps: Processes, p: Judge.Platform)
    requires i <= |task.testcases| == |ps.runs|
  {
    exists k: nat :: StuckAt(task, i, k, ps, p)
  }

  /** Judging gets stuck at a testcase without a verdict, or later, once it is passed. */
  lemma StuckNext(task: OjTask, i: nat, ps: Processes, p: Judge.Platform)
    requires i < |task.testcases| == |ps.runs|
    ensures Stuck(task, i, ps, p) <==>
      Undecided(task, i, ps) || (Passes(task, i, ps, p) && Stuck(task, i + 1, ps, p))
  {
    if Undecided(task, i, ps) {
      assert StuckAt(task, i, i, ps, p);
    } else {
      var next := i + 1;
      if k: nat :| StuckAt(task, i, k, ps, p) {
        assert Passes(task, i, ps, p) && StuckAt(task, next, k, ps, p);
      }
      if Passes(task, i, ps, p) && Stuck(task, next, ps, p) {
        var k: nat :| StuckAt(task, next, k, ps, p);
        assert StuckAt(task, i, k, ps, p);
      }
    }
  }

  lemma JudgingNext(task: OjTask, i: nat, ps: Processes, p: Judge.Platform)
    requires i < |task.testcases| == |ps.runs|
    ensures JudgeCases(task, i, ps, p).Err? <==>
      Undecided(task, i, ps) || (Passes(task, i, ps, p) && JudgeCases(task, i + 1, ps, p).Err?)
  {
    CaseTells(task, i, ps, p);
  }

  lemma {:induction false} JudgingFailsIff(task: OjTask, i: nat, ps: Processes, p: Judge.Platform)
    requires i <= |task.testcases| == |ps.runs|
    ensures JudgeCases(task, i, ps, p).Err? <==> Stuck(task, i, ps, p)
    decreases |task.testcases| - i
  {
    if i < |task.testcases| {
      JudgingFailsIff(task, i + 1, ps, p);
      JudgingNext(task, i, ps, p);
      StuckNext(task, i, ps, p);
    }
  }

  /**
   An execution fails with an error if and only if a compile stage could not be started or,
   after both compiled, some testcase gets no verdict while all before it are passed.
   */
  lemma ExecutionFailsIff(task: OjTask, hasCompileStage: bool, spjCompiled: bool, disk: Disk,
                          ps: Processes, p: Judge.Platform)
    requires ValidTask(task) && |task.testcases| == |ps.runs|
    ensures Executed(Prepare(task, hasCompileStage, spjCompiled), WriteCases(disk, task.testcases), ps, p).Err? <==>
      || (hasCompileStage && ps.compile.Err?)
      || ((hasCompileStage ==> ps.compile.value.status.Succeeded?)
          && IsSpj(task.judgeConfig) && spjCompiled && ps.judgeCompile.Err?)
      || (Compiled(task, hasCompileStage, spjCompiled, ps) && Stuck(task, 0, ps, p))
  {
    ExecuteRefinesJudging(task, hasCompileStage, spjCompiled, disk, ps, p);
    JudgingFailsIff(task, 0, ps, p);
  }

  /**
   What an execution returns, in terms of what the processes did: it is Completed if and
   only if everything compiled and every testcase is passed; the compile stages that ran
   are shown as they ended; and every case's status and error text tell exactly what
   happened on its own testcase.
   */
  lemma ExecutionMeans(task: OjTask, hasCompileStage: bool, spjCompiled: bool, disk: Disk,
                       ps: Processes, p: Judge.Platform, o: Outcome)
    requires ValidTask(task) && |task.testcases| == |ps.runs|
    requires Executed(Prepare(task, hasCompileStage, spjCompiled), WriteCases(disk, task.testcases), ps, p) == Ok(o)
    ensures o.compile == if hasCompileStage then Some(ps.compile.value) else None
    ensures o.judgeCompile == if IsSpj(task.judgeConfig) && spjCompiled && CompiledOk(o.compile)
                              then Some(ps.judgeCompile.value) else None
    ensures |o.cases| <= |task.testcases| && CasesTell(task, 0, ps, p, o.cases)
    ensures o.finalStatus == LifecycleStatus.Completed <==>
      && Compiled(task, hasCompileStage, spjCompiled, ps)
      && forall k :: 0 <= k < |task.testcases| ==> Passes(task, k, ps, p)
  {
    ExecuteRefinesJudging(task, hasCompileStage, spjCompiled, disk, ps, p);
    ExecutedOutcomeIsSound(task, hasCompileStage, spjCompiled, disk, ps, p, Ok(o));
    StagesShown(task, hasCompileStage, spjCompiled, ps, p, o);
    if Compiled(task, hasCompileStage, spjCompiled, ps) {
      JudgedCasesTell(task, 0, ps, p);
      AllPassIff(task, ps, p, o);
    }
  }

  lemma StagesShown(task: OjTask, hasCompileStage: bool, spjCompiled: bool, ps: Processes, p: Judge.Platform,
                    o: Outcome)
    requires |task.testcases| == |ps.runs| && JudgeTask(task, hasCompileStage, spjCompiled, ps, p) == Ok(o)
    ensures o.compile == if hasCompileStage then Some(ps.compile.value) else None
    ensures o.judgeCompile == if IsSpj(task.judgeConfig) && spjCompiled && CompiledOk(o.compile)
                              then Some(ps.judgeCompile.value) else None
    ensures CompiledOk(o.compile) && CompiledOk(o.judgeCompile) <==> Compiled(task, hasCompileStage, spjCompiled, ps)
    ensures if Compiled(task, hasCompileStage, spjCompiled, ps) then JudgeCases(task, 0, ps, p) == Ok(o.cases)
            else o.cases == []
  {
  }

  lemma AllPassIff(task: OjTask, ps: Processes, p: Judge.Platform, o: Outcome)
    requires |task.testcases| == |ps.runs| && Sound(task, o) && CasesTell(task, 0, ps, p, o.cases)
    requires CompiledOk(o.compile) && CompiledOk(o.judgeCompile)
    ensures o.finalStatus == LifecycleStatus.Completed <==>
      forall k :: 0 <= k < |task.testcases| ==> Passes(task, k, ps, p)
  {
    forall k | 0 <= k < |o.cases| ensures o.cases[k].status.Accepted? <==> Passes(task, k, ps, p) {
      assert CaseAt(task, 0 + k, ps, p, o.cases[k]);
    }
  }

  // ---------- what the submission shows ----------

  /** A failing run, or judge, is shown under the name of its kind of failure. */
  predicate Names(status: Projection.SubmissionStatus, kind: FailureKind) {
    && (kind.TimeLimitExceeded? <==> status.TimeLimitExceeded?)
    && (kind.MemoryLimitExceeded? <==> status.MemoryLimitExceeded?)
    && (kind.OutputLimitExceeded? <==> status.OutputLimitExceeded?)
    && (kind.SecurityViolation? <==> status.SecurityViolation?)
    && (kind.RuntimeError? <==> status.RuntimeError?)
  }

  /** A compile stage that failed of itself is shown as a compile error. */
  predicate NamesCompile(status: Projection.SubmissionStatus, o: StageOutcome) {
    && (OfKind(o, TimeLimitExceeded) <==> status.TimeLimitExceeded?)
    && (OfKind(o, MemoryLimitExceeded) <==> status.MemoryLimitExceeded?)
    && (OfKind(o, OutputLimitExceeded) <==> status.OutputLimitExceeded?)
    && (OfKind(o, SecurityViolation) <==> status.SecurityViolation?)
    && (OfKind(o, RuntimeError) <==> status.CompileError?)
  }

  /** The error text of a stage, unless it wrote none. */
  predicate TellsError(message: string, text: string, fallback: string) {
    if |text| > 0 then message == text else message == fallback
  }

  /** The failing stage is the last that ran, and the submission shows how it failed. */
  ghost predicate ShowsFailure(task: OjTask, ps: Processes, p: Judge.Platform, o: Outcome,
                               shown: Projection.Shown, message: string)
    requires |task.testcases| == |ps.runs|
  {
    if !CompiledOk(o.compile) then
      NamesCompile(shown.status, o.compile.value) && TellsError(shown.message, o.compile.value.stderrExcerpt, message)
    else if !CompiledOk(o.judgeCompile) then
      NamesCompile(shown.status, o.judgeCompile.value)
      && TellsError(shown.message, o.judgeCompile.value.stderrExcerpt, message)
    else 0 < |o.cases| <= |task.testcases| && ShowsCase(task, |o.cases| - 1, ps, p, shown, message)
  }

  ghost predicate ShowsCase(task: OjTask, k: nat, ps: Processes, p: Judge.Platform,
                            shown: Projection.Shown, message: string)
    requires k < |task.testcases| == |ps.runs|
  {
    && !Passes(task, k, ps, p) && (forall j :: 0 <= j < k ==> Passes(task, j, ps, p))
    && (shown.status.WrongAnswer? <==> IsWrong(task, k, ps, p))
    && (shown.status.WrongAnswer? ==> shown.message == "wrong answer")
    && (forall kind :: FailsWith(task, k, ps, kind) ==> Names(shown.status, kind))
    && (!shown.status.WrongAnswer? ==>
          ps.runs[k].Ok? && TellsError(shown.message, ps.runs[k].value.outcome.stderrExcerpt, message))
  }

  function Points(testcases: seq<Testcase>): nat {
    if testcases == [] then 0 else testcases[0].score + Points(testcases[1..])
  }

  /** The points of the testcases passed, out of those of the testcases that ran, as 32-bit sums. */
  ghost predicate ShowsPoints(task: OjTask, ps: Processes, p: Judge.Platform, ran: nat, shown: Projection.Shown)
    requires |task.testcases| == |ps.runs|
  {
    && ran <= |task.testcases|
    && shown.maxScore == Points(task.testcases[..ran]) % U32_LIMIT
    && var passed := if ran == 0 || Passes(task, ran - 1, ps, p) then ran else ran - 1;
      shown.score == Points(task.testcases[..passed]) % U32_LIMIT
  }

  lemma {:induction false} PointsAre(testcases: seq<Testcase>, cs: seq<Case>)
    requires |cs| == |testcases| && forall k :: 0 <= k < |cs| ==> IsCaseOf(cs[k], testcases[k])
    ensures Projection.Total(cs) == Points(testcases)
  {
    if cs != [] {
      forall k | 0 <= k < |cs| - 1 ensures IsCaseOf(cs[1..][k], testcases[1..][k]) {
        assert IsCaseOf(cs[k + 1], testcases[k + 1]);
      }
      PointsAre(testcases[1..], cs[1..]);
    }
  }

  /** The testcases whose points count: those that ran, but for a last one that was not passed. */
  lemma PassedPoints(task: OjTask, o: Outcome)
    requires Sound(task, o)
    ensures Projection.Total(o.cases) == Points(task.testcases[..|o.cases|])
    ensures var part := Projection.AcceptedPart(o.cases);
      && |part| <= |task.testcases| && Projection.Total(part) == Points(task.testcases[..|part|])
      && |part| == if o.cases == [] || o.cases[|o.cases| - 1].status.Accepted? then |o.cases| else |o.cases| - 1
  {
    var part := Projection.AcceptedPart(o.cases);
    PointsAre(task.testcases[..|o.cases|], o.cases);
    PointsAre(task.testcases[..|part|], part);
  }

  lemma ScoresAre(task: OjTask, o: Outcome, message: string)
    requires Sound(task, o)
    ensures var shown := Projection.DeriveSubmissionProjection(o.finalStatus, Some(o), message);
      && shown.maxScore == Projection.Total(o.cases) % U32_LIMIT
      && shown.score == Projection.Total(Projection.AcceptedPart(o.cases)) % U32_LIMIT
  {
    Projection.ScoresOf(o);
    Projection.LostPlusAccepted(o.cases);
  }

  lemma LastPasses(task: OjTask, ps: Processes, p: Judge.Platform, o: Outcome)
    requires |task.testcases| == |ps.runs| && Sound(task, o) && CasesTell(task, 0, ps, p, o.cases) && o.cases != []
    ensures o.cases[|o.cases| - 1].status.Accepted? <==> Passes(task, |o.cases| - 1, ps, p)
  {
    assert CaseAt(task, 0 + (|o.cases| - 1), ps, p, o.cases[|o.cases| - 1]);
  }

  lemma PointsShown(task: OjTask, ps: Processes, p: Judge.Platform, o: Outcome, message: string)
    requires |task.testcases| == |ps.runs| && Sound(task, o) && CasesTell(task, 0, ps, p, o.cases)
    ensures ShowsPoints(task, ps, p, |o.cases|, Projection.DeriveSubmissionProjection(o.finalStatus, Some(o), message))
  {
    ScoresAre(task, o, message);
    PassedPoints(task, o);
    if o.cases != [] {
      LastPasses(task, ps, p, o);
    }
  }

  /**
   End to end. A submission is shown as accepted if and only if everything compiled and
   every testcase is passed; otherwise it shows the failure that stopped the execution,
   by its kind and with the error text of that very stage.
   */
  lemma SubmissionMeans(task: OjTask, hasCompileStage: bool, spjCompiled: bool, disk: Disk,
                        ps: Processes, p: Judge.Platform, o: Outcome, message: string)
    requires ValidTask(task) && |task.testcases| == |ps.runs| && Projection.NothingSkipped(o)
    requires Executed(Prepare(task, hasCompileStage, spjCompiled), WriteCases(disk, task.testcases), ps, p) == Ok(o)
    ensures var shown := Projection.DeriveSubmissionProjection(o.finalStatus, Some(o), message);
      var passed := Compiled(task, hasCompileStage, spjCompiled, ps)
                    && forall k :: 0 <= k < |task.testcases| ==> Passes(task, k, ps, p);
      && (shown.status.Accepted? <==> passed)
      && (passed ==> shown.message == "accepted" && |o.cases| == |task.testcases|)
      && (!passed ==> ShowsFailure(task, ps, p, o, shown, message))
      && ShowsPoints(task, ps, p, |o.cases|, shown)
  {
    var shown := Projection.DeriveSubmissionProjection(o.finalStatus, Some(o), message);
    ExecutionMeans(task, hasCompileStage, spjCompiled, disk, ps, p, o);
    ExecutedOutcomeIsSound(task, hasCompileStage, spjCompiled, disk, ps, p, Ok(o));
    Projection.ProjectionFaithful(task, o, message);
    PointsShown(task, ps, p, o, message);
    if o.finalStatus != LifecycleStatus.Completed {
      FailureShown(task, ps, p, o, message);
    }
  }

  lemma FailureShown(task: OjTask, ps: Processes, p: Judge.Platform, o: Outcome, message: string)
    requires |task.testcases| == |ps.runs| && Sound(task, o) && CasesTell(task, 0, ps, p, o.cases)
    requires Projection.NothingSkipped(o) && o.finalStatus == LifecycleStatus.Failed
    ensures var shown := Projection.DeriveSubmissionProjection(o.finalStatus, Some(o), message);
      ShowsFailure(task, ps, p, o, shown, message)
  {
    var shown := Projection.DeriveSubmissionProjection(o.finalStatus, Some(o), message);
    Projection.ProjectionFaithful(task, o, message);
    if CompiledOk(o.compile) && CompiledOk(o.judgeCompile) {
      CaseShown(task, ps, p, o, shown, message);
    }
  }

  lemma CaseShown(task: OjTask, ps: Processes, p: Judge.Platform, o: Outcome, shown: Projection.Shown, message: string)
    requires |task.testcases| == |ps.runs| && Sound(task, o) && CasesTell(task, 0, ps, p, o.cases)
    requires o.cases != [] && o.finalStatus == LifecycleStatus.Failed
    requires (shown.status, shown.message) == Projection.ShownFor(o.cases[|o.cases| - 1], message)
    requires CompiledOk(o.compile) && CompiledOk(o.judgeCompile)
    ensures ShowsCase(task, |o.cases| - 1, ps, p, shown, message)
  {
    var k := |o.cases| - 1;
    assert CaseAt(task, 0 + k, ps, p, o.cases[k]);
    forall j | 0 <= j < k ensures Passes(task, j, ps, p) {
      assert CaseAt(task, 0 + j, ps, p, o.cases[j]);
    }
    forall kind | FailsWith(task, k, ps, kind) ensures Names(shown.status, kind) {
    }
  }

  /** What a submission shows while its task waits or runs, and when it is given up. */
  lemma WhileWaiting(status: LifecycleStatus, outcome: Option<Outcome>, message: string)
    requires status != LifecycleStatus.Completed && (status != LifecycleStatus.Failed || outcome.None?)
    ensures var shown := Projection.DeriveSubmissionProjection(status, outcome, message);
      && shown.message == message && !shown.status.Accepted?
      && (shown.status.Running? <==> status.Running?)
      && (shown.status.RuntimeError? <==> status.DeadLettered? || status.Failed?)
      && (shown.status.Queued? <==> !status.Running? && !status.DeadLettered? && !status.Failed?)
      && (status != LifecycleStatus.DeadLettered || outcome.None? ==> shown.score == shown.maxScore == 0)
  {
  }
}
