/**
 What a submission shows for a runtime event: its status, score, maximal score and
 message, derived from the outcome of an execution.
 */
module Projection {
  import opened Prelude
  import opened Execution
  import opened WorkerLoop
  import Judge

  datatype SubmissionStatus =
    | Pending
    | Queued
    | Running
    | Accepted
    | WrongAnswer
    | CompileError
    | TimeLimitExceeded
    | MemoryLimitExceeded
    | OutputLimitExceeded
    | SecurityViolation
    | RuntimeError

  datatype Shown = Shown(status: SubmissionStatus, score: u32, maxScore: u32, message: string)

  function MapCompileFailure(kind: Option<FailureKind>): SubmissionStatus {
    match kind
    case Some(TimeLimitExceeded) => SubmissionStatus.TimeLimitExceeded
    case Some(MemoryLimitExceeded) => SubmissionStatus.MemoryLimitExceeded
    case Some(OutputLimitExceeded) => SubmissionStatus.OutputLimitExceeded
    case Some(SecurityViolation) => SubmissionStatus.SecurityViolation
    case _ => SubmissionStatus.CompileError
  }

  function MapCaseFailure(status: CaseStatus): SubmissionStatus {
    match status
    case Accepted => SubmissionStatus.Accepted
    case WrongAnswer => SubmissionStatus.WrongAnswer
    case CaseTimeLimit => SubmissionStatus.TimeLimitExceeded
    case CaseMemoryLimit => SubmissionStatus.MemoryLimitExceeded
    case CaseOutputLimit => SubmissionStatus.OutputLimitExceeded
    case CaseSecurityViolation => SubmissionStatus.SecurityViolation
    case CaseRuntimeError => SubmissionStatus.RuntimeError
  }

  // ---------- scores ----------

  /** Adding up 32-bit numbers, wrapping around. */
  function SumU32(cases: seq<Case>, sum: u32): u32 {
    if cases == [] then sum else SumU32(cases[1..], (sum + cases[0].score) % U32_LIMIT)
  }

  function AcceptedCases(cases: seq<Case>): seq<Case> {
    if cases == [] then []
    else (if cases[0].status.Accepted? then [cases[0]] else []) + AcceptedCases(cases[1..])
  }

  function TotalScore(outcome: Option<Outcome>): u32 {
    if outcome.Some? then SumU32(outcome.value.cases, 0) else 0
  }

  function AcceptedScore(outcome: Option<Outcome>): u32 {
    if outcome.Some? then SumU32(AcceptedCases(outcome.value.cases), 0) else 0
  }

  // ---------- classification ----------

  function FirstFailure(cases: seq<Case>): Option<Case> {
    if cases == [] then None
    else if !cases[0].status.Accepted? then Some(cases[0])
    else FirstFailure(cases[1..])
  }

  function Excerpt(text: string, fallback: string): string {
    if text == [] then fallback else text
  }

  function ClassifyFailure(outcome: Option<Outcome>, fallback: string): (SubmissionStatus, string) {
    if outcome.None? then (SubmissionStatus.RuntimeError, fallback)
    else
      var o := outcome.value;
      if o.judgeCompile.Some? && o.judgeCompile.value.status.Failed? then
        (MapCompileFailure(o.judgeCompile.value.failureKind), Excerpt(o.judgeCompile.value.stderrExcerpt, fallback))
      else if o.compile.Some? && o.compile.value.status.Failed? then
        (MapCompileFailure(o.compile.value.failureKind), Excerpt(o.compile.value.stderrExcerpt, fallback))
      else if exists i :: 0 <= i < |o.cases| && o.cases[i].status.WrongAnswer? then
        (SubmissionStatus.WrongAnswer, "wrong answer")
      else
        match FirstFailure(o.cases)
        case Some(c) => (MapCaseFailure(c.status), Excerpt(c.stderrExcerpt, fallback))
        case None => (SubmissionStatus.RuntimeError, fallback)
  }

  function DeriveSubmissionProjection(status: LifecycleStatus, outcome: Option<Outcome>, message: string): Shown {
    match status
    case Running => Shown(SubmissionStatus.Running, 0, 0, message)
    case Completed => Shown(SubmissionStatus.Accepted, AcceptedScore(outcome), TotalScore(outcome), "accepted")
    case Failed =>
      var (shown, text) := ClassifyFailure(outcome, message);
      Shown(shown, AcceptedScore(outcome), TotalScore(outcome), text)
    case DeadLettered => Shown(SubmissionStatus.RuntimeError, AcceptedScore(outcome), TotalScore(outcome), message)
    case _ => Shown(SubmissionStatus.Queued, 0, 0, message)
  }

  // ---------- scores, exactly ----------

  function Total(cases: seq<Case>): nat {
    if cases == [] then 0 else cases[0].score + Total(cases[1..])
  }

  lemma {:induction false} SumWraps(cases: seq<Case>, sum: u32)
    ensures SumU32(cases, sum) == (sum + Total(cases)) % U32_LIMIT
  {
    if cases != [] {
      SumWraps(cases[1..], (sum + cases[0].score) % U32_LIMIT);
    }
  }

  lemma {:induction false} TotalConcat(a: seq<Case>, b: seq<Case>)
    ensures Total(a + b) == Total(a) + Total(b)
  {
    if a == [] {
      assert a + b == b;
    } else {
      assert (a + b)[1..] == a[1..] + b;
      TotalConcat(a[1..], b);
    }
  }

  /** All but the last case are accepted, as in every outcome of an execution. */
  ghost predicate StopsAtFailure(cases: seq<Case>) {
    forall k :: 0 <= k < |cases| - 1 ==> cases[k].status.Accepted?
  }

  function AcceptedPart(cases: seq<Case>): seq<Case> {
    if cases != [] && !cases[|cases| - 1].status.Accepted? then cases[..|cases| - 1] else cases
  }

  function LostScore(cases: seq<Case>): nat {
    if cases != [] && !cases[|cases| - 1].status.Accepted? then cases[|cases| - 1].score else 0
  }

  lemma {:induction false} AcceptedCasesArePrefix(cases: seq<Case>)
    requires StopsAtFailure(cases)
    ensures AcceptedCases(cases) == AcceptedPart(cases)
  {
    if |cases| == 1 {
      assert cases[1..] == [];
    } else if cases != [] {
      var c, rest := cases[0], cases[1..];
      assert StopsAtFailure(rest) by {
        assert forall k :: 0 <= k < |rest| ==> rest[k] == cases[k + 1];
      }
      AcceptedCasesArePrefix(rest);
      assert cases == [c] + rest;
    }
  }

  lemma LostPlusAccepted(cases: seq<Case>)
    ensures Total(cases) == Total(AcceptedPart(cases)) + LostScore(cases)
  {
    if cases != [] && !cases[|cases| - 1].status.Accepted? {
      var last := cases[|cases| - 1];
      assert cases == cases[..|cases| - 1] + [last];
      TotalConcat(cases[..|cases| - 1], [last]);
      assert [last][1..] == [];
    }
  }

  /**
   The score is the sum over the accepted prefix and the maximal score the sum over the
   cases that ran, both modulo 2^32.
   */
  lemma ScoresOf(o: Outcome)
    requires StopsAtFailure(o.cases)
    ensures AcceptedScore(Some(o)) == Total(AcceptedPart(o.cases)) % U32_LIMIT
    ensures TotalScore(Some(o)) == (Total(AcceptedPart(o.cases)) + LostScore(o.cases)) % U32_LIMIT
  {
    AcceptedCasesArePrefix(o.cases);
    SumWraps(o.cases, 0);
    SumWraps(AcceptedPart(o.cases), 0);
    LostPlusAccepted(o.cases);
  }

  /** Exactly when the score is at most the maximal score: the lost points must not wrap the sum around. */
  lemma ScoreAtMostMaxIff(o: Outcome)
    requires StopsAtFailure(o.cases)
    ensures AcceptedScore(Some(o)) <= TotalScore(Some(o)) <==>
      Total(AcceptedPart(o.cases)) % U32_LIMIT + LostScore(o.cases) < U32_LIMIT
  {
    ScoresOf(o);
  }

  /** Without overflow both scores are the exact sums. */
  lemma ScoresExact(o: Outcome)
    requires StopsAtFailure(o.cases) && Total(o.cases) < U32_LIMIT
    ensures AcceptedScore(Some(o)) == Total(AcceptedPart(o.cases)) <= TotalScore(Some(o)) == Total(o.cases)
  {
    ScoresOf(o);
    LostPlusAccepted(o.cases);
  }

  /** One point lost after the largest score there is: the submission shows more than its maximum. */
  lemma ScoreCanExceedMax(compile: Option<StageOutcome>)
    ensures var o := Outcome(compile, None, [Case(1, U32_LIMIT - 1, CaseStatus.Accepted, ""),
                                             Case(2, 1, CaseStatus.WrongAnswer, "")], LifecycleStatus.Failed);
      StopsAtFailure(o.cases) && AcceptedScore(Some(o)) > TotalScore(Some(o))
  {
    var o := Outcome(compile, None, [Case(1, U32_LIMIT - 1, CaseStatus.Accepted, ""),
                                     Case(2, 1, CaseStatus.WrongAnswer, "")], LifecycleStatus.Failed);
    assert AcceptedPart(o.cases) == [o.cases[0]];
    assert [o.cases[0]][1..] == [];
    ScoreAtMostMaxIff(o);
  }

  // ---------- which failure is shown ----------

  lemma {:induction false} FirstFailureIs(cases: seq<Case>, i: nat)
    requires i < |cases| && !cases[i].status.Accepted? && forall k :: 0 <= k < i ==> cases[k].status.Accepted?
    ensures FirstFailure(cases) == Some(cases[i])
  {
    if i > 0 {
      FirstFailureIs(cases[1..], i - 1);
    }
  }

  /** What the first case that was not accepted should be shown as. */
  function ShownFor(c: Case, fallback: string): (SubmissionStatus, string) {
    if c.status.WrongAnswer? then (SubmissionStatus.WrongAnswer, "wrong answer")
    else (MapCaseFailure(c.status), Excerpt(c.stderrExcerpt, fallback))
  }

  predicate NothingSkipped(o: Outcome) {
    (o.compile.Some? ==> !o.compile.value.status.Skipped?)
    && (o.judgeCompile.Some? ==> !o.judgeCompile.value.status.Skipped?)
  }

  /**
   For any list of cases, executed or not: the scan that looks for a wrong answer first
   shows the first failing case exactly when no later case is the only wrong answer.
   */
  lemma WrongAnswerScanAgreesIff(o: Outcome, fallback: string, i: nat)
    requires NothingSkipped(o) && CompiledOk(o.compile) && CompiledOk(o.judgeCompile)
    requires i < |o.cases| && !o.cases[i].status.Accepted? && forall k :: 0 <= k < i ==> o.cases[k].status.Accepted?
    ensures ClassifyFailure(Some(o), fallback) == ShownFor(o.cases[i], fallback) <==>
      o.cases[i].status.WrongAnswer? || forall k :: i < k < |o.cases| ==> !o.cases[k].status.WrongAnswer?
  {
    FirstFailureIs(o.cases, i);
  }

  /** The failing compile stage that is shown, if there is one. */
  function FailedCompile(o: Outcome): Option<StageOutcome> {
    if !CompiledOk(o.compile) then o.compile
    else if !CompiledOk(o.judgeCompile) then o.judgeCompile
    else None
  }

  /**
   For every outcome an execution returns: a submission is shown as accepted exactly when
   every stage ran and was accepted, and otherwise as the failure that stopped the
   execution, be it the compile stage, the judge's compile stage or the last case.
   */
  lemma ProjectionFaithful(task: OjTask, o: Outcome, message: string)
    requires Sound(task, o) && NothingSkipped(o)
    ensures var shown := DeriveSubmissionProjection(o.finalStatus, Some(o), message);
      && (shown.status == SubmissionStatus.Accepted <==> o.finalStatus == LifecycleStatus.Completed)
      && (FailedCompile(o).Some? ==>
            && shown.status == MapCompileFailure(FailedCompile(o).value.failureKind)
            && shown.message == Excerpt(FailedCompile(o).value.stderrExcerpt, message)
            && shown.score == shown.maxScore == 0)
      && (FailedCompile(o).None? && o.finalStatus == LifecycleStatus.Failed ==>
            && o.cases != []
            && (shown.status, shown.message) == ShownFor(o.cases[|o.cases| - 1], message))
  {
    if FailedCompile(o).None? && o.finalStatus == LifecycleStatus.Failed {
      WrongAnswerScanAgreesIff(o, message, |o.cases| - 1);
    }
  }

  // ---------- from testcases to the submission ----------

  ghost predicate CaseAccepted(task: OjTask, i: nat, ps: Processes, p: Judge.Platform)
    requires i < |task.testcases| == |ps.runs|
  {
    JudgeCase(task, i, ps, p).Ok? && JudgeCase(task, i, ps, p).value.status.Accepted?
  }

  lemma {:induction false} AllAcceptedIff(task: OjTask, i: nat, ps: Processes, p: Judge.Platform)
    requires i <= |task.testcases| == |ps.runs| && JudgeCases(task, i, ps, p).Ok?
    ensures AllAccepted(JudgeCases(task, i, ps, p).value) <==>
      forall k :: i <= k < |task.testcases| ==> CaseAccepted(task, k, ps, p)
    decreases |task.testcases| - i
  {
    if i < |task.testcases| {
      var cs, c := JudgeCases(task, i, ps, p).value, JudgeCase(task, i, ps, p).value;
      assert cs[0] == c;
      assert CaseAccepted(task, i, ps, p) <==> c.status.Accepted?;
      if c.status.Accepted? {
        AllAcceptedIff(task, i + 1, ps, p);
        assert AllAccepted(cs) <==> AllAccepted(cs[1..]) by {
          assert forall k :: 1 <= k < |cs| ==> cs[k] == cs[1..][k - 1];
        }
      }
    }
  }

  /**
   End to end. When a validated task was executed, its submission is shown as accepted
   exactly when the program compiled, the special judge compiled, and every single
   testcase, judged on its own, was accepted.
   */
  lemma AcceptedIffEveryTestcaseIs(task: OjTask, hasCompileStage: bool, spjCompiled: bool, disk: Disk,
                                   ps: Processes, p: Judge.Platform, o: Outcome, message: string)
    requires ValidTask(task) && |task.testcases| == |ps.runs|
    requires Executed(Prepare(task, hasCompileStage, spjCompiled), WriteCases(disk, task.testcases), ps, p) == Ok(o)
    requires NothingSkipped(o)
    ensures DeriveSubmissionProjection(o.finalStatus, Some(o), message).status == SubmissionStatus.Accepted <==>
      && (hasCompileStage ==> ps.compile.Ok? && ps.compile.value.status.Succeeded?)
      && (IsSpj(task.judgeConfig) && spjCompiled ==> ps.judgeCompile.Ok? && ps.judgeCompile.value.status.Succeeded?)
      && forall k :: 0 <= k < |task.testcases| ==> CaseAccepted(task, k, ps, p)
  {
    ExecutedOutcomeIsSound(task, hasCompileStage, spjCompiled, disk, ps, p, Ok(o));
    ExecuteRefinesJudging(task, hasCompileStage, spjCompiled, disk, ps, p);
    ProjectionFaithful(task, o, message);
    if JudgeCases(task, 0, ps, p).Ok? {
      AllAcceptedIff(task, 0, ps, p);
    }
  }
}
