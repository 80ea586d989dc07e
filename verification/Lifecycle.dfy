/**
 What a task's snapshot and its events say, over every run of groups without a common
 route.
 */
module Lifecycle {
  import opened Prelude
  import opened TaskQueue
  import opened QueueAccounting
  import opened TaskPlaces
  import opened WorkerLoop
  import opened WorkerInvariant

  // ---------- lifecycle agreement ----------

  ghost predicate InBucket(q: Queue, task: Task) {
    exists r, i :: r in q.buckets && 0 <= i < |q.buckets[r]| && q.buckets[r][i].task == task
  }

  ghost predicate InDeadLetters(q: Queue, task: Task) {
    exists i :: 0 <= i < |q.dead| && q.dead[i].task == task
  }

  /** A task that was enqueued is waiting, leased, dead-lettered or acknowledged. */
  lemma Somewhere(w: World, task: Task)
    requires Conserved(w) && task in w.enqueued
    ensures InBucket(w.q, task) || InDeadLetters(w.q, task) || task in w.acked
      || exists k :: k in w.q.leased && w.q.leased[k].task == task
  {
    var g := ByTask(task);
    var n :| 0 <= n < |w.enqueued| && w.enqueued[n] == task;
    SumSeqAtLeast(w.enqueued, n, OfTask(g));
    assert Balanced(w, g);
    if QueueAccounting.Queued(w.q, g) > 0 {
      var r := SumMapWitness(w.q.buckets, OfBucket(g));
      var i := SumSeqWitness(w.q.buckets[r], OfQueued(g));
      assert w.q.buckets[r][i].task == task;
    } else if Leased(w.q, g) > 0 {
      var k := SumMapWitness(w.q.leased, OfLeased(g));
    } else if Dead(w.q, g) > 0 {
      var i := SumSeqWitness(w.q.dead, OfDead(g));
      assert w.q.dead[i].task == task;
    } else {
      var i := SumSeqWitness(w.acked, OfTask(g));
    }
  }

  /** The snapshot a task's place calls for. */
  ghost predicate Agrees(s: System, task: Task) {
    task.taskId in s.snapshots
    && var status := s.snapshots[task.taskId];
      && (InBucket(s.w.q, task) <==> status.Queued? || status.Retrying?)
      && (task in s.w.acked <==> status.Completed? || status.Failed?)
      && (InDeadLetters(s.w.q, task) <==> status == LifecycleStatus.DeadLettered)
  }

  lemma HeadAgrees(groups: Groups, s: System, g: nat, task: Task)
    requires Inv(groups, s) && Disjoint(groups) && task in s.w.enqueued
    requires g in groups && g in s.workers && s.workers[g].Head? && Allowed(groups[g], RouteOf(task))
    ensures Agrees(s, task)
  {
    assert task in s.scheduled;
    Somewhere(s.w, task);
    NobodyHolds(groups, s, g, task);
    if InBucket(s.w.q, task) {
      var r, i :| r in s.w.q.buckets && 0 <= i < |s.w.q.buckets[r]| && s.w.q.buckets[r][i].task == task;
      assert ItemOk(s, s.w.q.buckets[r][i]);
    }
    if InDeadLetters(s.w.q, task) {
      var i :| 0 <= i < |s.w.q.dead| && s.w.q.dead[i].task == task;
      assert RecordOk(s, s.w.q.dead[i]);
    }
    if task in s.w.acked {
      var i :| 0 <= i < |s.w.acked| && s.w.acked[i] == task;
      assert SettledOk(s, s.w.acked[i]);
    }
  }

  lemma NobodyHolds(groups: Groups, s: System, g: nat, task: Task)
    requires WorkersOk(groups, s) && LeasesOwned(s) && Disjoint(groups)
    requires g in groups && g in s.workers && s.workers[g].Head? && Allowed(groups[g], RouteOf(task))
    ensures forall attempt, disposition :: !BeingReported(s, task, attempt, disposition)
    ensures forall k :: k in s.w.q.leased ==> s.w.q.leased[k].task != task
  {
    forall h | h in s.workers && !s.workers[h].Head? ensures s.workers[h].d.task != task {
      assert WorkerOk(groups, s, h, s.workers[h]);
    }
    forall k | k in s.w.q.leased ensures s.w.q.leased[k].task != task {
      assert LeaseOwned(s, s.w.q.leased[k]);
    }
  }

  /**
   Lifecycle agreement. With disjoint groups and distinct ids, whenever the group
   bound to a scheduled task's route is at its loop head, the task's snapshot says
   where the task is: Queued or Retrying exactly when it waits in a bucket,
   Completed or Failed exactly when it was acknowledged, DeadLettered exactly when
   it is a dead letter; while `schedule` has not yet enqueued it, Queued and nowhere.
   */
  lemma LifecycleAgreement(groups: Groups, actions: seq<Action>, g: nat, task: Task)
    requires Disjoint(groups) && Possible(groups, Initial(groups), actions) && DistinctIds(TasksScheduled(actions))
    requires task in TasksScheduled(actions)
    requires var s := RunSystem(groups, Initial(groups), actions);
      g in groups && g in s.workers && s.workers[g].Head? && Allowed(groups[g], RouteOf(task))
    ensures var s := RunSystem(groups, Initial(groups), actions);
      if Pending(s, task) then
        task.taskId in s.snapshots && s.snapshots[task.taskId].Queued?
        && !InBucket(s.w.q, task) && !InDeadLetters(s.w.q, task) && task !in s.w.acked
      else Agrees(s, task)
  {
    ReachableInv(groups, actions);
    var s := RunSystem(groups, Initial(groups), actions);
    if Pending(s, task) {
      PendingNowhere(groups, s, task);
    } else {
      HeadAgrees(groups, s, g, task);
    }
  }

  lemma PendingNowhere(groups: Groups, s: System, task: Task)
    requires Inv(groups, s) && Pending(s, task)
    ensures task.taskId in s.snapshots && s.snapshots[task.taskId].Queued?
    ensures !InBucket(s.w.q, task) && !InDeadLetters(s.w.q, task) && task !in s.w.acked
  {
    var sid :| sid in s.schedulers && s.schedulers[sid] == task;
    assert task in s.scheduled && Last(s, task.taskId).None?;
    if InBucket(s.w.q, task) {
      var r, i :| r in s.w.q.buckets && 0 <= i < |s.w.q.buckets[r]| && s.w.q.buckets[r][i].task == task;
      WaitingKnown(s.w, r, i);
    }
    if InDeadLetters(s.w.q, task) {
      var i :| 0 <= i < |s.w.q.dead| && s.w.q.dead[i].task == task;
      DeadKnown(s.w, i);
    }
    if task in s.w.acked {
      var i :| 0 <= i < |s.w.acked| && s.w.acked[i] == task;
      AckedKnown(s.w, i);
    }
  }

  // ---------- tasks no group serves ----------

  ghost predicate NobodyBinds(groups: Groups, r: Route) {
    forall g :: g in groups ==> !Allowed(groups[g], r)
  }

  /** Who publishes holds a delivery, and the event is about its task. */
  lemma WorkTrace(groups: Groups, s: System, g: nat, now: nat, answers: Answers) returns (e: seq<Event>)
    requires g in groups && g in s.workers
    ensures WorkStep(groups, s, g, now, answers).trace == s.trace + e && |e| <= 1
    ensures e != [] ==> !s.workers[g].Head? && e[0].taskId == s.workers[g].d.task.taskId
  {
    var trace := WorkStep(groups, s, g, now, answers).trace;
    e := if |trace| > |s.trace| then [trace[|s.trace|]] else [];
    assert s.trace + [] == s.trace;
  }

  lemma StepStaysSilent(groups: Groups, s: System, a: Action, task: Task, all: seq<Task>)
    requires WorkersOk(groups, s) && Enabled(groups, s, a) && NobodyBinds(groups, RouteOf(task))
    requires DistinctIds(all) && task in all && (forall other :: other in s.w.enqueued ==> other in all)
    requires EventsOf(s.trace, task.taskId) == []
    ensures EventsOf(WorkerLoop.Step(groups, s, a).trace, task.taskId) == []
  {
    if a.Work? {
      var e := WorkTrace(groups, s, a.group, a.now, a.answers);
      if e != [] {
        assert e == [e[0]];
        EventsOfAppend(s.trace, e[0], task.taskId);
      } else {
        assert s.trace + [] == s.trace;
      }
    }
  }

  lemma {:induction false} RunStaysSilent(groups: Groups, s: System, actions: seq<Action>, task: Task)
    requires Disjoint(groups) && Inv(groups, s) && Possible(groups, s, actions)
    requires NobodyBinds(groups, RouteOf(task)) && EventsOf(s.trace, task.taskId) == []
    requires DistinctIds(s.scheduled + TasksScheduled(actions)) && task in s.scheduled + TasksScheduled(actions)
    ensures EventsOf(RunSystem(groups, s, actions).trace, task.taskId) == []
    decreases |actions|
  {
    if actions != [] {
      var all := s.scheduled + TasksScheduled(actions);
      NextIsFresh(groups, s, actions);
      StepKeepsInv(groups, s, actions[0]);
      forall other | other in s.w.enqueued ensures other in all {
        assert other in s.scheduled;
      }
      StepStaysSilent(groups, s, actions[0], task, all);
      RunStaysSilent(groups, WorkerLoop.Step(groups, s, actions[0]), actions[1..], task);
    }
  }

  /** Nobody ever holds, settles or buries a task on a route that no group is bound to. */
  lemma UnboundIsWaiting(groups: Groups, s: System, task: Task)
    requires Inv(groups, s) && NobodyBinds(groups, RouteOf(task)) && Last(s, task.taskId).None?
    ensures task !in s.w.acked && !InDeadLetters(s.w.q, task)
    ensures task in s.w.enqueued ==> InBucket(s.w.q, task)
  {
    forall h | h in s.workers && !s.workers[h].Head? ensures s.workers[h].d.task != task {
      assert WorkerOk(groups, s, h, s.workers[h]);
    }
    forall k | k in s.w.q.leased ensures s.w.q.leased[k].task != task {
      assert LeaseOwned(s, s.w.q.leased[k]);
    }
    forall i | 0 <= i < |s.w.q.dead| ensures s.w.q.dead[i].task != task {
      assert RecordOk(s, s.w.q.dead[i]);
    }
    forall i | 0 <= i < |s.w.acked| ensures s.w.acked[i] != task {
      assert SettledOk(s, s.w.acked[i]);
    }
    if task in s.w.enqueued {
      Somewhere(s.w, task);
    }
  }

  /** A scheduled task on a route that no group is bound to waits for ever, and its snapshot says Queued. */
  lemma UnboundTaskWaits(groups: Groups, actions: seq<Action>, task: Task)
    requires Disjoint(groups) && Possible(groups, Initial(groups), actions) && DistinctIds(TasksScheduled(actions))
    requires task in TasksScheduled(actions) && NobodyBinds(groups, RouteOf(task))
    ensures var s := RunSystem(groups, Initial(groups), actions);
      && task.taskId in s.snapshots && s.snapshots[task.taskId].Queued?
      && (InBucket(s.w.q, task) || Pending(s, task))
      && !InDeadLetters(s.w.q, task) && task !in s.w.acked
  {
    InitialInv(groups);
    assert [] + TasksScheduled(actions) == TasksScheduled(actions);
    ReachableInv(groups, actions);
    RunStaysSilent(groups, Initial(groups), actions, task);
    UnboundIsWaiting(groups, RunSystem(groups, Initial(groups), actions), task);
  }

  // ---------- the trace of one task ----------

  /** Under the same conditions the events about each scheduled task follow the grammar. */
  lemma TraceGrammar(groups: Groups, actions: seq<Action>, task: Task)
    requires Disjoint(groups) && Possible(groups, Initial(groups), actions) && DistinctIds(TasksScheduled(actions))
    requires task in TasksScheduled(actions)
    ensures WellFormed(EventsOf(RunSystem(groups, Initial(groups), actions).trace, task.taskId),
                       task.retryPolicy.maxAttempts)
  {
    ReachableInv(groups, actions);
    var s := RunSystem(groups, Initial(groups), actions);
    if task !in s.w.enqueued {
      var sid :| sid in s.schedulers && s.schedulers[sid] == task;
      assert Last(s, task.taskId).None?;
    }
  }

  function Retries(events: seq<Event>): nat {
    if events == [] then 0
    else Retries(events[..|events| - 1]) + if events[|events| - 1].status.Retrying? then 1 else 0
  }

  function PlaceInAttempt(status: LifecycleStatus): nat {
    match status
    case Preparing => 1
    case Prepared => 2
    case Compiling => 3
    case Running => 3
    case _ => 4
  }

  predicate Terminal(status: LifecycleStatus) {
    status.Completed? || status.Failed? || status == LifecycleStatus.DeadLettered
  }

  /**
   What the grammar means: attempts are numbered 1, 2, … one more after each
   Retrying; only attempts below the maximum are retried and only the last allowed
   one is dead-lettered; an outcome that settles the task is the very last event;
   and there are at most four events for each attempt the task is allowed.
   */
  lemma {:induction false} GrammarMeans(events: seq<Event>, maxAttempts: nat, i: nat)
    requires WellFormed(events, maxAttempts) && i < |events|
    ensures events[i].attempt == 1 + Retries(events[..i]) <= Max(1, maxAttempts)
    ensures i < 4 * (events[i].attempt - 1) + PlaceInAttempt(events[i].status) <= 4 * Max(1, maxAttempts)
    ensures events[i].status.Retrying? ==> events[i].attempt < maxAttempts
    ensures events[i].status == LifecycleStatus.DeadLettered ==> events[i].attempt == Max(1, maxAttempts)
    ensures Terminal(events[i].status) ==> i == |events| - 1
    ensures !events[i].status.Queued?
  {
    if i > 0 {
      GrammarMeans(events, maxAttempts, i - 1);
      assert Follows(events[i - 1], events[i], maxAttempts);
      assert events[..i][..i - 1] == events[..i - 1];
    }
    if i < |events| - 1 {
      assert Follows(events[i], events[i + 1], maxAttempts);
    }
  }
}
