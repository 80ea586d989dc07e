/**
 What every step of the worker groups keeps, and so what holds in every state a run of
 groups without a common route reaches: each lease is the delivery some worker is at,
 and that worker's position agrees with the last event of its task; waiting items, dead
 letters and acknowledged tasks agree with the last event of theirs; a snapshot shows
 that event, or Queued before there is one; and the events follow the grammar.
 */
module WorkerInvariant {
  import opened Prelude
  import opened TaskQueue
  import opened QueueAccounting
  import opened TaskPlaces
  import opened WorkerLoop

  // ---------- what every step keeps ----------

  predicate Owns(worker: Worker) {
    !worker.Head? && !worker.Reporting?
  }

  ghost predicate LastIs(s: System, d: Delivery, statuses: set<LifecycleStatus>) {
    var last := Last(s, d.task.taskId);
    last.Some? && last.value.attempt == d.attempt && last.value.status in statuses
  }

  /** What a worker's position says about the last event of its task. */
  ghost predicate Stage(s: System, worker: Worker) {
    match worker
    case Head => true
    case Reserved(d) => ReadyFor(s, d.task.taskId, d.attempt)
    case AtPreparing(d) => LastIs(s, d, {Preparing})
    case AtPrepared(d) => LastIs(s, d, {Prepared})
    case AtStarted(d) => LastIs(s, d, {Compiling, Running})
    case Finished(d) => LastIs(s, d, {Completed, Failed})
    case Failing(d) => LastIs(s, d, {Preparing, Compiling, Running})
    case Reporting(d, disposition) =>
      LastIs(s, d, {Preparing, Compiling, Running})
      && (disposition.Requeued? <==> d.attempt < d.task.retryPolicy.maxAttempts)
  }

  ghost predicate WorkerOk(groups: Groups, s: System, g: nat, worker: Worker) {
    g in groups && (worker.Head? || (
      && Allowed(groups[g], RouteOf(worker.d.task))
      && worker.d.task in s.w.enqueued
      && AttemptInBounds(worker.d.attempt, worker.d.task)
      && Stage(s, worker)
      && (Owns(worker) ==>
            worker.d.deliveryId in s.w.q.leased && s.w.q.leased[worker.d.deliveryId] == worker.d)))
  }

  ghost predicate WorkersOk(groups: Groups, s: System) {
    forall g :: g in s.workers ==> WorkerOk(groups, s, g, s.workers[g])
  }

  ghost predicate LeaseOwned(s: System, d: Delivery) {
    exists g :: g in s.workers && Owns(s.workers[g]) && s.workers[g].d == d
  }

  /** Every lease is the delivery some worker is at. */
  ghost predicate LeasesOwned(s: System) {
    forall k :: k in s.w.q.leased ==> LeaseOwned(s, s.w.q.leased[k])
  }

  ghost predicate BeingReported(s: System, task: Task, attempt: int, disposition: Disposition) {
    exists g :: g in s.workers && s.workers[g].Reporting? && s.workers[g].disposition == disposition
                && s.workers[g].d.task == task && s.workers[g].d.attempt == attempt
  }

  ghost predicate ItemOk(s: System, item: QueuedTask) {
    BeingReported(s, item.task, item.attempt - 1, Requeued) || ReadyFor(s, item.task.taskId, item.attempt)
  }

  ghost predicate RecordOk(s: System, record: DeadLetter) {
    BeingReported(s, record.task, record.attempt, Disposition.DeadLettered)
    || Last(s, record.task.taskId) == Some(Event(record.task.taskId, record.attempt, LifecycleStatus.DeadLettered))
  }

  predicate SettledOk(s: System, task: Task) {
    var last := Last(s, task.taskId);
    last.Some? && (last.value.status.Completed? || last.value.status.Failed?)
  }

  ghost predicate WaitingOk(s: System) {
    forall r, i :: r in s.w.q.buckets && 0 <= i < |s.w.q.buckets[r]| ==> ItemOk(s, s.w.q.buckets[r][i])
  }

  ghost predicate DeadOk(s: System) {
    forall i :: 0 <= i < |s.w.q.dead| ==> RecordOk(s, s.w.q.dead[i])
  }

  ghost predicate AckedOk(s: System) {
    forall i :: 0 <= i < |s.w.acked| ==> SettledOk(s, s.w.acked[i])
  }

  /** A task between its snapshot and its enqueue has no events, and no one else has its id. */
  ghost predicate PendingOk(s: System) {
    && (forall sid :: sid in s.schedulers ==>
          && Last(s, s.schedulers[sid].taskId).None?
          && (forall i :: 0 <= i < |s.w.enqueued| ==> s.w.enqueued[i].taskId != s.schedulers[sid].taskId))
    && (forall x, y :: x in s.schedulers && y in s.schedulers && x != y ==>
          s.schedulers[x].taskId != s.schedulers[y].taskId)
  }

  ghost predicate Pending(s: System, task: Task) {
    exists sid :: sid in s.schedulers && s.schedulers[sid] == task
  }

  ghost predicate ScheduledOk(s: System) {
    forall task :: task in s.scheduled <==> task in s.w.enqueued || Pending(s, task)
  }

  /** The snapshot shows the last event, or Queued before the first. */
  ghost predicate SnapshotsOk(s: System) {
    forall task :: task in s.scheduled ==>
      task.taskId in s.snapshots
      && s.snapshots[task.taskId]
         == (if Last(s, task.taskId).None? then LifecycleStatus.Queued else Last(s, task.taskId).value.status)
  }

  ghost predicate TracesOk(s: System) {
    forall task :: task in s.w.enqueued ==>
      WellFormed(EventsOf(s.trace, task.taskId), task.retryPolicy.maxAttempts)
  }

  /** Events are only about tasks that were enqueued. */
  ghost predicate TraceKnown(s: System) {
    forall id :: EventsOf(s.trace, id) != [] ==> exists task :: task in s.w.enqueued && task.taskId == id
  }

  ghost predicate Inv(groups: Groups, s: System) {
    && Conserved(s.w) && DistinctIds(s.w.enqueued)
    && WorkersOk(groups, s) && LeasesOwned(s)
    && WaitingOk(s) && DeadOk(s) && AckedOk(s)
    && PendingOk(s) && ScheduledOk(s) && SnapshotsOk(s) && TracesOk(s) && TraceKnown(s)
  }

  // ---------- who holds a task ----------

  /** With disjoint groups, two workers never hold the same task. */
  lemma HolderUnique(groups: Groups, s: System, g: nat, h: nat)
    requires Disjoint(groups) && WorkersOk(groups, s) && DistinctIds(s.w.enqueued)
    requires g in s.workers && h in s.workers && !s.workers[g].Head? && !s.workers[h].Head?
    requires s.workers[g].d.task.taskId == s.workers[h].d.task.taskId
    ensures g == h
  {
  }

  // ---------- publishing ----------

  /** s' has exactly one event more than s: e. */
  ghost predicate OneMore(s: System, s': System, e: Event) {
    forall id :: EventsOf(s'.trace, id) == EventsOf(s.trace, id) + if id == e.taskId then [e] else []
  }

  lemma PublishOneMore(s: System, g: nat, d: Delivery, status: LifecycleStatus, next: Worker)
    ensures OneMore(s, Publish(s, g, d, status, next), Event(d.task.taskId, d.attempt, status))
  {
    var e := Event(d.task.taskId, d.attempt, status);
    forall id ensures EventsOf(s.trace + [e], id) == EventsOf(s.trace, id) + if id == e.taskId then [e] else [] {
      EventsOfAppend(s.trace, e, id);
    }
  }

  lemma LastAfter(s: System, s': System, e: Event, id: string)
    requires OneMore(s, s', e)
    ensures Last(s', id) == if id == e.taskId then Some(e) else Last(s, id)
  {
    assert EventsOf(s'.trace, id) == EventsOf(s.trace, id) + if id == e.taskId then [e] else [];
  }

  ghost predicate MayEmit(s: System, d: Delivery, status: LifecycleStatus) {
    var last, e := Last(s, d.task.taskId), Event(d.task.taskId, d.attempt, status);
    if last.None? then status.Preparing? && d.attempt == 1
    else Follows(last.value, e, d.task.retryPolicy.maxAttempts)
  }

  lemma PublishTraces(s: System, s': System, d: Delivery, status: LifecycleStatus)
    requires OneMore(s, s', Event(d.task.taskId, d.attempt, status)) && s'.w == s.w
    requires TracesOk(s) && TraceKnown(s) && DistinctIds(s.w.enqueued) && d.task in s.w.enqueued
    requires MayEmit(s, d, status)
    ensures TracesOk(s') && TraceKnown(s')
  {
    var e := Event(d.task.taskId, d.attempt, status);
    forall task | task in s.w.enqueued
      ensures WellFormed(EventsOf(s'.trace, task.taskId), task.retryPolicy.maxAttempts)
    {
      if task.taskId == e.taskId {
      } else {
        assert EventsOf(s'.trace, task.taskId) == EventsOf(s.trace, task.taskId);
      }
    }
    forall id | EventsOf(s'.trace, id) != [] ensures exists task :: task in s.w.enqueued && task.taskId == id {
      if id != e.taskId {
        assert EventsOf(s.trace, id) != [];
      }
    }
  }

  lemma PublishSnapshots(s: System, g: nat, d: Delivery, status: LifecycleStatus, next: Worker)
    requires PendingOk(s) && ScheduledOk(s) && SnapshotsOk(s) && d.task in s.w.enqueued
    ensures var s' := Publish(s, g, d, status, next); PendingOk(s') && ScheduledOk(s') && SnapshotsOk(s')
  {
    var s', e := Publish(s, g, d, status, next), Event(d.task.taskId, d.attempt, status);
    PublishOneMore(s, g, d, status, next);
    assert forall task :: Pending(s', task) <==> Pending(s, task);
    forall task | task in s'.scheduled
      ensures task.taskId in s'.snapshots
      ensures s'.snapshots[task.taskId]
         == if Last(s', task.taskId).None? then LifecycleStatus.Queued else Last(s', task.taskId).value.status
    {
      LastAfter(s, s', e, task.taskId);
    }
    forall sid | sid in s'.schedulers ensures Last(s', s'.schedulers[sid].taskId).None? {
      LastAfter(s, s', e, s'.schedulers[sid].taskId);
    }
  }

  // ---------- facts about workers ----------

  /** A worker that stays put, whose task's events and lease stay put, is still fine. */
  lemma WorkerKept(groups: Groups, s: System, s': System, g: nat, worker: Worker)
    requires WorkerOk(groups, s, g, worker)
    requires s'.w.enqueued == s.w.enqueued
    requires !worker.Head? ==> Last(s', worker.d.task.taskId) == Last(s, worker.d.task.taskId)
    requires Owns(worker) ==>
      worker.d.deliveryId in s'.w.q.leased && s'.w.q.leased[worker.d.deliveryId] == worker.d
    ensures WorkerOk(groups, s', g, worker)
  {
  }

  lemma LeaseStays(s: System, s': System, d: Delivery, g: nat)
    requires LeaseOwned(s, d) && g in s.workers && g in s'.workers && s'.workers == s.workers[g := s'.workers[g]]
    requires Owns(s.workers[g]) && s.workers[g].d == d ==> Owns(s'.workers[g]) && s'.workers[g].d == d
    ensures LeaseOwned(s', d)
  {
    var h :| h in s.workers && Owns(s.workers[h]) && s.workers[h].d == d;
    assert Owns(s'.workers[h]) && s'.workers[h].d == d;
  }

  lemma ReportStays(s: System, s': System, g: nat, task: Task, attempt: int, disposition: Disposition)
    requires g in s.workers && g in s'.workers && s'.workers == s.workers[g := s'.workers[g]]
    requires s.workers[g].Reporting? && s.workers[g].d.task == task ==> s'.workers[g] == s.workers[g]
    requires BeingReported(s, task, attempt, disposition)
    ensures BeingReported(s', task, attempt, disposition)
  {
    var h :| h in s.workers && s.workers[h].Reporting? && s.workers[h].disposition == disposition
             && s.workers[h].d.task == task && s.workers[h].d.attempt == attempt;
    assert s'.workers[h] == s.workers[h];
  }

  /** An item stays fine when no event about it is added and no report of it ends. */
  lemma ItemKept(s: System, s': System, g: nat, item: QueuedTask)
    requires ItemOk(s, item) && Last(s', item.task.taskId) == Last(s, item.task.taskId)
    requires g in s.workers && g in s'.workers && s'.workers == s.workers[g := s'.workers[g]]
    requires s.workers[g].Reporting? ==> s.workers[g].d.task != item.task
    ensures ItemOk(s', item)
  {
    if BeingReported(s, item.task, item.attempt - 1, Requeued) {
      ReportStays(s, s', g, item.task, item.attempt - 1, Requeued);
    }
  }

  lemma RecordKept(s: System, s': System, g: nat, record: DeadLetter)
    requires RecordOk(s, record) && Last(s', record.task.taskId) == Last(s, record.task.taskId)
    requires g in s.workers && g in s'.workers && s'.workers == s.workers[g := s'.workers[g]]
    requires s.workers[g].Reporting? ==> s.workers[g].d.task != record.task
    ensures RecordOk(s', record)
  {
    if BeingReported(s, record.task, record.attempt, Disposition.DeadLettered) {
      ReportStays(s, s', g, record.task, record.attempt, Disposition.DeadLettered);
    }
  }

  /** Workers other than the publisher are about other tasks, so nothing changes for them. */
  lemma PublishWorkers(groups: Groups, s: System, g: nat, status: LifecycleStatus, next: Worker)
    requires Disjoint(groups) && WorkersOk(groups, s) && DistinctIds(s.w.enqueued)
    requires g in s.workers && !s.workers[g].Head?
    requires next.Head? || (Owns(next) && Owns(s.workers[g]) && next.d == s.workers[g].d)
    requires Stage(Publish(s, g, s.workers[g].d, status, next), next)
    ensures WorkersOk(groups, Publish(s, g, s.workers[g].d, status, next))
  {
    var d := s.workers[g].d;
    var s' := Publish(s, g, d, status, next);
    PublishOneMore(s, g, d, status, next);
    forall h | h in s'.workers ensures WorkerOk(groups, s', h, s'.workers[h]) {
      assert WorkerOk(groups, s, h, s.workers[h]) && WorkerOk(groups, s, g, s.workers[g]);
      if h != g && !s.workers[h].Head? {
        if s.workers[h].d.task.taskId == d.task.taskId {
          HolderUnique(groups, s, g, h);
        }
        LastAfter(s, s', Event(d.task.taskId, d.attempt, status), s.workers[h].d.task.taskId);
        WorkerKept(groups, s, s', h, s.workers[h]);
      }
    }
  }

  lemma MoveLeases(s: System, s': System, g: nat)
    requires LeasesOwned(s) && s'.w == s.w && g in s.workers && g in s'.workers
    requires s'.workers == s.workers[g := s'.workers[g]]
    requires Owns(s.workers[g]) ==> Owns(s'.workers[g]) && s'.workers[g].d == s.workers[g].d
    ensures LeasesOwned(s')
  {
    forall k | k in s'.w.q.leased ensures LeaseOwned(s', s'.w.q.leased[k]) {
      LeaseStays(s, s', s.w.q.leased[k], g);
    }
  }

  /** Publishing while the delivery stays leased. */
  lemma PublishOwned(groups: Groups, s: System, g: nat, status: LifecycleStatus, next: Worker)
    requires Inv(groups, s) && Disjoint(groups) && g in s.workers && Owns(s.workers[g])
    requires Owns(next) && next.d == s.workers[g].d
    requires MayEmit(s, next.d, status) && Stage(Publish(s, g, next.d, status, next), next)
    ensures Inv(groups, Publish(s, g, next.d, status, next))
  {
    var d := next.d;
    var s', e := Publish(s, g, d, status, next), Event(d.task.taskId, d.attempt, status);
    PublishOneMore(s, g, d, status, next);
    PublishTraces(s, s', d, status);
    PublishSnapshots(s, g, d, status, next);
    PublishWorkers(groups, s, g, status, next);
    LeasedAlone(s.w, d.deliveryId);
    OwnedElsewhere(s, s', g, e);
    MoveLeases(s, s', g);
  }

  lemma OwnedElsewhere(s: System, s': System, g: nat, e: Event)
    requires OneMore(s, s', e) && Elsewhere(s.w, e.taskId) && s'.w == s.w
    requires g in s.workers && g in s'.workers
    requires !s.workers[g].Reporting? && s'.workers == s.workers[g := s'.workers[g]]
    requires WaitingOk(s) && DeadOk(s) && AckedOk(s)
    ensures WaitingOk(s') && DeadOk(s') && AckedOk(s')
  {
    forall id | id != e.taskId ensures Last(s', id) == Last(s, id) {
      LastAfter(s, s', e, id);
    }
    forall r, i | r in s'.w.q.buckets && 0 <= i < |s'.w.q.buckets[r]| ensures ItemOk(s', s'.w.q.buckets[r][i]) {
      ItemKept(s, s', g, s.w.q.buckets[r][i]);
    }
    forall i | 0 <= i < |s'.w.q.dead| ensures RecordOk(s', s'.w.q.dead[i]) {
      RecordKept(s, s', g, s.w.q.dead[i]);
    }
    forall i | 0 <= i < |s'.w.acked| ensures SettledOk(s', s'.w.acked[i]) {
      assert SettledOk(s, s.w.acked[i]);
    }
  }

  // ---------- reporting a failed attempt ----------

  lemma ReportedItem(groups: Groups, s: System, s': System, g: nat, e: Event, item: QueuedTask)
    requires Disjoint(groups) && WorkersOk(groups, s) && DistinctIds(s.w.enqueued) && OneMore(s, s', e)
    requires g in s.workers && g in s'.workers && s'.workers == s.workers[g := s'.workers[g]]
    requires s.workers[g].Reporting? && e.taskId == s.workers[g].d.task.taskId && e.attempt == s.workers[g].d.attempt
    requires e.status == if s.workers[g].disposition.Requeued? then Retrying else LifecycleStatus.DeadLettered
    requires ItemOk(s, item)
    ensures ItemOk(s', item)
  {
    assert WorkerOk(groups, s, g, s.workers[g]);
    LastAfter(s, s', e, item.task.taskId);
    if item.task.taskId != e.taskId {
      ItemKept(s, s', g, item);
    } else if BeingReported(s, item.task, item.attempt - 1, Requeued) {
    }
  }

  lemma ReportedRecord(groups: Groups, s: System, s': System, g: nat, e: Event, record: DeadLetter)
    requires Disjoint(groups) && WorkersOk(groups, s) && DistinctIds(s.w.enqueued) && OneMore(s, s', e)
    requires g in s.workers && g in s'.workers && s'.workers == s.workers[g := s'.workers[g]]
    requires s.workers[g].Reporting? && e.taskId == s.workers[g].d.task.taskId && e.attempt == s.workers[g].d.attempt
    requires e.status == if s.workers[g].disposition.Requeued? then Retrying else LifecycleStatus.DeadLettered
    requires RecordOk(s, record)
    ensures RecordOk(s', record)
  {
    assert WorkerOk(groups, s, g, s.workers[g]);
    LastAfter(s, s', e, record.task.taskId);
    if record.task.taskId != e.taskId {
      RecordKept(s, s', g, record);
    } else if BeingReported(s, record.task, record.attempt, Disposition.DeadLettered) {
    }
  }

  lemma ReportSettles(groups: Groups, s: System, s': System, g: nat, e: Event)
    requires Disjoint(groups) && WorkersOk(groups, s) && DistinctIds(s.w.enqueued) && OneMore(s, s', e) && s'.w == s.w
    requires g in s.workers && g in s'.workers && s'.workers == s.workers[g := s'.workers[g]]
    requires s.workers[g].Reporting? && e.taskId == s.workers[g].d.task.taskId && e.attempt == s.workers[g].d.attempt
    requires e.status == if s.workers[g].disposition.Requeued? then Retrying else LifecycleStatus.DeadLettered
    requires WaitingOk(s) && DeadOk(s) && AckedOk(s)
    ensures WaitingOk(s') && DeadOk(s') && AckedOk(s')
  {
    forall r, i | r in s'.w.q.buckets && 0 <= i < |s'.w.q.buckets[r]| ensures ItemOk(s', s'.w.q.buckets[r][i]) {
      ReportedItem(groups, s, s', g, e, s.w.q.buckets[r][i]);
    }
    forall i | 0 <= i < |s'.w.q.dead| ensures RecordOk(s', s'.w.q.dead[i]) {
      ReportedRecord(groups, s, s', g, e, s.w.q.dead[i]);
    }
    forall i | 0 <= i < |s'.w.acked| ensures SettledOk(s', s'.w.acked[i]) {
      assert WorkerOk(groups, s, g, s.workers[g]) && SettledOk(s, s.w.acked[i]);
      LastAfter(s, s', e, s.w.acked[i].taskId);
    }
  }

  lemma ReportStep(groups: Groups, s: System, g: nat, status: LifecycleStatus)
    requires Inv(groups, s) && Disjoint(groups) && g in s.workers && s.workers[g].Reporting?
    requires status == if s.workers[g].disposition.Requeued? then Retrying else LifecycleStatus.DeadLettered
    ensures Inv(groups, Publish(s, g, s.workers[g].d, status, Head))
  {
    var d := s.workers[g].d;
    var s', e := Publish(s, g, d, status, Head), Event(d.task.taskId, d.attempt, status);
    assert WorkerOk(groups, s, g, s.workers[g]);
    PublishOneMore(s, g, d, status, Head);
    PublishTraces(s, s', d, status);
    PublishSnapshots(s, g, d, status, Head);
    PublishWorkers(groups, s, g, status, Head);
    ReportSettles(groups, s, s', g, e);
    MoveLeases(s, s', g);
  }

  // ---------- steps without an event ----------

  lemma SameTrace(s: System, s': System)
    requires s'.trace == s.trace && s'.snapshots == s.snapshots && s'.schedulers == s.schedulers
    requires s'.scheduled == s.scheduled && s'.w.enqueued == s.w.enqueued
    ensures PendingOk(s) ==> PendingOk(s')
    ensures ScheduledOk(s) ==> ScheduledOk(s')
    ensures SnapshotsOk(s) ==> SnapshotsOk(s')
    ensures TracesOk(s) ==> TracesOk(s')
    ensures TraceKnown(s) ==> TraceKnown(s')
  {
    assert forall task :: Pending(s', task) <==> Pending(s, task);
  }

  /** A worker that was not reporting moves on: nothing waiting or settled is affected. */
  lemma KeepReports(s: System, s': System, g: nat)
    requires s'.trace == s.trace && g in s.workers && g in s'.workers
    requires s'.workers == s.workers[g := s'.workers[g]] && !s.workers[g].Reporting?
    ensures forall item :: ItemOk(s, item) ==> ItemOk(s', item)
    ensures forall record :: RecordOk(s, record) ==> RecordOk(s', record)
    ensures forall task :: SettledOk(s, task) ==> SettledOk(s', task)
  {
    forall item | ItemOk(s, item) ensures ItemOk(s', item) {
      ItemKept(s, s', g, item);
    }
    forall record | RecordOk(s, record) ensures RecordOk(s', record) {
      RecordKept(s, s', g, record);
    }
  }

  lemma KeepWaiting(s: System, s': System, g: nat)
    requires s'.trace == s.trace && g in s.workers && g in s'.workers
    requires s'.workers == s.workers[g := s'.workers[g]] && !s.workers[g].Reporting?
    ensures s'.w.q.buckets == s.w.q.buckets && WaitingOk(s) ==> WaitingOk(s')
    ensures s'.w.q.dead == s.w.q.dead && DeadOk(s) ==> DeadOk(s')
    ensures s'.w.acked == s.w.acked && AckedOk(s) ==> AckedOk(s')
  {
    KeepReports(s, s', g);
  }

  lemma FailWorkers(groups: Groups, s: System, g: nat)
    requires WorkersOk(groups, s) && g in s.workers && (s.workers[g].AtPreparing? || s.workers[g].AtStarted?)
    ensures WorkersOk(groups, Goto(s, g, Failing(s.workers[g].d)))
  {
    var s' := Goto(s, g, Failing(s.workers[g].d));
    forall h | h in s'.workers ensures WorkerOk(groups, s', h, s'.workers[h]) {
      assert WorkerOk(groups, s, h, s.workers[h]);
      if h != g {
        WorkerKept(groups, s, s', h, s.workers[h]);
      }
    }
  }

  /** Turning to the failure path changes nothing but the worker's position. */
  lemma FailStep(groups: Groups, s: System, g: nat)
    requires Inv(groups, s) && g in s.workers && (s.workers[g].AtPreparing? || s.workers[g].AtStarted?)
    ensures Inv(groups, Goto(s, g, Failing(s.workers[g].d)))
  {
    var s' := Goto(s, g, Failing(s.workers[g].d));
    SameTrace(s, s');
    MoveLeases(s, s', g);
    KeepWaiting(s, s', g);
    FailWorkers(groups, s, g);
  }

  // ---------- steps that change the queue ----------

  lemma ReserveItems(q: Queue, bindings: seq<Route>, now: nat, r: Route, i: nat) returns (j: nat)
    requires BucketsValid(q)
    requires var q' := Reserve(q, bindings, now).0; r in q'.buckets && i < |q'.buckets[r]|
    ensures var q' := Reserve(q, bindings, now).0;
      r in q.buckets && j < |q.buckets[r]| && q.buckets[r][j] == q'.buckets[r][i]
  {
    j := if ReserveRoute(q, bindings, now) == Some(r) then i + 1 else i;
  }

  lemma ReserveReady(groups: Groups, s: System, g: nat, now: nat)
    requires Conserved(s.w) && WorkersOk(groups, s) && WaitingOk(s) && Disjoint(groups)
    requires g in groups && g in s.workers && s.workers[g].Head?
    requires ReserveRoute(s.w.q, groups[g], now).Some?
    ensures var item := s.w.q.buckets[ReserveRoute(s.w.q, groups[g], now).value][0];
      && RouteOf(item.task) == ReserveRoute(s.w.q, groups[g], now).value
      && ReadyFor(s, item.task.taskId, item.attempt) && item.task in s.w.enqueued
      && AttemptInBounds(item.attempt, item.task)
  {
    var r := ReserveRoute(s.w.q, groups[g], now).value;
    var item := s.w.q.buckets[r][0];
    WaitingKnown(s.w, r, 0);
    assert ItemOk(s, item) && RouteOf(item.task) == r;
  }

  lemma ReserveLeases(groups: Groups, s: System, s': System, g: nat, d: Delivery)
    requires WorkersOk(groups, s) && LeasesOwned(s) && g in groups && g in s.workers && s.workers[g].Head?
    requires d.deliveryId !in s.w.q.leased && s'.w.q.leased == s.w.q.leased[d.deliveryId := d]
    requires s'.w.enqueued == s.w.enqueued && s'.trace == s.trace && s'.workers == s.workers[g := Reserved(d)]
    requires Allowed(groups[g], RouteOf(d.task)) && d.task in s.w.enqueued && AttemptInBounds(d.attempt, d.task)
    requires ReadyFor(s, d.task.taskId, d.attempt)
    ensures WorkersOk(groups, s') && LeasesOwned(s')
  {
    forall h | h in s'.workers ensures WorkerOk(groups, s', h, s'.workers[h]) {
      assert WorkerOk(groups, s, h, s.workers[h]);
      if h != g {
        WorkerKept(groups, s, s', h, s.workers[h]);
      }
    }
    forall k | k in s'.w.q.leased ensures LeaseOwned(s', s'.w.q.leased[k]) {
      if k == d.deliveryId {
        assert Owns(s'.workers[g]) && s'.workers[g].d == d;
      } else {
        LeaseStays(s, s', s.w.q.leased[k], g);
      }
    }
  }

  lemma HeadWaiting(s: System, s': System, g: nat, bindings: seq<Route>, now: nat)
    requires WaitingOk(s) && DeadOk(s) && AckedOk(s) && BucketsValid(s.w.q) && s'.trace == s.trace
    requires g in s.workers && g in s'.workers && s.workers[g].Head?
    requires s'.workers == s.workers[g := s'.workers[g]]
    requires s'.w.q == Reserve(s.w.q, bindings, now).0 && s'.w.acked == s.w.acked
    ensures WaitingOk(s') && DeadOk(s') && AckedOk(s')
  {
    KeepReports(s, s', g);
    forall r, i | r in s'.w.q.buckets && 0 <= i < |s'.w.q.buckets[r]| ensures ItemOk(s', s'.w.q.buckets[r][i]) {
      var j := ReserveItems(s.w.q, bindings, now, r, i);
      assert ItemOk(s, s.w.q.buckets[r][j]);
    }
  }

  lemma HeadWorkers(groups: Groups, s: System, g: nat, now: nat)
    requires Conserved(s.w) && DistinctIds(s.w.enqueued) && WorkersOk(groups, s) && LeasesOwned(s)
    requires WaitingOk(s) && DeadOk(s) && AckedOk(s) && Disjoint(groups)
    requires g in groups && g in s.workers && s.workers[g].Head?
    requires ReserveRoute(s.w.q, groups[g], now).Some?
    ensures var s' := WorkStep(groups, s, g, now, SMOOTH);
      WorkersOk(groups, s') && LeasesOwned(s') && WaitingOk(s') && DeadOk(s') && AckedOk(s')
  {
    var s' := WorkStep(groups, s, g, now, SMOOTH);
    ReserveReady(groups, s, g, now);
    NoLeaseCollision(s.w, groups[g], now);
    ReserveLeases(groups, s, s', g, Reserve(s.w.q, groups[g], now).1.value);
    HeadWaiting(s, s', g, groups[g], now);
  }

  lemma HeadStep(groups: Groups, s: System, g: nat, now: nat)
    requires Inv(groups, s) && Disjoint(groups) && g in groups && g in s.workers && s.workers[g].Head?
    ensures Inv(groups, WorkStep(groups, s, g, now, SMOOTH))
  {
    if ReserveRoute(s.w.q, groups[g], now).Some? {
      StepConserves(s.w, ReserveOp(groups[g], now));
      HeadWorkers(groups, s, g, now);
      SameTrace(s, WorkStep(groups, s, g, now, SMOOTH));
    }
  }

  lemma Unlease(groups: Groups, s: System, s': System, g: nat)
    requires Disjoint(groups) && WorkersOk(groups, s) && LeasesOwned(s) && IdsValid(s.w.q) && DistinctIds(s.w.enqueued)
    requires g in s.workers && Owns(s.workers[g])
    requires g in s'.workers && s'.workers == s.workers[g := s'.workers[g]]
    requires s'.workers[g].Head?
      || (s'.workers[g].Reporting? && s'.workers[g].d == s.workers[g].d && Stage(s', s'.workers[g]))
    requires s'.w.q.leased == s.w.q.leased - {s.workers[g].d.deliveryId}
    requires s'.trace == s.trace && s'.w.enqueued == s.w.enqueued
    ensures WorkersOk(groups, s') && LeasesOwned(s')
  {
    var d := s.workers[g].d;
    forall h | h in s'.workers ensures WorkerOk(groups, s', h, s'.workers[h]) {
      assert WorkerOk(groups, s, h, s.workers[h]);
      if h != g {
        if Owns(s.workers[h]) && s.workers[h].d.deliveryId == d.deliveryId {
          HolderUnique(groups, s, g, h);
        }
        WorkerKept(groups, s, s', h, s.workers[h]);
      }
    }
    forall k | k in s'.w.q.leased ensures LeaseOwned(s', s'.w.q.leased[k]) {
      assert s.w.q.leased[k].deliveryId == k;
      LeaseStays(s, s', s.w.q.leased[k], g);
    }
  }

  lemma AckWorkers(groups: Groups, s: System, g: nat, now: nat)
    requires Disjoint(groups) && WorkersOk(groups, s) && LeasesOwned(s) && IdsValid(s.w.q) && DistinctIds(s.w.enqueued)
    requires WaitingOk(s) && DeadOk(s) && AckedOk(s) && g in groups && g in s.workers && s.workers[g].Finished?
    ensures var s' := WorkStep(groups, s, g, now, SMOOTH);
      WorkersOk(groups, s') && LeasesOwned(s') && WaitingOk(s') && DeadOk(s') && AckedOk(s')
  {
    var d := s.workers[g].d;
    var s' := WorkStep(groups, s, g, now, SMOOTH);
    assert WorkerOk(groups, s, g, s.workers[g]);
    Unlease(groups, s, s', g);
    KeepReports(s, s', g);
    forall i | 0 <= i < |s'.w.acked| ensures SettledOk(s', s'.w.acked[i]) {
      assert i < |s.w.acked| ==> SettledOk(s, s.w.acked[i]);
    }
  }

  lemma AckStep(groups: Groups, s: System, g: nat, now: nat)
    requires Inv(groups, s) && Disjoint(groups) && g in groups && g in s.workers && s.workers[g].Finished?
    ensures Inv(groups, WorkStep(groups, s, g, now, SMOOTH))
  {
    StepConserves(s.w, AckOp(s.workers[g].d.deliveryId));
    AckWorkers(groups, s, g, now);
    SameTrace(s, WorkStep(groups, s, g, now, SMOOTH));
  }

  lemma RetryWorkers(groups: Groups, s: System, g: nat, now: nat)
    requires Disjoint(groups) && WorkersOk(groups, s) && LeasesOwned(s) && IdsValid(s.w.q) && DistinctIds(s.w.enqueued)
    requires WaitingOk(s) && DeadOk(s) && AckedOk(s) && g in groups && g in s.workers && s.workers[g].Failing?
    ensures var s' := WorkStep(groups, s, g, now, SMOOTH);
      WorkersOk(groups, s') && LeasesOwned(s') && WaitingOk(s') && DeadOk(s') && AckedOk(s')
  {
    var d := s.workers[g].d;
    var s' := WorkStep(groups, s, g, now, SMOOTH);
    assert WorkerOk(groups, s, g, s.workers[g]);
    RetryWaits(s, s', g, d, "failed", d.task.retryPolicy.retryDelayMs, now);
    Unlease(groups, s, s', g);
  }

  lemma RetryStep(groups: Groups, s: System, g: nat, now: nat)
    requires Inv(groups, s) && Disjoint(groups) && g in groups && g in s.workers && s.workers[g].Failing?
    ensures Inv(groups, WorkStep(groups, s, g, now, SMOOTH))
  {
    var d := s.workers[g].d;
    StepConserves(s.w, RetryOp(d.deliveryId, "failed", d.task.retryPolicy.retryDelayMs, now));
    RetryWorkers(groups, s, g, now);
    SameTrace(s, WorkStep(groups, s, g, now, SMOOTH));
  }

  lemma RetryWaits(s: System, s': System, g: nat, d: Delivery, error: string, delayMs: nat, now: nat)
    requires WaitingOk(s) && DeadOk(s) && AckedOk(s)
    requires s'.trace == s.trace && s'.w.acked == s.w.acked
    requires d.deliveryId in s.w.q.leased && s.w.q.leased[d.deliveryId] == d
    requires s'.w.q == Retry(s.w.q, d.deliveryId, error, delayMs, now).0
    requires g in s.workers && s.workers[g].Failing?
    requires s'.workers
          == s.workers[g := Reporting(d, if Exhausted(d) then Disposition.DeadLettered else Requeued)]
    ensures WaitingOk(s') && DeadOk(s') && AckedOk(s')
    ensures s'.w.q.leased == s.w.q.leased - {d.deliveryId}
  {
    KeepReports(s, s', g);
    assert s'.workers[g].Reporting? && s'.workers[g].d == d;
    if Exhausted(d) {
      assert BeingReported(s', d.task, d.attempt, Disposition.DeadLettered);
      assert RecordOk(s', DeadLetterOf(d, error, now));
      assert s'.w.q.dead == s.w.q.dead + [DeadLetterOf(d, error, now)];
    } else {
      assert BeingReported(s', d.task, d.attempt, Requeued);
      assert ItemOk(s', RetryItem(d, error, delayMs, now));
      PushWaiting(s, s', RetryItem(d, error, delayMs, now));
    }
  }

  lemma PushWaiting(s: System, s': System, item: QueuedTask)
    requires WaitingOk(s) && (forall it :: ItemOk(s, it) ==> ItemOk(s', it)) && ItemOk(s', item)
    requires s'.w.q.buckets == s.w.q.buckets[RouteOf(item.task) := Bucket(s.w.q, RouteOf(item.task)) + [item]]
    ensures WaitingOk(s')
  {
    forall r, i | r in s'.w.q.buckets && 0 <= i < |s'.w.q.buckets[r]| ensures ItemOk(s', s'.w.q.buckets[r][i]) {
      if s'.w.q.buckets[r][i] != item {
        assert s.w.q.buckets[r][i] == s'.w.q.buckets[r][i];
      }
    }
  }

  // ---------- scheduling ----------

  ghost predicate Fresh(s: System, task: Task) {
    forall t :: t in s.scheduled ==> t.taskId != task.taskId
  }

  lemma BeginScheduled(s: System, s': System, sid: nat, task: Task)
    requires ScheduledOk(s) && sid !in s.schedulers && s'.w == s.w
    requires s'.schedulers == s.schedulers[sid := task] && s'.scheduled == s.scheduled + [task]
    ensures ScheduledOk(s')
  {
    forall t ensures Pending(s', t) <==> Pending(s, t) || t == task {
      if Pending(s, t) {
        var x :| x in s.schedulers && s.schedulers[x] == t;
        assert s'.schedulers[x] == t;
      }
      assert s'.schedulers[sid] == task;
    }
  }

  lemma BeginPending(s: System, s': System, sid: nat, task: Task)
    requires PendingOk(s) && ScheduledOk(s) && Fresh(s, task) && sid !in s.schedulers
    requires Last(s, task.taskId).None? && s'.trace == s.trace && s'.w == s.w
    requires s'.schedulers == s.schedulers[sid := task]
    ensures PendingOk(s')
  {
    forall x | x in s.schedulers ensures s.schedulers[x].taskId != task.taskId {
      assert Pending(s, s.schedulers[x]);
    }
    forall i | 0 <= i < |s.w.enqueued| ensures s.w.enqueued[i].taskId != task.taskId {
      assert s.w.enqueued[i] in s.scheduled;
    }
  }

  lemma BeginSnapshots(s: System, s': System, task: Task)
    requires SnapshotsOk(s) && Fresh(s, task) && Last(s, task.taskId).None? && s'.trace == s.trace
    requires s'.scheduled == s.scheduled + [task]
    requires s'.snapshots == s.snapshots[task.taskId := LifecycleStatus.Queued]
    ensures SnapshotsOk(s')
  {
    forall t | t in s'.scheduled
      ensures t.taskId in s'.snapshots
      ensures s'.snapshots[t.taskId]
         == if Last(s', t.taskId).None? then LifecycleStatus.Queued else Last(s', t.taskId).value.status
    {
      assert t == task || (t in s.scheduled && t.taskId != task.taskId);
    }
  }

  lemma BeginStep(groups: Groups, s: System, sid: nat, task: Task)
    requires Inv(groups, s) && Fresh(s, task) && sid !in s.schedulers
    ensures Inv(groups, WorkerLoop.Step(groups, s, BeginSchedule(sid, task)))
  {
    var s' := WorkerLoop.Step(groups, s, BeginSchedule(sid, task));
    BeginScheduled(s, s', sid, task);
    BeginPending(s, s', sid, task);
    BeginSnapshots(s, s', task);
    StillWorking(groups, s, s');
  }

  /** Nothing about workers depends on who is scheduling. */
  lemma StillWorking(groups: Groups, s: System, s': System)
    requires s'.workers == s.workers && s'.trace == s.trace && s'.w.q.leased == s.w.q.leased
    requires forall task :: task in s.w.enqueued ==> task in s'.w.enqueued
    ensures WorkersOk(groups, s) ==> WorkersOk(groups, s')
    ensures LeasesOwned(s) ==> LeasesOwned(s')
    ensures forall item :: ItemOk(s, item) ==> ItemOk(s', item)
    ensures s'.w.q.buckets == s.w.q.buckets && WaitingOk(s) ==> WaitingOk(s')
    ensures s'.w.q.dead == s.w.q.dead && DeadOk(s) ==> DeadOk(s')
    ensures s'.w.acked == s.w.acked && AckedOk(s) ==> AckedOk(s')
  {
    assert forall task, attempt, disposition ::
      BeingReported(s, task, attempt, disposition) ==> BeingReported(s', task, attempt, disposition);
    assert forall d :: LeaseOwned(s, d) ==> LeaseOwned(s', d);
    assert forall g :: g in s.workers && WorkerOk(groups, s, g, s.workers[g]) ==> WorkerOk(groups, s', g, s.workers[g]);
  }

  lemma FinishPending(s: System, s': System, sid: nat)
    requires PendingOk(s) && ScheduledOk(s) && sid in s.schedulers
    requires s'.trace == s.trace && s'.scheduled == s.scheduled
    requires s'.schedulers == s.schedulers - {sid} && s'.w.enqueued == s.w.enqueued + [s.schedulers[sid]]
    ensures PendingOk(s') && ScheduledOk(s')
  {
    var task := s.schedulers[sid];
    forall t | t != task ensures Pending(s', t) <==> Pending(s, t) {
      if Pending(s, t) {
        var x :| x in s.schedulers && s.schedulers[x] == t;
        assert s'.schedulers[x] == t;
      }
    }
    assert Pending(s, task);
    forall t ensures t in s'.scheduled <==> t in s'.w.enqueued || Pending(s', t) {
    }
  }

  lemma FinishStep(groups: Groups, s: System, sid: nat, now: nat)
    requires Inv(groups, s) && sid in s.schedulers
    ensures Inv(groups, WorkerLoop.Step(groups, s, FinishSchedule(sid, now)))
  {
    var task := s.schedulers[sid];
    var s' := WorkerLoop.Step(groups, s, FinishSchedule(sid, now));
    StepConserves(s.w, EnqueueOp(task, now));
    FinishPending(s, s', sid);
    StillWorking(groups, s, s');
    PushWaiting(s, s', QueuedTask(task, 1, now, None));
  }

  // ---------- every run ----------

  /** The stage a worker publishes next, if it is about to publish one. */
  predicate NextStage(worker: Worker, status: LifecycleStatus, next: Worker) {
    match worker
    case Reserved(d) => status.Preparing? && next == AtPreparing(d)
    case AtPreparing(d) => status.Prepared? && next == AtPrepared(d)
    case AtPrepared(d) => (status.Compiling? || status.Running?) && next == AtStarted(d)
    case AtStarted(d) => (status.Completed? || status.Failed?) && next == Finished(d)
    case _ => false
  }

  lemma EmitOwned(groups: Groups, s: System, g: nat, status: LifecycleStatus, next: Worker)
    requires Inv(groups, s) && Disjoint(groups) && g in s.workers && NextStage(s.workers[g], status, next)
    ensures Inv(groups, Publish(s, g, next.d, status, next))
  {
    assert WorkerOk(groups, s, g, s.workers[g]);
    StageEmits(s, g, s.workers[g], status, next);
    PublishOwned(groups, s, g, status, next);
  }

  lemma StageEmits(s: System, g: nat, worker: Worker, status: LifecycleStatus, next: Worker)
    requires NextStage(worker, status, next) && Stage(s, worker) && AttemptInBounds(worker.d.attempt, worker.d.task)
    ensures MayEmit(s, next.d, status) && Stage(Publish(s, g, next.d, status, next), next)
  {
    PublishOneMore(s, g, next.d, status, next);
    LastAfter(s, Publish(s, g, next.d, status, next), Event(next.d.task.taskId, next.d.attempt, status),
              next.d.task.taskId);
  }

  lemma WorkKeepsInv(groups: Groups, s: System, g: nat, now: nat, answers: Answers)
    requires Inv(groups, s) && Disjoint(groups) && g in groups && g in s.workers
    ensures Inv(groups, WorkStep(groups, s, g, now, answers))
  {
    match s.workers[g]
    case Head => HeadStep(groups, s, g, now);
    case Reserved(d) => EmitOwned(groups, s, g, Preparing, AtPreparing(d));
    case AtPreparing(d) =>
      if answers.prepared {
        EmitOwned(groups, s, g, Prepared, AtPrepared(d));
      } else {
        FailStep(groups, s, g);
      }
    case AtPrepared(d) => EmitOwned(groups, s, g, if answers.compiles then Compiling else Running, AtStarted(d));
    case AtStarted(d) =>
      if answers.executed.Some? {
        EmitOwned(groups, s, g, answers.executed.value, Finished(d));
      } else {
        FailStep(groups, s, g);
      }
    case Finished(d) => AckStep(groups, s, g, now);
    case Failing(d) => RetryStep(groups, s, g, now);
    case Reporting(d, disposition) =>
      ReportStep(groups, s, g, if disposition.Requeued? then Retrying else LifecycleStatus.DeadLettered);
  }

  lemma InitialInv(groups: Groups)
    ensures Inv(groups, Initial(groups))
  {
    var s := Initial(groups);
    assert forall g: Gauge :: !g.Work? ==> Balanced(START, g);
    assert forall id :: EventsOf(s.trace, id) == [];
  }

  lemma StepKeepsInv(groups: Groups, s: System, a: Action)
    requires Disjoint(groups) && Inv(groups, s) && Enabled(groups, s, a)
    requires a.BeginSchedule? ==> Fresh(s, a.task)
    ensures Inv(groups, WorkerLoop.Step(groups, s, a))
  {
    match a
    case BeginSchedule(sid, task) => BeginStep(groups, s, sid, task);
    case FinishSchedule(sid, now) => FinishStep(groups, s, sid, now);
    case Work(g, now, answers) => WorkKeepsInv(groups, s, g, now, answers);
  }

  lemma NextIsFresh(groups: Groups, s: System, actions: seq<Action>)
    requires actions != [] && Enabled(groups, s, actions[0])
    requires DistinctIds(s.scheduled + TasksScheduled(actions))
    ensures actions[0].BeginSchedule? ==> Fresh(s, actions[0].task)
    ensures WorkerLoop.Step(groups, s, actions[0]).scheduled + TasksScheduled(actions[1..])
         == s.scheduled + TasksScheduled(actions)
  {
    ScheduledRegroup(s.scheduled, actions);
    if actions[0].BeginSchedule? {
      LaterIsFresh(s, actions[0].task, TasksScheduled(actions[1..]));
    }
  }

  /** Tasks scheduled before, by the first action and by the others, taken together. */
  lemma ScheduledRegroup(done: seq<Task>, actions: seq<Action>)
    requires actions != []
    ensures done + TasksScheduled(actions)
         == (if actions[0].BeginSchedule? then done + [actions[0].task] else done) + TasksScheduled(actions[1..])
  {
  }

  lemma LaterIsFresh(s: System, task: Task, later: seq<Task>)
    requires DistinctIds(s.scheduled + [task] + later)
    ensures Fresh(s, task)
  {
    var all := s.scheduled + [task] + later;
    assert all[|s.scheduled|] == task && forall i :: 0 <= i < |s.scheduled| ==> all[i] == s.scheduled[i];
  }

  lemma {:induction false} RunKeepsInv(groups: Groups, s: System, actions: seq<Action>)
    requires Disjoint(groups) && Inv(groups, s) && Possible(groups, s, actions)
    requires DistinctIds(s.scheduled + TasksScheduled(actions))
    ensures Inv(groups, RunSystem(groups, s, actions))
    ensures RunSystem(groups, s, actions).scheduled == s.scheduled + TasksScheduled(actions)
    decreases |actions|
  {
    if actions != [] {
      NextIsFresh(groups, s, actions);
      StepKeepsInv(groups, s, actions[0]);
      RunKeepsInv(groups, WorkerLoop.Step(groups, s, actions[0]), actions[1..]);
    }
  }

  lemma ReachableInv(groups: Groups, actions: seq<Action>)
    requires Disjoint(groups) && Possible(groups, Initial(groups), actions) && DistinctIds(TasksScheduled(actions))
    ensures Inv(groups, RunSystem(groups, Initial(groups), actions))
    ensures RunSystem(groups, Initial(groups), actions).scheduled == TasksScheduled(actions)
  {
    InitialInv(groups);
    assert [] + TasksScheduled(actions) == TasksScheduled(actions);
    RunKeepsInv(groups, Initial(groups), actions);
  }
}
