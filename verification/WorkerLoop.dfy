/**
 Worker groups driving the queue: the loop that reserves, prepares, executes and
 settles one task at a time, the snapshot and event it publishes at each stage,
 and `schedule`, which publishes a snapshot before it enqueues. Steps of different
 groups and of `schedule` calls interleave freely; queue operations are atomic.
 */
module WorkerLoop {
  import opened Prelude
  import opened TaskQueue
  import opened QueueAccounting

  datatype LifecycleStatus =
    Queued | Retrying | Preparing | Prepared | Compiling | Running | Completed | Failed | DeadLettered

  /** An event a worker emits about a task. */
  datatype Event = Event(taskId: string, attempt: int, status: LifecycleStatus)

  /** Where a group's loop stands; every state but `Head` is about one delivery. */
  datatype Worker =
    | Head
    | Reserved(d: Delivery)
    | AtPreparing(d: Delivery)
    | AtPrepared(d: Delivery)
    | AtStarted(d: Delivery)
    | Finished(d: Delivery)
    | Failing(d: Delivery)
    | Reporting(d: Delivery, disposition: Disposition)

  datatype System = System(
    w: World,
    snapshots: map<string, LifecycleStatus>,
    schedulers: map<nat, Task>,       // calls of `schedule` between their snapshot and their enqueue
    workers: map<nat, Worker>,
    trace: seq<Event>,                // worker-emitted events
    scheduled: seq<Task>)

  type Groups = map<nat, seq<Route>>

  /** How an execution that returned ended. */
  type FinalStatus = s: LifecycleStatus | s.Completed? || s.Failed? witness Completed

  /**
   What the loop is told and cannot decide itself: whether preparing succeeded, whether
   there is a compile stage, and the outcome of the execution, if it returned one.
   */
  datatype Answers = Answers(prepared: bool, compiles: bool, executed: Option<FinalStatus>)

  const SMOOTH := Answers(true, true, Some(Completed))

  datatype Action =
    | BeginSchedule(sid: nat, task: Task)
    | FinishSchedule(sid: nat, now: nat)
    | Work(group: nat, now: nat, answers: Answers)

  function Initial(groups: Groups): System {
    System(START, map[], map[], map g | g in groups :: Head, [], [])
  }

  predicate Enabled(groups: Groups, s: System, a: Action) {
    match a
    case BeginSchedule(sid, _) => sid !in s.schedulers
    case FinishSchedule(sid, _) => sid in s.schedulers
    case Work(g, _, _) => g in groups && g in s.workers
  }

  /** Publish a snapshot and emit the matching event, then go on. */
  function Publish(s: System, g: nat, d: Delivery, status: LifecycleStatus, next: Worker): System {
    s.(snapshots := s.snapshots[d.task.taskId := status],
       trace := s.trace + [Event(d.task.taskId, d.attempt, status)],
       workers := s.workers[g := next])
  }

  function Goto(s: System, g: nat, next: Worker): System {
    s.(workers := s.workers[g := next])
  }

  function WorkStep(groups: Groups, s: System, g: nat, now: nat, answers: Answers): System
    requires g in groups && g in s.workers
  {
    match s.workers[g]
    case Head =>
      var (_, delivery) := Reserve(s.w.q, groups[g], now);
      if delivery.None? then s
      else Goto(s.(w := QueueAccounting.Step(s.w, ReserveOp(groups[g], now))), g, Reserved(delivery.value))
    case Reserved(d) => Publish(s, g, d, Preparing, AtPreparing(d))
    case AtPreparing(d) =>
      if answers.prepared then Publish(s, g, d, Prepared, AtPrepared(d)) else Goto(s, g, Failing(d))
    case AtPrepared(d) => Publish(s, g, d, if answers.compiles then Compiling else Running, AtStarted(d))
    case AtStarted(d) =>
      if answers.executed.Some? then Publish(s, g, d, answers.executed.value, Finished(d)) else Goto(s, g, Failing(d))
    case Finished(d) => Goto(s.(w := QueueAccounting.Step(s.w, AckOp(d.deliveryId))), g, Head)
    case Failing(d) =>
      var op := RetryOp(d.deliveryId, "failed", d.task.retryPolicy.retryDelayMs, now);
      var (_, result) := Retry(s.w.q, op.deliveryId, op.error, op.delayMs, now);
      // A retry that fails is reported as dead-lettered.
      Goto(s.(w := QueueAccounting.Step(s.w, op)), g,
           Reporting(d, if result.Ok? then result.value else Disposition.DeadLettered))
    case Reporting(d, disposition) =>
      Publish(s, g, d, if disposition.Requeued? then Retrying else LifecycleStatus.DeadLettered, Head)
  }

  function Step(groups: Groups, s: System, a: Action): System
    requires Enabled(groups, s, a)
  {
    match a
    case BeginSchedule(sid, task) =>
      s.(snapshots := s.snapshots[task.taskId := Queued],
         schedulers := s.schedulers[sid := task],
         scheduled := s.scheduled + [task])
    case FinishSchedule(sid, now) =>
      s.(w := QueueAccounting.Step(s.w, EnqueueOp(s.schedulers[sid], now)),
         schedulers := s.schedulers - {sid})
    case Work(g, now, answers) => WorkStep(groups, s, g, now, answers)
  }

  ghost predicate Possible(groups: Groups, s: System, actions: seq<Action>)
    decreases |actions|
  {
    actions == []
    || (Enabled(groups, s, actions[0]) && Possible(groups, Step(groups, s, actions[0]), actions[1..]))
  }

  function RunSystem(groups: Groups, s: System, actions: seq<Action>): System
    requires Possible(groups, s, actions)
    decreases |actions|
  {
    if actions == [] then s else RunSystem(groups, Step(groups, s, actions[0]), actions[1..])
  }

  function TasksScheduled(actions: seq<Action>): seq<Task> {
    if actions == [] then []
    else (if actions[0].BeginSchedule? then [actions[0].task] else []) + TasksScheduled(actions[1..])
  }

  /** No route is bound by two groups. */
  ghost predicate Disjoint(groups: Groups) {
    forall g, h, r :: g in groups && h in groups && Allowed(groups[g], r) && Allowed(groups[h], r) ==> g == h
  }

  // ---------- the grammar of one task's events ----------

  function EventsOf(trace: seq<Event>, id: string): seq<Event> {
    if trace == [] then []
    else
      var n := |trace| - 1;
      EventsOf(trace[..n], id) + if trace[n].taskId == id then [trace[n]] else []
  }

  /** Which event may follow which; nothing follows a terminal one. */
  predicate Follows(e: Event, f: Event, maxAttempts: nat) {
    match e.status
    case Queued => false
    case Retrying => f.status.Preparing? && f.attempt == e.attempt + 1
    case Preparing => f.attempt == e.attempt && (f.status.Prepared? || FailureReport(f, maxAttempts))
    case Prepared => f.attempt == e.attempt && (f.status.Compiling? || f.status.Running?)
    case Compiling =>
      f.attempt == e.attempt && (f.status.Completed? || f.status.Failed? || FailureReport(f, maxAttempts))
    case Running =>
      f.attempt == e.attempt && (f.status.Completed? || f.status.Failed? || FailureReport(f, maxAttempts))
    case Completed => false
    case Failed => false
    case DeadLettered => false
  }

  predicate FailureReport(f: Event, maxAttempts: nat) {
    if f.attempt < maxAttempts then f.status.Retrying? else f.status.DeadLettered?
  }

  ghost predicate WellFormed(events: seq<Event>, maxAttempts: nat) {
    && (events != [] ==> events[0].status.Preparing? && events[0].attempt == 1)
    && (forall i :: 0 <= i < |events| - 1 ==> Follows(events[i], events[i + 1], maxAttempts))
  }

  /** The last event emitted about a task. */
  function Last(s: System, id: string): Option<Event> {
    var events := EventsOf(s.trace, id);
    if events == [] then None else Some(events[|events| - 1])
  }

  /** The events so far end where a new attempt may begin. */
  predicate ReadyFor(s: System, id: string, attempt: int) {
    if attempt == 1 then Last(s, id).None? else Last(s, id) == Some(Event(id, attempt - 1, Retrying))
  }

  lemma EventsOfAppend(trace: seq<Event>, e: Event, id: string)
    ensures EventsOf(trace + [e], id) == EventsOf(trace, id) + if e.taskId == id then [e] else []
  {
    assert (trace + [e])[..|trace|] == trace;
  }
}
