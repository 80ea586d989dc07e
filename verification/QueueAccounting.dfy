/**
 Bookkeeping over runs of the queue. One family of weights, the gauges, yields
 both conservation (weights that pick out one task or one id) and termination
 (the work a task may still cause), from the same facts about each operation.
 */
module QueueAccounting {
  import opened Prelude
  import opened TaskQueue

  datatype Gauge = ById(id: string) | ByTask(task: Task) | Work

  function Matches(g: Gauge, task: Task): nat {
    match g
    case ById(id) => if task.taskId == id then 1 else 0
    case ByTask(t) => if task == t then 1 else 0
    case Work => 0
  }

  /** How many more attempts a task may be given. */
  function AttemptsLeft(attempt: nat, task: Task): nat {
    var m := Max(1, task.retryPolicy.maxAttempts);
    if attempt < m then m - attempt else 0
  }

  function QueuedValue(g: Gauge, item: QueuedTask): nat {
    if g.Work? then 2 * AttemptsLeft(item.attempt, item.task) + 2 else Matches(g, item.task)
  }

  function LeasedValue(g: Gauge, d: Delivery): nat {
    if g.Work? then 2 * AttemptsLeft(d.attempt, d.task) + 1 else Matches(g, d.task)
  }

  function OfTask(g: Gauge): Task -> nat { (task: Task) => Matches(g, task) }

  function OfQueued(g: Gauge): QueuedTask -> nat { (item: QueuedTask) => QueuedValue(g, item) }

  function OfLeased(g: Gauge): Delivery -> nat { (d: Delivery) => LeasedValue(g, d) }

  function OfDead(g: Gauge): DeadLetter -> nat { (record: DeadLetter) => Matches(g, record.task) }

  ghost function OfBucket(g: Gauge): seq<QueuedTask> -> nat { (items: seq<QueuedTask>) => SumSeq(items, OfQueued(g)) }

  ghost function Queued(q: Queue, g: Gauge): nat { SumMap(q.buckets, OfBucket(g)) }

  ghost function Leased(q: Queue, g: Gauge): nat { SumMap(q.leased, OfLeased(g)) }

  ghost function Dead(q: Queue, g: Gauge): nat { SumSeq(q.dead, OfDead(g)) }

  ghost function Total(q: Queue, g: Gauge): nat { Queued(q, g) + Leased(q, g) + Dead(q, g) }

  // ---------- how each operation changes a gauge ----------

  lemma EnqueueInternalTotal(q: Queue, item: QueuedTask, g: Gauge)
    ensures Queued(EnqueueInternal(q, item), g) == Queued(q, g) + QueuedValue(g, item)
    ensures Total(EnqueueInternal(q, item), g) == Total(q, g) + QueuedValue(g, item)
  {
    var r := RouteOf(item.task);
    SumMapInsert(q.buckets, r, Bucket(q, r) + [item], OfBucket(g));
    SumSeqConcat(Bucket(q, r), [item], OfQueued(g));
    SumSeqSingle(item, OfQueued(g));
  }

  lemma PopFrontTotal(q: Queue, r: Route, g: Gauge)
    requires r in q.buckets && q.buckets[r] != []
    ensures Queued(q, g) == Queued(PopFront(q, r), g) + QueuedValue(g, q.buckets[r][0])
  {
    var rest := q.buckets[r][1..];
    SumMapInsert(q.buckets, r, rest, OfBucket(g));
    assert SumSeq(q.buckets[r], OfQueued(g)) == QueuedValue(g, q.buckets[r][0]) + SumSeq(rest, OfQueued(g));
  }

  /** A lease already held under the same delivery id is overwritten. */
  function Overwritten(q: Queue, d: Delivery, g: Gauge): nat {
    if d.deliveryId in q.leased then LeasedValue(g, q.leased[d.deliveryId]) else 0
  }

  lemma ReserveTotal(q: Queue, bindings: seq<Route>, now: nat, g: Gauge)
    requires ReserveRoute(q, bindings, now).Some?
    ensures var item := q.buckets[ReserveRoute(q, bindings, now).value][0];
      var d := DeliveryOf(item, now);
      Total(Reserve(q, bindings, now).0, g) + QueuedValue(g, item) + Overwritten(q, d, g)
      == Total(q, g) + LeasedValue(g, d)
  {
    var r := ReserveRoute(q, bindings, now).value;
    var d := DeliveryOf(q.buckets[r][0], now);
    PopFrontTotal(q, r, g);
    SumMapInsert(q.leased, d.deliveryId, d, OfLeased(g));
  }

  lemma AckTotal(q: Queue, deliveryId: string, g: Gauge)
    requires deliveryId in q.leased
    ensures Total(q, g) == Total(Ack(q, deliveryId), g) + LeasedValue(g, q.leased[deliveryId])
  {
    SumMapSplit(q.leased, deliveryId, OfLeased(g));
  }

  lemma AckMissing(q: Queue, deliveryId: string)
    requires deliveryId !in q.leased
    ensures Ack(q, deliveryId) == q
  {
    assert q.leased - {deliveryId} == q.leased;
  }

  lemma DeadTotal(dead: seq<DeadLetter>, record: DeadLetter, g: Gauge)
    ensures SumSeq(dead + [record], OfDead(g)) == SumSeq(dead, OfDead(g)) + Matches(g, record.task)
  {
    SumSeqConcat(dead, [record], OfDead(g));
    SumSeqSingle(record, OfDead(g));
  }

  lemma RetryTotal(q: Queue, deliveryId: string, error: string, delayMs: nat, now: nat, g: Gauge)
    requires deliveryId in q.leased
    ensures var d, q' := q.leased[deliveryId], Retry(q, deliveryId, error, delayMs, now).0;
      Total(q', g) + LeasedValue(g, d)
      == Total(q, g) + if Exhausted(d) then Matches(g, d.task) else QueuedValue(g, RetryItem(d, error, delayMs, now))
  {
    var d := q.leased[deliveryId];
    SumMapSplit(q.leased, deliveryId, OfLeased(g));
    if Exhausted(d) {
      DeadTotal(q.dead, DeadLetterOf(d, error, now), g);
    } else {
      EnqueueInternalTotal(q.(leased := q.leased - {deliveryId}), RetryItem(d, error, delayMs, now), g);
    }
  }

  lemma RejectTotal(q: Queue, deliveryId: string, error: string, now: nat, g: Gauge)
    requires deliveryId in q.leased
    ensures Total(Reject(q, deliveryId, error, now), g) + LeasedValue(g, q.leased[deliveryId])
         == Total(q, g) + Matches(g, q.leased[deliveryId].task)
  {
    SumMapSplit(q.leased, deliveryId, OfLeased(g));
    DeadTotal(q.dead, DeadLetterOf(q.leased[deliveryId], error, now), g);
  }

  lemma ReplayTotal(q: Queue, deliveryId: string, now: nat, g: Gauge)
    requires FindDead(q.dead, deliveryId) < |q.dead|
    ensures var record := q.dead[FindDead(q.dead, deliveryId)];
      Total(Replay(q, deliveryId, now).0, g) + Matches(g, record.task)
      == Total(q, g) + QueuedValue(g, ReplayItem(record, now))
  {
    var i := FindDead(q.dead, deliveryId);
    SumSeqRemove(q.dead, i, OfDead(g));
    EnqueueInternalTotal(q.(dead := q.dead[..i] + q.dead[i + 1..]), ReplayItem(q.dead[i], now), g);
  }

  // ---------- conservation over every run ----------

  /** The queue together with what was ever enqueued and ever acknowledged. */
  datatype World = World(q: Queue, enqueued: seq<Task>, acked: seq<Task>)

  const START := World(EMPTY, [], [])

  function Step(w: World, op: Op): World {
    World(
      Apply(w.q, op),
      if op.EnqueueOp? then w.enqueued + [op.task] else w.enqueued,
      if op.AckOp? && op.deliveryId in w.q.leased then w.acked + [w.q.leased[op.deliveryId].task] else w.acked)
  }

  function RunWorld(w: World, ops: seq<Op>): World
    decreases |ops|
  {
    if ops == [] then w else RunWorld(Step(w, ops[0]), ops[1..])
  }

  function TasksOf(ops: seq<Op>): seq<Task> {
    if ops == [] then []
    else (if ops[0].EnqueueOp? then [ops[0].task] else []) + TasksOf(ops[1..])
  }

  ghost predicate DistinctIds(tasks: seq<Task>) {
    forall i, j :: 0 <= i < j < |tasks| ==> tasks[i].taskId != tasks[j].taskId
  }

  ghost function Accounted(w: World, g: Gauge): nat {
    Total(w.q, g) + SumSeq(w.acked, OfTask(g))
  }

  ghost predicate Balanced(w: World, g: Gauge) {
    Accounted(w, g) == SumSeq(w.enqueued, OfTask(g))
  }

  ghost predicate Conserved(w: World) {
    Valid(w.q) && forall g: Gauge :: !g.Work? ==> Balanced(w, g)
  }

  lemma {:induction false} DistinctCount(tasks: seq<Task>, id: string)
    requires DistinctIds(tasks)
    ensures SumSeq(tasks, OfTask(ById(id))) <= 1
  {
    if tasks != [] {
      DistinctCount(tasks[1..], id);
      if SumSeq(tasks[1..], OfTask(ById(id))) > 0 {
        var i := SumSeqWitness(tasks[1..], OfTask(ById(id)));
        assert tasks[i + 1].taskId == id;
      }
    }
  }

  /** Under distinct ids the task about to be leased is not leased already. */
  lemma NoLeaseCollision(w: World, bindings: seq<Route>, now: nat)
    requires Conserved(w) && DistinctIds(w.enqueued)
    requires ReserveRoute(w.q, bindings, now).Some?
    ensures DeliveryOf(w.q.buckets[ReserveRoute(w.q, bindings, now).value][0], now).deliveryId !in w.q.leased
  {
    var item := w.q.buckets[ReserveRoute(w.q, bindings, now).value][0];
    var d := DeliveryOf(item, now);
    if d.deliveryId in w.q.leased {
      var g := ById(item.task.taskId);
      assert Balanced(w, g);
      DeliveryIdInjective(item.task.taskId, w.q.leased[d.deliveryId].task.taskId);
      PopFrontTotal(w.q, ReserveRoute(w.q, bindings, now).value, g);
      SumMapSplit(w.q.leased, d.deliveryId, OfLeased(g));
      DistinctCount(w.enqueued, g.id);
      assert false;
    }
  }

  lemma DeliveryIdInjective(a: string, b: string)
    requires DeliveryId(a) == DeliveryId(b)
    ensures a == b
  {
    assert a == DeliveryId(a)[4..] && b == DeliveryId(b)[4..];
  }

  lemma AppendTotal(tasks: seq<Task>, task: Task, g: Gauge)
    ensures SumSeq(tasks + [task], OfTask(g)) == SumSeq(tasks, OfTask(g)) + Matches(g, task)
  {
    SumSeqConcat(tasks, [task], OfTask(g));
    SumSeqSingle(task, OfTask(g));
  }

  lemma EnqueueBalances(w: World, task: Task, now: nat, g: Gauge)
    requires Balanced(w, g) && !g.Work?
    ensures Balanced(Step(w, EnqueueOp(task, now)), g)
  {
    EnqueueInternalTotal(w.q, QueuedTask(task, 1, now, None), g);
    AppendTotal(w.enqueued, task, g);
  }

  lemma AckBalances(w: World, deliveryId: string, g: Gauge)
    requires Balanced(w, g) && !g.Work?
    ensures Balanced(Step(w, AckOp(deliveryId)), g)
  {
    if deliveryId in w.q.leased {
      AckTotal(w.q, deliveryId, g);
      AppendTotal(w.acked, w.q.leased[deliveryId].task, g);
    } else {
      AckMissing(w.q, deliveryId);
    }
  }

  lemma StepBalances(w: World, op: Op, g: Gauge)
    requires Conserved(w) && DistinctIds(w.enqueued) && !g.Work?
    ensures Balanced(Step(w, op), g)
  {
    assert Balanced(w, g);
    match op
    case EnqueueOp(task, now) => EnqueueBalances(w, task, now, g);
    case ReserveOp(bindings, now) =>
      if ReserveRoute(w.q, bindings, now).Some? {
        NoLeaseCollision(w, bindings, now);
        ReserveTotal(w.q, bindings, now, g);
      }
    case AckOp(deliveryId) => AckBalances(w, deliveryId, g);
    case RetryOp(deliveryId, error, delayMs, now) =>
      if deliveryId in w.q.leased {
        RetryTotal(w.q, deliveryId, error, delayMs, now, g);
      }
    case RejectOp(deliveryId, error, now) =>
      if deliveryId in w.q.leased {
        RejectTotal(w.q, deliveryId, error, now, g);
      }
    case ReplayOp(deliveryId, now) =>
      if FindDead(w.q.dead, deliveryId) < |w.q.dead| {
        ReplayTotal(w.q, deliveryId, now, g);
      }
  }

  lemma StepConserves(w: World, op: Op)
    requires Conserved(w) && DistinctIds(w.enqueued)
    ensures Conserved(Step(w, op))
  {
    ApplyKeepsValid(w.q, op);
    forall g: Gauge | !g.Work? ensures Balanced(Step(w, op), g) {
      StepBalances(w, op, g);
    }
  }

  lemma DistinctFront(a: seq<Task>, b: seq<Task>)
    requires DistinctIds(a + b)
    ensures DistinctIds(a)
  {
    assert forall i :: 0 <= i < |a| ==> a[i] == (a + b)[i];
  }

  /** Tasks enqueued before, by the first operation and by the others, taken together. */
  lemma TasksRegroup(done: seq<Task>, ops: seq<Op>)
    requires ops != []
    ensures done + TasksOf(ops)
         == (if ops[0].EnqueueOp? then done + [ops[0].task] else done) + TasksOf(ops[1..])
  {
  }

  lemma StepTasks(w: World, ops: seq<Op>)
    requires ops != [] && DistinctIds(w.enqueued + TasksOf(ops))
    ensures Step(w, ops[0]).enqueued + TasksOf(ops[1..]) == w.enqueued + TasksOf(ops)
    ensures DistinctIds(w.enqueued)
  {
    DistinctFront(w.enqueued, TasksOf(ops));
    TasksRegroup(w.enqueued, ops);
  }

  lemma {:induction false} RunConserves(w: World, ops: seq<Op>)
    requires Conserved(w) && DistinctIds(w.enqueued + TasksOf(ops))
    ensures Conserved(RunWorld(w, ops))
    ensures RunWorld(w, ops).enqueued == w.enqueued + TasksOf(ops)
    ensures RunWorld(w, ops).q == Run(w.q, ops)
    decreases |ops|
  {
    if ops != [] {
      StepTasks(w, ops);
      StepConserves(w, ops[0]);
      RunConserves(Step(w, ops[0]), ops[1..]);
    }
  }

  /**
   Conservation. After any run of operations that enqueues distinct ids, every
   task counted where it is queued, leased, dead-lettered or acknowledged adds up
   to the times it was enqueued, and an id is never in two places.
   */
  lemma Conservation(ops: seq<Op>, task: Task)
    requires DistinctIds(TasksOf(ops))
    ensures var w := RunWorld(START, ops);
      && w.q == Run(EMPTY, ops) && Valid(w.q)
      && Queued(w.q, ByTask(task)) + Leased(w.q, ByTask(task)) + Dead(w.q, ByTask(task))
         + SumSeq(w.acked, OfTask(ByTask(task))) == (if task in TasksOf(ops) then 1 else 0)
      && Queued(w.q, ById(task.taskId)) + Leased(w.q, ById(task.taskId)) + Dead(w.q, ById(task.taskId))
         + SumSeq(w.acked, OfTask(ById(task.taskId))) <= 1
  {
    ReachableConserves(ops);
    PlacedOnce(RunWorld(START, ops), task);
  }

  lemma ReachableConserves(ops: seq<Op>)
    requires DistinctIds(TasksOf(ops))
    ensures var w := RunWorld(START, ops);
      Conserved(w) && w.enqueued == TasksOf(ops) && w.q == Run(EMPTY, ops)
  {
    var all := START.enqueued + TasksOf(ops);
    assert all == TasksOf(ops);
    RunConserves(START, ops);
  }

  lemma PlacedOnce(w: World, task: Task)
    requires Conserved(w) && DistinctIds(w.enqueued)
    ensures Queued(w.q, ByTask(task)) + Leased(w.q, ByTask(task)) + Dead(w.q, ByTask(task))
            + SumSeq(w.acked, OfTask(ByTask(task))) == if task in w.enqueued then 1 else 0
    ensures Queued(w.q, ById(task.taskId)) + Leased(w.q, ById(task.taskId)) + Dead(w.q, ById(task.taskId))
            + SumSeq(w.acked, OfTask(ById(task.taskId))) <= 1
  {
    assert Balanced(w, ByTask(task)) && Balanced(w, ById(task.taskId));
    DistinctCount(w.enqueued, task.taskId);
    TaskCount(w.enqueued, task);
  }

  lemma {:induction false} TaskCount(tasks: seq<Task>, task: Task)
    requires DistinctIds(tasks)
    ensures SumSeq(tasks, OfTask(ByTask(task))) == if task in tasks then 1 else 0
  {
    if tasks != [] {
      TaskCount(tasks[1..], task);
      assert tasks == [tasks[0]] + tasks[1..];
      if task in tasks[1..] {
        var i :| 0 <= i < |tasks| - 1 && tasks[i + 1] == task;
      }
    }
  }

  /**
   Exactly when one successful reserve keeps every task: when no lease is held
   under the delivery id it issues. Otherwise that lease's task disappears.
   */
  lemma ReserveConservesIff(q: Queue, bindings: seq<Route>, now: nat)
    requires ReserveRoute(q, bindings, now).Some?
    ensures (forall task :: Total(Reserve(q, bindings, now).0, ByTask(task)) == Total(q, ByTask(task)))
       <==> DeliveryOf(q.buckets[ReserveRoute(q, bindings, now).value][0], now).deliveryId !in q.leased
  {
    var d := DeliveryOf(q.buckets[ReserveRoute(q, bindings, now).value][0], now);
    forall task ensures Total(Reserve(q, bindings, now).0, ByTask(task)) + Overwritten(q, d, ByTask(task))
                        == Total(q, ByTask(task)) {
      ReserveTotal(q, bindings, now, ByTask(task));
    }
    if d.deliveryId in q.leased {
      var lost := q.leased[d.deliveryId].task;
      assert Overwritten(q, d, ByTask(lost)) == 1;
    }
  }

  lemma TwoQueued(first: Task, second: Task, now: nat)
    requires RouteOf(first) == RouteOf(second)
    ensures Enqueue(Enqueue(EMPTY, first, now), second, now) ==
      Queue(map[RouteOf(first) := [QueuedTask(first, 1, now, None), QueuedTask(second, 1, now, None)]],
            [RouteOf(first)], map[], [])
  {
    var a, b := QueuedTask(first, 1, now, None), QueuedTask(second, 1, now, None);
    assert Bucket(EMPTY, RouteOf(first)) + [a] == [a];
    var q1 := Enqueue(EMPTY, first, now);
    assert q1 == Queue(map[RouteOf(first) := [a]], [RouteOf(first)], map[], []);
    assert Bucket(q1, RouteOf(first)) + [b] == [a, b];
  }

  /** Two live tasks with one id: the second reserve makes the first task vanish. */
  lemma DuplicateIdLosesTask(route: Route, policy: RetryPolicy, now: nat)
    ensures var first := Task("id", route.queue, route.lane, policy, "first");
      var second := first.(payload := "second");
      var q := Enqueue(Enqueue(EMPTY, first, now), second, now);
      var q' := Reserve(Reserve(q, [], now).0, [], now).0;
      q'.buckets == map[] && q'.dead == [] && q'.leased.Keys == {DeliveryId("id")}
      && q'.leased[DeliveryId("id")].task == second
  {
    var first := Task("id", route.queue, route.lane, policy, "first");
    var second := first.(payload := "second");
    var a, b := QueuedTask(first, 1, now, None), QueuedTask(second, 1, now, None);
    TwoQueued(first, second, now);
    var q2 := Enqueue(Enqueue(EMPTY, first, now), second, now);
    var q3 := Reserve(q2, [], now).0;
    assert q3.buckets[route] == [b] && q3.order == [route];
    var q4 := Reserve(q3, [], now).0;
    assert q4.buckets == map[];
  }

  // ---------- termination ----------

  /** The operation does something: it is neither an enqueue nor a replay, nor does it come back empty. */
  predicate Consumes(q: Queue, op: Op) {
    match op
    case EnqueueOp(_, _) => false
    case ReserveOp(bindings, now) => ReserveRoute(q, bindings, now).Some?
    case AckOp(deliveryId) => deliveryId in q.leased
    case RetryOp(deliveryId, _, _, _) => deliveryId in q.leased
    case RejectOp(deliveryId, _, _) => deliveryId in q.leased
    case ReplayOp(_, _) => false
  }

  lemma WorkFalls(q: Queue, op: Op)
    requires Consumes(q, op)
    ensures Total(Apply(q, op), Work) < Total(q, Work)
  {
    match op
    case ReserveOp(bindings, now) => ReserveTotal(q, bindings, now, Work);
    case AckOp(deliveryId) => AckTotal(q, deliveryId, Work);
    case RetryOp(deliveryId, error, delayMs, now) => RetryTotal(q, deliveryId, error, delayMs, now, Work);
    case RejectOp(deliveryId, error, now) => RejectTotal(q, deliveryId, error, now, Work);
  }

  ghost predicate ConsumingRun(q: Queue, ops: seq<Op>)
    decreases |ops|
  {
    ops == [] || (Consumes(q, ops[0]) && ConsumingRun(Apply(q, ops[0]), ops[1..]))
  }

  lemma {:induction false} ConsumingRunBounded(q: Queue, ops: seq<Op>)
    requires ConsumingRun(q, ops)
    ensures |ops| + Total(Run(q, ops), Work) <= Total(q, Work)
    decreases |ops|
  {
    if ops != [] {
      WorkFalls(q, ops[0]);
      ConsumingRunBounded(Apply(q, ops[0]), ops[1..]);
    }
  }

  function EnqueueAll(q: Queue, tasks: seq<Task>, now: nat): Queue
    decreases |tasks|
  {
    if tasks == [] then q else EnqueueAll(Enqueue(q, tasks[0], now), tasks[1..], now)
  }

  function AttemptBudget(tasks: seq<Task>): nat {
    if tasks == [] then 0 else Max(1, tasks[0].retryPolicy.maxAttempts) + AttemptBudget(tasks[1..])
  }

  lemma {:induction false} EnqueueAllWork(q: Queue, tasks: seq<Task>, now: nat)
    ensures Total(EnqueueAll(q, tasks, now), Work) == Total(q, Work) + 2 * AttemptBudget(tasks)
    decreases |tasks|
  {
    if tasks != [] {
      EnqueueInternalTotal(q, QueuedTask(tasks[0], 1, now, None), Work);
      EnqueueAllWork(Enqueue(q, tasks[0], now), tasks[1..], now);
    }
  }

  /**
   Termination. From freshly enqueued tasks, no sequence of successful reserves,
   acknowledgements, retries and rejections is longer than twice the attempts the
   tasks are allowed in all.
   */
  lemma RunsStop(tasks: seq<Task>, now: nat, ops: seq<Op>)
    requires ConsumingRun(EnqueueAll(EMPTY, tasks, now), ops)
    ensures |ops| <= 2 * AttemptBudget(tasks)
  {
    EnqueueAllWork(EMPTY, tasks, now);
    ConsumingRunBounded(EnqueueAll(EMPTY, tasks, now), ops);
  }
}
