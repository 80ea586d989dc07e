/**
 What every operation of the in-memory route-aware task queue computes, as
 functions on a value holding its four structures. The class that changes those
 structures in place is proved equal to these functions operation by operation.
 */
module TaskQueue {
  import opened Prelude
  import opened Rotation

  datatype Route = Route(queue: string, lane: string)

  datatype RetryPolicy = RetryPolicy(maxAttempts: u32, retryDelayMs: nat)

  /** `payload` stands for every field the queue carries but never inspects. */
  datatype Task = Task(taskId: string, queue: string, lane: string, retryPolicy: RetryPolicy, payload: string)

  datatype QueuedTask = QueuedTask(task: Task, attempt: u32, availableAt: nat, lastError: Option<string>)

  datatype Delivery = Delivery(
    deliveryId: string, attempt: u32, leasedUntil: nat, lastError: Option<string>, task: Task)

  datatype DeadLetter = DeadLetter(
    deliveryId: string, taskId: string, queue: string, lane: string,
    attempt: u32, error: string, deadLetteredAt: nat, task: Task)

  datatype Receipt = Receipt(taskId: string, queue: string, lane: string)

  datatype Disposition = Requeued | DeadLettered

  datatype Error = Internal | NotFound(deliveryId: string)

  datatype Queue = Queue(
    buckets: map<Route, seq<QueuedTask>>,
    order: seq<Route>,
    leased: map<string, Delivery>,
    dead: seq<DeadLetter>)

  const EMPTY := Queue(map[], [], map[], [])

  const LEASE_MS: nat := 30_000

  function RouteOf(task: Task): Route {
    Route(task.queue, task.lane)
  }

  function DeliveryId(taskId: string): string {
    "dlv-" + taskId
  }

  function Bucket(q: Queue, r: Route): seq<QueuedTask> {
    if r in q.buckets then q.buckets[r] else []
  }

  /** An empty list of bindings admits every route. */
  predicate Allowed(bindings: seq<Route>, r: Route) {
    bindings == [] || r in bindings
  }

  function Filtered(order: seq<Route>, bindings: seq<Route>): (s: seq<Route>)
    ensures forall r :: r in s <==> r in order && Allowed(bindings, r)
  {
    if order == [] then []
    else if Allowed(bindings, order[0]) then [order[0]] + Filtered(order[1..], bindings)
    else Filtered(order[1..], bindings)
  }

  predicate Due(q: Queue, r: Route, now: nat) {
    r in q.buckets && q.buckets[r] != [] && q.buckets[r][0].availableAt <= now
  }

  /** The search of `reserve`: a listed route whose bucket is gone ends it. */
  function Scan(q: Queue, routes: seq<Route>, now: nat): (found: Option<Route>)
    ensures found.Some? ==> found.value in routes && Due(q, found.value, now)
  {
    if routes == [] || routes[0] !in q.buckets then None
    else if Due(q, routes[0], now) then Some(routes[0])
    else Scan(q, routes[1..], now)
  }

  function EnqueueInternal(q: Queue, item: QueuedTask): Queue {
    var r := RouteOf(item.task);
    q.(buckets := q.buckets[r := Bucket(q, r) + [item]],
       order := if Bucket(q, r) == [] then q.order + [r] else q.order)
  }

  function Enqueue(q: Queue, task: Task, now: nat): Queue {
    EnqueueInternal(q, QueuedTask(task, 1, now, None))
  }

  function PopFront(q: Queue, r: Route): Queue
    requires r in q.buckets && q.buckets[r] != []
  {
    var rest := q.buckets[r][1..];
    if rest == [] then q.(buckets := q.buckets - {r}, order := RemoveFirst(q.order, r))
    else q.(buckets := q.buckets[r := rest], order := MoveToBack(q.order, r))
  }

  function DeliveryOf(item: QueuedTask, now: nat): Delivery {
    Delivery(DeliveryId(item.task.taskId), item.attempt, now + LEASE_MS, item.lastError, item.task)
  }

  function ReserveRoute(q: Queue, bindings: seq<Route>, now: nat): (found: Option<Route>)
    ensures found.Some? ==> found.value in q.order && Allowed(bindings, found.value) && Due(q, found.value, now)
  {
    Scan(q, Filtered(q.order, bindings), now)
  }

  function Reserve(q: Queue, bindings: seq<Route>, now: nat): (Queue, Option<Delivery>) {
    match ReserveRoute(q, bindings, now)
    case None => (q, None)
    case Some(r) =>
      var delivery := DeliveryOf(q.buckets[r][0], now);
      var popped := PopFront(q, r);
      (popped.(leased := popped.leased[delivery.deliveryId := delivery]), Some(delivery))
  }

  function Ack(q: Queue, deliveryId: string): Queue {
    q.(leased := q.leased - {deliveryId})
  }

  function DeadLetterOf(d: Delivery, error: string, now: nat): DeadLetter {
    DeadLetter(d.deliveryId, d.task.taskId, d.task.queue, d.task.lane, d.attempt, error, now, d.task)
  }

  predicate Exhausted(d: Delivery) {
    d.attempt >= d.task.retryPolicy.maxAttempts
  }

  function RetryItem(d: Delivery, error: string, delayMs: nat, now: nat): QueuedTask
    requires !Exhausted(d)
  {
    QueuedTask(d.task, d.attempt + 1, now + delayMs, Some(error))
  }

  function Retry(q: Queue, deliveryId: string, error: string, delayMs: nat, now: nat)
    : (Queue, Result<Disposition, Error>)
  {
    if deliveryId !in q.leased then (q, Err(Internal))
    else
      var d := q.leased[deliveryId];
      var q1 := q.(leased := q.leased - {deliveryId});
      if Exhausted(d) then (q1.(dead := q1.dead + [DeadLetterOf(d, error, now)]), Ok(DeadLettered))
      else (EnqueueInternal(q1, RetryItem(d, error, delayMs, now)), Ok(Requeued))
  }

  function Reject(q: Queue, deliveryId: string, error: string, now: nat): Queue {
    if deliveryId !in q.leased then q
    else
      q.(leased := q.leased - {deliveryId},
         dead := q.dead + [DeadLetterOf(q.leased[deliveryId], error, now)])
  }

  /** The position of the first dead letter with this id, or |dead|. */
  function FindDead(dead: seq<DeadLetter>, deliveryId: string): (i: nat)
    ensures i <= |dead|
    ensures i < |dead| ==> dead[i].deliveryId == deliveryId
    ensures forall j :: 0 <= j < i ==> dead[j].deliveryId != deliveryId
  {
    if dead == [] || dead[0].deliveryId == deliveryId then 0 else 1 + FindDead(dead[1..], deliveryId)
  }

  function ReplayItem(record: DeadLetter, now: nat): QueuedTask {
    QueuedTask(record.task, 1, now, Some("replayed from dead letter: " + record.error))
  }

  function Replay(q: Queue, deliveryId: string, now: nat): (Queue, Result<Receipt, Error>) {
    var i := FindDead(q.dead, deliveryId);
    if i == |q.dead| then (q, Err(NotFound(deliveryId)))
    else
      var record := q.dead[i];
      (EnqueueInternal(q.(dead := q.dead[..i] + q.dead[i + 1..]), ReplayItem(record, now)),
       Ok(Receipt(record.task.taskId, record.task.queue, record.task.lane)))
  }

  // ---------- one step, whichever operation ----------

  datatype Op =
    | EnqueueOp(task: Task, now: nat)
    | ReserveOp(bindings: seq<Route>, now: nat)
    | AckOp(deliveryId: string)
    | RetryOp(deliveryId: string, error: string, delayMs: nat, now: nat)
    | RejectOp(deliveryId: string, error: string, now: nat)
    | ReplayOp(deliveryId: string, now: nat)

  function Apply(q: Queue, op: Op): Queue {
    match op
    case EnqueueOp(task, now) => Enqueue(q, task, now)
    case ReserveOp(bindings, now) => Reserve(q, bindings, now).0
    case AckOp(deliveryId) => Ack(q, deliveryId)
    case RetryOp(deliveryId, error, delayMs, now) => Retry(q, deliveryId, error, delayMs, now).0
    case RejectOp(deliveryId, error, now) => Reject(q, deliveryId, error, now)
    case ReplayOp(deliveryId, now) => Replay(q, deliveryId, now).0
  }

  function Run(q: Queue, ops: seq<Op>): Queue
    decreases |ops|
  {
    if ops == [] then q else Run(Apply(q, ops[0]), ops[1..])
  }

  // ---------- what every operation keeps ----------

  ghost predicate BucketsValid(q: Queue) {
    forall r :: r in q.buckets ==>
      q.buckets[r] != [] && forall i :: 0 <= i < |q.buckets[r]| ==> RouteOf(q.buckets[r][i].task) == r
  }

  ghost predicate OrderValid(q: Queue) {
    NoDuplicates(q.order) && forall r :: r in q.order <==> r in q.buckets
  }

  ghost predicate IdsValid(q: Queue) {
    && (forall k :: k in q.leased ==> q.leased[k].deliveryId == k == DeliveryId(q.leased[k].task.taskId))
    && (forall i :: 0 <= i < |q.dead| ==>
          q.dead[i].deliveryId == DeliveryId(q.dead[i].task.taskId) && q.dead[i].taskId == q.dead[i].task.taskId
          && RouteOf(q.dead[i].task) == Route(q.dead[i].queue, q.dead[i].lane))
  }

  predicate AttemptInBounds(attempt: u32, task: Task) {
    1 <= attempt <= Max(1, task.retryPolicy.maxAttempts)
  }

  ghost predicate AttemptsValid(q: Queue) {
    && (forall r :: r in q.buckets ==> forall i :: 0 <= i < |q.buckets[r]| ==>
          AttemptInBounds(q.buckets[r][i].attempt, q.buckets[r][i].task))
    && (forall k :: k in q.leased ==> AttemptInBounds(q.leased[k].attempt, q.leased[k].task))
    && (forall i :: 0 <= i < |q.dead| ==> AttemptInBounds(q.dead[i].attempt, q.dead[i].task))
  }

  /**
   No bucket is empty and each holds only its own route's tasks; the route order
   lists exactly the buckets, once each; ids match tasks; attempts are in bounds.
   */
  ghost predicate Valid(q: Queue) {
    BucketsValid(q) && OrderValid(q) && IdsValid(q) && AttemptsValid(q)
  }

  lemma EnqueueInternalKeepsValid(q: Queue, item: QueuedTask)
    requires Valid(q) && AttemptInBounds(item.attempt, item.task)
    ensures Valid(EnqueueInternal(q, item))
  {
    var q', r := EnqueueInternal(q, item), RouteOf(item.task);
    assert forall s :: s in q'.buckets && s != r ==> q'.buckets[s] == q.buckets[s];
    if r in q.buckets {
      assert q'.order == q.order;
    } else {
      assert q'.order == q.order + [r];
    }
  }

  lemma PopFrontKeepsValid(q: Queue, r: Route)
    requires Valid(q) && r in q.buckets
    ensures Valid(PopFront(q, r))
  {
    PopFrontKeepsBuckets(q, r);
  }

  lemma PopFrontKeepsBuckets(q: Queue, r: Route)
    requires BucketsValid(q) && AttemptsValid(q) && r in q.buckets
    ensures BucketsValid(PopFront(q, r)) && AttemptsValid(PopFront(q, r))
  {
    var q' := PopFront(q, r);
    assert forall s :: s in q'.buckets && s != r ==> q'.buckets[s] == q.buckets[s];
    assert r in q'.buckets ==>
      forall i :: 0 <= i < |q'.buckets[r]| ==> q'.buckets[r][i] == q.buckets[r][i + 1];
  }

  lemma ReserveKeepsValid(q: Queue, bindings: seq<Route>, now: nat)
    requires Valid(q)
    ensures Valid(Reserve(q, bindings, now).0)
  {
    match ReserveRoute(q, bindings, now)
    case None =>
    case Some(r) => PopFrontKeepsValid(q, r);
  }

  lemma ReplayKeepsValid(q: Queue, deliveryId: string, now: nat)
    requires Valid(q)
    ensures Valid(Replay(q, deliveryId, now).0)
  {
    var i := FindDead(q.dead, deliveryId);
    if i < |q.dead| {
      WithoutDeadKeepsValid(q, i);
      EnqueueInternalKeepsValid(q.(dead := q.dead[..i] + q.dead[i + 1..]), ReplayItem(q.dead[i], now));
    }
  }

  lemma WithoutDeadKeepsValid(q: Queue, i: nat)
    requires Valid(q) && i < |q.dead|
    ensures Valid(q.(dead := q.dead[..i] + q.dead[i + 1..]))
  {
    var dead := q.dead[..i] + q.dead[i + 1..];
    assert forall j :: 0 <= j < |dead| ==> dead[j] == if j < i then q.dead[j] else q.dead[j + 1];
  }

  lemma RetryKeepsValid(q: Queue, deliveryId: string, error: string, delayMs: nat, now: nat)
    requires Valid(q)
    ensures Valid(Retry(q, deliveryId, error, delayMs, now).0)
  {
    if deliveryId in q.leased {
      var d := q.leased[deliveryId];
      if !Exhausted(d) {
        EnqueueInternalKeepsValid(q.(leased := q.leased - {deliveryId}), RetryItem(d, error, delayMs, now));
      }
    }
  }

  lemma ApplyKeepsValid(q: Queue, op: Op)
    requires Valid(q)
    ensures Valid(Apply(q, op))
  {
    match op
    case EnqueueOp(task, now) => EnqueueInternalKeepsValid(q, QueuedTask(task, 1, now, None));
    case ReserveOp(bindings, now) => ReserveKeepsValid(q, bindings, now);
    case AckOp(_) =>
    case RetryOp(deliveryId, error, delayMs, now) => RetryKeepsValid(q, deliveryId, error, delayMs, now);
    case RejectOp(_, _, _) =>
    case ReplayOp(deliveryId, now) => ReplayKeepsValid(q, deliveryId, now);
  }

  lemma {:induction false} RunKeepsValid(q: Queue, ops: seq<Op>)
    requires Valid(q)
    ensures Valid(Run(q, ops))
    decreases |ops|
  {
    if ops != [] {
      ApplyKeepsValid(q, ops[0]);
      RunKeepsValid(Apply(q, ops[0]), ops[1..]);
    }
  }

  // ---------- what reserve picks ----------

  /** The first due bound route is found whenever there is one. */
  lemma {:induction false} ScanFindsFirst(q: Queue, order: seq<Route>, bindings: seq<Route>, now: nat, s: Route)
    requires NoDuplicates(order)
    requires forall r :: r in order ==> r in q.buckets
    requires s in order && Allowed(bindings, s) && Due(q, s, now)
    ensures var found := Scan(q, Filtered(order, bindings), now);
      found.Some? && found.value in order && IndexOf(order, found.value) <= IndexOf(order, s)
  {
    if order[0] != s && !(Allowed(bindings, order[0]) && Due(q, order[0], now)) {
      assert order[0] in order && s in order[1..];
      ScanFindsFirst(q, order[1..], bindings, now, s);
      var r := Scan(q, Filtered(order[1..], bindings), now).value;
      IndexOfTail(order, r);
      IndexOfTail(order, s);
    }
  }

  lemma IndexOfTail(order: seq<Route>, r: Route)
    requires NoDuplicates(order) && order != [] && r in order[1..]
    ensures IndexOf(order, r) == 1 + IndexOf(order[1..], r)
  {
    var i := IndexOf(order[1..], r);
    assert order[i + 1] == r;
    IndexOfUnique(order, i + 1);
  }

  /**
   In a valid queue `reserve` comes back empty-handed exactly when no bound route
   has a due front.
   */
  lemma ReserveNoneIffNothingDue(q: Queue, bindings: seq<Route>, now: nat)
    requires Valid(q)
    ensures Reserve(q, bindings, now).1.None? <==>
      forall r :: r in q.buckets && Allowed(bindings, r) ==> q.buckets[r][0].availableAt > now
  {
    forall r | r in q.buckets && Allowed(bindings, r) && q.buckets[r][0].availableAt <= now
      ensures Reserve(q, bindings, now).1.Some?
    {
      ScanFindsFirst(q, q.order, bindings, now, r);
    }
  }

  /**
   The route served is the first due bound one in the route order; what is
   handed out is that bucket's front, and it was available.
   */
  lemma ReserveServesFirstDue(q: Queue, bindings: seq<Route>, now: nat)
    requires Valid(q) && ReserveRoute(q, bindings, now).Some?
    ensures var r := ReserveRoute(q, bindings, now).value;
      && (forall s :: s in q.order && Allowed(bindings, s) && Due(q, s, now) ==>
            IndexOf(q.order, r) <= IndexOf(q.order, s))
      && Reserve(q, bindings, now).1 == Some(DeliveryOf(q.buckets[r][0], now))
      && q.buckets[r][0].availableAt <= now
  {
    var r := ReserveRoute(q, bindings, now).value;
    forall s | s in q.order && Allowed(bindings, s) && Due(q, s, now)
      ensures IndexOf(q.order, r) <= IndexOf(q.order, s)
    {
      ScanFindsFirst(q, q.order, bindings, now, s);
    }
  }
}
