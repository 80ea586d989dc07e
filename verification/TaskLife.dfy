/** The life of one task over every run of the queue, whatever else is in it. */
module TaskLife {
  import opened Prelude
  import opened TaskQueue
  import opened QueueAccounting
  import opened TaskPlaces

  datatype Place = Nowhere | Waiting(item: QueuedTask) | Out(d: Delivery) | Buried(record: DeadLetter)

  /** The only thing the queue holds under this task id, if anything. */
  ghost predicate Stands(q: Queue, id: string, place: Place) {
    && QueueAccounting.Queued(q, ById(id)) == (if place.Waiting? then 1 else 0)
    && Leased(q, ById(id)) == (if place.Out? then 1 else 0)
    && Dead(q, ById(id)) == (if place.Buried? then 1 else 0)
    && WaitsAs(q, id, place) && LeasedAs(q, id, place) && DeadAs(q, id, place)
  }

  ghost predicate WaitsAs(q: Queue, id: string, place: Place) {
    forall r, i :: r in q.buckets && 0 <= i < |q.buckets[r]| && q.buckets[r][i].task.taskId == id ==>
      place == Waiting(q.buckets[r][i])
  }

  ghost predicate LeasedAs(q: Queue, id: string, place: Place) {
    forall k :: k in q.leased && q.leased[k].task.taskId == id ==> place == Out(q.leased[k])
  }

  ghost predicate DeadAs(q: Queue, id: string, place: Place) {
    forall i :: 0 <= i < |q.dead| && q.dead[i].task.taskId == id ==> place == Buried(q.dead[i])
  }

  predicate HandsOut(q: Queue, op: Op, id: string) {
    op.ReserveOp? && Reserve(q, op.bindings, op.now).1.Some?
    && Reserve(q, op.bindings, op.now).1.value.task.taskId == id
  }

  /** The operation is about the task where it is, so that it must move. */
  predicate Addresses(q: Queue, op: Op, id: string, place: Place) {
    match place
    case Nowhere => op.EnqueueOp? && op.task.taskId == id
    case Waiting(_) => HandsOut(q, op, id)
    case Out(_) => (op.AckOp? || op.RetryOp? || op.RejectOp?) && op.deliveryId == "dlv-" + id
    case Buried(_) => op.ReplayOp? && op.deliveryId == "dlv-" + id
  }

  /**
   A task waits, is handed out, waits again or is buried, and may be dug out.
   How an operation may move it, and what the task carries from one place to the next,
   field by field.
   */
  ghost predicate Moves(q: Queue, op: Op, id: string, from: Place, to: Place) {
    if !Addresses(q, op, id, from) then to == from
    else
      match (from, to)
      case (Nowhere, Waiting(item)) =>
        item.task == op.task && item.attempt == 1 && item.availableAt == op.now && item.lastError.None?
      case (Waiting(item), Out(d)) =>
        && item.availableAt <= op.now
        && (op.bindings == [] || Route(item.task.queue, item.task.lane) in op.bindings)
        && d.task == item.task && d.attempt == item.attempt && d.lastError == item.lastError
        && d.deliveryId == "dlv-" + id && d.leasedUntil == op.now + 30_000
        && Reserve(q, op.bindings, op.now).1 == Some(d)
      case (Out(d), Waiting(item)) =>
        && op.RetryOp? && d.attempt < d.task.retryPolicy.maxAttempts
        && item.task == d.task && item.attempt == d.attempt + 1
        && item.availableAt == op.now + op.delayMs && item.lastError == Some(op.error)
      case (Out(d), Buried(record)) =>
        && (op.RejectOp? || (op.RetryOp? && d.attempt >= d.task.retryPolicy.maxAttempts))
        && record.task == d.task && record.attempt == d.attempt && record.error == op.error
        && record.deliveryId == "dlv-" + id && record.taskId == id && record.deadLetteredAt == op.now
        && record.queue == d.task.queue && record.lane == d.task.lane
      case (Out(_), Nowhere) => op.AckOp?
      case (Buried(record), Waiting(item)) =>
        && item.task == record.task && item.attempt == 1 && item.availableAt == op.now
        && item.lastError.Some? && EndsWith(item.lastError.value, record.error)
      case _ => false
  }

  // ---------- the parts of an operation ----------

  lemma PushStands(q: Queue, item: QueuedTask, id: string, place: Place)
    requires Stands(q, id, place) && (item.task.taskId == id ==> place.Nowhere?)
    ensures Stands(EnqueueInternal(q, item), id, if item.task.taskId == id then Waiting(item) else place)
  {
    var q', r := EnqueueInternal(q, item), RouteOf(item.task);
    var to := if item.task.taskId == id then Waiting(item) else place;
    EnqueueInternalTotal(q, item, ById(id));
    forall s, i | s in q'.buckets && 0 <= i < |q'.buckets[s]| && q'.buckets[s][i].task.taskId == id
      ensures to == Waiting(q'.buckets[s][i])
    {
      if s != r || i < |Bucket(q, r)| {
        assert q'.buckets[s][i] == q.buckets[s][i];
      }
    }
  }

  lemma PopStands(q: Queue, r: Route, id: string, place: Place)
    requires Stands(q, id, place) && r in q.buckets && q.buckets[r] != []
    ensures q.buckets[r][0].task.taskId == id ==> place == Waiting(q.buckets[r][0])
    ensures Stands(PopFront(q, r), id, if q.buckets[r][0].task.taskId == id then Nowhere else place)
  {
    var q', front := PopFront(q, r), q.buckets[r][0];
    PopFrontTotal(q, r, ById(id));
    forall s, i | s in q'.buckets && 0 <= i < |q'.buckets[s]| && q'.buckets[s][i].task.taskId == id
      ensures front.task.taskId != id && place == Waiting(q'.buckets[s][i])
    {
      assert q'.buckets[s][i] == q.buckets[s][if s == r then i + 1 else i];
      WaitingCounts(q', s, i, ById(id));
    }
  }

  lemma LeaseStands(q: Queue, d: Delivery, id: string, place: Place)
    requires Stands(q, id, place) && d.deliveryId !in q.leased && (d.task.taskId == id ==> place.Nowhere?)
    ensures Stands(q.(leased := q.leased[d.deliveryId := d]), id, if d.task.taskId == id then Out(d) else place)
  {
    SumMapInsert(q.leased, d.deliveryId, d, OfLeased(ById(id)));
  }

  lemma UnleaseStands(q: Queue, k: string, id: string, place: Place)
    requires Stands(q, id, place) && k in q.leased
    ensures q.leased[k].task.taskId == id ==> place == Out(q.leased[k])
    ensures Stands(q.(leased := q.leased - {k}), id, if q.leased[k].task.taskId == id then Nowhere else place)
  {
    var q', d := q.(leased := q.leased - {k}), q.leased[k];
    SumMapSplit(q.leased, k, OfLeased(ById(id)));
    forall j | j in q'.leased && q'.leased[j].task.taskId == id ensures d.task.taskId != id {
      LeasedCounts(q', j, ById(id));
    }
  }

  lemma BuryStands(q: Queue, record: DeadLetter, id: string, place: Place)
    requires Stands(q, id, place) && (record.task.taskId == id ==> place.Nowhere?)
    ensures Stands(q.(dead := q.dead + [record]), id, if record.task.taskId == id then Buried(record) else place)
  {
    DeadTotal(q.dead, record, ById(id));
  }

  lemma DigStands(q: Queue, i: nat, id: string, place: Place)
    requires Stands(q, id, place) && i < |q.dead|
    ensures q.dead[i].task.taskId == id ==> place == Buried(q.dead[i])
    ensures Stands(q.(dead := q.dead[..i] + q.dead[i + 1..]), id,
                   if q.dead[i].task.taskId == id then Nowhere else place)
  {
    var q', record := q.(dead := q.dead[..i] + q.dead[i + 1..]), q.dead[i];
    SumSeqRemove(q.dead, i, OfDead(ById(id)));
    forall j | 0 <= j < |q'.dead| && q'.dead[j].task.taskId == id
      ensures record.task.taskId != id && place == Buried(q'.dead[j])
    {
      assert q'.dead[j] == q.dead[if j < i then j else j + 1];
      SumSeqAtLeast(q'.dead, j, OfDead(ById(id)));
    }
  }

  // ---------- every operation ----------

  lemma DlvIs(id: string, other: string)
    ensures DeliveryId(id) == "dlv-" + id
    ensures DeliveryId(id) == DeliveryId(other) <==> id == other
  {
    if DeliveryId(id) == DeliveryId(other) {
      DeliveryIdInjective(id, other);
    }
  }

  lemma ReserveMoves(w: World, bindings: seq<Route>, now: nat, id: string, from: Place) returns (to: Place)
    requires Conserved(w) && DistinctIds(w.enqueued) && Stands(w.q, id, from)
    ensures Stands(Reserve(w.q, bindings, now).0, id, to)
    ensures Moves(w.q, ReserveOp(bindings, now), id, from, to)
  {
    to := from;
    if ReserveRoute(w.q, bindings, now).Some? {
      var r := ReserveRoute(w.q, bindings, now).value;
      var item := w.q.buckets[r][0];
      var d := DeliveryOf(item, now);
      NoLeaseCollision(w, bindings, now);
      PopStands(w.q, r, id, from);
      if item.task.taskId == id {
        DlvIs(id, id);
        LeaseStands(PopFront(w.q, r), d, id, Nowhere);
        to := Out(d);
        assert RouteOf(item.task) == r;
      } else {
        LeaseStands(PopFront(w.q, r), d, id, from);
      }
    }
  }

  lemma AckMoves(q: Queue, k: string, id: string, from: Place) returns (to: Place)
    requires Valid(q) && Stands(q, id, from)
    ensures Stands(Ack(q, k), id, to) && Moves(q, AckOp(k), id, from, to)
  {
    to := from;
    if k in q.leased {
      DlvIs(id, q.leased[k].task.taskId);
      UnleaseStands(q, k, id, from);
      to := if q.leased[k].task.taskId == id then Nowhere else from;
    } else {
      AckMissing(q, k);
      NotLeased(q, k, id, from);
    }
  }

  /** A task that is out is leased under its delivery id. */
  lemma NotLeased(q: Queue, k: string, id: string, place: Place)
    requires Valid(q) && Stands(q, id, place) && k !in q.leased
    ensures place.Out? ==> k != "dlv-" + id
  {
    if place.Out? {
      var j := SumMapWitness(q.leased, OfLeased(ById(id)));
      DlvIs(id, id);
    }
  }

  lemma RetryMoves(q: Queue, op: Op, id: string, from: Place) returns (to: Place)
    requires Valid(q) && Stands(q, id, from) && op.RetryOp?
    ensures Stands(Apply(q, op), id, to) && Moves(q, op, id, from, to)
  {
    to := from;
    if op.deliveryId in q.leased {
      var d, rest := q.leased[op.deliveryId], q.(leased := q.leased - {op.deliveryId});
      DlvIs(id, d.task.taskId);
      UnleaseStands(q, op.deliveryId, id, from);
      var mid := if d.task.taskId == id then Nowhere else from;
      if Exhausted(d) {
        var record := DeadLetterOf(d, op.error, op.now);
        BuryStands(rest, record, id, mid);
        to := if d.task.taskId == id then Buried(record) else from;
      } else {
        var item := RetryItem(d, op.error, op.delayMs, op.now);
        PushStands(rest, item, id, mid);
        to := if d.task.taskId == id then Waiting(item) else from;
      }
    } else {
      NotLeased(q, op.deliveryId, id, from);
    }
  }

  lemma RejectMoves(q: Queue, op: Op, id: string, from: Place) returns (to: Place)
    requires Valid(q) && Stands(q, id, from) && op.RejectOp?
    ensures Stands(Apply(q, op), id, to) && Moves(q, op, id, from, to)
  {
    to := from;
    if op.deliveryId in q.leased {
      var d, rest := q.leased[op.deliveryId], q.(leased := q.leased - {op.deliveryId});
      var record := DeadLetterOf(d, op.error, op.now);
      DlvIs(id, d.task.taskId);
      UnleaseStands(q, op.deliveryId, id, from);
      BuryStands(rest, record, id, if d.task.taskId == id then Nowhere else from);
      to := if d.task.taskId == id then Buried(record) else from;
    } else {
      NotLeased(q, op.deliveryId, id, from);
    }
  }

  lemma ReplayMoves(q: Queue, k: string, now: nat, id: string, from: Place) returns (to: Place)
    requires Valid(q) && Stands(q, id, from)
    ensures Stands(Replay(q, k, now).0, id, to) && Moves(q, ReplayOp(k, now), id, from, to)
  {
    to := from;
    var i := FindDead(q.dead, k);
    if i < |q.dead| {
      DlvIs(id, q.dead[i].task.taskId);
      to := DigAndPush(q, i, ReplayItem(q.dead[i], now), id, from);
      DugOut(q, q.dead[i], now, id, from, to);
    } else {
      NotDead(q, k, id, from);
    }
  }

  lemma DugOut(q: Queue, record: DeadLetter, now: nat, id: string, from: Place, to: Place)
    requires record.deliveryId == "dlv-" + record.task.taskId
    requires record.deliveryId == "dlv-" + id <==> record.task.taskId == id
    requires if record.task.taskId == id then from == Buried(record) && to == Waiting(ReplayItem(record, now))
             else to == from
    ensures Moves(q, ReplayOp(record.deliveryId, now), id, from, to)
  {
    ReplayTells(record, now);
  }

  lemma ReplayTells(record: DeadLetter, now: nat)
    ensures ReplayItem(record, now).lastError.Some?
    ensures EndsWith(ReplayItem(record, now).lastError.value, record.error)
  {
  }

  lemma NotDead(q: Queue, k: string, id: string, place: Place)
    requires Valid(q) && Stands(q, id, place) && FindDead(q.dead, k) == |q.dead|
    ensures place.Buried? ==> k != "dlv-" + id
  {
    if place.Buried? {
      var j := SumSeqWitness(q.dead, OfDead(ById(id)));
      DlvIs(id, id);
    }
  }

  lemma DigAndPush(q: Queue, i: nat, item: QueuedTask, id: string, from: Place) returns (to: Place)
    requires Stands(q, id, from) && i < |q.dead| && item.task == q.dead[i].task
    ensures Stands(EnqueueInternal(q.(dead := q.dead[..i] + q.dead[i + 1..]), item), id, to)
    ensures if item.task.taskId == id then from == Buried(q.dead[i]) && to == Waiting(item) else to == from
  {
    var mid := if item.task.taskId == id then Nowhere else from;
    to := if item.task.taskId == id then Waiting(item) else from;
    DigStands(q, i, id, from);
    PushStands(q.(dead := q.dead[..i] + q.dead[i + 1..]), item, id, mid);
  }

  lemma AlreadyThere(tasks: seq<Task>, task: Task, other: Task)
    requires DistinctIds(tasks + [task]) && other in tasks
    ensures other.taskId != task.taskId
  {
    var all := tasks + [task];
    var i :| 0 <= i < |tasks| && tasks[i] == other;
    assert all[i] == other && all[|tasks|] == task;
  }

  /** A task about to be enqueued for the first time is nowhere. */
  lemma FreshIsNowhere(w: World, task: Task, from: Place)
    requires Conserved(w) && DistinctIds(w.enqueued + [task]) && Stands(w.q, task.taskId, from)
    ensures from.Nowhere?
  {
    var g := ById(task.taskId);
    assert Balanced(w, g);
    if SumSeq(w.enqueued, OfTask(g)) > 0 {
      var i := SumSeqWitness(w.enqueued, OfTask(g));
      AlreadyThere(w.enqueued, task, w.enqueued[i]);
      assert false;
    }
  }

  /** Under distinct ids every operation moves the task as it may, and leaves it alone otherwise. */
  lemma OpMoves(w: World, op: Op, id: string, from: Place) returns (to: Place)
    requires Conserved(w) && DistinctIds(w.enqueued) && Stands(w.q, id, from)
    requires op.EnqueueOp? ==> DistinctIds(w.enqueued + [op.task])
    ensures Stands(Apply(w.q, op), id, to) && Moves(w.q, op, id, from, to)
  {
    match op
    case EnqueueOp(task, now) =>
      var item := QueuedTask(task, 1, now, None);
      if task.taskId == id {
        FreshIsNowhere(w, task, from);
      }
      PushStands(w.q, item, id, from);
      to := if task.taskId == id then Waiting(item) else from;
    case ReserveOp(bindings, now) => to := ReserveMoves(w, bindings, now, id, from);
    case AckOp(k) => to := AckMoves(w.q, k, id, from);
    case RetryOp(_, _, _, _) => to := RetryMoves(w.q, op, id, from);
    case RejectOp(_, _, _) => to := RejectMoves(w.q, op, id, from);
    case ReplayOp(k, now) => to := ReplayMoves(w.q, k, now, id, from);
  }

  // ---------- every run ----------

  lemma {:induction false} PlaceUnique(q: Queue, id: string, a: Place, b: Place)
    requires Stands(q, id, a) && Stands(q, id, b)
    ensures a == b
  {
    if a.Waiting? {
      var r := SumMapWitness(q.buckets, OfBucket(ById(id)));
      var i := SumSeqWitness(q.buckets[r], OfQueued(ById(id)));
      assert q.buckets[r][i].task.taskId == id;
    } else if a.Out? {
      var k := SumMapWitness(q.leased, OfLeased(ById(id)));
    } else if a.Buried? {
      var i := SumSeqWitness(q.dead, OfDead(ById(id)));
    }
  }

  /** The only place of the task, which `PlaceUnique` makes the one there is. */
  ghost function PlaceOf(q: Queue, id: string): Place {
    if exists place :: Stands(q, id, place) then
      var place :| Stands(q, id, place); place
    else Nowhere
  }

  lemma PlaceIs(q: Queue, id: string, place: Place)
    requires Stands(q, id, place)
    ensures PlaceOf(q, id) == place
  {
    PlaceUnique(q, id, place, PlaceOf(q, id));
  }

  lemma NextOp(w: World, ops: seq<Op>)
    requires ops != [] && DistinctIds(w.enqueued + TasksOf(ops))
    ensures DistinctIds(w.enqueued)
    ensures ops[0].EnqueueOp? ==> DistinctIds(w.enqueued + [ops[0].task])
    ensures DistinctIds(Step(w, ops[0]).enqueued + TasksOf(ops[1..]))
  {
    StepTasks(w, ops);
    DistinctFront(Step(w, ops[0]).enqueued, TasksOf(ops[1..]));
  }

  lemma {:induction false} RunStands(w: World, ops: seq<Op>, id: string, from: Place) returns (to: Place)
    requires Conserved(w) && DistinctIds(w.enqueued + TasksOf(ops)) && Stands(w.q, id, from)
    ensures Stands(Run(w.q, ops), id, to)
    decreases |ops|
  {
    to := from;
    if ops != [] {
      NextOp(w, ops);
      to := OpMoves(w, ops[0], id, from);
      StepConserves(w, ops[0]);
      to := RunStands(Step(w, ops[0]), ops[1..], id, to);
    }
  }

  /** Whatever was run, the queue holds one thing under an id at most, and `PlaceOf` says what. */
  lemma Reached(ops: seq<Op>, id: string) returns (w: World)
    requires DistinctIds(TasksOf(ops))
    ensures w == RunWorld(START, ops) && w.q == Run(EMPTY, ops) && w.enqueued == TasksOf(ops)
    ensures Conserved(w) && Stands(w.q, id, PlaceOf(w.q, id))
  {
    w := RunWorld(START, ops);
    ReachableConserves(ops);
    assert forall g: Gauge :: !g.Work? ==> Balanced(START, g);
    assert START.enqueued + TasksOf(ops) == TasksOf(ops);
    var place := RunStands(START, ops, id, Nowhere);
    PlaceIs(w.q, id, place);
  }

  /**
   The life of a task. After any run with distinct ids, whatever operation comes next
   moves the task as its place and the operation call for, carrying over exactly what
   it should, or leaves it untouched.
   */
  lemma LifeOfATask(ops: seq<Op>, op: Op, id: string)
    requires DistinctIds(TasksOf(ops)) && (op.EnqueueOp? ==> DistinctIds(TasksOf(ops) + [op.task]))
    ensures var q := Run(EMPTY, ops);
      && Stands(q, id, PlaceOf(q, id)) && Stands(Apply(q, op), id, PlaceOf(Apply(q, op), id))
      && Moves(q, op, id, PlaceOf(q, id), PlaceOf(Apply(q, op), id))
  {
    var w := Reached(ops, id);
    var to := OpMoves(w, op, id, PlaceOf(w.q, id));
    PlaceIs(Apply(w.q, op), id, to);
  }

  /** What retry and replay answer tells where the task is, and an unknown delivery id is an error. */
  lemma AnswersTell(ops: seq<Op>, id: string, error: string, delayMs: nat, now: nat)
    requires DistinctIds(TasksOf(ops))
    ensures var q, k := Run(EMPTY, ops), "dlv-" + id;
      && Retry(q, k, error, delayMs, now).1 ==
         (match PlaceOf(q, id)
          case Out(d) => Ok(if d.attempt < d.task.retryPolicy.maxAttempts then Requeued else DeadLettered)
          case _ => Err(Internal))
      && Replay(q, k, now).1 ==
         (match PlaceOf(q, id)
          case Buried(record) => Ok(Receipt(id, record.queue, record.lane))
          case _ => Err(NotFound(k)))
  {
    var w := Reached(ops, id);
    RetryAnswers(w.q, id, PlaceOf(w.q, id), error, delayMs, now);
    ReplayAnswers(w.q, id, PlaceOf(w.q, id), now);
  }

  lemma RetryAnswers(q: Queue, id: string, place: Place, error: string, delayMs: nat, now: nat)
    requires Valid(q) && Stands(q, id, place)
    ensures Retry(q, "dlv-" + id, error, delayMs, now).1 ==
      match place
      case Out(d) => Ok(if d.attempt < d.task.retryPolicy.maxAttempts then Requeued else DeadLettered)
      case _ => Err(Internal)
  {
    DlvIs(id, id);
    if "dlv-" + id in q.leased {
      DlvIs(id, q.leased["dlv-" + id].task.taskId);
    } else {
      NotLeased(q, "dlv-" + id, id, place);
    }
  }

  lemma ReplayAnswers(q: Queue, id: string, place: Place, now: nat)
    requires Valid(q) && Stands(q, id, place)
    ensures Replay(q, "dlv-" + id, now).1 ==
      match place
      case Buried(record) => Ok(Receipt(id, record.queue, record.lane))
      case _ => Err(NotFound("dlv-" + id))
  {
    var i := FindDead(q.dead, "dlv-" + id);
    DlvIs(id, id);
    if i < |q.dead| {
      DlvIs(id, q.dead[i].task.taskId);
    } else {
      NotDead(q, "dlv-" + id, id, place);
    }
  }

  // ---------- never before its time ----------

  ghost predicate NobodyGets(q: Queue, ops: seq<Op>, id: string)
    decreases |ops|
  {
    ops == [] || (!HandsOut(q, ops[0], id) && NobodyGets(Apply(q, ops[0]), ops[1..], id))
  }

  lemma {:induction false} KeepsWaiting(w: World, ops: seq<Op>, id: string, item: QueuedTask)
    requires Conserved(w) && DistinctIds(w.enqueued + TasksOf(ops)) && Stands(w.q, id, Waiting(item))
    requires NobodyGets(w.q, ops, id)
    ensures Stands(Run(w.q, ops), id, Waiting(item))
    ensures Conserved(RunWorld(w, ops)) && RunWorld(w, ops).q == Run(w.q, ops)
    ensures RunWorld(w, ops).enqueued == w.enqueued + TasksOf(ops)
    decreases |ops|
  {
    RunConserves(w, ops);
    if ops != [] {
      NextOp(w, ops);
      var to := OpMoves(w, ops[0], id, Waiting(item));
      StepConserves(w, ops[0]);
      KeepsWaiting(Step(w, ops[0]), ops[1..], id, item);
    }
  }

  /** Whoever next gets a waiting task gets that very item, and not before its time. */
  lemma NextHandout(w: World, ops: seq<Op>, id: string, item: QueuedTask, bindings: seq<Route>, later: nat)
    requires Conserved(w) && DistinctIds(w.enqueued + TasksOf(ops)) && Stands(w.q, id, Waiting(item))
    requires NobodyGets(w.q, ops, id) && HandsOut(Run(w.q, ops), ReserveOp(bindings, later), id)
    ensures var d := Reserve(Run(w.q, ops), bindings, later).1.value;
      later >= item.availableAt && d.task == item.task && d.attempt == item.attempt && d.lastError == item.lastError
  {
    KeepsWaiting(w, ops, id, item);
    var to := OpMoves(RunWorld(w, ops), ReserveOp(bindings, later), id, Waiting(item));
  }

  /**
   A retried task is next handed out with one attempt more, with the error it failed
   with, and not before its delay has passed, whatever is done to the queue meanwhile.
   */
  lemma RetryIsNotEarly(before: seq<Op>, retry: Op, ops: seq<Op>, bindings: seq<Route>, later: nat, id: string)
    requires DistinctIds(TasksOf(before) + TasksOf(ops)) && retry.RetryOp? && retry.deliveryId == "dlv-" + id
    requires PlaceOf(Run(EMPTY, before), id).Out? && PlaceOf(Apply(Run(EMPTY, before), retry), id).Waiting?
    requires NobodyGets(Apply(Run(EMPTY, before), retry), ops, id)
    requires HandsOut(Run(Apply(Run(EMPTY, before), retry), ops), ReserveOp(bindings, later), id)
    ensures var failed := PlaceOf(Run(EMPTY, before), id).d;
      var d := Reserve(Run(Apply(Run(EMPTY, before), retry), ops), bindings, later).1.value;
      && later >= retry.now + retry.delayMs
      && d.task == failed.task && d.attempt == failed.attempt + 1 && d.lastError == Some(retry.error)
  {
    DistinctFront(TasksOf(before), TasksOf(ops));
    var w := Reached(before, id);
    LifeOfATask(before, retry, id);
    StepConserves(w, retry);
    NextHandout(Step(w, retry), ops, id, PlaceOf(Apply(w.q, retry), id).item, bindings, later);
  }

  /** With nothing else to hand out, a retried task is handed out if and only if its delay has passed. */
  lemma RetryDueIff(q: Queue, deliveryId: string, error: string, delayMs: nat, now: nat,
                    bindings: seq<Route>, later: nat)
    requires Valid(q) && deliveryId in q.leased
    requires var task := q.leased[deliveryId].task;
      && q.leased[deliveryId].attempt < task.retryPolicy.maxAttempts
      && Route(task.queue, task.lane) !in q.buckets
      && (bindings == [] || Route(task.queue, task.lane) in bindings)
    requires forall r :: r in q.buckets && (bindings == [] || r in bindings) ==> q.buckets[r][0].availableAt > later
    ensures var failed := q.leased[deliveryId];
      var handed := Reserve(Retry(q, deliveryId, error, delayMs, now).0, bindings, later).1;
      && (handed.Some? <==> later >= now + delayMs)
      && (handed.Some? ==> handed.value.task == failed.task && handed.value.attempt == failed.attempt + 1)
  {
    var q' := Retry(q, deliveryId, error, delayMs, now).0;
    var r := RouteOf(q.leased[deliveryId].task);
    RetryKeepsValid(q, deliveryId, error, delayMs, now);
    var item := RetryItem(q.leased[deliveryId], error, delayMs, now);
    assert Bucket(q, r) + [item] == [item];
    assert q'.buckets == q.buckets[r := [item]];
    ReserveNoneIffNothingDue(q', bindings, later);
    if ReserveRoute(q', bindings, later).Some? {
      ReserveServesFirstDue(q', bindings, later);
    }
  }

  // ---------- as many attempts as allowed ----------

  function Handouts(q: Queue, ops: seq<Op>, id: string): nat
    decreases |ops|
  {
    if ops == [] then 0
    else (if HandsOut(q, ops[0], id) then 1 else 0) + Handouts(Apply(q, ops[0]), ops[1..], id)
  }

  /** Nobody rejects the task or replays it. */
  ghost predicate Undisturbed(ops: seq<Op>, id: string) {
    forall i :: 0 <= i < |ops| && (ops[i].RejectOp? || ops[i].ReplayOp?) ==> ops[i].deliveryId != "dlv-" + id
  }

  /** What the number of times a task was handed out says about where it is, and the other way round. */
  ghost predicate Tally(place: Place, task: Task, n: nat) {
    var allowed := Max(1, task.retryPolicy.maxAttempts);
    match place
    case Nowhere => 1 <= n <= allowed
    case Waiting(item) => item.task == task && item.attempt == n + 1 <= allowed
    case Out(d) => d.task == task && 1 <= d.attempt == n <= allowed
    case Buried(record) => record.task == task && record.attempt == n == allowed
  }

  lemma OpTallies(w: World, op: Op, id: string, task: Task, from: Place, n: nat) returns (to: Place)
    requires Conserved(w) && DistinctIds(w.enqueued) && Stands(w.q, id, from) && task.taskId == id
    requires op.EnqueueOp? ==> DistinctIds(w.enqueued + [op.task])
    requires task in w.enqueued && Undisturbed([op], id) && Tally(from, task, n)
    ensures Stands(Apply(w.q, op), id, to)
    ensures Tally(to, task, n + if HandsOut(w.q, op, id) then 1 else 0)
  {
    to := OpMoves(w, op, id, from);
    assert [op][0] == op;
    if op.EnqueueOp? && op.task.taskId == id {
      AlreadyThere(w.enqueued, op.task, task);
      assert false;
    }
    if HandsOut(w.q, op, id) {
      HandoutWaited(w, op, id, from);
    }
  }

  lemma HandoutWaited(w: World, op: Op, id: string, from: Place)
    requires Stands(w.q, id, from) && Valid(w.q) && HandsOut(w.q, op, id)
    ensures from.Waiting?
  {
    PopStands(w.q, ReserveRoute(w.q, op.bindings, op.now).value, id, from);
  }

  lemma {:induction false} RunTallies(w: World, ops: seq<Op>, id: string, task: Task, from: Place, n: nat)
    returns (to: Place)
    requires Conserved(w) && DistinctIds(w.enqueued + TasksOf(ops)) && Stands(w.q, id, from) && task.taskId == id
    requires task in w.enqueued && Undisturbed(ops, id) && Tally(from, task, n)
    ensures Stands(Run(w.q, ops), id, to) && Tally(to, task, n + Handouts(w.q, ops, id))
    decreases |ops|
  {
    to := from;
    if ops != [] {
      NextOp(w, ops);
      to := OpTallies(w, ops[0], id, task, from, n);
      StepConserves(w, ops[0]);
      to := RunTallies(Step(w, ops[0]), ops[1..], id, task, to,
                       n + if HandsOut(w.q, ops[0], id) then 1 else 0);
    }
  }

  /**
   All its attempts, no more and no fewer. From the moment a task is enqueued or
   replayed, as long as nobody rejects it or replays it, it is handed out at most as
   often as it is allowed, its attempt counts how often, and it is buried only after
   the last of them.
   */
  lemma FullAttempts(before: seq<Op>, start: Op, ops: seq<Op>, task: Task)
    requires DistinctIds(StartedWith(before, start) + TasksOf(ops)) && task in StartedWith(before, start)
    requires (start.EnqueueOp? && start.task == task) || (start.ReplayOp? && start.deliveryId == "dlv-" + task.taskId)
    requires start.ReplayOp? ==> PlaceOf(Run(EMPTY, before), task.taskId).Buried?
    requires Undisturbed(ops, task.taskId)
    ensures var q := Apply(Run(EMPTY, before), start);
      Tally(PlaceOf(Run(q, ops), task.taskId), task, Handouts(q, ops, task.taskId))
  {
    var id := task.taskId;
    var w := ReachedThen(before, start, ops, id);
    var from := StartsAfresh(w, start, task);
    var to := RunTallies(Step(w, start), ops, id, task, from, 0);
    PlaceIs(Run(Apply(w.q, start), ops), id, to);
  }

  lemma ReachedThen(before: seq<Op>, start: Op, ops: seq<Op>, id: string) returns (w: World)
    requires DistinctIds(StartedWith(before, start) + TasksOf(ops))
    ensures Conserved(w) && DistinctIds(w.enqueued) && w.q == Run(EMPTY, before) && Stands(w.q, id, PlaceOf(w.q, id))
    ensures Step(w, start).enqueued == StartedWith(before, start)
    ensures Conserved(Step(w, start)) && DistinctIds(Step(w, start).enqueued)
  {
    var more := if start.EnqueueOp? then [start.task] else [];
    DistinctFront(StartedWith(before, start), TasksOf(ops));
    DistinctFront(TasksOf(before), more);
    w := Reached(before, id);
    assert more == [] ==> TasksOf(before) + more == TasksOf(before);
    StepConserves(w, start);
  }

  lemma StartsAfresh(w: World, start: Op, task: Task) returns (place: Place)
    requires Conserved(w) && Conserved(Step(w, start)) && DistinctIds(Step(w, start).enqueued)
    requires DistinctIds(w.enqueued) && task in Step(w, start).enqueued
    requires Stands(w.q, task.taskId, PlaceOf(w.q, task.taskId))
    requires (start.EnqueueOp? && start.task == task) || (start.ReplayOp? && start.deliveryId == "dlv-" + task.taskId)
    requires start.ReplayOp? ==> PlaceOf(w.q, task.taskId).Buried?
    ensures Stands(Apply(w.q, start), task.taskId, place) && Tally(place, task, 0)
  {
    var from := PlaceOf(w.q, task.taskId);
    if start.EnqueueOp? {
      FreshIsNowhere(w, task, from);
    }
    place := OpMoves(w, start, task.taskId, from);
    TaskThere(Step(w, start), task.taskId, place, task);
  }

  function StartedWith(before: seq<Op>, start: Op): seq<Task> {
    TasksOf(before) + if start.EnqueueOp? then [start.task] else []
  }

  /** What waits under an enqueued task's id is that task. */
  lemma TaskThere(w: World, id: string, place: Place, task: Task)
    requires Conserved(w) && DistinctIds(w.enqueued) && Stands(w.q, id, place) && place.Waiting?
    requires task in w.enqueued && task.taskId == id
    ensures place.item.task == task
  {
    var r := SumMapWitness(w.q.buckets, OfBucket(ById(id)));
    var i := SumSeqWitness(w.q.buckets[r], OfQueued(ById(id)));
    WaitingKnown(w, r, i);
  }
}
