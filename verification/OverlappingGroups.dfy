/** Why worker groups must not share a route, and that this is the exact condition. */
module OverlappingGroups {
  import opened Prelude
  import opened Rotation
  import opened TaskQueue
  import QueueAccounting
  import opened WorkerLoop
  import opened WorkerInvariant
  import opened Lifecycle

  lemma {:induction false} Extend(groups: Groups, s: System, actions: seq<Action>, a: Action)
    requires Possible(groups, s, actions) && Enabled(groups, RunSystem(groups, s, actions), a)
    ensures Possible(groups, s, actions + [a])
    ensures RunSystem(groups, s, actions + [a]) == Step(groups, RunSystem(groups, s, actions), a)
    ensures TasksScheduled(actions + [a]) == TasksScheduled(actions) + if a.BeginSchedule? then [a.task] else []
    decreases |actions|
  {
    if actions == [] {
      assert [a][1..] == [] && actions + [a] == [a];
    } else {
      assert (actions + [a])[1..] == actions[1..] + [a];
      Extend(groups, Step(groups, s, actions[0]), actions[1..], a);
    }
  }

  /** What matters of a system in which only groups g and h have been working, on one task. */
  ghost predicate Stands(groups: Groups, s: System, g: nat, h: nat, atG: Worker, atH: Worker, q: Queue)
    requires g in groups && h in groups
  {
    && s.workers == (map k | k in groups :: Head)[g := atG][h := atH]
    && s.w.q == q && s.schedulers == map[]
  }

  /** The queue holding just one task, waiting for its given attempt. */
  function Waiting(item: QueuedTask): Queue {
    Queue(map[RouteOf(item.task) := [item]], [RouteOf(item.task)], map[], [])
  }

  function LeasedOnly(d: Delivery): Queue {
    Queue(map[], [], map[d.deliveryId := d], [])
  }

  lemma ServeOnly(item: QueuedTask, bindings: seq<Route>, now: nat)
    requires Allowed(bindings, RouteOf(item.task)) && item.availableAt <= now
    ensures Reserve(Waiting(item), bindings, now) == (LeasedOnly(DeliveryOf(item, now)), Some(DeliveryOf(item, now)))
  {
    var q, r := Waiting(item), RouteOf(item.task);
    assert q.order[1..] == [];
    assert Filtered(q.order, bindings) == [r];
    assert q.buckets[r][1..] == [];
    assert q.buckets - {r} == map[];
    assert RemoveFirst(q.order, r) == [];
    var d := DeliveryOf(item, now);
    assert PopFront(q, r).leased[d.deliveryId := d] == map[d.deliveryId := d];
  }

  lemma FailOnly(d: Delivery, error: string, delayMs: nat, now: nat)
    requires !Exhausted(d)
    ensures Retry(LeasedOnly(d), d.deliveryId, error, delayMs, now)
         == (Waiting(RetryItem(d, error, delayMs, now)), Ok(Requeued))
  {
    var q := LeasedOnly(d);
    assert q.leased - {d.deliveryId} == map[];
    var item := RetryItem(d, error, delayMs, now);
    assert Bucket(EMPTY, RouteOf(d.task)) + [item] == [item];
    assert EnqueueInternal(EMPTY, item) == Waiting(item);
  }

  function FirstItem(task: Task): QueuedTask {
    QueuedTask(task, 1, 0, None)
  }

  function SecondItem(task: Task): QueuedTask
    requires task.retryPolicy.maxAttempts >= 2
  {
    RetryItem(DeliveryOf(FirstItem(task), 0), "failed", task.retryPolicy.retryDelayMs, 0)
  }

  /** Group g has been given the task. */
  lemma Taken(groups: Groups, g: nat, h: nat, task: Task) returns (run: seq<Action>)
    requires g in groups && h in groups && g != h && Allowed(groups[g], RouteOf(task))
    ensures Possible(groups, Initial(groups), run) && TasksScheduled(run) == [task]
    ensures var s, d := RunSystem(groups, Initial(groups), run), DeliveryOf(FirstItem(task), 0);
      Stands(groups, s, g, h, Reserved(d), Head, LeasedOnly(d)) && s.w.acked == [] && s.w.enqueued == [task]
  {
    var init, d := Initial(groups), DeliveryOf(FirstItem(task), 0);
    run := [];
    Extend(groups, init, run, BeginSchedule(0, task));
    run := run + [BeginSchedule(0, task)];
    Extend(groups, init, run, FinishSchedule(0, 0));
    run := run + [FinishSchedule(0, 0)];
    var s := RunSystem(groups, init, run);
    assert Bucket(EMPTY, RouteOf(task)) + [FirstItem(task)] == [FirstItem(task)];
    assert s.w.q == Waiting(FirstItem(task)) && s.schedulers == map[];
    ServeOnly(FirstItem(task), groups[g], 0);
    Extend(groups, init, run, Work(g, 0, SMOOTH));
    run := run + [Work(g, 0, SMOOTH)];
    s := RunSystem(groups, init, run);
    assert s.workers == (map k | k in groups :: Head)[g := Reserved(d)][h := Head];
  }

  /** Group g has published that it is preparing the task. */
  lemma StartsPreparing(groups: Groups, g: nat, h: nat, task: Task) returns (run: seq<Action>)
    requires g in groups && h in groups && g != h && Allowed(groups[g], RouteOf(task))
    ensures Possible(groups, Initial(groups), run) && TasksScheduled(run) == [task]
    ensures var s, d := RunSystem(groups, Initial(groups), run), DeliveryOf(FirstItem(task), 0);
      Stands(groups, s, g, h, AtPreparing(d), Head, LeasedOnly(d)) && s.w.acked == [] && s.w.enqueued == [task]
  {
    var init, d := Initial(groups), DeliveryOf(FirstItem(task), 0);
    run := Taken(groups, g, h, task);
    Extend(groups, init, run, Work(g, 0, SMOOTH));
    run := run + [Work(g, 0, SMOOTH)];
    var s := RunSystem(groups, init, run);
    assert s.workers == (map k | k in groups :: Head)[g := AtPreparing(d)][h := Head];
  }

  /** Group g could not prepare the task. */
  lemma CannotPrepare(groups: Groups, g: nat, h: nat, task: Task) returns (run: seq<Action>)
    requires g in groups && h in groups && g != h && Allowed(groups[g], RouteOf(task))
    ensures Possible(groups, Initial(groups), run) && TasksScheduled(run) == [task]
    ensures var s, d := RunSystem(groups, Initial(groups), run), DeliveryOf(FirstItem(task), 0);
      Stands(groups, s, g, h, Failing(d), Head, LeasedOnly(d)) && s.w.acked == [] && s.w.enqueued == [task]
  {
    var init, d := Initial(groups), DeliveryOf(FirstItem(task), 0);
    run := StartsPreparing(groups, g, h, task);
    Extend(groups, init, run, Work(g, 0, SMOOTH.(prepared := false)));
    run := run + [Work(g, 0, SMOOTH.(prepared := false))];
    var s := RunSystem(groups, init, run);
    assert s.workers == (map k | k in groups :: Head)[g := Failing(d)][h := Head];
  }

  /** Group g has put the task back, but has not reported so yet. */
  lemma PutBack(groups: Groups, g: nat, h: nat, task: Task) returns (run: seq<Action>)
    requires g in groups && h in groups && g != h && Allowed(groups[g], RouteOf(task))
    requires task.retryPolicy.maxAttempts >= 2
    ensures Possible(groups, Initial(groups), run) && TasksScheduled(run) == [task]
    ensures var s, d := RunSystem(groups, Initial(groups), run), DeliveryOf(FirstItem(task), 0);
      Stands(groups, s, g, h, Reporting(d, Requeued), Head, Waiting(SecondItem(task)))
      && s.w.acked == [] && s.w.enqueued == [task]
  {
    var init, d := Initial(groups), DeliveryOf(FirstItem(task), 0);
    run := CannotPrepare(groups, g, h, task);
    FailOnly(d, "failed", task.retryPolicy.retryDelayMs, 0);
    Extend(groups, init, run, Work(g, 0, SMOOTH));
    run := run + [Work(g, 0, SMOOTH)];
    var s := RunSystem(groups, init, run);
    assert s.workers == (map k | k in groups :: Head)[g := Reporting(d, Requeued)][h := Head];
  }

  /** Meanwhile group h took the task. */
  lemma TakenAgain(groups: Groups, g: nat, h: nat, task: Task) returns (run: seq<Action>)
    requires g in groups && h in groups && g != h
    requires Allowed(groups[g], RouteOf(task)) && Allowed(groups[h], RouteOf(task))
    requires task.retryPolicy.maxAttempts >= 2
    ensures Possible(groups, Initial(groups), run) && TasksScheduled(run) == [task]
    ensures var s, d := RunSystem(groups, Initial(groups), run), DeliveryOf(FirstItem(task), 0);
      var d' := DeliveryOf(SecondItem(task), task.retryPolicy.retryDelayMs);
      Stands(groups, s, g, h, Reporting(d, Requeued), Reserved(d'), LeasedOnly(d'))
      && s.w.acked == [] && s.w.enqueued == [task]
  {
    var init, d := Initial(groups), DeliveryOf(FirstItem(task), 0);
    var now := task.retryPolicy.retryDelayMs;
    var d' := DeliveryOf(SecondItem(task), now);
    run := PutBack(groups, g, h, task);
    ServeOnly(SecondItem(task), groups[h], now);
    Extend(groups, init, run, Work(h, now, SMOOTH));
    run := run + [Work(h, now, SMOOTH)];
    var s := RunSystem(groups, init, run);
    assert s.workers == (map k | k in groups :: Head)[g := Reporting(d, Requeued)][h := Reserved(d')];
  }

  /** Group h has prepared the task and published that. */
  lemma Prepares(groups: Groups, g: nat, h: nat, task: Task) returns (run: seq<Action>)
    requires g in groups && h in groups && g != h
    requires Allowed(groups[g], RouteOf(task)) && Allowed(groups[h], RouteOf(task))
    requires task.retryPolicy.maxAttempts >= 2
    ensures Possible(groups, Initial(groups), run) && TasksScheduled(run) == [task]
    ensures var s, d := RunSystem(groups, Initial(groups), run), DeliveryOf(FirstItem(task), 0);
      var d' := DeliveryOf(SecondItem(task), task.retryPolicy.retryDelayMs);
      Stands(groups, s, g, h, Reporting(d, Requeued), AtPrepared(d'), LeasedOnly(d'))
      && s.w.acked == [] && s.w.enqueued == [task]
  {
    var init, d := Initial(groups), DeliveryOf(FirstItem(task), 0);
    var d' := DeliveryOf(SecondItem(task), task.retryPolicy.retryDelayMs);
    var w := Work(h, 0, SMOOTH);
    run := TakenAgain(groups, g, h, task);
    Extend(groups, init, run, w);
    run := run + [w];
    assert RunSystem(groups, init, run).workers[h] == AtPreparing(d');
    Extend(groups, init, run, w);
    run := run + [w];
    var s := RunSystem(groups, init, run);
    assert s.workers == (map k | k in groups :: Head)[g := Reporting(d, Requeued)][h := AtPrepared(d')];
  }

  /** Group h went on to complete the task and publish that. */
  lemma Completes(groups: Groups, g: nat, h: nat, task: Task) returns (run: seq<Action>)
    requires g in groups && h in groups && g != h
    requires Allowed(groups[g], RouteOf(task)) && Allowed(groups[h], RouteOf(task))
    requires task.retryPolicy.maxAttempts >= 2
    ensures Possible(groups, Initial(groups), run) && TasksScheduled(run) == [task]
    ensures var s, d := RunSystem(groups, Initial(groups), run), DeliveryOf(FirstItem(task), 0);
      var d' := DeliveryOf(SecondItem(task), task.retryPolicy.retryDelayMs);
      Stands(groups, s, g, h, Reporting(d, Requeued), Finished(d'), LeasedOnly(d'))
      && s.w.acked == [] && s.w.enqueued == [task]
  {
    var init, d := Initial(groups), DeliveryOf(FirstItem(task), 0);
    var d' := DeliveryOf(SecondItem(task), task.retryPolicy.retryDelayMs);
    var w := Work(h, 0, SMOOTH);
    run := Prepares(groups, g, h, task);
    Extend(groups, init, run, w);
    run := run + [w];
    assert RunSystem(groups, init, run).workers[h] == AtStarted(d');
    Extend(groups, init, run, w);
    run := run + [w];
    var s := RunSystem(groups, init, run);
    assert s.workers == (map k | k in groups :: Head)[g := Reporting(d, Requeued)][h := Finished(d')];
  }

  /** Group h acknowledged the task; only group g's report of the first attempt is still to come. */
  lemma Acknowledged(groups: Groups, g: nat, h: nat, task: Task) returns (run: seq<Action>)
    requires g in groups && h in groups && g != h
    requires Allowed(groups[g], RouteOf(task)) && Allowed(groups[h], RouteOf(task))
    requires task.retryPolicy.maxAttempts >= 2
    ensures Possible(groups, Initial(groups), run) && TasksScheduled(run) == [task]
    ensures var s, d := RunSystem(groups, Initial(groups), run), DeliveryOf(FirstItem(task), 0);
      Stands(groups, s, g, h, Reporting(d, Requeued), Head, EMPTY) && s.w.acked == [task]
  {
    var init, d := Initial(groups), DeliveryOf(FirstItem(task), 0);
    var d' := DeliveryOf(SecondItem(task), task.retryPolicy.retryDelayMs);
    run := Completes(groups, g, h, task);
    assert LeasedOnly(d').leased - {d'.deliveryId} == map[];
    Extend(groups, init, run, Work(h, 0, SMOOTH));
    run := run + [Work(h, 0, SMOOTH)];
    var s := RunSystem(groups, init, run);
    assert s.workers == (map k | k in groups :: Head)[g := Reporting(d, Requeued)][h := Head];
  }

  /**
   Two groups bound to one route reach a state where every group is at its loop head,
   the task is acknowledged and gone, and its snapshot says it is to be retried.
   */
  lemma LateReportOverwrites(groups: Groups, g: nat, h: nat, task: Task) returns (run: seq<Action>)
    requires g in groups && h in groups && g != h
    requires Allowed(groups[g], RouteOf(task)) && Allowed(groups[h], RouteOf(task))
    requires task.retryPolicy.maxAttempts >= 2
    ensures Possible(groups, Initial(groups), run) && TasksScheduled(run) == [task]
    ensures var s := RunSystem(groups, Initial(groups), run);
      && Stands(groups, s, g, h, Head, Head, EMPTY)
      && s.w.acked == [task] && task.taskId in s.snapshots && s.snapshots[task.taskId].Retrying?
  {
    var init := Initial(groups);
    run := Acknowledged(groups, g, h, task);
    Extend(groups, init, run, Work(g, 0, SMOOTH));
    run := run + [Work(g, 0, SMOOTH)];
    var s := RunSystem(groups, init, run);
    assert s.workers == (map k | k in groups :: Head)[g := Head][h := Head];
  }

  /** Snapshots agree at every head of a group bound to the task's route, over every run. */
  ghost predicate AlwaysAgree(groups: Groups) {
    forall actions: seq<Action>, g: nat, task: Task ::
      AgreesAfter(groups, actions, g, task)
  }

  ghost predicate AgreesAfter(groups: Groups, actions: seq<Action>, g: nat, task: Task) {
    Possible(groups, Initial(groups), actions) && QueueAccounting.DistinctIds(TasksScheduled(actions))
    && task in TasksScheduled(actions)
    && (var s := RunSystem(groups, Initial(groups), actions);
        g in groups && g in s.workers && s.workers[g].Head? && Allowed(groups[g], RouteOf(task)) && !Pending(s, task))
    ==> Agrees(RunSystem(groups, Initial(groups), actions), task)
  }

  /** The exact condition: snapshots always agree if and only if no two groups share a route. */
  lemma AgreementIffDisjoint(groups: Groups)
    ensures AlwaysAgree(groups) <==> Disjoint(groups)
  {
    if Disjoint(groups) {
      forall actions: seq<Action>, g: nat, task: Task ensures AgreesAfter(groups, actions, g, task) {
        if !AgreesAfter(groups, actions, g, task) {
          LifecycleAgreement(groups, actions, g, task);
        }
      }
    } else {
      var g, h, r :| g in groups && h in groups && Allowed(groups[g], r) && Allowed(groups[h], r) && g != h;
      var task := Task("t", r.queue, r.lane, RetryPolicy(2, 0), "");
      var run := LateReportOverwrites(groups, g, h, task);
      assert !AgreesAfter(groups, run, g, task);
    }
  }
}
