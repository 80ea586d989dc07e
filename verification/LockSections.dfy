/** The in-memory queue with its locks taken apart, under every interleaving. */
module LockSections {
  import opened Prelude
  import opened Rotation
  import opened TaskQueue
  import opened QueueAccounting

  /**
   What a thread does when it next gets a lock. An operation that releases one lock before
   taking the next is a thread; between any two of its sections every other may run.
   */
  datatype Pc =
    | Adding(item: QueuedTask)                   // buckets: push at the back of its bucket
    | Listing(route: Route)                      // route_order: append the route
    | Scanning(routes: seq<Route>, now: nat)     // buckets: look at the next route of the snapshot
    | Unlisting(route: Route, item: QueuedTask, now: nat)  // route_order: drop the emptied route
    | Rotating(route: Route, item: QueuedTask, now: nat)   // route_order: move the route to the back
    | Leasing(delivery: Delivery)                // leased: record the lease
    | Burying(record: DeadLetter)                // dead_letters: append the record

  datatype State = State(q: Queue, threads: map<nat, Pc>, enqueued: seq<Task>, acked: seq<Task>)

  const INITIAL := State(EMPTY, map[], [], [])

  datatype Action =
    | StartEnqueue(tid: nat, task: Task, now: nat)
    | StartReserve(tid: nat, bindings: seq<Route>, now: nat)
    | AckNow(deliveryId: string)
    | StartRetry(tid: nat, deliveryId: string, error: string, delayMs: nat, now: nat)
    | StartReject(tid: nat, deliveryId: string, error: string, now: nat)
    | StartReplay(tid: nat, deliveryId: string, now: nat)
    | Continue(tid: nat)

  predicate Enabled(s: State, a: Action) {
    match a
    case AckNow(_) => true
    case Continue(tid) => tid in s.threads
    case _ => a.tid !in s.threads
  }

  function AfterListing(item: QueuedTask, now: nat): Pc {
    Leasing(DeliveryOf(item, now))
  }

  /** One lock section of a running thread: the new queue and what the thread does next, if anything. */
  function Section(q: Queue, pc: Pc): (Queue, Option<Pc>) {
    match pc
    case Adding(item) =>
      var r := RouteOf(item.task);
      (q.(buckets := q.buckets[r := Bucket(q, r) + [item]]), if Bucket(q, r) == [] then Some(Listing(r)) else None)
    case Listing(r) => (q.(order := q.order + [r]), None)
    case Scanning(routes, now) =>
      if routes == [] || routes[0] !in q.buckets then (q, None)
      else if !Due(q, routes[0], now) then (q, Some(Scanning(routes[1..], now)))
      else
        var r := routes[0];
        var item, rest := q.buckets[r][0], q.buckets[r][1..];
        if rest == [] then (q.(buckets := q.buckets - {r}), Some(Unlisting(r, item, now)))
        else (q.(buckets := q.buckets[r := rest]), Some(Rotating(r, item, now)))
    case Unlisting(r, item, now) => (q.(order := RemoveFirst(q.order, r)), Some(AfterListing(item, now)))
    case Rotating(r, item, now) => (q.(order := MoveToBack(q.order, r)), Some(AfterListing(item, now)))
    case Leasing(d) => (q.(leased := q.leased[d.deliveryId := d]), None)
    case Burying(record) => (q.(dead := q.dead + [record]), None)
  }

  function Resume(threads: map<nat, Pc>, tid: nat, next: Option<Pc>): map<nat, Pc> {
    if next.Some? then threads[tid := next.value] else threads - {tid}
  }

  function Step(s: State, a: Action): State
    requires Enabled(s, a)
  {
    match a
    case StartEnqueue(tid, task, now) =>
      s.(threads := s.threads[tid := Adding(QueuedTask(task, 1, now, None))], enqueued := s.enqueued + [task])
    case StartReserve(tid, bindings, now) =>
      s.(threads := s.threads[tid := Scanning(Filtered(s.q.order, bindings), now)])
    case AckNow(deliveryId) =>
      s.(q := Ack(s.q, deliveryId),
         acked := if deliveryId in s.q.leased then s.acked + [s.q.leased[deliveryId].task] else s.acked)
    case StartRetry(tid, deliveryId, error, delayMs, now) =>
      if deliveryId !in s.q.leased then s
      else
        var d := s.q.leased[deliveryId];
        s.(q := Ack(s.q, deliveryId),
           threads := s.threads[tid := if Exhausted(d) then Burying(DeadLetterOf(d, error, now))
                                       else Adding(RetryItem(d, error, delayMs, now))])
    case StartReject(tid, deliveryId, error, now) =>
      if deliveryId !in s.q.leased then s
      else
        s.(q := Ack(s.q, deliveryId),
           threads := s.threads[tid := Burying(DeadLetterOf(s.q.leased[deliveryId], error, now))])
    case StartReplay(tid, deliveryId, now) =>
      var i := FindDead(s.q.dead, deliveryId);
      if i == |s.q.dead| then s
      else
        s.(q := s.q.(dead := s.q.dead[..i] + s.q.dead[i + 1..]),
           threads := s.threads[tid := Adding(ReplayItem(s.q.dead[i], now))])
    case Continue(tid) =>
      var (q, next) := Section(s.q, s.threads[tid]);
      s.(q := q, threads := Resume(s.threads, tid, next))
  }

  /** Every action of the run is enabled where it happens. */
  ghost predicate Possible(s: State, actions: seq<Action>)
    decreases |actions|
  {
    actions == [] || (Enabled(s, actions[0]) && Possible(Step(s, actions[0]), actions[1..]))
  }

  function Interleave(s: State, actions: seq<Action>): State
    requires Possible(s, actions)
    decreases |actions|
  {
    if actions == [] then s else Interleave(Step(s, actions[0]), actions[1..])
  }

  function TasksStarted(actions: seq<Action>): seq<Task> {
    if actions == [] then []
    else (if actions[0].StartEnqueue? then [actions[0].task] else []) + TasksStarted(actions[1..])
  }

  // ---------- what every lock section keeps ----------

  function IsListing(r: Route): Pc -> nat { (pc: Pc) => if pc == Listing(r) then 1 else 0 }

  function IsUnlisting(r: Route): Pc -> nat { (pc: Pc) => if pc.Unlisting? && pc.route == r then 1 else 0 }

  /** The value of the task a thread holds in its hands between two sections. */
  function HeldValue(g: Gauge, pc: Pc): nat {
    match pc
    case Adding(item) => Matches(g, item.task)
    case Listing(_) => 0
    case Scanning(_, _) => 0
    case Unlisting(_, item, _) => Matches(g, item.task)
    case Rotating(_, item, _) => Matches(g, item.task)
    case Leasing(d) => Matches(g, d.task)
    case Burying(record) => Matches(g, record.task)
  }

  function OfPc(g: Gauge): Pc -> nat { (pc: Pc) => HeldValue(g, pc) }

  ghost function InHand(s: State, g: Gauge): nat { SumMap(s.threads, OfPc(g)) }

  /**
   Entries of r in the order, plus those about to be added, cover r's bucket, if
   it has one, plus the removals still to come.
   */
  ghost predicate Reachable(q: Queue, threads: map<nat, Pc>, r: Route) {
    multiset(q.order)[r] + SumMap(threads, IsListing(r))
    >= (if r in q.buckets then 1 else 0) + SumMap(threads, IsUnlisting(r))
  }

  predicate HandsValid(pc: Pc) {
    pc.Leasing? ==> pc.delivery.deliveryId == DeliveryId(pc.delivery.task.taskId)
  }

  ghost predicate LeasesValid(q: Queue) {
    forall k :: k in q.leased ==> k == DeliveryId(q.leased[k].task.taskId)
  }

  ghost predicate Shape(s: State) {
    && BucketsValid(s.q)
    && LeasesValid(s.q)
    && (forall tid :: tid in s.threads ==> HandsValid(s.threads[tid]))
    && (forall r :: Reachable(s.q, s.threads, r))
  }

  ghost predicate Balance(s: State, g: Gauge) {
    Total(s.q, g) + InHand(s, g) + SumSeq(s.acked, OfTask(g)) == SumSeq(s.enqueued, OfTask(g))
  }

  ghost predicate Inv(s: State) {
    Shape(s) && forall g: Gauge :: !g.Work? ==> Balance(s, g)
  }

  /** Replacing one thread's counter replaces its contribution. */
  lemma ResumeSum(threads: map<nat, Pc>, tid: nat, next: Option<Pc>, f: Pc -> nat)
    requires tid in threads
    ensures SumMap(Resume(threads, tid, next), f) + f(threads[tid])
         == SumMap(threads, f) + if next.Some? then f(next.value) else 0
  {
    SumMapSplit(threads, tid, f);
    if next.Some? {
      SumMapInsert(threads, tid, next.value, f);
    }
  }

  lemma StartSum(threads: map<nat, Pc>, tid: nat, pc: Pc, f: Pc -> nat)
    requires tid !in threads
    ensures SumMap(threads[tid := pc], f) == SumMap(threads, f) + f(pc)
  {
    SumMapInsert(threads, tid, pc, f);
  }

  /** What r's listings and its bucket are worth to `Reachable`, and what a thread is about to change. */
  function Slack(q: Queue, r: Route): int {
    var listed: int := multiset(q.order)[r];
    if r in q.buckets then listed - 1 else listed
  }

  function SlackToCome(pc: Pc, r: Route): int {
    var more: int, less: int := IsListing(r)(pc), IsUnlisting(r)(pc);
    more - less
  }

  lemma AddingKeepsSlack(q: Queue, item: QueuedTask, r: Route)
    requires BucketsValid(q)
    ensures var (q', next) := Section(q, Adding(item));
      Slack(q', r) + (if next.Some? then SlackToCome(next.value, r) else 0) == Slack(q, r)
  {
    assert RouteOf(item.task) in q.buckets <==> Bucket(q, RouteOf(item.task)) != [];
  }

  lemma UnlistingChangesSlack(q: Queue, route: Route, item: QueuedTask, now: nat, r: Route)
    ensures Slack(Section(q, Unlisting(route, item, now)).0, r)
         == Slack(q, r) - if r == route && r in q.order then 1 else 0
  {
    RemoveFirstCounts(q.order, route);
  }

  lemma OrderKeepsSlack(q: Queue, route: Route, r: Route)
    ensures Slack(q.(order := q.order + [route]), r) == Slack(q, r) + if r == route then 1 else 0
    ensures Slack(q.(order := MoveToBack(q.order, route)), r) == Slack(q, r)
  {
    MoveToBackCounts(q.order, route);
  }

  /** A removal that finds nothing to remove. */
  predicate Misses(q: Queue, pc: Pc, r: Route) {
    pc.Unlisting? && pc.route == r && r !in q.order
  }

  /** No section changes what r's listings exceed its bucket by, except a removal that misses. */
  lemma SectionSlack(q: Queue, pc: Pc, r: Route)
    requires BucketsValid(q)
    ensures var (q', next) := Section(q, pc);
      Slack(q', r) + (if next.Some? then SlackToCome(next.value, r) else 0)
      == Slack(q, r) + SlackToCome(pc, r) + if Misses(q, pc, r) then 1 else 0
  {
    match pc
    case Adding(item) => AddingKeepsSlack(q, item, r);
    case Listing(route) => OrderKeepsSlack(q, route, r);
    case Scanning(routes, now) =>
    case Unlisting(route, item, now) => UnlistingChangesSlack(q, route, item, now, r);
    case Rotating(route, _, _) => OrderKeepsSlack(q, route, r);
    case Leasing(_) =>
    case Burying(_) =>
  }

  /** By how much r's listings exceed what `Reachable` asks for. */
  ghost function Surplus(q: Queue, threads: map<nat, Pc>, r: Route): int {
    Slack(q, r) + SumMap(threads, IsListing(r)) - SumMap(threads, IsUnlisting(r))
  }

  lemma SectionSurplus(q: Queue, threads: map<nat, Pc>, tid: nat, r: Route)
    requires BucketsValid(q) && tid in threads
    ensures Surplus(Section(q, threads[tid]).0, Resume(threads, tid, Section(q, threads[tid]).1), r)
         == Surplus(q, threads, r) + if Misses(q, threads[tid], r) then 1 else 0
  {
    SectionSlack(q, threads[tid], r);
    var next := Section(q, threads[tid]).1;
    ResumeSum(threads, tid, next, IsListing(r));
    ResumeSum(threads, tid, next, IsUnlisting(r));
  }

  lemma SectionReachable(s: State, tid: nat, r: Route)
    requires Shape(s) && tid in s.threads
    ensures Reachable(Section(s.q, s.threads[tid]).0, Resume(s.threads, tid, Section(s.q, s.threads[tid]).1), r)
  {
    assert Reachable(s.q, s.threads, r);
    SectionSurplus(s.q, s.threads, tid, r);
  }

  lemma SectionShape(s: State, tid: nat)
    requires Shape(s) && tid in s.threads
    ensures Shape(Step(s, Continue(tid)))
  {
    var s' := Step(s, Continue(tid));
    forall r ensures Reachable(s'.q, s'.threads, r) {
      SectionReachable(s, tid, r);
    }
    SectionKeepsLeases(s.q, s.threads[tid]);
  }

  lemma SectionKeepsLeases(q: Queue, pc: Pc)
    requires LeasesValid(q) && HandsValid(pc)
    ensures LeasesValid(Section(q, pc).0)
    ensures Section(q, pc).1.Some? ==> HandsValid(Section(q, pc).1.value)
  {
  }

  lemma StartShape(s: State, a: Action)
    requires Shape(s) && Enabled(s, a) && !a.Continue?
    ensures Shape(Step(s, a))
  {
    var s' := Step(s, a);
    forall r ensures Reachable(s'.q, s'.threads, r) {
      assert Reachable(s.q, s.threads, r);
      if s'.threads != s.threads {
        StartSum(s.threads, a.tid, s'.threads[a.tid], IsListing(r));
        StartSum(s.threads, a.tid, s'.threads[a.tid], IsUnlisting(r));
      }
    }
  }

  lemma ScanTotal(q: Queue, routes: seq<Route>, now: nat, g: Gauge)
    requires !g.Work? && BucketsValid(q)
    ensures var (q', next) := Section(q, Scanning(routes, now));
      Total(q', g) + (if next.Some? then HeldValue(g, next.value) else 0) == Total(q, g)
  {
    if routes != [] && Due(q, routes[0], now) {
      PopFrontTotal(q, routes[0], g);
    }
  }

  lemma SectionTotal(q: Queue, pc: Pc, g: Gauge)
    requires !g.Work? && BucketsValid(q)
    requires pc.Leasing? ==> pc.delivery.deliveryId !in q.leased
    ensures var (q', next) := Section(q, pc);
      Total(q', g) + (if next.Some? then HeldValue(g, next.value) else 0) == Total(q, g) + HeldValue(g, pc)
  {
    match pc
    case Adding(item) => EnqueueInternalTotal(q, item, g);
    case Listing(_) =>
    case Scanning(routes, now) => ScanTotal(q, routes, now, g);
    case Unlisting(_, _, _) =>
    case Rotating(_, _, _) =>
    case Leasing(d) => SumMapInsert(q.leased, d.deliveryId, d, OfLeased(g));
    case Burying(record) => DeadTotal(q.dead, record, g);
  }

  lemma LeaseIsNew(s: State, tid: nat)
    requires Inv(s) && DistinctIds(s.enqueued) && tid in s.threads && s.threads[tid].Leasing?
    ensures s.threads[tid].delivery.deliveryId !in s.q.leased
  {
    var d := s.threads[tid].delivery;
    if d.deliveryId in s.q.leased {
      var g := ById(d.task.taskId);
      assert Balance(s, g) && HandsValid(s.threads[tid]);
      DeliveryIdInjective(d.task.taskId, s.q.leased[d.deliveryId].task.taskId);
      SumMapSplit(s.q.leased, d.deliveryId, OfLeased(g));
      SumMapSplit(s.threads, tid, OfPc(g));
      DistinctCount(s.enqueued, g.id);
      assert false;
    }
  }

  lemma ContinueBalance(s: State, tid: nat, g: Gauge)
    requires Inv(s) && DistinctIds(s.enqueued) && tid in s.threads && !g.Work?
    ensures Balance(Step(s, Continue(tid)), g)
  {
    assert Balance(s, g);
    if s.threads[tid].Leasing? {
      LeaseIsNew(s, tid);
    }
    SectionTotal(s.q, s.threads[tid], g);
    ResumeSum(s.threads, tid, Section(s.q, s.threads[tid]).1, OfPc(g));
  }

  /** Taking a lease away leaves its task either acknowledged or in the thread's hands. */
  lemma UnleaseTotal(q: Queue, deliveryId: string, g: Gauge)
    requires !g.Work?
    ensures Total(q, g) == Total(Ack(q, deliveryId), g)
      + if deliveryId in q.leased then Matches(g, q.leased[deliveryId].task) else 0
  {
    if deliveryId in q.leased {
      AckTotal(q, deliveryId, g);
    } else {
      AckMissing(q, deliveryId);
    }
  }

  /** What leaves the queue for a thread's hands is still counted once. */
  lemma HoldBalance(s: State, q: Queue, tid: nat, pc: Pc, g: Gauge)
    requires Balance(s, g) && tid !in s.threads
    requires Total(s.q, g) == Total(q, g) + HeldValue(g, pc)
    ensures Balance(s.(q := q, threads := s.threads[tid := pc]), g)
  {
    StartSum(s.threads, tid, pc, OfPc(g));
  }

  lemma StartReplayBalance(s: State, tid: nat, deliveryId: string, now: nat, g: Gauge)
    requires Balance(s, g) && tid !in s.threads
    ensures Balance(Step(s, StartReplay(tid, deliveryId, now)), g)
  {
    var i := FindDead(s.q.dead, deliveryId);
    if i < |s.q.dead| {
      var q := s.q.(dead := s.q.dead[..i] + s.q.dead[i + 1..]);
      SumSeqRemove(s.q.dead, i, OfDead(g));
      HoldBalance(s, q, tid, Adding(ReplayItem(s.q.dead[i], now)), g);
    }
  }

  lemma StartBalance(s: State, a: Action, g: Gauge)
    requires Balance(s, g) && Enabled(s, a) && !a.Continue? && !g.Work?
    ensures Balance(Step(s, a), g)
  {
    match a
    case StartEnqueue(tid, task, now) =>
      StartSum(s.threads, tid, Adding(QueuedTask(task, 1, now, None)), OfPc(g));
      AppendTotal(s.enqueued, task, g);
    case StartReserve(tid, bindings, now) =>
      StartSum(s.threads, tid, Scanning(Filtered(s.q.order, bindings), now), OfPc(g));
    case AckNow(deliveryId) =>
      UnleaseTotal(s.q, deliveryId, g);
      if deliveryId in s.q.leased {
        AppendTotal(s.acked, s.q.leased[deliveryId].task, g);
      }
    case StartRetry(tid, deliveryId, error, delayMs, now) =>
      if deliveryId in s.q.leased {
        UnleaseTotal(s.q, deliveryId, g);
        HoldBalance(s, Ack(s.q, deliveryId), tid, Step(s, a).threads[tid], g);
      }
    case StartReject(tid, deliveryId, error, now) =>
      if deliveryId in s.q.leased {
        UnleaseTotal(s.q, deliveryId, g);
        HoldBalance(s, Ack(s.q, deliveryId), tid, Step(s, a).threads[tid], g);
      }
    case StartReplay(tid, deliveryId, now) => StartReplayBalance(s, tid, deliveryId, now, g);
  }

  lemma StepKeepsInv(s: State, a: Action)
    requires Inv(s) && Enabled(s, a) && DistinctIds(s.enqueued)
    ensures Inv(Step(s, a))
  {
    if a.Continue? {
      SectionShape(s, a.tid);
    } else {
      StartShape(s, a);
    }
    forall g: Gauge | !g.Work? ensures Balance(Step(s, a), g) {
      if a.Continue? {
        ContinueBalance(s, a.tid, g);
      } else {
        StartBalance(s, a, g);
      }
    }
  }

  lemma {:induction false} RunKeepsInv(s: State, actions: seq<Action>)
    requires Inv(s) && Possible(s, actions) && DistinctIds(s.enqueued + TasksStarted(actions))
    ensures Inv(Interleave(s, actions))
    ensures Interleave(s, actions).enqueued == s.enqueued + TasksStarted(actions)
    decreases |actions|
  {
    if actions != [] {
      var all := s.enqueued + TasksStarted(actions);
      assert forall i :: 0 <= i < |s.enqueued| ==> s.enqueued[i] == all[i];
      StepKeepsInv(s, actions[0]);
      var s' := Step(s, actions[0]);
      assert s'.enqueued + TasksStarted(actions[1..]) == all;
      RunKeepsInv(s', actions[1..]);
    }
  }

  lemma InitialInv()
    ensures Inv(INITIAL)
  {
    forall r ensures Reachable(EMPTY, map[], r) {
    }
    forall g: Gauge | !g.Work? ensures Balance(INITIAL, g) {
    }
  }

  /** Each task is in exactly one place, counting the hands of threads between two of their sections. */
  ghost predicate InOnePlace(s: State, task: Task, started: bool) {
    Queued(s.q, ByTask(task)) + Leased(s.q, ByTask(task)) + Dead(s.q, ByTask(task))
    + InHand(s, ByTask(task)) + SumSeq(s.acked, OfTask(ByTask(task))) == if started then 1 else 0
  }

  /**
   Under every interleaving, at every moment: no stored bucket is empty, no waiting
   route is uncovered, and each task started is in exactly one place.
   */
  lemma EveryInterleaving(actions: seq<Action>, r: Route, task: Task)
    requires Possible(INITIAL, actions) && DistinctIds(TasksStarted(actions))
    ensures var s := Interleave(INITIAL, actions);
      && (r in s.q.buckets ==> s.q.buckets[r] != [])
      && Reachable(s.q, s.threads, r)
      && InOnePlace(s, task, task in TasksStarted(actions))
  {
    InitialInv();
    assert [] + TasksStarted(actions) == TasksStarted(actions);
    RunKeepsInv(INITIAL, actions);
    var s := Interleave(INITIAL, actions);
    InvPlaces(s, task);
    assert s.enqueued == TasksStarted(actions);
  }

  lemma InvPlaces(s: State, task: Task)
    requires Inv(s) && DistinctIds(s.enqueued)
    ensures InOnePlace(s, task, task in s.enqueued)
  {
    assert Balance(s, ByTask(task));
    TaskCount(s.enqueued, task);
  }

  /** Once no operation is part-way, every route with waiting tasks is listed and nothing is in hand. */
  lemma QuietMeansReachable(actions: seq<Action>, r: Route, task: Task)
    requires Possible(INITIAL, actions) && DistinctIds(TasksStarted(actions))
    requires Interleave(INITIAL, actions).threads == map[]
    ensures var s := Interleave(INITIAL, actions);
      && (r in s.q.buckets ==> s.q.buckets[r] != [] && r in s.q.order)
      && InHand(s, ByTask(task)) == 0 && InOnePlace(s, task, task in TasksStarted(actions))
  {
    EveryInterleaving(actions, r, task);
  }

  // ---------- left alone, the sections make up the atomic operation ----------

  function SectionsLeft(pc: Pc): nat {
    match pc
    case Adding(_) => 2
    case Listing(_) => 1
    case Scanning(routes, _) => 3 + |routes|
    case Unlisting(_, _, _) => 2
    case Rotating(_, _, _) => 2
    case Leasing(_) => 1
    case Burying(_) => 1
  }

  /** The queue after a thread has run to its end with nobody in between. */
  function Alone(q: Queue, pc: Pc): Queue
    decreases SectionsLeft(pc)
  {
    var (q', next) := Section(q, pc);
    if next.Some? then Alone(q', next.value) else q'
  }

  lemma {:induction false} AloneReserves(q: Queue, routes: seq<Route>, now: nat)
    ensures Alone(q, Scanning(routes, now)) ==
      match Scan(q, routes, now)
      case None => q
      case Some(r) =>
        var d, popped := DeliveryOf(q.buckets[r][0], now), PopFront(q, r);
        popped.(leased := popped.leased[d.deliveryId := d])
  {
    if routes != [] && routes[0] in q.buckets && !Due(q, routes[0], now) {
      AloneReserves(q, routes[1..], now);
    } else if routes != [] && routes[0] in q.buckets {
      var (q1, taken) := Section(q, Scanning(routes, now));
      var (q2, leasing) := Section(q1, taken.value);
      assert Alone(q1, taken.value) == Alone(q2, leasing.value) == Section(q2, leasing.value).0;
    }
  }

  /** Every operation run without interruption is the atomic operation of `TaskQueue`. */
  lemma UninterruptedIsAtomic(s: State, a: Action)
    requires Enabled(s, a) && !a.Continue? && s.threads == map[]
    ensures var s' := Step(s, a);
      var final := if a.AckNow? || a.tid !in s'.threads then s'.q else Alone(s'.q, s'.threads[a.tid]);
      final == Apply(s.q, match a
        case StartEnqueue(_, task, now) => EnqueueOp(task, now)
        case StartReserve(_, bindings, now) => ReserveOp(bindings, now)
        case AckNow(deliveryId) => AckOp(deliveryId)
        case StartRetry(_, deliveryId, error, delayMs, now) => RetryOp(deliveryId, error, delayMs, now)
        case StartReject(_, deliveryId, error, now) => RejectOp(deliveryId, error, now)
        case StartReplay(_, deliveryId, now) => ReplayOp(deliveryId, now))
  {
    if a.StartReserve? {
      AloneReserves(s.q, Filtered(s.q.order, a.bindings), a.now);
    }
  }

  // ---------- when a listed route's bucket is gone ----------

  /**
   Exactly when a reserve that runs undisturbed finds work: when some route of its
   snapshot is due and no route before it has lost its bucket.
   */
  lemma {:induction false} ScanSucceedsIff(q: Queue, routes: seq<Route>, now: nat)
    ensures Scan(q, routes, now).Some? <==>
      exists i :: 0 <= i < |routes| && Due(q, routes[i], now) && forall j :: 0 <= j < i ==> routes[j] in q.buckets
  {
    if routes != [] && routes[0] in q.buckets && !Due(q, routes[0], now) {
      var rest := routes[1..];
      ScanSucceedsIff(q, rest, now);
      if Scan(q, rest, now).Some? {
        var i :| 0 <= i < |rest| && Due(q, rest[i], now) && forall j :: 0 <= j < i ==> rest[j] in q.buckets;
        assert Due(q, routes[i + 1], now);
        forall j | 0 <= j < i + 1 ensures routes[j] in q.buckets {
          if j > 0 {
            assert routes[j] == rest[j - 1];
          }
        }
      } else {
        forall i | 0 <= i < |routes| && Due(q, routes[i], now)
          ensures !(forall j :: 0 <= j < i ==> routes[j] in q.buckets)
        {
          assert rest[i - 1] == routes[i];
          var k :| 0 <= k < i - 1 && rest[k] !in q.buckets;
          assert routes[k + 1] == rest[k];
        }
      }
    }
  }

  lemma {:induction false} Extend(s: State, actions: seq<Action>, a: Action)
    requires Possible(s, actions) && Enabled(Interleave(s, actions), a)
    ensures Possible(s, actions + [a])
    ensures Interleave(s, actions + [a]) == Step(Interleave(s, actions), a)
    ensures TasksStarted(actions + [a]) == TasksStarted(actions) + if a.StartEnqueue? then [a.task] else []
    decreases |actions|
  {
    if actions == [] {
      assert [a][1..] == [] && actions + [a] == [a];
    } else {
      assert (actions + [a])[1..] == actions[1..] + [a];
      Extend(Step(s, actions[0]), actions[1..], a);
    }
  }

  /** Two reserves have taken their snapshot while route r holds one task. */
  lemma TwoSnapshots(a: Task) returns (run: seq<Action>)
    ensures Possible(INITIAL, run) && TasksStarted(run) == [a]
    ensures var r := RouteOf(a);
      Interleave(INITIAL, run) == State(
        Queue(map[r := [QueuedTask(a, 1, 0, None)]], [r], map[], []),
        map[2 := Scanning([r], 0), 3 := Scanning([r], 0)], [a], [])
  {
    run := [];
    Extend(INITIAL, run, StartEnqueue(1, a, 0));
    run := run + [StartEnqueue(1, a, 0)];
    assert Interleave(INITIAL, run).threads == map[1 := Adding(QueuedTask(a, 1, 0, None))];
    Extend(INITIAL, run, Continue(1));
    run := run + [Continue(1)];
    assert Interleave(INITIAL, run).threads == map[1 := Listing(RouteOf(a))];
    assert Bucket(EMPTY, RouteOf(a)) + [QueuedTask(a, 1, 0, None)] == [QueuedTask(a, 1, 0, None)];
    assert Interleave(INITIAL, run).q.buckets == map[RouteOf(a) := [QueuedTask(a, 1, 0, None)]];
    Extend(INITIAL, run, Continue(1));
    run := run + [Continue(1)];
    assert Interleave(INITIAL, run).threads == map[] && Interleave(INITIAL, run).q.order == [RouteOf(a)];
    assert Filtered([RouteOf(a)], []) == [RouteOf(a)];
    Extend(INITIAL, run, StartReserve(2, [], 0));
    run := run + [StartReserve(2, [], 0)];
    Extend(INITIAL, run, StartReserve(3, [], 0));
    run := run + [StartReserve(3, [], 0)];
  }

  /** One of them empties the bucket, and a second task starts to arrive on the route. */
  lemma BucketEmptied(a: Task, a': Task) returns (run: seq<Action>)
    requires RouteOf(a) == RouteOf(a')
    ensures Possible(INITIAL, run) && TasksStarted(run) == [a, a']
    ensures var r, d := RouteOf(a), DeliveryOf(QueuedTask(a, 1, 0, None), 0);
      Interleave(INITIAL, run) == State(
        Queue(map[r := [QueuedTask(a', 1, 0, None)]], [], map[d.deliveryId := d], []),
        map[1 := Listing(r), 2 := Scanning([r], 0)], [a, a'], [])
  {
    run := TwoSnapshots(a);
    Extend(INITIAL, run, Continue(3));
    run := run + [Continue(3)];
    assert Interleave(INITIAL, run).q.buckets == map[];
    Extend(INITIAL, run, Continue(3));
    run := run + [Continue(3)];
    assert Interleave(INITIAL, run).q.order == [];
    Extend(INITIAL, run, Continue(3));
    run := run + [Continue(3)];
    assert Interleave(INITIAL, run).threads == map[2 := Scanning([RouteOf(a)], 0)];
    Extend(INITIAL, run, StartEnqueue(1, a', 0));
    run := run + [StartEnqueue(1, a', 0)];
    var before := Interleave(INITIAL, run).q;
    Extend(INITIAL, run, Continue(1));
    run := run + [Continue(1)];
    assert Bucket(before, RouteOf(a)) + [QueuedTask(a', 1, 0, None)] == [QueuedTask(a', 1, 0, None)];
    assert Interleave(INITIAL, run).q.buckets == map[RouteOf(a) := [QueuedTask(a', 1, 0, None)]];
  }

  /** The other reserve takes the second task before the route is listed again: a stale entry remains. */
  lemma RouteGoesStale(a: Task, a': Task) returns (run: seq<Action>)
    requires RouteOf(a) == RouteOf(a')
    ensures Possible(INITIAL, run) && TasksStarted(run) == [a, a']
    ensures var s := Interleave(INITIAL, run);
      s.threads == map[] && s.q.buckets == map[] && s.q.order == [RouteOf(a)]
  {
    run := BucketEmptied(a, a');
    Extend(INITIAL, run, Continue(2));
    run := run + [Continue(2)];
    assert Interleave(INITIAL, run).q.buckets == map[];
    Extend(INITIAL, run, Continue(2));
    run := run + [Continue(2)];
    Extend(INITIAL, run, Continue(2));
    run := run + [Continue(2)];
    assert Interleave(INITIAL, run).threads == map[1 := Listing(RouteOf(a))];
    Extend(INITIAL, run, Continue(1));
    run := run + [Continue(1)];
  }

  /**
   So a due task can stay unserved: there is a run, of distinct ids, after which no
   operation is part-way and b is due, and yet an unbound reserve finds nothing.
   */
  lemma StaleRouteHidesDueTask(a: Task, a': Task, b: Task) returns (run: seq<Action>)
    requires DistinctIds([a, a', b]) && RouteOf(a) == RouteOf(a') && RouteOf(b) != RouteOf(a)
    ensures Possible(INITIAL, run) && TasksStarted(run) == [a, a', b]
    ensures var s := Interleave(INITIAL, run);
      s.threads == map[] && Due(s.q, RouteOf(b), 0) && Reserve(s.q, [], 0) == (s.q, None)
  {
    run := RouteGoesStale(a, a');
    Extend(INITIAL, run, StartEnqueue(4, b, 0));
    run := run + [StartEnqueue(4, b, 0)];
    Extend(INITIAL, run, Continue(4));
    run := run + [Continue(4)];
    Extend(INITIAL, run, Continue(4));
    run := run + [Continue(4)];
  }
}
