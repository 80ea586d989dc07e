/**
 In what order the queue serves: first in first out inside a route, and in turn
 between routes, over every run of operations.
 */
module QueueOrdering {
  import opened Prelude
  import opened Rotation
  import opened TaskQueue

  // ---------- first in, first out per route ----------

  /** What one operation adds at the back of a bucket: an enqueue, a retry or a replay. */
  function PushedBy(q: Queue, op: Op): seq<QueuedTask> {
    match op
    case EnqueueOp(task, now) => [QueuedTask(task, 1, now, None)]
    case ReserveOp(_, _) => []
    case AckOp(_) => []
    case RetryOp(deliveryId, error, delayMs, now) =>
      if deliveryId in q.leased && !Exhausted(q.leased[deliveryId])
      then [RetryItem(q.leased[deliveryId], error, delayMs, now)] else []
    case RejectOp(_, _, _) => []
    case ReplayOp(deliveryId, now) =>
      var i := FindDead(q.dead, deliveryId);
      if i < |q.dead| then [ReplayItem(q.dead[i], now)] else []
  }

  function PoppedBy(q: Queue, op: Op): seq<QueuedTask> {
    if op.ReserveOp? && ReserveRoute(q, op.bindings, op.now).Some?
    then [q.buckets[ReserveRoute(q, op.bindings, op.now).value][0]] else []
  }

  /** The waiting side of the queue changes only by this push or this pop. */
  function Waiting(q: Queue, op: Op): Queue {
    if PushedBy(q, op) != [] then EnqueueInternal(q, PushedBy(q, op)[0])
    else if op.ReserveOp? && ReserveRoute(q, op.bindings, op.now).Some?
    then PopFront(q, ReserveRoute(q, op.bindings, op.now).value)
    else q
  }

  lemma ApplyWaiting(q: Queue, op: Op)
    ensures Apply(q, op).buckets == Waiting(q, op).buckets && Apply(q, op).order == Waiting(q, op).order
  {
  }

  function Pushes(q: Queue, ops: seq<Op>): seq<QueuedTask>
    decreases |ops|
  {
    if ops == [] then [] else PushedBy(q, ops[0]) + Pushes(Apply(q, ops[0]), ops[1..])
  }

  function Pops(q: Queue, ops: seq<Op>): seq<QueuedTask>
    decreases |ops|
  {
    if ops == [] then [] else PoppedBy(q, ops[0]) + Pops(Apply(q, ops[0]), ops[1..])
  }

  function OnRoute(items: seq<QueuedTask>, r: Route): seq<QueuedTask> {
    if items == [] then []
    else (if RouteOf(items[0].task) == r then [items[0]] else []) + OnRoute(items[1..], r)
  }

  lemma {:induction false} OnRouteConcat(a: seq<QueuedTask>, b: seq<QueuedTask>, r: Route)
    ensures OnRoute(a + b, r) == OnRoute(a, r) + OnRoute(b, r)
  {
    if a == [] {
      assert a + b == b;
    } else {
      assert (a + b)[1..] == a[1..] + b;
      OnRouteConcat(a[1..], b, r);
    }
  }

  lemma FifoPush(q: Queue, item: QueuedTask, r: Route)
    ensures Bucket(EnqueueInternal(q, item), r) == Bucket(q, r) + OnRoute([item], r)
  {
    assert OnRoute([item], r) == if RouteOf(item.task) == r then [item] else [];
  }

  lemma FifoPop(q: Queue, s: Route, r: Route)
    requires s in q.buckets && q.buckets[s] != [] && RouteOf(q.buckets[s][0].task) == s
    ensures OnRoute([q.buckets[s][0]], r) + Bucket(PopFront(q, s), r) == Bucket(q, r)
  {
    assert [q.buckets[s][0]] + q.buckets[s][1..] == q.buckets[s];
    assert OnRoute([q.buckets[s][0]], r) == if s == r then [q.buckets[s][0]] else [];
  }

  lemma FifoStep(q: Queue, op: Op, r: Route)
    requires BucketsValid(q)
    ensures OnRoute(PoppedBy(q, op), r) + Bucket(Apply(q, op), r) == Bucket(q, r) + OnRoute(PushedBy(q, op), r)
  {
    ApplyWaiting(q, op);
    if PushedBy(q, op) != [] {
      FifoPush(q, PushedBy(q, op)[0], r);
      assert PushedBy(q, op) == [PushedBy(q, op)[0]];
    } else if PoppedBy(q, op) != [] {
      var s := ReserveRoute(q, op.bindings, op.now).value;
      assert RouteOf(q.buckets[s][0].task) == s;
      FifoPop(q, s, r);
    }
  }

  /**
   First in, first out: for each route, everything reserved so far followed by
   what still waits is everything pushed so far, in the order it was pushed.
   */
  lemma {:induction false} Fifo(q: Queue, ops: seq<Op>, r: Route)
    requires Valid(q)
    ensures OnRoute(Pops(q, ops), r) + Bucket(Run(q, ops), r) == Bucket(q, r) + OnRoute(Pushes(q, ops), r)
    decreases |ops|
  {
    if ops != [] {
      var q' := Apply(q, ops[0]);
      ApplyKeepsValid(q, ops[0]);
      FifoStep(q, ops[0], r);
      Fifo(q', ops[1..], r);
      OnRouteConcat(PoppedBy(q, ops[0]), Pops(q', ops[1..]), r);
      OnRouteConcat(PushedBy(q, ops[0]), Pushes(q', ops[1..]), r);
      FifoChain(OnRoute(PoppedBy(q, ops[0]), r), OnRoute(Pops(q', ops[1..]), r), Bucket(Run(q, ops), r),
                Bucket(q', r), Bucket(q, r), OnRoute(PushedBy(q, ops[0]), r), OnRoute(Pushes(q', ops[1..]), r));
    }
  }

  lemma FifoChain<T>(p1: seq<T>, p2: seq<T>, last: seq<T>, mid: seq<T>, first: seq<T>, a1: seq<T>, a2: seq<T>)
    requires p1 + mid == first + a1 && p2 + last == mid + a2
    ensures p1 + p2 + last == first + (a1 + a2)
  {
    calc {
      p1 + p2 + last;
      p1 + (p2 + last);
      p1 + mid + a2;
      first + (a1 + a2);
    }
  }

  // ---------- waiting for one's turn ----------

  predicate ServesRoute(q: Queue, op: Op, r: Route) {
    op.ReserveOp? && ReserveRoute(q, op.bindings, op.now) == Some(r)
  }

  /** A reserve that could serve r: r is bound and its front is due. */
  predicate CouldServe(q: Queue, op: Op, r: Route) {
    op.ReserveOp? && Allowed(op.bindings, r) && Due(q, r, op.now)
  }

  function Serves(q: Queue, ops: seq<Op>, r: Route): nat
    decreases |ops|
  {
    if ops == [] then 0
    else (if ServesRoute(q, ops[0], r) then 1 else 0) + Serves(Apply(q, ops[0]), ops[1..], r)
  }

  function Chances(q: Queue, ops: seq<Op>, r: Route): nat
    decreases |ops|
  {
    if ops == [] then 0
    else (if CouldServe(q, ops[0], r) then 1 else 0) + Chances(Apply(q, ops[0]), ops[1..], r)
  }

  /** Serving s takes it out or to the back; every other listed route keeps its relative place. */
  lemma PopFrontOrder(q: Queue, s: Route, r: Route)
    requires Valid(q) && s in q.buckets && r in q.order && r != s
    ensures r in PopFront(q, s).order
    ensures IndexOf(PopFront(q, s).order, r)
         == if IndexOf(q.order, s) < IndexOf(q.order, r) then IndexOf(q.order, r) - 1 else IndexOf(q.order, r)
    ensures s in PopFront(q, s).order ==> IndexOf(PopFront(q, s).order, s) == |q.order| - 1
  {
    assert s in q.order;
    RemoveFirstNoDuplicates(q.order, s);
    RemoveFirstShifts(q.order, s, r);
    MoveToBackShifts(q.order, s, r);
    MoveToBackNoDuplicates(q.order, s);
  }

  /** Only serving r moves r backwards; a missed chance moves it forwards. */
  lemma WaitStep(q: Queue, op: Op, r: Route)
    requires Valid(q) && r in q.order && !ServesRoute(q, op, r)
    ensures r in Apply(q, op).order
    ensures IndexOf(Apply(q, op).order, r) + (if CouldServe(q, op, r) then 1 else 0) <= IndexOf(q.order, r)
  {
    ApplyWaiting(q, op);
    if PushedBy(q, op) != [] {
      IndexOfAppend(q.order, r, RouteOf(PushedBy(q, op)[0].task));
    } else if op.ReserveOp? {
      PopStep(q, op.bindings, op.now, r);
    }
  }

  /** A reserve that serves another route pops it from further ahead, if r was due, and never moves r backwards. */
  lemma PopStep(q: Queue, bindings: seq<Route>, now: nat, r: Route)
    requires Valid(q) && r in q.order && ReserveRoute(q, bindings, now) != Some(r)
    ensures var found := ReserveRoute(q, bindings, now);
      if found.None? then !(Allowed(bindings, r) && Due(q, r, now))
      else
        var order := PopFront(q, found.value).order;
        r in order
        && IndexOf(order, r) + (if Allowed(bindings, r) && Due(q, r, now) then 1 else 0) <= IndexOf(q.order, r)
  {
    if Allowed(bindings, r) && Due(q, r, now) {
      ScanFindsFirst(q, q.order, bindings, now, r);
    }
    if ReserveRoute(q, bindings, now).Some? {
      var s := ReserveRoute(q, bindings, now).value;
      assert q.order[IndexOf(q.order, s)] == s && q.order[IndexOf(q.order, r)] == r;
      PopFrontOrder(q, s, r);
    }
  }

  /**
   Bounded waiting. While a waiting route is not served, the reserves that could
   have served it are no more than the routes that were ahead of it, whatever
   else those reserves were bound to and whatever other operations happen.
   */
  lemma {:induction false} BoundedWaiting(q: Queue, ops: seq<Op>, r: Route)
    requires Valid(q) && r in q.order && Serves(q, ops, r) == 0
    ensures r in Run(q, ops).order
    ensures Chances(q, ops, r) + IndexOf(Run(q, ops).order, r) <= IndexOf(q.order, r)
    decreases |ops|
  {
    if ops != [] {
      WaitStep(q, ops[0], r);
      ApplyKeepsValid(q, ops[0]);
      BoundedWaiting(Apply(q, ops[0]), ops[1..], r);
    }
  }

  // ---------- two busy routes take turns ----------

  predicate Ahead(q: Queue, a: Route, b: Route) {
    a in q.order && (b !in q.order || IndexOf(q.order, a) < IndexOf(q.order, b))
  }

  /** Both routes are bound and due at every reserve of the run. */
  ghost predicate BothBusy(q: Queue, ops: seq<Op>, a: Route, b: Route)
    decreases |ops|
  {
    ops == [] || ((ops[0].ReserveOp? ==> CouldServe(q, ops[0], a) && CouldServe(q, ops[0], b))
                  && BothBusy(Apply(q, ops[0]), ops[1..], a, b))
  }

  lemma EnqueueKeepsAhead(q: Queue, item: QueuedTask, a: Route, b: Route)
    requires Valid(q) && a != b && (a in q.order || b in q.order)
    ensures Ahead(EnqueueInternal(q, item), a, b) == Ahead(q, a, b)
    ensures a in EnqueueInternal(q, item).order || b in EnqueueInternal(q, item).order
  {
    var r := RouteOf(item.task);
    if a in q.order {
      IndexOfAppend(q.order, a, r);
    }
    if b in q.order {
      IndexOfAppend(q.order, b, r);
    }
  }

  lemma ServeTurns(q: Queue, s: Route, a: Route, b: Route)
    requires Valid(q) && a != b && a in q.order && b in q.order && s in q.buckets
    requires IndexOf(q.order, s) <= IndexOf(q.order, a) && IndexOf(q.order, s) <= IndexOf(q.order, b)
    ensures var q' := PopFront(q, s);
      && (a in q'.order || b in q'.order)
      && (s == a ==> Ahead(q, a, b) && !Ahead(q', a, b))
      && (s == b ==> !Ahead(q, a, b) && Ahead(q', a, b))
      && (s != a && s != b ==> Ahead(q', a, b) == Ahead(q, a, b))
  {
    assert q.order[IndexOf(q.order, a)] == a && q.order[IndexOf(q.order, b)] == b;
    RemoveFirstNoDuplicates(q.order, s);
    if s != a {
      PopFrontOrder(q, s, a);
    }
    if s != b {
      PopFrontOrder(q, s, b);
    }
  }

  lemma TurnStep(q: Queue, op: Op, a: Route, b: Route)
    requires Valid(q) && a != b && (a in q.order || b in q.order)
    requires op.ReserveOp? ==> CouldServe(q, op, a) && CouldServe(q, op, b)
    ensures var q' := Apply(q, op);
      && (a in q'.order || b in q'.order)
      && (ServesRoute(q, op, a) ==> Ahead(q, a, b) && !Ahead(q', a, b))
      && (ServesRoute(q, op, b) ==> !Ahead(q, a, b) && Ahead(q', a, b))
      && (!ServesRoute(q, op, a) && !ServesRoute(q, op, b) ==> Ahead(q', a, b) == Ahead(q, a, b))
  {
    ApplyWaiting(q, op);
    if PushedBy(q, op) != [] {
      EnqueueKeepsAhead(q, PushedBy(q, op)[0], a, b);
    } else if op.ReserveOp? {
      ScanFindsFirst(q, q.order, op.bindings, op.now, a);
      ScanFindsFirst(q, q.order, op.bindings, op.now, b);
      ServeTurns(q, ReserveRoute(q, op.bindings, op.now).value, a, b);
    }
  }

  lemma {:induction false} TurnsTaken(q: Queue, ops: seq<Op>, a: Route, b: Route)
    requires Valid(q) && a != b && (a in q.order || b in q.order) && BothBusy(q, ops, a, b)
    ensures Serves(q, ops, a) + (if Ahead(Run(q, ops), a, b) then 1 else 0)
         == Serves(q, ops, b) + (if Ahead(q, a, b) then 1 else 0)
    decreases |ops|
  {
    if ops != [] {
      TurnStep(q, ops[0], a, b);
      ApplyKeepsValid(q, ops[0]);
      TurnsTaken(Apply(q, ops[0]), ops[1..], a, b);
    }
  }

  lemma {:induction false} RunConcat(q: Queue, before: seq<Op>, window: seq<Op>, a: Route, b: Route)
    requires BothBusy(q, before + window, a, b)
    ensures Run(q, before + window) == Run(Run(q, before), window)
    ensures BothBusy(q, before, a, b) && BothBusy(Run(q, before), window, a, b)
    decreases |before|
  {
    if before == [] {
      assert before + window == window;
    } else {
      assert (before + window)[1..] == before[1..] + window;
      RunConcat(Apply(q, before[0]), before[1..], window, a, b);
    }
  }

  lemma {:induction false} SomeoneStaysListed(q: Queue, ops: seq<Op>, a: Route, b: Route)
    requires Valid(q) && a != b && (a in q.order || b in q.order) && BothBusy(q, ops, a, b)
    ensures Valid(Run(q, ops)) && (a in Run(q, ops).order || b in Run(q, ops).order)
    decreases |ops|
  {
    if ops != [] {
      TurnStep(q, ops[0], a, b);
      ApplyKeepsValid(q, ops[0]);
      SomeoneStaysListed(Apply(q, ops[0]), ops[1..], a, b);
    }
  }

  /**
   Strict alternation. When two routes are bound and due at every reserve, the
   times they are served in any window of the run differ by at most one.
   */
  lemma Alternation(q: Queue, before: seq<Op>, window: seq<Op>, a: Route, b: Route)
    requires Valid(q) && a != b && a in q.order && b in q.order && BothBusy(q, before + window, a, b)
    ensures var q' := Run(q, before);
      -1 <= Serves(q', window, a) - Serves(q', window, b) <= 1
  {
    RunConcat(q, before, window, a, b);
    SomeoneStaysListed(q, before, a, b);
    TurnsTaken(Run(q, before), window, a, b);
  }
}
