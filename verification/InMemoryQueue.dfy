/**
 The in-memory queue as the object it is: four structures updated in place.
 Every method is proved to change them exactly as the operation of the same name
 in `TaskQueue` says, from any state. Each method runs as one atomic step here;
 `LockSections` takes the steps apart.
 */
module InMemoryQueue {
  import opened Prelude
  import opened Rotation
  import TaskQueue
  import opened TaskQueueTypes = TaskQueue

  class InMemoryRuntimeTaskQueue {
    var buckets: map<Route, seq<QueuedTask>>
    var routeOrder: seq<Route>
    var leased: map<string, Delivery>
    var deadLetters: seq<DeadLetter>

    ghost function Contents(): Queue
      reads this
    {
      Queue(buckets, routeOrder, leased, deadLetters)
    }

    constructor ()
      ensures Contents() == EMPTY && TaskQueue.Valid(Contents())
    {
      buckets, routeOrder, leased, deadLetters := map[], [], map[], [];
    }

    method Enqueue(task: Task, now: nat)
      modifies this
      ensures Contents() == TaskQueue.Enqueue(old(Contents()), task, now)
    {
      EnqueueInternal(QueuedTask(task, 1, now, None));
    }

    method Reserve(bindings: seq<Route>, now: nat) returns (delivery: Option<Delivery>)
      modifies this
      ensures (Contents(), delivery) == TaskQueue.Reserve(old(Contents()), bindings, now)
    {
      var snapshot := FilteredRoutes(bindings);
      var i := 0;
      while i < |snapshot|
        invariant i <= |snapshot|
        invariant Contents() == old(Contents())
        invariant Scan(Contents(), snapshot, now) == Scan(Contents(), snapshot[i..], now)
      {
        var route := snapshot[i];
        if route !in buckets {
          return None;
        }
        var bucket := buckets[route];
        if bucket == [] || bucket[0].availableAt > now {
          i := i + 1;
          continue;
        }
        var queued := bucket[0];
        PopFront(route, bucket);
        var d := DeliveryOf(queued, now);
        leased := leased[d.deliveryId := d];
        return Some(d);
      }
      return None;
    }

    /** The part of `Reserve` that takes the front of a bucket out and rotates or removes its route. */
    method PopFront(route: Route, bucket: seq<QueuedTask>)
      requires route in buckets && bucket == buckets[route] && bucket != []
      modifies this`buckets, this`routeOrder
      ensures Contents() == TaskQueue.PopFront(old(Contents()), route)
    {
      if bucket[1..] == [] {
        buckets := buckets - {route};
        RemoveRoute(route);
      } else {
        buckets := buckets[route := bucket[1..]];
        RotateRoute(route);
      }
    }

    method Ack(deliveryId: string)
      modifies this`leased
      ensures Contents() == TaskQueue.Ack(old(Contents()), deliveryId)
    {
      leased := leased - {deliveryId};
    }

    method Retry(deliveryId: string, error: string, delayMs: nat, now: nat)
      returns (disposition: Result<Disposition, Error>)
      modifies this
      ensures (Contents(), disposition) == TaskQueue.Retry(old(Contents()), deliveryId, error, delayMs, now)
    {
      if deliveryId !in leased {
        return Err(Internal);
      }
      var d := leased[deliveryId];
      leased := leased - {deliveryId};
      if d.attempt >= d.task.retryPolicy.maxAttempts {
        deadLetters := deadLetters + [DeadLetterOf(d, error, now)];
        return Ok(DeadLettered);
      }
      EnqueueInternal(QueuedTask(d.task, d.attempt + 1, now + delayMs, Some(error)));
      return Ok(Requeued);
    }

    method Reject(deliveryId: string, error: string, now: nat)
      modifies this`leased, this`deadLetters
      ensures Contents() == TaskQueue.Reject(old(Contents()), deliveryId, error, now)
    {
      if deliveryId in leased {
        var d := leased[deliveryId];
        leased := leased - {deliveryId};
        deadLetters := deadLetters + [DeadLetterOf(d, error, now)];
      }
    }

    method ReplayDeadLetter(deliveryId: string, now: nat) returns (receipt: Result<Receipt, Error>)
      modifies this
      ensures (Contents(), receipt) == TaskQueue.Replay(old(Contents()), deliveryId, now)
    {
      var position := 0;
      while position < |deadLetters| && deadLetters[position].deliveryId != deliveryId
        invariant position <= |deadLetters|
        invariant forall j :: 0 <= j < position ==> deadLetters[j].deliveryId != deliveryId
      {
        position := position + 1;
      }
      assert position == FindDead(deadLetters, deliveryId);
      if position == |deadLetters| {
        return Err(NotFound(deliveryId));
      }
      var record := deadLetters[position];
      deadLetters := deadLetters[..position] + deadLetters[position + 1..];
      EnqueueInternal(QueuedTask(record.task, 1, now, Some("replayed from dead letter: " + record.error)));
      return Ok(Receipt(record.task.taskId, record.task.queue, record.task.lane));
    }

    method EnqueueInternal(queued: QueuedTask)
      modifies this`buckets, this`routeOrder
      ensures Contents() == TaskQueue.EnqueueInternal(old(Contents()), queued)
    {
      var route := RouteOf(queued.task);
      var bucket := if route in buckets then buckets[route] else [];
      buckets := buckets[route := bucket + [queued]];
      if bucket == [] {
        routeOrder := routeOrder + [route];
      }
    }

    method RotateRoute(route: Route)
      modifies this`routeOrder
      ensures routeOrder == MoveToBack(old(routeOrder), route)
    {
      var position := Position(routeOrder, route);
      if position < |routeOrder| {
        routeOrder := routeOrder[..position] + routeOrder[position + 1..];
        routeOrder := routeOrder + [route];
      }
    }

    method RemoveRoute(route: Route)
      modifies this`routeOrder
      ensures routeOrder == RemoveFirst(old(routeOrder), route)
    {
      var position := Position(routeOrder, route);
      if position < |routeOrder| {
        routeOrder := routeOrder[..position] + routeOrder[position + 1..];
      }
    }

    method FilteredRoutes(bindings: seq<Route>) returns (routes: seq<Route>)
      ensures routes == Filtered(routeOrder, bindings)
    {
      if bindings == [] {
        FilteredUnbound(routeOrder);
        return routeOrder;
      }
      routes := [];
      var i := 0;
      while i < |routeOrder|
        invariant i <= |routeOrder|
        invariant Filtered(routeOrder, bindings) == routes + Filtered(routeOrder[i..], bindings)
      {
        if routeOrder[i] in bindings {
          routes := routes + [routeOrder[i]];
        }
        i := i + 1;
      }
    }
  }

  /** The first position of a route in the order, or its length. */
  method Position(order: seq<Route>, route: Route) returns (position: nat)
    ensures position == IndexOf(order, route)
  {
    position := 0;
    while position < |order| && order[position] != route
      invariant position <= |order|
      invariant forall j :: 0 <= j < position ==> order[j] != route
    {
      position := position + 1;
    }
  }

  lemma {:induction false} FilteredUnbound(order: seq<Route>)
    ensures Filtered(order, []) == order
  {
    if order != [] {
      FilteredUnbound(order[1..]);
    }
  }
}
