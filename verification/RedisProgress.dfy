/** What the operations over Redis achieve, and that no live task is ever stuck. */
module RedisProgress {
  import opened Prelude
  import TaskQueue
  import opened RedisStreams

  // ---------- an operation that is not interrupted ----------

  /** The last two commands of an operation remove the entry, and mark its task only if it was completed. */
  lemma EntryRemoved(s: State, c: nat, id: nat, completed: bool, now: nat, later: nat)
    requires c in s.clients && s.clients[c] == Acking(id, completed) && At(s, id, Pending)
    ensures Command(Command(s, c, now), c, later)
         == s.(copies := s.copies - {id}, clients := s.clients - {c},
               acked := if completed then s.acked + {s.copies[id].origin} else s.acked)
  {
    var s1 := Command(s, c, now);
    assert s1.copies == s.copies[id := s.copies[id].(place := Settled)] && s1.clients == s.clients[c := Deleting(id)];
    assert s1.copies - {id} == s.copies - {id} && s1.clients - {c} == s.clients - {c};
  }

  /** Acknowledging removes the entry and marks its task, and nothing else. */
  lemma AckCompletes(s: State, c: nat, handle: nat, now: nat, later: nat)
    requires Inv(s) && Enabled(s, StartAck(c, handle)) && At(s, s.leases[handle].id, Pending)
    ensures var lease := s.leases[handle];
      Command(Command(Step(s, StartAck(c, handle)), c, now), c, later)
      == s.(copies := s.copies - {lease.id}, leases := s.leases - {handle}, acked := s.acked + {lease.origin})
  {
    var started := Step(s, StartAck(c, handle));
    assert LeaseOk(s, s.leases[handle]);
    EntryRemoved(started, c, s.leases[handle].id, true, now, later);
    assert started.clients - {c} == s.clients;
  }

  /** What retrying publishes in place of the entry: a further attempt, or a dead letter after the last one. */
  predicate Replacement(copy: Copy, lease: Lease, delayMs: nat, now: nat) {
    && copy.task == lease.task && copy.origin == lease.origin
    && if lease.attempt >= lease.task.retryPolicy.maxAttempts then copy.attempt == lease.attempt && copy.place.Dead?
       else copy.attempt == lease.attempt + 1
            && (if delayMs == 0 then copy.place.Undelivered? else copy.place == Delayed(now + delayMs))
  }

  /** The lease's entry with the copy published in its place, before the entry is removed. */
  function WithBoth(s: State, c: nat, handle: nat, copy: Copy): State
    requires handle in s.leases
  {
    s.(copies := s.copies[s.nextId := copy], nextId := s.nextId + 1, leases := s.leases - {handle},
       clients := s.clients[c := Acking(s.leases[handle].id, false)])
  }

  lemma EntryGoes(s: State, c: nat, handle: nat, copy: Copy, now: nat)
    requires Inv(s) && c !in s.clients && handle in s.leases && At(s, s.leases[handle].id, Pending)
    ensures Command(Command(WithBoth(s, c, handle, copy), c, now), c, now)
         == s.(copies := s.copies[s.nextId := copy] - {s.leases[handle].id}, nextId := s.nextId + 1,
               leases := s.leases - {handle})
  {
    var published := WithBoth(s, c, handle, copy);
    assert s.leases[handle].id < s.nextId;
    EntryRemoved(published, c, s.leases[handle].id, false, now, now);
    assert published.clients - {c} == s.clients;
  }

  lemma RetryPublishes(s: State, c: nat, handle: nat, delayMs: nat, now: nat) returns (copy: Copy)
    requires Inv(s) && Enabled(s, StartRetry(c, handle, delayMs))
    ensures Command(Step(s, StartRetry(c, handle, delayMs)), c, now) == WithBoth(s, c, handle, copy)
    ensures Replacement(copy, s.leases[handle], delayMs, now)
  {
    copy := Command(Step(s, StartRetry(c, handle, delayMs)), c, now).copies[s.nextId];
  }

  /** Retrying puts exactly the replacement in place of the entry. */
  lemma RetryCompletes(s: State, c: nat, handle: nat, delayMs: nat, now: nat) returns (copy: Copy)
    requires Inv(s) && Enabled(s, StartRetry(c, handle, delayMs)) && At(s, s.leases[handle].id, Pending)
    ensures Replacement(copy, s.leases[handle], delayMs, now)
    ensures Command(Command(Command(Step(s, StartRetry(c, handle, delayMs)), c, now), c, now), c, now)
         == s.(copies := s.copies[s.nextId := copy] - {s.leases[handle].id}, nextId := s.nextId + 1,
               leases := s.leases - {handle})
  {
    copy := RetryPublishes(s, c, handle, delayMs, now);
    EntryGoes(s, c, handle, copy, now);
  }

  lemma RejectPublishes(s: State, c: nat, handle: nat, now: nat)
    requires Inv(s) && Enabled(s, StartReject(c, handle))
    ensures var lease := s.leases[handle];
      Command(Step(s, StartReject(c, handle)), c, now)
      == WithBoth(s, c, handle, Copy(lease.task, lease.attempt, lease.origin, Dead))
  {
  }

  /** Rejecting puts the delivery among the dead letters as it is. */
  lemma RejectCompletes(s: State, c: nat, handle: nat, now: nat)
    requires Inv(s) && Enabled(s, StartReject(c, handle)) && At(s, s.leases[handle].id, Pending)
    ensures var lease := s.leases[handle];
      Command(Command(Command(Step(s, StartReject(c, handle)), c, now), c, now), c, now)
      == s.(copies := s.copies[s.nextId := Copy(lease.task, lease.attempt, lease.origin, Dead)] - {lease.id},
            nextId := s.nextId + 1, leases := s.leases - {handle})
  {
    var lease := s.leases[handle];
    RejectPublishes(s, c, handle, now);
    EntryGoes(s, c, handle, Copy(lease.task, lease.attempt, lease.origin, Dead), now);
  }

  /** Replaying moves the dead letter back to the stream, for its first attempt. */
  lemma ReplayCompletes(s: State, c: nat, id: nat, now: nat)
    requires Inv(s) && Enabled(s, StartReplay(c, id))
    ensures Command(Command(Step(s, StartReplay(c, id)), c, now), c, now)
         == s.(copies := s.copies[s.nextId := Copy(s.copies[id].task, 1, s.copies[id].origin, Undelivered)] - {id},
               nextId := s.nextId + 1)
  {
    var published := Command(Step(s, StartReplay(c, id)), c, now);
    assert id < s.nextId && At(published, id, Dead) && published.clients[c] == Unburying(id);
    assert published.clients - {c} == s.clients;
  }

  // ---------- no live task is stuck ----------

  lemma {:induction false} Above(keys: set<nat>) returns (c: nat)
    ensures forall k :: k in keys ==> k < c
    decreases |keys|
  {
    c := 0;
    if keys != {} {
      var k :| k in keys;
      var rest := keys - {k};
      c := Above(rest);
      c := Max(c, k + 1);
      assert forall j :: j in keys ==> j == k || j in rest;
    }
  }

  /** Nothing crashes on the way and the task is acknowledged at the end. */
  ghost predicate Acknowledges(s: State, actions: seq<Action>, origin: nat) {
    && (forall i :: 0 <= i < |actions| ==>
          !actions[i].CrashClient? && !actions[i].CrashLease? && !actions[i].CrashPromotion?)
    && Possible(s, actions) && origin in Run(s, actions).acked
  }

  lemma GoFirst(s: State, a: Action, rest: seq<Action>, origin: nat)
    requires Enabled(s, a) && Acknowledges(Step(s, a), rest, origin)
    requires !a.CrashClient? && !a.CrashLease? && !a.CrashPromotion?
    ensures Acknowledges(s, [a] + rest, origin)
  {
    assert ([a] + rest)[1..] == rest;
  }

  lemma PendingAcks(s: State, id: nat) returns (actions: seq<Action>)
    requires At(s, id, Pending)
    ensures Acknowledges(s, actions, s.copies[id].origin)
  {
    var origin := s.copies[id].origin;
    var c := Above(s.clients.Keys);
    var s1 := Step(s, Reclaim(id, 0));
    var s2 := Step(s1, StartAck(c, 0));
    var s3 := Step(s2, Continue(c, 0));
    assert Acknowledges(s3, [], origin);
    GoFirst(s2, Continue(c, 0), [], origin);
    GoFirst(s1, StartAck(c, 0), [Continue(c, 0)] + [], origin);
    actions := [Reclaim(id, 0)] + ([StartAck(c, 0)] + ([Continue(c, 0)] + []));
    GoFirst(s, Reclaim(id, 0), [StartAck(c, 0)] + ([Continue(c, 0)] + []), origin);
  }

  /** Entries to be read before this one. */
  ghost function Ahead(s: State, id: nat): set<nat>
    requires id in s.copies
  {
    set x | x in s.copies && x < id && At(s, x, Undelivered)
            && TaskQueue.RouteOf(s.copies[x].task) == TaskQueue.RouteOf(s.copies[id].task)
  }

  lemma {:induction false} SomethingIsNext(s: State, id: nat) returns (first: nat)
    requires At(s, id, Undelivered)
    ensures Enabled(s, Reserve(first, 0)) && (first == id || first in Ahead(s, id))
    decreases id
  {
    first := id;
    if x :| x in Ahead(s, id) {
      first := SomethingIsNext(s, x);
    } else {
      forall older: nat | older < id && At(s, older, Undelivered)
        ensures TaskQueue.RouteOf(s.copies[older].task) != TaskQueue.RouteOf(s.copies[id].task)
      {
        assert older !in Ahead(s, id);
      }
    }
  }

  lemma {:induction false} UndeliveredAcks(s: State, id: nat) returns (actions: seq<Action>)
    requires At(s, id, Undelivered)
    ensures Acknowledges(s, actions, s.copies[id].origin)
    decreases |Ahead(s, id)|
  {
    var first := SomethingIsNext(s, id);
    var s' := Step(s, Reserve(first, 0));
    var rest;
    if first == id {
      rest := PendingAcks(s', id);
    } else {
      assert Ahead(s', id) == Ahead(s, id) - {first};
      rest := UndeliveredAcks(s', id);
    }
    actions := [Reserve(first, 0)] + rest;
    GoFirst(s, Reserve(first, 0), rest, s.copies[id].origin);
  }

  lemma PromotingAcks(s: State, id: nat) returns (actions: seq<Action>)
    requires Inv(s) && At(s, id, Promoting)
    ensures Acknowledges(s, actions, s.copies[id].origin)
  {
    var s' := Step(s, PromoteAdd(id));
    assert id < s.nextId && At(s', s.nextId, Undelivered) && s'.copies[s.nextId].origin == s.copies[id].origin;
    var rest := UndeliveredAcks(s', s.nextId);
    actions := [PromoteAdd(id)] + rest;
    GoFirst(s, PromoteAdd(id), rest, s.copies[id].origin);
  }

  lemma DelayedAcks(s: State, id: nat) returns (actions: seq<Action>)
    requires Inv(s) && id in s.copies && s.copies[id].place.Delayed?
    ensures Acknowledges(s, actions, s.copies[id].origin)
  {
    var a := PromoteRemove(id, s.copies[id].place.dueAt);
    StepKeepsInv(s, a);
    var rest := PromotingAcks(Step(s, a), id);
    actions := [a] + rest;
    GoFirst(s, a, rest, s.copies[id].origin);
  }

  lemma DeadAcks(s: State, id: nat) returns (actions: seq<Action>)
    requires Inv(s) && At(s, id, Dead)
    ensures Acknowledges(s, actions, s.copies[id].origin)
  {
    var origin := s.copies[id].origin;
    var c := Above(s.clients.Keys);
    var s1 := Step(s, StartReplay(c, id));
    var s2 := Step(s1, Continue(c, 0));
    assert At(s2, s.nextId, Undelivered) && s2.copies[s.nextId].origin == origin;
    var rest := UndeliveredAcks(s2, s.nextId);
    GoFirst(s1, Continue(c, 0), rest, origin);
    actions := [StartReplay(c, id)] + ([Continue(c, 0)] + rest);
    GoFirst(s, StartReplay(c, id), [Continue(c, 0)] + rest, origin);
  }

  /**
   Never stuck. From any state a run reaches, a task with a live copy can still be
   acknowledged, wherever the copy is and whatever clients have crashed, without any
   further crash.
   */
  lemma NeverStuck(actions: seq<Action>, id: nat, origin: nat) returns (more: seq<Action>)
    requires Possible(INITIAL, actions) && Live(Run(INITIAL, actions), id, origin)
    ensures Acknowledges(Run(INITIAL, actions), more, origin)
  {
    var s := Run(INITIAL, actions);
    RunKeepsInv(INITIAL, actions);
    match s.copies[id].place
    case Undelivered => more := UndeliveredAcks(s, id);
    case Pending => more := PendingAcks(s, id);
    case Delayed(_) => more := DelayedAcks(s, id);
    case Promoting => more := PromotingAcks(s, id);
    case Dead => more := DeadAcks(s, id);
  }
}
