/** What the copies of a task in Redis owe to their past, over every run. */
module RedisHistory {
  import opened Prelude
  import TaskQueue
  import opened RedisStreams

  /** How a copy came about, and from which copy. */
  datatype Link =
    | Enqueued
    | Retried(of: nat, dueAt: Option<nat>)   // a delayed retry has a time before which it must not be delivered
    | Promoted(of: nat)
    | DeadOf(of: nat)
    | Replayed(of: nat)

  datatype History = History(
    links: seq<Link>,            // by copy
    routes: seq<TaskQueue.Route>,          // by copy
    promotedAt: map<nat, nat>,   // when a delayed retry was taken out of the sorted set
    reserved: seq<nat>,          // entries in the order they were read for the first time
    completed: set<nat>)         // origins some worker started to acknowledge

  const NOTHING := History([], [], map[], [], {})

  /** The link of the copy this action publishes, if it publishes one. */
  ghost function LinkOf(s: State, a: Action): Option<Link>
    requires Enabled(s, a)
  {
    match a
    case Enqueue(_) => Some(Enqueued)
    case PromoteAdd(id) => Some(Promoted(id))
    case Continue(c, now) =>
      (match s.clients[c]
       case Retrying(lease, delayMs) => Some(Retried(lease.id, if delayMs == 0 then None else Some(now + delayMs)))
       case Burying(lease) => Some(DeadOf(lease.id))
       case Replaying(id, _, _) => Some(Replayed(id))
       case _ => None)
    case _ => None
  }

  ghost function RouteAfter(s: State, id: nat): TaskQueue.Route {
    if id in s.copies then TaskQueue.RouteOf(s.copies[id].task) else TaskQueue.Route("", "")
  }

  ghost function Noted(s: State, h: History, a: Action): History
    requires Enabled(s, a)
  {
    if LinkOf(s, a).Some? then
      h.(links := h.links + [LinkOf(s, a).value], routes := h.routes + [RouteAfter(Step(s, a), s.nextId)])
    else
      match a
      case PromoteRemove(id, now) => h.(promotedAt := h.promotedAt[id := now])
      case Reserve(id, _) => h.(reserved := h.reserved + [id])
      case StartAck(_, handle) => h.(completed := h.completed + {s.leases[handle].origin})
      case _ => h
  }

  ghost function HistoryOf(s: State, h: History, actions: seq<Action>): History
    requires Possible(s, actions)
    decreases |actions|
  {
    if actions == [] then h else HistoryOf(Step(s, actions[0]), Noted(s, h, actions[0]), actions[1..])
  }

  /** How often the task was retried since it was enqueued or last replayed. */
  ghost function Retries(links: seq<Link>, id: nat): nat
    decreases id
  {
    if id >= |links| || links[id].Enqueued? || links[id].Replayed? then 0
    else
      (if links[id].Retried? then 1 else 0) + if links[id].of < id then Retries(links, links[id].of) else 0
  }

  lemma {:induction false} RetriesStay(links: seq<Link>, link: Link, id: nat)
    requires id < |links|
    ensures Retries(links + [link], id) == Retries(links, id)
    decreases id
  {
    assert (links + [link])[id] == links[id];
    if !links[id].Enqueued? && links[id].of < id {
      RetriesStay(links, link, links[id].of);
    }
  }

  // ---------- what every command keeps ----------

  /** Where a copy may be, given how it came about. */
  predicate PlaceFits(link: Link, place: Place) {
    match link
    case Retried(_, Some(dueAt)) => place == Delayed(dueAt) || place.Promoting?
    case DeadOf(_) => place.Dead?
    case _ => place.Undelivered? || place.Pending? || place.Settled?
  }

  ghost predicate LeaseCounted(h: History, lease: Lease) {
    lease.id < |h.links| && lease.attempt == 1 + Retries(h.links, lease.id)
  }

  ghost predicate ClientCounted(h: History, client: Client) {
    match client
    case Retrying(lease, _) => LeaseCounted(h, lease)
    case Burying(lease) => LeaseCounted(h, lease)
    case _ => true
  }

  ghost predicate CopyCounted(h: History, id: nat, copy: Copy) {
    id < |h.links| && copy.attempt == 1 + Retries(h.links, id) && PlaceFits(h.links[id], copy.place)
  }

  ghost predicate Counted(s: State, h: History) {
    && |h.links| == s.nextId
    && (forall id :: id in s.copies ==> CopyCounted(h, id, s.copies[id]))
    && (forall handle :: handle in s.leases ==> LeaseCounted(h, s.leases[handle]))
    && (forall c :: c in s.clients ==> ClientCounted(h, s.clients[c]))
  }

  /** One more link changes nothing about the copies there were. */
  lemma LinkKeeps(s: State, h: History, h': History, link: Link)
    requires Counted(s, h) && h'.links == h.links + [link]
    ensures forall id :: id in s.copies ==> CopyCounted(h', id, s.copies[id])
    ensures forall lease :: LeaseCounted(h, lease) ==> LeaseCounted(h', lease)
    ensures forall client :: ClientCounted(h, client) ==> ClientCounted(h', client)
  {
    forall id: nat | id < |h.links| ensures Retries(h'.links, id) == Retries(h.links, id) {
      RetriesStay(h.links, link, id);
    }
    forall client | ClientCounted(h, client) ensures ClientCounted(h', client) {
    }
  }

  lemma LinkCounts(links: seq<Link>, link: Link)
    requires !link.Enqueued? ==> link.of < |links|
    ensures Retries(links + [link], |links|)
         == if link.Enqueued? || link.Replayed? then 0
            else Retries(links, link.of) + if link.Retried? then 1 else 0
  {
    if !link.Enqueued? {
      RetriesStay(links, link, link.of);
    }
  }

  /** A step that publishes a copy and otherwise only moves, removes or keeps. */
  lemma PublishCounted(s: State, h: History, s': State, h': History, link: Link)
    requires Counted(s, h) && h'.links == h.links + [link] && s'.nextId == s.nextId + 1
    requires forall id :: id in s'.copies && id != s.nextId ==> id in s.copies && s'.copies[id] == s.copies[id]
    requires s.nextId in s'.copies ==> CopyCounted(h', s.nextId, s'.copies[s.nextId])
    requires s'.leases == s.leases
    requires forall c :: c in s'.clients ==> ClientCounted(h, s'.clients[c])
    ensures Counted(s', h')
  {
    LinkKeeps(s, h, h', link);
  }

  lemma MoveCounted(s: State, h: History, id: nat, place: Place)
    requires Counted(s, h) && id in s.copies && (id < |h.links| ==> PlaceFits(h.links[id], place))
    ensures Counted(MoveTo(s, id, place), h)
  {
    assert CopyCounted(h, id, s.copies[id]);
  }

  lemma RemoveCounted(s: State, h: History, id: nat)
    requires Counted(s, h)
    ensures Counted(Remove(s, id), h)
  {
  }

  /** A step that changes only who holds what. */
  lemma HoldersCounted(s: State, h: History, s': State, h': History)
    requires Counted(s, h) && h'.links == h.links && s'.nextId == s.nextId && s'.copies == s.copies
    requires forall handle :: handle in s'.leases ==> LeaseCounted(h, s'.leases[handle])
    requires forall c :: c in s'.clients ==> ClientCounted(h, s'.clients[c])
    ensures Counted(s', h')
  {
  }

  lemma PublishCommandCounted(s: State, h: History, c: nat, now: nat)
    requires Inv(s) && Counted(s, h) && c in s.clients
    requires s.clients[c].Retrying? || s.clients[c].Burying? || s.clients[c].Replaying?
    ensures Counted(Command(s, c, now), Noted(s, h, Continue(c, now)))
  {
    var s', h', client := Command(s, c, now), Noted(s, h, Continue(c, now)), s.clients[c];
    var link := LinkOf(s, Continue(c, now)).value;
    var (copy, next) := Published(client, now);
    assert ClientOk(s, client) && ClientCounted(h, client);
    LinkCounts(h.links, link);
    PublishIs(s, c, now);
    assert CopyCounted(h', s.nextId, copy);
    PublishCounted(s, h, s', h', link);
  }

  lemma AckCounted(s: State, h: History, c: nat, now: nat)
    requires Counted(s, h) && c in s.clients && s.clients[c].Acking?
    ensures Counted(Command(s, c, now), Noted(s, h, Continue(c, now)))
  {
    var id, s', h' := s.clients[c].id, Command(s, c, now), Noted(s, h, Continue(c, now));
    if At(s, id, Pending) {
      assert CopyCounted(h, id, s.copies[id]);
      MoveCounted(s, h, id, Settled);
      HoldersCounted(MoveTo(s, id, Settled), h, s', h');
    } else {
      HoldersCounted(s, h, s', h');
    }
  }

  lemma RemovalCounted(s: State, h: History, c: nat, now: nat)
    requires Counted(s, h) && c in s.clients && (s.clients[c].Deleting? || s.clients[c].Unburying?)
    ensures Counted(Command(s, c, now), Noted(s, h, Continue(c, now)))
  {
    var s', h' := Command(s, c, now), Noted(s, h, Continue(c, now));
    if s'.copies == s.copies {
      HoldersCounted(s, h, s', h');
    } else {
      RemoveCounted(s, h, s.clients[c].id);
      HoldersCounted(Remove(s, s.clients[c].id), h, s', h');
    }
  }

  lemma CommandCounted(s: State, h: History, c: nat, now: nat)
    requires Inv(s) && Counted(s, h) && c in s.clients
    ensures Counted(Command(s, c, now), Noted(s, h, Continue(c, now)))
  {
    if s.clients[c].Retrying? || s.clients[c].Burying? || s.clients[c].Replaying? {
      PublishCommandCounted(s, h, c, now);
    } else if s.clients[c].Acking? {
      AckCounted(s, h, c, now);
    } else {
      RemovalCounted(s, h, c, now);
    }
  }

  lemma EnqueueCounted(s: State, h: History, task: TaskQueue.Task)
    requires Inv(s) && Counted(s, h)
    ensures Counted(Step(s, Enqueue(task)), Noted(s, h, Enqueue(task)))
  {
    LinkCounts(h.links, Enqueued);
    PublishCounted(s, h, Step(s, Enqueue(task)), Noted(s, h, Enqueue(task)), Enqueued);
  }

  lemma PromoteCounted(s: State, h: History, id: nat)
    requires Inv(s) && Counted(s, h) && At(s, id, Promoting)
    ensures Counted(Step(s, PromoteAdd(id)), Noted(s, h, PromoteAdd(id)))
  {
    LinkCounts(h.links, Promoted(id));
    PublishCounted(s, h, Step(s, PromoteAdd(id)), Noted(s, h, PromoteAdd(id)), Promoted(id));
  }

  lemma LeaseTakenCounted(s: State, h: History, h': History, id: nat, handle: nat)
    requires Counted(s, h) && id in s.copies && h'.links == h.links
    ensures Counted(s.(leases := s.leases[handle := LeaseOf(s, id)]), h')
  {
    assert CopyCounted(h, id, s.copies[id]);
    HoldersCounted(s, h, s.(leases := s.leases[handle := LeaseOf(s, id)]), h');
  }

  /** Starting a client, and crashing one. */
  lemma HolderStepCounted(s: State, h: History, a: Action)
    requires Enabled(s, a) && Counted(s, h)
    requires a.StartAck? || a.StartRetry? || a.StartReject? || a.StartReplay? || a.CrashClient? || a.CrashLease?
    ensures Counted(Step(s, a), Noted(s, h, a))
  {
    if a.StartRetry? || a.StartReject? {
      assert LeaseCounted(h, s.leases[a.handle]);
    }
    HoldersCounted(s, h, Step(s, a), Noted(s, h, a));
  }

  lemma EntryStepCounted(s: State, h: History, a: Action)
    requires Enabled(s, a) && Counted(s, h)
    requires a.Reserve? || a.Reclaim? || a.PromoteRemove? || a.CrashPromotion?
    ensures Counted(Step(s, a), Noted(s, h, a))
  {
    assert CopyCounted(h, a.id, s.copies[a.id]);
    match a
    case Reserve(id, handle) =>
      MoveCounted(s, h, id, Pending);
      LeaseTakenCounted(MoveTo(s, id, Pending), h, Noted(s, h, a), id, handle);
    case Reclaim(id, handle) => LeaseTakenCounted(s, h, Noted(s, h, a), id, handle);
    case PromoteRemove(id, _) => MoveCounted(s, h, id, Promoting);
    case CrashPromotion(id) => RemoveCounted(s, h, id);
  }

  lemma StepCounted(s: State, h: History, a: Action)
    requires Inv(s) && Enabled(s, a) && Counted(s, h)
    ensures Counted(Step(s, a), Noted(s, h, a))
  {
    match a
    case Enqueue(task) => EnqueueCounted(s, h, task);
    case PromoteAdd(id) => PromoteCounted(s, h, id);
    case Continue(c, now) => CommandCounted(s, h, c, now);
    case Reserve(_, _) => EntryStepCounted(s, h, a);
    case Reclaim(_, _) => EntryStepCounted(s, h, a);
    case PromoteRemove(_, _) => EntryStepCounted(s, h, a);
    case CrashPromotion(_) => EntryStepCounted(s, h, a);
    case _ => HolderStepCounted(s, h, a);
  }

  // ---------- when, in what order, by whom ----------

  /** A delayed retry was taken out of the sorted set at its time or later, and only then promoted. */
  ghost predicate Timely(s: State, h: History) {
    && (forall id :: id in h.promotedAt ==> TakenOutInTime(h, id))
    && (forall id :: 0 <= id < |h.links| && h.links[id].Promoted? ==> h.links[id].of in h.promotedAt)
    && (forall id :: At(s, id, Promoting) ==> id in h.promotedAt)
  }

  ghost predicate TakenOutInTime(h: History, id: nat) {
    id in h.promotedAt && id < |h.links| && h.links[id].Retried? && h.links[id].dueAt.Some?
    && h.links[id].dueAt.value <= h.promotedAt[id]
  }

  /** How the copies of one state come from those of the state before. */
  ghost predicate CopiesFrom(s: State, s': State, a: Action)
    requires Enabled(s, a)
  {
    && s'.nextId == s.nextId + (if LinkOf(s, a).Some? then 1 else 0)
    && (forall id :: id in s'.copies && id != s.nextId ==>
          id in s.copies && s'.copies[id] == s.copies[id].(place := s'.copies[id].place))
    && (forall id :: id in s'.copies && id != s.nextId && s'.copies[id].place != s.copies[id].place ==>
          !s'.copies[id].place.Undelivered?
          && (s'.copies[id].place.Promoting? ==> a.PromoteRemove? && id == a.id))
    && (s.nextId in s'.copies ==> LinkOf(s, a).Some? && !s'.copies[s.nextId].place.Promoting?)
  }

  lemma PublishCopies(s: State, c: nat, now: nat)
    requires Inv(s) && c in s.clients
    requires s.clients[c].Retrying? || s.clients[c].Burying? || s.clients[c].Replaying?
    ensures CopiesFrom(s, Command(s, c, now), Continue(c, now))
  {
    PublishIs(s, c, now);
  }

  /** A command that settles or removes one entry, or none. */
  lemma OneCopyLess(s: State, s': State, a: Action, id: nat)
    requires Inv(s) && Enabled(s, a) && LinkOf(s, a).None? && s'.nextId == s.nextId
    requires s'.copies == s.copies || s'.copies == s.copies - {id}
      || (id in s.copies && s'.copies == s.copies[id := s.copies[id].(place := Settled)])
    ensures CopiesFrom(s, s', a)
  {
  }

  lemma RemovalCopies(s: State, c: nat, now: nat)
    requires Inv(s) && c in s.clients
    requires s.clients[c].Acking? || s.clients[c].Deleting? || s.clients[c].Unburying?
    ensures CopiesFrom(s, Command(s, c, now), Continue(c, now))
  {
    OneCopyLess(s, Command(s, c, now), Continue(c, now), s.clients[c].id);
  }

  lemma HolderCopies(s: State, a: Action)
    requires Inv(s) && Enabled(s, a)
    requires a.StartAck? || a.StartRetry? || a.StartReject? || a.StartReplay? || a.CrashClient? || a.CrashLease?
    ensures CopiesFrom(s, Step(s, a), a)
  {
    assert Step(s, a).copies == s.copies;
  }

  lemma EntryCopies(s: State, a: Action)
    requires Inv(s) && Enabled(s, a)
    requires a.Reserve? || a.Reclaim? || a.PromoteRemove?
    ensures CopiesFrom(s, Step(s, a), a)
  {
    assert Step(s, a).copies == s.copies[a.id := s.copies[a.id].(place := Step(s, a).copies[a.id].place)];
  }

  lemma NewCopies(s: State, a: Action)
    requires Inv(s) && Enabled(s, a) && (a.Enqueue? || a.PromoteAdd?)
    ensures CopiesFrom(s, Step(s, a), a)
  {
  }

  lemma StepCopies(s: State, a: Action)
    requires Inv(s) && Enabled(s, a)
    ensures CopiesFrom(s, Step(s, a), a)
  {
    match a
    case Continue(c, now) =>
      if s.clients[c].Retrying? || s.clients[c].Burying? || s.clients[c].Replaying? {
        PublishCopies(s, c, now);
      } else {
        RemovalCopies(s, c, now);
      }
    case Enqueue(_) => NewCopies(s, a);
    case PromoteAdd(_) => NewCopies(s, a);
    case Reserve(_, _) => EntryCopies(s, a);
    case Reclaim(_, _) => EntryCopies(s, a);
    case PromoteRemove(_, _) => EntryCopies(s, a);
    case CrashPromotion(id) => OneCopyLess(s, Step(s, a), a, id);
    case _ => HolderCopies(s, a);
  }

  lemma StepTimely(s: State, h: History, a: Action)
    requires Inv(s) && Counted(s, h) && Enabled(s, a) && Timely(s, h)
    ensures Timely(Step(s, a), Noted(s, h, a))
  {
    StepCopies(s, a);
    NotedTimely(s, h, Step(s, a), Noted(s, h, a), a);
  }

  lemma NotedTimely(s: State, h: History, s': State, h': History, a: Action)
    requires Counted(s, h) && Enabled(s, a) && Timely(s, h) && CopiesFrom(s, s', a) && h' == Noted(s, h, a)
    ensures Timely(s', h')
  {
    if a.PromoteRemove? {
      assert CopyCounted(h, a.id, s.copies[a.id]);
    }
    forall id | id in h'.promotedAt ensures TakenOutInTime(h', id) {
      assert id in h.promotedAt ==> TakenOutInTime(h, id);
    }
  }

  /** Entries read so far: none on the same route is still waiting behind a later one. */
  ghost predicate InOrder(s: State, h: History) {
    && |h.routes| == s.nextId
    && (forall id :: id in s.copies ==> id < s.nextId && h.routes[id] == TaskQueue.RouteOf(s.copies[id].task))
    && (forall k :: 0 <= k < |h.reserved| ==> PassedBy(s, h, h.reserved[k]))
    && (forall i, j :: 0 <= i < j < |h.reserved| ==> Ascends(h, h.reserved[i], h.reserved[j]))
  }

  ghost predicate PassedBy(s: State, h: History, id: nat) {
    id < s.nextId <= |h.routes| && forall older: nat :: older <= id && At(s, older, Undelivered) ==>
      h.routes[older] != h.routes[id]
  }

  predicate Ascends(h: History, id: nat, later: nat) {
    id < |h.routes| && later < |h.routes| && (h.routes[id] == h.routes[later] ==> id < later)
  }

  lemma RoutesNoted(s: State, h: History, s': State, h': History, a: Action)
    requires Enabled(s, a) && InOrder(s, h) && CopiesFrom(s, s', a) && h' == Noted(s, h, a) && s' == Step(s, a)
    requires Inv(s)
    ensures |h'.routes| == s'.nextId && h.routes <= h'.routes
    ensures forall id :: id in s'.copies ==> id < s'.nextId && h'.routes[id] == TaskQueue.RouteOf(s'.copies[id].task)
  {
    forall id | id in s'.copies ensures id < s'.nextId && h'.routes[id] == TaskQueue.RouteOf(s'.copies[id].task) {
      if id != s.nextId {
        assert h.routes[id] == TaskQueue.RouteOf(s.copies[id].task);
      }
    }
  }

  lemma PassedByNoted(s: State, h: History, s': State, h': History, a: Action, id: nat)
    requires Enabled(s, a) && CopiesFrom(s, s', a) && PassedBy(s, h, id)
    requires |h.routes| == s.nextId && |h'.routes| == s'.nextId && h.routes <= h'.routes
    ensures PassedBy(s', h', id)
  {
    forall older: nat | older <= id && At(s', older, Undelivered) ensures h'.routes[older] != h'.routes[id] {
      assert At(s, older, Undelivered);
    }
  }

  /** What is read for the first time is the oldest of its route, so everything read before it is older still. */
  lemma ReadIsOldest(s: State, h: History, id: nat, handle: nat)
    requires InOrder(s, h) && Enabled(s, Reserve(id, handle))
    ensures PassedBy(Step(s, Reserve(id, handle)), Noted(s, h, Reserve(id, handle)), id)
    ensures forall k :: 0 <= k < |h.reserved| ==> Ascends(h, h.reserved[k], id)
  {
    var s' := Step(s, Reserve(id, handle));
    forall older: nat | older <= id && At(s', older, Undelivered) ensures h.routes[older] != h.routes[id] {
      assert At(s, older, Undelivered);
    }
    forall k | 0 <= k < |h.reserved| ensures Ascends(h, h.reserved[k], id) {
      assert PassedBy(s, h, h.reserved[k]);
    }
  }

  lemma StepInOrder(s: State, h: History, a: Action)
    requires Inv(s) && Enabled(s, a) && InOrder(s, h)
    ensures InOrder(Step(s, a), Noted(s, h, a))
  {
    var s', h' := Step(s, a), Noted(s, h, a);
    StepCopies(s, a);
    RoutesNoted(s, h, s', h', a);
    if a.Reserve? {
      ReadIsOldest(s, h, a.id, a.handle);
    }
    forall k | 0 <= k < |h'.reserved| ensures PassedBy(s', h', h'.reserved[k]) {
      if k < |h.reserved| {
        PassedByNoted(s, h, s', h', a, h.reserved[k]);
      }
    }
    forall i, j | 0 <= i < j < |h'.reserved| ensures Ascends(h', h'.reserved[i], h'.reserved[j]) {
      assert Ascends(h, h'.reserved[i], h'.reserved[j]);
    }
  }

  // ---------- who acknowledged ----------

  predicate AckingFor(client: Client) {
    client.Acking? && client.completed
  }

  predicate AckMeant(s: State, h: History, client: Client) {
    AckingFor(client) && client.id in s.copies ==> s.copies[client.id].origin in h.completed
  }

  /** Only what a worker has started to acknowledge is acknowledged. */
  ghost predicate Meant(s: State, h: History) {
    s.acked <= h.completed && forall c :: c in s.clients ==> AckMeant(s, h, s.clients[c])
  }

  lemma AckedBy(s: State, a: Action)
    requires Enabled(s, a)
    ensures Step(s, a).acked == s.acked
      || (a.Continue? && AckingFor(s.clients[a.client]) && s.clients[a.client].id in s.copies
          && Step(s, a).acked == s.acked + {s.copies[s.clients[a.client].id].origin})
  {
  }

  lemma ClientsFrom(s: State, a: Action)
    requires Enabled(s, a)
    ensures forall c :: c in Step(s, a).clients && AckingFor(Step(s, a).clients[c]) ==>
      (c in s.clients && Step(s, a).clients[c] == s.clients[c])
      || (a.StartAck? && c == a.client && Step(s, a).clients[c].id == s.leases[a.handle].id)
  {
  }

  lemma StepMeant(s: State, h: History, a: Action)
    requires Inv(s) && Enabled(s, a) && Meant(s, h)
    ensures Meant(Step(s, a), Noted(s, h, a))
  {
    var s', h' := Step(s, a), Noted(s, h, a);
    StepCopies(s, a);
    AckedBy(s, a);
    ClientsFrom(s, a);
    if a.Continue? {
      assert AckMeant(s, h, s.clients[a.client]);
    }
    if a.StartAck? {
      assert LeaseOk(s, s.leases[a.handle]);
    }
    forall c | c in s'.clients ensures AckMeant(s', h', s'.clients[c]) {
      if AckingFor(s'.clients[c]) && c in s.clients && s'.clients[c] == s.clients[c] {
        assert AckMeant(s, h, s.clients[c]) && ClientOk(s, s.clients[c]);
      }
    }
  }

  // ---------- over every run ----------

  ghost predicate Consistent(s: State, h: History) {
    Inv(s) && Counted(s, h) && Timely(s, h) && InOrder(s, h) && Meant(s, h)
  }

  lemma {:induction false} RunConsistent(s: State, h: History, actions: seq<Action>)
    requires Consistent(s, h) && Possible(s, actions)
    ensures Consistent(Run(s, actions), HistoryOf(s, h, actions))
    decreases |actions|
  {
    if actions != [] {
      StepKeepsInv(s, actions[0]);
      StepCounted(s, h, actions[0]);
      StepTimely(s, h, actions[0]);
      StepInOrder(s, h, actions[0]);
      StepMeant(s, h, actions[0]);
      RunConsistent(Step(s, actions[0]), Noted(s, h, actions[0]), actions[1..]);
    }
  }

  lemma Reached(actions: seq<Action>)
    requires Possible(INITIAL, actions)
    ensures Consistent(Run(INITIAL, actions), HistoryOf(INITIAL, NOTHING, actions))
  {
    RunConsistent(INITIAL, NOTHING, actions);
  }

  /**
   After any run the attempt of every copy, and the attempt every worker is told, is one
   more than the retries since the task was enqueued or last replayed, which never exceed
   what the task is allowed.
   */
  lemma AttemptsAreRetries(actions: seq<Action>)
    requires Possible(INITIAL, actions)
    ensures var s, h := Run(INITIAL, actions), HistoryOf(INITIAL, NOTHING, actions);
      && (forall id :: id in s.copies ==>
            s.copies[id].attempt == 1 + Retries(h.links, id) <= Max(1, s.copies[id].task.retryPolicy.maxAttempts))
      && (forall handle :: handle in s.leases ==>
            var lease := s.leases[handle];
            lease.attempt == 1 + Retries(h.links, lease.id) <= Max(1, lease.task.retryPolicy.maxAttempts))
  {
    Reached(actions);
    var s, h := Run(INITIAL, actions), HistoryOf(INITIAL, NOTHING, actions);
    forall id | id in s.copies
      ensures s.copies[id].attempt == 1 + Retries(h.links, id)
      ensures s.copies[id].attempt <= Max(1, s.copies[id].task.retryPolicy.maxAttempts)
    {
      assert CopyCounted(h, id, s.copies[id]) && CopyOk(s, s.copies[id]);
    }
    forall handle | handle in s.leases
      ensures s.leases[handle].attempt == 1 + Retries(h.links, s.leases[handle].id)
      ensures s.leases[handle].attempt <= Max(1, s.leases[handle].task.retryPolicy.maxAttempts)
    {
      assert LeaseCounted(h, s.leases[handle]) && LeaseOk(s, s.leases[handle]);
    }
  }

  /**
   After any run, retrying a delivery publishes it among the dead letters if and only if
   its attempts are used up, counted by the history; otherwise one retry more, in the
   stream or among the delayed retries with the time it is due.
   */
  lemma RetryLimitIff(actions: seq<Action>, c: nat, handle: nat, delayMs: nat, now: nat)
    requires Possible(INITIAL, actions) && Enabled(Run(INITIAL, actions), StartRetry(c, handle, delayMs))
    ensures var s, h := Run(INITIAL, actions), HistoryOf(INITIAL, NOTHING, actions);
      var lease := s.leases[handle];
      var s' := Command(Step(s, StartRetry(c, handle, delayMs)), c, now);
      && s.nextId in s'.copies && s'.copies[s.nextId].task == lease.task
      && if 1 + Retries(h.links, lease.id) >= lease.task.retryPolicy.maxAttempts
         then s'.copies[s.nextId].place.Dead? && s'.copies[s.nextId].attempt == 1 + Retries(h.links, lease.id)
         else s'.copies[s.nextId].place == (if delayMs == 0 then Undelivered else Delayed(now + delayMs))
              && s'.copies[s.nextId].attempt == 2 + Retries(h.links, lease.id)
  {
    Reached(actions);
    assert LeaseCounted(HistoryOf(INITIAL, NOTHING, actions), Run(INITIAL, actions).leases[handle]);
  }

  /** After any run, rejecting a delivery publishes it among the dead letters as it is. */
  lemma RejectBuries(actions: seq<Action>, c: nat, handle: nat, now: nat)
    requires Possible(INITIAL, actions) && Enabled(Run(INITIAL, actions), StartReject(c, handle))
    ensures var s, h := Run(INITIAL, actions), HistoryOf(INITIAL, NOTHING, actions);
      var lease := s.leases[handle];
      var s' := Command(Step(s, StartReject(c, handle)), c, now);
      && s.nextId in s'.copies && s'.copies[s.nextId].task == lease.task && s'.copies[s.nextId].place.Dead?
      && s'.copies[s.nextId].attempt == 1 + Retries(h.links, lease.id)
      && s'.clients[c] == Acking(lease.id, false)
  {
    Reached(actions);
    assert LeaseCounted(HistoryOf(INITIAL, NOTHING, actions), Run(INITIAL, actions).leases[handle]);
  }

  ghost predicate Exhausted(s: State) {
    && (forall id :: At(s, id, Dead) ==> s.copies[id].attempt >= s.copies[id].task.retryPolicy.maxAttempts)
    && (forall c :: c in s.clients && s.clients[c].Burying? ==>
          s.clients[c].lease.attempt >= s.clients[c].lease.task.retryPolicy.maxAttempts)
  }

  lemma PublishExhausted(s: State, c: nat, now: nat)
    requires Inv(s) && c in s.clients && Exhausted(s)
    requires s.clients[c].Retrying? || s.clients[c].Burying? || s.clients[c].Replaying?
    ensures Exhausted(Command(s, c, now))
  {
    PublishIs(s, c, now);
  }

  lemma CommandExhausted(s: State, c: nat, now: nat)
    requires Inv(s) && c in s.clients && Exhausted(s)
    ensures Exhausted(Command(s, c, now))
  {
    if s.clients[c].Retrying? || s.clients[c].Burying? || s.clients[c].Replaying? {
      PublishExhausted(s, c, now);
    }
  }

  lemma StepExhausted(s: State, a: Action)
    requires Inv(s) && Enabled(s, a) && !a.StartReject? && Exhausted(s)
    ensures Exhausted(Step(s, a))
  {
    if a.Continue? {
      CommandExhausted(s, a.client, a.now);
    }
  }

  lemma {:induction false} RunExhausted(s: State, actions: seq<Action>)
    requires Inv(s) && Possible(s, actions) && Exhausted(s)
    requires forall i :: 0 <= i < |actions| ==> !actions[i].StartReject?
    ensures Exhausted(Run(s, actions))
    decreases |actions|
  {
    if actions != [] {
      StepKeepsInv(s, actions[0]);
      StepExhausted(s, actions[0]);
      RunExhausted(Step(s, actions[0]), actions[1..]);
    }
  }

  /** Unless somebody rejects deliveries, every dead letter has used exactly the attempts it was allowed. */
  lemma BuriedOnlyExhausted(actions: seq<Action>, id: nat)
    requires Possible(INITIAL, actions) && forall i :: 0 <= i < |actions| ==> !actions[i].StartReject?
    requires At(Run(INITIAL, actions), id, Dead)
    ensures 1 + Retries(HistoryOf(INITIAL, NOTHING, actions).links, id)
         == Max(1, Run(INITIAL, actions).copies[id].task.retryPolicy.maxAttempts)
  {
    AttemptsAreRetries(actions);
    RunExhausted(INITIAL, actions);
  }

  /**
   Whatever has been read from the stream is not itself a delayed retry, and if it was
   promoted from one, that one was taken out of the sorted set no sooner than it was due.
   */
  lemma NeverEarly(actions: seq<Action>, id: nat)
    requires Possible(INITIAL, actions) && id in Run(INITIAL, actions).copies
    requires var place := Run(INITIAL, actions).copies[id].place;
      place.Undelivered? || place.Pending? || place.Settled?
    ensures var h := HistoryOf(INITIAL, NOTHING, actions);
      && id < |h.links|
      && (h.links[id].Retried? ==> h.links[id].dueAt.None?)
      && (h.links[id].Promoted? ==>
            var delayed := h.links[id].of;
            delayed in h.promotedAt && delayed < |h.links| && h.links[delayed].Retried?
            && h.links[delayed].dueAt.Some? && h.promotedAt[delayed] >= h.links[delayed].dueAt.value)
  {
    Reached(actions);
    var s, h := Run(INITIAL, actions), HistoryOf(INITIAL, NOTHING, actions);
    assert CopyCounted(h, id, s.copies[id]);
    if h.links[id].Promoted? {
      assert TakenOutInTime(h, h.links[id].of);
    }
  }

  /** Entries of one route are first read in the order they were published, each once. */
  lemma ServedInOrder(actions: seq<Action>, i: nat, j: nat)
    requires Possible(INITIAL, actions)
    requires i < j < |HistoryOf(INITIAL, NOTHING, actions).reserved|
    ensures var h := HistoryOf(INITIAL, NOTHING, actions);
      && h.reserved[i] < |h.routes| && h.reserved[j] < |h.routes|
      && (h.routes[h.reserved[i]] == h.routes[h.reserved[j]] ==> h.reserved[i] < h.reserved[j])
  {
    Reached(actions);
    var h := HistoryOf(INITIAL, NOTHING, actions);
    assert Ascends(h, h.reserved[i], h.reserved[j]);
  }

  /** Nothing is acknowledged that no worker meant to acknowledge: retries and rejections acknowledge nothing. */
  lemma AckedOnlyByWorkers(actions: seq<Action>)
    requires Possible(INITIAL, actions)
    ensures Run(INITIAL, actions).acked <= HistoryOf(INITIAL, NOTHING, actions).completed
  {
    Reached(actions);
  }
}
