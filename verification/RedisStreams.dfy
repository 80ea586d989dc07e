/** The Redis Streams protocol as commands over an abstract store. */
module RedisStreams {
  import opened Prelude
  import opened TaskQueue

  /** Where a copy of a published task is: in the stream, among the delayed retries or the dead letters. */
  datatype Place =
    | Undelivered   // in the stream, not yet read by the consumer group
    | Pending       // in the stream and in the group's pending list
    | Settled       // acknowledged; the stream entry is still to be deleted
    | Delayed(dueAt: nat)   // in the sorted set of delayed retries, with its score
    | Promoting     // taken out of the sorted set, not yet back in the stream
    | Dead          // in the dead-letter stream

  /** `origin` identifies the enqueue a copy descends from. */
  datatype Copy = Copy(task: Task, attempt: nat, origin: nat, place: Place)

  datatype Lease = Lease(id: nat, task: Task, attempt: nat, origin: nat)

  /**
   The next command of a client. Each operation of the adapter is a client that issues one
   command at a time; between any two commands other clients may run, and the client may
   crash. A lease it works on is no longer registered.
   */
  datatype Client =
    | Retrying(lease: Lease, delayMs: nat)
    | Burying(lease: Lease)
    | Acking(id: nat, completed: bool)
    | Deleting(id: nat)
    | Replaying(id: nat, task: Task, origin: nat)
    | Unburying(id: nat)

  datatype State = State(
    copies: map<nat, Copy>,
    nextId: nat,
    leases: map<nat, Lease>,
    clients: map<nat, Client>,
    published: seq<Task>,   // by origin
    acked: set<nat>)        // origins whose delivery a worker acknowledged

  const INITIAL := State(map[], 0, map[], map[], [], {})

  datatype Action =
    | Enqueue(task: Task)
    | Reserve(id: nat, handle: nat)
    | Reclaim(id: nat, handle: nat)
    | PromoteRemove(id: nat, now: nat)
    | PromoteAdd(id: nat)
    | StartAck(client: nat, handle: nat)
    | StartRetry(client: nat, handle: nat, delayMs: nat)
    | StartReject(client: nat, handle: nat)
    | StartReplay(client: nat, id: nat)
    | Continue(client: nat, now: nat)
    | CrashClient(client: nat)
    | CrashLease(handle: nat)
    | CrashPromotion(id: nat)

  predicate At(s: State, id: nat, place: Place) {
    id in s.copies && s.copies[id].place == place
  }

  ghost predicate Enabled(s: State, a: Action) {
    match a
    case Enqueue(_) => true
    case Reserve(id, _) =>
      At(s, id, Undelivered)
      && forall older: nat :: older < id && At(s, older, Undelivered) ==>
           RouteOf(s.copies[older].task) != RouteOf(s.copies[id].task)
    case Reclaim(id, _) => At(s, id, Pending)
    case PromoteRemove(id, now) =>
      id in s.copies && s.copies[id].place.Delayed? && s.copies[id].place.dueAt <= now
    case PromoteAdd(id) => At(s, id, Promoting)
    case StartAck(c, handle) => c !in s.clients && handle in s.leases
    case StartRetry(c, handle, _) => c !in s.clients && handle in s.leases
    case StartReject(c, handle) => c !in s.clients && handle in s.leases
    case StartReplay(c, id) => c !in s.clients && At(s, id, Dead)
    case Continue(c, _) => c in s.clients
    case CrashClient(c) => c in s.clients
    case CrashLease(handle) => handle in s.leases
    case CrashPromotion(id) => At(s, id, Promoting)
  }

  /** A new entry: XADD, ZADD. */
  function Add(s: State, copy: Copy): State {
    s.(copies := s.copies[s.nextId := copy], nextId := s.nextId + 1)
  }

  function MoveTo(s: State, id: nat, place: Place): State
    requires id in s.copies
  {
    s.(copies := s.copies[id := s.copies[id].(place := place)])
  }

  function Remove(s: State, id: nat): State {
    s.(copies := s.copies - {id})
  }

  function LeaseOf(s: State, id: nat): Lease
    requires id in s.copies
  {
    Lease(id, s.copies[id].task, s.copies[id].attempt, s.copies[id].origin)
  }

  function CopyOf(lease: Lease, attempt: nat, place: Place): Copy {
    Copy(lease.task, attempt, lease.origin, place)
  }

  /** The client takes over a lease and goes to its next command. */
  function TakeLease(s: State, client: nat, handle: nat, next: Client): State {
    s.(leases := s.leases - {handle}, clients := s.clients[client := next])
  }

  /** A retry without a delay goes straight to the stream. */
  function RetryPlace(delayMs: nat, now: nat): Place {
    if delayMs == 0 then Undelivered else Delayed(now + delayMs)
  }

  function Command(s: State, c: nat, now: nat): State
    requires c in s.clients
  {
    match s.clients[c]
    case Retrying(lease, delayMs) =>
      Add(s, CopyOf(lease, lease.attempt + 1, RetryPlace(delayMs, now)))
        .(clients := s.clients[c := Acking(lease.id, false)])
    case Burying(lease) =>
      Add(s, CopyOf(lease, lease.attempt, Dead)).(clients := s.clients[c := Acking(lease.id, false)])
    case Acking(id, completed) =>
      // XACK has an effect only on a pending entry.
      if At(s, id, Pending) then
        MoveTo(s, id, Settled).(
          acked := if completed then s.acked + {s.copies[id].origin} else s.acked,
          clients := s.clients[c := Deleting(id)])
      else s.(clients := s.clients[c := Deleting(id)])
    case Deleting(id) =>
      // XDEL on the stream reaches stream entries only, whoever may still hold them.
      (if At(s, id, Undelivered) || At(s, id, Pending) || At(s, id, Settled) then Remove(s, id) else s)
        .(clients := s.clients - {c})
    case Replaying(id, task, origin) =>
      Add(s, Copy(task, 1, origin, Undelivered)).(clients := s.clients[c := Unburying(id)])
    case Unburying(id) => (if At(s, id, Dead) then Remove(s, id) else s).(clients := s.clients - {c})
  }

  function Step(s: State, a: Action): State
    requires Enabled(s, a)
  {
    match a
    case Enqueue(task) =>
      Add(s, Copy(task, 1, |s.published|, Undelivered)).(published := s.published + [task])
    case Reserve(id, handle) => MoveTo(s, id, Pending).(leases := s.leases[handle := LeaseOf(s, id)])
    case Reclaim(id, handle) => s.(leases := s.leases[handle := LeaseOf(s, id)])
    case PromoteRemove(id, _) => MoveTo(s, id, Promoting)
    case PromoteAdd(id) =>
      var added := Add(s, s.copies[id].(place := Undelivered));
      added.(copies := added.copies - {id})
    case StartAck(c, handle) => TakeLease(s, c, handle, Acking(s.leases[handle].id, true))
    case StartRetry(c, handle, delayMs) =>
      var lease := s.leases[handle];
      TakeLease(s, c, handle,
        if lease.attempt >= lease.task.retryPolicy.maxAttempts then Burying(lease) else Retrying(lease, delayMs))
    case StartReject(c, handle) => TakeLease(s, c, handle, Burying(s.leases[handle]))
    case StartReplay(c, id) =>
      s.(clients := s.clients[c := Replaying(id, s.copies[id].task, s.copies[id].origin)])
    case Continue(c, now) => Command(s, c, now)
    case CrashClient(c) => s.(clients := s.clients - {c})
    case CrashLease(handle) => s.(leases := s.leases - {handle})
    case CrashPromotion(id) => Remove(s, id)
  }

  ghost predicate Possible(s: State, actions: seq<Action>)
    decreases |actions|
  {
    actions == [] || (Enabled(s, actions[0]) && Possible(Step(s, actions[0]), actions[1..]))
  }

  ghost function Run(s: State, actions: seq<Action>): State
    requires Possible(s, actions)
    decreases |actions|
  {
    if actions == [] then s else Run(Step(s, actions[0]), actions[1..])
  }

  // ---------- what every command keeps ----------

  predicate CopyOk(s: State, copy: Copy) {
    copy.origin < |s.published| && copy.task == s.published[copy.origin]
    && 1 <= copy.attempt <= Max(1, copy.task.retryPolicy.maxAttempts)
  }

  /** Once an entry has been delivered it is pending or settled until it is deleted. */
  predicate Delivered(s: State, id: nat) {
    id < s.nextId && (id in s.copies ==> s.copies[id].place.Pending? || s.copies[id].place.Settled?)
  }

  predicate LeaseOk(s: State, lease: Lease) {
    && Delivered(s, lease.id)
    && (lease.id in s.copies ==> LeaseOf(s, lease.id) == lease)
    && CopyOk(s, CopyOf(lease, lease.attempt, Pending))
  }

  predicate ClientOk(s: State, client: Client) {
    match client
    case Retrying(lease, _) => LeaseOk(s, lease) && lease.attempt < lease.task.retryPolicy.maxAttempts
    case Burying(lease) => LeaseOk(s, lease)
    case Acking(id, _) => Delivered(s, id)
    case Deleting(id) => id < s.nextId && (id in s.copies ==> s.copies[id].place.Settled?)
    case Replaying(id, task, origin) =>
      id < s.nextId && CopyOk(s, Copy(task, 1, origin, Dead))
      && (id in s.copies ==> s.copies[id].place.Dead? && s.copies[id].origin == origin)
    case Unburying(id) => id < s.nextId && (id in s.copies ==> s.copies[id].place.Dead?)
  }

  ghost predicate Inv(s: State) {
    && (forall id :: id in s.copies ==> id < s.nextId && CopyOk(s, s.copies[id]))
    && (forall handle :: handle in s.leases ==> LeaseOk(s, s.leases[handle]))
    && (forall c :: c in s.clients ==> ClientOk(s, s.clients[c]))
  }

  /** The places a copy can go to without becoming another copy. */
  predicate Advances(from: Place, to: Place) {
    || from == to
    || (from.Undelivered? && to.Pending?)
    || (from.Pending? && to.Settled?)
    || (from.Delayed? && to.Promoting?)
  }

  /** How s' may differ from s without disturbing the facts about clients and leases. */
  ghost predicate Evolves(s: State, s': State) {
    && s.nextId <= s'.nextId
    && s.published <= s'.published
    && forall id :: id in s'.copies && id < s.nextId ==>
         id in s.copies && s'.copies[id] == s.copies[id].(place := s'.copies[id].place)
         && Advances(s.copies[id].place, s'.copies[id].place)
  }

  lemma EvolvesKeeps(s: State, s': State)
    requires Evolves(s, s')
    ensures forall copy :: CopyOk(s, copy) ==> CopyOk(s', copy)
    ensures forall lease :: LeaseOk(s, lease) ==> LeaseOk(s', lease)
    ensures forall client :: ClientOk(s, client) ==> ClientOk(s', client)
  {
    forall client | ClientOk(s, client) ensures ClientOk(s', client) {
    }
  }

  /** A step that only evolves the copies. */
  lemma CopiesKeep(s: State, s': State)
    requires Inv(s) && Evolves(s, s') && s'.leases == s.leases && s'.clients == s.clients
    requires forall id :: id in s'.copies ==> id < s'.nextId && (id < s.nextId || CopyOk(s', s'.copies[id]))
    ensures Inv(s')
  {
    EvolvesKeeps(s, s');
  }

  lemma LeaseKeeps(s: State, id: nat, handle: nat)
    requires Inv(s) && At(s, id, Pending)
    ensures Inv(s.(leases := s.leases[handle := LeaseOf(s, id)]))
  {
    var s' := s.(leases := s.leases[handle := LeaseOf(s, id)]);
    assert CopyOk(s, s.copies[id]);
    EvolvesKeeps(s, s');
  }

  /** Leases and clients may go at any time. */
  lemma FewerKeeps(s: State, s': State)
    requires Inv(s) && s' == s.(leases := s'.leases, clients := s'.clients)
    requires forall handle :: handle in s'.leases ==> handle in s.leases && s'.leases[handle] == s.leases[handle]
    requires forall c :: c in s'.clients ==> c in s.clients && s'.clients[c] == s.clients[c]
    ensures Inv(s')
  {
    EvolvesKeeps(s, s');
  }

  lemma SetClientKeeps(s: State, c: nat, client: Client)
    requires Inv(s) && ClientOk(s, client)
    ensures Inv(s.(clients := s.clients[c := client]))
  {
    EvolvesKeeps(s, s.(clients := s.clients[c := client]));
  }

  lemma TakeLeaseKeeps(s: State, client: nat, handle: nat, next: Client)
    requires Inv(s) && handle in s.leases && ClientOk(s, next)
    ensures Inv(TakeLease(s, client, handle, next))
  {
    var started := s.(clients := s.clients[client := next]);
    SetClientKeeps(s, client, next);
    FewerKeeps(started, TakeLease(s, client, handle, next));
  }

  /** Starting a client, and crashing one, changes no copy. */
  lemma ClientKeeps(s: State, a: Action)
    requires Inv(s) && Enabled(s, a)
    requires a.StartAck? || a.StartRetry? || a.StartReject? || a.StartReplay? || a.CrashClient? || a.CrashLease?
    ensures Inv(Step(s, a))
  {
    match a
    case StartAck(c, handle) =>
      assert LeaseOk(s, s.leases[handle]);
      TakeLeaseKeeps(s, c, handle, Acking(s.leases[handle].id, true));
    case StartRetry(c, handle, delayMs) =>
      assert LeaseOk(s, s.leases[handle]);
      TakeLeaseKeeps(s, c, handle, Step(s, a).clients[c]);
    case StartReject(c, handle) =>
      assert LeaseOk(s, s.leases[handle]);
      TakeLeaseKeeps(s, c, handle, Burying(s.leases[handle]));
    case StartReplay(c, id) =>
      assert CopyOk(s, s.copies[id]);
      SetClientKeeps(s, c, Replaying(id, s.copies[id].task, s.copies[id].origin));
    case CrashClient(_) => FewerKeeps(s, Step(s, a));
    case CrashLease(_) => FewerKeeps(s, Step(s, a));
  }

  lemma AddKeeps(s: State, copy: Copy)
    requires Inv(s) && CopyOk(s, copy)
    ensures Inv(Add(s, copy))
  {
    CopiesKeep(s, Add(s, copy));
  }

  lemma EnqueueKeeps(s: State, task: Task)
    requires Inv(s)
    ensures Inv(Step(s, Enqueue(task)))
  {
    CopiesKeep(s, Step(s, Enqueue(task)));
  }

  /** The copy a client is about to publish, and what it does after that. */
  function Published(client: Client, now: nat): (Copy, Client)
    requires client.Retrying? || client.Burying? || client.Replaying?
  {
    match client
    case Retrying(lease, delayMs) =>
      (CopyOf(lease, lease.attempt + 1, RetryPlace(delayMs, now)), Acking(lease.id, false))
    case Burying(lease) => (CopyOf(lease, lease.attempt, Dead), Acking(lease.id, false))
    case Replaying(id, task, origin) => (Copy(task, 1, origin, Undelivered), Unburying(id))
  }

  lemma PublishedOk(s: State, client: Client, now: nat)
    requires ClientOk(s, client) && (client.Retrying? || client.Burying? || client.Replaying?)
    ensures CopyOk(s, Published(client, now).0) && ClientOk(s, Published(client, now).1)
  {
  }

  lemma PublishKeeps(s: State, c: nat, now: nat)
    requires Inv(s) && c in s.clients
    requires s.clients[c].Retrying? || s.clients[c].Burying? || s.clients[c].Replaying?
    ensures Inv(Command(s, c, now))
  {
    var (copy, next) := Published(s.clients[c], now);
    PublishedOk(s, s.clients[c], now);
    AddKeeps(s, copy);
    EvolvesKeeps(s, Add(s, copy));
    SetClientKeeps(Add(s, copy), c, next);
  }

  lemma AckKeeps(s: State, c: nat, now: nat)
    requires Inv(s) && c in s.clients && s.clients[c].Acking?
    ensures Inv(Command(s, c, now))
  {
    var id := s.clients[c].id;
    assert ClientOk(s, s.clients[c]);
    if At(s, id, Pending) {
      var settled := MoveTo(s, id, Settled).(acked := Command(s, c, now).acked);
      CopiesKeep(s, settled);
      SetClientKeeps(settled, c, Deleting(id));
    } else {
      SetClientKeeps(s, c, Deleting(id));
    }
  }

  lemma RemoveKeeps(s: State, id: nat)
    requires Inv(s)
    ensures Inv(Remove(s, id))
  {
    CopiesKeep(s, Remove(s, id));
  }

  lemma LastCommandKeeps(s: State, c: nat, now: nat)
    requires Inv(s) && c in s.clients && (s.clients[c].Deleting? || s.clients[c].Unburying?)
    ensures Inv(Command(s, c, now))
  {
    var done := s.(clients := s.clients - {c});
    FewerKeeps(s, done);
    RemoveKeeps(done, s.clients[c].id);
  }

  lemma PromoteAddKeeps(s: State, id: nat)
    requires Inv(s) && At(s, id, Promoting)
    ensures Inv(Step(s, PromoteAdd(id)))
  {
    var copy := s.copies[id].(place := Undelivered);
    AddKeeps(s, copy);
    RemoveKeeps(Add(s, copy), id);
  }

  lemma CommandKeeps(s: State, c: nat, now: nat)
    requires Inv(s) && c in s.clients
    ensures Inv(Command(s, c, now))
  {
    match s.clients[c]
    case Acking(_, _) => AckKeeps(s, c, now);
    case Deleting(_) => LastCommandKeeps(s, c, now);
    case Unburying(_) => LastCommandKeeps(s, c, now);
    case _ => PublishKeeps(s, c, now);
  }

  lemma MoveKeeps(s: State, id: nat, place: Place)
    requires Inv(s) && id in s.copies && Advances(s.copies[id].place, place)
    ensures Inv(MoveTo(s, id, place))
  {
    CopiesKeep(s, MoveTo(s, id, place));
  }

  lemma ReserveKeeps(s: State, id: nat, handle: nat)
    requires Inv(s) && At(s, id, Undelivered)
    ensures Inv(MoveTo(s, id, Pending).(leases := s.leases[handle := LeaseOf(s, id)]))
  {
    MoveKeeps(s, id, Pending);
    LeaseKeeps(MoveTo(s, id, Pending), id, handle);
  }

  lemma StepKeepsInv(s: State, a: Action)
    requires Inv(s) && Enabled(s, a)
    ensures Inv(Step(s, a))
  {
    match a
    case Enqueue(task) => EnqueueKeeps(s, task);
    case PromoteAdd(id) => PromoteAddKeeps(s, id);
    case CrashPromotion(id) => RemoveKeeps(s, id);
    case Continue(c, now) => CommandKeeps(s, c, now);
    case Reserve(id, handle) => ReserveKeeps(s, id, handle);
    case Reclaim(id, handle) => LeaseKeeps(s, id, handle);
    case PromoteRemove(id, _) => MoveKeeps(s, id, Promoting);
    case _ => ClientKeeps(s, a);
  }

  lemma {:induction false} RunKeepsInv(s: State, actions: seq<Action>)
    requires Inv(s) && Possible(s, actions)
    ensures Inv(Run(s, actions))
    decreases |actions|
  {
    if actions != [] {
      StepKeepsInv(s, actions[0]);
      RunKeepsInv(Step(s, actions[0]), actions[1..]);
    }
  }

  // ---------- no task is lost ----------

  /** The task can still reach a worker, or an operator, from this copy. */
  predicate Live(s: State, id: nat, origin: nat) {
    id in s.copies && s.copies[id].origin == origin && !s.copies[id].place.Settled?
  }

  /** A client has published a replacement of this copy and is about to remove it. */
  ghost predicate Replaced(s: State, id: nat) {
    exists c :: c in s.clients && Replaces(s.clients[c], id)
  }

  predicate Replaces(client: Client, id: nat) {
    client == Acking(id, false) || client == Unburying(id)
  }

  predicate Lost(s: State, origin: nat) {
    origin !in s.acked && forall id :: id in s.copies ==> !Live(s, id, origin)
  }

  /** Acknowledged, or alive in a copy that nobody is about to remove. */
  ghost predicate Safe(s: State, origin: nat) {
    origin in s.acked || exists id: nat :: Live(s, id, origin) && !Replaced(s, id)
  }

  /** A crashed promotion of this copy leaves its task another such copy, or finds it acknowledged. */
  ghost predicate Spared(s: State, id: nat, origin: nat) {
    origin in s.acked || exists other: nat :: other != id && Live(s, other, origin) && !Replaced(s, other)
  }

  /** A safe copy that stays live and gains no client about to remove it. */
  lemma StaysSafe(s: State, s': State, origin: nat, id: nat)
    requires Live(s, id, origin) && !Replaced(s, id) && Live(s', id, origin)
    requires forall c :: c in s'.clients && Replaces(s'.clients[c], id) ==>
      c in s.clients && s'.clients[c] == s.clients[c]
    ensures Safe(s', origin)
  {
    forall c | c in s'.clients ensures !Replaces(s'.clients[c], id) {
      if c in s.clients && s'.clients[c] == s.clients[c] {
        assert !Replaces(s.clients[c], id);
      }
    }
  }

  /** A copy under an id that was not yet given out is nobody's to remove. */
  lemma NewIsSafe(s: State, s': State, origin: nat)
    requires Inv(s) && Live(s', s.nextId, origin)
    requires forall c :: c in s'.clients && Replaces(s'.clients[c], s.nextId) ==>
      c in s.clients && s'.clients[c] == s.clients[c]
    ensures Safe(s', origin)
  {
    forall c | c in s'.clients ensures !Replaces(s'.clients[c], s.nextId) {
      if c in s.clients && s'.clients[c] == s.clients[c] {
        assert ClientOk(s, s.clients[c]);
      }
    }
  }

  lemma PublishKeepsSafe(s: State, c: nat, now: nat, origin: nat, id: nat)
    requires Inv(s) && c in s.clients && Live(s, id, origin) && !Replaced(s, id)
    requires s.clients[c].Retrying? || s.clients[c].Burying? || s.clients[c].Replaying?
    ensures Safe(Command(s, c, now), origin)
  {
    var (copy, next) := Published(s.clients[c], now);
    assert ClientOk(s, s.clients[c]) && id < s.nextId;
    PublishIs(s, c, now);
    if Replaces(next, id) {
      NewIsSafe(s, Command(s, c, now), origin);
    } else {
      StaysSafe(s, Command(s, c, now), origin, id);
    }
  }

  lemma PublishIs(s: State, c: nat, now: nat)
    requires c in s.clients && (s.clients[c].Retrying? || s.clients[c].Burying? || s.clients[c].Replaying?)
    ensures Command(s, c, now)
         == Add(s, Published(s.clients[c], now).0).(clients := s.clients[c := Published(s.clients[c], now).1])
  {
  }

  lemma CommandKeepsSafe(s: State, c: nat, now: nat, origin: nat, id: nat)
    requires Inv(s) && c in s.clients && Live(s, id, origin) && !Replaced(s, id)
    ensures Safe(Command(s, c, now), origin)
  {
    var s', client := Command(s, c, now), s.clients[c];
    assert ClientOk(s, client) && !Replaces(client, id);
    match client {
      case Acking(acked, completed) =>
        if !(completed && acked == id && At(s, id, Pending)) {
          StaysSafe(s, s', origin, id);
        }
      case Deleting(_) => StaysSafe(s, s', origin, id);
      case Unburying(_) => StaysSafe(s, s', origin, id);
      case _ => PublishKeepsSafe(s, c, now, origin, id);
    }
  }

  /** Starting a client only takes over a lease or reads a dead letter. */
  lemma StartKeepsSafe(s: State, a: Action, origin: nat, id: nat)
    requires Enabled(s, a) && Live(s, id, origin) && !Replaced(s, id)
    requires a.StartAck? || a.StartRetry? || a.StartReject? || a.StartReplay?
    ensures Safe(Step(s, a), origin)
  {
    var s' := Step(s, a);
    assert s'.clients == s.clients[a.client := s'.clients[a.client]] && !Replaces(s'.clients[a.client], id);
    StaysSafe(s, s', origin, id);
  }

  lemma MoveKeepsSafe(s: State, a: Action, origin: nat, id: nat)
    requires Enabled(s, a) && Live(s, id, origin) && !Replaced(s, id)
    requires a.Reserve? || a.Reclaim? || a.PromoteRemove?
    ensures Safe(Step(s, a), origin)
  {
    StaysSafe(s, Step(s, a), origin, id);
  }

  lemma OthersKeepSafe(s: State, a: Action, origin: nat, id: nat)
    requires Inv(s) && Enabled(s, a) && Live(s, id, origin) && !Replaced(s, id)
    requires a.Enqueue? || a.CrashClient? || a.CrashLease?
    ensures Safe(Step(s, a), origin)
  {
    StaysSafe(s, Step(s, a), origin, id);
  }

  lemma PromotionKeepsSafe(s: State, moved: nat, origin: nat, id: nat)
    requires Inv(s) && At(s, moved, Promoting) && Live(s, id, origin) && !Replaced(s, id)
    ensures Safe(Step(s, PromoteAdd(moved)), origin)
  {
    var s' := Step(s, PromoteAdd(moved));
    if moved == id {
      NewIsSafe(s, s', origin);
    } else {
      StaysSafe(s, s', origin, id);
    }
  }

  /** Every step but a crashed promotion keeps a task safe. */
  lemma StepKeepsSafe(s: State, a: Action, origin: nat)
    requires Inv(s) && Enabled(s, a) && Safe(s, origin) && !a.CrashPromotion?
    ensures Safe(Step(s, a), origin)
  {
    if origin in s.acked {
      AckedStays(s, a, origin);
    } else {
      var id: nat :| Live(s, id, origin) && !Replaced(s, id);
      CopyKeepsSafe(s, a, origin, id);
    }
  }

  lemma AckedStays(s: State, a: Action, origin: nat)
    requires Enabled(s, a) && origin in s.acked
    ensures origin in Step(s, a).acked
  {
  }

  lemma CopyKeepsSafe(s: State, a: Action, origin: nat, id: nat)
    requires Inv(s) && Enabled(s, a) && !a.CrashPromotion? && Live(s, id, origin) && !Replaced(s, id)
    ensures Safe(Step(s, a), origin)
  {
    match a
    case Continue(c, now) => CommandKeepsSafe(s, c, now, origin, id);
    case PromoteAdd(moved) => PromotionKeepsSafe(s, moved, origin, id);
    case Enqueue(_) => OthersKeepSafe(s, a, origin, id);
    case CrashClient(_) => OthersKeepSafe(s, a, origin, id);
    case CrashLease(_) => OthersKeepSafe(s, a, origin, id);
    case Reserve(_, _) => MoveKeepsSafe(s, a, origin, id);
    case Reclaim(_, _) => MoveKeepsSafe(s, a, origin, id);
    case PromoteRemove(_, _) => MoveKeepsSafe(s, a, origin, id);
    case _ => StartKeepsSafe(s, a, origin, id);
  }

  /** A crashed promotion keeps its task safe if and only if the task is spared. */
  lemma CrashKeepsSafeIff(s: State, id: nat, origin: nat)
    requires At(s, id, Promoting)
    ensures Safe(Step(s, CrashPromotion(id)), origin) <==> Spared(s, id, origin)
  {
    var s' := Step(s, CrashPromotion(id));
    assert forall other: nat :: Replaced(s', other) <==> Replaced(s, other);
    assert forall other: nat :: Live(s', other, origin) <==> other != id && Live(s, other, origin);
  }

  /** Every crashed promotion of the run spares the task. */
  ghost predicate AlwaysSpared(s: State, actions: seq<Action>, origin: nat)
    requires Possible(s, actions)
    decreases |actions|
  {
    actions == []
    || ((actions[0].CrashPromotion? && Safe(s, origin) ==> Spared(s, actions[0].id, origin))
        && AlwaysSpared(Step(s, actions[0]), actions[1..], origin))
  }

  lemma EnqueuedIsSafe(s: State, task: Task)
    requires Inv(s)
    ensures Safe(Step(s, Enqueue(task)), |s.published|)
  {
    NewIsSafe(s, Step(s, Enqueue(task)), |s.published|);
  }

  lemma {:induction false} RunKeepsSafe(s: State, actions: seq<Action>, origin: nat)
    requires Inv(s) && Possible(s, actions) && AlwaysSpared(s, actions, origin)
    requires Safe(s, origin) || (|s.published| <= origin < |Run(s, actions).published|)
    ensures Safe(Run(s, actions), origin)
    decreases |actions|
  {
    if actions != [] {
      var a := actions[0];
      StepKeepsInv(s, a);
      if Safe(s, origin) {
        if a.CrashPromotion? {
          CrashKeepsSafeIff(s, a.id, origin);
        } else {
          StepKeepsSafe(s, a, origin);
        }
      } else if a.Enqueue? && origin == |s.published| {
        EnqueuedIsSafe(s, a.task);
      }
      RunKeepsSafe(Step(s, a), actions[1..], origin);
    }
  }

  /**
   At least once. In any run of commands, crashes and reclaims in which every crashed
   promotion finds the task acknowledged or with another copy nobody is about to remove,
   every published task is acknowledged, or still has a copy undelivered, pending, delayed,
   in promotion or dead-lettered. Every copy carries a published task at an allowed attempt.
   */
  lemma AtLeastOnce(actions: seq<Action>, origin: nat)
    requires Possible(INITIAL, actions) && origin < |Run(INITIAL, actions).published|
    ensures var s := Run(INITIAL, actions);
      && (AlwaysSpared(INITIAL, actions, origin) ==> Safe(s, origin) && !Lost(s, origin))
      && (forall id :: id in s.copies ==> CopyOk(s, s.copies[id]))
  {
    RunKeepsInv(INITIAL, actions);
    if AlwaysSpared(INITIAL, actions, origin) {
      RunKeepsSafe(INITIAL, actions, origin);
    }
  }

  /** Without crashed promotions there is nothing to be spared from. */
  lemma {:induction false} NoCrashSpares(s: State, actions: seq<Action>, origin: nat)
    requires Possible(s, actions) && forall i :: 0 <= i < |actions| ==> !actions[i].CrashPromotion?
    ensures AlwaysSpared(s, actions, origin)
    decreases |actions|
  {
    if actions != [] {
      NoCrashSpares(Step(s, actions[0]), actions[1..], origin);
    }
  }

  // ---------- exactly when a task can be lost ----------

  ghost function LiveCopies(s: State, origin: nat): set<nat> {
    set id | id in s.copies && Live(s, id, origin)
  }

  /** Not acknowledged, and every live copy is about to be removed. */
  ghost predicate Doomed(s: State, origin: nat) {
    origin !in s.acked && forall id :: id in LiveCopies(s, origin) ==> Replaced(s, id)
  }

  lemma NotSafeIsDoomed(s: State, origin: nat)
    requires !Safe(s, origin)
    ensures Doomed(s, origin)
  {
  }

  lemma NoCopiesIsLost(s: State, origin: nat)
    requires Doomed(s, origin) && LiveCopies(s, origin) == {}
    ensures Lost(s, origin)
  {
    assert forall id :: id in s.copies && Live(s, id, origin) ==> id in LiveCopies(s, origin);
  }

  /** The client that is about to remove a copy removes it, and every other copy keeps its remover. */
  lemma RemoverRemoves(s: State, origin: nat, id: nat, c: nat, now: nat)
    requires Inv(s) && Doomed(s, origin) && Live(s, id, origin) && c in s.clients && Replaces(s.clients[c], id)
    ensures Doomed(Command(s, c, now), origin)
    ensures LiveCopies(Command(s, c, now), origin) == LiveCopies(s, origin) - {id}
  {
    var s' := Command(s, c, now);
    assert ClientOk(s, s.clients[c]);
    assert LiveCopies(s', origin) == LiveCopies(s, origin) - {id};
    forall other | other in LiveCopies(s', origin) ensures Replaced(s', other) {
      RemoverStays(s, c, now, id, other);
    }
  }

  lemma RemoverStays(s: State, c: nat, now: nat, id: nat, other: nat)
    requires c in s.clients && Replaces(s.clients[c], id) && other != id && Replaced(s, other)
    ensures Replaced(Command(s, c, now), other)
  {
    var d :| d in s.clients && Replaces(s.clients[d], other);
    var s' := Command(s, c, now);
    assert d != c && d in s'.clients && s'.clients[d] == s.clients[d];
  }

  ghost predicate OnlyCommands(actions: seq<Action>) {
    forall i :: 0 <= i < |actions| ==> actions[i].Continue?
  }

  /** If every live copy is about to be removed, letting those clients go on loses the task. */
  lemma {:induction false} RemoversLose(s: State, origin: nat) returns (actions: seq<Action>)
    requires Inv(s) && Doomed(s, origin)
    ensures Possible(s, actions) && OnlyCommands(actions) && Lost(Run(s, actions), origin)
    decreases |LiveCopies(s, origin)|
  {
    if LiveCopies(s, origin) == {} {
      actions := [];
      NoCopiesIsLost(s, origin);
    } else {
      var id :| id in LiveCopies(s, origin);
      assert Replaced(s, id);
      var c :| c in s.clients && Replaces(s.clients[c], id);
      RemoverRemoves(s, origin, id, c, 0);
      CommandKeeps(s, c, 0);
      var rest := RemoversLose(Command(s, c, 0), origin);
      CommandFirst(s, c, 0, rest);
      actions := [Continue(c, 0)] + rest;
    }
  }

  lemma CommandFirst(s: State, c: nat, now: nat, rest: seq<Action>)
    requires c in s.clients && Possible(Command(s, c, now), rest) && OnlyCommands(rest)
    ensures Possible(s, [Continue(c, now)] + rest) && OnlyCommands([Continue(c, now)] + rest)
    ensures Run(s, [Continue(c, now)] + rest) == Run(Command(s, c, now), rest)
  {
    var actions := [Continue(c, now)] + rest;
    assert actions[1..] == rest && Step(s, actions[0]) == Command(s, c, now);
  }

  /** Some way of going on, with no further crashed promotion, loses the task. */
  ghost predicate CanBeLost(s: State, origin: nat) {
    exists actions :: LosesIt(s, actions, origin)
  }

  ghost predicate LosesIt(s: State, actions: seq<Action>, origin: nat) {
    && (forall i :: 0 <= i < |actions| ==> !actions[i].CrashPromotion?)
    && Possible(s, actions) && Lost(Run(s, actions), origin)
  }

  /** Safe is exact: from any state a run can reach, a task can be lost if and only if it is not safe. */
  lemma CanBeLostIff(s: State, origin: nat)
    requires Inv(s)
    ensures CanBeLost(s, origin) <==> !Safe(s, origin)
  {
    if Safe(s, origin) {
      forall actions ensures !LosesIt(s, actions, origin) {
        if LosesIt(s, actions, origin) {
          NoCrashSpares(s, actions, origin);
          RunKeepsSafe(s, actions, origin);
        }
      }
    } else {
      NotSafeIsDoomed(s, origin);
      var actions := RemoversLose(s, origin);
      assert LosesIt(s, actions, origin);
    }
  }

  /**
   Exactly when a crash between the two commands of a promotion costs the task: after any
   run, it can be lost from there on if and only if it was not acknowledged and had no other
   live copy that nobody was about to remove.
   */
  lemma PromotionCrashLosesIff(actions: seq<Action>, id: nat, origin: nat)
    requires Possible(INITIAL, actions) && At(Run(INITIAL, actions), id, Promoting)
    ensures var s := Run(INITIAL, actions);
      CanBeLost(Step(s, CrashPromotion(id)), origin) <==> !Spared(s, id, origin)
  {
    var s := Run(INITIAL, actions);
    RunKeepsInv(INITIAL, actions);
    StepKeepsInv(s, CrashPromotion(id));
    CrashKeepsSafeIff(s, id, origin);
    CanBeLostIff(Step(s, CrashPromotion(id)), origin);
  }

  /**
   No orphaned pending entry is ever produced: in any run, a command that deletes a
   stream entry finds it neither undelivered nor pending.
   */
  lemma DeleteOnlySettled(actions: seq<Action>, c: nat)
    requires Possible(INITIAL, actions)
    requires var s := Run(INITIAL, actions); c in s.clients && s.clients[c].Deleting?
    ensures var s := Run(INITIAL, actions);
      !At(s, s.clients[c].id, Undelivered) && !At(s, s.clients[c].id, Pending)
  {
    RunKeepsInv(INITIAL, actions);
    var s := Run(INITIAL, actions);
    assert ClientOk(s, s.clients[c]);
  }

  // ---------- it happens ----------

  lemma {:induction false} Extend(s: State, actions: seq<Action>, a: Action)
    requires Possible(s, actions) && Enabled(Run(s, actions), a)
    ensures Possible(s, actions + [a])
    ensures Run(s, actions + [a]) == Step(Run(s, actions), a)
    decreases |actions|
  {
    if actions == [] {
      assert [a][1..] == [] && actions + [a] == [a];
    } else {
      assert (actions + [a])[1..] == actions[1..] + [a];
      Extend(Step(s, actions[0]), actions[1..], a);
    }
  }

  /** A task is published and reserved, and its retry is about to be published. */
  lemma FirstFailure(task: Task, delayMs: nat) returns (run: seq<Action>)
    requires task.retryPolicy.maxAttempts > 1
    ensures Possible(INITIAL, run)
    ensures Run(INITIAL, run) ==
      State(map[0 := Copy(task, 1, 0, Pending)], 1, map[],
            map[0 := Retrying(Lease(0, task, 1, 0), delayMs)], [task], {})
  {
    run := [];
    Extend(INITIAL, run, Enqueue(task));
    run := run + [Enqueue(task)];
    assert Run(INITIAL, run) == State(map[0 := Copy(task, 1, 0, Undelivered)], 1, map[], map[], [task], {});
    Extend(INITIAL, run, Reserve(0, 0));
    run := run + [Reserve(0, 0)];
    assert Run(INITIAL, run).copies == map[0 := Copy(task, 1, 0, Pending)];
    Extend(INITIAL, run, StartRetry(0, 0, delayMs));
    run := run + [StartRetry(0, 0, delayMs)];
    assert Run(INITIAL, run).leases == map[];
  }

  /** The retry waits in the sorted set and the first entry is still pending. */
  lemma RetryPublished(task: Task, delayMs: nat, now: nat) returns (run: seq<Action>)
    requires task.retryPolicy.maxAttempts > 1 && delayMs > 0
    ensures Possible(INITIAL, run)
    ensures Run(INITIAL, run) ==
      State(map[0 := Copy(task, 1, 0, Pending), 1 := Copy(task, 2, 0, Delayed(now + delayMs))], 2, map[],
            map[0 := Acking(0, false)], [task], {})
  {
    run := FirstFailure(task, delayMs);
    Extend(INITIAL, run, Continue(0, now));
    run := run + [Continue(0, now)];
    assert Run(INITIAL, run).copies
        == map[0 := Copy(task, 1, 0, Pending), 1 := Copy(task, 2, 0, Delayed(now + delayMs))];
  }

  /**
   It happens, and not necessarily at the crash: the delayed retry is dropped in a crashed
   promotion, and only then does the retrying client settle the entry it has replaced.
   */
  lemma PromotionCrashLoses(task: Task, delayMs: nat, now: nat) returns (run: seq<Action>)
    requires task.retryPolicy.maxAttempts > 1 && delayMs > 0
    ensures Possible(INITIAL, run) && Run(INITIAL, run).published == [task] && Lost(Run(INITIAL, run), 0)
  {
    run := RetryPublished(task, delayMs, now);
    Extend(INITIAL, run, PromoteRemove(1, now + delayMs));
    run := run + [PromoteRemove(1, now + delayMs)];
    assert Run(INITIAL, run).copies == map[0 := Copy(task, 1, 0, Pending), 1 := Copy(task, 2, 0, Promoting)];
    Extend(INITIAL, run, CrashPromotion(1));
    run := run + [CrashPromotion(1)];
    assert Run(INITIAL, run).copies == map[0 := Copy(task, 1, 0, Pending)];
    Extend(INITIAL, run, Continue(0, now));
    run := run + [Continue(0, now)];
    assert Run(INITIAL, run).copies == map[0 := Copy(task, 1, 0, Settled)];
  }
}
