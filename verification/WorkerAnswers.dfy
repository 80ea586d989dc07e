/** What workers publish is what they were told, over every run. */
module WorkerAnswers {
  import opened Prelude
  import opened TaskQueue
  import opened QueueAccounting
  import opened WorkerLoop
  import opened WorkerInvariant
  import opened Lifecycle

  datatype Fact =
    | Began
    | Prepares(succeeded: bool)
    | Starts(compiles: bool)
    | Ends(outcome: Option<FinalStatus>)
    | GaveUp

  datatype Note = Note(task: Task, attempt: int, fact: Fact, at: nat)

  type Log = set<Note>

  /** What a worker learns at its next step. */
  function Learns(groups: Groups, s: System, g: nat, now: nat, answers: Answers): Log
    requires g in groups && g in s.workers
  {
    match s.workers[g]
    case Head =>
      var (_, delivery) := Reserve(s.w.q, groups[g], now);
      if delivery.Some? then {Note(delivery.value.task, delivery.value.attempt, Began, now)} else {}
    case AtPreparing(d) => {Note(d.task, d.attempt, Prepares(answers.prepared), now)}
    case AtPrepared(d) => {Note(d.task, d.attempt, Starts(answers.compiles), now)}
    case AtStarted(d) => {Note(d.task, d.attempt, Ends(answers.executed), now)}
    case Failing(d) => {Note(d.task, d.attempt, GaveUp, now)}
    case _ => {}
  }

  function Noted(groups: Groups, s: System, log: Log, a: Action): Log
    requires Enabled(groups, s, a)
  {
    if a.Work? then log + Learns(groups, s, a.group, a.now, a.answers) else log
  }

  function LogOf(groups: Groups, s: System, log: Log, actions: seq<Action>): Log
    requires Possible(groups, s, actions)
    decreases |actions|
  {
    if actions == [] then log
    else LogOf(groups, WorkerLoop.Step(groups, s, actions[0]), Noted(groups, s, log, actions[0]), actions[1..])
  }

  ghost predicate Said(log: Log, id: string, attempt: int, fact: Fact) {
    exists note :: note in log && note.task.taskId == id && note.attempt == attempt && note.fact == fact
  }

  /** The attempt could not be prepared, or its execution failed to return an outcome. */
  ghost predicate Broke(log: Log, id: string, attempt: int) {
    Said(log, id, attempt, Prepares(false)) || Said(log, id, attempt, Ends(None))
  }

  // ---------- events follow the answers ----------

  /** What must have been learnt for the event to be emitted. */
  ghost predicate Justified(log: Log, e: Event) {
    match e.status
    case Queued => false
    case Preparing => Said(log, e.taskId, e.attempt, Began)
    case Prepared => Said(log, e.taskId, e.attempt, Prepares(true))
    case Compiling => Said(log, e.taskId, e.attempt, Starts(true))
    case Running => Said(log, e.taskId, e.attempt, Starts(false))
    case Completed => Said(log, e.taskId, e.attempt, Ends(Some(Completed)))
    case Failed => Said(log, e.taskId, e.attempt, Ends(Some(Failed)))
    case Retrying => Broke(log, e.taskId, e.attempt)
    case DeadLettered => Broke(log, e.taskId, e.attempt)
  }

  /** A worker that has learnt of a failure and has not reported it yet. */
  ghost predicate StillToReport(s: System, id: string, attempt: int) {
    exists g :: g in s.workers && (s.workers[g].Failing? || s.workers[g].Reporting?)
                && s.workers[g].d.task.taskId == id && s.workers[g].d.attempt == attempt
  }

  /** The event an answer calls for. */
  ghost predicate Announced(s: System, note: Note) {
    match note.fact
    case Began => true
    case Prepares(true) => Event(note.task.taskId, note.attempt, Prepared) in s.trace
    case Starts(compiles) =>
      Event(note.task.taskId, note.attempt, if compiles then Compiling else Running) in s.trace
    case Ends(Some(final)) => Event(note.task.taskId, note.attempt, final) in s.trace
    case GaveUp => true
    case _ =>
      Event(note.task.taskId, note.attempt, Retrying) in s.trace
      || Event(note.task.taskId, note.attempt, LifecycleStatus.DeadLettered) in s.trace
      || StillToReport(s, note.task.taskId, note.attempt)
  }

  ghost predicate WorkerTold(log: Log, worker: Worker) {
    match worker
    case Reserved(d) => Said(log, d.task.taskId, d.attempt, Began)
    case Failing(d) => Broke(log, d.task.taskId, d.attempt)
    case Reporting(d, _) => Broke(log, d.task.taskId, d.attempt)
    case _ => true
  }

  ghost predicate Told(s: System, log: Log) {
    && (forall e :: e in s.trace ==> Justified(log, e))
    && (forall note :: note in log ==> Announced(s, note))
    && (forall g :: g in s.workers ==> WorkerTold(log, s.workers[g]))
  }

  lemma SaidMore(log: Log, more: Log, id: string, attempt: int, fact: Fact)
    requires Said(log, id, attempt, fact)
    ensures Said(log + more, id, attempt, fact)
  {
    var note :| note in log && note.task.taskId == id && note.attempt == attempt && note.fact == fact;
    assert note in log + more;
  }

  lemma ToldMore(log: Log, more: Log)
    ensures forall e :: Justified(log, e) ==> Justified(log + more, e)
    ensures forall worker :: WorkerTold(log, worker) ==> WorkerTold(log + more, worker)
    ensures forall id, attempt :: Broke(log, id, attempt) ==> Broke(log + more, id, attempt)
  {
    forall id, attempt, fact | Said(log, id, attempt, fact) ensures Said(log + more, id, attempt, fact) {
      SaidMore(log, more, id, attempt, fact);
    }
  }

  lemma NoteSaid(log: Log, note: Note)
    requires note in log
    ensures Said(log, note.task.taskId, note.attempt, note.fact)
  {
  }

  /** A worker moves on: what was announced stays announced if the worker does not drop a report unannounced. */
  lemma AnnouncedStays(s: System, s': System, g: nat, note: Note)
    requires Announced(s, note) && g in s.workers && g in s'.workers && s'.workers == s.workers[g := s'.workers[g]]
    requires forall e :: e in s.trace ==> e in s'.trace
    requires (s.workers[g].Failing? || s.workers[g].Reporting?) ==>
      ((s'.workers[g].Failing? || s'.workers[g].Reporting?) && s'.workers[g].d == s.workers[g].d)
      || Event(s.workers[g].d.task.taskId, s.workers[g].d.attempt, Retrying) in s'.trace
      || Event(s.workers[g].d.task.taskId, s.workers[g].d.attempt, LifecycleStatus.DeadLettered) in s'.trace
    ensures Announced(s', note)
  {
    if StillToReport(s, note.task.taskId, note.attempt) {
      var h :| h in s.workers && (s.workers[h].Failing? || s.workers[h].Reporting?)
               && s.workers[h].d.task.taskId == note.task.taskId && s.workers[h].d.attempt == note.attempt;
      if h != g {
        assert s'.workers[h] == s.workers[h];
      }
    }
  }

  /** One step of a worker, with what it learns and what it emits. */
  lemma MoveTold(s: System, s': System, g: nat, log: Log, more: Log)
    requires Told(s, log) && g in s.workers && g in s'.workers && s'.workers == s.workers[g := s'.workers[g]]
    requires forall e :: e in s.trace ==> e in s'.trace
    requires forall e :: e in s'.trace ==> e in s.trace || Justified(log + more, e)
    requires forall note :: note in more ==> Announced(s', note)
    requires WorkerTold(log + more, s'.workers[g])
    requires (s.workers[g].Failing? || s.workers[g].Reporting?) ==>
      ((s'.workers[g].Failing? || s'.workers[g].Reporting?) && s'.workers[g].d == s.workers[g].d)
      || Event(s.workers[g].d.task.taskId, s.workers[g].d.attempt, Retrying) in s'.trace
      || Event(s.workers[g].d.task.taskId, s.workers[g].d.attempt, LifecycleStatus.DeadLettered) in s'.trace
    ensures Told(s', log + more)
  {
    ToldMore(log, more);
    forall note | note in log + more ensures Announced(s', note) {
      if note in log {
        AnnouncedStays(s, s', g, note);
      }
    }
    forall h | h in s'.workers ensures WorkerTold(log + more, s'.workers[h]) {
      if h != g {
        assert WorkerTold(log, s.workers[h]);
      }
    }
  }

  lemma PublishTold(s: System, g: nat, d: Delivery, status: LifecycleStatus, next: Worker, log: Log, more: Log)
    requires Told(s, log) && g in s.workers && !s.workers[g].Failing?
    requires Justified(log + more, Event(d.task.taskId, d.attempt, status)) && WorkerTold(log + more, next)
    requires forall note :: note in more ==> Announced(Publish(s, g, d, status, next), note)
    requires s.workers[g].Reporting? ==>
      d == s.workers[g].d && (status.Retrying? || status == LifecycleStatus.DeadLettered)
    ensures Told(Publish(s, g, d, status, next), log + more)
  {
    var s', e := Publish(s, g, d, status, next), Event(d.task.taskId, d.attempt, status);
    assert s'.trace[|s.trace|] == e;
    forall x | x in s.trace ensures x in s'.trace {
      var i :| 0 <= i < |s.trace| && s.trace[i] == x;
      assert s'.trace[i] == x;
    }
    MoveTold(s, s', g, log, more);
  }

  /** Learning one answer and publishing what it calls for. */
  lemma AnswerTold(s: System, g: nat, d: Delivery, fact: Fact, now: nat, status: LifecycleStatus, next: Worker,
                   log: Log)
    requires Told(s, log) && g in s.workers && !s.workers[g].Failing? && !s.workers[g].Reporting?
    requires match fact
      case Prepares(true) => status.Prepared?
      case Starts(compiles) => status == if compiles then Compiling else Running
      case Ends(Some(final)) => status == final
      case _ => false
    requires WorkerTold(log, next)
    ensures Told(Publish(s, g, d, status, next), log + {Note(d.task, d.attempt, fact, now)})
  {
    var note := Note(d.task, d.attempt, fact, now);
    var s', more := Publish(s, g, d, status, next), {note};
    NoteSaid(log + more, note);
    ToldMore(log, more);
    assert s'.trace[|s.trace|] == Event(d.task.taskId, d.attempt, status);
    PublishTold(s, g, d, status, next, log, more);
  }

  /** Learning of a failure and turning to the failure path. */
  lemma FailureTold(s: System, g: nat, d: Delivery, fact: Fact, now: nat, log: Log)
    requires Told(s, log) && g in s.workers && !s.workers[g].Failing? && !s.workers[g].Reporting?
    requires fact == Prepares(false) || fact == Ends(None)
    ensures Told(Goto(s, g, Failing(d)), log + {Note(d.task, d.attempt, fact, now)})
  {
    var note := Note(d.task, d.attempt, fact, now);
    var s' := Goto(s, g, Failing(d));
    NoteSaid(log + {note}, note);
    assert StillToReport(s', d.task.taskId, d.attempt) by {
      assert s'.workers[g] == Failing(d);
    }
    MoveTold(s, s', g, log, {note});
  }

  lemma HeadTold(groups: Groups, s: System, g: nat, now: nat, log: Log)
    requires Told(s, log) && g in groups && g in s.workers && s.workers[g].Head?
    ensures Told(WorkStep(groups, s, g, now, SMOOTH), log + Learns(groups, s, g, now, SMOOTH))
  {
    var more := Learns(groups, s, g, now, SMOOTH);
    if more == {} {
      assert log + more == log;
    } else {
      var note :| note in more;
      NoteSaid(log + more, note);
      MoveTold(s, WorkStep(groups, s, g, now, SMOOTH), g, log, more);
    }
  }

  lemma QuietTold(groups: Groups, s: System, g: nat, now: nat, log: Log)
    requires Told(s, log) && g in groups && g in s.workers && (s.workers[g].Finished? || s.workers[g].Failing?)
    ensures Told(WorkStep(groups, s, g, now, SMOOTH), log + Learns(groups, s, g, now, SMOOTH))
  {
    var more := Learns(groups, s, g, now, SMOOTH);
    ToldMore(log, more);
    assert WorkerTold(log, s.workers[g]);
    MoveTold(s, WorkStep(groups, s, g, now, SMOOTH), g, log, more);
  }

  lemma PlainTold(s: System, g: nat, d: Delivery, status: LifecycleStatus, next: Worker, log: Log)
    requires Told(s, log) && g in s.workers && !s.workers[g].Failing?
    requires Justified(log, Event(d.task.taskId, d.attempt, status)) && WorkerTold(log, next)
    requires s.workers[g].Reporting? ==>
      d == s.workers[g].d && (status.Retrying? || status == LifecycleStatus.DeadLettered)
    ensures Told(Publish(s, g, d, status, next), log + {})
  {
    ToldMore(log, {});
    PublishTold(s, g, d, status, next, log, {});
  }

  lemma WorkTold(groups: Groups, s: System, g: nat, now: nat, answers: Answers, log: Log)
    requires Told(s, log) && g in groups && g in s.workers
    ensures Told(WorkStep(groups, s, g, now, answers), log + Learns(groups, s, g, now, answers))
  {
    assert WorkerTold(log, s.workers[g]);
    match s.workers[g]
    case Head => HeadTold(groups, s, g, now, log);
    case Reserved(d) => PlainTold(s, g, d, Preparing, AtPreparing(d), log);
    case AtPreparing(d) =>
      if answers.prepared {
        AnswerTold(s, g, d, Prepares(true), now, Prepared, AtPrepared(d), log);
      } else {
        FailureTold(s, g, d, Prepares(false), now, log);
      }
    case AtPrepared(d) =>
      AnswerTold(s, g, d, Starts(answers.compiles), now, if answers.compiles then Compiling else Running,
                 AtStarted(d), log);
    case AtStarted(d) =>
      if answers.executed.Some? {
        AnswerTold(s, g, d, Ends(answers.executed), now, answers.executed.value, Finished(d), log);
      } else {
        FailureTold(s, g, d, Ends(None), now, log);
      }
    case Finished(_) => QuietTold(groups, s, g, now, log);
    case Failing(_) => QuietTold(groups, s, g, now, log);
    case Reporting(d, disposition) =>
      PlainTold(s, g, d, if disposition.Requeued? then Retrying else LifecycleStatus.DeadLettered, Head, log);
  }

  lemma StepTold(groups: Groups, s: System, a: Action, log: Log)
    requires Enabled(groups, s, a) && Told(s, log)
    ensures Told(WorkerLoop.Step(groups, s, a), Noted(groups, s, log, a))
  {
    if a.Work? {
      WorkTold(groups, s, a.group, a.now, a.answers, log);
    } else {
      StillTold(s, WorkerLoop.Step(groups, s, a), log);
    }
  }

  lemma StillTold(s: System, s': System, log: Log)
    requires Told(s, log) && s'.workers == s.workers && s'.trace == s.trace
    ensures Told(s', log)
  {
    forall note | note in log ensures Announced(s', note) {
      assert Announced(s, note);
      assert StillToReport(s, note.task.taskId, note.attempt) ==> StillToReport(s', note.task.taskId, note.attempt);
    }
  }

  lemma {:induction false} RunTold(groups: Groups, s: System, actions: seq<Action>, log: Log)
    requires Possible(groups, s, actions) && Told(s, log)
    ensures Told(RunSystem(groups, s, actions), LogOf(groups, s, log, actions))
    decreases |actions|
  {
    if actions != [] {
      StepTold(groups, s, actions[0], log);
      RunTold(groups, WorkerLoop.Step(groups, s, actions[0]), actions[1..], Noted(groups, s, log, actions[0]));
    }
  }

  lemma ReachedTold(groups: Groups, actions: seq<Action>)
    requires Possible(groups, Initial(groups), actions)
    ensures Told(RunSystem(groups, Initial(groups), actions), LogOf(groups, Initial(groups), {}, actions))
  {
    RunTold(groups, Initial(groups), actions, {});
  }

  /**
   Events are the answers, over every run of any groups: a stage is announced if and
   only if that is what was answered for the attempt, and a failed attempt is reported
   if and only if preparing or executing it failed, once nobody is about to report it.
   */
  lemma EventsAreAnswers(groups: Groups, actions: seq<Action>, id: string, attempt: int)
    requires Possible(groups, Initial(groups), actions)
    ensures var s, log := RunSystem(groups, Initial(groups), actions), LogOf(groups, Initial(groups), {}, actions);
      && (Event(id, attempt, Prepared) in s.trace <==> Said(log, id, attempt, Prepares(true)))
      && (Event(id, attempt, Compiling) in s.trace <==> Said(log, id, attempt, Starts(true)))
      && (Event(id, attempt, Running) in s.trace <==> Said(log, id, attempt, Starts(false)))
      && (Event(id, attempt, Completed) in s.trace <==> Said(log, id, attempt, Ends(Some(Completed))))
      && (Event(id, attempt, Failed) in s.trace <==> Said(log, id, attempt, Ends(Some(Failed))))
      && (!StillToReport(s, id, attempt) ==>
            (Event(id, attempt, Retrying) in s.trace || Event(id, attempt, LifecycleStatus.DeadLettered) in s.trace
             <==> Broke(log, id, attempt)))
  {
    ReachedTold(groups, actions);
    var s, log := RunSystem(groups, Initial(groups), actions), LogOf(groups, Initial(groups), {}, actions);
    forall fact | Said(log, id, attempt, fact)
      ensures exists note: Note ::
        note.fact == fact && note.task.taskId == id && note.attempt == attempt && Announced(s, note)
    {
    }
    forall status | Event(id, attempt, status) in s.trace ensures Justified(log, Event(id, attempt, status)) {
    }
  }

  // ---------- the snapshot shows the outcome ----------

  lemma {:induction false} EventsOfMembers(trace: seq<Event>, e: Event)
    ensures e in EventsOf(trace, e.taskId) <==> e in trace
  {
    if trace != [] {
      var front, last := trace[..|trace| - 1], trace[|trace| - 1];
      EventsOfMembers(front, e);
      assert trace == front + [last];
    }
  }

  /** A settled outcome is the last event there is about the task. */
  lemma FinalIsLast(s: System, task: Task, attempt: int, final: FinalStatus)
    requires WellFormed(EventsOf(s.trace, task.taskId), task.retryPolicy.maxAttempts)
    requires Event(task.taskId, attempt, final) in s.trace
    ensures Last(s, task.taskId) == Some(Event(task.taskId, attempt, final))
  {
    var e, events := Event(task.taskId, attempt, final), EventsOf(s.trace, task.taskId);
    EventsOfMembers(s.trace, e);
    var i :| 0 <= i < |events| && events[i] == e;
    GrammarMeans(events, task.retryPolicy.maxAttempts, i);
  }

  lemma LastInTrace(s: System, id: string)
    requires Last(s, id).Some?
    ensures Last(s, id).value in s.trace && Last(s, id).value.taskId == id
  {
    var events := EventsOf(s.trace, id);
    AboutId(s.trace, id, |events| - 1);
    EventsOfMembers(s.trace, events[|events| - 1]);
  }

  lemma {:induction false} AboutId(trace: seq<Event>, id: string, i: nat)
    requires i < |EventsOf(trace, id)|
    ensures EventsOf(trace, id)[i].taskId == id
  {
    var front := trace[..|trace| - 1];
    if i < |EventsOf(front, id)| {
      AboutId(front, id, i);
    }
  }

  ghost predicate Settled(log: Log, id: string, final: FinalStatus) {
    exists attempt :: Said(log, id, attempt, Ends(Some(final)))
  }

  /**
   The outcome is what is shown. Over every run of disjoint groups with distinct ids, a
   task's snapshot is Completed if and only if some execution of it returned Completed,
   Failed if and only if one returned Failed, and that execution was of its last attempt.
   */
  lemma OutcomeIsShown(groups: Groups, actions: seq<Action>, task: Task)
    requires Disjoint(groups) && Possible(groups, Initial(groups), actions) && DistinctIds(TasksScheduled(actions))
    requires task in TasksScheduled(actions)
    ensures var s, log := RunSystem(groups, Initial(groups), actions), LogOf(groups, Initial(groups), {}, actions);
      && task.taskId in s.snapshots
      && (s.snapshots[task.taskId].Completed? <==> Settled(log, task.taskId, Completed))
      && (s.snapshots[task.taskId].Failed? <==> Settled(log, task.taskId, Failed))
      && forall attempt, final: FinalStatus :: Said(log, task.taskId, attempt, Ends(Some(final))) ==>
           Last(s, task.taskId) == Some(Event(task.taskId, attempt, final))
  {
    var s, log := RunSystem(groups, Initial(groups), actions), LogOf(groups, Initial(groups), {}, actions);
    ReachableInv(groups, actions);
    TraceGrammar(groups, actions, task);
    ReachedTold(groups, actions);
    forall attempt, final: FinalStatus | Said(log, task.taskId, attempt, Ends(Some(final)))
      ensures Last(s, task.taskId) == Some(Event(task.taskId, attempt, final))
    {
      EventsAreAnswers(groups, actions, task.taskId, attempt);
      FinalIsLast(s, task, attempt, final);
    }
    if s.snapshots[task.taskId].Completed? || s.snapshots[task.taskId].Failed? {
      var e := Last(s, task.taskId).value;
      LastInTrace(s, task.taskId);
      EventsAreAnswers(groups, actions, task.taskId, e.attempt);
    }
  }

  // ---------- a failed attempt waits out its delay ----------

  predicate GaveUpOn(gave: Note, task: Task, attempt: int) {
    gave.task == task && gave.attempt == attempt && gave.fact == GaveUp
  }

  /** The task's delay counts from when its attempt was given up. */
  function DueAt(gave: Note): nat {
    gave.at + gave.task.retryPolicy.retryDelayMs
  }

  ghost predicate ItemDue(log: Log, item: QueuedTask) {
    item.attempt == 1
    || exists gave :: gave in log && GaveUpOn(gave, item.task, item.attempt - 1) && DueAt(gave) == item.availableAt
  }

  ghost predicate BeganDue(log: Log, note: Note) {
    note.fact == Began ==>
      note.attempt == 1
      || exists gave :: gave in log && GaveUpOn(gave, note.task, note.attempt - 1) && DueAt(gave) <= note.at
  }

  ghost predicate Waited(s: System, log: Log) {
    && (forall r, i :: r in s.w.q.buckets && 0 <= i < |s.w.q.buckets[r]| ==> ItemDue(log, s.w.q.buckets[r][i]))
    && (forall note :: note in log ==> BeganDue(log, note))
  }

  lemma DueMore(log: Log, more: Log)
    ensures forall note :: BeganDue(log, note) ==> BeganDue(log + more, note)
    ensures forall item :: ItemDue(log, item) ==> ItemDue(log + more, item)
  {
    forall note | BeganDue(log, note) ensures BeganDue(log + more, note) {
      if note.fact == Began && note.attempt != 1 {
        var gave :| gave in log && GaveUpOn(gave, note.task, note.attempt - 1) && DueAt(gave) <= note.at;
        assert gave in log + more;
      }
    }
    forall item | ItemDue(log, item) ensures ItemDue(log + more, item) {
      if item.attempt != 1 {
        var gave :| gave in log && GaveUpOn(gave, item.task, item.attempt - 1) && DueAt(gave) == item.availableAt;
        assert gave in log + more;
      }
    }
  }

  lemma HeadWaited(groups: Groups, s: System, g: nat, now: nat, log: Log)
    requires Inv(groups, s) && Waited(s, log) && g in groups && g in s.workers && s.workers[g].Head?
    ensures Waited(WorkStep(groups, s, g, now, SMOOTH), log + Learns(groups, s, g, now, SMOOTH))
  {
    var s', more := WorkStep(groups, s, g, now, SMOOTH), Learns(groups, s, g, now, SMOOTH);
    DueMore(log, more);
    forall r, i | r in s'.w.q.buckets && 0 <= i < |s'.w.q.buckets[r]|
      ensures ItemDue(log + more, s'.w.q.buckets[r][i])
    {
      if s' != s {
        var j := ReserveItems(s.w.q, groups[g], now, r, i);
        assert ItemDue(log, s.w.q.buckets[r][j]);
      }
    }
    if ReserveRoute(s.w.q, groups[g], now).Some? {
      BeginsDue(s, groups[g], now, log, more);
    }
  }

  lemma BeginsDue(s: System, bindings: seq<Route>, now: nat, log: Log, more: Log)
    requires Waited(s, log) && ReserveRoute(s.w.q, bindings, now).Some?
    requires var d := Reserve(s.w.q, bindings, now).1.value; more == {Note(d.task, d.attempt, Began, now)}
    ensures forall note :: note in more ==> BeganDue(log + more, note)
  {
    var item := s.w.q.buckets[ReserveRoute(s.w.q, bindings, now).value][0];
    assert ItemDue(log, item);
    if item.attempt != 1 {
      var gave :| gave in log && GaveUpOn(gave, item.task, item.attempt - 1) && DueAt(gave) == item.availableAt;
      assert gave in log + more;
    }
  }

  lemma PushedDue(s: System, s': System, log: Log, log': Log, item: QueuedTask)
    requires Waited(s, log) && (forall it :: ItemDue(log, it) ==> ItemDue(log', it)) && ItemDue(log', item)
    requires s'.w.q.buckets == s.w.q.buckets[RouteOf(item.task) := Bucket(s.w.q, RouteOf(item.task)) + [item]]
    ensures forall r, i :: r in s'.w.q.buckets && 0 <= i < |s'.w.q.buckets[r]| ==> ItemDue(log', s'.w.q.buckets[r][i])
  {
    forall r, i | r in s'.w.q.buckets && 0 <= i < |s'.w.q.buckets[r]| ensures ItemDue(log', s'.w.q.buckets[r][i]) {
      if s'.w.q.buckets[r][i] != item {
        assert s.w.q.buckets[r][i] == s'.w.q.buckets[r][i];
      }
    }
  }

  lemma FailingWaited(groups: Groups, s: System, g: nat, now: nat, log: Log)
    requires Waited(s, log) && g in groups && g in s.workers && s.workers[g].Failing?
    requires s.workers[g].d.deliveryId in s.w.q.leased && s.w.q.leased[s.workers[g].d.deliveryId] == s.workers[g].d
    ensures Waited(WorkStep(groups, s, g, now, SMOOTH), log + Learns(groups, s, g, now, SMOOTH))
  {
    var d, s' := s.workers[g].d, WorkStep(groups, s, g, now, SMOOTH);
    var gave := Note(d.task, d.attempt, GaveUp, now);
    if Exhausted(d) {
      QuietWaited(s, s', log, {gave});
    } else {
      var item := RetryItem(d, "failed", d.task.retryPolicy.retryDelayMs, now);
      DueMore(log, {gave});
      RetriedDue(log + {gave}, gave, item);
      PushedDue(s, s', log, log + {gave}, item);
    }
  }

  lemma RetriedDue(log: Log, gave: Note, item: QueuedTask)
    requires gave in log && GaveUpOn(gave, item.task, item.attempt - 1) && DueAt(gave) == item.availableAt
    ensures ItemDue(log, item)
  {
  }

  lemma QuietWaited(s: System, s': System, log: Log, more: Log)
    requires Waited(s, log) && s'.w.q.buckets == s.w.q.buckets && forall note :: note in more ==> note.fact != Began
    ensures Waited(s', log + more)
  {
    DueMore(log, more);
  }

  lemma OtherWaited(groups: Groups, s: System, g: nat, now: nat, answers: Answers, log: Log)
    requires Waited(s, log) && g in groups && g in s.workers && !s.workers[g].Head? && !s.workers[g].Failing?
    ensures Waited(WorkStep(groups, s, g, now, answers), log + Learns(groups, s, g, now, answers))
  {
    QuietWaited(s, WorkStep(groups, s, g, now, answers), log, Learns(groups, s, g, now, answers));
  }

  /** A worker that is failing holds the lease it gives up. */
  lemma FailingHolds(groups: Groups, s: System, g: nat)
    requires WorkersOk(groups, s) && g in s.workers && s.workers[g].Failing?
    ensures s.workers[g].d.deliveryId in s.w.q.leased && s.w.q.leased[s.workers[g].d.deliveryId] == s.workers[g].d
  {
    assert WorkerOk(groups, s, g, s.workers[g]);
  }

  lemma WorkWaited(groups: Groups, s: System, g: nat, now: nat, answers: Answers, log: Log)
    requires Inv(groups, s) && Waited(s, log) && g in groups && g in s.workers
    ensures Waited(WorkStep(groups, s, g, now, answers), log + Learns(groups, s, g, now, answers))
  {
    if s.workers[g].Head? {
      HeadWaited(groups, s, g, now, log);
    } else if s.workers[g].Failing? {
      FailingHolds(groups, s, g);
      FailingWaited(groups, s, g, now, log);
    } else {
      OtherWaited(groups, s, g, now, answers, log);
    }
  }

  lemma StepWaited(groups: Groups, s: System, a: Action, log: Log)
    requires Inv(groups, s) && Enabled(groups, s, a) && Waited(s, log)
    ensures Waited(WorkerLoop.Step(groups, s, a), Noted(groups, s, log, a))
  {
    match a
    case BeginSchedule(_, _) =>
    case FinishSchedule(sid, now) =>
      PushedDue(s, WorkerLoop.Step(groups, s, a), log, log, QueuedTask(s.schedulers[sid], 1, now, None));
    case Work(g, now, answers) => WorkWaited(groups, s, g, now, answers, log);
  }

  lemma {:induction false} RunWaited(groups: Groups, s: System, actions: seq<Action>, log: Log)
    requires Disjoint(groups) && Inv(groups, s) && Possible(groups, s, actions) && Waited(s, log)
    requires DistinctIds(s.scheduled + TasksScheduled(actions))
    ensures Waited(RunSystem(groups, s, actions), LogOf(groups, s, log, actions))
    decreases |actions|
  {
    if actions != [] {
      NextIsFresh(groups, s, actions);
      StepKeepsInv(groups, s, actions[0]);
      StepWaited(groups, s, actions[0], log);
      RunWaited(groups, WorkerLoop.Step(groups, s, actions[0]), actions[1..], Noted(groups, s, log, actions[0]));
    }
  }

  /**
   Over the same runs no worker begins another attempt of a task before the task's own
   delay has passed since the attempt before was given up.
   */
  lemma RetriesWait(groups: Groups, actions: seq<Action>, began: Note)
    requires Disjoint(groups) && Possible(groups, Initial(groups), actions) && DistinctIds(TasksScheduled(actions))
    requires began in LogOf(groups, Initial(groups), {}, actions) && began.fact == Began && began.attempt != 1
    ensures exists gave ::
      && gave in LogOf(groups, Initial(groups), {}, actions)
      && gave.task == began.task && gave.attempt == began.attempt - 1 && gave.fact == GaveUp
      && began.at >= gave.at + began.task.retryPolicy.retryDelayMs
  {
    InitialInv(groups);
    assert [] + TasksScheduled(actions) == TasksScheduled(actions);
    RunWaited(groups, Initial(groups), actions, {});
    var log := LogOf(groups, Initial(groups), {}, actions);
    assert BeganDue(log, began);
  }
}
