/**
 Listing and replaying dead letters over RabbitMQ. The broker offers only "get the
 head", "publish at the back" and "acknowledge", so the adapter drains a queue and
 puts it back. The channel survives an arbitrary number of commands and then fails;
 the failing command may still have taken effect.
 */
module RabbitMq {
  import opened Prelude
  import opened TaskQueue

  /** A stored dead letter; `record` is None when its payload cannot be decoded. */
  datatype Message = Message(payload: string, record: Option<DeadLetter>)

  /** A message got but not yet acknowledged, with the queue it came from. */
  datatype Held = Held(tag: nat, queue: string, message: Message)

  datatype Envelope = Envelope(task: Task, attempt: nat, lastError: string)

  datatype Failure = Transport | Malformed

  datatype ReplayError = NoSuchRecord | Broker(failure: Failure)

  function Messages(held: seq<Held>): (s: seq<Message>)
    ensures |s| == |held|
  {
    if held == [] then [] else [held[0].message] + Messages(held[1..])
  }

  lemma {:induction false} MessagesConcat(a: seq<Held>, b: seq<Held>)
    ensures Messages(a + b) == Messages(a) + Messages(b)
  {
    if a == [] {
      assert a + b == b;
    } else {
      assert (a + b)[1..] == a[1..] + b;
      MessagesConcat(a[1..], b);
    }
  }

  function Without(held: seq<Held>, position: nat): seq<Held>
    requires position < |held|
  {
    held[..position] + held[position + 1..]
  }

  lemma WithoutHead(base: seq<Held>, messages: seq<Held>, i: nat)
    requires i < |messages|
    ensures var held := base + messages[i..];
      held[|base|] == messages[i] && Without(held, |base|) == base + messages[i + 1..]
  {
  }

  function Lookup(ready: map<string, seq<Message>>, queue: string): seq<Message> {
    if queue in ready then ready[queue] else []
  }

  ghost predicate SameExcept(a: map<string, seq<Message>>, b: map<string, seq<Message>>, queue: string) {
    forall q :: q != queue ==> Lookup(a, q) == Lookup(b, q)
  }

  function ReplayEnvelope(record: DeadLetter): Envelope {
    Envelope(record.task, 1, "replayed from dead letter: " + record.error)
  }

  /** One envelope more was published, and it carries the record's task for a first attempt and tells its error. */
  ghost predicate Republished(before: seq<Envelope>, after: seq<Envelope>, record: DeadLetter) {
    |after| == |before| + 1 && after[..|before|] == before
    && after[|before|].task == record.task && after[|before|].attempt == 1
    && EndsWith(after[|before|].lastError, record.error)
    && DeliveriesUntilBuried(after[|before|]) == Max(1, record.task.retryPolicy.maxAttempts)
  }

  /** The envelope a failed delivery is published with again, unless its attempts are used up. */
  function NextAttempt(e: Envelope, error: string): Option<Envelope> {
    if e.attempt >= e.task.retryPolicy.maxAttempts then None else Some(Envelope(e.task, e.attempt + 1, error))
  }

  /** How often an envelope is delivered, if every delivery fails, before it becomes a dead letter. */
  function DeliveriesUntilBuried(e: Envelope): nat
    decreases e.task.retryPolicy.maxAttempts - e.attempt
  {
    if NextAttempt(e, e.lastError).None? then 1 else 1 + DeliveriesUntilBuried(NextAttempt(e, e.lastError).value)
  }

  lemma {:induction false} DeliveriesLeft(e: Envelope)
    requires 1 <= e.attempt
    ensures DeliveriesUntilBuried(e)
         == if e.attempt >= e.task.retryPolicy.maxAttempts then 1 else e.task.retryPolicy.maxAttempts - e.attempt + 1
    decreases e.task.retryPolicy.maxAttempts - e.attempt
  {
    if NextAttempt(e, e.lastError).Some? {
      DeliveriesLeft(NextAttempt(e, e.lastError).value);
    }
  }

  lemma ReplayRepublishes(before: seq<Envelope>, record: DeadLetter)
    ensures Republished(before, before + [ReplayEnvelope(record)], record)
  {
    DeliveriesLeft(ReplayEnvelope(record));
  }

  /** The messages of one queue among those held. */
  ghost function HeldBag(held: seq<Held>, queue: string): multiset<Message> {
    if held == [] then multiset{}
    else (if held[0].queue == queue then multiset{held[0].message} else multiset{}) + HeldBag(held[1..], queue)
  }

  lemma {:induction false} HeldBagConcat(a: seq<Held>, b: seq<Held>, queue: string)
    ensures HeldBag(a + b, queue) == HeldBag(a, queue) + HeldBag(b, queue)
  {
    if a == [] {
      assert a + b == b;
    } else {
      assert (a + b)[1..] == a[1..] + b;
      HeldBagConcat(a[1..], b, queue);
    }
  }

  /** Held messages of one queue, and of no other. */
  ghost predicate AllFrom(held: seq<Held>, queue: string) {
    forall i :: 0 <= i < |held| ==> held[i].queue == queue
  }

  lemma {:induction false} HeldBagAllFrom(held: seq<Held>, queue: string, other: string)
    requires AllFrom(held, queue)
    ensures HeldBag(held, other) == if other == queue then multiset(Messages(held)) else multiset{}
  {
    if held != [] {
      HeldBagAllFrom(held[1..], queue, other);
    }
  }

  ghost predicate TagsValid(held: seq<Held>, nextTag: nat) {
    && (forall i :: 0 <= i < |held| ==> held[i].tag < nextTag)
    && (forall i, j :: 0 <= i < j < |held| ==> held[i].tag != held[j].tag)
  }

  /** What the broker still has for a queue, given what is ready in it and what is held. */
  ghost function HoldingOf(ready: seq<Message>, held: seq<Held>, queue: string): multiset<Message> {
    multiset(ready) + HeldBag(held, queue)
  }

  /** Draining only moves messages from ready to held. */
  lemma DrainedHolding(before: seq<Message>, after: seq<Message>, base: seq<Held>, got: seq<Held>,
                       queue: string, q: string)
    requires AllFrom(got, queue) && if q == queue then Messages(got) + after == before else after == before
    ensures HoldingOf(after, base + got, q) == HoldingOf(before, base, q)
  {
    HeldBagConcat(base, got, q);
    HeldBagAllFrom(got, queue, q);
  }

  /** What was got so far is the front of the queue, and nothing else changed. */
  ghost predicate Got(before: map<string, seq<Message>>, ready: map<string, seq<Message>>, held: seq<Held>,
                      base: seq<Held>, got: seq<Held>, queue: string)
  {
    && held == base + got && AllFrom(got, queue)
    && Messages(got) + Lookup(ready, queue) == Lookup(before, queue)
    && SameExcept(ready, before, queue)
  }

  lemma NothingGot(ready: map<string, seq<Message>>, held: seq<Held>, queue: string)
    ensures Got(ready, ready, held, held, [], queue)
  {
  }

  lemma GotMore(first: map<string, seq<Message>>, before: map<string, seq<Message>>,
                ready: map<string, seq<Message>>, held: seq<Held>, held': seq<Held>, base: seq<Held>,
                got: seq<Held>, one: seq<Held>, queue: string)
    requires Got(first, before, held, base, got, queue) && Got(before, ready, held', held, one, queue)
    ensures Got(first, ready, held', base, got + one, queue)
  {
    MessagesConcat(got, one);
    assert base + (got + one) == base + got + one;
    assert Messages(got) + Messages(one) + Lookup(ready, queue)
        == Messages(got) + (Messages(one) + Lookup(ready, queue));
  }

  lemma MessagesNext(held: seq<Held>, i: nat)
    requires i < |held|
    ensures Messages(held[..i + 1]) == Messages(held[..i]) + [held[i].message]
  {
    assert held[..i + 1] == held[..i] + [held[i]];
    MessagesConcat(held[..i], [held[i]]);
  }

  /** How far putting messages back has come: so many published, so many acknowledged. */
  ghost predicate PutBack(before: map<string, seq<Message>>, ready: map<string, seq<Message>>, held: seq<Held>,
                          base: seq<Held>, messages: seq<Held>, queue: string, acked: nat, published: nat)
  {
    && acked <= |messages| && published <= |messages| && held == base + messages[acked..]
    && Lookup(ready, queue) == Lookup(before, queue) + Messages(messages[..published])
    && SameExcept(ready, before, queue)
  }

  lemma PutBackStarts(ready: map<string, seq<Message>>, held: seq<Held>, base: seq<Held>, messages: seq<Held>,
                      queue: string)
    requires held == base + messages
    ensures PutBack(ready, ready, held, base, messages, queue, 0, 0)
  {
  }

  lemma PublishedNext(before: map<string, seq<Message>>, ready: map<string, seq<Message>>,
                      ready': map<string, seq<Message>>, held: seq<Held>, base: seq<Held>, messages: seq<Held>,
                      queue: string, i: nat, landed: bool)
    requires i < |messages| && PutBack(before, ready, held, base, messages, queue, i, i)
    requires SameExcept(ready', ready, queue)
    requires Lookup(ready', queue) == Lookup(ready, queue) + if landed then [messages[i].message] else []
    ensures PutBack(before, ready', held, base, messages, queue, i, if landed then i + 1 else i)
  {
    MessagesNext(messages, i);
  }

  lemma AckedNext(before: map<string, seq<Message>>, ready: map<string, seq<Message>>, held: seq<Held>,
                  held': seq<Held>, base: seq<Held>, messages: seq<Held>, queue: string, i: nat, landed: bool)
    requires i < |messages| && PutBack(before, ready, held, base, messages, queue, i, i + 1)
    requires held' == if landed then Without(held, |base|) else held
    ensures PutBack(before, ready, held', base, messages, queue, if landed then i + 1 else i, i + 1)
  {
    WithoutHead(base, messages, i);
  }

  /** Restoring publishes before it acknowledges: at most the message in between exists twice. */
  lemma RestoredHolding(before: seq<Message>, after: seq<Message>, base: seq<Held>, messages: seq<Held>,
                        acked: nat, published: nat, queue: string, q: string)
    requires AllFrom(messages, queue) && acked <= published <= acked + 1 && published <= |messages|
    requires after == if q == queue then before + Messages(messages[..published]) else before
    ensures HoldingOf(after, base + messages[acked..], q) == HoldingOf(before, base + messages, q)
      + if q == queue && acked < published then multiset{messages[acked].message} else multiset{}
  {
    var extra: multiset<Message> := if acked < published then multiset{messages[acked].message} else multiset{};
    HeldBagConcat(base, messages[acked..], q);
    HeldBagConcat(base, messages, q);
    HeldBagAllFrom(messages[acked..], queue, q);
    HeldBagAllFrom(messages, queue, q);
    if q == queue {
      RestoredBag(messages, acked, published);
      BagConcat(before, Messages(messages[..published]));
      Rebalance(multiset(before), multiset(Messages(messages[..published])), HeldBag(base, q),
                multiset(Messages(messages[acked..])), multiset(Messages(messages)), extra);
    }
  }

  lemma BagConcat(a: seq<Message>, b: seq<Message>)
    ensures multiset(a + b) == multiset(a) + multiset(b)
  {
  }

  lemma Rebalance(ready: multiset<Message>, published: multiset<Message>, held: multiset<Message>,
                  left: multiset<Message>, all: multiset<Message>, extra: multiset<Message>)
    requires published + left == all + extra
    ensures ready + published + (held + left) == ready + (held + all) + extra
  {
    calc {
      ready + published + (held + left);
      ready + held + (published + left);
      ready + held + (all + extra);
      ready + (held + all) + extra;
    }
  }

  lemma RestoredBag(messages: seq<Held>, acked: nat, published: nat)
    requires acked <= published <= acked + 1 && published <= |messages|
    ensures multiset(Messages(messages[..published])) + multiset(Messages(messages[acked..]))
         == multiset(Messages(messages)) + if acked < published then multiset{messages[acked].message} else multiset{}
  {
    var done, left := messages[..acked], messages[acked..];
    SplitHeld(messages, acked);
    JoinedBag(done, left);
    if acked < published {
      TakeNext(messages, acked);
      JoinedBag(done, [messages[acked]]);
      MoveOver(multiset(Messages(done)), multiset(Messages(left)), multiset{messages[acked].message});
    }
  }

  lemma MoveOver(a: multiset<Message>, b: multiset<Message>, one: multiset<Message>)
    ensures a + one + b == a + b + one
  {
  }

  lemma JoinedBag(a: seq<Held>, b: seq<Held>)
    ensures multiset(Messages(a + b)) == multiset(Messages(a)) + multiset(Messages(b))
  {
    MessagesConcat(a, b);
    BagConcat(Messages(a), Messages(b));
  }

  lemma SplitHeld(messages: seq<Held>, i: nat)
    requires i <= |messages|
    ensures messages == messages[..i] + messages[i..]
  {
  }

  lemma TakeNext(messages: seq<Held>, i: nat)
    requires i < |messages|
    ensures messages[..i + 1] == messages[..i] + [messages[i]]
    ensures Messages([messages[i]]) == [messages[i].message]
  {
  }

  // ---------- what listing and replaying should find ----------

  function Decoded(messages: seq<Message>): seq<DeadLetter> {
    if messages == [] then []
    else (if messages[0].record.Some? then [messages[0].record.value] else []) + Decoded(messages[1..])
  }

  /** The records of the listed queues, queue by queue, front to back. */
  function RecordsOf(ready: map<string, seq<Message>>, topologies: seq<string>): seq<DeadLetter> {
    if topologies == [] then []
    else
      var n := |topologies| - 1;
      RecordsOf(ready, topologies[..n]) + Decoded(Lookup(ready, topologies[n]))
  }

  lemma {:induction false} DecodedConcat(a: seq<Message>, b: seq<Message>)
    ensures Decoded(a + b) == Decoded(a) + Decoded(b)
  {
    if a == [] {
      assert a + b == b;
    } else {
      assert (a + b)[1..] == a[1..] + b && (a + b)[0] == a[0];
      DecodedConcat(a[1..], b);
      Regroup(if a[0].record.Some? then [a[0].record.value] else [], Decoded(a[1..]), Decoded(b));
    }
  }

  lemma RecordsOfOne(ready: map<string, seq<Message>>, queue: string)
    ensures RecordsOf(ready, [queue]) == Decoded(Lookup(ready, queue))
  {
    assert [queue][..0] == [];
  }

  lemma Regroup(a: seq<DeadLetter>, b: seq<DeadLetter>, c: seq<DeadLetter>)
    ensures a + b + c == a + (b + c)
  {
  }

  /** Records are listed queue by queue and front to back. */
  lemma {:induction false} RecordsInOrder(ready: map<string, seq<Message>>, first: seq<string>, second: seq<string>)
    ensures RecordsOf(ready, first + second) == RecordsOf(ready, first) + RecordsOf(ready, second)
    decreases |second|
  {
    if second == [] {
      assert first + second == first;
    } else {
      var all, n := first + second, |second| - 1;
      assert all[..|all| - 1] == first + second[..n] && all[|all| - 1] == second[n];
      RecordsInOrder(ready, first, second[..n]);
      Regroup(RecordsOf(ready, first), RecordsOf(ready, second[..n]), Decoded(Lookup(ready, second[n])));
    }
  }

  predicate IsRecord(message: Message, deliveryId: string) {
    message.record.Some? && message.record.value.deliveryId == deliveryId
  }

  /** The first message with this delivery id, or the number of messages. */
  function FirstRecord(messages: seq<Message>, deliveryId: string): (i: nat)
    ensures i <= |messages|
    ensures i < |messages| ==> IsRecord(messages[i], deliveryId)
    ensures forall j :: 0 <= j < i ==> !IsRecord(messages[j], deliveryId)
  {
    if messages == [] || IsRecord(messages[0], deliveryId) then 0 else 1 + FirstRecord(messages[1..], deliveryId)
  }

  predicate HasRecord(messages: seq<Message>, deliveryId: string) {
    FirstRecord(messages, deliveryId) < |messages|
  }

  ghost predicate SameReady(a: map<string, seq<Message>>, b: map<string, seq<Message>>) {
    forall q :: Lookup(a, q) == Lookup(b, q)
  }

  /** The message a failed restore left both ready and held, if any. */
  datatype Twice = Nothing | Twice(queue: string, message: Message)

  function Extra(twice: Twice, q: string): multiset<Message> {
    if twice.Twice? && twice.queue == q then multiset{twice.message} else multiset{}
  }

  /** A dead letter found for replay: its queue, its delivery, and the other messages drained with it. */
  datatype Found = Found(queue: string, target: Held, remaining: seq<Held>)

  /** The message a replay has taken out of its queue for good, if any. */
  datatype Release = Kept | Released(queue: string, message: Message)

  function GivenUp(release: Release, q: string): multiset<Message> {
    if release.Released? && release.queue == q then multiset{release.message} else multiset{}
  }

  class Channel {
    var ready: map<string, seq<Message>>
    var unacked: seq<Held>
    var nextTag: nat
    var replayed: seq<Envelope>     // what replays have published to the main queues
    var commandsLeft: nat           // commands before the connection fails
    var landsAnyway: bool           // whether the failing command still takes effect

    ghost predicate Valid()
      reads this
    {
      TagsValid(unacked, nextTag)
    }

    /** Everything the broker has for a queue; unacknowledged messages return to it when the channel closes. */
    ghost function Holding(queue: string): multiset<Message>
      reads this
    {
      HoldingOf(Lookup(ready, queue), unacked, queue)
    }

    // ---------- the commands ----------

    method Get(queue: string) returns (r: Result<Option<Held>, Failure>, ghost got: seq<Held>)
      requires Valid()
      modifies this`ready, this`unacked, this`nextTag, this`commandsLeft
      ensures Valid() && unacked == old(unacked) + got && AllFrom(got, queue)
      ensures Messages(got) + Lookup(ready, queue) == Lookup(old(ready), queue)
      ensures SameExcept(ready, old(ready), queue)
      ensures r.Ok? && r.value.None? ==> got == [] && Lookup(ready, queue) == []
      ensures r.Ok? && r.value.Some? ==> got == [r.value.value]
    {
      var fails := commandsLeft == 0;
      if !fails {
        commandsLeft := commandsLeft - 1;
      }
      got := [];
      if fails && !landsAnyway {
        return Err(Transport), got;
      }
      var contents := Lookup(ready, queue);
      if contents == [] {
        return if fails then Err(Transport) else Ok(None), got;
      }
      var held := Held(nextTag, queue, contents[0]);
      got := [held];
      ready := ready[queue := contents[1..]];
      unacked := unacked + [held];
      nextTag := nextTag + 1;
      return if fails then Err(Transport) else Ok(Some(held)), got;
    }

    method Publish(queue: string, message: Message) returns (r: Result<(), Failure>, ghost landed: bool)
      modifies this`ready, this`commandsLeft
      ensures SameExcept(ready, old(ready), queue)
      ensures Lookup(ready, queue) == Lookup(old(ready), queue) + if landed then [message] else []
      ensures r.Ok? ==> landed
    {
      var fails := commandsLeft == 0;
      if !fails {
        commandsLeft := commandsLeft - 1;
      }
      landed := !fails || landsAnyway;
      if !fails || landsAnyway {
        ready := ready[queue := Lookup(ready, queue) + [message]];
      }
      r := if fails then Err(Transport) else Ok(());
    }

    method PublishReplay(envelope: Envelope) returns (r: Result<(), Failure>, ghost landed: bool)
      modifies this`replayed, this`commandsLeft
      ensures replayed == old(replayed) + if landed then [envelope] else []
      ensures r.Ok? ==> landed
    {
      var fails := commandsLeft == 0;
      if !fails {
        commandsLeft := commandsLeft - 1;
      }
      landed := !fails || landsAnyway;
      if !fails || landsAnyway {
        replayed := replayed + [envelope];
      }
      r := if fails then Err(Transport) else Ok(());
    }

    /** Acknowledge the delivery at a known position of the unacknowledged ones. */
    method Ack(tag: nat, ghost position: nat) returns (r: Result<(), Failure>, ghost landed: bool)
      requires Valid() && position < |unacked| && unacked[position].tag == tag
      modifies this`unacked, this`commandsLeft
      ensures Valid()
      ensures unacked == if landed then Without(old(unacked), position) else old(unacked)
      ensures r.Ok? ==> landed
    {
      var fails := commandsLeft == 0;
      if !fails {
        commandsLeft := commandsLeft - 1;
      }
      landed := !fails || landsAnyway;
      if !fails || landsAnyway {
        var i := 0;
        while unacked[i].tag != tag
          invariant i <= position
          decreases position - i
        {
          i := i + 1;
        }
        assert i == position;
        unacked := Without(unacked, i);
      }
      r := if fails then Err(Transport) else Ok(());
    }

    // ---------- draining and putting back ----------

    /** On failure too, what was got is exactly the front of the queue. */
    method DrainDeadLetterQueue(queue: string) returns (r: Result<seq<Held>, Failure>, ghost got: seq<Held>)
      requires Valid()
      modifies this`ready, this`unacked, this`nextTag, this`commandsLeft
      ensures Valid() && unacked == old(unacked) + got && AllFrom(got, queue)
      ensures Messages(got) + Lookup(ready, queue) == Lookup(old(ready), queue)
      ensures SameExcept(ready, old(ready), queue)
      ensures r.Ok? ==> r.value == got && Lookup(ready, queue) == []
      ensures r.Ok? ==> forall i :: 0 <= i < |got| ==> got[i].message.record.Some?
    {
      var messages: seq<Held> := [];
      got := [];
      NothingGot(ready, unacked, queue);
      while true
        invariant Valid() && messages == got
        invariant Got(old(ready), ready, unacked, old(unacked), got, queue)
        invariant forall i :: 0 <= i < |got| ==> got[i].message.record.Some?
        decreases |Lookup(ready, queue)|
      {
        ghost var before, held := ready, unacked;
        var delivery, one := Get(queue);
        GotMore(old(ready), before, ready, held, unacked, old(unacked), got, one, queue);
        got := got + one;
        if delivery.Err? {
          return Err(delivery.error), got;
        }
        if delivery.value.None? {
          return Ok(messages), got;
        }
        if delivery.value.value.message.record.None? {
          return Err(Malformed), got;
        }
        messages := messages + [delivery.value.value];
      }
    }

    /** `published` and `acked` count how many messages each command has reached. */
    method RestoreDeadLetterQueue(queue: string, messages: seq<Held>, ghost base: seq<Held>)
      returns (r: Result<(), Failure>, ghost acked: nat, ghost published: nat)
      requires Valid() && unacked == base + messages
      modifies this`ready, this`unacked, this`commandsLeft
      ensures Valid() && acked <= published <= acked + 1 && published <= |messages|
      ensures unacked == base + messages[acked..]
      ensures Lookup(ready, queue) == Lookup(old(ready), queue) + Messages(messages[..published])
      ensures SameExcept(ready, old(ready), queue)
      ensures r.Ok? ==> acked == published == |messages|
    {
      var i := 0;
      acked, published := 0, 0;
      PutBackStarts(ready, unacked, base, messages, queue);
      while i < |messages|
        invariant i == acked == published <= |messages| && Valid()
        invariant PutBack(old(ready), ready, unacked, base, messages, queue, i, i)
      {
        ghost var before := ready;
        ghost var landed: bool;
        WithoutHead(base, messages, i);
        r, landed := Publish(queue, messages[i].message);
        published := if landed then i + 1 else i;
        PublishedNext(old(ready), before, ready, unacked, base, messages, queue, i, landed);
        if r.Err? {
          return;
        }
        ghost var held := unacked;
        r, landed := Ack(messages[i].tag, |base|);
        acked := if landed then i + 1 else i;
        AckedNext(old(ready), ready, held, unacked, base, messages, queue, i, landed);
        if r.Err? {
          return;
        }
        i := i + 1;
      }
      r := Ok(());
    }

    /** The body of the listing loop: one queue is drained, read and put back. */
    method ListQueue(queue: string) returns (r: Result<seq<DeadLetter>, Failure>, ghost twice: Twice)
      requires Valid()
      modifies this`ready, this`unacked, this`nextTag, this`commandsLeft
      ensures Valid()
      ensures r.Ok? ==> SameReady(ready, old(ready)) && unacked == old(unacked)
                        && r.value == Decoded(Lookup(old(ready), queue))
      ensures KeepsAll(old(ready), old(unacked), ready, unacked, twice)
    {
      twice := Nothing;
      var drained, got := DrainDeadLetterQueue(queue);
      ghost var empty := ready;
      if drained.Err? {
        DrainKeepsAll(old(ready), ready, unacked, old(unacked), got, queue);
        return Err(drained.error), twice;
      }
      var restored, acked, published := RestoreDeadLetterQueue(queue, drained.value, old(unacked));
      twice := RestoreKeepsAll(old(ready), empty, ready, unacked, old(unacked), got, acked, published, queue);
      if restored.Err? {
        return Err(restored.error), twice;
      }
      r := Ok(Decoded(Messages(drained.value)));
    }

    /**
     Without a failure nothing changes. After a failure at any command nothing is
     lost, and at most one message exists twice.
     */
    method LoadDeadLetters(topologies: seq<string>) returns (r: Result<seq<DeadLetter>, Failure>, ghost twice: Twice)
      requires Valid()
      modifies this`ready, this`unacked, this`nextTag, this`commandsLeft
      ensures Valid()
      ensures r.Ok? ==> SameReady(ready, old(ready)) && unacked == old(unacked)
                        && r.value == RecordsOf(old(ready), topologies)
      ensures forall q :: Holding(q) == old(Holding(q)) + Extra(twice, q)
    {
      var records: seq<DeadLetter> := [];
      var i := 0;
      twice := Nothing;
      while i < |topologies|
        invariant i <= |topologies| && Valid() && twice == Nothing
        invariant SameReady(ready, old(ready)) && unacked == old(unacked)
        invariant records == RecordsOf(old(ready), topologies[..i])
      {
        ghost var before := ready;
        assert topologies[..i + 1][..i] == topologies[..i];
        var listed, again := ListQueue(topologies[i]);
        if listed.Err? {
          KeepsAllHolding(old(ready), before, unacked, ready, old(unacked), again);
          return Err(listed.error), again;
        }
        records := records + listed.value;
        i := i + 1;
      }
      assert topologies[..i] == topologies;
      r := Ok(records);
    }

    // ---------- replaying one dead letter ----------

    /** The body of the search loop: a queue without the record is put back, one with it stays drained. */
    method SearchQueue(queue: string, deliveryId: string)
      returns (r: Result<Option<Found>, Failure>, ghost twice: Twice, ghost got: seq<Held>)
      requires Valid()
      modifies this`ready, this`unacked, this`nextTag, this`commandsLeft
      ensures Valid()
      ensures r.Err? ==> KeepsAll(old(ready), old(unacked), ready, unacked, twice)
      ensures r.Ok? && r.value.None? ==>
        SameReady(ready, old(ready)) && unacked == old(unacked) && !HasRecord(Lookup(old(ready), queue), deliveryId)
      ensures r.Ok? && r.value.Some? ==>
        FoundIn(old(ready), ready, queue, deliveryId, got, r.value.value) && unacked == old(unacked) + got
    {
      twice := Nothing;
      var drained: Result<seq<Held>, Failure>;
      drained, got := DrainDeadLetterQueue(queue);
      ghost var empty := ready;
      if drained.Err? {
        DrainKeepsAll(old(ready), ready, unacked, old(unacked), got, queue);
        return Err(drained.error), twice, got;
      }
      assert Messages(got) == Lookup(old(ready), queue);
      MessagesAt(got);
      var target, remaining := Partition(drained.value, deliveryId);
      if target.Some? {
        return Ok(Some(Found(queue, target.value, remaining))), twice, got;
      }
      // With an empty queue there is nothing to restore and the loop does not run.
      var restored, acked, published := RestoreDeadLetterQueue(queue, remaining, old(unacked));
      twice := RestoreKeepsAll(old(ready), empty, ready, unacked, old(unacked), got, acked, published, queue);
      if restored.Err? {
        return Err(restored.error), twice, got;
      }
      r := Ok(None);
    }

    /** The drained queue of the found record stays drained; queues before it are put back. */
    method FindDeadLetterReplay(topologies: seq<string>, deliveryId: string)
      returns (r: Result<Option<Found>, Failure>, ghost twice: Twice, ghost k: nat, ghost got: seq<Held>)
      requires Valid()
      modifies this`ready, this`unacked, this`nextTag, this`commandsLeft
      ensures Valid()
      ensures r.Err? ==> KeepsAll(old(ready), old(unacked), ready, unacked, twice)
      ensures r.Ok? && r.value.None? ==>
        SameReady(ready, old(ready)) && unacked == old(unacked) && NowhereRecorded(old(ready), topologies, deliveryId)
      ensures r.Ok? && r.value.Some? ==>
        FirstQueue(old(ready), topologies, deliveryId, k)
        && FoundIn(old(ready), ready, topologies[k], deliveryId, got, r.value.value)
        && unacked == old(unacked) + got
    {
      k, got, twice := 0, [], Nothing;
      var i := 0;
      while i < |topologies|
        invariant i <= |topologies| && Valid()
        invariant SameReady(ready, old(ready)) && unacked == old(unacked)
        invariant forall j :: 0 <= j < i ==> !HasRecord(Lookup(old(ready), topologies[j]), deliveryId)
      {
        r, twice, got := SearchQueue(topologies[i], deliveryId);
        k := i;
        if r.Err? || r.value.Some? {
          return;
        }
        i := i + 1;
      }
      r := Ok(None);
    }

    /**
     Without a failure exactly the first matching record leaves its queue, the others
     keep their order, and its envelope is published. After a failure at any command,
     a record is missing only if its replay was already published; at most one
     message exists twice.
     */
    method ReplayDeadLetter(topologies: seq<string>, deliveryId: string)
      returns (r: Result<DeadLetter, ReplayError>, ghost twice: Twice, ghost release: Release, ghost k: nat)
      requires Valid()
      modifies this`ready, this`unacked, this`nextTag, this`commandsLeft, this`replayed
      ensures Valid()
      ensures r.Ok? ==>
        FirstQueue(old(ready), topologies, deliveryId, k)
        && ReplayedFrom(old(ready), ready, topologies[k], deliveryId, r.value)
        && r.value.deliveryId == deliveryId
        && unacked == old(unacked) && Republished(old(replayed), replayed, r.value)
      ensures r == Err(NoSuchRecord) ==>
        NowhereRecorded(old(ready), topologies, deliveryId)
        && SameReady(ready, old(ready)) && unacked == old(unacked) && replayed == old(replayed)
      ensures release.Released? ==>
        IsRecord(release.message, deliveryId)
        && Republished(old(replayed), replayed, release.message.record.value)
      ensures old(replayed) <= replayed && |replayed| <= |old(replayed)| + 1
      ensures Accounted(old(ready), old(unacked), ready, unacked, twice, release)
    {
      release := Kept;
      var find: Result<Option<Found>, Failure>;
      ghost var got: seq<Held>;
      find, twice, k, got := FindDeadLetterReplay(topologies, deliveryId);
      if find.Err? {
        KeptAccounted(old(ready), old(unacked), ready, unacked, twice);
        return Err(Broker(find.error)), twice, release, k;
      }
      twice := Nothing;
      if find.value.None? {
        UntouchedAccounted(old(ready), ready, unacked);
        return Err(NoSuchRecord), twice, release, k;
      }
      var found := find.value.value;
      var record := found.target.message.record.value;
      TargetKept(old(ready), ready, unacked, old(unacked), got, found.queue);
      ReplayRepublishes(replayed, record);
      var published, landed := PublishReplay(ReplayEnvelope(record));
      if published.Err? {
        return Err(Broker(published.error)), twice, release, k;
      }
      var removed: Result<(), Failure>;
      removed, twice, release := FinalizeReplayedDeadLetter(found, deliveryId, old(ready), old(unacked), got);
      r := if removed.Err? then Err(Broker(removed.error)) else Ok(record);
    }

    method FinalizeReplayedDeadLetter(found: Found, deliveryId: string, ghost before: map<string, seq<Message>>,
                                      ghost base: seq<Held>, ghost got: seq<Held>)
      returns (r: Result<(), Failure>, ghost twice: Twice, ghost release: Release)
      requires Valid() && unacked == base + got && FoundIn(before, ready, found.queue, deliveryId, got, found)
      modifies this`ready, this`unacked, this`commandsLeft
      ensures Valid()
      ensures r.Ok? ==>
        unacked == base
        && ReplayedFrom(before, ready, found.queue, deliveryId, found.target.message.record.value)
      ensures release.Released? ==> release.message == found.target.message
      ensures Accounted(before, base, ready, unacked, twice, release)
    {
      twice := Nothing;
      ghost var empty := ready;
      ghost var i := TargetPosition(before, ready, base, found, deliveryId, got);
      r, release := AckTarget(found.target, before, base, got, i);
      if r.Err? {
        return;
      }
      ghost var acked: nat, published: nat;
      r, acked, published := RestoreDeadLetterQueue(found.queue, found.remaining, base);
      twice := ReleaseAccounted(before, empty, ready, unacked, base, got, i, acked, published, found.queue);
      if r.Ok? {
        ReplayFinished(before, empty, ready, base, found, deliveryId, got);
      }
    }

    /** The first command of finalizing: from here on the record is gone from its queue. */
    method AckTarget(target: Held, ghost before: map<string, seq<Message>>, ghost base: seq<Held>,
                     ghost got: seq<Held>, ghost i: nat)
      returns (r: Result<(), Failure>, ghost release: Release)
      requires Valid() && unacked == base + got && i < |got| && target == got[i]
      requires AllFrom(got, target.queue) && SameExcept(ready, before, target.queue)
      requires Messages(got) == Lookup(before, target.queue) && Lookup(ready, target.queue) == []
      modifies this`unacked, this`commandsLeft
      ensures Valid()
      ensures r.Ok? ==> unacked == base + Without(got, i) && release.Released?
      ensures release.Released? ==> release == Released(target.queue, target.message)
      ensures Accounted(before, base, ready, unacked, Nothing, release)
    {
      PositionAfter(base, got, i);
      ghost var held, landed := unacked, false;
      r, landed := Ack(target.tag, |base| + i);
      release := if landed then Released(target.queue, target.message) else Kept;
      TargetAcked(before, ready, held, unacked, base, got, i, landed, target.queue, release);
    }
  }

  /** Whether or not the acknowledgement took effect, everything is accounted for. */
  lemma TargetAcked(before: map<string, seq<Message>>, empty: map<string, seq<Message>>, held: seq<Held>,
                    held': seq<Held>, base: seq<Held>, got: seq<Held>, i: nat, landed: bool, queue: string,
                    release: Release)
    requires i < |got| && held == base + got && release == if landed then Released(queue, got[i].message) else Kept
    requires held' == if landed then Without(held, |base| + i) else held
    requires AllFrom(got, queue) && SameExcept(empty, before, queue)
    requires Messages(got) == Lookup(before, queue) && Lookup(empty, queue) == []
    ensures landed ==> held' == base + Without(got, i)
    ensures Accounted(before, base, empty, held', Nothing, release)
  {
    PositionAfter(base, got, i);
    if landed {
      TargetReleased(before, empty, held', base, got, i, queue);
    } else {
      TargetKept(before, empty, held', base, got, queue);
    }
  }

  lemma KeptAccounted(ready: map<string, seq<Message>>, held: seq<Held>,
                      ready': map<string, seq<Message>>, held': seq<Held>, twice: Twice)
    requires KeepsAll(ready, held, ready', held', twice)
    ensures Accounted(ready, held, ready', held', twice, Kept)
  {
  }

  lemma UntouchedAccounted(ready: map<string, seq<Message>>, ready': map<string, seq<Message>>, held: seq<Held>)
    requires SameReady(ready', ready)
    ensures Accounted(ready, held, ready', held, Nothing, Kept)
  {
  }

  lemma PositionAfter(base: seq<Held>, got: seq<Held>, i: nat)
    requires i < |got|
    ensures (base + got)[|base| + i] == got[i] && Without(base + got, |base| + i) == base + Without(got, i)
  {
  }

  lemma TargetKept(before: map<string, seq<Message>>, empty: map<string, seq<Message>>, held: seq<Held>,
                   base: seq<Held>, got: seq<Held>, queue: string)
    requires held == base + got && AllFrom(got, queue) && SameExcept(empty, before, queue)
    requires Messages(got) == Lookup(before, queue) && Lookup(empty, queue) == []
    ensures Accounted(before, base, empty, held, Nothing, Kept)
  {
    assert Messages(got) + [] == Messages(got);
    DrainKeepsAll(before, empty, held, base, got, queue);
  }

  lemma TargetReleased(before: map<string, seq<Message>>, empty: map<string, seq<Message>>, held: seq<Held>,
                       base: seq<Held>, got: seq<Held>, i: nat, queue: string)
    requires i < |got| && held == base + Without(got, i)
    requires AllFrom(got, queue) && SameExcept(empty, before, queue)
    requires Messages(got) == Lookup(before, queue) && Lookup(empty, queue) == []
    ensures Accounted(before, base, empty, held, Nothing, Released(queue, got[i].message))
  {
    assert Without(got, i)[0..] == Without(got, i);
    var _ := ReleaseAccounted(before, empty, empty, held, base, got, i, 0, 0, queue);
  }

  lemma TargetPosition(before: map<string, seq<Message>>, empty: map<string, seq<Message>>, base: seq<Held>,
                       found: Found, deliveryId: string, got: seq<Held>) returns (i: nat)
    requires FoundIn(before, empty, found.queue, deliveryId, got, found)
    ensures i < |got| && found.target == got[i] && found.target.queue == found.queue
    ensures found.remaining == Without(got, i)
  {
    i := FirstRecord(Messages(got), deliveryId);
  }

  lemma ReplayFinished(before: map<string, seq<Message>>, empty: map<string, seq<Message>>,
                       after: map<string, seq<Message>>, base: seq<Held>, found: Found, deliveryId: string,
                       got: seq<Held>)
    requires FoundIn(before, empty, found.queue, deliveryId, got, found) && SameExcept(after, empty, found.queue)
    requires Lookup(after, found.queue) == Messages(found.remaining[..|found.remaining|])
    ensures ReplayedFrom(before, after, found.queue, deliveryId, found.target.message.record.value)
    ensures base + found.remaining[|found.remaining|..] == base
  {
    assert found.remaining[..|found.remaining|] == found.remaining;
    RemainingMessages(got, FirstRecord(Messages(got), deliveryId));
  }

  /** Exactly the first matching record is gone from one queue. */
  ghost predicate ReplayedFrom(ready: map<string, seq<Message>>, ready': map<string, seq<Message>>, queue: string,
                               deliveryId: string, record: DeadLetter)
  {
    var before := Lookup(ready, queue);
    var i := FirstRecord(before, deliveryId);
    && i < |before| && before[i].record == Some(record)
    && Lookup(ready', queue) == before[..i] + before[i + 1..]
    && SameExcept(ready', ready, queue)
  }

  /** Every queue holds what it held, but for the released message and one that may exist twice. */
  ghost predicate Accounted(ready: map<string, seq<Message>>, held: seq<Held>, ready': map<string, seq<Message>>,
                            held': seq<Held>, twice: Twice, release: Release)
  {
    forall q :: HoldingOf(Lookup(ready', q), held', q) + GivenUp(release, q)
             == HoldingOf(Lookup(ready, q), held, q) + Extra(twice, q)
  }

  lemma ReleaseAccounted(ready: map<string, seq<Message>>, empty: map<string, seq<Message>>,
                         ready': map<string, seq<Message>>, held: seq<Held>, base: seq<Held>, got: seq<Held>, i: nat,
                         acked: nat, published: nat, queue: string) returns (twice: Twice)
    requires AllFrom(got, queue) && i < |got|
    requires SameExcept(empty, ready, queue) && SameExcept(ready', empty, queue)
    requires Messages(got) == Lookup(ready, queue) && Lookup(empty, queue) == []
    requires acked <= published <= acked + 1 && published <= |got| - 1
    requires Lookup(ready', queue) == Messages(Without(got, i)[..published])
    requires held == base + Without(got, i)[acked..]
    ensures Accounted(ready, base, ready', held, twice, Released(queue, got[i].message))
    ensures acked == published ==> twice == Nothing
  {
    twice := if acked < published then Twice(queue, Without(got, i)[acked].message) else Nothing;
    forall q ensures HoldingOf(Lookup(ready', q), held, q) + GivenUp(Released(queue, got[i].message), q)
                  == HoldingOf(Lookup(ready, q), base, q) + Extra(twice, q) {
      RestoreWithoutTarget(ready, empty, ready', base, got, i, acked, published, queue, q);
    }
  }

  lemma RemainingMessages(got: seq<Held>, i: nat)
    requires i < |got|
    ensures Messages(Without(got, i)) == Messages(got)[..i] + Messages(got)[i + 1..]
  {
    MessagesConcat(got[..i], got[i + 1..]);
    MessagesTake(got, i);
    MessagesDrop(got, i + 1);
  }

  lemma {:induction false} MessagesTake(held: seq<Held>, n: nat)
    requires n <= |held|
    ensures Messages(held[..n]) == Messages(held)[..n]
  {
    MessagesAt(held);
    MessagesAt(held[..n]);
  }

  lemma {:induction false} MessagesDrop(held: seq<Held>, n: nat)
    requires n <= |held|
    ensures Messages(held[n..]) == Messages(held)[n..]
  {
    MessagesAt(held);
    MessagesAt(held[n..]);
  }

  /** The queue was drained, and the first matching message picked out of what was drained. */
  ghost predicate FoundIn(ready: map<string, seq<Message>>, ready': map<string, seq<Message>>, queue: string,
                          deliveryId: string, got: seq<Held>, found: Found)
  {
    var i := FirstRecord(Messages(got), deliveryId);
    && Messages(got) == Lookup(ready, queue) && AllFrom(got, queue)
    && Lookup(ready', queue) == [] && SameExcept(ready', ready, queue)
    && i < |got| && found == Found(queue, got[i], Without(got, i))
    && got[i].message == Messages(got)[i]
  }

  /** How far the split has come after k of the drained messages. */
  ghost predicate SplitAt(drained: seq<Held>, first: nat, k: nat, target: Option<Held>, remaining: seq<Held>)
    requires k <= |drained|
  {
    if k <= first then target == None && remaining == drained[..k]
    else target == Some(drained[first]) && remaining == drained[..first] + drained[first + 1..k]
  }

  lemma SplitNext(drained: seq<Held>, first: nat, k: nat, target: Option<Held>, remaining: seq<Held>)
    requires k < |drained| && SplitAt(drained, first, k, target, remaining)
    ensures k == first ==> SplitAt(drained, first, k + 1, Some(drained[k]), remaining)
    ensures k != first ==> SplitAt(drained, first, k + 1, target, remaining + [drained[k]])
  {
    if k < first {
      assert drained[..k + 1] == drained[..k] + [drained[k]];
    } else if k == first {
      assert drained[first + 1..k + 1] == [] && drained[..first] + [] == drained[..first];
    } else {
      assert drained[first + 1..k + 1] == drained[first + 1..k] + [drained[k]];
      assert drained[..first] + (drained[first + 1..k] + [drained[k]])
          == drained[..first] + drained[first + 1..k] + [drained[k]];
    }
  }

  lemma SplitEnds(drained: seq<Held>, first: nat, target: Option<Held>, remaining: seq<Held>)
    requires first <= |drained| && SplitAt(drained, first, |drained|, target, remaining)
    ensures if first == |drained| then target == None && remaining == drained
            else target == Some(drained[first]) && remaining == Without(drained, first)
  {
    assert drained[..|drained|] == drained;
  }

  /** Split what was drained into the first matching message and the rest, in order. */
  method Partition(drained: seq<Held>, deliveryId: string) returns (target: Option<Held>, remaining: seq<Held>)
    ensures var i := FirstRecord(Messages(drained), deliveryId);
      if i == |drained| then target == None && remaining == drained
      else target == Some(drained[i]) && remaining == Without(drained, i)
  {
    target, remaining := None, [];
    var k := 0;
    ghost var first := FirstRecord(Messages(drained), deliveryId);
    MessagesAt(drained);
    while k < |drained|
      invariant k <= |drained| && SplitAt(drained, first, k, target, remaining)
    {
      assert Messages(drained)[k] == drained[k].message;
      SplitNext(drained, first, k, target, remaining);
      if IsRecord(drained[k].message, deliveryId) && target.None? {
        target := Some(drained[k]);
      } else {
        remaining := remaining + [drained[k]];
      }
      k := k + 1;
    }
    SplitEnds(drained, first, target, remaining);
  }

  lemma {:induction false} MessagesAt(held: seq<Held>)
    ensures forall i :: 0 <= i < |held| ==> Messages(held)[i] == held[i].message
  {
    if held != [] {
      MessagesAt(held[1..]);
    }
  }

  /** The first queue whose messages include this delivery id. */
  ghost predicate FirstQueue(ready: map<string, seq<Message>>, topologies: seq<string>, deliveryId: string, k: nat) {
    k < |topologies| && HasRecord(Lookup(ready, topologies[k]), deliveryId)
    && forall j :: 0 <= j < k ==> !HasRecord(Lookup(ready, topologies[j]), deliveryId)
  }

  ghost predicate NowhereRecorded(ready: map<string, seq<Message>>, topologies: seq<string>, deliveryId: string) {
    forall j :: 0 <= j < |topologies| ==> !HasRecord(Lookup(ready, topologies[j]), deliveryId)
  }

  lemma RestoreWithoutTarget(ready: map<string, seq<Message>>, empty: map<string, seq<Message>>,
                             ready': map<string, seq<Message>>, base: seq<Held>, got: seq<Held>, i: nat,
                             acked: nat, published: nat, queue: string, q: string)
    requires AllFrom(got, queue) && i < |got|
    requires SameExcept(empty, ready, queue) && SameExcept(ready', empty, queue)
    requires Messages(got) == Lookup(ready, queue) && Lookup(empty, queue) == []
    requires acked <= published <= acked + 1 && published <= |got| - 1
    requires Lookup(ready', queue) == Messages(Without(got, i)[..published])
    ensures HoldingOf(Lookup(ready', q), base + Without(got, i)[acked..], q)
              + (if q == queue then multiset{got[i].message} else multiset{})
         == HoldingOf(Lookup(ready, q), base, q)
              + if q == queue && acked < published then multiset{Without(got, i)[acked].message} else multiset{}
  {
    var rest := Without(got, i);
    AllFromWithout(got, i, queue);
    NothingAdded(Messages(got));
    NothingAdded(Messages(rest[..published]));
    DrainedHolding(Lookup(ready, q), Lookup(empty, q), base, got, queue, q);
    RestoredHolding(Lookup(empty, q), Lookup(ready', q), base, rest, acked, published, queue, q);
    WithoutHolding(Lookup(empty, q), base, got, i, queue, q);
    Exchange(HoldingOf(Lookup(ready', q), base + rest[acked..], q), HoldingOf(Lookup(empty, q), base + rest, q),
             HoldingOf(Lookup(ready, q), base, q),
             if q == queue && acked < published then multiset{rest[acked].message} else multiset{},
             if q == queue then multiset{got[i].message} else multiset{});
  }

  lemma AllFromWithout(held: seq<Held>, i: nat, queue: string)
    requires AllFrom(held, queue) && i < |held|
    ensures AllFrom(Without(held, i), queue)
  {
  }

  lemma NothingAdded(messages: seq<Message>)
    ensures messages + [] == messages == [] + messages
  {
  }

  lemma Exchange(after: multiset<Message>, without: multiset<Message>, before: multiset<Message>,
                 extra: multiset<Message>, target: multiset<Message>)
    requires after == without + extra && before == without + target
    ensures after + target == before + extra
  {
    assert without + extra + target == without + target + extra;
  }

  lemma WithoutHolding(ready: seq<Message>, base: seq<Held>, got: seq<Held>, i: nat, queue: string, q: string)
    requires AllFrom(got, queue) && i < |got|
    ensures HoldingOf(ready, base + got, q)
         == HoldingOf(ready, base + Without(got, i), q) + if q == queue then multiset{got[i].message} else multiset{}
  {
    WithoutBag(base, got, i, queue, q);
  }

  lemma WithoutBag(base: seq<Held>, got: seq<Held>, i: nat, queue: string, q: string)
    requires AllFrom(got, queue) && i < |got|
    ensures HeldBag(base + got, q)
         == HeldBag(base + Without(got, i), q) + if q == queue then multiset{got[i].message} else multiset{}
  {
    assert got == got[..i] + ([got[i]] + got[i + 1..]);
    HeldBagConcat(base, got, q);
    HeldBagConcat(got[..i], [got[i]] + got[i + 1..], q);
    HeldBagConcat([got[i]], got[i + 1..], q);
    HeldBagConcat(base, Without(got, i), q);
    HeldBagConcat(got[..i], got[i + 1..], q);
    assert [got[i]][1..] == [];
  }

  /** Every queue holds what it held, but for one message that may exist twice. */
  ghost predicate KeepsAll(ready: map<string, seq<Message>>, held: seq<Held>,
                           ready': map<string, seq<Message>>, held': seq<Held>, twice: Twice)
  {
    forall q :: HoldingOf(Lookup(ready', q), held', q) == HoldingOf(Lookup(ready, q), held, q) + Extra(twice, q)
  }

  lemma KeepsAllHolding(ready: map<string, seq<Message>>, before: map<string, seq<Message>>, held': seq<Held>,
                        ready': map<string, seq<Message>>, held: seq<Held>, twice: Twice)
    requires SameReady(before, ready) && KeepsAll(before, held, ready', held', twice)
    ensures forall q :: HoldingOf(Lookup(ready', q), held', q)
                     == HoldingOf(Lookup(ready, q), held, q) + Extra(twice, q)
  {
  }

  lemma DrainKeepsAll(ready: map<string, seq<Message>>, ready': map<string, seq<Message>>,
                      held: seq<Held>, base: seq<Held>, got: seq<Held>, queue: string)
    requires held == base + got && AllFrom(got, queue) && SameExcept(ready', ready, queue)
    requires Messages(got) + Lookup(ready', queue) == Lookup(ready, queue)
    ensures KeepsAll(ready, base, ready', held, Nothing)
  {
    forall q ensures HoldingOf(Lookup(ready', q), held, q) == HoldingOf(Lookup(ready, q), base, q) {
      DrainedHolding(Lookup(ready, q), Lookup(ready', q), base, got, queue, q);
    }
  }

  lemma RestoreKeeps(ready: map<string, seq<Message>>, empty: map<string, seq<Message>>,
                     ready': map<string, seq<Message>>, base: seq<Held>, got: seq<Held>,
                     acked: nat, published: nat, queue: string, q: string)
    requires AllFrom(got, queue) && SameExcept(empty, ready, queue) && SameExcept(ready', empty, queue)
    requires Messages(got) == Lookup(ready, queue) && Lookup(empty, queue) == []
    requires acked <= published <= acked + 1 && published <= |got|
    requires Lookup(ready', queue) == Messages(got[..published])
    ensures HoldingOf(Lookup(ready', q), base + got[acked..], q) == HoldingOf(Lookup(ready, q), base, q)
      + if q == queue && acked < published then multiset{got[acked].message} else multiset{}
  {
    assert Messages(got) + [] == Messages(got);
    assert [] + Messages(got[..published]) == Messages(got[..published]);
    DrainedHolding(Lookup(ready, q), Lookup(empty, q), base, got, queue, q);
    RestoredHolding(Lookup(empty, q), Lookup(ready', q), base, got, acked, published, queue, q);
  }

  lemma AllRestored(ready: map<string, seq<Message>>, empty: map<string, seq<Message>>,
                    ready': map<string, seq<Message>>, held: seq<Held>, base: seq<Held>, got: seq<Held>, queue: string)
    requires SameExcept(empty, ready, queue) && SameExcept(ready', empty, queue)
    requires Messages(got) == Lookup(ready, queue) && Lookup(ready', queue) == Messages(got[..|got|])
    requires held == base + got[|got|..]
    ensures held == base && SameReady(ready', ready)
  {
    assert got[..|got|] == got && base + [] == base;
  }

  lemma RestoreKeepsAll(ready: map<string, seq<Message>>, empty: map<string, seq<Message>>,
                        ready': map<string, seq<Message>>, held: seq<Held>, base: seq<Held>, got: seq<Held>,
                        acked: nat, published: nat, queue: string) returns (twice: Twice)
    requires AllFrom(got, queue) && SameExcept(empty, ready, queue) && SameExcept(ready', empty, queue)
    requires Messages(got) == Lookup(ready, queue) && Lookup(empty, queue) == []
    requires acked <= published <= acked + 1 && published <= |got|
    requires Lookup(ready', queue) == Messages(got[..published])
    requires held == base + got[acked..]
    ensures KeepsAll(ready, base, ready', held, twice)
    ensures acked == published == |got| ==> twice == Nothing && held == base && SameReady(ready', ready)
  {
    twice := if acked < published then Twice(queue, got[acked].message) else Nothing;
    forall q ensures HoldingOf(Lookup(ready', q), held, q) == HoldingOf(Lookup(ready, q), base, q) + Extra(twice, q) {
      RestoreKeeps(ready, empty, ready', base, got, acked, published, queue, q);
    }
    if acked == |got| {
      AllRestored(ready, empty, ready', held, base, got, queue);
    }
  }
}
