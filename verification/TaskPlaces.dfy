/** Where one task is, in a queue whose tasks are accounted for. */
module TaskPlaces {
  import opened Prelude
  import opened TaskQueue
  import opened QueueAccounting

  lemma WaitingCounts(q: Queue, r: Route, i: nat, g: Gauge)
    requires r in q.buckets && i < |q.buckets[r]|
    ensures QueueAccounting.Queued(q, g) >= QueuedValue(g, q.buckets[r][i])
  {
    SumMapSplit(q.buckets, r, OfBucket(g));
    SumSeqAtLeast(q.buckets[r], i, OfQueued(g));
  }

  lemma LeasedCounts(q: Queue, k: string, g: Gauge)
    requires k in q.leased
    ensures Leased(q, g) >= LeasedValue(g, q.leased[k])
  {
    SumMapSplit(q.leased, k, OfLeased(g));
  }

  lemma WaitingKnown(w: World, r: Route, i: nat)
    requires Conserved(w) && r in w.q.buckets && i < |w.q.buckets[r]|
    ensures w.q.buckets[r][i].task in w.enqueued
  {
    var g := ByTask(w.q.buckets[r][i].task);
    WaitingCounts(w.q, r, i, g);
    assert Balanced(w, g);
    var j := SumSeqWitness(w.enqueued, OfTask(g));
  }

  lemma DeadKnown(w: World, i: nat)
    requires Conserved(w) && i < |w.q.dead|
    ensures w.q.dead[i].task in w.enqueued
  {
    var g := ByTask(w.q.dead[i].task);
    SumSeqAtLeast(w.q.dead, i, OfDead(g));
    assert Balanced(w, g);
    var j := SumSeqWitness(w.enqueued, OfTask(g));
  }

  lemma AckedKnown(w: World, i: nat)
    requires Conserved(w) && i < |w.acked|
    ensures w.acked[i] in w.enqueued
  {
    var g := ByTask(w.acked[i]);
    SumSeqAtLeast(w.acked, i, OfTask(g));
    assert Balanced(w, g);
    var j := SumSeqWitness(w.enqueued, OfTask(g));
  }

  lemma OnePlace(w: World, id: string)
    requires Conserved(w) && DistinctIds(w.enqueued)
    ensures Accounted(w, ById(id)) <= 1
  {
    assert Balanced(w, ById(id));
    DistinctCount(w.enqueued, id);
  }

  /** While a task is leased nothing else in the system carries its id. */
  ghost predicate Elsewhere(w: World, id: string) {
    && (forall r, i :: r in w.q.buckets && 0 <= i < |w.q.buckets[r]| ==> w.q.buckets[r][i].task.taskId != id)
    && (forall i :: 0 <= i < |w.q.dead| ==> w.q.dead[i].task.taskId != id)
    && (forall i :: 0 <= i < |w.acked| ==> w.acked[i].taskId != id)
  }

  lemma LeasedAlone(w: World, k: string)
    requires Conserved(w) && DistinctIds(w.enqueued) && k in w.q.leased
    ensures Elsewhere(w, w.q.leased[k].task.taskId)
  {
    var id := w.q.leased[k].task.taskId;
    var g := ById(id);
    OnePlace(w, id);
    LeasedCounts(w.q, k, g);
    forall r, i | r in w.q.buckets && 0 <= i < |w.q.buckets[r]| ensures w.q.buckets[r][i].task.taskId != id {
      WaitingCounts(w.q, r, i, g);
    }
    forall i | 0 <= i < |w.q.dead| ensures w.q.dead[i].task.taskId != id {
      SumSeqAtLeast(w.q.dead, i, OfDead(g));
    }
    forall i | 0 <= i < |w.acked| ensures w.acked[i].taskId != id {
      SumSeqAtLeast(w.acked, i, OfTask(g));
    }
  }
}
