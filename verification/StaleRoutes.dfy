/** When the in-memory queue is left with a listed route whose bucket is gone. */
module StaleRoutes {
  import opened Prelude
  import opened Rotation
  import opened TaskQueue
  import opened LockSections

  /** The action is a removal of r that finds r unlisted. */
  predicate Miss(s: State, a: Action, r: Route)
    requires Enabled(s, a)
  {
    a.Continue? && Misses(s.q, s.threads[a.tid], r)
  }

  ghost function SurplusOf(s: State, r: Route): int {
    Surplus(s.q, s.threads, r)
  }

  lemma StartSurplus(s: State, a: Action, r: Route)
    requires Enabled(s, a) && !a.Continue?
    ensures SurplusOf(Step(s, a), r) == SurplusOf(s, r)
  {
    var s' := Step(s, a);
    if s'.threads != s.threads {
      StartSum(s.threads, a.tid, s'.threads[a.tid], IsListing(r));
      StartSum(s.threads, a.tid, s'.threads[a.tid], IsUnlisting(r));
    }
  }

  /** The surplus of a route rises at a miss and never changes otherwise. */
  lemma StepSurplus(s: State, a: Action, r: Route)
    requires Shape(s) && Enabled(s, a)
    ensures SurplusOf(Step(s, a), r) == SurplusOf(s, r) + if Miss(s, a, r) then 1 else 0
  {
    if a.Continue? {
      SectionSurplus(s.q, s.threads, a.tid, r);
    } else {
      StartSurplus(s, a, r);
    }
  }

  ghost function MissesIn(s: State, actions: seq<Action>, r: Route): nat
    requires Possible(s, actions)
    decreases |actions|
  {
    if actions == [] then 0
    else (if Miss(s, actions[0], r) then 1 else 0) + MissesIn(Step(s, actions[0]), actions[1..], r)
  }

  lemma StepKeepsShape(s: State, a: Action)
    requires Shape(s) && Enabled(s, a)
    ensures Shape(Step(s, a))
  {
    if a.Continue? {
      SectionShape(s, a.tid);
    } else {
      StartShape(s, a);
    }
  }

  lemma {:induction false} RunSurplus(s: State, actions: seq<Action>, r: Route)
    requires Shape(s) && Possible(s, actions)
    ensures Shape(Interleave(s, actions))
    ensures SurplusOf(Interleave(s, actions), r) == SurplusOf(s, r) + MissesIn(s, actions, r)
    decreases |actions|
  {
    if actions != [] {
      StepSurplus(s, actions[0], r);
      StepKeepsShape(s, actions[0]);
      RunSurplus(Step(s, actions[0]), actions[1..], r);
    }
  }

  /**
   Exactly how often a route ends up listed: once no operation is part-way, its listings are
   its bucket, if it has one, and one more for each removal that missed.
   */
  lemma ListingsCountMisses(actions: seq<Action>, r: Route)
    requires Possible(INITIAL, actions) && Interleave(INITIAL, actions).threads == map[]
    ensures var q := Interleave(INITIAL, actions).q;
      multiset(q.order)[r] == (if r in q.buckets then 1 else 0) + MissesIn(INITIAL, actions, r)
  {
    InitialInv();
    RunSurplus(INITIAL, actions, r);
  }

  /** A stale route stays: wherever the run comes to rest again, it is listed beyond its bucket. */
  lemma StaleForGood(before: seq<Action>, after: seq<Action>, r: Route)
    requires Possible(INITIAL, before) && Possible(Interleave(INITIAL, before), after)
    requires MissesIn(INITIAL, before, r) > 0
    requires Interleave(Interleave(INITIAL, before), after).threads == map[]
    ensures var q := Interleave(Interleave(INITIAL, before), after).q;
      multiset(q.order)[r] > if r in q.buckets then 1 else 0
  {
    InitialInv();
    RunSurplus(INITIAL, before, r);
    RunSurplus(Interleave(INITIAL, before), after, r);
  }

  // ---------- one reserve at a time over each route ----------

  /** A reserve that may still take r out of the order. */
  predicate MayRemove(pc: Pc, r: Route) {
    (pc.Scanning? && r in pc.routes) || (pc.Unlisting? && pc.route == r)
  }

  ghost predicate Exclusive(s: State) {
    forall t, u, r :: t in s.threads && u in s.threads && MayRemove(s.threads[t], r) && MayRemove(s.threads[u], r)
      ==> t == u
  }

  ghost predicate ExclusiveRun(s: State, actions: seq<Action>)
    requires Possible(s, actions)
    decreases |actions|
  {
    Exclusive(s) && (actions == [] || ExclusiveRun(Step(s, actions[0]), actions[1..]))
  }

  /** Whoever may remove a route finds it listed. */
  ghost predicate RemovalsListed(s: State) {
    forall t, r :: t in s.threads && MayRemove(s.threads[t], r) ==> r in s.q.order
  }

  lemma ContinueKeepsListed(s: State, tid: nat)
    requires Exclusive(s) && RemovalsListed(s) && tid in s.threads
    ensures RemovalsListed(Step(s, Continue(tid)))
  {
    var s', pc := Step(s, Continue(tid)), s.threads[tid];
    forall t, r | t in s'.threads && MayRemove(s'.threads[t], r) ensures r in s'.q.order {
      if t == tid {
      } else {
        assert MayRemove(s.threads[t], r);
      }
    }
  }

  lemma StepKeepsListed(s: State, a: Action)
    requires Enabled(s, a) && Exclusive(s) && RemovalsListed(s)
    ensures RemovalsListed(Step(s, a))
    ensures forall r :: !Miss(s, a, r)
  {
    if a.Continue? {
      ContinueKeepsListed(s, a.tid);
    } else {
      var s' := Step(s, a);
      forall t, r | t in s'.threads && MayRemove(s'.threads[t], r) ensures r in s'.q.order {
        assert t in s.threads && s'.threads[t] == s.threads[t] ==> MayRemove(s.threads[t], r);
      }
    }
  }

  lemma {:induction false} ExclusiveNeverMisses(s: State, actions: seq<Action>, r: Route)
    requires Possible(s, actions) && ExclusiveRun(s, actions) && RemovalsListed(s)
    ensures MissesIn(s, actions, r) == 0
    decreases |actions|
  {
    if actions != [] {
      StepKeepsListed(s, actions[0]);
      ExclusiveNeverMisses(Step(s, actions[0]), actions[1..], r);
    }
  }

  /**
   If no two reserves that may still remove a route are ever in flight over it, the stale
   state never arises: once no operation is part-way the queue is as valid as the atomic
   one, so a reserve comes back empty-handed only when nothing it is bound to is due.
   */
  lemma ExclusiveReservesLeaveNothingStale(actions: seq<Action>, bindings: seq<Route>, now: nat)
    requires Possible(INITIAL, actions) && ExclusiveRun(INITIAL, actions)
    requires Interleave(INITIAL, actions).threads == map[]
    ensures var q := Interleave(INITIAL, actions).q;
      && OrderValid(q)
      && (Reserve(q, bindings, now).1.None? <==>
            forall r :: r in q.buckets && Allowed(bindings, r) ==> !Due(q, r, now))
  {
    var q := Interleave(INITIAL, actions).q;
    forall r ensures multiset(q.order)[r] == if r in q.buckets then 1 else 0 {
      ExclusiveNeverMisses(INITIAL, actions, r);
      ListingsCountMisses(actions, r);
    }
    ListedOnce(q);
    forall r | r in q.buckets && Allowed(bindings, r) && Due(q, r, now) ensures Reserve(q, bindings, now).1.Some? {
      ScanFindsFirst(q, q.order, bindings, now, r);
    }
  }

  lemma ListedOnce(q: Queue)
    requires forall r :: multiset(q.order)[r] == if r in q.buckets then 1 else 0
    ensures OrderValid(q)
  {
    forall i, j | 0 <= i < j < |q.order| ensures q.order[i] != q.order[j] {
      SplitAround(q.order, j);
      ConcatCounts(q.order[..j], [q.order[j]] + q.order[j + 1..]);
      assert q.order[..j][i] == q.order[i];
      assert multiset(q.order)[q.order[i]] <= 1;
    }
    forall r ensures r in q.order <==> r in q.buckets {
      assert multiset(q.order)[r] == if r in q.buckets then 1 else 0;
    }
  }
}
