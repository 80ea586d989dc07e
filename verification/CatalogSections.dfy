/** The route catalog with its locks taken apart, under every interleaving. */
module CatalogSections {
  import opened Prelude
  import opened Rotation
  import opened TaskQueue
  import RouteCatalog

  /**
   A call between its two sections: it has declared its route and is about to list it. It
   has released the first lock and not yet taken the second, so other calls may run.
   */
  datatype Pc =
    | Inserting(route: Route)     // `get_or_insert_with`: appends without looking
    | Registering(route: Route)   // `register_route`: appends unless the route is listed

  datatype State = State(declared: set<Route>, order: seq<Route>, threads: map<nat, Pc>)

  const INITIAL := State({}, [], map[])

  datatype Action =
    | StartInsert(tid: nat, route: Route)
    | StartRegister(tid: nat, route: Route)
    | Continue(tid: nat)
    | RotateNow(route: Route)

  predicate Enabled(s: State, a: Action) {
    match a
    case StartInsert(tid, _) => tid !in s.threads
    case StartRegister(tid, _) => tid !in s.threads
    case Continue(tid) => tid in s.threads
    case RotateNow(_) => true
  }

  function Step(s: State, a: Action): State
    requires Enabled(s, a)
  {
    match a
    case StartInsert(tid, r) =>
      if r in s.declared then s
      else s.(declared := s.declared + {r}, threads := s.threads[tid := Inserting(r)])
    case StartRegister(tid, r) =>
      s.(declared := s.declared + {r}, threads := s.threads[tid := Registering(r)])
    case Continue(tid) =>
      var r := s.threads[tid].route;
      s.(order := if s.threads[tid].Registering? && r in s.order then s.order else s.order + [r],
         threads := s.threads - {tid})
    case RotateNow(r) => s.(order := MoveToBack(s.order, r))
  }

  ghost predicate Possible(actions: seq<Action>) {
    actions == []
    || (Possible(actions[..|actions| - 1]) && Enabled(Run(actions[..|actions| - 1]), actions[|actions| - 1]))
  }

  /** The catalog after the actions; nothing happens at an action that is not enabled. */
  function Run(actions: seq<Action>): State {
    if actions == [] then INITIAL
    else
      var s := Run(actions[..|actions| - 1]);
      if Enabled(s, actions[|actions| - 1]) then Step(s, actions[|actions| - 1]) else s
  }

  // ---------- how often a route is listed ----------

  function Listings(s: State, r: Route): nat {
    multiset(s.order)[r]
  }

  function IsInserting(r: Route): Pc -> nat { (pc: Pc) => if pc == Inserting(r) then 1 else 0 }

  /** Insertions of r that have declared it and have yet to list it. */
  ghost function Inserts(s: State, r: Route): nat {
    SumMap(s.threads, IsInserting(r))
  }

  ghost predicate RegistrationPending(s: State, r: Route) {
    exists tid :: tid in s.threads && s.threads[tid] == Registering(r)
  }

  /** The step lists r on behalf of a registration while an insertion of r has yet to list it. */
  ghost predicate Overtakes(s: State, a: Action, r: Route) {
    a.Continue? && a.tid in s.threads && s.threads[a.tid] == Registering(r) && r !in s.order && Inserts(s, r) > 0
  }

  /** Somewhere in the run a registration of r overtakes an insertion of r. */
  ghost predicate Overtaken(actions: seq<Action>, r: Route) {
    actions != []
    && (Overtaken(actions[..|actions| - 1], r)
        || Overtakes(Run(actions[..|actions| - 1]), actions[|actions| - 1], r))
  }

  ghost predicate Inv(s: State, r: Route, overtaken: bool) {
    && Inserts(s, r) <= 1
    && Listings(s, r) + Inserts(s, r) <= 2
    && (overtaken <==> Listings(s, r) + Inserts(s, r) == 2)
    && (r in s.declared ==> Listings(s, r) + Inserts(s, r) > 0 || RegistrationPending(s, r))
    && (r !in s.declared ==> Listings(s, r) + Inserts(s, r) == 0 && !RegistrationPending(s, r))
  }

  lemma StartCounts(s: State, tid: nat, pc: Pc, r: Route)
    requires tid !in s.threads
    ensures SumMap(s.threads[tid := pc], IsInserting(r)) == Inserts(s, r) + if pc == Inserting(r) then 1 else 0
  {
    SumMapInsert(s.threads, tid, pc, IsInserting(r));
  }

  lemma StartKeepsPending(s: State, s': State, tid: nat, pc: Pc, r: Route)
    requires tid !in s.threads && s'.threads == s.threads[tid := pc]
    ensures RegistrationPending(s', r) <==> RegistrationPending(s, r) || pc == Registering(r)
  {
    if RegistrationPending(s, r) {
      var other :| other in s.threads && s.threads[other] == Registering(r);
      assert s'.threads[other] == Registering(r);
    }
    if pc == Registering(r) {
      assert s'.threads[tid] == Registering(r);
    }
  }

  lemma StartInsertKeeps(s: State, tid: nat, route: Route, r: Route, overtaken: bool)
    requires Inv(s, r, overtaken) && tid !in s.threads && route !in s.declared
    ensures Inv(Step(s, StartInsert(tid, route)), r, overtaken)
  {
    StartCounts(s, tid, Inserting(route), r);
    StartKeepsPending(s, Step(s, StartInsert(tid, route)), tid, Inserting(route), r);
  }

  lemma StartRegisterKeeps(s: State, tid: nat, route: Route, r: Route, overtaken: bool)
    requires Inv(s, r, overtaken) && tid !in s.threads
    ensures Inv(Step(s, StartRegister(tid, route)), r, overtaken)
  {
    StartCounts(s, tid, Registering(route), r);
    StartKeepsPending(s, Step(s, StartRegister(tid, route)), tid, Registering(route), r);
  }

  lemma ContinueCounts(s: State, tid: nat, r: Route)
    requires tid in s.threads
    ensures var s', pc := Step(s, Continue(tid)), s.threads[tid];
      && Inserts(s', r) + (if pc == Inserting(r) then 1 else 0) == Inserts(s, r)
      && Listings(s', r) ==
           Listings(s, r) + if pc.route == r && !(pc.Registering? && r in s.order) then 1 else 0
  {
    SumMapSplit(s.threads, tid, IsInserting(r));
  }

  lemma ContinueKeepsPending(s: State, tid: nat, r: Route)
    requires tid in s.threads && s.threads[tid] != Registering(r)
    ensures RegistrationPending(Step(s, Continue(tid)), r) <==> RegistrationPending(s, r)
  {
    var s' := Step(s, Continue(tid));
    if RegistrationPending(s, r) {
      var other :| other in s.threads && s.threads[other] == Registering(r);
      assert s'.threads[other] == Registering(r);
    }
  }

  lemma ContinueKeeps(s: State, tid: nat, r: Route, overtaken: bool)
    requires Inv(s, r, overtaken) && tid in s.threads
    ensures Inv(Step(s, Continue(tid)), r, overtaken || Overtakes(s, Continue(tid), r))
  {
    ContinueCounts(s, tid, r);
    if s.threads[tid] == Registering(r) {
      assert RegistrationPending(s, r);
    } else {
      ContinueKeepsPending(s, tid, r);
    }
  }

  lemma StepKeepsInv(s: State, a: Action, r: Route, overtaken: bool)
    requires Inv(s, r, overtaken) && Enabled(s, a)
    ensures Inv(Step(s, a), r, overtaken || Overtakes(s, a, r))
  {
    match a
    case StartInsert(tid, route) =>
      if route !in s.declared {
        StartInsertKeeps(s, tid, route, r, overtaken);
      }
    case StartRegister(tid, route) => StartRegisterKeeps(s, tid, route, r, overtaken);
    case Continue(tid) => ContinueKeeps(s, tid, r, overtaken);
    case RotateNow(route) => MoveToBackCounts(s.order, route);
  }

  lemma {:induction false} RunKeepsInv(actions: seq<Action>, r: Route)
    requires Possible(actions)
    ensures Inv(Run(actions), r, Overtaken(actions, r))
  {
    if actions != [] {
      var n := |actions| - 1;
      RunKeepsInv(actions[..n], r);
      StepKeepsInv(Run(actions[..n]), actions[n], r, Overtaken(actions[..n], r));
    }
  }

  /**
   Under every interleaving, at every moment: only declared routes are listed, each at
   most twice, and twice exactly when a registration of the route overtook its insertion
   and that insertion has listed it since.
   */
  lemma ListedTwiceIff(actions: seq<Action>, r: Route)
    requires Possible(actions)
    ensures var s := Run(actions);
      && Listings(s, r) <= 2
      && (Listings(s, r) == 2 <==> Overtaken(actions, r) && Inserts(s, r) == 0)
      && (Listings(s, r) > 0 ==> r in s.declared)
  {
    RunKeepsInv(actions, r);
  }

  /**
   Once no call is part-way, the order lists exactly the declared routes, and it is free of
   duplicates if and only if no registration overtook an insertion.
   */
  lemma QuietMeansListed(actions: seq<Action>)
    requires Possible(actions) && Run(actions).threads == map[]
    ensures var s := Run(actions);
      && (forall r :: r in s.declared <==> r in s.order)
      && (NoDuplicates(s.order) <==> forall r :: !Overtaken(actions, r))
  {
    var s := Run(actions);
    forall r ensures r in s.declared <==> r in s.order {
      RunKeepsInv(actions, r);
    }
    NoDuplicatesIff(s.order);
    if NoDuplicates(s.order) {
      forall r ensures !Overtaken(actions, r) {
        ListedTwiceIff(actions, r);
        assert AtMostOnce(s.order, r);
      }
    } else {
      var r :| !AtMostOnce(s.order, r);
      ListedTwiceIff(actions, r);
      assert Overtaken(actions, r);
    }
  }

  predicate AtMostOnce(order: seq<Route>, r: Route) {
    multiset(order)[r] <= 1
  }

  lemma NoDuplicatesIff(order: seq<Route>)
    ensures NoDuplicates(order) <==> forall r :: AtMostOnce(order, r)
  {
    if NoDuplicates(order) {
      forall r ensures AtMostOnce(order, r) {
        OnceOnly(order, r);
      }
    } else {
      var i, j :| 0 <= i < j < |order| && order[i] == order[j];
      TwiceThere(order, i, j);
      assert !AtMostOnce(order, order[i]);
    }
  }

  lemma {:induction false} OnceOnly<T>(s: seq<T>, x: T)
    requires NoDuplicates(s)
    ensures multiset(s)[x] <= 1
  {
    if s != [] {
      OnceOnly(s[1..], x);
      assert s == [s[0]] + s[1..];
      assert s[0] !in s[1..];
    }
  }

  lemma TwiceThere<T>(s: seq<T>, i: nat, j: nat)
    requires i < j < |s| && s[i] == s[j]
    ensures multiset(s)[s[i]] >= 2
  {
    assert s == s[..j] + [s[j]] + s[j + 1..];
    assert s[..j][i] == s[i];
  }

  /** It happens: three calls on a new catalog list a route twice. */
  lemma OvertakingRun(r: Route) returns (run: seq<Action>)
    ensures Possible(run) && Run(run) == State({r}, [r, r], map[]) && Overtaken(run, r)
  {
    var one := [StartInsert(0, r)];
    var two := one + [StartRegister(1, r)];
    var three := two + [Continue(1)];
    run := three + [Continue(0)];
    assert one[..0] == [] && two[..1] == one && three[..2] == two && run[..3] == three;
    assert Possible([]) && Possible(one);
    assert Run(one) == State({r}, [], map[0 := Inserting(r)]);
    assert Possible(two);
    assert Run(two) == State({r}, [], map[0 := Inserting(r), 1 := Registering(r)]);
    assert Possible(three);
    assert Run(three) == State({r}, [r], map[0 := Inserting(r)]);
    assert Run(run) == State({r}, [r, r], map[]);
    ListedTwiceIff(run, r);
  }

  /** Without interruption the sections make up what the catalog's methods do. */
  lemma UninterruptedIsAtomic(s: State, tid: nat, r: Route, bindings: seq<Route>, ready: set<Route>)
    requires tid !in s.threads
    ensures var started := Step(s, StartInsert(tid, r));
      if r in s.declared then started == s
      else Step(started, Continue(tid)) == s.(declared := s.declared + {r}, order := s.order + [r])
    ensures Step(Step(s, StartRegister(tid, r)), Continue(tid))
         == s.(declared := s.declared + {r}, order := RouteCatalog.Next(s.order, RouteCatalog.Declare(r)))
    ensures RouteCatalog.FirstReady(s.order, bindings, ready) == Some(r) ==>
      Step(s, RotateNow(r)) == s.(order := RouteCatalog.Next(s.order, RouteCatalog.Serve(bindings, ready)))
  {
    assert s.threads[tid := Inserting(r)] - {tid} == s.threads;
    assert s.threads[tid := Registering(r)] - {tid} == s.threads;
  }
}
