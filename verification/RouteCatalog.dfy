/**
 The catalog of routes a broker adapter has declared and the order in which its
 `reserve` tries them.
 */
module RouteCatalog {
  import opened Prelude
  import opened Rotation
  import opened TaskQueue

  ghost predicate Lists<T>(order: seq<Route>, declared: map<Route, T>) {
    NoDuplicates(order) && forall r :: r in order <==> r in declared
  }

  class RouteCatalog<T> {
    var declaredRoutes: map<Route, T>
    var routeOrder: seq<Route>

    /** The order is a duplicate-free listing of exactly the declared routes. */
    ghost predicate Valid()
      reads this
    {
      Lists(routeOrder, declaredRoutes)
    }

    constructor ()
      ensures Valid() && declaredRoutes == map[]
    {
      declaredRoutes, routeOrder := map[], [];
    }

    method GetOrInsertWith(queue: string, lane: string, build: () -> T) returns (topology: T)
      modifies this
      ensures old(Valid()) ==> Valid()
      ensures Route(queue, lane) in declaredRoutes && topology == declaredRoutes[Route(queue, lane)]
      ensures Route(queue, lane) in old(declaredRoutes) ==>
        declaredRoutes == old(declaredRoutes) && routeOrder == old(routeOrder)
      ensures Route(queue, lane) !in old(declaredRoutes) ==>
        declaredRoutes == old(declaredRoutes)[Route(queue, lane) := build()]
        && routeOrder == old(routeOrder) + [Route(queue, lane)]
    {
      var key := Route(queue, lane);
      if key in declaredRoutes {
        return declaredRoutes[key];
      }
      topology := build();
      declaredRoutes := declaredRoutes[key := topology];
      routeOrder := routeOrder + [key];
    }

    method RegisterRoute(queue: string, lane: string, topology: T)
      modifies this
      ensures old(Valid()) ==> Valid()
      ensures declaredRoutes == if Route(queue, lane) in old(declaredRoutes) then old(declaredRoutes)
                                else old(declaredRoutes)[Route(queue, lane) := topology]
      ensures routeOrder == Next(old(routeOrder), Declare(Route(queue, lane)))
    {
      var route := Route(queue, lane);
      if route !in declaredRoutes {
        declaredRoutes := declaredRoutes[route := topology];
      }
      if route !in routeOrder {
        routeOrder := routeOrder + [route];
      }
    }

    method Rotate(route: Route)
      modifies this`routeOrder
      ensures old(Valid()) ==> Valid()
      ensures routeOrder == MoveToBack(old(routeOrder), route)
    {
      var position := 0;
      while position < |routeOrder| && routeOrder[position] != route
        invariant position <= |routeOrder|
        invariant forall j :: 0 <= j < position ==> routeOrder[j] != route
      {
        position := position + 1;
      }
      if NoDuplicates(routeOrder) {
        MoveToBackNoDuplicates(routeOrder, route);
      }
      IndexOfIs(routeOrder, route, position);
      if position < |routeOrder| {
        routeOrder := routeOrder[..position] + routeOrder[position + 1..];
        routeOrder := routeOrder + [route];
      }
    }

    method OrderedRoutes(bindings: seq<Route>) returns (routes: seq<Route>)
      ensures routes == Filtered(routeOrder, bindings)
    {
      routes := [];
      var i := 0;
      while i < |routeOrder|
        invariant i <= |routeOrder|
        invariant Filtered(routeOrder, bindings) == routes + Filtered(routeOrder[i..], bindings)
      {
        if Allowed(bindings, routeOrder[i]) {
          routes := routes + [routeOrder[i]];
        }
        i := i + 1;
      }
    }

    /** How an adapter's `reserve` uses the catalog, given which routes yield a delivery. */
    method ServeNext(bindings: seq<Route>, ready: set<Route>) returns (served: Option<Route>)
      modifies this`routeOrder
      ensures old(Valid()) ==> Valid()
      ensures served == FirstReady(old(routeOrder), bindings, ready)
      ensures routeOrder == Next(old(routeOrder), Serve(bindings, ready))
    {
      var snapshot := OrderedRoutes(bindings);
      var i := 0;
      while i < |snapshot|
        invariant i <= |snapshot| && routeOrder == old(routeOrder)
        invariant forall j :: 0 <= j < i ==> snapshot[j] !in ready
      {
        if snapshot[i] in ready {
          FirstReadyIs(routeOrder, bindings, ready, i);
          Rotate(snapshot[i]);
          return Some(snapshot[i]);
        }
        i := i + 1;
      }
      ghost var k := FirstReadyMeans(routeOrder, bindings, ready);
      return None;
    }
  }

  lemma {:induction false} IndexOfIs(order: seq<Route>, r: Route, position: nat)
    requires position <= |order| && (forall j :: 0 <= j < position ==> order[j] != r)
    requires position < |order| ==> order[position] == r
    ensures IndexOf(order, r) == position
  {
    var i := IndexOf(order, r);
    assert i < |order| ==> order[i] == r;
  }

  // ---------- serving in rotation ----------

  /** The adapter's loop stops at the first bound route that yields a delivery. */
  function FirstReady(order: seq<Route>, bindings: seq<Route>, ready: set<Route>): (found: Option<Route>)
    ensures found.Some? ==> found.value in order && found.value in ready && Allowed(bindings, found.value)
  {
    if order == [] then None
    else if Allowed(bindings, order[0]) && order[0] in ready then Some(order[0])
    else FirstReady(order[1..], bindings, ready)
  }

  predicate IsFirst(routes: seq<Route>, ready: set<Route>, i: nat) {
    i < |routes| && routes[i] in ready && forall j :: 0 <= j < i ==> routes[j] !in ready
  }

  predicate FoundAt(routes: seq<Route>, ready: set<Route>, i: nat, r: Route) {
    IsFirst(routes, ready, i) && routes[i] == r
  }

  predicate NoneReady(routes: seq<Route>, ready: set<Route>) {
    forall i :: 0 <= i < |routes| ==> routes[i] !in ready
  }

  /** It is the first ready route among those `OrderedRoutes` lists. */
  lemma {:induction false} FirstReadyMeans(order: seq<Route>, bindings: seq<Route>, ready: set<Route>)
    returns (i: nat)
    ensures var routes, found := Filtered(order, bindings), FirstReady(order, bindings, ready);
      if found.None? then NoneReady(routes, ready) else FoundAt(routes, ready, i, found.value)
  {
    i := 0;
    if order != [] {
      var first, rest := order[0], order[1..];
      var tail, found := Filtered(rest, bindings), FirstReady(rest, bindings, ready);
      i := FirstReadyMeans(rest, bindings, ready);
      if Allowed(bindings, first) {
        if first in ready {
          i := 0;
        } else if found.Some? {
          i := i + 1;
        } else {
        }
      }
    }
  }

  lemma FirstReadyIs(order: seq<Route>, bindings: seq<Route>, ready: set<Route>, i: nat)
    requires IsFirst(Filtered(order, bindings), ready, i)
    ensures FirstReady(order, bindings, ready) == Some(Filtered(order, bindings)[i])
  {
    var routes := Filtered(order, bindings);
    var k := FirstReadyMeans(order, bindings, ready);
    assert routes[i] in ready;
  }

  /** Sequential calls, with the routes that have work when each reserve looks. */
  datatype Call = Declare(route: Route) | Serve(bindings: seq<Route>, ready: set<Route>)

  function Next(order: seq<Route>, call: Call): seq<Route> {
    match call
    case Declare(r) => if r in order then order else order + [r]
    case Serve(bindings, ready) =>
      var found := FirstReady(order, bindings, ready);
      if found.Some? then MoveToBack(order, found.value) else order
  }

  function Orders(order: seq<Route>, calls: seq<Call>): seq<Route>
    decreases |calls|
  {
    if calls == [] then order else Orders(Next(order, calls[0]), calls[1..])
  }

  predicate CouldServe(call: Call, r: Route) {
    call.Serve? && Allowed(call.bindings, r) && r in call.ready
  }

  predicate ServesRoute(order: seq<Route>, call: Call, r: Route) {
    call.Serve? && FirstReady(order, call.bindings, call.ready) == Some(r)
  }

  function Chances(calls: seq<Call>, r: Route): nat {
    if calls == [] then 0 else (if CouldServe(calls[0], r) then 1 else 0) + Chances(calls[1..], r)
  }

  function Serves(order: seq<Route>, calls: seq<Call>, r: Route): nat
    decreases |calls|
  {
    if calls == [] then 0
    else (if ServesRoute(order, calls[0], r) then 1 else 0) + Serves(Next(order, calls[0]), calls[1..], r)
  }

  lemma NextKeepsListing(order: seq<Route>, call: Call)
    requires NoDuplicates(order)
    ensures NoDuplicates(Next(order, call))
    ensures forall r :: r in Next(order, call) <==> r in order || call == Declare(r)
  {
    if call.Serve? && FirstReady(order, call.bindings, call.ready).Some? {
      MoveToBackNoDuplicates(order, FirstReady(order, call.bindings, call.ready).value);
    }
  }

  lemma {:induction false} FirstReadyIsFirst(order: seq<Route>, bindings: seq<Route>, ready: set<Route>, r: Route)
    requires NoDuplicates(order) && r in order && Allowed(bindings, r) && r in ready
    ensures var found := FirstReady(order, bindings, ready);
      found.Some? && IndexOf(order, found.value) <= IndexOf(order, r)
  {
    if order[0] != r && !(Allowed(bindings, order[0]) && order[0] in ready) {
      assert r in order[1..];
      FirstReadyIsFirst(order[1..], bindings, ready, r);
      IndexOfTail(order, FirstReady(order[1..], bindings, ready).value);
      IndexOfTail(order, r);
    }
  }

  lemma NextMoves(order: seq<Route>, call: Call, r: Route)
    requires NoDuplicates(order) && r in order && !ServesRoute(order, call, r)
    ensures r in Next(order, call)
    ensures IndexOf(Next(order, call), r) + (if CouldServe(call, r) then 1 else 0) <= IndexOf(order, r)
  {
    match call
    case Declare(s) => IndexOfAppend(order, r, s);
    case Serve(bindings, ready) =>
      if CouldServe(call, r) {
        FirstReadyIsFirst(order, bindings, ready, r);
      }
      var found := FirstReady(order, bindings, ready);
      if found.Some? {
        assert order[IndexOf(order, found.value)] == found.value && order[IndexOf(order, r)] == r;
        MoveToBackShifts(order, found.value, r);
        MoveToBackNoDuplicates(order, found.value);
      }
  }

  /**
   The order stays a duplicate-free listing of the declared routes, and a route is
   passed over, while bound and ready, at most once for each route ahead of it.
   */
  lemma {:induction false} RotationIsFair(order: seq<Route>, calls: seq<Call>, r: Route)
    requires NoDuplicates(order) && r in order && Serves(order, calls, r) == 0
    ensures NoDuplicates(Orders(order, calls)) && r in Orders(order, calls)
    ensures Chances(calls, r) + IndexOf(Orders(order, calls), r) <= IndexOf(order, r)
    decreases |calls|
  {
    if calls != [] {
      NextKeepsListing(order, calls[0]);
      NextMoves(order, calls[0], r);
      RotationIsFair(Next(order, calls[0]), calls[1..], r);
    }
  }

  predicate Before(order: seq<Route>, a: Route, b: Route) {
    IndexOf(order, a) < IndexOf(order, b)
  }

  lemma RotateSwapsAhead(order: seq<Route>, s: Route, a: Route, b: Route)
    requires NoDuplicates(order) && a != b && a in order && b in order && s in order
    requires IndexOf(order, s) <= IndexOf(order, a) && IndexOf(order, s) <= IndexOf(order, b)
    ensures var order' := MoveToBack(order, s);
      && (s == a ==> Before(order, a, b) && !Before(order', a, b))
      && (s == b ==> !Before(order, a, b) && Before(order', a, b))
      && (s != a && s != b ==> Before(order', a, b) == Before(order, a, b))
  {
    if s == a {
      FrontGoesBack(order, a, b);
    } else if s == b {
      FrontGoesBack(order, b, a);
    } else {
      assert order[IndexOf(order, a)] == a && order[IndexOf(order, b)] == b && order[IndexOf(order, s)] == s;
      MoveToBackShifts(order, s, a);
      MoveToBackShifts(order, s, b);
    }
  }

  lemma FrontGoesBack(order: seq<Route>, a: Route, b: Route)
    requires NoDuplicates(order) && a != b && a in order && b in order && IndexOf(order, a) <= IndexOf(order, b)
    ensures Before(order, a, b) && !Before(order, b, a)
    ensures !Before(MoveToBack(order, a), a, b) && Before(MoveToBack(order, a), b, a)
  {
    assert order[IndexOf(order, a)] == a && order[IndexOf(order, b)] == b;
    MoveToBackShifts(order, a, b);
  }

  lemma TurnStep(order: seq<Route>, call: Call, a: Route, b: Route)
    requires NoDuplicates(order) && a != b && a in order && b in order
    requires call.Serve? ==> CouldServe(call, a) && CouldServe(call, b)
    ensures var order' := Next(order, call);
      && a in order' && b in order'
      && (ServesRoute(order, call, a) ==> Before(order, a, b) && !Before(order', a, b))
      && (ServesRoute(order, call, b) ==> !Before(order, a, b) && Before(order', a, b))
      && (!ServesRoute(order, call, a) && !ServesRoute(order, call, b) ==>
            Before(order', a, b) == Before(order, a, b))
  {
    NextKeepsListing(order, call);
    match call
    case Declare(s) =>
      IndexOfAppend(order, a, s);
      IndexOfAppend(order, b, s);
    case Serve(bindings, ready) =>
      FirstReadyIsFirst(order, bindings, ready, a);
      FirstReadyIsFirst(order, bindings, ready, b);
      RotateSwapsAhead(order, FirstReady(order, bindings, ready).value, a, b);
  }

  /** Two routes bound and ready at every reserve are served in turn. */
  lemma {:induction false} RotationAlternates(order: seq<Route>, calls: seq<Call>, a: Route, b: Route)
    requires NoDuplicates(order) && a != b && a in order && b in order
    requires forall i :: 0 <= i < |calls| && calls[i].Serve? ==> CouldServe(calls[i], a) && CouldServe(calls[i], b)
    ensures a in Orders(order, calls) && b in Orders(order, calls)
    ensures Serves(order, calls, a)
              + (if Before(Orders(order, calls), a, b) then 1 else 0)
         == Serves(order, calls, b) + (if Before(order, a, b) then 1 else 0)
    decreases |calls|
  {
    if calls != [] {
      NextKeepsListing(order, calls[0]);
      TurnStep(order, calls[0], a, b);
      RotationAlternates(Next(order, calls[0]), calls[1..], a, b);
    }
  }
}
