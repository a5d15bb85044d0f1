// Asking LND for several routes in a row, each avoiding the channels of the ones before.
module RouteQuery {
  import opened Prelude

  datatype Edge = Edge(chan: nat, reverse: bool)

  // A hop crosses a channel in one direction. LND may leave a hop, or the route, out.
  datatype Route = NoHops | Hops(hops: seq<Option<Edge>>)

  datatype QueryError = DestRequired | AmountRequired | InvalidLastHop | RpcFailed | NoRoute

  // LND's answers, by the number of the request and the edges it asks to ignore: the
  // first route of a response, if it has any.
  type Lnd = (nat, seq<Edge>) -> Result<Option<Route>, QueryError>

  function HopEdges(r: Route): seq<Option<Edge>> {
    if r.NoHops? then [] else r.hops
  }

  // routeToEdgeLocators: both directions of every channel of a route.
  function BothDirections(hops: seq<Option<Edge>>): seq<Edge> {
    if hops == [] then []
    else
      var last := hops[|hops| - 1];
      BothDirections(hops[..|hops| - 1]) + (if last.None? then [] else [Edge(last.value.chan, false), Edge(last.value.chan, true)])
  }

  method RouteToEdgeLocators(r: Route) returns (edges: seq<Edge>)
    ensures edges == BothDirections(HopEdges(r))
  {
    var hops := HopEdges(r);
    edges := [];
    for i := 0 to |hops|
      invariant edges == BothDirections(hops[..i])
    {
      assert hops[..i + 1][..i] == hops[..i];
      if hops[i].Some? {
        edges := edges + [Edge(hops[i].value.chan, false), Edge(hops[i].value.chan, true)];
      }
    }
    assert hops[..|hops|] == hops;
  }

  predicate Crosses(r: Route, chan: nat) {
    exists reverse :: Some(Edge(chan, reverse)) in HopEdges(r)
  }

  lemma {:induction false} BothDirectionsCoverTheRoute(hops: seq<Option<Edge>>, chan: nat, reverse: bool)
    ensures Edge(chan, reverse) in BothDirections(hops) <==> exists way :: Some(Edge(chan, way)) in hops
  {
    if hops != [] {
      var init, last := hops[..|hops| - 1], hops[|hops| - 1];
      BothDirectionsCoverTheRoute(init, chan, reverse);
      assert hops == init + [last];
      assert forall way :: Some(Edge(chan, way)) in hops <==> Some(Edge(chan, way)) in init || last == Some(Edge(chan, way));
      if last.Some? && last.value.chan == chan {
        assert last == Some(Edge(chan, last.value.reverse));
      }
    }
  }

  // The edges of the routes found so far.
  function EdgesOf(routes: seq<Route>): seq<Edge> {
    if routes == [] then []
    else EdgesOf(routes[..|routes| - 1]) + BothDirections(HopEdges(routes[|routes| - 1]))
  }

  lemma {:induction false} EdgesOfCoverTheRoutes(routes: seq<Route>, i: nat, edge: Edge)
    requires i < |routes| && Crosses(routes[i], edge.chan)
    ensures edge in EdgesOf(routes)
  {
    var last := |routes| - 1;
    if i == last {
      BothDirectionsCoverTheRoute(HopEdges(routes[last]), edge.chan, edge.reverse);
    } else {
      EdgesOfCoverTheRoutes(routes[..last], i, edge);
    }
  }

  // They are exactly the two directions of the channels these routes cross.
  lemma {:induction false} EdgesOfAreTheRoutes(routes: seq<Route>, edge: Edge)
    ensures edge in EdgesOf(routes) <==> exists i :: 0 <= i < |routes| && Crosses(routes[i], edge.chan)
  {
    hide Crosses;
    if routes != [] {
      var init, last := routes[..|routes| - 1], routes[|routes| - 1];
      EdgesOfAreTheRoutes(init, edge);
      CrossedOnce(last, edge);
      assert forall i :: 0 <= i < |init| ==> init[i] == routes[i];
      assert Crosses(last, edge.chan) ==> Crosses(routes[|routes| - 1], edge.chan);
    }
  }

  lemma CrossedOnce(r: Route, edge: Edge)
    ensures edge in BothDirections(HopEdges(r)) <==> Crosses(r, edge.chan)
  {
    BothDirectionsCoverTheRoute(HopEdges(r), edge.chan, edge.reverse);
  }

  // LND honours the edges it is asked to ignore.
  ghost predicate Honours(lnd: Lnd) {
    forall k, ignored, edge :: edge in ignored && lnd(k, ignored).Ok? && lnd(k, ignored).value.Some? ==>
                                 Some(edge) !in HopEdges(lnd(k, ignored).value.value)
  }

  // Each route is the answer to a request that ignores the caller's edges and both
  // directions of every channel of the routes before it.
  predicate Answered(lnd: Lnd, ignored: seq<Edge>, routes: seq<Route>) {
    forall i :: 0 <= i < |routes| ==> lnd(i, ignored + EdgesOf(routes[..i])) == Ok(Some(routes[i]))
  }

  lemma NoneAnswered(lnd: Lnd, ignored: seq<Edge>)
    ensures EdgesOf([]) == [] && Answered(lnd, ignored, []) && ignored + [] == ignored
  {
  }

  lemma OneMoreAnswered(lnd: Lnd, ignored: seq<Edge>, routes: seq<Route>, route: Route)
    requires Answered(lnd, ignored, routes) && lnd(|routes|, ignored + EdgesOf(routes)) == Ok(Some(route))
    ensures Answered(lnd, ignored, routes + [route])
    ensures EdgesOf(routes + [route]) == EdgesOf(routes) + BothDirections(HopEdges(route))
  {
    hide BothDirections, HopEdges;
    var longer := routes + [route];
    assert longer[..|routes|] == routes;
    assert EdgesOf(longer) == EdgesOf(routes) + BothDirections(HopEdges(route));
    hide EdgesOf;
    forall i | 0 <= i < |longer|
      ensures lnd(i, ignored + EdgesOf(longer[..i])) == Ok(Some(longer[i]))
    {
      if i < |routes| {
        assert longer[..i] == routes[..i];
      }
    }
  }

  datatype LastHop = AnyHop | ByPubkey | BadHex

  // QueryRoutes
  method QueryRoutes(dest: string, amtSat: int, numRoutes: int, lastHop: LastHop, ignored: seq<Edge>, lnd: Lnd)
    returns (r: Result<seq<Route>, QueryError>)
    ensures dest == "" ==> r == Err(DestRequired)
    ensures dest != "" && amtSat <= 0 ==> r == Err(AmountRequired)
    ensures dest != "" && amtSat > 0 && lastHop == BadHex ==> r == Err(InvalidLastHop)
    ensures dest != "" && amtSat > 0 && lastHop != BadHex ==>
              var first := lnd(0, ignored);
              && (first.Err? ==> r == Err(first.error))
              && (first.Ok? && first.value.None? ==> r == Err(NoRoute))
              && (r.Ok? <==> first.Ok? && first.value.Some?)
    ensures r.Ok? ==>
              var wanted := if numRoutes <= 0 then 1 else numRoutes;
              && 1 <= |r.value| <= wanted && Answered(lnd, ignored, r.value)
              && (|r.value| < wanted ==> var next := lnd(|r.value|, ignored + EdgesOf(r.value)); next.Err? || next.value.None?)
  {
    hide EdgesOf, Answered, BothDirections;
    if dest == "" {
      return Err(DestRequired);
    }
    if amtSat <= 0 {
      return Err(AmountRequired);
    }
    var wanted := if numRoutes <= 0 then 1 else numRoutes;
    var routes: seq<Route> := [];
    var avoided: seq<Edge> := [];
    var i := 0;
    NoneAnswered(lnd, ignored);
    while i < wanted
      invariant 0 <= i <= wanted && |routes| == i
      invariant avoided == EdgesOf(routes) && Answered(lnd, ignored, routes)
      invariant i > 0 ==> lastHop != BadHex && lnd(0, ignored) == Ok(Some(routes[0]))
    {
      if lastHop == BadHex {
        return Err(InvalidLastHop);
      }
      var response := lnd(i, ignored + avoided);
      if response.Err? {
        if routes != [] {
          break;
        }
        return Err(response.error);
      }
      if response.value.None? {
        break;
      }
      var route := response.value.value;
      var edges := RouteToEdgeLocators(route);
      OneMoreAnswered(lnd, ignored, routes, route);
      routes := routes + [route];
      avoided := avoided + edges;
      i := i + 1;
    }
    if routes == [] {
      return Err(NoRoute);
    }
    return Ok(routes);
  }

  // If LND honours ignored edges, the routes of one call share no channel, and none
  // crosses an edge the caller ignores.
  lemma RoutesAreDisjoint(lnd: Lnd, ignored: seq<Edge>, routes: seq<Route>)
    requires Honours(lnd) && Answered(lnd, ignored, routes)
    ensures forall i, j, chan :: 0 <= i < j < |routes| ==> !(Crosses(routes[i], chan) && Crosses(routes[j], chan))
    ensures forall i, edge :: 0 <= i < |routes| && edge in ignored ==> Some(edge) !in HopEdges(routes[i])
  {
    forall i, edge | 0 <= i < |routes| && edge in ignored
      ensures Some(edge) !in HopEdges(routes[i])
    {
      assert edge in ignored + EdgesOf(routes[..i]);
    }
    forall i, j, chan | 0 <= i < j < |routes|
      ensures !(Crosses(routes[i], chan) && Crosses(routes[j], chan))
    {
      if Crosses(routes[i], chan) {
        forall reverse
          ensures Some(Edge(chan, reverse)) !in HopEdges(routes[j])
        {
          EdgesOfCoverTheRoutes(routes[..j], i, Edge(chan, reverse));
          assert Edge(chan, reverse) in ignored + EdgesOf(routes[..j]);
        }
      }
    }
  }
}
