/** The path-diversity payment modifier: the tree of `getroute` attempts.

    The root of the tree is the shortest route to the destination.  Each
    child of a route bans the channels between the two ends of one of its
    hops, in addition to everything its ancestors ban, and the tree is
    walked breadth-first with a FIFO queue of tree edges.  A cache of the
    node sequences already produced skips routes seen before.  `getroute`,
    `listchannels` and the payment framework are outside this model: their
    answers arrive as parameters. */
module PathDiversity {
  import opened Wrappers
  import opened MachineInts
  import opened Routing
  import opened Route

  /** `struct pathdiversity_edge`: a tree edge naming the pair of nodes whose
      channels it bans, and its parent edge (NULL at the top).  Edges are
      shared by reference counting and never change after creation, so they
      are values here. */
  datatype Edge = Edge(source: NodeId, destination: NodeId, parent: Option<Edge>)

  /** The edge and its ancestors, nearest first. */
  function Chain(e: Option<Edge>): (r: seq<Edge>)
    ensures e.Some? ==> |r| > 0 && r[0] == e.value
  {
    match e
    case None => []
    case Some(x) => [x] + Chain(x.parent)
  }

  /** A `listchannels source=<node>` answer: the half-channels leaving the
      node, each with its short channel id and the node it reaches. */
  type Listing = NodeId -> seq<Chan>

  /** The channels of a `listchannels` answer that reach `destination`, in
      answer order. */
  function ScidsTo(chans: seq<Chan>, destination: NodeId): (r: seq<Scid>)
    ensures forall s :: s in r <==> exists c :: c in chans && c.peer == destination && c.scid == s
  {
    if chans == [] then []
    else
      var last := chans[|chans| - 1];
      assert chans == chans[..|chans| - 1] + [last];
      ScidsTo(chans[..|chans| - 1], destination) + (if last.peer == destination then [last.scid] else [])
  }

  /** What `pathdiversity_get_exclusions` hands to its callback: for the edge
      and each ancestor in turn, every channel between the edge's two nodes. */
  function Exclusions(e: Option<Edge>, listing: Listing): seq<Scid>
  {
    match e
    case None => []
    case Some(x) => ScidsTo(listing(x.source), x.destination) + Exclusions(x.parent, listing)
  }

  /** A channel is excluded exactly when it joins the two nodes of the edge
      or of one of its ancestors. */
  lemma {:induction false} ExclusionsOfChain(e: Option<Edge>, listing: Listing, s: Scid)
    ensures s in Exclusions(e, listing) <==>
              exists a :: a in Chain(e) && s in ScidsTo(listing(a.source), a.destination)
  {
    match e
    case None =>
    case Some(x) =>
      ExclusionsOfChain(x.parent, listing, s);
      assert Chain(e) == [x] + Chain(x.parent);
  }

  /** The inner loop of `pathdiversity_exclusion_after_listchannels`: keep the
      channels that reach the edge's destination. */
  method ChannelsTo(chans: seq<Chan>, destination: NodeId) returns (scids: seq<Scid>)
    ensures scids == ScidsTo(chans, destination)
  {
    scids := [];
    var i := 0;
    while i < |chans|
      invariant 0 <= i <= |chans|
      invariant scids == ScidsTo(chans[..i], destination)
    {
      assert chans[..i + 1][..i] == chans[..i];
      if chans[i].peer == destination {
        scids := scids + [chans[i].scid];
      }
      i := i + 1;
    }
    assert chans[..i] == chans;
  }

  /** `pathdiversity_get_exclusions` with its continuation steps: walk the
      parent chain from the edge up to the top, one `listchannels` per
      edge. */
  method GetExclusions(e: Option<Edge>, listing: Listing) returns (excludes: seq<Scid>)
    ensures excludes == Exclusions(e, listing)
  {
    excludes := [];
    var current := e;
    while current.Some?
      invariant excludes + Exclusions(current, listing) == Exclusions(e, listing)
      decreases current
    {
      var found := ChannelsTo(listing(current.value.source), current.value.destination);
      assert Exclusions(current, listing) == found + Exclusions(current.value.parent, listing);
      excludes := excludes + found;
      current := current.value.parent;
    }
  }

  /** The exclusions `pathdiversity_getroute_got_exclusions` adds to the
      `getroute` request: both directions of every channel. */
  function BothDirections(scids: seq<Scid>): (r: seq<ScidDir>)
    ensures |r| == 2 * |scids|
    ensures forall s, d: Direction :: ScidDir(s, d) in r <==> s in scids
  {
    if scids == [] then []
    else
      var rest := BothDirections(scids[1..]);
      assert forall s :: s in scids <==> s == scids[0] || s in scids[1..];
      [ScidDir(scids[0], 0), ScidDir(scids[0], 1)] + rest
  }

  /** A tree edge's request bans a half-channel exactly when it joins, in
      either direction, the two nodes of the edge or of one of its
      ancestors. */
  lemma BannedIffOnChain(e: Option<Edge>, listing: Listing, s: Scid, d: Direction)
    ensures ScidDir(s, d) in BothDirections(Exclusions(e, listing)) <==>
              exists a, c :: a in Chain(e) && c in listing(a.source) && c.peer == a.destination && c.scid == s
  {
    ExclusionsOfChain(e, listing, s);
  }

  /** `struct pathdiversity_queue`: a FIFO queue of tree edges. */
  class EdgeQueue {
    var edges: seq<Edge>

    /** `new_pathdiversity_queue`. */
    constructor ()
      ensures edges == []
    {
      edges := [];
    }

    /** `pathdiversity_queue_push`: add at the tail. */
    method Push(e: Edge)
      modifies this
      ensures edges == old(edges) + [e]
    {
      edges := edges + [e];
    }

    /** `pathdiversity_queue_pop`: remove the head, or `None` (NULL) when the
        queue is empty. */
    method Pop() returns (e: Option<Edge>)
      modifies this
      ensures old(edges) == [] ==> e == None && edges == []
      ensures old(edges) != [] ==> e == Some(old(edges)[0]) && edges == old(edges)[1..]
    {
      if edges == [] {
        return None;
      }
      e := Some(edges[0]);
      edges := edges[1..];
    }

    /** `pathdiversity_queue_clear`. */
    method Clear()
      modifies this
      ensures edges == []
    {
      edges := [];
    }
  }

  /** The edges `pathdiversity_getroute_ok` creates for a new route: one per
      hop, from our node along the route, all children of the current edge. */
  function RouteEdges(localId: NodeId, route: seq<RouteHop>, parent: Option<Edge>): (r: seq<Edge>)
    ensures |r| == |route|
    ensures |r| > 0 ==> r[0].source == localId
    ensures forall i :: 0 < i < |r| ==> r[i].source == r[i - 1].destination
    ensures forall i :: 0 <= i < |r| ==> r[i].destination == route[i].nodeId && r[i].parent == parent
  {
    seq(|route|, i requires 0 <= i < |route| =>
          Edge(if i == 0 then localId else route[i - 1].nodeId, route[i].nodeId, parent))
  }

  /** Push the edges of a new route, first hop first. */
  method PushRouteEdges(queue: EdgeQueue, localId: NodeId, route: seq<RouteHop>, parent: Option<Edge>)
    requires |route| > 0
    modifies queue
    ensures queue.edges == old(queue.edges) + RouteEdges(localId, route, parent)
  {
    ghost var edges := RouteEdges(localId, route, parent);
    queue.Push(Edge(localId, route[0].nodeId, parent));
    var i := 1;
    while i < |route|
      invariant 1 <= i <= |route|
      invariant queue.edges == old(queue.edges) + edges[..i]
    {
      assert edges[..i + 1] == edges[..i] + [edges[i]];
      queue.Push(Edge(route[i - 1].nodeId, route[i].nodeId, parent));
      i := i + 1;
    }
    assert edges[..i] == edges;
  }

  /** `struct pathdiversity_routecache`: the node sequences of the routes
      already produced, oldest first.  No sequence is stored twice. */
  class RouteCache {
    var routes: seq<seq<NodeId>>

    ghost predicate Valid()
      reads this
    {
      forall i, j :: 0 <= i < j < |routes| ==> routes[i] != routes[j]
    }

    /** `new_pathdiversity_routecache`. */
    constructor ()
      ensures Valid() && routes == []
    {
      routes := [];
    }

    /** `pathdiversity_routecache_lookup_or_insert`: false when a stored
        route has the same node sequence; otherwise the sequence is stored
        and the answer is true.  Either way the sequence is stored after the
        call, so repeating the call at once answers false. */
    method LookupOrInsert(route: seq<RouteHop>) returns (inserted: bool)
      requires Valid()
      modifies this
      ensures Valid()
      ensures inserted <==> NodesOf(route) !in old(routes)
      ensures routes == if inserted then old(routes) + [NodesOf(route)] else old(routes)
      ensures NodesOf(route) in routes
    {
      var i := 0;
      while i < |routes|
        invariant 0 <= i <= |routes| && routes == old(routes)
        invariant forall k :: |routes| - i <= k < |routes| ==> routes[k] != NodesOf(route)
      {
        var scan := routes[|routes| - 1 - i];
        if |scan| == |route| {
          var same := SameNodes(scan, route);
          if same {
            return false;
          }
        }
        i := i + 1;
      }
      assert NodesOf(route) !in routes;
      var toInsert := CopyNodeIds(route);
      routes := routes + [toInsert];
      return true;
    }

    /** `pathdiversity_routecache_clear`. */
    method Clear()
      modifies this
      ensures Valid() && routes == []
    {
      routes := [];
    }
  }

  /** The element-by-element comparison of a stored sequence with a route of
      the same length. */
  method SameNodes(scan: seq<NodeId>, route: seq<RouteHop>) returns (same: bool)
    requires |scan| == |route|
    ensures same <==> scan == NodesOf(route)
  {
    var j := 0;
    while j < |scan|
      invariant 0 <= j <= |scan|
      invariant forall k :: 0 <= k < j ==> scan[k] == route[k].nodeId
    {
      if scan[j] != route[j].nodeId {
        return false;
      }
      j := j + 1;
    }
    return true;
  }

  /** The copy of a route's node ids that the cache stores. */
  method CopyNodeIds(route: seq<RouteHop>) returns (ids: seq<NodeId>)
    ensures ids == NodesOf(route)
  {
    ids := [];
    var i := 0;
    while i < |route|
      invariant 0 <= i <= |route|
      invariant ids == NodesOf(route[..i])
    {
      ids := ids + [route[i].nodeId];
      i := i + 1;
    }
    assert route[..i] == route;
  }

  /** `enum pathdiversity_constraint_violation`. */
  datatype Violation = WithinBudget | OutOfFees | OutOfTime

  /** The payment's amount and its remaining fee and CLTV budgets. */
  datatype Budget = Budget(amount: u64, feeBudget: u64, cltvBudget: u32)

  /** `pathdiversity_check_constraints`: the fee is what the first hop
      carries beyond the amount to deliver; `None` when that is negative
      (the payment is aborted).  The fee budget is checked before the
      CLTV budget. */
  function CheckConstraints(route: seq<RouteHop>, budget: Budget): (r: Option<(Violation, u64)>)
    requires |route| > 0
    ensures r.None? <==> route[0].amount < budget.amount
    ensures r.Some? ==> r.value.1 + budget.amount == route[0].amount
    ensures r.Some? ==> (r.value.0 == WithinBudget <==>
                           r.value.1 <= budget.feeBudget && route[0].delay <= budget.cltvBudget)
    ensures r.Some? ==> (r.value.0 == OutOfFees <==> r.value.1 > budget.feeBudget)
  {
    if route[0].amount < budget.amount then None
    else
      var fee := route[0].amount - budget.amount;
      if fee > budget.feeBudget then Some((OutOfFees, fee))
      else if route[0].delay > budget.cltvBudget then Some((OutOfTime, fee))
      else Some((WithinBudget, fee))
  }

  /** What happens after one `getroute` answer. */
  datatype Outcome =
    | Retry                          // `pathdiversity_getroute_step` runs again
    | Found(route: seq<RouteHop>)    // the payment continues with this route
    | NoRoute                        // the payment fails: no route even without extra bans
    | OverBudget(violation: Violation) // the payment fails: the unbanned route is over budget
    | NegativeFee                    // the payment is aborted: the route pays less than the amount

  /** `struct pathdiversity_getroute_attempt`: one payment's search, over the
      queue and route cache of its destination. */
  class Attempt {
    const queue: EdgeQueue
    const cache: RouteCache
    /** `gr->e`: the tree edge being tried, `None` at the root. */
    var edge: Option<Edge>

    /** `pathdiversity_getroute`. */
    constructor (queue: EdgeQueue, cache: RouteCache)
      ensures this.queue == queue && this.cache == cache && edge == None
    {
      this.queue := queue;
      this.cache := cache;
      edge := None;
    }

    /** `pathdiversity_getroute_step` through `got_exclusions`: take the next
        tree edge (on an empty queue start again at the root and forget the
        cached routes), and build the `getroute` exclusions from the
        payment's own (`paymentExcludes`) and the edge's chain. */
    method Step(listing: Listing, paymentExcludes: seq<ScidDir>) returns (excludes: seq<ScidDir>)
      requires cache.Valid()
      modifies this, queue, cache
      ensures cache.Valid()
      ensures old(queue.edges) == [] ==> edge == None && queue.edges == [] && cache.routes == []
      ensures old(queue.edges) != [] ==>
                && edge == Some(old(queue.edges)[0])
                && queue.edges == old(queue.edges)[1..]
                && cache.routes == old(cache.routes)
      ensures excludes == paymentExcludes + BothDirections(Exclusions(edge, listing))
    {
      edge := queue.Pop();
      if edge.None? {
        cache.Clear();
      }
      var scids := GetExclusions(edge, listing);
      excludes := paymentExcludes + BothDirections(scids);
    }

    /** `pathdiversity_getroute_fail`: without extra bans there is no route
        at all; with them, try the next edge. */
    function Failed(): (r: Outcome)
      reads this
      ensures r == NoRoute <==> edge.None?
      ensures r.NoRoute? || r.Retry?
    {
      if edge.None? then NoRoute else Retry
    }

    /** `pathdiversity_getroute_ok`: a route seen before is skipped; a new
        one is cached and its edges queued, then checked against the
        budgets.  A route over budget fails the payment at the root and
        otherwise empties the queue so that the next step starts again at
        the root.  At the root with an empty cache it never asks to retry. */
    method GotRoute(route: seq<RouteHop>, localId: NodeId, budget: Budget) returns (outcome: Outcome)
      requires |route| > 0 && cache.Valid()
      modifies queue, cache
      ensures cache.Valid()
      ensures NodesOf(route) in old(cache.routes) ==>
                outcome == Retry && queue.edges == old(queue.edges) && cache.routes == old(cache.routes)
      ensures NodesOf(route) !in old(cache.routes) ==>
                && cache.routes == old(cache.routes) + [NodesOf(route)]
                && match CheckConstraints(route, budget)
                   case None =>
                     outcome == NegativeFee && queue.edges == old(queue.edges) + RouteEdges(localId, route, edge)
                   case Some((WithinBudget, _)) =>
                     outcome == Found(route) && queue.edges == old(queue.edges) + RouteEdges(localId, route, edge)
                   case Some((violation, _)) =>
                     if edge.None? then
                       outcome == OverBudget(violation)
                       && queue.edges == old(queue.edges) + RouteEdges(localId, route, edge)
                     else outcome == Retry && queue.edges == []
      ensures edge.None? && old(cache.routes) == [] ==> !outcome.Retry?
    {
      var inserted := cache.LookupOrInsert(route);
      if !inserted {
        return Retry;
      }
      PushRouteEdges(queue, localId, route, edge);
      var checked := CheckConstraints(route, budget);
      if checked.None? {
        return NegativeFee;
      }
      var violation := checked.value.0;
      if violation == WithinBudget {
        return Found(route);
      }
      if edge.None? {
        return OverBudget(violation);
      }
      queue.Clear();
      return Retry;
    }
  }
}
