/** The coster: the settings a refresh prices channels with. */
module Costing {
  import opened MachineInts
  import opened Routing

  /** An IEEE double as far as the refresher uses one: either NaN (the
      "unset" marker) or a number. */
  datatype Double = NaN | Number(value: real)

  /** `struct dhcache_coster`: the sample amount in millisatoshi and the
      risk factor in percent per annum. */
  datatype Coster = Coster(sampleAmount: u64, riskfactor: Double)

  /** The coster of a refresher before any refresh completed:
      `AMOUNT_MSAT(UINT64_MAX)` and NaN. */
  const UNSET_COSTER: Coster := Coster(U64_LIMIT - 1, NaN)

  /** `dhcache_coster_get`: the cost, in millisatoshi, of paying across
      `chan` from `from` to `chan.peer`.  The pricing formula itself is not
      part of this model; any such function may be supplied. */
  type ChannelCost = (Coster, NodeId, Chan) -> u64
}

/** The specification of one refresh sweep: an incremental Dijkstra from
    the landmark over the writer slots, with distances saturating at
    `DHCACHE_MAXIMUM_DISTANCE`.

    The sweep is label-correcting: the queue has no decrease-priority, so a
    node may be queued several times and every popped entry is relaxed
    again.  The invariant that makes this correct is that every visited
    node is either still queued or has all its channels relaxed.  When the
    queue runs dry, every walk from the landmark therefore ends at a
    visited node no farther than the walk's saturated cost, and each visited
    node's distance is the saturated cost of a walk that reaches it. */
module Sweep {
  import opened MachineInts
  import opened Routing
  import opened DistanceCache
  import opened PriorityQueue
  import opened Costing

  /** What a sweep runs over: the channels of the graph, the landmark, the
      writer slot and the costing. */
  datatype Sweep = Sweep(
    channels: map<NodeId, seq<Chan>>,
    landmark: NodeId,
    writer: Writer,
    coster: Coster,
    costOf: ChannelCost)

  function Cost(s: Sweep, from: NodeId, c: Chan): u64 {
    s.costOf(s.coster, from, c)
  }

  /** A total in the distance range: "Keep within range". */
  function Sat(x: nat): Distance {
    if x > DHCACHE_MAXIMUM_DISTANCE then DHCACHE_MAXIMUM_DISTANCE else x
  }

  /** Saturating twice is saturating once. */
  lemma SatOfSat(a: nat, c: nat)
    ensures Sat(Sat(a) + c) == Sat(a + c)
  {
  }

  /** The candidate distance of a neighbour reached from a node at distance
      `du` over a channel costing `cost`: the sum, capped at the maximum
      distance.  It is never below `du`. */
  function Candidate(du: Distance, cost: u64): (d: Distance)
    ensures du <= d <= du + cost
    ensures d == du + cost || d == DHCACHE_MAXIMUM_DISTANCE
  {
    Sat(du + cost)
  }

  /** The candidate as the source computes it: the sum is taken in 64-bit
      unsigned arithmetic and only then capped.  It agrees with `Candidate`
      whenever the sum does not wrap. */
  function CandidateAsWritten(du: Distance, cost: u64): (d: Distance)
    ensures du + cost < U64_LIMIT ==> d == Candidate(du, cost)
  {
    Sat(AddU64(du, cost))
  }

  /** When the 64-bit sum wraps, the candidate falls below the node's own
      distance: a node at distance 1 and a channel costing 2^64 - 1 give the
      neighbour distance 0 instead of the capped maximum. */
  lemma CandidateAsWrittenWraps()
    ensures CandidateAsWritten(1, U64_LIMIT - 1) == 0
    ensures Candidate(1, U64_LIMIT - 1) == DHCACHE_MAXIMUM_DISTANCE
  {
  }

  // ---------------------------------------------------------------------
  // Walks from the landmark

  /** One step of a walk: the channel `chan` taken from node `from`. */
  datatype Hop = Hop(from: NodeId, chan: Chan)

  /** `p` is a walk from the landmark along channels of the graph. */
  ghost predicate IsWalk(s: Sweep, p: seq<Hop>) {
    && (|p| > 0 ==> p[0].from == s.landmark)
    && (forall i :: 0 <= i < |p| ==> p[i].from in s.channels && p[i].chan in s.channels[p[i].from])
    && (forall i :: 0 < i < |p| ==> p[i].from == p[i - 1].chan.peer)
  }

  /** The node a walk ends at. */
  function WalkEnd(s: Sweep, p: seq<Hop>): NodeId {
    if p == [] then s.landmark else p[|p| - 1].chan.peer
  }

  /** The total cost of a walk, without saturation. */
  function WalkCost(s: Sweep, p: seq<Hop>): nat {
    if p == [] then 0 else WalkCost(s, p[..|p| - 1]) + Cost(s, p[|p| - 1].from, p[|p| - 1].chan)
  }

  ghost predicate Reachable(s: Sweep, v: NodeId) {
    exists p :: IsWalk(s, p) && WalkEnd(s, p) == v
  }

  /** Extending a walk by a channel of its end node. */
  lemma WalkExtend(s: Sweep, p: seq<Hop>, c: Chan)
    requires IsWalk(s, p) && WalkEnd(s, p) in s.channels && c in s.channels[WalkEnd(s, p)]
    ensures IsWalk(s, p + [Hop(WalkEnd(s, p), c)])
    ensures WalkEnd(s, p + [Hop(WalkEnd(s, p), c)]) == c.peer
    ensures WalkCost(s, p + [Hop(WalkEnd(s, p), c)]) == WalkCost(s, p) + Cost(s, WalkEnd(s, p), c)
  {
    assert (p + [Hop(WalkEnd(s, p), c)])[..|p|] == p;
  }

  /** Dropping the last hop of a walk leaves a walk ending where that hop
      starts. */
  lemma WalkTruncate(s: Sweep, p: seq<Hop>)
    requires IsWalk(s, p) && p != []
    ensures IsWalk(s, p[..|p| - 1])
    ensures WalkEnd(s, p[..|p| - 1]) == p[|p| - 1].from
  {
  }

  // ---------------------------------------------------------------------
  // The writer slots seen by a sweep

  ghost predicate Visited(s: Sweep, dist: map<NodeId, SlotPair>, v: NodeId)
    requires v in dist
  {
    WriterGetVisited(s.writer, dist[v])
  }

  function Dist(s: Sweep, dist: map<NodeId, SlotPair>, v: NodeId): Distance
    requires v in dist
  {
    WriterGetDistance(s.writer, dist[v])
  }

  /** The node map and the channel map have the same nodes, and every
      channel leads to a node of the map. */
  ghost predicate GraphOk(s: Sweep, dist: map<NodeId, SlotPair>) {
    && dist.Keys == s.channels.Keys
    && forall u, c :: u in s.channels && c in s.channels[u] ==> c.peer in s.channels
  }

  // ---------------------------------------------------------------------
  // Relaxation

  /** What relaxing some channels produced: the new node map and the
      entries pushed onto the queue, in order. */
  datatype Relaxation = Relaxation(dist: map<NodeId, SlotPair>, pushed: seq<Entry<NodeId>>)

  /** Relaxing the channel `c` of the node `u`, whose distance is `du`: the
      neighbour is marked visited, given the candidate distance and pushed
      with it as priority exactly when it was unvisited or the candidate is
      strictly smaller than its distance. */
  function RelaxChannel(s: Sweep, dist: map<NodeId, SlotPair>, u: NodeId, du: Distance, c: Chan): (r: Relaxation)
    requires c.peer in dist
    ensures r.dist.Keys == dist.Keys
  {
    var cand := Candidate(du, Cost(s, u, c));
    if !WriterGetVisited(s.writer, dist[c.peer]) || WriterGetDistance(s.writer, dist[c.peer]) > cand then
      Relaxation(dist[c.peer := DistanceSet(s.writer, MarkedVisited(s.writer, dist[c.peer]), cand)], [Entry(cand, c.peer)])
    else
      Relaxation(dist, [])
  }

  /** Relaxing the channels `cs` of `u` one after the other. */
  function RelaxChannels(s: Sweep, dist: map<NodeId, SlotPair>, u: NodeId, du: Distance, cs: seq<Chan>): (r: Relaxation)
    requires forall c | c in cs :: c.peer in dist
    ensures r.dist.Keys == dist.Keys
    decreases |cs|
  {
    if cs == [] then Relaxation(dist, [])
    else
      var r0 := RelaxChannels(s, dist, u, du, cs[..|cs| - 1]);
      var r1 := RelaxChannel(s, r0.dist, u, du, cs[|cs| - 1]);
      Relaxation(r1.dist, r0.pushed + r1.pushed)
  }

  /** Relaxing one more channel of `cs` relaxes it on the result of the
      previous ones. */
  lemma RelaxChannelsSnoc(s: Sweep, dist: map<NodeId, SlotPair>, u: NodeId, du: Distance, cs: seq<Chan>, i: nat)
    requires forall c | c in cs :: c.peer in dist
    requires i < |cs|
    ensures cs[i].peer in RelaxChannels(s, dist, u, du, cs[..i]).dist
    ensures RelaxChannels(s, dist, u, du, cs[..i + 1]) ==
              Relaxation(RelaxChannel(s, RelaxChannels(s, dist, u, du, cs[..i]).dist, u, du, cs[i]).dist,
                         RelaxChannels(s, dist, u, du, cs[..i]).pushed
                         + RelaxChannel(s, RelaxChannels(s, dist, u, du, cs[..i]).dist, u, du, cs[i]).pushed)
  {
    assert cs[..i + 1][..i] == cs[..i];
    assert cs[i] in cs;
  }

  /** Relaxation never unvisits a node, never increases a distance, and
      never touches a reader slot. */
  lemma {:induction false} RelaxChannelsMonotone(s: Sweep, dist: map<NodeId, SlotPair>, u: NodeId, du: Distance, cs: seq<Chan>)
    requires forall c | c in cs :: c.peer in dist
    ensures forall v | v in dist ::
              && (Visited(s, dist, v) ==>
                    Visited(s, RelaxChannels(s, dist, u, du, cs).dist, v) &&
                    Dist(s, RelaxChannels(s, dist, u, du, cs).dist, v) <= Dist(s, dist, v))
              && RelaxChannels(s, dist, u, du, cs).dist[v][1 - s.writer.selector] == dist[v][1 - s.writer.selector]
    decreases |cs|
  {
    if cs != [] {
      var cs0 := cs[..|cs| - 1];
      assert forall c | c in cs0 :: c in cs;
      RelaxChannelsMonotone(s, dist, u, du, cs0);
    }
  }

  /** After relaxing `cs`, every neighbour reached over one of them is
      visited and no farther than its candidate distance. */
  lemma {:induction false} RelaxChannelsRelaxesAll(s: Sweep, dist: map<NodeId, SlotPair>, u: NodeId, du: Distance, cs: seq<Chan>)
    requires forall c | c in cs :: c.peer in dist
    ensures forall c | c in cs ::
              && Visited(s, RelaxChannels(s, dist, u, du, cs).dist, c.peer)
              && Dist(s, RelaxChannels(s, dist, u, du, cs).dist, c.peer) <= Candidate(du, Cost(s, u, c))
    decreases |cs|
  {
    if cs != [] {
      var cs0 := cs[..|cs| - 1];
      assert forall c | c in cs0 :: c in cs;
      RelaxChannelsRelaxesAll(s, dist, u, du, cs0);
      var r0 := RelaxChannels(s, dist, u, du, cs0);
      var last := cs[|cs| - 1];
      var r := RelaxChannels(s, dist, u, du, cs);
      assert r.dist == RelaxChannel(s, r0.dist, u, du, last).dist;
      forall c | c in cs
        ensures Visited(s, r.dist, c.peer) && Dist(s, r.dist, c.peer) <= Candidate(du, Cost(s, u, c))
      {
        if c != last {
          assert c in cs0 by {
            var i :| 0 <= i < |cs| && cs[i] == c;
            assert i < |cs| - 1;
            assert cs0[i] == c;
          }
        }
      }
    }
  }

  /** Every pushed entry names a node left visited at a distance no greater
      than the entry's priority, and a node that is never pushed keeps its
      slots. */
  lemma {:induction false} RelaxChannelsPushesChanges(s: Sweep, dist: map<NodeId, SlotPair>, u: NodeId, du: Distance, cs: seq<Chan>)
    requires forall c | c in cs :: c.peer in dist
    ensures forall e | e in RelaxChannels(s, dist, u, du, cs).pushed ::
              && e.item in dist
              && Visited(s, RelaxChannels(s, dist, u, du, cs).dist, e.item)
              && Dist(s, RelaxChannels(s, dist, u, du, cs).dist, e.item) <= e.priority
    ensures forall v | v in dist && (forall e | e in RelaxChannels(s, dist, u, du, cs).pushed :: e.item != v) ::
              RelaxChannels(s, dist, u, du, cs).dist[v] == dist[v]
    decreases |cs|
  {
    if cs != [] {
      var cs0 := cs[..|cs| - 1];
      assert forall c | c in cs0 :: c in cs;
      RelaxChannelsPushesChanges(s, dist, u, du, cs0);
      RelaxChannelsMonotone(s, dist, u, du, cs0);
      var r0 := RelaxChannels(s, dist, u, du, cs0);
      var r1 := RelaxChannel(s, r0.dist, u, du, cs[|cs| - 1]);
      var r := RelaxChannels(s, dist, u, du, cs);
      assert r == Relaxation(r1.dist, r0.pushed + r1.pushed);
      forall e | e in r.pushed
        ensures e.item in dist && Visited(s, r.dist, e.item) && Dist(s, r.dist, e.item) <= e.priority
      {
        if e !in r1.pushed {
          assert e in r0.pushed;
          if e.item in dist && Visited(s, r0.dist, e.item) && r1.dist[e.item] != r0.dist[e.item] {
            assert e.item == cs[|cs| - 1].peer;
          }
        }
      }
    }
  }

  // ---------------------------------------------------------------------
  // The sweep invariant

  /** The node `x` is named by some queued entry. */
  ghost predicate Queued(q: multiset<Entry<NodeId>>, x: NodeId) {
    exists e | e in q :: e.item == x
  }

  /** The channel `c` of `x` is relaxed: its peer is visited and no farther
      than the candidate through `x`. */
  ghost predicate Relaxed(s: Sweep, dist: map<NodeId, SlotPair>, x: NodeId, c: Chan)
    requires x in dist
  {
    c.peer in dist && Visited(s, dist, c.peer) && Dist(s, dist, c.peer) <= Candidate(Dist(s, dist, x), Cost(s, x, c))
  }

  ghost predicate ChannelsRelaxed(s: Sweep, dist: map<NodeId, SlotPair>, x: NodeId, cs: seq<Chan>)
    requires x in dist
  {
    forall c | c in cs :: Relaxed(s, dist, x, c)
  }

  /** Every visited node is queued or has all its channels relaxed. */
  ghost predicate Closed(s: Sweep, dist: map<NodeId, SlotPair>, q: multiset<Entry<NodeId>>) {
    forall x | x in dist && Visited(s, dist, x) && !Queued(q, x) ::
      x in s.channels && ChannelsRelaxed(s, dist, x, s.channels[x])
  }

  /** `Closed`, except that of the node `u` being relaxed only the first
      `k` channels are known to be relaxed. */
  ghost predicate ClosedExcept(s: Sweep, dist: map<NodeId, SlotPair>, q: multiset<Entry<NodeId>>, u: NodeId, k: nat) {
    && u in s.channels && k <= |s.channels[u]|
    && forall x | x in dist && Visited(s, dist, x) && !Queued(q, x) ::
         x in s.channels && ChannelsRelaxed(s, dist, x, if x == u then s.channels[x][..k] else s.channels[x])
  }

  /** The landmark is visited at distance 0. */
  ghost predicate LandmarkSeeded(s: Sweep, dist: map<NodeId, SlotPair>) {
    s.landmark in dist && Visited(s, dist, s.landmark) && Dist(s, dist, s.landmark) == 0
  }

  /** Every queued entry names a visited node. */
  ghost predicate QueueVisited(s: Sweep, dist: map<NodeId, SlotPair>, q: multiset<Entry<NodeId>>) {
    forall e | e in q :: e.item in dist && Visited(s, dist, e.item)
  }

  /** Every visited node's distance is the saturated cost of the walk
      `paths` records for it. */
  ghost predicate Witnessed(s: Sweep, dist: map<NodeId, SlotPair>, paths: map<NodeId, seq<Hop>>) {
    forall v | v in dist && Visited(s, dist, v) ::
      v in paths && IsWalk(s, paths[v]) && WalkEnd(s, paths[v]) == v && Sat(WalkCost(s, paths[v])) == Dist(s, dist, v)
  }

  /** The invariant between two steps of the sweep. */
  ghost predicate SweepState(s: Sweep, dist: map<NodeId, SlotPair>, q: multiset<Entry<NodeId>>, paths: map<NodeId, seq<Hop>>) {
    && GraphOk(s, dist)
    && LandmarkSeeded(s, dist)
    && QueueVisited(s, dist, q)
    && Witnessed(s, dist, paths)
    && Closed(s, dist, q)
  }

  /** The invariant while the popped node `u`, at distance `du`, has had its
      first `k` channels relaxed. */
  ghost predicate Relaxing(s: Sweep, dist: map<NodeId, SlotPair>, q: multiset<Entry<NodeId>>, paths: map<NodeId, seq<Hop>>,
                           u: NodeId, du: Distance, k: nat) {
    && GraphOk(s, dist)
    && LandmarkSeeded(s, dist)
    && QueueVisited(s, dist, q)
    && Witnessed(s, dist, paths)
    && ClosedExcept(s, dist, q, u, k)
    && u in dist && Visited(s, dist, u) && Dist(s, dist, u) == du
  }

  /** The writer slots after `refresh_process_step_init`: all cleared, then
      the landmark set to distance 0 and marked visited. */
  function SeededSlots(w: Writer, dist: map<NodeId, SlotPair>, landmark: NodeId): map<NodeId, SlotPair>
    requires landmark in dist
  {
    var cleared := ClearedSlots(w, dist);
    cleared[landmark := MarkedVisited(w, DistanceSet(w, cleared[landmark], 0))]
  }

  /** The state `refresh_process_step_init` leaves satisfies the sweep
      invariant: only the landmark is visited, at distance 0, and it is the
      one queued entry. */
  lemma SeedingStartsSweep(s: Sweep, dist: map<NodeId, SlotPair>)
    requires GraphOk(s, dist) && s.landmark in dist
    ensures SweepState(s, SeededSlots(s.writer, dist, s.landmark), multiset{Entry(0, s.landmark)}, map[s.landmark := []])
  {
    var seeded := SeededSlots(s.writer, dist, s.landmark);
    var q := multiset{Entry(0, s.landmark)};
    ClearedSlotsAreUnvisited(s.writer, dist);
    assert Queued(q, s.landmark) by {
      assert Entry(0, s.landmark) in q;
    }
    forall v | v in seeded && Visited(s, seeded, v)
      ensures v == s.landmark
    {
    }
  }

  /** Removing an entry for another node leaves `x` queued. */
  lemma QueuedAfterRemoval(q: multiset<Entry<NodeId>>, e: Entry<NodeId>, x: NodeId)
    requires x != e.item
    ensures Queued(q, x) ==> Queued(q - multiset{e}, x)
  {
    if Queued(q, x) {
      var e' :| e' in q && e'.item == x;
      assert e' in q - multiset{e};
    }
  }

  /** Adding an entry leaves `x` queued. */
  lemma QueuedAfterAddition(q: multiset<Entry<NodeId>>, e: Entry<NodeId>, x: NodeId)
    ensures Queued(q, x) ==> Queued(q + multiset{e}, x)
  {
    if Queued(q, x) {
      var e' :| e' in q && e'.item == x;
      assert e' in q + multiset{e};
    }
  }

  /** Popping an entry from a queue satisfying the sweep invariant starts
      the relaxation of the popped node's channels. */
  lemma PopStartsRelaxing(s: Sweep, dist: map<NodeId, SlotPair>, q: multiset<Entry<NodeId>>, paths: map<NodeId, seq<Hop>>,
                          e: Entry<NodeId>)
    requires SweepState(s, dist, q, paths) && e in q
    ensures e.item in dist
    ensures Relaxing(s, dist, q - multiset{e}, paths, e.item, Dist(s, dist, e.item), 0)
  {
    var q' := q - multiset{e};
    forall x | x in dist && Visited(s, dist, x) && !Queued(q', x)
      ensures x in s.channels && ChannelsRelaxed(s, dist, x, if x == e.item then s.channels[x][..0] else s.channels[x])
    {
      if x != e.item {
        QueuedAfterRemoval(q, e, x);
      }
    }
  }

  /** A channel whose peer is already visited no farther than the candidate
      changes nothing, and counts as relaxed. */
  lemma RelaxKeepsWhenNotImproving(s: Sweep, dist: map<NodeId, SlotPair>, q: multiset<Entry<NodeId>>, paths: map<NodeId, seq<Hop>>,
                                   u: NodeId, du: Distance, k: nat)
    requires Relaxing(s, dist, q, paths, u, du, k) && k < |s.channels[u]|
    requires s.channels[u][k].peer in dist
    requires Visited(s, dist, s.channels[u][k].peer)
    requires Dist(s, dist, s.channels[u][k].peer) <= Candidate(du, Cost(s, u, s.channels[u][k]))
    ensures Relaxing(s, dist, q, paths, u, du, k + 1)
  {
    var chans := s.channels[u];
    var c := chans[k];
    assert chans[..k + 1] == chans[..k] + [c];
    forall x | x in dist && Visited(s, dist, x) && !Queued(q, x)
      ensures x in s.channels && ChannelsRelaxed(s, dist, x, if x == u then chans[..k + 1] else s.channels[x])
    {
      if x == u {
        forall c' | c' in chans[..k + 1]
          ensures Relaxed(s, dist, u, c')
        {
          if c' != c {
            assert c' in chans[..k];
          }
        }
      }
    }
  }

  /** The slots after an improving relaxation of the channel `c` of `u`. */
  function Improved(s: Sweep, dist: map<NodeId, SlotPair>, u: NodeId, du: Distance, c: Chan): map<NodeId, SlotPair>
    requires c.peer in dist
  {
    dist[c.peer := DistanceSet(s.writer, MarkedVisited(s.writer, dist[c.peer]), Candidate(du, Cost(s, u, c)))]
  }

  /** An improving relaxation keeps every visited node witnessed: the
      neighbour's new walk is the walk of `u` followed by `c`. */
  lemma ImprovingKeepsWitnessed(s: Sweep, dist: map<NodeId, SlotPair>, q: multiset<Entry<NodeId>>, paths: map<NodeId, seq<Hop>>,
                                u: NodeId, du: Distance, k: nat)
    requires Relaxing(s, dist, q, paths, u, du, k) && k < |s.channels[u]|
    requires s.channels[u][k].peer in dist
    ensures Witnessed(s, Improved(s, dist, u, du, s.channels[u][k]),
                      paths[s.channels[u][k].peer := paths[u] + [Hop(u, s.channels[u][k])]])
  {
    var c := s.channels[u][k];
    var v := c.peer;
    var dist' := Improved(s, dist, u, du, c);
    var paths' := paths[v := paths[u] + [Hop(u, c)]];
    assert c in s.channels[u];
    WalkExtend(s, paths[u], c);
    SatOfSat(WalkCost(s, paths[u]), Cost(s, u, c));
    forall x | x in dist' && Visited(s, dist', x)
      ensures x in paths' && IsWalk(s, paths'[x]) && WalkEnd(s, paths'[x]) == x
              && Sat(WalkCost(s, paths'[x])) == Dist(s, dist', x)
    {
      if x != v {
        assert dist'[x] == dist[x];
        assert Visited(s, dist, x);
      }
    }
  }

  /** An improving relaxation keeps the closure: the neighbour is queued,
      and every other unqueued visited node was unqueued before, with peers
      that have only come nearer. */
  lemma ImprovingKeepsClosed(s: Sweep, dist: map<NodeId, SlotPair>, q: multiset<Entry<NodeId>>, paths: map<NodeId, seq<Hop>>,
                             u: NodeId, du: Distance, k: nat)
    requires Relaxing(s, dist, q, paths, u, du, k) && k < |s.channels[u]|
    requires s.channels[u][k].peer in dist && s.channels[u][k].peer != u
    requires Visited(s, dist, s.channels[u][k].peer) ==>
               Dist(s, dist, s.channels[u][k].peer) > Candidate(du, Cost(s, u, s.channels[u][k]))
    ensures ClosedExcept(s, Improved(s, dist, u, du, s.channels[u][k]),
                         q + multiset{Entry(Candidate(du, Cost(s, u, s.channels[u][k])), s.channels[u][k].peer)}, u, k + 1)
  {
    var chans := s.channels[u];
    var c := chans[k];
    var v := c.peer;
    var cand := Candidate(du, Cost(s, u, c));
    var dist' := Improved(s, dist, u, du, c);
    var e := Entry(cand, v);
    var q' := q + multiset{e};
    assert chans[..k + 1] == chans[..k] + [c];
    assert Visited(s, dist', v) && Dist(s, dist', v) == cand;
    assert Queued(q', v) by {
      assert e in q';
    }
    forall x | x in dist' && Visited(s, dist', x) && !Queued(q', x)
      ensures x in s.channels && ChannelsRelaxed(s, dist', x, if x == u then chans[..k + 1] else s.channels[x])
    {
      assert x != v;
      assert dist'[x] == dist[x];
      QueuedAfterAddition(q, e, x);
      var cs := if x == u then chans[..k + 1] else s.channels[x];
      forall c' | c' in cs
        ensures Relaxed(s, dist', x, c')
      {
        if !(x == u && c' == c) {
          assert c' in (if x == u then chans[..k] else s.channels[x]);
          assert Relaxed(s, dist, x, c');
        }
      }
    }
  }

  /** Relaxing the next channel of `u` keeps the invariant and moves the
      exception one channel on. */
  lemma RelaxChannelKeepsRelaxing(s: Sweep, dist: map<NodeId, SlotPair>, q: multiset<Entry<NodeId>>, paths: map<NodeId, seq<Hop>>,
                                  u: NodeId, du: Distance, k: nat)
    requires Relaxing(s, dist, q, paths, u, du, k) && k < |s.channels[u]|
    ensures s.channels[u][k].peer in dist
    ensures var c := s.channels[u][k];
            var r := RelaxChannel(s, dist, u, du, c);
            Relaxing(s, r.dist, q + multiset(r.pushed),
                     if r.pushed == [] then paths else paths[c.peer := paths[u] + [Hop(u, c)]], u, du, k + 1)
  {
    var c := s.channels[u][k];
    assert c in s.channels[u];
    var v := c.peer;
    var r := RelaxChannel(s, dist, u, du, c);
    var cand := Candidate(du, Cost(s, u, c));
    if r.pushed == [] {
      RelaxKeepsWhenNotImproving(s, dist, q, paths, u, du, k);
    } else {
      var dist' := Improved(s, dist, u, du, c);
      var e := Entry(cand, v);
      assert r == Relaxation(dist', [e]);
      assert multiset(r.pushed) == multiset{e};
      ImprovingKeepsWitnessed(s, dist, q, paths, u, du, k);
      ImprovingKeepsClosed(s, dist, q, paths, u, du, k);
      assert forall x | x in dist && x != v :: dist'[x] == dist[x];
      assert Visited(s, dist', v);
      forall e' | e' in q + multiset{e}
        ensures e'.item in dist' && Visited(s, dist', e'.item)
      {
        if e' != e {
          assert e' in q;
        }
      }
    }
  }

  /** Once all channels of `u` are relaxed the invariant holds again. */
  lemma RelaxingDoneKeepsSweep(s: Sweep, dist: map<NodeId, SlotPair>, q: multiset<Entry<NodeId>>, paths: map<NodeId, seq<Hop>>,
                               u: NodeId, du: Distance)
    requires u in s.channels && Relaxing(s, dist, q, paths, u, du, |s.channels[u]|)
    ensures SweepState(s, dist, q, paths)
  {
    assert s.channels[u][..|s.channels[u]|] == s.channels[u];
  }

  // ---------------------------------------------------------------------
  // Completion

  /** The cache is exact: visited exactly when reachable from the landmark,
      never farther than the saturated cost of any walk, and at the
      saturated cost of some walk. */
  ghost predicate Exact(s: Sweep, dist: map<NodeId, SlotPair>) {
    && (forall v | v in dist :: Visited(s, dist, v) <==> Reachable(s, v))
    && (forall p | IsWalk(s, p) ::
          WalkEnd(s, p) in dist && Dist(s, dist, WalkEnd(s, p)) <= Sat(WalkCost(s, p)))
    && (forall v | v in dist && Visited(s, dist, v) ::
          exists p :: IsWalk(s, p) && WalkEnd(s, p) == v && Sat(WalkCost(s, p)) == Dist(s, dist, v))
  }

  /** With the queue empty, every walk ends at a visited node no farther than
      the walk's saturated cost. */
  lemma {:induction false} WalkEndReached(s: Sweep, dist: map<NodeId, SlotPair>, paths: map<NodeId, seq<Hop>>, p: seq<Hop>)
    requires SweepState(s, dist, multiset{}, paths) && IsWalk(s, p)
    ensures WalkEnd(s, p) in dist && Visited(s, dist, WalkEnd(s, p))
    ensures Dist(s, dist, WalkEnd(s, p)) <= Sat(WalkCost(s, p))
    decreases |p|
  {
    if p != [] {
      var p0 := p[..|p| - 1];
      var h := p[|p| - 1];
      WalkTruncate(s, p);
      WalkEndReached(s, dist, paths, p0);
      var u := h.from;
      assert !Queued(multiset{}, u);
      assert ChannelsRelaxed(s, dist, u, s.channels[u]);
      assert Relaxed(s, dist, u, h.chan);
      SatOfSat(WalkCost(s, p0), Cost(s, u, h.chan));
    }
  }

  /** The stretch theorem: a sweep whose queue has run dry leaves the writer
      slots exact. */
  lemma CompletedSweepIsExact(s: Sweep, dist: map<NodeId, SlotPair>, paths: map<NodeId, seq<Hop>>)
    requires SweepState(s, dist, multiset{}, paths)
    ensures Exact(s, dist)
  {
    forall p | IsWalk(s, p)
      ensures WalkEnd(s, p) in dist && Visited(s, dist, WalkEnd(s, p))
      ensures Dist(s, dist, WalkEnd(s, p)) <= Sat(WalkCost(s, p))
    {
      WalkEndReached(s, dist, paths, p);
    }
    forall v | v in dist
      ensures Visited(s, dist, v) <==> Reachable(s, v)
    {
      if Visited(s, dist, v) {
        assert IsWalk(s, paths[v]) && WalkEnd(s, paths[v]) == v;
      }
    }
    forall v | v in dist && Visited(s, dist, v)
      ensures exists p :: IsWalk(s, p) && WalkEnd(s, p) == v && Sat(WalkCost(s, p)) == Dist(s, dist, v)
    {
      assert IsWalk(s, paths[v]) && WalkEnd(s, paths[v]) == v;
    }
  }

  /** With the landmark as goal, the reader's heuristic on an exact slot is
      the saturated shortest cost: no walk to the node is cheaper, and some
      walk costs exactly that. */
  lemma LandmarkHeuristicIsExact(s: Sweep, dist: map<NodeId, SlotPair>, r: Reader, v: NodeId)
    requires Exact(s, dist) && r.selector == s.writer.selector && r.distanceGoal == 0
    requires v in dist && Visited(s, dist, v)
    ensures ReaderIsReachable(r, dist[v])
    ensures forall p | IsWalk(s, p) && WalkEnd(s, p) == v :: ReaderDistance(r, dist[v]) <= Sat(WalkCost(s, p))
    ensures exists p :: IsWalk(s, p) && WalkEnd(s, p) == v && ReaderDistance(r, dist[v]) == Sat(WalkCost(s, p))
  {
    HeuristicAtLandmark(r, dist[v]);
  }
}
