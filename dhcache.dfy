/** The differential-heuristic distance cache.

    Every node carries two 32-bit slots; each slot packs a visited flag in
    its top bit and a distance from the landmark (our own node) in the low 31
    bits.  The cache itself only holds a `writer_selector` bit, naming the
    slot a refresh is rewriting, and an `available` flag.  Readers (the path
    searches) use the other slot, so a refresh never disturbs what readers
    see until `Flip` swaps the two.

    The masks are modelled on the `u32` value: for `s < 2^32`,
    `s & 0x80000000` is nonzero exactly when `s >= 0x80000000`, and
    `s & 0x7FFFFFFF` is `s % 0x80000000` (`MaskBridge` proves both on
    32-bit words). */
module DistanceCache {
  import opened MachineInts
  import opened Routing

  const DHCACHE_MAXIMUM_DISTANCE: u32 := 0x7FFF_FFFF
  const DHCACHE_DISTANCE_MASK: u32 := 0x7FFF_FFFF
  const DHCACHE_VISITED_MASK: u32 := 0x8000_0000
  const DHCACHE_NEWNODE_VALUE: u32 := 0xFFFF_FFFF
  const DHCACHE_START_PREPROCESSING_VALUE: u32 := 0x7FFF_FFFF

  /** A distance that fits in the 31 distance bits. */
  type Distance = d: u32 | d <= DHCACHE_MAXIMUM_DISTANCE

  /** `s & DHCACHE_VISITED_MASK` is nonzero. */
  function VisitedBit(s: u32): bool {
    s >= DHCACHE_VISITED_MASK
  }

  /** `s & DHCACHE_DISTANCE_MASK`. */
  function DistanceBits(s: u32): (d: Distance)
  {
    s % (DHCACHE_DISTANCE_MASK + 1)
  }

  /** On a 32-bit word, the distance mask keeps the remainder modulo 2^31
      and the visited mask tests for a word of at least 2^31. */
  lemma MasksAsArithmetic(b: bv32)
    ensures b & 0x7FFF_FFFF == b % 0x8000_0000
    ensures (b & 0x8000_0000 != 0) == (b >= 0x8000_0000)
  {
  }

  lemma LowWord(b: bv32)
    requires b < 0x8000_0000
    ensures b % 0x8000_0000 == b
  {
  }

  lemma HighWord(b: bv32)
    requires b >= 0x8000_0000
    ensures b % 0x8000_0000 == b - 0x8000_0000
    ensures (b - 0x8000_0000) as int == b as int - 0x8000_0000
  {
  }

  lemma LowWordAsInt(b: bv32)
    requires b < 0x8000_0000
    ensures (b + 0x8000_0000) as int == b as int + 0x8000_0000
  {
  }

  /** The comparison commutes with the conversion to `int`. */
  lemma ComparisonAsInt(b: bv32)
    ensures (b >= 0x8000_0000) == (b as int >= 0x8000_0000)
  {
    if b < 0x8000_0000 {
      LowWordAsInt(b);
    } else {
      HighWord(b);
    }
  }

  /** The remainder commutes with the conversion to `int`. */
  lemma RemainderAsInt(b: bv32)
    ensures (b % 0x8000_0000) as int == (b as int) % 0x8000_0000
  {
    ComparisonAsInt(b);
    if b < 0x8000_0000 {
      LowWord(b);
    } else {
      HighWord(b);
    }
  }

  lemma WordBound(b: bv32)
    ensures b as int < U32_LIMIT
  {
  }

  /** The slot functions agree with the C masks on every 32-bit word:
      `DistanceBits` is `& DHCACHE_DISTANCE_MASK` and `VisitedBit` is
      `& DHCACHE_VISITED_MASK` being nonzero. */
  lemma MaskBridge(b: bv32)
    ensures b as int < U32_LIMIT
    ensures (b & 0x7FFF_FFFF) as int == DistanceBits(b as int)
    ensures (b & 0x8000_0000 != 0) == VisitedBit(b as int)
  {
    WordBound(b);
    MasksAsArithmetic(b);
    RemainderAsInt(b);
    ComparisonAsInt(b);
  }

  /** `visited | (d & DHCACHE_DISTANCE_MASK)` with `visited` either 0 or the
      visited mask: packing and the two masks are inverse to each other. */
  function Pack(visited: bool, d: Distance): (s: u32)
    ensures VisitedBit(s) == visited && DistanceBits(s) == d
  {
    (if visited then DHCACHE_VISITED_MASK else 0) + d
  }

  /** Every slot value is the packing of its own flag and distance. */
  lemma PackOfBits(s: u32)
    ensures Pack(VisitedBit(s), DistanceBits(s)) == s
  {
  }

  /** `dhcache_node_init`: the slots of a brand-new node, both visited (so a
      running search never rejects it as unreachable) at the maximum
      distance (so searches tend to avoid it until the next refresh). */
  function NodeInit(): (p: SlotPair)
    ensures forall sel: Selector :: p[sel] == DHCACHE_NEWNODE_VALUE
    ensures forall sel: Selector :: VisitedBit(p[sel]) && DistanceBits(p[sel]) == DHCACHE_MAXIMUM_DISTANCE
  {
    [DHCACHE_NEWNODE_VALUE, DHCACHE_NEWNODE_VALUE]
  }

  /** `dhcache_node_init` applied to the node `id` as it enters the node
      map. */
  method InitNode(rstate: RoutingState, id: NodeId)
    modifies rstate
    ensures rstate.distances == old(rstate.distances)[id := NodeInit()]
    ensures rstate.channels == old(rstate.channels)
  {
    rstate.distances := rstate.distances[id := [DHCACHE_NEWNODE_VALUE, DHCACHE_NEWNODE_VALUE]];
  }

  /** `struct dhcache_reader`: the slot readers use and the goal's distance
      from the landmark, captured when the reader is initialised. */
  datatype Reader = Reader(selector: Selector, distanceGoal: Distance)

  /** `struct dhcache_writer`: the slot a refresh rewrites. */
  datatype Writer = Writer(selector: Selector)

  /** `dhcache_reader_is_reachable`: the visited bit of the reader's slot. */
  function ReaderIsReachable(r: Reader, node: SlotPair): bool {
    VisitedBit(node[r.selector])
  }

  /** `dhcache_reader_distance`: the single-landmark differential heuristic
      |d(node) - d(goal)|; it is zero for any node at the goal's distance
      and never exceeds the maximum distance. */
  function ReaderDistance(r: Reader, node: SlotPair): (h: Distance)
    requires ReaderIsReachable(r, node)
    ensures h == if DistanceBits(node[r.selector]) >= r.distanceGoal
                 then DistanceBits(node[r.selector]) - r.distanceGoal
                 else r.distanceGoal - DistanceBits(node[r.selector])
    ensures DistanceBits(node[r.selector]) == r.distanceGoal ==> h == 0
  {
    var distanceNode := DistanceBits(node[r.selector]);
    if distanceNode > r.distanceGoal then distanceNode - r.distanceGoal
    else r.distanceGoal - distanceNode
  }

  /** When the goal is the landmark itself (distance 0) the heuristic is the
      node's cached distance from the landmark. */
  lemma HeuristicAtLandmark(r: Reader, node: SlotPair)
    requires ReaderIsReachable(r, node) && r.distanceGoal == 0
    ensures ReaderDistance(r, node) == DistanceBits(node[r.selector])
  {
  }

  /** `dhcache_writer_get_visited`: the visited bit of the writer's slot. */
  function WriterGetVisited(w: Writer, node: SlotPair): bool {
    VisitedBit(node[w.selector])
  }

  /** `dhcache_writer_get_distance`: the low 31 bits of the writer's slot,
      never above the maximum distance. */
  function WriterGetDistance(w: Writer, node: SlotPair): (d: u32)
    ensures d <= DHCACHE_MAXIMUM_DISTANCE
    ensures d == DistanceBits(node[w.selector])
  {
    DistanceBits(node[w.selector])
  }

  /** The slots after `dhcache_writer_mark_visited`: the writer's slot gains
      the visited bit and keeps its distance; the reader's slot is
      untouched. */
  function MarkedVisited(w: Writer, node: SlotPair): (p: SlotPair)
    ensures WriterGetVisited(w, p)
    ensures WriterGetDistance(w, p) == WriterGetDistance(w, node)
    ensures p[1 - w.selector] == node[1 - w.selector]
  {
    node[w.selector := Pack(true, DistanceBits(node[w.selector]))]
  }

  /** The slots after `dhcache_writer_set_distance`: the writer's slot holds
      the new distance and keeps its visited bit; the reader's slot is
      untouched.  The source asserts the distance fits in 31 bits. */
  function DistanceSet(w: Writer, node: SlotPair, distance: u32): (p: SlotPair)
    requires distance <= DHCACHE_MAXIMUM_DISTANCE
    ensures WriterGetDistance(w, p) == distance
    ensures WriterGetVisited(w, p) == WriterGetVisited(w, node)
    ensures p[1 - w.selector] == node[1 - w.selector]
  {
    node[w.selector := Pack(VisitedBit(node[w.selector]), distance)]
  }

  /** `dhcache_writer_mark_visited` on the node `id` of the graph. */
  method WriterMarkVisited(w: Writer, rstate: RoutingState, id: NodeId)
    requires id in rstate.distances
    modifies rstate
    ensures rstate.distances == old(rstate.distances)[id := MarkedVisited(w, old(rstate.distances)[id])]
    ensures rstate.channels == old(rstate.channels)
  {
    rstate.distances := rstate.distances[id := MarkedVisited(w, rstate.distances[id])];
  }

  /** `dhcache_writer_set_distance` on the node `id` of the graph. */
  method WriterSetDistance(w: Writer, rstate: RoutingState, id: NodeId, distance: u32)
    requires id in rstate.distances
    requires distance <= DHCACHE_MAXIMUM_DISTANCE
    modifies rstate
    ensures rstate.distances == old(rstate.distances)[id := DistanceSet(w, old(rstate.distances)[id], distance)]
    ensures rstate.channels == old(rstate.channels)
  {
    rstate.distances := rstate.distances[id := DistanceSet(w, rstate.distances[id], distance)];
  }

  /** The node map after `dhcache_writer_clear_all_nodes`. */
  function ClearedSlots(w: Writer, dist: map<NodeId, SlotPair>): map<NodeId, SlotPair> {
    map id | id in dist :: dist[id][w.selector := DHCACHE_START_PREPROCESSING_VALUE]
  }

  /** Clearing leaves the same nodes, each with an unvisited writer slot at
      the maximum distance and its reader slot untouched. */
  lemma ClearedSlotsAreUnvisited(w: Writer, dist: map<NodeId, SlotPair>)
    ensures ClearedSlots(w, dist).Keys == dist.Keys
    ensures forall id | id in dist ::
              && !WriterGetVisited(w, ClearedSlots(w, dist)[id])
              && WriterGetDistance(w, ClearedSlots(w, dist)[id]) == DHCACHE_MAXIMUM_DISTANCE
              && ClearedSlots(w, dist)[id][1 - w.selector] == dist[id][1 - w.selector]
  {
  }

  /** `dhcache_writer_clear_all_nodes`: a loop over the node map rewriting
      every node's writer slot. */
  method WriterClearAllNodes(w: Writer, rstate: RoutingState)
    modifies rstate
    ensures rstate.distances == ClearedSlots(w, old(rstate.distances))
    ensures rstate.channels == old(rstate.channels)
  {
    var remaining := rstate.distances.Keys;
    while remaining != {}
      invariant rstate.distances.Keys == old(rstate.distances.Keys)
      invariant remaining <= rstate.distances.Keys
      invariant rstate.channels == old(rstate.channels)
      invariant forall id :: id in rstate.distances && id !in remaining ==>
                  rstate.distances[id] == old(rstate.distances)[id][w.selector := DHCACHE_START_PREPROCESSING_VALUE]
      invariant forall id :: id in remaining ==> rstate.distances[id] == old(rstate.distances)[id]
      decreases remaining
    {
      var id :| id in remaining;
      rstate.distances := rstate.distances[id := rstate.distances[id][w.selector := DHCACHE_START_PREPROCESSING_VALUE]];
      remaining := remaining - {id};
    }
  }

  /** `struct dhcache`. */
  class DhCache {
    /** The slot being rewritten by refreshes; readers use the other one. */
    var writerSelector: Selector
    /** Whether some refresh has completed, so the reader slot holds data. */
    var available: bool

    /** `dhcache_new`: writer slot 0, not yet available. */
    constructor ()
      ensures writerSelector == 0 && !available
    {
      writerSelector := 0;
      available := false;
    }

    /** `dhcache_available`. */
    function Available(): bool
      reads this
    {
      available
    }

    /** `dhcache_flip`: the slots swap roles and the cache is available from
        now on. */
    method Flip()
      modifies this
      ensures writerSelector == 1 - old(writerSelector)
      ensures available
    {
      writerSelector := 1 - writerSelector;
      available := true;
    }

    /** `dhcache_reader_init`: the reader uses the slot the writer does not,
        and captures the goal's distance from that slot.  The source demands
        the cache be available. */
    function ReaderInit(goal: SlotPair): (r: Reader)
      requires available
      reads this
      ensures r.selector != writerSelector
      ensures r.distanceGoal == DistanceBits(goal[r.selector])
    {
      var selector := 1 - writerSelector;
      Reader(selector, DistanceBits(goal[selector]))
    }

    /** `dhcache_writer_init`: the writer uses the cache's writer slot. */
    function WriterInit(): (w: Writer)
      reads this
      ensures w.selector == writerSelector
    {
      Writer(writerSelector)
    }
  }

  /** Readers and the writer taken from the same cache state touch disjoint
      slots: whatever the writer marks or sets, a reader's answers on that
      node do not change. */
  lemma ReaderUnaffectedByWriter(c: DhCache, goal: SlotPair, node: SlotPair, distance: u32)
    requires c.available && distance <= DHCACHE_MAXIMUM_DISTANCE
    ensures c.ReaderInit(goal).selector != c.WriterInit().selector
    ensures ReaderIsReachable(c.ReaderInit(goal), MarkedVisited(c.WriterInit(), node))
            == ReaderIsReachable(c.ReaderInit(goal), node)
    ensures ReaderIsReachable(c.ReaderInit(goal), DistanceSet(c.WriterInit(), node, distance))
            == ReaderIsReachable(c.ReaderInit(goal), node)
    ensures ReaderIsReachable(c.ReaderInit(goal), node) ==>
              ReaderDistance(c.ReaderInit(goal), MarkedVisited(c.WriterInit(), node))
              == ReaderDistance(c.ReaderInit(goal), node) &&
              ReaderDistance(c.ReaderInit(goal), DistanceSet(c.WriterInit(), node, distance))
              == ReaderDistance(c.ReaderInit(goal), node)
  {
  }
}
