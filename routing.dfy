/** The part of the gossip daemon's routing graph that the distance cache
    touches: the node map (`rstate->nodes`), each node's channels and the two
    distance slots every `struct node` carries for the cache.  The graph is
    maintained elsewhere in the daemon; this model keeps only what the cache
    and its refresher read and write. */
module Routing {
  import opened MachineInts

  /** A node's identifier (its compressed public key); only equality is used. */
  type NodeId = seq<bv8>

  /** A short channel id. */
  type Scid = u64

  /** A channel as seen from one of its endpoints: `other_node(node, c)` is
      `peer`. */
  datatype Chan = Chan(scid: Scid, peer: NodeId)

  /** `node->dhcache_distance[2]`: the two 32-bit slots of a node. */
  type SlotPair = s: seq<u32> | |s| == 2 witness [0, 0]

  /** Which of the two slots a reader or writer uses. */
  type Selector = b: nat | b < 2

  /** `struct routing_state`, reduced to the node map.  Both maps have the
      node map's key set; `get_node(rstate, id)` finds a node exactly when
      `id in distances`. */
  class RoutingState {
    /** `rstate->local_id`: our own node, the landmark of the cache. */
    const localId: NodeId
    /** The distance slots of every node in the node map. */
    var distances: map<NodeId, SlotPair>
    /** The channels of every node in the node map. */
    var channels: map<NodeId, seq<Chan>>

    /** Every node has both slots and a channel list, and every channel leads
        to a node that is in the map. */
    ghost predicate Valid()
      reads this
    {
      && distances.Keys == channels.Keys
      && forall u, c :: u in channels && c in channels[u] ==> c.peer in channels
    }

    constructor (localId: NodeId, distances: map<NodeId, SlotPair>, channels: map<NodeId, seq<Chan>>)
      ensures this.localId == localId && this.distances == distances && this.channels == channels
    {
      this.localId := localId;
      this.distances := distances;
      this.channels := channels;
    }
  }
}
