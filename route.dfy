/** `struct route_hop` and the short-channel-id-with-direction pair, as the
    plugins see them in `getroute` answers and exclusion lists. */
module Route {
  import opened MachineInts
  import opened Routing

  /** The direction bit of a half-channel (0 or 1). */
  type Direction = d: int | 0 <= d <= 1

  /** `enum route_hop_style`. */
  datatype Style = Legacy | Tlv

  /** `struct route_hop`: the channel used, the node reached, the amount
      delivered to that node and the delay it sees. */
  datatype RouteHop = RouteHop(channelId: Scid, direction: Direction, nodeId: NodeId,
                               amount: u64, delay: u32, style: Style)

  /** `struct short_channel_id_dir`: one direction of a channel, as excluded
      in a `getroute` request. */
  datatype ScidDir = ScidDir(scid: Scid, dir: Direction)

  /** The node ids of a route, in order. */
  function NodesOf(route: seq<RouteHop>): (r: seq<NodeId>)
    ensures |r| == |route| && forall i :: 0 <= i < |route| ==> r[i] == route[i].nodeId
  {
    seq(|route|, i requires 0 <= i < |route| => route[i].nodeId)
  }
}
