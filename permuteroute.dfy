/** The `permuteroute` command of the `routetricks` plugin.

    Given a route that failed at `erring_index` (a channel, or with
    `nodefailure` the node before that channel), the command looks for a
    two-hop detour from the node before the failure (the source) to the node
    after it (the destination) through one new intermediate node, splices the
    detour into the route and raises the amounts and delays of the hops before
    the splice so that they still deliver what the detour needs.

    The `listchannels` and `listnodes` replies arrive as parsed records; the
    request's JSON parameters arrive parsed. */
module PermuteRoute {
  import opened Wrappers
  import opened MachineInts
  import opened Routing
  import opened Route

  /** `struct permuteroute_channel_data`: one half-channel of a
      `listchannels` reply. */
  datatype ChannelData = ChannelData(
    source: NodeId, destination: NodeId, scid: Scid, direction: Direction,
    active: bool, baseFee: u64, feePerMillionth: u32, delay: u32,
    htlcMinimum: u64, htlcMaximum: u64)

  /** The ways the command fails.  The first three are rejected parameters;
      `AmountOverflow` is the plugin aborting (`plugin_err`); the rest report
      that no route was found. */
  datatype Failure =
    | EmptyRoute           // "'route' cannot be empty."
    | NodeFailureAtZero    // "'erring_index' cannot be 0 for node failures."
    | ErringIndexTooLarge  // "'erring_index' cannot exceed 'route' length."
    | NoSourceChannels     // "No other usable channels before 'erring_index'."
    | NoRouteToFix         // "No route to fix `erring_index`."
    | FeeOverflow          // "Route fee overflow."
    | NodeDisappeared      // the intermediate node vanished before `listnodes`
    | AmountOverflow       // "Overflow in e->amount." / "Overflow in amount_delta."

  /** The fields of `struct permuteroute_command` derived from the request:
      the hops `route[sourceIndex..destIndex]` are the ones replaced. */
  datatype Break = Break(
    sourceIndex: nat, destIndex: nat,
    sourceNode: NodeId, sourceOutAmount: u64,
    destNode: NodeId, destAmount: u64, destDelay: u32, destStyle: Style)

  /** The node that forwards hop `i`: the start node for the first hop, the
      node reached by the previous hop otherwise. */
  function Sender(route: seq<RouteHop>, startNode: NodeId, i: nat): NodeId
    requires i < |route|
  {
    if i == 0 then startNode else route[i - 1].nodeId
  }

  /** The checks and the index derivation of `json_permuteroute`.  A channel
      failure replaces the failing hop alone; a node failure replaces the two
      hops entering and leaving the failing node. */
  function Locate(route: seq<RouteHop>, erringIndex: nat, nodeFailure: bool, startNode: NodeId)
    : (r: Result<Break, Failure>)
    ensures r.Err? <==> |route| == 0 || (nodeFailure && erringIndex == 0) || erringIndex >= |route|
    ensures r.Err? ==> r.error == (if |route| == 0 then EmptyRoute
                                   else if nodeFailure && erringIndex == 0 then NodeFailureAtZero
                                   else ErringIndexTooLarge)
    ensures r.Ok? ==>
              var b := r.value;
              && b.sourceIndex < b.destIndex <= |route|
              && b.destIndex == erringIndex + 1
              && route[b.sourceIndex..b.destIndex]
                 == (if nodeFailure then route[erringIndex - 1..erringIndex + 1] else [route[erringIndex]])
              && b.sourceNode == Sender(route, startNode, b.sourceIndex)
              && b.sourceOutAmount == route[b.sourceIndex].amount
              && b.destNode == route[b.destIndex - 1].nodeId
              && b.destAmount == route[b.destIndex - 1].amount
              && b.destDelay == route[b.destIndex - 1].delay
              && b.destStyle == route[b.destIndex - 1].style
  {
    if |route| == 0 then Err(EmptyRoute)
    else if nodeFailure && erringIndex == 0 then Err(NodeFailureAtZero)
    else if erringIndex >= |route| then Err(ErringIndexTooLarge)
    else
      var sourceIndex := if nodeFailure then erringIndex - 1 else erringIndex;
      var destIndex := erringIndex + 1;
      var last := route[destIndex - 1];
      Ok(Break(sourceIndex, destIndex,
               Sender(route, startNode, sourceIndex), route[sourceIndex].amount,
               last.nodeId, last.amount, last.delay, last.style))
  }

  /** The filter of `prc_filter_source_chans`: the half-channel leaves the
      source, can carry the amount the source sends, and neither it nor the
      node it reaches is excluded. */
  predicate SourceUsable(c: ChannelData, b: Break, excludeNodes: seq<NodeId>, excludeChans: seq<ScidDir>) {
    && c.source == b.sourceNode
    && c.htlcMinimum <= b.sourceOutAmount <= c.htlcMaximum
    && ScidDir(c.scid, c.direction) !in excludeChans
    && c.destination !in excludeNodes
  }

  /** The source channels kept, in reply order. */
  function KeptSource(cs: seq<ChannelData>, b: Break, excludeNodes: seq<NodeId>, excludeChans: seq<ScidDir>)
    : (r: seq<ChannelData>)
    ensures |r| <= |cs|
    ensures forall c :: c in r <==> c in cs && SourceUsable(c, b, excludeNodes, excludeChans)
  {
    if cs == [] then []
    else
      var last := cs[|cs| - 1];
      assert cs == cs[..|cs| - 1] + [last];
      KeptSource(cs[..|cs| - 1], b, excludeNodes, excludeChans)
      + (if SourceUsable(last, b, excludeNodes, excludeChans) then [last] else [])
  }

  /** The filter of `prc_check_destination_chans`: the half-channel reaches the
      destination, can carry the amount delivered there and is not excluded.
      Its source node is not checked against the excluded nodes. */
  predicate DestUsable(c: ChannelData, b: Break, excludeChans: seq<ScidDir>) {
    && c.destination == b.destNode
    && c.htlcMinimum <= b.destAmount <= c.htlcMaximum
    && ScidDir(c.scid, c.direction) !in excludeChans
  }

  /** The position of the first source channel that reaches `node`. */
  function FirstMatch(sources: seq<ChannelData>, node: NodeId): (r: Option<nat>)
    ensures r.Some? ==> && r.value < |sources| && sources[r.value].destination == node
                        && forall j :: 0 <= j < r.value ==> sources[j].destination != node
    ensures r.None? ==> forall j :: 0 <= j < |sources| ==> sources[j].destination != node
  {
    if sources == [] then None
    else if sources[0].destination == node then Some(0)
    else match FirstMatch(sources[1..], node)
      case None => None
      case Some(j) => Some(j + 1)
  }

  /** The pair `prc_check_destination_chans` splices: the first usable
      destination channel (in reply order) whose far end is reached by a kept
      source channel, with the first such source channel. */
  function FindSplice(dests: seq<ChannelData>, sources: seq<ChannelData>, b: Break, excludeChans: seq<ScidDir>)
    : (r: Option<(ChannelData, ChannelData)>)
    ensures r.Some? ==> && r.value.1 in dests && DestUsable(r.value.1, b, excludeChans)
                        && r.value.0 in sources && r.value.0.destination == r.value.1.source
    ensures r.None? <==> forall c, s :: c in dests && DestUsable(c, b, excludeChans) && s in sources
                                    ==> s.destination != c.source
  {
    if dests == [] then None
    else
      var c := dests[0];
      var m := FirstMatch(sources, c.source);
      if DestUsable(c, b, excludeChans) && m.Some? then Some((sources[m.value], c))
      else
        assert forall s :: s in sources && DestUsable(c, b, excludeChans) ==> s.destination != c.source;
        assert forall d :: d in dests ==> d == c || d in dests[1..];
        FindSplice(dests[1..], sources, b, excludeChans)
  }

  /** The fee a hop charges for forwarding `amount` (section "Recommendations
      for Routing" of BOLT #7): the base fee plus the proportional fee in
      millionths, rounded down. */
  function Fee(amount: u64, baseFee: u32, feePerMillionth: u32): nat {
    baseFee + amount * feePerMillionth / 1000000
  }

  /** Whether `amount_msat_add_fee` succeeds: neither the product for the
      proportional fee nor the sum overflows 64 bits. */
  predicate FeeFits(amount: u64, baseFee: u32, feePerMillionth: u32) {
    amount * feePerMillionth < U64_LIMIT && amount + Fee(amount, baseFee, feePerMillionth) < U64_LIMIT
  }

  /** `amount_msat_add_fee`: the amount plus the fee for forwarding it, or
      `None` on overflow. */
  function AddFee(amount: u64, baseFee: u32, feePerMillionth: u32): (r: Option<u64>)
    ensures r.Some? <==> FeeFits(amount, baseFee, feePerMillionth)
    ensures r.Some? ==> r.value >= amount + baseFee && r.value - amount == Fee(amount, baseFee, feePerMillionth)
  {
    if amount * feePerMillionth >= U64_LIMIT then None
    else
      var fee := baseFee + amount * feePerMillionth / 1000000;
      if amount + fee >= U64_LIMIT then None else Some(amount + fee)
  }

  /** The base fee is passed to `amount_msat_add_fee` as a `u32`: the 64-bit
      `base_fee` is truncated. */
  function BaseFeeArgument(c: ChannelData): (r: u32)
    ensures c.baseFee < U32_LIMIT ==> r == c.baseFee
  {
    c.baseFee % U32_LIMIT
  }

  /** The two spliced hops and what the hop before them must deliver to the
      source node. */
  datatype Splice = Splice(hops: seq<RouteHop>, prefixAmount: u64, prefixDelay: u32)

  /** `prc_splice` followed by `prc_get_listnodes_features`.  `intermediate`
      is the `listnodes` answer for the new intermediate node: its hop style
      (decided from its feature bits), or `None` when the node has vanished. */
  function SpliceOf(b: Break, hop1: ChannelData, hop2: ChannelData, intermediate: Option<Style>)
    : (r: Result<Splice, Failure>)
    ensures r.Err? <==> || !FeeFits(b.destAmount, BaseFeeArgument(hop2), hop2.feePerMillionth)
                        || !FeeFits(b.destAmount + Fee(b.destAmount, BaseFeeArgument(hop2), hop2.feePerMillionth),
                                    BaseFeeArgument(hop1), hop1.feePerMillionth)
                        || intermediate.None?
    ensures r.Err? && intermediate.Some? ==> r.error == FeeOverflow
    ensures && intermediate.None?
            && FeeFits(b.destAmount, BaseFeeArgument(hop2), hop2.feePerMillionth)
            && FeeFits(b.destAmount + Fee(b.destAmount, BaseFeeArgument(hop2), hop2.feePerMillionth),
                       BaseFeeArgument(hop1), hop1.feePerMillionth)
            ==> r == Err(NodeDisappeared)
    ensures r.Ok? ==>
              var s := r.value;
              && |s.hops| == 2
              && s.hops[1] == RouteHop(hop2.scid, hop2.direction, hop2.destination,
                                       b.destAmount, b.destDelay, b.destStyle)
              && s.hops[0].channelId == hop1.scid && s.hops[0].direction == hop1.direction
              && s.hops[0].nodeId == hop1.destination && s.hops[0].style == intermediate.value
              && s.hops[0].amount - s.hops[1].amount
                 == Fee(s.hops[1].amount, BaseFeeArgument(hop2), hop2.feePerMillionth)
              && s.hops[0].delay == AddU32(s.hops[1].delay, hop2.delay)
              && s.prefixAmount - s.hops[0].amount == Fee(s.hops[0].amount, BaseFeeArgument(hop1), hop1.feePerMillionth)
              && s.prefixDelay == AddU32(s.hops[0].delay, hop1.delay)
  {
    var second := RouteHop(hop2.scid, hop2.direction, hop2.destination, b.destAmount, b.destDelay, b.destStyle);
    match AddFee(b.destAmount, BaseFeeArgument(hop2), hop2.feePerMillionth)
    case None => Err(FeeOverflow)
    case Some(firstAmount) =>
      var firstDelay := AddU32(b.destDelay, hop2.delay);
      match AddFee(firstAmount, BaseFeeArgument(hop1), hop1.feePerMillionth)
      case None => Err(FeeOverflow)
      case Some(prefixAmount) =>
        match intermediate
        case None => Err(NodeDisappeared)
        case Some(style) =>
          var first := RouteHop(hop1.scid, hop1.direction, hop1.destination, firstAmount, firstDelay, style);
          Ok(Splice([first, second], prefixAmount, AddU32(firstDelay, hop1.delay)))
  }

  /** `amount_delta` of `prc_complete`: the least increase that makes the last
      prefix hop deliver `prefixAmount` (0 when it already does). */
  function AmountDelta(prefixAmount: u64, lastAmount: u64): (d: u64)
    ensures lastAmount + d >= prefixAmount
    ensures d > 0 ==> lastAmount + d == prefixAmount
  {
    if prefixAmount >= lastAmount then prefixAmount - lastAmount else 0
  }

  /** `delay_delta` of `prc_complete`: the least increase that makes the last
      prefix hop's delay reach `prefixDelay`. */
  function DelayDelta(prefixDelay: u32, lastDelay: u32): (d: u32)
    ensures lastDelay + d >= prefixDelay
    ensures d > 0 ==> lastDelay + d == prefixDelay
  {
    if prefixDelay > lastDelay then prefixDelay - lastDelay else 0
  }

  /** Whether the adjustment loop of `prc_complete` runs without overflow:
      the hop `k` places from the end gains `amountDelta + k`, and the running
      delta itself must stay within 64 bits. */
  predicate BumpFits(prefix: seq<RouteHop>, amountDelta: u64) {
    && amountDelta + |prefix| < U64_LIMIT
    && forall j :: 0 <= j < |prefix| ==> prefix[j].amount + amountDelta + (|prefix| - 1 - j) < U64_LIMIT
  }

  /** One hop of the adjusted prefix. */
  function Bump(h: RouteHop, increase: nat, delayDelta: u32): RouteHop
    requires h.amount + increase < U64_LIMIT
  {
    h.(amount := h.amount + increase, delay := AddU32(h.delay, delayDelta))
  }

  /** The prefix after the adjustment loop: the hop `k` places from the end
      (k = 0 for the last) gains `amountDelta + k` (one extra millisatoshi per
      hop covers rounding in the proportional fees), and every delay gains
      `delayDelta`. */
  function Bumped(prefix: seq<RouteHop>, amountDelta: u64, delayDelta: u32): (r: seq<RouteHop>)
    requires BumpFits(prefix, amountDelta)
    ensures |r| == |prefix|
  {
    seq(|prefix|, j requires 0 <= j < |prefix| => Bump(prefix[j], amountDelta + (|prefix| - 1 - j), delayDelta))
  }

  /** What `prc_complete` hands to `prc_output` as the prefix. */
  function CompletedPrefix(route: seq<RouteHop>, sourceIndex: nat, prefixAmount: u64, prefixDelay: u32)
    : Result<seq<RouteHop>, Failure>
    requires sourceIndex <= |route|
  {
    if sourceIndex == 0 then Ok([])
    else
      var prefix := route[..sourceIndex];
      var amountDelta := AmountDelta(prefixAmount, prefix[sourceIndex - 1].amount);
      var delayDelta := DelayDelta(prefixDelay, prefix[sourceIndex - 1].delay);
      if amountDelta == 0 && delayDelta == 0 then Ok(prefix)
      else if BumpFits(prefix, amountDelta) then Ok(Bumped(prefix, amountDelta, delayDelta))
      else Err(AmountOverflow)
  }

  /** The adjusted prefix keeps the hops' channels and nodes, never lowers an
      amount, keeps every hop's margin over the next one (adding one
      millisatoshi when adjusted), and its last hop delivers at least the
      amount and delay the splice needs at the source. */
  lemma CompletedPrefixDelivers(route: seq<RouteHop>, sourceIndex: nat, prefixAmount: u64, prefixDelay: u32,
                                p: seq<RouteHop>)
    requires 0 < sourceIndex <= |route|
    requires CompletedPrefix(route, sourceIndex, prefixAmount, prefixDelay) == Ok(p)
    ensures |p| == sourceIndex
    ensures forall j :: 0 <= j < sourceIndex ==>
              && p[j].channelId == route[j].channelId && p[j].direction == route[j].direction
              && p[j].nodeId == route[j].nodeId && p[j].style == route[j].style
              && p[j].amount >= route[j].amount
    ensures forall j :: 0 <= j < sourceIndex - 1 ==>
              p[j].amount - p[j + 1].amount >= route[j].amount - route[j + 1].amount
    ensures p[sourceIndex - 1].amount >= prefixAmount
    ensures p[sourceIndex - 1].delay >= prefixDelay
  {
    var prefix := route[..sourceIndex];
    var last := prefix[sourceIndex - 1];
    var amountDelta := AmountDelta(prefixAmount, last.amount);
    var delayDelta := DelayDelta(prefixDelay, last.delay);
    if !(amountDelta == 0 && delayDelta == 0) {
      assert p == Bumped(prefix, amountDelta, delayDelta);
      assert p[sourceIndex - 1] == Bump(last, amountDelta, delayDelta);
      forall j | 0 <= j < sourceIndex - 1
        ensures p[j].amount - p[j + 1].amount >= route[j].amount - route[j + 1].amount
      {
        assert p[j] == Bump(prefix[j], amountDelta + (sourceIndex - 1 - j), delayDelta);
        assert p[j + 1] == Bump(prefix[j + 1], amountDelta + (sourceIndex - 2 - j), delayDelta);
      }
    }
  }

  /** The adjustment loop of `prc_complete`, in place on the copied prefix,
      from the last hop backwards.  It stops at the first overflow, where the
      source aborts the plugin. */
  method AdjustPrefix(prefix: array<RouteHop>, amountDelta: u64, delayDelta: u32) returns (ok: bool)
    modifies prefix
    ensures ok == BumpFits(old(prefix[..]), amountDelta)
    ensures ok ==> prefix[..] == Bumped(old(prefix[..]), amountDelta, delayDelta)
  {
    ghost var original := prefix[..];
    var n := prefix.Length;
    var delta: u64 := amountDelta;
    var i := 0;
    while i < n
      invariant 0 <= i <= n
      invariant delta == amountDelta + i
      invariant forall j :: 0 <= j < n - i ==> prefix[j] == original[j]
      invariant forall j :: n - i <= j < n ==>
                  original[j].amount + amountDelta + (n - 1 - j) < U64_LIMIT
                  && prefix[j] == Bump(original[j], amountDelta + (n - 1 - j), delayDelta)
    {
      var e := prefix[n - 1 - i];
      if e.amount + delta >= U64_LIMIT {
        assert original[n - 1 - i] == e;
        return false;
      }
      prefix[n - 1 - i] := e.(amount := e.amount + delta, delay := AddU32(e.delay, delayDelta));
      if delta + 1 >= U64_LIMIT {
        return false;
      }
      delta := delta + 1;
      i := i + 1;
    }
    ok := true;
    assert BumpFits(original, amountDelta);
    assert prefix[..] == Bumped(original, amountDelta, delayDelta);
  }

  /** `prc_complete`: copy the prefix of the route before the splice and,
      unless it already delivers enough, adjust it. */
  method Complete(route: seq<RouteHop>, sourceIndex: nat, prefixAmount: u64, prefixDelay: u32)
    returns (r: Result<seq<RouteHop>, Failure>)
    requires sourceIndex <= |route|
    ensures r == CompletedPrefix(route, sourceIndex, prefixAmount, prefixDelay)
  {
    if sourceIndex == 0 {
      return Ok([]);
    }
    var prefix := new RouteHop[sourceIndex](i requires 0 <= i < sourceIndex => route[i]);
    assert prefix[..] == route[..sourceIndex];
    var last := prefix[sourceIndex - 1];
    var amountDelta := AmountDelta(prefixAmount, last.amount);
    var delayDelta := DelayDelta(prefixDelay, last.delay);
    if amountDelta == 0 && delayDelta == 0 {
      return Ok(prefix[..]);
    }
    var ok := AdjustPrefix(prefix, amountDelta, delayDelta);
    if !ok {
      return Err(AmountOverflow);
    }
    return Ok(prefix[..]);
  }

  /** `prc_output`: the (adjusted) prefix, the two spliced hops, then the
      original route from the destination on. */
  function Output(prefix: seq<RouteHop>, hops: seq<RouteHop>, route: seq<RouteHop>, destIndex: nat): seq<RouteHop>
    requires destIndex <= |route|
  {
    prefix + hops + route[destIndex..]
  }

  /** The whole command on parsed inputs: `userExcludeNodes` and
      `userExcludeChans` are the request's exclusions, `sourceListing` and
      `destListing` the two `listchannels` replies and `intermediate` the
      `listnodes` answer. */
  function Permuted(route: seq<RouteHop>, erringIndex: nat, nodeFailure: bool, startNode: NodeId,
                    userExcludeNodes: seq<NodeId>, userExcludeChans: seq<ScidDir>,
                    sourceListing: seq<ChannelData>, destListing: seq<ChannelData>,
                    intermediate: Option<Style>): Result<seq<RouteHop>, Failure>
  {
    match Locate(route, erringIndex, nodeFailure, startNode)
    case Err(e) => Err(e)
    case Ok(b) =>
      var excludeNodes := userExcludeNodes + NodesOf(route) + [startNode];
      var sources := KeptSource(sourceListing, b, excludeNodes, userExcludeChans);
      if sources == [] then Err(NoSourceChannels)
      else match FindSplice(destListing, sources, b, userExcludeChans)
        case None => Err(NoRouteToFix)
        case Some((hop1, hop2)) =>
          match SpliceOf(b, hop1, hop2, intermediate)
          case Err(e) => Err(e)
          case Ok(s) =>
            match CompletedPrefix(route, b.sourceIndex, s.prefixAmount, s.prefixDelay)
            case Err(e) => Err(e)
            case Ok(prefix) => Ok(Output(prefix, s.hops, route, b.destIndex))
  }

  /** The pieces a successful run is made of. */
  lemma PermutedParts(route: seq<RouteHop>, erringIndex: nat, nodeFailure: bool, startNode: NodeId,
                      userExcludeNodes: seq<NodeId>, userExcludeChans: seq<ScidDir>,
                      sourceListing: seq<ChannelData>, destListing: seq<ChannelData>,
                      intermediate: Option<Style>, out: seq<RouteHop>)
    returns (b: Break, hop1: ChannelData, hop2: ChannelData, s: Splice, prefix: seq<RouteHop>)
    requires Permuted(route, erringIndex, nodeFailure, startNode, userExcludeNodes, userExcludeChans,
                      sourceListing, destListing, intermediate) == Ok(out)
    ensures Locate(route, erringIndex, nodeFailure, startNode) == Ok(b)
    ensures hop1 in sourceListing
    ensures SourceUsable(hop1, b, userExcludeNodes + NodesOf(route) + [startNode], userExcludeChans)
    ensures DestUsable(hop2, b, userExcludeChans) && hop1.destination == hop2.source
    ensures SpliceOf(b, hop1, hop2, intermediate) == Ok(s)
    ensures b.sourceIndex <= |route|
    ensures CompletedPrefix(route, b.sourceIndex, s.prefixAmount, s.prefixDelay) == Ok(prefix)
    ensures out == prefix + s.hops + route[b.destIndex..]
  {
    b := Locate(route, erringIndex, nodeFailure, startNode).value;
    var excludeNodes := userExcludeNodes + NodesOf(route) + [startNode];
    var sources := KeptSource(sourceListing, b, excludeNodes, userExcludeChans);
    var pair := FindSplice(destListing, sources, b, userExcludeChans).value;
    hop1, hop2 := pair.0, pair.1;
    s := SpliceOf(b, hop1, hop2, intermediate).value;
    prefix := CompletedPrefix(route, b.sourceIndex, s.prefixAmount, s.prefixDelay).value;
  }

  /** A route the command returns is a detour around the failure: the hops
      before the splice keep their channels and nodes and deliver at least
      what the splice needs, the second new hop reaches the destination with
      the amount and delay it had, and the rest of the route is unchanged. */
  lemma PermutedIsDetour(route: seq<RouteHop>, erringIndex: nat, nodeFailure: bool, startNode: NodeId,
                         userExcludeNodes: seq<NodeId>, userExcludeChans: seq<ScidDir>,
                         sourceListing: seq<ChannelData>, destListing: seq<ChannelData>,
                         intermediate: Option<Style>, out: seq<RouteHop>)
    requires Permuted(route, erringIndex, nodeFailure, startNode, userExcludeNodes, userExcludeChans,
                      sourceListing, destListing, intermediate) == Ok(out)
    ensures Locate(route, erringIndex, nodeFailure, startNode).Ok?
    ensures var b := Locate(route, erringIndex, nodeFailure, startNode).value;
            && |out| == b.sourceIndex + 2 + (|route| - b.destIndex)
            && (forall j :: 0 <= j < b.sourceIndex ==>
                  out[j].channelId == route[j].channelId && out[j].nodeId == route[j].nodeId
                  && out[j].amount >= route[j].amount)
            && out[b.sourceIndex + 1].nodeId == route[b.destIndex - 1].nodeId
            && out[b.sourceIndex + 1].amount == route[b.destIndex - 1].amount
            && out[b.sourceIndex + 1].delay == route[b.destIndex - 1].delay
            && out[b.sourceIndex].amount >= out[b.sourceIndex + 1].amount
            && (b.sourceIndex > 0 ==> out[b.sourceIndex - 1].amount >= out[b.sourceIndex].amount)
            && out[b.sourceIndex + 2..] == route[b.destIndex..]
  {
    var b, hop1, hop2, s, prefix := PermutedParts(route, erringIndex, nodeFailure, startNode,
                                                  userExcludeNodes, userExcludeChans,
                                                  sourceListing, destListing, intermediate, out);
    if b.sourceIndex > 0 {
      CompletedPrefixDelivers(route, b.sourceIndex, s.prefixAmount, s.prefixDelay, prefix);
    }
    assert |prefix| == b.sourceIndex;
    assert out[b.sourceIndex] == s.hops[0] && out[b.sourceIndex + 1] == s.hops[1];
    assert out[b.sourceIndex + 2..] == route[b.destIndex..];
  }

  /** The node a returned route newly visits is reached from the source over
      one of its channels, is on neither the original route nor the
      exclusion list, and neither new hop uses an excluded half-channel. */
  lemma PermutedAvoidsExcluded(route: seq<RouteHop>, erringIndex: nat, nodeFailure: bool, startNode: NodeId,
                               userExcludeNodes: seq<NodeId>, userExcludeChans: seq<ScidDir>,
                               sourceListing: seq<ChannelData>, destListing: seq<ChannelData>,
                               intermediate: Option<Style>, out: seq<RouteHop>)
    requires Permuted(route, erringIndex, nodeFailure, startNode, userExcludeNodes, userExcludeChans,
                      sourceListing, destListing, intermediate) == Ok(out)
    ensures Locate(route, erringIndex, nodeFailure, startNode).Ok?
    ensures var b := Locate(route, erringIndex, nodeFailure, startNode).value;
            && b.sourceIndex + 1 < |out|
            && out[b.sourceIndex].nodeId !in NodesOf(route)
            && out[b.sourceIndex].nodeId != startNode
            && out[b.sourceIndex].nodeId !in userExcludeNodes
            && ScidDir(out[b.sourceIndex].channelId, out[b.sourceIndex].direction) !in userExcludeChans
            && ScidDir(out[b.sourceIndex + 1].channelId, out[b.sourceIndex + 1].direction) !in userExcludeChans
            && (exists c :: c in sourceListing && c.source == b.sourceNode
                            && c.scid == out[b.sourceIndex].channelId
                            && c.destination == out[b.sourceIndex].nodeId)
  {
    var b, hop1, hop2, s, prefix := PermutedParts(route, erringIndex, nodeFailure, startNode,
                                                  userExcludeNodes, userExcludeChans,
                                                  sourceListing, destListing, intermediate, out);
    if b.sourceIndex > 0 {
      CompletedPrefixDelivers(route, b.sourceIndex, s.prefixAmount, s.prefixDelay, prefix);
    }
    assert |prefix| == b.sourceIndex;
    assert out[b.sourceIndex] == s.hops[0] && out[b.sourceIndex + 1] == s.hops[1];
    assert hop1.destination !in NodesOf(route) && hop1.destination != startNode;
  }

  /** `struct permuteroute_command`, reduced to the arrays the command
      extends and fills as it goes. */
  class Command {
    /** `exclude_nodes`: the request's excluded nodes, later extended. */
    var excludeNodes: seq<NodeId>
    /** `exclude_chans`: the request's excluded half-channels. */
    var excludeChans: seq<ScidDir>
    /** `source_channels`: the usable channels of the source. */
    var sourceChannels: seq<ChannelData>

    constructor (excludeNodes: seq<NodeId>, excludeChans: seq<ScidDir>)
      ensures this.excludeNodes == excludeNodes && this.excludeChans == excludeChans
      ensures sourceChannels == []
    {
      this.excludeNodes := excludeNodes;
      this.excludeChans := excludeChans;
      sourceChannels := [];
    }

    /** The end of `json_permuteroute`: every node of the route and the start
        node are excluded from becoming the intermediate node, so that the
        detour cannot introduce a loop. */
    method ExcludeRoute(route: seq<RouteHop>, startNode: NodeId)
      modifies this
      ensures excludeNodes == old(excludeNodes) + NodesOf(route) + [startNode]
      ensures excludeChans == old(excludeChans) && sourceChannels == old(sourceChannels)
    {
      var i := 0;
      while i < |route|
        invariant 0 <= i <= |route|
        invariant excludeNodes == old(excludeNodes) + NodesOf(route[..i])
        invariant excludeChans == old(excludeChans) && sourceChannels == old(sourceChannels)
      {
        assert NodesOf(route[..i + 1]) == NodesOf(route[..i]) + [route[i].nodeId];
        excludeNodes := excludeNodes + [route[i].nodeId];
        i := i + 1;
      }
      assert route[..i] == route;
      excludeNodes := excludeNodes + [startNode];
    }

    /** `is_excluded_chan`: a linear scan for an exclusion matching both the
        short channel id and the direction. */
    method IsExcludedChan(scid: Scid, direction: Direction) returns (excluded: bool)
      ensures excluded <==> ScidDir(scid, direction) in excludeChans
    {
      var i := 0;
      while i < |excludeChans|
        invariant 0 <= i <= |excludeChans|
        invariant ScidDir(scid, direction) !in excludeChans[..i]
      {
        if excludeChans[i].scid == scid && excludeChans[i].dir == direction {
          return true;
        }
        assert excludeChans[..i + 1] == excludeChans[..i] + [excludeChans[i]];
        i := i + 1;
      }
      assert excludeChans[..i] == excludeChans;
      return false;
    }

    /** `is_excluded_node`: a linear scan of the excluded nodes. */
    method IsExcludedNode(id: NodeId) returns (excluded: bool)
      ensures excluded <==> id in excludeNodes
    {
      var i := 0;
      while i < |excludeNodes|
        invariant 0 <= i <= |excludeNodes|
        invariant id !in excludeNodes[..i]
      {
        if excludeNodes[i] == id {
          return true;
        }
        assert excludeNodes[..i + 1] == excludeNodes[..i] + [excludeNodes[i]];
        i := i + 1;
      }
      assert excludeNodes[..i] == excludeNodes;
      return false;
    }

    /** `prc_filter_source_chans`: keep the usable channels of the source, in
        reply order; `found` is false (no usable channel) when none is kept. */
    method FilterSourceChannels(channels: seq<ChannelData>, b: Break) returns (found: bool)
      modifies this
      ensures sourceChannels == KeptSource(channels, b, excludeNodes, excludeChans)
      ensures found <==> sourceChannels != []
      ensures excludeNodes == old(excludeNodes) && excludeChans == old(excludeChans)
    {
      sourceChannels := [];
      var i := 0;
      while i < |channels|
        invariant 0 <= i <= |channels|
        invariant excludeNodes == old(excludeNodes) && excludeChans == old(excludeChans)
        invariant sourceChannels == KeptSource(channels[..i], b, excludeNodes, excludeChans)
      {
        var c := channels[i];
        assert channels[..i + 1][..i] == channels[..i];
        var keep := c.source == b.sourceNode && c.htlcMinimum <= b.sourceOutAmount <= c.htlcMaximum;
        if keep {
          var chanExcluded := IsExcludedChan(c.scid, c.direction);
          keep := !chanExcluded;
        }
        if keep {
          var nodeExcluded := IsExcludedNode(c.destination);
          keep := !nodeExcluded;
        }
        if keep {
          sourceChannels := sourceChannels + [c];
        }
        i := i + 1;
      }
      assert channels[..i] == channels;
      found := sourceChannels != [];
    }

    /** `prc_check_destination_chans`: scan the destination's channels and
        stop at the first usable one reached by a kept source channel. */
    method CheckDestinationChannels(channels: seq<ChannelData>, b: Break)
      returns (pair: Option<(ChannelData, ChannelData)>)
      ensures pair == FindSplice(channels, sourceChannels, b, excludeChans)
    {
      var i := 0;
      while i < |channels|
        invariant 0 <= i <= |channels|
        invariant FindSplice(channels, sourceChannels, b, excludeChans)
                  == FindSplice(channels[i..], sourceChannels, b, excludeChans)
      {
        var c := channels[i];
        assert channels[i..][0] == c && channels[i..][1..] == channels[i + 1..];
        if c.destination == b.destNode && c.htlcMinimum <= b.destAmount <= c.htlcMaximum {
          var excluded := IsExcludedChan(c.scid, c.direction);
          if !excluded {
            var m := SourceReaching(c.source);
            if m.Some? {
              return Some((sourceChannels[m.value], c));
            }
          }
        }
        i := i + 1;
      }
      return None;
    }

    /** The inner loop of `prc_check_destination_chans`: the first kept
        source channel whose far end is `node`. */
    method SourceReaching(node: NodeId) returns (m: Option<nat>)
      ensures m == FirstMatch(sourceChannels, node)
    {
      var j := 0;
      while j < |sourceChannels|
        invariant 0 <= j <= |sourceChannels|
        invariant forall k :: 0 <= k < j ==> sourceChannels[k].destination != node
      {
        if sourceChannels[j].destination == node {
          return Some(j);
        }
        j := j + 1;
      }
      return None;
    }

    /** `json_permuteroute` after parsing, through `prc_output`. */
    method Run(route: seq<RouteHop>, erringIndex: nat, nodeFailure: bool, startNode: NodeId,
               sourceListing: seq<ChannelData>, destListing: seq<ChannelData>, intermediate: Option<Style>)
      returns (r: Result<seq<RouteHop>, Failure>)
      modifies this
      ensures r == Permuted(route, erringIndex, nodeFailure, startNode, old(excludeNodes), old(excludeChans),
                            sourceListing, destListing, intermediate)
    {
      var located := Locate(route, erringIndex, nodeFailure, startNode);
      if located.Err? {
        return Err(located.error);
      }
      var b := located.value;
      ExcludeRoute(route, startNode);
      var found := FilterSourceChannels(sourceListing, b);
      if !found {
        return Err(NoSourceChannels);
      }
      var pair := CheckDestinationChannels(destListing, b);
      if pair.None? {
        return Err(NoRouteToFix);
      }
      var splice := SpliceOf(b, pair.value.0, pair.value.1, intermediate);
      if splice.Err? {
        return Err(splice.error);
      }
      var prefix := Complete(route, b.sourceIndex, splice.value.prefixAmount, splice.value.prefixDelay);
      if prefix.Err? {
        return Err(prefix.error);
      }
      return Ok(Output(prefix.value, splice.value.hops, route, b.destIndex));
    }
  }
}
