/** The payment queues of the path-diversity modifier.

    Payments (the root payment and its sub-payments) join one common list
    when created.  They leave it in creation order, and only while the
    payment at the front is ready.  Each one then joins the list of its
    destination, and only the payment at the front of a destination's list
    runs `getroute`, so that every search sees the tree edges the previous
    one queued.  The intrusive lists become sequences of payment ids; a
    payment is in at most one list. */
module PaymentQueues {
  import opened Wrappers
  import opened Routing

  /** A payment (`struct pathdiversity_data` is one per payment). */
  type PaymentId = nat

  /** No id occurs twice. */
  ghost predicate Distinct(s: seq<PaymentId>) {
    forall i, j :: 0 <= i < j < |s| ==> s[i] != s[j]
  }

  /** `list_del_init` on the list `s`: `x` leaves it, the rest keep their
      order. */
  function Without(s: seq<PaymentId>, x: PaymentId): (r: seq<PaymentId>)
    ensures forall y :: y in r <==> y in s && y != x
    ensures |s| > 0 && s[0] != x ==> |r| > 0 && r[0] == s[0]
    ensures Distinct(s) ==> Distinct(r)
    ensures x !in s ==> r == s
  {
    if s == [] then []
    else if s[0] == x then Without(s[1..], x)
    else
      var rest := Without(s[1..], x);
      assert Distinct(s) ==> s[0] !in s[1..] && Distinct(s[1..]);
      assert s == [s[0]] + s[1..];
      [s[0]] + rest
  }

  /** The list of a destination; a destination without an object has none. */
  function Get(queues: map<NodeId, seq<PaymentId>>, n: NodeId): seq<PaymentId> {
    if n in queues then queues[n] else []
  }

  /** The payments of `ps` going to `n`, in order. */
  function ForDestination(ps: seq<PaymentId>, n: NodeId, targetOf: PaymentId -> NodeId): (r: seq<PaymentId>)
    ensures forall p :: p in r <==> p in ps && targetOf(p) == n
  {
    if ps == [] then []
    else
      var last := ps[|ps| - 1];
      assert ps == ps[..|ps| - 1] + [last];
      ForDestination(ps[..|ps| - 1], n, targetOf) + (if targetOf(last) == n then [last] else [])
  }

  /** The lists after the payments `ps` are handed, in order, to their
      destinations: each joins the end of its destination's list. */
  function Distributed(queues: map<NodeId, seq<PaymentId>>, ps: seq<PaymentId>, targetOf: PaymentId -> NodeId)
    : (r: map<NodeId, seq<PaymentId>>)
    ensures queues.Keys <= r.Keys
  {
    if ps == [] then queues
    else
      var last := ps[|ps| - 1];
      var before := Distributed(queues, ps[..|ps| - 1], targetOf);
      assert ps == ps[..|ps| - 1] + [last];
      before[targetOf(last) := Get(before, targetOf(last)) + [last]]
  }

  /** Handing out `ps` appends to each destination's list exactly the
      payments of `ps` going there, in their order. */
  lemma {:induction false} DistributedGet(queues: map<NodeId, seq<PaymentId>>, ps: seq<PaymentId>,
                                          targetOf: PaymentId -> NodeId, n: NodeId)
    ensures Get(Distributed(queues, ps, targetOf), n) == Get(queues, n) + ForDestination(ps, n, targetOf)
  {
    if ps != [] {
      DistributedGet(queues, ps[..|ps| - 1], targetOf, n);
    }
  }

  /** How many payments at the front of `ps` have `should_start` set. */
  function ReadyPrefix(ps: seq<PaymentId>, shouldStart: map<PaymentId, bool>): (k: nat)
    requires forall i :: 0 <= i < |ps| ==> ps[i] in shouldStart
    ensures k <= |ps|
    ensures forall i :: 0 <= i < k ==> shouldStart[ps[i]]
    ensures k < |ps| ==> !shouldStart[ps[k]]
  {
    if ps == [] || !shouldStart[ps[0]] then 0 else 1 + ReadyPrefix(ps[1..], shouldStart)
  }

  /** `struct pathdiversity_common`, with the per-destination lists. */
  class Scheduler {
    /** `common->payments`: payments not yet handed to a destination. */
    var payments: seq<PaymentId>
    /** `d->should_start` of every payment created so far. */
    var shouldStart: map<PaymentId, bool>
    /** `d->destination`, set when a payment is handed to a destination. */
    var destinationOf: map<PaymentId, NodeId>
    /** `dest->payments` of every destination object. */
    var queues: map<NodeId, seq<PaymentId>>
    /** The payments whose `getroute` this modifier has started and which
        are still in their destination's list. */
    ghost var running: set<PaymentId>

    /** The payment is at the front of its destination's list. */
    ghost predicate IsHead(p: PaymentId)
      reads this
    {
      && p in destinationOf && destinationOf[p] in queues
      && |queues[destinationOf[p]]| > 0 && queues[destinationOf[p]][0] == p
    }

    /** The common list holds distinct, not yet distributed payments; every
        payment in a destination's list points at that destination; and a
        running search belongs to the payment at the front of its list, so
        each destination runs at most one. */
    ghost predicate Valid()
      reads this
    {
      && Distinct(payments)
      && (forall i :: 0 <= i < |payments| ==> payments[i] in shouldStart && payments[i] !in destinationOf)
      && destinationOf.Keys <= shouldStart.Keys
      && (forall n, i :: n in queues && 0 <= i < |queues[n]| ==>
            queues[n][i] in destinationOf && destinationOf[queues[n][i]] == n)
      && (forall p :: p in running ==> IsHead(p))
    }

    /** A new common structure, as the root payment creates. */
    constructor ()
      ensures Valid()
      ensures payments == [] && shouldStart == map[] && destinationOf == map[] && queues == map[]
      ensures running == {}
    {
      payments := [];
      shouldStart := map[];
      destinationOf := map[];
      queues := map[];
      running := {};
    }

    /** At most one search runs per destination. */
    lemma OneRunningPerDestination(p: PaymentId, q: PaymentId)
      requires Valid() && p in running && q in running
      requires destinationOf[p] == destinationOf[q]
      ensures p == q
    {
      assert IsHead(p) && IsHead(q);
    }

    /** `pathdiversity_data_init`: a new payment joins the end of the common
        list, not yet ready. */
    method DataInit(pid: PaymentId)
      requires Valid() && pid !in shouldStart
      modifies this
      ensures Valid()
      ensures payments == old(payments) + [pid] && shouldStart == old(shouldStart)[pid := false]
      ensures destinationOf == old(destinationOf) && queues == old(queues) && running == old(running)
    {
      payments := payments + [pid];
      shouldStart := shouldStart[pid := false];
    }

    /** `pathdiversity_start_payment_of`: hand the payment to its destination
        (creating the destination object on first use) and start its
        `getroute` exactly when it is alone at the front of that list. */
    method StartPaymentOf(pid: PaymentId, target: NodeId) returns (started: bool)
      requires Valid() && pid in shouldStart && pid !in destinationOf && pid !in payments
      modifies this
      ensures Valid()
      ensures destinationOf == old(destinationOf)[pid := target]
      ensures queues == old(queues)[target := Get(old(queues), target) + [pid]]
      ensures started <==> Get(old(queues), target) == []
      ensures started <==> IsHead(pid)
      ensures forall p :: p != pid ==> (IsHead(p) <==> old(IsHead(p)))
      ensures running == if started then old(running) + {pid} else old(running)
      ensures payments == old(payments) && shouldStart == old(shouldStart)
    {
      if target !in queues {
        queues := queues[target := []];
      }
      destinationOf := destinationOf[pid := target];
      queues := queues[target := queues[target] + [pid]];
      started := queues[target][0] == pid;
      assert started ==> old(Get(queues, target)) == [];
      if started {
        running := running + {pid};
      }
    }

    /** The loop at the end of `pathdiversity_step_cb`: while the payment at
        the front of the common list is ready, hand it to its destination.
        `targetOf` gives each payment's `getroute` destination.  The ready
        prefix leaves in order; a payment's search starts exactly when it
        ends up at the front of its destination's list. */
    method Drain(targetOf: PaymentId -> NodeId) returns (started: seq<PaymentId>)
      requires Valid()
      modifies this
      ensures Valid()
      ensures var k := ReadyPrefix(old(payments), old(shouldStart));
              && payments == old(payments)[k..]
              && queues == Distributed(old(queues), old(payments)[..k], targetOf)
              && (forall p :: p in started <==> p in old(payments)[..k] && IsHead(p))
      ensures forall p :: p in running <==> p in old(running) || p in started
      ensures shouldStart == old(shouldStart)
    {
      ghost var original := payments;
      ghost var k := ReadyPrefix(original, shouldStart);
      started := [];
      ghost var i := 0;
      assert original[..0] == [];
      while payments != [] && shouldStart[payments[0]]
        invariant Valid() && i <= k && shouldStart == old(shouldStart)
        invariant DrainedPrefix(original, i, started, old(queues), old(running), targetOf)
        decreases |payments|
      {
        assert payments[0] == original[i];
        started := HandFront(targetOf, original, i, started, old(queues), old(running));
        i := i + 1;
      }
      assert i == k;
    }

    /** The state after the loop above has handed out `original[..i]`, having
        started the searches in `started`, from the lists `queues0` and the
        searches `running0`. */
    ghost predicate DrainedPrefix(original: seq<PaymentId>, i: nat, started: seq<PaymentId>,
                                  queues0: map<NodeId, seq<PaymentId>>, running0: set<PaymentId>,
                                  targetOf: PaymentId -> NodeId)
      reads this
    {
      && i <= |original| && payments == original[i..]
      && (forall j :: 0 <= j < i ==> original[j] in destinationOf)
      && queues == Distributed(queues0, original[..i], targetOf)
      && (forall p :: p in started <==> p in original[..i] && IsHead(p))
      && (forall p :: p in running <==> p in running0 || p in started)
    }

    /** One round of that loop: the payment at the front of the common list
        leaves it and is handed to its destination, and joins `started`
        when its search starts. */
    method HandFront(targetOf: PaymentId -> NodeId, ghost original: seq<PaymentId>, ghost i: nat,
                     started: seq<PaymentId>, ghost queues0: map<NodeId, seq<PaymentId>>,
                     ghost running0: set<PaymentId>)
      returns (started': seq<PaymentId>)
      requires Valid() && DrainedPrefix(original, i, started, queues0, running0, targetOf)
      requires payments != []
      modifies this
      ensures Valid() && DrainedPrefix(original, i + 1, started', queues0, running0, targetOf)
      ensures shouldStart == old(shouldStart)
    {
      var pid := payments[0];
      assert pid == original[i];
      assert original[..i + 1] == original[..i] + [pid];
      assert original[..i + 1][..i] == original[..i];
      assert pid !in original[..i];
      payments := payments[1..];
      assert pid !in payments;
      label Handing:
      var s := StartPaymentOf(pid, targetOf(pid));
      started' := started;
      if s {
        started' := started + [pid];
      }
      forall p | p != pid
        ensures p in started' <==> p in original[..i + 1] && IsHead(p)
      {
        assert IsHead(p) <==> old@Handing(IsHead(p));
      }
    }

    /** The `list_del_init` of `pathdiversity_step_cb` for a payment that has
        left the initialized step: it leaves whichever list it is in. */
    method Leave(pid: PaymentId) returns (listed: bool)
      requires Valid()
      modifies this
      ensures Valid()
      ensures listed <==> pid in old(payments) || (pid in old(destinationOf) && pid in Get(old(queues), old(destinationOf)[pid]))
      ensures payments == Without(old(payments), pid)
      ensures pid in old(destinationOf) && old(destinationOf)[pid] in old(queues) ==>
                queues == old(queues)[old(destinationOf)[pid] := Without(old(queues)[old(destinationOf)[pid]], pid)]
      ensures !(pid in old(destinationOf) && old(destinationOf)[pid] in old(queues)) ==> queues == old(queues)
      ensures running == old(running) - {pid}
      ensures shouldStart == old(shouldStart) && destinationOf == old(destinationOf)
    {
      listed := false;
      if pid in payments {
        LeaveCommon(pid);
        listed := true;
      } else if pid in destinationOf && destinationOf[pid] in queues {
        listed := LeaveDestination(pid);
      }
      running := running - {pid};
      assert forall p :: p in running ==> old(IsHead(p));
    }

    /** `pid` leaves the common list. */
    method LeaveCommon(pid: PaymentId)
      requires Valid() && pid in payments
      modifies this
      ensures Valid()
      ensures payments == Without(old(payments), pid)
      ensures queues == old(queues) && running == old(running)
      ensures shouldStart == old(shouldStart) && destinationOf == old(destinationOf)
    {
      ghost var before := payments;
      payments := Without(payments, pid);
      assert forall i :: 0 <= i < |payments| ==> payments[i] in before;
    }

    /** `pid` leaves its destination's list, and the search it may have run
        is over. */
    method LeaveDestination(pid: PaymentId) returns (listed: bool)
      requires Valid() && pid in destinationOf && destinationOf[pid] in queues
      modifies this
      ensures Valid()
      ensures var n := old(destinationOf)[pid];
              && (listed <==> pid in old(queues)[n])
              && queues == old(queues)[n := Without(old(queues)[n], pid)]
      ensures running == old(running) - {pid}
      ensures payments == old(payments) && shouldStart == old(shouldStart) && destinationOf == old(destinationOf)
    {
      var n := destinationOf[pid];
      ghost var before := queues[n];
      listed := pid in queues[n];
      queues := queues[n := Without(queues[n], pid)];
      assert forall i :: 0 <= i < |queues[n]| ==> queues[n][i] in before;
      running := running - {pid};
      forall p | p in running
        ensures IsHead(p)
      {
        assert old(IsHead(p));
      }
    }

    /** `pathdiversity_step_cb`.  A payment still in the initialized step
        becomes ready; one that has moved on leaves its list, and if it was
        in none nothing else happens.  Then the ready payments are
        distributed. */
    method StepCb(pid: PaymentId, initialized: bool, targetOf: PaymentId -> NodeId)
      returns (started: seq<PaymentId>)
      requires Valid() && pid in shouldStart
      modifies this
      ensures Valid()
      ensures !initialized && pid !in old(payments) && !(pid in old(destinationOf) && pid in Get(old(queues), old(destinationOf)[pid])) ==>
                started == [] && payments == old(payments) && queues == old(queues)
      ensures initialized ==> shouldStart == old(shouldStart)[pid := true]
      ensures initialized ==>
                var k := ReadyPrefix(old(payments), old(shouldStart)[pid := true]);
                && payments == old(payments)[k..]
                && queues == Distributed(old(queues), old(payments)[..k], targetOf)
      ensures !initialized && pid in old(payments) ==>
                var rest := Without(old(payments), pid);
                && (forall y :: y in rest ==> y in old(shouldStart))
                && var k := ReadyPrefix(rest, old(shouldStart));
                && payments == rest[k..]
                && queues == Distributed(old(queues), rest[..k], targetOf)
      ensures !initialized && pid !in old(payments) && pid in old(destinationOf)
              && pid in Get(old(queues), old(destinationOf)[pid]) ==>
                var n := old(destinationOf)[pid];
                var k := ReadyPrefix(old(payments), old(shouldStart));
                && payments == old(payments)[k..]
                && queues == Distributed(old(queues)[n := Without(old(queues)[n], pid)], old(payments)[..k], targetOf)
      ensures forall p :: p in started ==> IsHead(p) && p in running
    {
      if !initialized {
        var listed := Leave(pid);
        if !listed {
          return [];
        }
      } else {
        shouldStart := shouldStart[pid := true];
      }
      started := Drain(targetOf);
    }

    /** `pathdiversity_processing_done`: the payment at the front of its
        destination's list has its route (or has failed); it leaves the list
        and the next payment there, if any, starts its `getroute`. */
    method ProcessingDone(pid: PaymentId) returns (next: Option<PaymentId>)
      requires Valid() && IsHead(pid)
      modifies this
      ensures Valid()
      ensures var n := old(destinationOf)[pid];
              && queues == old(queues)[n := old(queues)[n][1..]]
              && next == (if |old(queues)[n]| > 1 then Some(old(queues)[n][1]) else None)
      ensures next.Some? ==> IsHead(next.value)
      ensures running == (old(running) - {pid}) + (if next.Some? then {next.value} else {})
      ensures payments == old(payments) && shouldStart == old(shouldStart) && destinationOf == old(destinationOf)
    {
      var n := destinationOf[pid];
      queues := queues[n := queues[n][1..]];
      running := running - {pid};
      if queues[n] != [] {
        next := Some(queues[n][0]);
        running := running + {queues[n][0]};
      } else {
        next := None;
      }
    }
  }
}
